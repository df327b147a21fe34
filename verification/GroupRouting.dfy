/** Choosing the robot that sends a group delivery, from a fresh observation of the group. */
module GroupRouting {
  import opened Effects

  /** A configured robot: `client` and `send` say whether it is connected. */
  datatype Entry = Entry(robot: nat, agent: nat, app: nat, client: bool, send: bool)

  datatype Observation = Observation(leaderPresent: bool, leader: Entry, entries: seq<Entry>, members: set<nat>)

  datatype Author = Agent(agent: nat) | User(agent: nat)

  datatype Team = Team(leader: nat, agents: set<nat>)

  /** The sender pinned in a checkpoint; `attribution` is the line shown above a delegated message. */
  datatype Route = Route(robot: nat, agent: nat, delegated: bool, attribution: nat)

  const NO_LABEL: nat := 0

  predicate Seen(o: Observation, e: Entry) { e.app in o.members }

  /** What `inspect` guarantees when it reports the leader as present. */
  predicate Inspected(o: Observation) {
    o.leaderPresent ==> o.leader.client && o.leader.send && Seen(o, o.leader)
  }

  function Find(entries: seq<Entry>, robot: nat, agent: nat): (r: Option<Entry>)
    ensures r.Some? ==> r.value in entries && r.value.robot == robot && r.value.agent == agent
    ensures r.None? ==> forall e :: e in entries ==> !(e.robot == robot && e.agent == agent)
  {
    if entries == [] then None
    else if entries[0].robot == robot && entries[0].agent == agent then Some(entries[0])
    else Find(entries[1..], robot, agent)
  }

  function OfAgent(entries: seq<Entry>, agent: nat): (r: seq<Entry>)
    ensures forall e :: e in r <==> e in entries && e.agent == agent
  {
    if entries == [] then []
    else (if entries[0].agent == agent then [entries[0]] else []) + OfAgent(entries[1..], agent)
  }

  /** `selectSender`: `None` stands for each of its exceptions. */
  function SelectSender(o: Observation, team: Team, author: Author, delegatedLabel: nat,
      pinned: Option<Route>): Option<Route>
  {
    if !o.leaderPresent || author.agent !in team.agents then None
    else if author.User? then
      var own := Route(o.leader.robot, o.leader.agent, false, NO_LABEL);
      if author.agent != team.leader || !o.leader.client || !o.leader.send || !Seen(o, o.leader) then None
      else if pinned.Some? && pinned.value != own then None
      else Some(own)
    else if pinned.Some? then SelectPinned(o, pinned.value)
    else SelectFresh(o, team, author, delegatedLabel)
  }

  function SelectPinned(o: Observation, pin: Route): Option<Route>
  {
    var sender := Find(o.entries, pin.robot, pin.agent);
    if sender.None? || !sender.value.send || !sender.value.client || !Seen(o, sender.value) then None
    else if pin.delegated && sender.value.robot != o.leader.robot then None
    else Some(Route(sender.value.robot, sender.value.agent, pin.delegated, pin.attribution))
  }

  function SelectFresh(o: Observation, team: Team, author: Author, delegatedLabel: nat): Option<Route>
  {
    var candidates := OfAgent(o.entries, author.agent);
    if |candidates| > 1 then None
    else if |candidates| == 1 && Seen(o, candidates[0]) then
      var member := candidates[0];
      if !member.client || !member.send then None
      else Some(Route(member.robot, member.agent, false, NO_LABEL))
    else
      var delegated := author.agent != team.leader;
      Some(Route(o.leader.robot, o.leader.agent, delegated, if delegated then delegatedLabel else NO_LABEL))
  }

  /** The chosen robot is connected and was seen in the group. */
  ghost predicate CanSend(o: Observation, r: Route) {
    && o.leaderPresent
    && exists e :: (e in o.entries || e == o.leader) && e.robot == r.robot && e.agent == r.agent
                   && e.client && e.send && Seen(o, e)
  }

  /** A pinned sender is kept or the delivery waits: never another robot, attribution or delegation. */
  lemma PinIsKept(o: Observation, team: Team, author: Author, delegatedLabel: nat, pin: Route)
    ensures var r := SelectSender(o, team, author, delegatedLabel, Some(pin)); r.Some? ==> r.value == pin
  {
  }

  /** Whoever is selected can send: the leader is present and the sender was seen, for a pinned route too. */
  lemma SelectedCanSend(o: Observation, team: Team, author: Author, delegatedLabel: nat, pinned: Option<Route>)
    requires Inspected(o)
    ensures var r := SelectSender(o, team, author, delegatedLabel, pinned); r.Some? ==> CanSend(o, r.value)
  {
  }

  /** Only the leader speaks for another agent, and then under that agent's name; nobody else is relabelled. */
  lemma DelegationIsTheLeaders(o: Observation, team: Team, author: Author, delegatedLabel: nat)
    ensures var r := SelectSender(o, team, author, delegatedLabel, None);
            r.Some? && (r.value.agent != author.agent || r.value.delegated) ==>
              && r.value.robot == o.leader.robot && r.value.agent == o.leader.agent
              && (author.Agent? && author.agent != team.leader ==>
                    r.value.delegated && r.value.attribution == delegatedLabel
                    && forall e :: e in o.entries && e.agent == author.agent ==> !Seen(o, e))
  {
  }

  // ---- When a sender is selected at all ----------------------------------------------------------

  predicate Ready(o: Observation, e: Entry) { e.client && e.send && Seen(o, e) }

  /** A person's message is mirrored by the leader alone, if it can send, and under no other pin. */
  lemma MirrorIff(o: Observation, team: Team, agent: nat, name: nat, pin: Option<Route>, route: Route)
    ensures SelectSender(o, team, User(agent), name, pin) == Some(route) <==>
              && o.leaderPresent && agent in team.agents && agent == team.leader && Ready(o, o.leader)
              && route == Route(o.leader.robot, o.leader.agent, false, NO_LABEL) && (pin.None? || pin == Some(route))
  {
  }

  /** A pinned sender is kept exactly while it can send, and as the leader's proxy only while it is the leader. */
  lemma PinnedIff(o: Observation, team: Team, agent: nat, name: nat, pin: Route)
    ensures SelectSender(o, team, Agent(agent), name, Some(pin)).Some? <==>
              && o.leaderPresent && agent in team.agents && (pin.delegated ==> pin.robot == o.leader.robot)
              && Find(o.entries, pin.robot, pin.agent).Some? && Ready(o, Find(o.entries, pin.robot, pin.agent).value)
  {
  }

  /**
   * Without a pin the one robot of the author's agent speaks for itself if it is
   * in the group and connected; if it is not there, or there is none, the leader
   * does, and says for whom if that is not itself; several are never chosen from.
   */
  lemma FreshIff(o: Observation, team: Team, agent: nat, name: nat, route: Route)
    ensures SelectSender(o, team, Agent(agent), name, None) == Some(route) <==>
              && o.leaderPresent && agent in team.agents
              && var own := OfAgent(o.entries, agent);
              || (exists e :: own == [e] && Ready(o, e) && route == Route(e.robot, agent, false, NO_LABEL))
              || ((own == [] || exists e :: own == [e] && !Seen(o, e)) &&
                  route == Route(o.leader.robot, o.leader.agent, agent != team.leader,
                                 if agent != team.leader then name else NO_LABEL))
  {
    var own := OfAgent(o.entries, agent);
    if |own| == 1 {
      assert own == [own[0]] && own[0] in own;
    }
  }
}
