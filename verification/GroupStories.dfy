/**
 * What an inspection of a group may come to, given what it heard.
 *
 * Each step of an inspection appends to the trace what it did and what came back,
 * failures included; the predicates here say which result that calls for.
 */
module GroupStories {
  import opened Effects
  import opened GroupRouting
  import opened GroupAdmission
  import opened Mentions

  /** The status standing for the one structured answer that proves absence from the group. */
  const NOT_IN_GROUP: nat := 40000

  datatype Roster = Roster(bots: set<nat>, people: set<nat>)

  datatype Inspection = Absent(reason: Reason) | Present(observation: Observation)

  /** The caller that a scan found, with its roster. */
  datatype Scan = Found(caller: Entry) | Refused(reason: Reason) | Nobody(unavailable: bool)

  datatype WebResult = WebResult(actorPresent: bool, leaderPresent: bool, reason: Reason)

  datatype WebJob = WebJob(valid: bool, key: JobKey, goal: Target, inviters: seq<nat>)

  const MAX_CONFIGURED: nat := 1000

  /** The robots to try after the one that polled: each once, in order of mention. */
  function Candidates(robots: seq<nat>, scopeRobot: nat): (r: seq<nat>)
    ensures Distinct(r) && forall c :: c in r <==> c in robots && c != scopeRobot
    ensures InOrder(r, robots)
  {
    if robots == [] then []
    else
      var last, before := robots[|robots| - 1], Candidates(robots[..|robots| - 1], scopeRobot);
      assert robots == robots[..|robots| - 1] + [last];
      InOrderStays(before, robots[..|robots| - 1], last);
      if last in before || last == scopeRobot then before else before + [last]
  }

  /** Hinted robots are tried before those that are only configured. */
  lemma HintedFirst(hinted: seq<nat>, configured: seq<nat>, scopeRobot: nat, i: nat, j: nat)
    requires i < |Candidates(hinted + configured, scopeRobot)| && j < |Candidates(hinted + configured, scopeRobot)|
    requires Candidates(hinted + configured, scopeRobot)[i] in hinted
    requires Candidates(hinted + configured, scopeRobot)[j] !in hinted
    ensures i < j
  {
    var r := Candidates(hinted + configured, scopeRobot);
    HintedNotAfter(hinted, configured, r[j], r[i]);
  }

  lemma HintedNotAfter(hinted: seq<nat>, configured: seq<nat>, a: nat, b: nat)
    requires a !in hinted && b in hinted
    ensures !MentionedBefore(hinted + configured, a, b)
  {
    var all := hinted + configured;
    var m :| 0 <= m < |hinted| && hinted[m] == b;
    forall k | 0 <= k < |all| && all[k] == a ensures b in all[..k + 1] {
      assert all[..k + 1][m] == b;
    }
  }

  /** The reason reported for a leader that was asked to join; it is never empty. */
  function Reported(reason: Reason): (r: Reason)
    ensures r != NoReason
  {
    if reason in {ApprovalPending, InvitationFailed, InvitationPending, MembershipUnconfirmed} then reason
    else InvitationFailed
  }

  /** The leader first; nobody twice, and no other entry for the application that asks. */
  predicate ProperTargets(targets: seq<Entry>, leader: Entry, caller: Entry) {
    && |targets| > 0 && targets[0] == leader
    && (forall i, j :: 0 <= i < j < |targets| ==> targets[i].app != targets[j].app)
    && (forall i :: 0 < i < |targets| ==> targets[i].app != caller.app)
  }

  datatype Request =
    | Inspect(scopeRobot: nat, key: InviteKey, team: Team, configured: bool, invite: bool, bootstrap: bool)
    | Web(job: WebJob, scopeRobot: nat, scopeAgent: nat)

  function ReadBy(caller: Entry, group: nat, r: Roster): Event { Read(caller.app, group, r.bots, r.people) }

  predicate AppsDistinct(entries: seq<Entry>) {
    forall i, j :: 0 <= i < j < |entries| ==> entries[i].app != entries[j].app
  }

  /** As many applications as entries: then no two have the same. */
  lemma {:induction false} AppsCounted(entries: seq<Entry>)
    ensures |set e <- entries :: e.app| <= |entries|
    ensures |set e <- entries :: e.app| == |entries| <==> AppsDistinct(entries)
    decreases |entries|
  {
    var apps := set e <- entries :: e.app;
    if entries == [] {
      assert apps == {};
    } else {
      var rest, last := entries[..|entries| - 1], entries[|entries| - 1];
      var others := set e <- rest :: e.app;
      AppsCounted(rest);
      assert entries == rest + [last];
      assert apps == others + {last.app};
      if last.app in others {
        var e :| e in rest && e.app == last.app;
        assert apps == others;
        assert exists i :: 0 <= i < |rest| && entries[i].app == last.app;
      } else {
        assert forall i :: 0 <= i < |rest| ==> rest[i] in rest && rest[i].app in others;
      }
    }
  }

  function OfRobot(entries: seq<Entry>, robot: nat): (r: seq<Entry>)
    ensures forall e :: e in r <==> e in entries && e.robot == robot
  {
    if entries == [] then []
    else (if entries[0].robot == robot then [entries[0]] else []) + OfRobot(entries[1..], robot)
  }

  /** The first connected entry of a robot. */
  function Connected(entries: seq<Entry>, robot: nat): (r: Option<Entry>)
    ensures r.Some? ==> r.value in entries && r.value.robot == robot && r.value.client
    ensures r.None? ==> forall e :: e in entries && e.robot == robot ==> !e.client
  {
    if entries == [] then None
    else if entries[0].robot == robot && entries[0].client then Some(entries[0])
    else Connected(entries[1..], robot)
  }

  /** A target was seen in the group since `from`, or its invitation has been counted. */
  ghost predicate SeenOrTried(attempts: map<InviteKey, Attempt>, tr: seq<Event>, from: nat, job: WebJob,
      target: Entry) {
    || InviteKey(job.key.request, job.key.generation, job.goal.group, target.robot) in attempts
    || exists k :: from <= k < |tr| && tr[k].Read? && tr[k].group == job.goal.group && target.app in tr[k].bots
  }

  lemma TriedStays(a: map<InviteKey, Attempt>, b: map<InviteKey, Attempt>, tr: seq<Event>, now: seq<Event>, from: nat,
                   job: WebJob, targets: seq<Entry>)
    requires a.Keys <= b.Keys && tr <= now && forall t :: t in targets ==> SeenOrTried(a, tr, from, job, t)
    ensures forall t :: t in targets ==> SeenOrTried(b, now, from, job, t)
  {
    forall t | t in targets ensures SeenOrTried(b, now, from, job, t) {
      if InviteKey(job.key.request, job.key.generation, job.goal.group, t.robot) !in a {
        var k :| from <= k < |tr| && tr[k].Read? && tr[k].group == job.goal.group && t.app in tr[k].bots;
        assert now[k] == tr[k];
      }
    }
  }

  // ---- Which entry is meant ---------------------------------------------------------------

  /** The one connected entry of a robot; for the polling robot, of its own agent. */
  function Sole(entries: seq<Entry>, robot: nat, scopeRobot: nat, scopeAgent: nat): (r: Option<Entry>)
    ensures r.Some? ==>
              r.value in entries && r.value.robot == robot && r.value.client
              && (robot == scopeRobot ==> r.value.agent == scopeAgent)
  {
    var mine := OfRobot(entries, robot);
    var candidates := if robot == scopeRobot then OfAgent(mine, scopeAgent) else mine;
    if |candidates| == 1 && candidates[0].client then
      assert candidates[0] in candidates && candidates[0] in mine;
      Some(candidates[0])
    else None
  }

  /** How often an entry is there is not changed by leaving out those of other agents or robots. */
  lemma {:induction false} OfAgentCounts(entries: seq<Entry>, agent: nat, e: Entry)
    ensures multiset(OfAgent(entries, agent))[e] == if e.agent == agent then multiset(entries)[e] else 0
  {
    if entries != [] {
      OfAgentCounts(entries[1..], agent, e);
      assert entries == [entries[0]] + entries[1..];
    }
  }

  lemma {:induction false} OfRobotCounts(entries: seq<Entry>, robot: nat, e: Entry)
    ensures multiset(OfRobot(entries, robot))[e] == if e.robot == robot then multiset(entries)[e] else 0
  {
    if entries != [] {
      OfRobotCounts(entries[1..], robot, e);
      assert entries == [entries[0]] + entries[1..];
    }
  }

  /** The only entry of the leader, unless another robot of the caller's application claims to be it. */
  function SoleLeader(entries: seq<Entry>, agent: nat, caller: Entry): (r: Option<Entry>)
    ensures r.Some? ==> r.value in entries && r.value.agent == agent
                        && (forall e :: e in entries && e.agent == agent ==> e == r.value)
                        && (r.value.app == caller.app ==> r.value.robot == caller.robot)
  {
    var leaders := OfAgent(entries, agent);
    if |leaders| != 1 || (leaders[0].app == caller.app && leaders[0].robot != caller.robot) then None
    else
      assert leaders[0] in leaders;
      Some(leaders[0])
  }

  /** The leader, if its look-up was answered. */
  function LeaderAmong(listed: Option<seq<Entry>>, agent: nat, caller: Entry): Option<Entry> {
    if listed.None? then None else SoleLeader(listed.value, agent, caller)
  }

  /** A member that was looked up and found exactly once. */
  function Unambiguous(listed: Option<seq<Entry>>, agent: nat): Option<Entry> {
    if listed.Some? && |OfAgent(listed.value, agent)| == 1 then Some(OfAgent(listed.value, agent)[0]) else None
  }

  // ---- An invitation --------------------------------------------------------------------------

  /** The invitation, its answer, and a failure if the answer could not be saved. */
  predicate Issued(said: seq<Event>, e: Event, r: Outcome<Reason>)
    requires e.Invited?
  {
    match r
    case Ok(reason) => said == [e, Replied(e.key, reason)]
    case Thrown(status) =>
      |said| == 3 && said[0] == e && said[1].Replied? && said[1].key == e.key && said[2] == Failed(0) && status == 0
    case Crashed => |said| <= 2 && said != [] && said[0] == e && (|said| == 2 ==> said[1].Replied?)
  }

  lemma AnswerIssues(said: seq<Event>, e: Event, reason: Reason, r: Outcome<Reason>)
    requires e.Invited?
    requires r.Ok? ==> r.value == reason && said == [e, Replied(e.key, reason)]
    requires r.Thrown? ==> r.status == 0 && said == [e, Replied(e.key, reason), Failed(0)]
    requires r.Crashed? ==> said == [e] || said == [e, Replied(e.key, reason)]
    ensures Issued(said, e, r)
  {
  }

  // ---- The scan for a caller ----------------------------------------------------------------

  /** One robot of a scan: what was heard about it, and what that comes to. */
  datatype Visit = Visit(said: seq<Event>, outcome: Outcome<Option<(Entry, Roster)>>)

  function RosterOf(e: Event): Roster
    requires e.Read?
  {
    Roster(e.bots, e.people)
  }

  predicate ReadsGroup(e: Event, caller: Entry, group: nat) { e.Read? && e.caller == caller.app && e.group == group }

  /** A candidate is found exactly if its own read of the group shows it, and the work was not cancelled. */
  predicate RosterStory(said: seq<Event>, candidate: Entry, group: nat, outcome: Outcome<Option<(Entry, Roster)>>) {
    && said != []
    && if said[0].Failed? then |said| == 1 && outcome == Thrown(said[0].status)
       else
         && ReadsGroup(said[0], candidate, group)
         && if |said| > 1 then |said| == 2 && said[1] == Failed(0) && outcome == Thrown(0)
            else if candidate.app in said[0].bots then outcome == Ok(Some((candidate, RosterOf(said[0]))))
            else outcome == Ok(None)
  }

  /** A robot is found exactly if it is the sole connected one and its own read shows it in the group. */
  predicate ProbeStory(job: JobKey, group: nat, robot: nat, scopeRobot: nat, scopeAgent: nat, v: Visit) {
    var said, outcome := v.said, v.outcome;
    && |said| >= 2 && said[0] == Probed(job, robot) && said[1].Listed? && said[1].asked == ForRobot(robot)
    && if said[1].entries.None? then |said| == 2 && outcome == Thrown(0)
       else
         var candidate := Sole(said[1].entries.value, robot, scopeRobot, scopeAgent);
         if candidate.None? then |said| == 2 && outcome == Ok(None)
         else
           RosterStory(said[2..], candidate.value, group, outcome)
  }

  predicate Visited(job: WebJob, robot: nat, scopeRobot: nat, scopeAgent: nat, v: Visit) {
    || v == Visit([Skipped(job.key, robot)], Thrown(0))
    || ProbeStory(job.key, job.goal.group, robot, scopeRobot, scopeAgent, v)
  }

  predicate Finds(v: Visit) { v.outcome.Ok? && v.outcome.value.Some? }

  predicate Fails(v: Visit) { v.outcome.Thrown? && v.outcome.status != NOT_IN_GROUP }

  /** The robots are visited in order, each as its story says. */
  predicate Scanned(job: WebJob, robots: seq<nat>, scopeRobot: nat, scopeAgent: nat, visits: seq<Visit>) {
    |visits| <= |robots| && forall i :: 0 <= i < |visits| ==> Visited(job, robots[i], scopeRobot, scopeAgent, visits[i])
  }

  function Told(visits: seq<Visit>): seq<Event> {
    if visits == [] then [] else Told(visits[..|visits| - 1]) + visits[|visits| - 1].said
  }

  lemma ToldMore(visits: seq<Visit>, v: Visit)
    ensures Told(visits + [v]) == Told(visits) + v.said
  {
    assert (visits + [v])[..|visits|] == visits;
  }

  /** The first robot found ends the scan: it is the caller, if it sees the applicant; otherwise all were visited. */
  predicate ScanResult(robots: seq<nat>, sender: nat, visits: seq<Visit>, scan: Scan) {
    && (forall i :: 0 <= i < |visits| - 1 ==> !Finds(visits[i]))
    && if visits != [] && Finds(visits[|visits| - 1]) then
         var (caller, roster) := visits[|visits| - 1].outcome.value.value;
         scan == if sender in roster.people then Found(caller) else Refused(ActorNotInGroup)
       else
         |visits| == |robots| && scan == Nobody(exists i :: 0 <= i < |visits| && Fails(visits[i]))
  }

  // ---- The reads of a web request --------------------------------------------------------------

  /** What a read says of inviter and applicant. */
  function Checked(r: Roster, caller: Entry, sender: nat): Reason {
    if caller.app !in r.bots then InviterNotInGroup else if sender !in r.people then ActorNotInGroup else NoReason
  }

  /** The final read shows the inviter, the applicant and the leader together. */
  predicate ShowsAll(r: Roster, caller: Entry, leader: nat, sender: nat) {
    caller.app in r.bots && sender in r.people && leader in r.bots
  }

  lemma CheckedMeans(r: Roster, caller: Entry, leader: nat, sender: nat)
    ensures ShowsAll(r, caller, leader, sender) <==> Checked(r, caller, sender) == NoReason && leader in r.bots
  {
  }

  /** The result that the last read calls for. */
  function ResultOf(r: Roster, caller: Entry, leader: nat, sender: nat, leaderReason: Reason): WebResult {
    var reason := Checked(r, caller, sender);
    if reason != NoReason then WebResult(reason != ActorNotInGroup, false, reason)
    else if leader in r.bots then WebResult(true, true, NoReason)
    else WebResult(true, false, leaderReason)
  }

  /** The work ended in a failure, or in a read of the group by the caller, which decides the result. */
  predicate Ends(tr: seq<Event>, caller: Entry, goal: Target, leader: nat, leaderReason: Reason, result: WebResult) {
    && tr != []
    && var last := tr[|tr| - 1];
       if last.Failed? then result == WebResult(true, false, MembershipCheckFailed)
       else
         && ReadsGroup(last, caller, goal.group)
         && result == ResultOf(RosterOf(last), caller, leader, goal.sender, leaderReason)
  }

  // ---- Whom a web request invites ---------------------------------------------------------------

  /** The look-ups of the members but the leader, in their order. */
  function Lookups(agents: seq<nat>, leader: nat, listed: seq<Option<seq<Entry>>>): seq<Event>
    requires |listed| <= |agents|
  {
    if listed == [] then []
    else
      var n := |listed| - 1;
      Lookups(agents, leader, listed[..n])
      + if agents[n] == leader then [] else [Listed(ForAgent(agents[n]), listed[n])]
  }

  lemma LookupsMore(agents: seq<nat>, leader: nat, listed: seq<Option<seq<Entry>>>, one: Option<seq<Entry>>)
    requires |listed| < |agents|
    ensures Lookups(agents, leader, listed + [one])
            == Lookups(agents, leader, listed)
               + if agents[|listed|] == leader then [] else [Listed(ForAgent(agents[|listed|]), one)]
  {
    assert (listed + [one])[..|listed|] == listed;
  }

  /** Member `i` was looked up and found once; the leader is not looked up again. */
  predicate Invitable(goal: Target, listed: seq<Option<seq<Entry>>>, i: int) {
    0 <= i < |listed| && i < |goal.agents| && goal.agents[i] != goal.leader
    && Unambiguous(listed[i], goal.agents[i]).Some?
  }

  /** Every member that was found once is a target, unless its application is one already, or asks itself. */
  ghost predicate Covered(goal: Target, listed: seq<Option<seq<Entry>>>, caller: Entry, targets: seq<Entry>) {
    forall i :: Invitable(goal, listed, i) ==>
      var e := Unambiguous(listed[i], goal.agents[i]).value;
      e.app == caller.app || exists t <- targets :: t.app == e.app
  }

  /** The leader, and every member that was found once, unless its application is there already or asks itself. */
  ghost predicate TargetsOf(goal: Target, listed: seq<Option<seq<Entry>>>, leader: Entry, caller: Entry,
      targets: seq<Entry>)
  {
    && ProperTargets(targets, leader, caller)
    && (forall i :: Invitable(goal, listed, i) ==>
          var e := Unambiguous(listed[i], goal.agents[i]).value; e.app == caller.app || exists t <- targets ::
              t.app == e.app)
    && (forall j :: 0 < j < |targets| ==> IsMember(goal, listed, targets[j]))
  }

  ghost predicate IsMember(goal: Target, listed: seq<Option<seq<Entry>>>, e: Entry) {
    exists i :: Invitable(goal, listed, i) && Unambiguous(listed[i], goal.agents[i]).value == e
  }

  function TargetKey(job: WebJob, target: Entry): InviteKey {
    InviteKey(job.key.request, job.key.generation, job.goal.group, target.robot)
  }

  /** A target's turn: a read that shows it, or lacks it and is followed by an invitation if the ledger lets it be. */
  predicate TurnStory(turn: seq<Event>, before: map<InviteKey, Attempt>, after: map<InviteKey, Attempt>,
      key: InviteKey, app: nat, answer: Option<Reason>)
  {
    && turn != [] && turn[0].Read?
    && if app in turn[0].bots then |turn| == 1 && answer.None?
       else
         && key in after && answer.Some?
         && if |turn| == 1 then key in before && answer.value == before[key].reason
            else |turn| == 3 && turn[1].Invited? && turn[2].Replied? && turn[1].key == turn[2].key == key
                 && answer.value == turn[2].reason
  }

  /** Why a leader is still missing at the end: as it was answered when its turn came. */
  predicate LeaderReason(said: seq<Event>, ledger: map<InviteKey, Attempt>, job: WebJob, leader: Entry,
      reason: Reason) {
    var key := TargetKey(job, leader);
    && said != [] && said[0].Read?
    && if leader.app in said[0].bots then reason == LeaderNotInGroup
       else if |said| > 2 && said[1].Invited? && said[2].Replied? then
         said[1].key == said[2].key == key && reason == Reported(said[2].reason)
       else key in ledger && reason == Reported(ledger[key].reason)
  }

  predicate InviteWhole(said: seq<Event>) { |said| > 1 && said[1].Invited? ==> |said| > 2 }

  lemma LeaderReasonStays(said: seq<Event>, more: seq<Event>, ledger: map<InviteKey, Attempt>, job: WebJob,
      leader: Entry, reason: Reason)
    requires LeaderReason(said, ledger, job, leader, reason) && InviteWhole(said)
    requires more != [] && more[0].Read?
    ensures LeaderReason(said + more, ledger, job, leader, reason) && InviteWhole(said + more)
  {
  }

  // ---- A web request, from its target to its result -------------------------------------------------

  /** The look-ups of the members, the targets they gave, and why the leader would still be missing. */
  datatype Work = Work(listed: seq<Option<seq<Entry>>>, targets: seq<Entry>, leaderReason: Reason)

  /** Since `from` the members were looked up, and every target was seen or had its invitation counted. */
  ghost predicate Completed(tr: seq<Event>, from: nat, job: WebJob, caller: Entry, leader: Entry,
      before: map<InviteKey, Attempt>, after: map<InviteKey, Attempt>, w: Work)
  {
    && |w.listed| == |job.goal.agents|
    && var lookups := Lookups(job.goal.agents, job.goal.leader, w.listed);
    && from + |lookups| <= |tr| && tr[from..from + |lookups|] == lookups
    && TargetsOf(job.goal, w.listed, leader, caller, w.targets)
    && (forall t :: t in w.targets ==> SeenOrTried(after, tr, from + |lookups|, job, t))
    && LeaderReason(tr[from + |lookups|..], before, job, leader, w.leaderReason)
  }

  /**
   * From a caller to a result.  Without the leader's only entry, or if that cannot send, the result says so and
   * nothing else was done; otherwise the last thing heard decides, and unless inviter or applicant are missing
   * from it, all invitations were made.
   */
  ghost predicate CallerStory(tr: seq<Event>, from: nat, job: WebJob, caller: Entry,
      before: map<InviteKey, Attempt>, after: map<InviteKey, Attempt>, w: Work, result: WebResult)
  {
    && from < |tr| && tr[from].Listed? && tr[from].asked == ForAgent(job.goal.leader)
    && match LeaderAmong(tr[from].entries, job.goal.leader, caller)
       case None => |tr| == from + 1 && result == WebResult(true, false, LeaderMissingOrAmbiguous)
       case Some(leader) =>
         if !leader.client || !leader.send then |tr| == from + 1 && result == WebResult(true, false, LeaderUnavailable)
         else
           && |tr| > from + 1 && Ends(tr, caller, job.goal, leader.app, w.leaderReason, result)
           && (var last := tr[|tr| - 1];
               last.Read? && Checked(RosterOf(last), caller, job.goal.sender) == NoReason ==>
                 Completed(tr, from + 1, job, caller, leader, before, after, w))
  }

  /** What the scan comes to: no robot in the group, one that does not see the applicant, or a caller. */
  ghost predicate TargetStory(tr: seq<Event>, from: nat, job: WebJob, scopeRobot: nat, scopeAgent: nat, cursor: nat,
      before: map<InviteKey, Attempt>, after: map<InviteKey, Attempt>, visits: seq<Visit>, scan: Scan, w: Work,
      result: WebResult)
  {
    && from < |tr| && tr[from].Configured?
    && var robots := tr[from].robots;
       if robots.None? || |robots.value| > MAX_CONFIGURED then
         |tr| == from + 1 && result == WebResult(false, false, MembershipCheckFailed)
       else
         var candidates := Candidates(job.inviters + robots.value, scopeRobot);
         var tried, at := [scopeRobot] + Batch(candidates, cursor), from + 1 + |Told(visits)|;
         && at <= |tr| && tr[from + 1..at] == Told(visits)
         && Scanned(job, tried, scopeRobot, scopeAgent, visits)
         && ScanResult(tried, job.goal.sender, visits, scan)
         && match scan
            case Refused(reason) => |tr| == at && result == WebResult(false, false, reason)
            case Nobody(unavailable) =>
              |tr| == at
              && result == WebResult(false, false,
                             if unavailable || |candidates| > BATCH then MembershipCheckFailed else InviterNotInGroup)
            case Found(caller) => CallerStory(tr, at, job, caller, before, after, w, result)
  }

  /**
   * The last read was made by the caller that the scan found, and shows inviter, applicant and a leader that
   * can act.
   */
  ghost predicate ShownTogether(tr: seq<Event>, from: nat, job: WebJob, visits: seq<Visit>, scan: Scan) {
    && scan.Found? && var at := from + 1 + |Told(visits)|;
    && at < |tr| && tr[at].Listed? && var leader := LeaderAmong(tr[at].entries, job.goal.leader, scan.caller);
    && leader.Some? && leader.value.client && leader.value.send
    && var last := tr[|tr| - 1];
    && ReadsGroup(last, scan.caller, job.goal.group)
    && ShowsAll(RosterOf(last), scan.caller, leader.value.app, job.goal.sender)
  }

  /** A request succeeds exactly if its last read shows inviter, applicant and leader together. */
  lemma SuccessIff(tr: seq<Event>, from: nat, job: WebJob, scopeRobot: nat, scopeAgent: nat, cursor: nat,
      before: map<InviteKey, Attempt>, after: map<InviteKey, Attempt>, visits: seq<Visit>, scan: Scan, w: Work,
      result: WebResult)
    requires TargetStory(tr, from, job, scopeRobot, scopeAgent, cursor, before, after, visits, scan, w, result)
    requires tr[from].robots.Some? && |tr[from].robots.value| <= MAX_CONFIGURED
    ensures result.reason == NoReason <==> ShownTogether(tr, from, job, visits, scan)
    ensures result.leaderPresent <==> result.reason == NoReason
    ensures result.leaderPresent ==> result.actorPresent
  {
    hide Told, Scanned, Batch, Candidates, Completed, LeaderAmong;
    if scan.Found? && ShownTogether(tr, from, job, visits, scan) {
      var at := from + 1 + |Told(visits)|;
      assert CallerStory(tr, at, job, scan.caller, before, after, w, result);
    }
    if scan.Found? && result.reason == NoReason {
      Succeeds(tr, from + 1 + |Told(visits)|, job, scan.caller, before, after, w, result);
    }
  }

  lemma Succeeds(tr: seq<Event>, from: nat, job: WebJob, caller: Entry,
      before: map<InviteKey, Attempt>, after: map<InviteKey, Attempt>, w: Work, result: WebResult)
    requires CallerStory(tr, from, job, caller, before, after, w, result) && result.reason == NoReason
    ensures var leader, last := LeaderAmong(tr[from].entries, job.goal.leader, caller), tr[|tr| - 1];
            && leader.Some? && leader.value.client && leader.value.send && ReadsGroup(last, caller, job.goal.group)
            && ShowsAll(RosterOf(last), caller, leader.value.app, job.goal.sender)
  {
    hide LeaderAmong;
  }

  // ---- The inspection of a bound group ------------------------------------------------------------

  /** The robot that goes on asking: the leader, or on a bootstrap whoever was addressed. */
  function Asker(own: Option<Entry>, leader: Entry, bootstrap: bool, first: Entry, members: set<nat>): Entry {
    if bootstrap && leader.app !in members then own.GetOr(leader) else first
  }

  /** The leader reads the group; if that fails, on a bootstrap, the robot that was addressed does. */
  predicate FirstStory(said: seq<Event>, group: nat, own: Option<Entry>, leader: Entry, bootstrap: bool, asker: Entry) {
    || (|said| == 1 && ReadsGroup(said[0], leader, group)
        && asker == Asker(own, leader, bootstrap, leader, said[0].bots))
    || (|said| == 2 && said[0].Failed? && bootstrap && own.Some? && own.value != leader
        && ReadsGroup(said[1], own.value, group)
        && asker == Asker(own, leader, bootstrap, own.value, said[1].bots))
  }

  /** A read failed, and if it was the leader's first one there was nobody else to ask. */
  predicate GaveUp(said: seq<Event>, own: Option<Entry>, leader: Entry, bootstrap: bool) {
    && said != [] && said[|said| - 1].Failed?
    && (|said| == 1 ==> !(bootstrap && own.Some? && own.value != leader))
  }

  /** An invitation and its answer, or none because the ledger forbids it. */
  predicate InviteStory(said: seq<Event>, key: InviteKey, caller: Entry, target: Entry) {
    || said == []
    || (|said| == 2 && said[0].Invited? && said[0].key == key && said[0].caller == caller.app
        && said[0].target == target.app && said[0].sender.None? && said[1].Replied? && said[1].key == key)
  }

  /** What is observed: the leader, if the last read shows it, and else why not. */
  predicate Observes(e: Event, leader: Entry, entries: seq<Entry>, absent: Reason, result: Inspection) {
    && e.Read?
    && result == if leader.app in e.bots then Present(Observation(true, leader, entries, e.bots)) else Absent(absent)
  }

  /** The inviter is read again, invites if the ledger lets it, and reads once more. */
  predicate InvitedStory(more: seq<Event>, key: InviteKey, entries: seq<Entry>, leader: Entry, asker: Entry,
      ledger: map<InviteKey, Attempt>, result: Inspection)
  {
    && more != [] && ReadsGroup(more[0], asker, key.group)
    && if asker.app !in more[0].bots then |more| == 1 && result == Absent(InviterNotInGroup)
       else
         var last, full := |more| - 1, key.(robot := leader.robot);
         && last >= 1 && ReadsGroup(more[last], asker, key.group)
         && InviteStory(more[1..last], full, asker, leader)
         && full in ledger && Observes(more[last], leader, entries, ledger[full].reason, result)
  }

  /** After the first read: nothing more, unless the leader is missing and may be invited. */
  predicate MoreStory(first: Event, more: seq<Event>, key: InviteKey, entries: seq<Entry>, leader: Entry, asker: Entry,
      invite: bool, ledger: map<InviteKey, Attempt>, result: Inspection)
  {
    && first.Read?
    && if leader.app in first.bots || !invite then
         more == [] && Observes(first, leader, entries, LeaderNotInGroup, result)
       else InvitedStory(more, key, entries, leader, asker, ledger, result)
  }

  /** The whole inspection, for the entries that were listed. */
  ghost predicate EntriesStory(said: seq<Event>, key: InviteKey, scopeRobot: nat, entries: seq<Entry>, agent: nat,
      invite: bool, bootstrap: bool, ledger: map<InviteKey, Attempt>, result: Inspection)
  {
    var leaders := OfAgent(entries, agent);
    if |leaders| != 1 || !AppsDistinct(entries) then said == [] && result == Absent(LeaderMissingOrAmbiguous)
    else if !leaders[0].client || !leaders[0].send then said == [] && result == Absent(LeaderUnavailable)
    else
      || (GaveUp(said, Connected(entries, scopeRobot), leaders[0], bootstrap)
          && result == Absent(MembershipCheckFailed))
      || exists first, more, asker ::
           && said == first + more
           && ReadStory(first, more, key, scopeRobot, entries, leaders[0], asker, invite, bootstrap, ledger, result)
  }

  predicate ReadStory(first: seq<Event>, more: seq<Event>, key: InviteKey, scopeRobot: nat, entries: seq<Entry>,
      leader: Entry, asker: Entry, invite: bool, bootstrap: bool, ledger: map<InviteKey, Attempt>, result: Inspection)
  {
    && FirstStory(first, key.group, Connected(entries, scopeRobot), leader, bootstrap, asker)
    && first != []
    && MoreStory(first[|first| - 1], more, key, entries, leader, asker, invite, ledger, result)
  }

  /** A leader that is reported present is shown by the last read. */
  lemma ReadStoryMeans(first: seq<Event>, more: seq<Event>, key: InviteKey, scopeRobot: nat, entries: seq<Entry>,
      leader: Entry, asker: Entry, invite: bool, bootstrap: bool, ledger: map<InviteKey, Attempt>, result: Inspection)
    requires ReadStory(first, more, key, scopeRobot, entries, leader, asker, invite, bootstrap, ledger, result)
    ensures first != []
    ensures result.Present? ==>
              var e, o := (first + more)[|first + more| - 1], result.observation;
              && e.Read? && e.bots == o.members && o == Observation(true, leader, entries, o.members)
              && leader.app in o.members
  {
  }
}
