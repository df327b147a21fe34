/** What holds of one item's delivery over all runs, with crashes and failed saves anywhere. */
module DeliveryGuarantees {
  import opened Effects
  import opened GroupRouting
  import opened Mentions
  import opened Audience
  import opened DeliveryProtocol
  import Runs

  /** The invariant, in a run of an item that is a group's or not for good. */
  ghost predicate InvFor(shared: bool, s: State) {
    Inv(s) && s.shared == shared
  }

  lemma RunKeeps(s: State, t: State)
    requires Inv(s) && Leads(s, t)
    ensures Inv(t) && t.shared == s.shared
  {
    hide Inv, Can, Do;
    var inv := (x: State) => InvFor(s.shared, x);
    forall x, a | inv(x) && Can(x, a) ensures inv(Do(x, a)) {
      ActionKeeps(x, a);
      SameItem(x, a);
    }
    Runs.Kept(Can, Do, inv, s, t);
  }

  lemma SameItem(s: State, a: Action)
    ensures Do(s, a).shared == s.shared && s.trace <= Do(s, a).trace
  {
  }

  lemma ReachableInv(s: State)
    requires Reachable(s)
    ensures Inv(s)
  {
    var init :| Initial(init) && Leads(init, s);
    InitialInv(init);
    RunKeeps(init, s);
  }

  lemma Further(s: State, t: State, a: Action)
    requires Leads(s, t) && Can(t, a)
    ensures Leads(s, Do(t, a))
  {
    hide Can, Do;
    Runs.OneMore(Can, Do, s, t, a);
  }

  lemma ReachableStep(s: State, a: Action)
    requires Reachable(s) && Can(s, a)
    ensures Reachable(Do(s, a))
  {
    hide Can, Do, Initial;
    var init :| Initial(init) && Leads(init, s);
    Further(init, s, a);
  }

  lemma ReachableRun(s: State, t: State)
    requires Reachable(s) && Leads(s, t)
    ensures Reachable(t)
  {
    var init :| Initial(init) && Leads(init, s);
    Runs.Chain(Can, Do, init, s, t);
  }

  lemma RunExtends(s: State, t: State)
    requires Leads(s, t)
    ensures s.trace <= t.trace
  {
    hide Can, Do;
    var longer := (x: State) => s.trace <= x.trace;
    forall x, a | longer(x) && Can(x, a) ensures longer(Do(x, a)) { SameItem(x, a); }
    Runs.Kept(Can, Do, longer, s, t);
  }

  /** Parts go out in index order, and nothing below a progress that was once saved is sent again. */
  lemma PartsInOrder(s: State, k: nat)
    requires Reachable(s) && k < |s.trace| && s.trace[k].Sent?
    ensures SentBelow(s.trace[..k], s.trace[k].digest, s.trace[k].index)
    ensures forall m :: 0 <= m < k && s.trace[m].Sent? && s.trace[m].life == s.trace[k].life ==>
              s.trace[m].digest == s.trace[k].digest && s.trace[m].saved <= s.trace[k].index
  {
    ReachableInv(s);
    forall m | 0 <= m < k && s.trace[m].Sent? && s.trace[m].life == s.trace[k].life
      ensures s.trace[m].digest == s.trace[k].digest && s.trace[m].saved <= s.trace[k].index
    {
      assert MayFollow(s.shared, s.trace[m], s.trace[k]);
    }
  }

  /** An acknowledgement is requested only for a content all of whose parts were sent before. */
  lemma AckAfterEveryPart(s: State, k: nat)
    requires Reachable(s) && k < |s.trace| && s.trace[k].AckAsked?
    ensures SentBelow(s.trace[..k], s.trace[k].digest, s.trace[k].digest.parts)
    ensures forall m :: 0 <= m < k && s.trace[m].Sent? &&
              (s.trace[m].life == s.trace[k].life || (s.shared && s.trace[m].durable))
              ==> s.trace[m].digest == s.trace[k].digest
  {
    ReachableInv(s);
    forall m | 0 <= m < k && s.trace[m].Sent? &&
        (s.trace[m].life == s.trace[k].life || (s.shared && s.trace[m].durable))
      ensures s.trace[m].digest == s.trace[k].digest
    {
      assert MayFollow(s.shared, s.trace[m], s.trace[k]);
    }
  }

  lemma {:induction false} RefusalsBetween(tr: seq<Event>, i: nat, j: nat)
    requires i <= j <= |tr| && forall m :: i <= m < j ==> !tr[m].Refused?
    ensures Refusals(tr[..i]) == Refusals(tr[..j])
    decreases j - i
  {
    if i < j {
      assert tr[..j][..|tr[..j]| - 1] == tr[..j - 1];
      RefusalsBetween(tr, i, j - 1);
    }
  }

  /**
   * Two sends of one part carry the same route and payload, unless the service
   * refused the audience in between; then only a smaller audience may follow.
   */
  lemma PinnedPayload(s: State, i: nat, j: nat)
    requires Reachable(s) && s.shared && i < j < |s.trace| && s.trace[i].Sent? && s.trace[j].Sent?
    requires s.trace[i].durable
    ensures s.trace[j].digest == s.trace[i].digest && s.trace[j].route == s.trace[i].route
    ensures s.trace[j].users == s.trace[i].users && s.trace[j].legacy == s.trace[i].legacy
    ensures s.trace[i].index <= s.trace[j].index
    ensures var was, now := s.trace[i].payload, s.trace[j].payload;
            s.trace[j].index == s.trace[i].index && was.Some? && now != was ==>
              && (exists m :: i < m < j && s.trace[m].Refused?)
              && now.Some? && Shrinks(was.value, now.value)
  {
    ReachableInv(s);
    var e, f := s.trace[i], s.trace[j];
    assert MayFollow(s.shared, e, f);
    if forall m :: i < m < j ==> !s.trace[m].Refused? {
      assert !s.trace[i].Refused?;
      RefusalsBetween(s.trace, i, j);
    }
  }

  /** After a durable acknowledgement request no coordinator sends the group item again. */
  lemma AckIsFinal(s: State, i: nat, j: nat)
    requires Reachable(s) && s.shared && i < j < |s.trace| && s.trace[i].AckAsked? && s.trace[i].durable
    ensures !s.trace[j].Sent?
  {
    ReachableInv(s);
    assert MayFollow(s.shared, s.trace[i], s.trace[j]);
  }

  // ---- Every group send rests on a fresh observation --------------------------

  /** At `m` the group was observed, as `seen` says, and since then only the current part was sent. */
  ghost predicate SeenAt(s: State, m: nat) {
    && s.seen.Some? && m < |s.trace| && s.trace[m] == Observed(s.seen.value.0, s.seen.value.1, true)
    && forall k :: m < k < |s.trace| ==> !s.trace[k].Observed? && (s.trace[k].Sent? ==> CurrentPart(s, s.trace[k]))
  }

  predicate CurrentPart(s: State, e: Event) {
    && e.Sent? && s.mem.Some? && e.life == s.mem.value.life && e.index == s.mem.value.next
    && s.mem.value.next < s.mem.value.digest.parts
  }

  /**
   * The send at `k` follows an observation, at `m`, of the active group: with the leader
   * present, the sender in the roster and the same generation.  It is the last
   * observation before `k`, and no other part was sent in between.
   */
  ghost predicate RestsOn(tr: seq<Event>, k: nat, m: nat)
    requires k < |tr| && tr[k].Sent? && tr[k].route.Some?
  {
    && m < k && tr[m].Observed? && tr[m].active && tr[m].generation == tr[k].generation
    && tr[m].observation.leaderPresent && CanSend(tr[m].observation, tr[k].route.value)
    && forall j :: m < j < k ==>
         !tr[j].Observed? && (tr[j].Sent? ==> tr[j].life == tr[k].life && tr[j].index == tr[k].index)
  }

  ghost predicate Rests(tr: seq<Event>, k: nat)
    requires k < |tr| && tr[k].Sent? && tr[k].route.Some?
  {
    exists m: nat :: RestsOn(tr, k, m)
  }

  ghost predicate AllRest(s: State) {
    && (s.seen.Some? ==> exists m: nat :: SeenAt(s, m))
    && (s.shared ==> forall k :: 0 <= k < |s.trace| && s.trace[k].Sent? && s.trace[k].route.Some? ==> Rests(s.trace, k))
  }

  lemma RestsStays(tr: seq<Event>, now: seq<Event>, k: nat)
    requires tr <= now && k < |tr| && tr[k].Sent? && tr[k].route.Some? && Rests(tr, k)
    ensures Rests(now, k)
  {
    var m: nat :| RestsOn(tr, k, m);
    assert now[k] == tr[k] && now[m] == tr[m];
    forall j | m < j < k
      ensures !now[j].Observed? && (now[j].Sent? ==> now[j].life == now[k].life && now[j].index == now[k].index)
    {
      assert now[j] == tr[j];
    }
    assert RestsOn(now, k, m);
  }

  lemma SeenKeeps(s: State, a: Action)
    requires (s.seen.Some? ==> exists m: nat :: SeenAt(s, m)) && Can(s, a) && Do(s, a).seen.Some?
    ensures exists m: nat :: SeenAt(Do(s, a), m)
  {
    hide CanSend, Shrinks;
    var t := Do(s, a);
    if a.Observe? {
      assert SeenAt(t, |s.trace|);
    } else {
      var m: nat :| SeenAt(s, m);
      assert t.trace[m] == s.trace[m];
      forall k | m < k < |t.trace| ensures !t.trace[k].Observed? && (t.trace[k].Sent? ==> CurrentPart(t, t.trace[k])) {
        if k < |s.trace| { assert t.trace[k] == s.trace[k]; }
      }
      assert SeenAt(t, m);
    }
  }

  lemma SendRests(s: State, g: nat)
    requires AllRest(s) && s.shared && Can(s, Send(g))
    ensures Rests(s.trace + [SentBy(s, g)], |s.trace|)
  {
    var m: nat :| SeenAt(s, m);
    assert RestsOn(s.trace + [SentBy(s, g)], |s.trace|, m);
  }

  lemma RestsKeeps(s: State, a: Action)
    requires AllRest(s) && Can(s, a)
    ensures AllRest(Do(s, a))
  {
    hide Rests, SeenAt;
    var t := Do(s, a);
    if t.seen.Some? { SeenKeeps(s, a); }
    SameItem(s, a);
    if s.shared {
      forall k | 0 <= k < |t.trace| && t.trace[k].Sent? && t.trace[k].route.Some? ensures Rests(t.trace, k) {
        if k < |s.trace| {
          RestsStays(s.trace, t.trace, k);
        } else {
          SendRests(s, a.generation);
        }
      }
    }
  }

  /**
   * Every group send of a run rests on a fresh observation of the group.  What an
   * earlier process had sent is on record without a route.
   */
  lemma FreshRoute(s: State, k: nat)
    requires Reachable(s) && s.shared && k < |s.trace| && s.trace[k].Sent? && s.trace[k].route.Some?
    ensures exists m: nat :: RestsOn(s.trace, k, m)
  {
    hide Can, Do;
    var init :| Initial(init) && Leads(init, s);
    forall x, a | AllRest(x) && Can(x, a) ensures AllRest(Do(x, a)) { RestsKeeps(x, a); }
    Runs.Kept(Can, Do, AllRest, init, s);
    assert Rests(s.trace, k);
  }

  // ---- Whom a message mentions ------------------------------------------------------------------------

  /**
   * Every message that a run sends mentions whom its checkpoint says: those accounts, once each and, if a roster
   * was read for it, as far as that roster confirmed them; the first fifty are shown and the rest is counted.
   * After a refusal, a part of these fifty.
   */
  lemma SentIsAddressed(s: State, k: nat)
    requires Reachable(s) && k < |s.trace| && s.trace[k].Sent? && s.trace[k].payload.Some?
    ensures Addressed(s.trace[..k], s.trace[k].legacy, s.trace[k].users, s.trace[k].payload.value)
  {
    hide Addressed;
    ReachableInv(s);
  }

  /** In particular nobody is mentioned who was not asked for, and the first message leaves out nobody silently. */
  lemma AddressedMeans(tr: seq<Event>, legacy: bool, users: Option<seq<nat>>, p: Payload)
    requires Addressed(tr, legacy, users, p)
    ensures forall u :: u in p.shown ==> u in Base(legacy, users)
    ensures p.revision == 0 && (forall e :: e in tr ==> !e.RosterRead?) ==>
              |p.shown| + p.omitted == |Once(Base(legacy, users))|
  {
    var roster: Option<set<nat>>, first: seq<nat> :| AddressedBy(tr, legacy, users, p, roster, first);
    SubsequenceMembers(p.shown, first);
    var all := Intended(Base(legacy, users), roster);
    forall u | u in first ensures u in all {
      var i :| 0 <= i < |first| && first[i] == u;
      assert all[i] == u;
    }
  }

  lemma {:induction false} SubsequenceMembers(part: seq<nat>, all: seq<nat>)
    requires Subsequence(part, all)
    ensures forall u :: u in part ==> u in all
    decreases all
  {
    if part != [] {
      assert forall u :: u in all[1..] ==> u in all;
      if part[0] == all[0] {
        SubsequenceMembers(part[1..], all[1..]);
        assert part == [part[0]] + part[1..];
      } else {
        SubsequenceMembers(part, all[1..]);
      }
    }
  }

  // ---- Exactly when are pins and acknowledgements final? ----------------------

  /** `f` continues the delivery of which `e` was a send, without going back or changing what is pinned. */
  predicate Continues(e: Event, f: Event)
    requires e.Sent? && f.Sent?
  {
    && f.digest == e.digest && f.route == e.route && e.index <= f.index
    && (f.index == e.index ==>
          f.payload == e.payload || (e.payload.Some? && Keeps(e.payload, e.refusals, f.payload)))
  }

  /** Nothing sent after `k` goes back on what was sent there. */
  ghost predicate Steady(tr: seq<Event>, k: nat) {
    k < |tr| && tr[k].Sent? && forall m :: k < m < |tr| && tr[m].Sent? ==> Continues(tr[k], tr[m])
  }

  function EntryOf(r: Route): Entry { Entry(r.robot, r.agent, 0, true, true) }

  function Sighting(r: Route): Observation { Observation(true, EntryOf(r), [], {0}) }

  lemma SightingCanSend(r: Route)
    ensures CanSend(Sighting(r), r)
  {
  }

  lemma Step(origin: State, s: State, a: Action) returns (t: State)
    requires Leads(origin, s) && Can(s, a)
    ensures Leads(origin, t) && t == Do(s, a)
  {
    t := Do(s, a);
    Further(origin, s, a);
  }

  /** Once a shared checkpoint is in memory with a payload, its current part can be sent. */
  lemma SendNow(origin: State, s: State) returns (t: State)
    requires Leads(origin, s)
    requires s.shared && s.mem.Some? && s.mem.value.route.Some? && s.mem.value.transport.Some?
    requires !s.mem.value.acked && s.mem.value.next < s.mem.value.digest.parts
    ensures Leads(origin, t) && |t.trace| == |s.trace| + 2 && s.trace <= t.trace
    ensures var f := t.trace[|s.trace| + 1];
            f.Sent? && f.digest == s.mem.value.digest && f.index == s.mem.value.next &&
                f.payload == s.mem.value.transport
  {
    hide Leads, CanSend;
    SightingCanSend(s.mem.value.route.value);
    t := Step(origin, s, Observe(Sighting(s.mem.value.route.value), 0, true));
    t := Step(origin, t, Send(0));
  }

  /** A first payload for a checkpoint, when no roster is read. */
  function FirstPayload(c: Checkpoint, id: nat): (p: Payload)
    ensures p.id == id && p.revision == 0
    ensures Splits(Intended(Base(c.legacy, c.users), None), p.shown, p.omitted)
  {
    var all := Intended(Base(c.legacy, c.users), None);
    var n := if |all| > MAX_NOTIFY_USERS then MAX_NOTIFY_USERS else |all|;
    Payload(id, 1, all[..n], |all| - n, 0, 0)
  }

  /** A crash, and then a send of what the durable copy says, with another payload if it has none. */
  lemma ResendFromDisk(origin: State, s: State, id: nat) returns (t: State)
    requires Leads(origin, s)
    requires s.shared && s.disk.Some? && s.disk.value.route.Some?
    requires !s.disk.value.acked && s.disk.value.next < s.disk.value.digest.parts
    ensures Leads(origin, t) && |t.trace| == |s.trace| + 2 && s.trace <= t.trace
    ensures var f := t.trace[|s.trace| + 1];
            && f.Sent? && f.digest == s.disk.value.digest && f.index == s.disk.value.next
            && f.payload == if s.disk.value.transport.Some? then s.disk.value.transport
                            else Some(FirstPayload(s.disk.value, id))
  {
    hide Leads, Splits, Intended;
    t := Step(origin, s, Crash);
    if s.disk.value.transport.None? { t := Step(origin, t, Fill(FirstPayload(s.disk.value, id), None)); }
    t := SendNow(origin, t);
  }

  /** A crash before the first save, and then a delivery pinned anew to any content. */
  lemma ResendAnew(origin: State, s: State, d: Digest, r: Route) returns (t: State)
    requires Leads(origin, s)
    requires s.shared && s.disk.None? && d.parts > 0
    ensures Leads(origin, t) && |t.trace| == |s.trace| + 2 && s.trace <= t.trace
    ensures var f := t.trace[|s.trace| + 1]; f.Sent? && f.digest == d
  {
    hide Leads, Splits, Intended;
    t := Step(origin, s, Crash);
    t := Step(origin, t, Pin(d, [], Some(r)));
    t := Step(origin, t, Fill(FirstPayload(t.mem.value, 0), None));
    t := SendNow(origin, t);
  }

  /** A durable send of a group item is followed only by sends that continue it. */
  lemma DurableIsContinued(s: State, k: nat)
    requires Reachable(s) && s.shared && k < |s.trace| && s.trace[k].Sent? && s.trace[k].durable
    requires s.trace[k].payload.Some?
    ensures Steady(s.trace, k)
  {
    hide Reachable, Copies, Pending, Events, Progress, Ordered, Counted, CopyFits, Keeps;
    ReachableInv(s);
    forall m | k < m < |s.trace| && s.trace[m].Sent? ensures Continues(s.trace[k], s.trace[m]) {
      assert MayFollow(s.shared, s.trace[k], s.trace[m]);
    }
  }

  lemma BackedIsSteady(s: State, g: nat, t: State)
    requires Reachable(s) && s.shared && Can(s, Send(g)) && Backed(s) && Leads(Do(s, Send(g)), t)
    ensures Steady(t.trace, |s.trace|)
  {
    hide Reachable, Leads, Inv, Steady;
    var sent := Do(s, Send(g));
    ReachableStep(s, Send(g));
    ReachableRun(sent, t);
    ReachableInv(sent);
    RunKeeps(sent, t);
    RunExtends(sent, t);
    assert t.trace[|s.trace|] == sent.trace[|s.trace|] == SentBy(s, g);
    assert s.mem.value.transport.Some?;
    DurableIsContinued(t, |s.trace|);
  }

  lemma UnbackedIsNotSteady(s: State, g: nat) returns (t: State)
    requires Reachable(s) && s.shared && Can(s, Send(g)) && !Backed(s)
    ensures Leads(Do(s, Send(g)), t) && !Steady(t.trace, |s.trace|)
  {
    hide TraceInv, Reachable;
    ReachableInv(s);
    var sent, c, e := Do(s, Send(g)), s.mem.value, SentBy(s, g);
    Runs.Stay(Can, Do, sent);
    if s.disk.None? {
      t := ResendAnew(sent, sent, Digest(c.digest.text + 1, 1), c.route.value);
    } else {
      t := ResendFromDisk(sent, sent, c.transport.value.id + 1);
    }
    assert t.trace[|s.trace|] == sent.trace[|s.trace|] == e;
    assert !Continues(e, t.trace[|s.trace| + 2]);
  }

  /** What a group send pins is final exactly when the durable checkpoint already said it. */
  lemma SendIsPinnedIffBacked(s: State, g: nat)
    requires Reachable(s) && s.shared && Can(s, Send(g))
    ensures Backed(s) <==> forall t :: Leads(Do(s, Send(g)), t) ==> Steady(t.trace, |s.trace|)
  {
    if Backed(s) {
      forall t | Leads(Do(s, Send(g)), t) ensures Steady(t.trace, |s.trace|) { BackedIsSteady(s, g, t); }
    } else {
      var t := UnbackedIsNotSteady(s, g);
    }
  }

  ghost predicate NoSendFrom(tr: seq<Event>, k: nat) {
    forall m :: k <= m < |tr| ==> !tr[m].Sent?
  }

  lemma FinishedIsFinal(s: State, t: State)
    requires Reachable(s) && s.shared && Can(s, AskAck) && Finished(s) && Leads(Do(s, AskAck), t)
    ensures NoSendFrom(t.trace, |s.trace|)
  {
    var asked, k := Do(s, AskAck), |s.trace|;
    ReachableStep(s, AskAck);
    ReachableInv(asked);
    RunKeeps(asked, t);
    ReachableRun(asked, t);
    RunExtends(asked, t);
    assert t.trace[k] == asked.trace[k];
    forall m | k <= m < |t.trace| ensures !t.trace[m].Sent? {
      if m > k { AckIsFinal(t, k, m); }
    }
  }

  lemma UnfinishedIsResent(s: State) returns (t: State)
    requires Reachable(s) && s.shared && Can(s, AskAck) && !Finished(s) && s.mem.value.route.Some?
    ensures Leads(Do(s, AskAck), t) && !NoSendFrom(t.trace, |s.trace|)
  {
    ReachableInv(s);
    var asked, c := Do(s, AskAck), s.mem.value;
    Runs.Stay(Can, Do, asked);
    if s.disk.None? {
      t := ResendAnew(asked, asked, Digest(0, 1), c.route.value);
    } else {
      t := ResendFromDisk(asked, asked, 1);
    }
    assert t.trace[|s.trace| + 2].Sent?;
  }

  /** A group item is never sent again after its acknowledgement request exactly when the last save went through. */
  lemma AckIsFinalIffFinished(s: State)
    requires Reachable(s) && s.shared && Can(s, AskAck) && s.mem.value.route.Some?
    ensures Finished(s) <==> forall t :: Leads(Do(s, AskAck), t) ==> NoSendFrom(t.trace, |s.trace|)
  {
    if Finished(s) {
      forall t | Leads(Do(s, AskAck), t) ensures NoSendFrom(t.trace, |s.trace|) { FinishedIsFinal(s, t); }
    } else {
      var t := UnfinishedIsResent(s);
    }
  }

  // ---- The failing states exist --------------------------------------------------------------

  /** A group item of one part, before anything happened to it. */
  const START: State := State(true, None, None, [], 0, 0, false, false, None)

  const ROUTE: Route := Route(0, 0, false, NO_LABEL)

  /** Route and payload are pinned in memory, and their saves failed: the part can be sent all the same. */
  lemma UnbackedSendHappens() returns (s: State)
    ensures Reachable(s) && s.shared && Can(s, Send(0)) && !Backed(s)
    ensures s.mem.Some? && s.mem.value.next == 0 && s.mem.value.digest.parts == 1 && !s.mem.value.legacy && s.disk.None?
  {
    hide Leads, CanSend, Splits, Intended;
    assert Initial(START);
    LeadsNowhere(START);
    SightingCanSend(ROUTE);
    s := Step(START, START, Pin(Digest(0, 1), [], Some(ROUTE)));
    s := Step(START, s, Fill(FirstPayload(s.mem.value, 0), None));
    s := Step(START, s, Observe(Sighting(ROUTE), 0, true));
  }

  /** The part was sent, and its progress was not saved: the acknowledgement can be requested all the same. */
  lemma UnfinishedAckHappens() returns (s: State)
    ensures Reachable(s) && s.shared && Can(s, AskAck) && s.mem.value.route.Some? && !Finished(s)
  {
    hide Leads, CanSend;
    s := UnbackedSendHappens();
    ReachableStep(s, Send(0));
    s := Do(s, Send(0));
    ReachableStep(s, Advance);
    s := Do(s, Advance);
  }

  lemma LeadsNowhere(s: State)
    ensures Leads(s, s)
  {
    hide Can, Do;
    Runs.Stay(Can, Do, s);
  }
}
