/**
 * The browser's activity queue: events of one owner, sent in order by at most one
 * loop, which notices by the generation that its owner is gone.
 *
 * Every `await` of a loop is a point where anything else may happen; a suspended
 * loop is a value in `loops`, and resuming it is a step.
 */
module ActivityQueue {
  import opened Effects
  import Runs

  const CAPACITY: nat := 64
  const ATTEMPTS: nat := 3
  const QUIET_MS: int := 60000
  const NOBODY: nat := 0
  const NOWHERE: nat := 0

  /** `Sent(u)` starts to send the event that was queued at position `u` of the trace. */
  datatype Event = Owned(owner: nat) | Queued(owner: nat, pageView: bool) | Sent(uid: nat) | Ended

  /** A loop suspended in `send`, or waiting before the next attempt. */
  datatype Loop = Loop(generation: nat, uid: nat, attempt: nat, waiting: bool)

  datatype State = State(
    owner: nat, page: nat, counted: bool, eligible: bool, lastActivity: Option<int>,
    events: seq<nat>, active: bool, generation: nat, disposed: bool,
    scheduled: nat, loops: map<nat, Loop>, started: nat, trace: seq<Event>)

  datatype Answer = Accepted | Permanent | Transient

  datatype Step =
    | Context(owner: nat, key: nat, eligible: bool, now: int)
    | Interaction(now: int)
    | Flush
    | Settle(loop: nat, answer: Answer)
    | Wake(loop: nat)
    | Dispose

  const FRESH: State := State(NOBODY, NOWHERE, false, false, None, [], false, 0, false, 0, map[], 0, [])

  predicate Can(s: State, a: Step) {
    match a
    case Flush => s.scheduled > 0
    case Settle(id, _) => id in s.loops && !s.loops[id].waiting
    case Wake(id) => id in s.loops && s.loops[id].waiting
    case _ => true
  }

  // ---- The steps --------------------------------------------------------------------------

  function Enqueue(s: State, pageView: bool): State {
    if |s.events| >= CAPACITY then s
    else s.(events := s.events + [|s.trace|], trace := s.trace + [Queued(s.owner, pageView)],
            scheduled := s.scheduled + 1)
  }

  function ChangeOwner(s: State, owner: nat): State {
    if owner == s.owner then s
    else s.(owner := owner, events := [], generation := s.generation + 1, lastActivity := None, active := false,
            page := NOWHERE, trace := s.trace + [Owned(owner)])
  }

  function Visit(s: State, key: nat, now: int): State {
    var t := if key != s.page then s.(page := key, counted := false) else s;
    if t.counted then t else Enqueue(t.(counted := true, lastActivity := Some(now)), true)
  }

  /** Starts the attempt that the loop stands for. */
  function Send(s: State, id: nat, l: Loop): State {
    s.(loops := s.loops[id := l.(waiting := false)], trace := s.trace + [Sent(l.uid)])
  }

  /** The head of the outer loop: the next event, or the end. */
  function Turn(s: State, id: nat, generation: nat): State {
    if s.events != [] && !s.disposed && generation == s.generation then
      Send(s, id, Loop(generation, s.events[0], 0, false))
    else s.(loops := s.loops - {id}, active := if generation == s.generation then false else s.active)
  }

  /** Behind the inner loop: sent or not, the event is done, unless its owner is gone. */
  function Done(s: State, id: nat, l: Loop): State {
    if l.generation != s.generation then s.(loops := s.loops - {id})
    else
      Turn(if s.events != [] && s.events[0] == l.uid then s.(events := s.events[1..]) else s, id, l.generation)
  }

  /** The head of the inner loop. */
  function Attempt(s: State, id: nat, l: Loop): State {
    if l.attempt < ATTEMPTS && !s.disposed && l.generation == s.generation then Send(s, id, l) else Done(s, id, l)
  }

  function Answered(s: State, id: nat, l: Loop, answer: Answer): State {
    if answer.Accepted? || s.disposed || l.generation != s.generation || answer.Permanent? then Done(s, id, l)
    else if l.attempt < ATTEMPTS - 1 then s.(loops := s.loops[id := l.(waiting := true)])
    else Attempt(s, id, l.(attempt := l.attempt + 1))
  }

  function Do(s: State, a: Step): State
    requires Can(s, a)
  {
    match a
    case Context(owner, key, eligible, now) =>
      if s.disposed then s
      else
        var t := ChangeOwner(s, owner).(eligible := eligible);
        if owner == NOBODY || key == NOWHERE || !eligible then t else Visit(t, key, now)
    case Interaction(now) =>
      if !s.disposed && s.owner != NOBODY && s.eligible &&
          (s.lastActivity.Some? ==> now - s.lastActivity.value >= QUIET_MS) then
        Enqueue(s.(lastActivity := Some(now)), false)
      else s
    case Flush =>
      var t := s.(scheduled := s.scheduled - 1);
      if s.active || s.disposed then t else Turn(t.(active := true, started := s.started + 1), s.started, s.generation)
    case Settle(id, answer) => Answered(s, id, s.loops[id], answer)
    case Wake(id) => Attempt(s, id, s.loops[id].(attempt := s.loops[id].attempt + 1))
    case Dispose => s.(disposed := true, generation := s.generation + 1, events := [], trace := s.trace + [Ended])
  }

  function Next(s: State, a: Step): State {
    if Can(s, a) then Do(s, a) else s
  }

  // ---- What holds of the trace ----------------------------------------------------------------

  predicate Change(e: Event) { e.Owned? || e.Ended? }

  /** Nobody else became the owner, and the queue did not end, since position `u`. */
  ghost predicate Current(tr: seq<Event>, u: nat) {
    u < |tr| && tr[u].Queued? && forall k :: u < k < |tr| ==> !Change(tr[k])
  }

  function Count(tr: seq<Event>, u: nat): nat {
    if tr == [] then 0 else Count(tr[..|tr| - 1], u) + if tr[|tr| - 1] == Sent(u) then 1 else 0
  }

  /** Every send is of an event queued for the owner of that moment. */
  ghost predicate OwnEventsOnly(tr: seq<Event>) {
    forall j :: 0 <= j < |tr| && tr[j].Sent? ==> Current(tr[..j], tr[j].uid)
  }

  ghost predicate InOrder(tr: seq<Event>) {
    forall i, j :: 0 <= i < j < |tr| && tr[i].Sent? && tr[j].Sent? ==> tr[i].uid <= tr[j].uid
  }

  ghost predicate FewAttempts(tr: seq<Event>) {
    forall u :: Count(tr, u) <= ATTEMPTS
  }

  ghost predicate NothingAfterEnd(tr: seq<Event>) {
    forall i, j :: 0 <= i < j < |tr| && tr[i].Ended? ==> !tr[j].Sent? && !tr[j].Queued?
  }

  ghost predicate TraceOk(tr: seq<Event>) {
    OwnEventsOnly(tr) && InOrder(tr) && FewAttempts(tr) && NothingAfterEnd(tr)
  }

  // ---- The invariant ----------------------------------------------------------------------------

  /** The queue holds events of the current owner, in order; sends have not gone past its head. */
  ghost predicate QueueOk(s: State) {
    && |s.events| <= CAPACITY
    && (forall i, j :: 0 <= i < j < |s.events| ==> s.events[i] < s.events[j])
    && (forall i :: 0 <= i < |s.events| ==> Current(s.trace, s.events[i]))
    && (forall u :: Sent(u) in s.trace ==> forall i :: 0 <= i < |s.events| ==> u <= s.events[i])
    && (forall i :: 0 <= i < |s.events| && (i > 0 || !s.active) ==> Sent(s.events[i]) !in s.trace)
    && (s.disposed ==> s.events == [])
    && (Ended in s.trace ==> s.disposed)
  }

  /** A loop of the current generation works on the head of the queue. */
  ghost predicate LoopOk(s: State, id: nat)
    requires id in s.loops
  {
    var l := s.loops[id];
    && id < s.started && l.generation <= s.generation
    && (l.generation == s.generation ==>
          !s.disposed && s.active && s.events != [] && l.uid == s.events[0] && l.attempt < ATTEMPTS
          && Count(s.trace, l.uid) == l.attempt + 1)
  }

  ghost predicate LoopsOk(s: State) {
    && (forall id :: id in s.loops ==> LoopOk(s, id))
    && (forall i, j :: i in s.loops && j in s.loops && s.loops[i].generation == s.loops[j].generation ==> i == j)
  }

  ghost predicate Working(s: State) { exists id :: id in s.loops && s.loops[id].generation == s.generation }

  ghost predicate Inv(s: State) {
    && TraceOk(s.trace) && QueueOk(s) && LoopsOk(s)
    && (!s.disposed && s.active ==> Working(s))
    && (!s.disposed && s.events != [] && !s.active ==> s.scheduled > 0)
  }

  lemma CountAppend(tr: seq<Event>, e: Event, u: nat)
    ensures Count(tr + [e], u) == Count(tr, u) + if e == Sent(u) then 1 else 0
  {
  }

  lemma {:induction false} CountZero(tr: seq<Event>, u: nat)
    ensures Count(tr, u) == 0 <==> Sent(u) !in tr
  {
    if tr != [] {
      CountZero(tr[..|tr| - 1], u);
      assert tr == tr[..|tr| - 1] + [tr[|tr| - 1]];
    }
  }

  /** Anything but a send leaves the trace in order, if the end has not come. */
  lemma TraceAppend(tr: seq<Event>, e: Event)
    requires TraceOk(tr) && !e.Sent? && (e.Queued? ==> Ended !in tr)
    ensures TraceOk(tr + [e])
  {
  }

  lemma SendAppend(tr: seq<Event>, u: nat)
    requires TraceOk(tr) && Current(tr, u) && Count(tr, u) < ATTEMPTS && Ended !in tr
    requires forall v: nat :: Sent(v) in tr ==> v <= u
    ensures TraceOk(tr + [Sent(u)])
  {
    var t := tr + [Sent(u)];
    forall v ensures Count(t, v) <= ATTEMPTS { CountAppend(tr, Sent(u), v); }
    forall j | 0 <= j < |t| && t[j].Sent? ensures Current(t[..j], t[j].uid) {
      assert t[..j] == tr[..j];
      assert tr[..|tr|] == tr;
    }
    forall i, j | 0 <= i < j < |t| && t[i].Sent? && t[j].Sent? ensures t[i].uid <= t[j].uid {
      assert tr[i] in tr;
    }
    assert forall i :: 0 <= i < |tr| ==> t[i] == tr[i] && tr[i] in tr;
  }

  /** All loops but `id` are as they should be, and none of them is of the current generation. */
  ghost predicate OthersOk(s: State, id: nat) {
    && id < s.started
    && (forall j :: j in s.loops && j != id ==> j < s.started && s.loops[j].generation < s.generation)
    && (forall i, j ::
          (i in s.loops && j in s.loops && i != id && j != id && s.loops[i].generation == s.loops[j].generation)
          ==> i == j)
  }

  lemma SendKeeps(s: State, id: nat, l: Loop)
    requires TraceOk(s.trace) && QueueOk(s) && OthersOk(s, id)
    requires !s.disposed && s.active && s.events != [] && l.uid == s.events[0] && l.generation == s.generation
    requires l.attempt < ATTEMPTS && Count(s.trace, l.uid) == l.attempt
    ensures Inv(Send(s, id, l))
  {
    hide TraceOk, QueueOk;
    var t := Send(s, id, l);
    HeadIsCurrent(s);
    SendAppend(s.trace, l.uid);
    CountAppend(s.trace, Sent(l.uid), l.uid);
    QueueAfterSend(s, t);
    assert t.loops[id].generation == t.generation;
    forall j | j in t.loops ensures LoopOk(t, j) {}
  }

  lemma HeadIsCurrent(s: State)
    requires QueueOk(s) && s.events != [] && !s.disposed
    ensures Current(s.trace, s.events[0]) && Ended !in s.trace
    ensures forall v: nat :: Sent(v) in s.trace ==> v <= s.events[0]
  {
  }

  lemma QueueAfterSend(s: State, t: State)
    requires QueueOk(s) && s.active && s.events != [] && t.trace == s.trace + [Sent(s.events[0])]
    requires t.events == s.events && t.active && !s.disposed && !t.disposed
    ensures QueueOk(t)
  {
  }

  lemma TurnKeeps(s: State, id: nat)
    requires TraceOk(s.trace) && QueueOk(s) && OthersOk(s, id) && !s.disposed && s.active
    requires s.events != [] ==> Sent(s.events[0]) !in s.trace
    ensures Inv(Turn(s, id, s.generation))
  {
    if s.events != [] {
      CountZero(s.trace, s.events[0]);
      SendKeeps(s, id, Loop(s.generation, s.events[0], 0, false));
    } else {
      var t := Turn(s, id, s.generation);
      forall j | j in t.loops ensures LoopOk(t, j) {}
    }
  }

  lemma DoneKeeps(s: State, id: nat, l: Loop)
    requires Inv(s) && id in s.loops && l.uid == s.loops[id].uid && l.generation == s.loops[id].generation
    ensures Inv(Done(s, id, l))
  {
    assert LoopOk(s, id);
    if l.generation != s.generation {
      DropKeeps(s, id);
    } else {
      var t := s.(events := s.events[1..]);
      CurrentLoop(s, id);
      ShiftKeeps(s, t);
      TurnKeeps(t, id);
    }
  }

  /** The loop of the current generation is the only one. */
  lemma CurrentLoop(s: State, id: nat)
    requires LoopsOk(s) && id in s.loops && s.loops[id].generation == s.generation
    ensures OthersOk(s, id)
  {
  }

  lemma ShiftKeeps(s: State, t: State)
    requires QueueOk(s) && s.events != [] && s.active && t == s.(events := s.events[1..])
    ensures QueueOk(t) && (t.events != [] ==> Sent(t.events[0]) !in t.trace)
  {
  }

  /** A loop of an earlier generation ends without a trace. */
  lemma DropKeeps(s: State, id: nat)
    requires Inv(s) && id in s.loops && s.loops[id].generation != s.generation
    ensures Inv(s.(loops := s.loops - {id}))
  {
    var t := s.(loops := s.loops - {id});
    forall j | j in t.loops ensures LoopOk(t, j) { assert LoopOk(s, j); }
    if !s.disposed && s.active {
      var w :| w in s.loops && s.loops[w].generation == s.generation;
      assert w in t.loops && t.loops[w].generation == t.generation;
    }
  }

  lemma AttemptKeeps(s: State, id: nat, l: Loop)
    requires Inv(s) && id in s.loops && l.uid == s.loops[id].uid && l.generation == s.loops[id].generation
    requires l.attempt == s.loops[id].attempt + 1
    ensures Inv(Attempt(s, id, l))
  {
    assert LoopOk(s, id);
    if l.attempt < ATTEMPTS && !s.disposed && l.generation == s.generation {
      CurrentLoop(s, id);
      SendKeeps(s, id, l);
    } else {
      DoneKeeps(s, id, l);
    }
  }

  lemma SettleKeeps(s: State, id: nat, answer: Answer)
    requires Inv(s) && Can(s, Settle(id, answer))
    ensures Inv(Do(s, Settle(id, answer)))
  {
    var l := s.loops[id];
    assert LoopOk(s, id);
    if answer.Accepted? || s.disposed || l.generation != s.generation || answer.Permanent? {
      DoneKeeps(s, id, l);
    } else if l.attempt < ATTEMPTS - 1 {
      var t := s.(loops := s.loops[id := l.(waiting := true)]);
      forall j | j in t.loops ensures LoopOk(t, j) { assert LoopOk(s, j); }
      assert t.loops[id].generation == t.generation;
    } else {
      AttemptKeeps(s, id, l.(attempt := l.attempt + 1));
    }
  }

  lemma EnqueueKeeps(s: State, pageView: bool)
    requires Inv(s) && !s.disposed
    ensures Inv(Enqueue(s, pageView))
  {
    if |s.events| < CAPACITY {
      var t, e := Enqueue(s, pageView), Queued(s.owner, pageView);
      TraceAppend(s.trace, e);
      QueueAfterEnqueue(s, t, e);
      forall j | j in t.loops ensures LoopOk(t, j) {
        assert LoopOk(s, j);
        CountAppend(s.trace, e, t.loops[j].uid);
      }
      if s.active {
        var w :| w in s.loops && s.loops[w].generation == s.generation;
        assert w in t.loops && t.loops[w].generation == t.generation;
      }
    }
  }

  lemma QueueAfterEnqueue(s: State, t: State, e: Event)
    requires TraceOk(s.trace) && QueueOk(s) && |s.events| < CAPACITY && e.Queued? && !s.disposed
    requires t.events == s.events + [|s.trace|] && t.trace == s.trace + [e]
    requires t.active == s.active && t.disposed == s.disposed
    requires s.active ==> s.events != []
    ensures QueueOk(t)
  {
  }

  lemma OwnerKeeps(s: State, owner: nat)
    requires Inv(s) && !s.disposed
    ensures Inv(ChangeOwner(s, owner))
  {
    hide TraceOk;
    var c := ChangeOwner(s, owner);
    if owner != s.owner {
      TraceAppend(s.trace, Owned(owner));
      forall j | j in c.loops ensures LoopOk(c, j) { assert LoopOk(s, j); }
    }
  }

  lemma VisitKeeps(s: State, key: nat, now: int)
    requires Inv(s) && !s.disposed
    ensures Inv(Visit(s, key, now))
  {
    hide Inv;
    var v := if key != s.page then s.(page := key, counted := false) else s;
    var w := v.(counted := true, lastActivity := Some(now));
    SameQueueKeeps(s, v);
    SameQueueKeeps(s, w);
    EnqueueKeeps(w, true);
  }

  lemma ContextKeeps(s: State, owner: nat, key: nat, eligible: bool, now: int)
    requires Inv(s)
    ensures Inv(Do(s, Context(owner, key, eligible, now)))
  {
    hide Inv, ChangeOwner, Visit;
    if !s.disposed {
      OwnerKeeps(s, owner);
      var c := ChangeOwner(s, owner);
      var t := c.(eligible := eligible);
      OwnerEndsNothing(s, owner);
      SameQueueKeeps(c, t);
      if owner != NOBODY && key != NOWHERE && eligible { VisitKeeps(t, key, now); }
    }
  }

  lemma OwnerEndsNothing(s: State, owner: nat)
    ensures ChangeOwner(s, owner).disposed == s.disposed
  {
  }

  /** The page fields play no part in the invariant. */
  lemma SameQueueKeeps(s: State, t: State)
    requires Inv(s)
    requires t == s.(page := t.page, counted := t.counted, eligible := t.eligible, lastActivity := t.lastActivity)
    ensures Inv(t)
  {
  }

  lemma FlushKeeps(s: State)
    requires Inv(s) && s.scheduled > 0
    ensures Inv(Do(s, Flush))
  {
    var t := s.(scheduled := s.scheduled - 1);
    if s.active || s.disposed {
      forall j | j in t.loops ensures LoopOk(t, j) { assert LoopOk(s, j); }
      if !s.disposed {
        var w :| w in s.loops && s.loops[w].generation == s.generation;
        assert w in t.loops && t.loops[w].generation == t.generation;
      }
    } else {
      var u := t.(active := true, started := s.started + 1);
      forall j | j in u.loops
        ensures j < u.started && u.loops[j].generation < u.generation && j != s.started
      {
        assert LoopOk(s, j);
      }
      TurnKeeps(u, s.started);
    }
  }

  lemma DisposeKeeps(s: State)
    requires Inv(s)
    ensures Inv(Do(s, Dispose))
  {
    hide TraceOk;
    TraceAppend(s.trace, Ended);
  }

  lemma InteractionKeeps(s: State, now: int)
    requires Inv(s)
    ensures Inv(Do(s, Interaction(now)))
  {
    hide Inv, Enqueue;
    if !s.disposed && s.owner != NOBODY {
      var t := s.(lastActivity := Some(now));
      SameQueueKeeps(s, t);
      EnqueueKeeps(t, false);
    }
  }

  lemma StepKeeps(s: State, a: Step)
    requires Inv(s) && Can(s, a)
    ensures Inv(Do(s, a))
  {
    hide Inv;
    match a
    case Context(owner, key, eligible, now) => ContextKeeps(s, owner, key, eligible, now);
    case Interaction(now) => InteractionKeeps(s, now);
    case Flush => FlushKeeps(s);
    case Settle(id, answer) => SettleKeeps(s, id, answer);
    case Wake(id) => AttemptKeeps(s, id, s.loops[id].(attempt := s.loops[id].attempt + 1));
    case Dispose => DisposeKeeps(s);
  }

  lemma FreshInv()
    ensures Inv(FRESH)
  {
  }

  // ---- The guarantees, over every run -------------------------------------------------------------

  /** What contexts, interactions, flushes and resumed loops in any permitted order lead to. */
  ghost predicate Reachable(s: State) { Runs.Leads(Can, Next, FRESH, s) }

  lemma ReachableInv(s: State)
    requires Reachable(s)
    ensures Inv(s)
  {
    hide Can, Do, Inv;
    forall x, a | Inv(x) && Can(x, a) ensures Inv(Next(x, a)) { StepKeeps(x, a); }
    FreshInv();
    Runs.Kept(Can, Next, Inv, FRESH, s);
  }

  /** No send starts for an event of a previous owner, or after the queue was disposed of. */
  lemma OnlyTheOwnersEvents(s: State, j: nat, k: nat)
    requires Reachable(s) && j < |s.trace| && s.trace[j].Sent? && k < j && Change(s.trace[k])
    ensures s.trace[k].Owned? && k < s.trace[j].uid < j && s.trace[s.trace[j].uid].Queued?
  {
    ReachableInv(s);
    assert Current(s.trace[..j], s.trace[j].uid);
    var u := s.trace[j].uid;
    assert s.trace[..j][u] == s.trace[u] && s.trace[..j][k] == s.trace[k];
  }

  /** Events are tried in the order in which they were queued, each at most three times. */
  lemma FirstInFirstOut(s: State, i: nat, j: nat)
    requires Reachable(s) && i < j < |s.trace| && s.trace[i].Sent? && s.trace[j].Sent?
    ensures s.trace[i].uid <= s.trace[j].uid
    ensures forall u :: Count(s.trace, u) <= 3
  {
    ReachableInv(s);
  }

  /** At most one loop runs for a generation. */
  lemma OneLoopPerGeneration(s: State, i: nat, j: nat)
    requires Reachable(s) && i in s.loops && j in s.loops && s.loops[i].generation == s.loops[j].generation
    ensures i == j
  {
    ReachableInv(s);
  }

  /** What is queued will be looked at: a loop is at work on it, or a flush is scheduled. */
  lemma NeverForgotten(s: State)
    requires Reachable(s) && !s.disposed && s.events != []
    ensures s.scheduled > 0
            || exists id :: id in s.loops && s.loops[id].generation == s.generation && s.loops[id].uid == s.events[0]
    ensures |s.events| <= 64
  {
    ReachableInv(s);
    if s.active {
      var id :| id in s.loops && s.loops[id].generation == s.generation;
      assert LoopOk(s, id);
    }
  }

  // ---- What is queued, and what is tried again -------------------------------------------------------

  /** The page of the last visit was counted. */
  predicate PageCounted(s: State) { s.page != NOWHERE ==> s.counted }

  predicate SamePage(s: State, t: State) { t.page == s.page && t.counted == s.counted }

  lemma TurnLeavesPage(s: State, id: nat, generation: nat)
    ensures SamePage(s, Turn(s, id, generation))
  {
  }

  lemma DoneLeavesPage(s: State, id: nat, l: Loop)
    ensures SamePage(s, Done(s, id, l))
  {
    hide Turn;
    TurnLeavesPage(s, id, l.generation);
    if s.events != [] { TurnLeavesPage(s.(events := s.events[1..]), id, l.generation); }
  }

  lemma AttemptLeavesPage(s: State, id: nat, l: Loop)
    ensures SamePage(s, Attempt(s, id, l))
  {
    hide Done;
    DoneLeavesPage(s, id, l);
  }

  lemma AnswerLeavesPage(s: State, id: nat, l: Loop, answer: Answer)
    ensures SamePage(s, Answered(s, id, l, answer))
  {
    hide Done, Attempt;
    DoneLeavesPage(s, id, l);
    AttemptLeavesPage(s, id, l.(attempt := l.attempt + 1));
  }

  lemma PageStays(s: State, a: Step)
    requires PageCounted(s) && Can(s, a)
    ensures PageCounted(Do(s, a))
  {
    hide Answered, Attempt, Turn;
    match a
    case Settle(id, answer) => AnswerLeavesPage(s, id, s.loops[id], answer);
    case Wake(id) => AttemptLeavesPage(s, id, s.loops[id].(attempt := s.loops[id].attempt + 1));
    case Flush =>
      TurnLeavesPage(s.(scheduled := s.scheduled - 1, active := true, started := s.started + 1), s.started,
          s.generation);
    case _ =>
  }

  lemma ReachablePage(s: State)
    requires Reachable(s)
    ensures PageCounted(s)
  {
    hide Can, Do, PageCounted;
    forall x, a | PageCounted(x) && Can(x, a) ensures PageCounted(Next(x, a)) { PageStays(x, a); }
    FreshPage();
    Runs.Kept(Can, Next, PageCounted, FRESH, s);
  }

  lemma FreshPage()
    ensures PageCounted(FRESH)
  {
  }

  /** What is queued between two states of the queue: one event, its flush and nothing else. */
  predicate OneQueued(s: State, t: State, pageView: bool) {
    && t.events == s.events + [|s.trace|] && t.trace == s.trace + [Queued(t.owner, pageView)]
    && t.scheduled == s.scheduled + 1
  }

  predicate NothingQueued(s: State, t: State) {
    t.events == s.events && t.trace == s.trace && t.scheduled == s.scheduled
  }

  /** A page that an owner may see is queued as a view when it is new to that owner, and not again while it stays. */
  lemma NewPageIsQueued(s: State, owner: nat, key: nat, now: int)
    requires Reachable(s) && !s.disposed && owner != NOBODY && key != NOWHERE
    ensures var t := Do(s, Context(owner, key, true, now));
            && t.owner == owner && t.page == key
            && (if owner == s.owner && key == s.page then NothingQueued(s, t)
                else if owner != s.owner then
                  t.events == [|s.trace| + 1] && t.trace == s.trace + [Owned(owner), Queued(owner, true)]
                      && t.scheduled == s.scheduled + 1
                else if |s.events| < CAPACITY then OneQueued(s, t, true) else NothingQueued(s, t))
            && (forall later: int :: NothingQueued(t, Do(t, Context(owner, key, true, later))))
  {
    ReachablePage(s);
    if owner != s.owner { assert (s.trace + [Owned(owner)]) + [Queued(owner, true)]
                                 == s.trace + [Owned(owner), Queued(owner, true)]; }
  }

  /** No view is queued of a page that may not be seen; an owner who leaves takes the events along. */
  lemma HiddenPageIsNotQueued(s: State, owner: nat, key: nat, eligible: bool, now: int)
    requires !s.disposed && (owner == NOBODY || key == NOWHERE || !eligible)
    ensures var t := Do(s, Context(owner, key, eligible, now));
            && t.owner == owner && t.scheduled == s.scheduled
            && (if owner == s.owner then NothingQueued(s, t)
                else t.events == [] && t.trace == s.trace + [Owned(owner)])
  {
  }

  /** An interaction is queued exactly when an owner may be seen, a minute was quiet, and there is room. */
  lemma InteractionIsQueuedIff(s: State, now: int)
    ensures var t, quiet := Do(s, Interaction(now)), s.lastActivity.None? || now - s.lastActivity.value >= 60000;
            var counts := !s.disposed && s.owner != NOBODY && s.eligible && quiet;
            && (if counts && |s.events| < CAPACITY then OneQueued(s, t, false) else NothingQueued(s, t))
            && t.lastActivity == if counts then Some(now) else s.lastActivity
  {
  }

  /** The loop is the one of the current owner. */
  predicate Live(s: State, id: nat) {
    id in s.loops && s.loops[id].generation == s.generation && !s.disposed
  }

  /** A failure that may pass is tried again, with the same event, while fewer than three attempts were made. */
  lemma TransientIsTriedAgain(s: State, id: nat)
    requires Reachable(s) && Live(s, id) && !s.loops[id].waiting
    ensures var u, t := s.loops[id].uid, Do(s, Settle(id, Transient));
            && Sent(u) in s.trace && s.events != [] && s.events[0] == u
            && (if Count(s.trace, u) < 3 then
                  && Can(t, Wake(id)) && t.events == s.events && t.trace == s.trace
                  && Do(t, Wake(id)).trace == s.trace + [Sent(u)] && Do(t, Wake(id)).events == s.events
                else t.events == s.events[1..])
  {
    hide TraceOk, QueueOk;
    ReachableInv(s);
    assert LoopOk(s, id);
    CountZero(s.trace, s.loops[id].uid);
  }

  /** An event that was accepted, or that will never be, is done; the next one is tried at once. */
  lemma SettledIsDone(s: State, id: nat, answer: Answer)
    requires Reachable(s) && Live(s, id) && !s.loops[id].waiting && !answer.Transient?
    ensures var t := Do(s, Settle(id, answer));
            && s.events != [] && s.events[0] == s.loops[id].uid && t.events == s.events[1..]
            && t.trace == s.trace + (if t.events == [] then [] else [Sent(t.events[0])])
            && (t.active <==> t.events != [])
  {
    hide TraceOk, QueueOk;
    ReachableInv(s);
    assert LoopOk(s, id);
  }

  /** A flush starts a loop on the first event exactly when none is at work. */
  lemma FlushStarts(s: State)
    requires Reachable(s) && s.scheduled > 0
    ensures var t := Do(s, Flush);
            && t.events == s.events && t.scheduled == s.scheduled - 1
            && t.trace == s.trace + (if s.active || s.disposed || s.events == [] then [] else [Sent(s.events[0])])
  {
  }

  // ---- The queue, in the form of the source -----------------------------------------------------------

  class LiveActivityQueue {
    var owner: nat
    var page: nat
    var counted: bool
    var eligible: bool
    var lastActivity: Option<int>
    var events: seq<nat>
    var active: bool
    var generation: nat
    var disposed: bool
    /** Microtasks and suspended loops, which the source leaves to the browser. */
    var scheduled: nat
    var loops: map<nat, Loop>
    var started: nat
    var queued: nat
    ghost var trace: seq<Event>

    ghost function S(): State
      reads this
    {
      State(owner, page, counted, eligible, lastActivity, events, active, generation, disposed, scheduled, loops,
          started, trace)
    }

    ghost predicate Valid()
      reads this
    {
      Inv(S()) && queued == |trace|
    }

    constructor ()
      ensures Valid() && S() == FRESH
    {
      owner, page, counted, eligible, lastActivity := NOBODY, NOWHERE, false, false, None;
      events, active, generation, disposed, scheduled := [], false, 0, false, 0;
      loops, started, queued, trace := map[], 0, 0, [];
      new;
      FreshInv();
    }

    method SetContext(newOwner: nat, key: nat, isEligible: bool, now: int)
      requires Valid()
      modifies this
      ensures Valid() && S() == Do(old(S()), Context(newOwner, key, isEligible, now))
    {
      hide Inv;
      hide Enqueue;
      ContextKeeps(S(), newOwner, key, isEligible, now);
      if disposed { return; }
      ReplaceOwner(newOwner);
      eligible := isEligible;
      if newOwner == NOBODY || key == NOWHERE || !isEligible { return; }
      CountPage(key, now);
    }

    method ReplaceOwner(newOwner: nat)
      requires queued == |trace|
      modifies this
      ensures queued == |trace| && S() == ChangeOwner(old(S()), newOwner)
    {
      if newOwner != owner {
        owner, events, generation, lastActivity, active, page := newOwner, [], generation + 1, None, false, NOWHERE;
        queued, trace := queued + 1, trace + [Owned(newOwner)];
      }
    }

    method CountPage(key: nat, now: int)
      requires queued == |trace|
      modifies this
      ensures queued == |trace| && S() == Visit(old(S()), key, now)
    {
      if key != page { page, counted := key, false; }
      if !counted {
        counted, lastActivity := true, Some(now);
        Push(true);
      }
    }

    method Interact(now: int)
      requires Valid()
      modifies this
      ensures Valid() && S() == Do(old(S()), Interaction(now))
    {
      hide Inv;
      StepKeeps(S(), Interaction(now));
      if !disposed && owner != NOBODY && eligible && (lastActivity.Some? ==> now - lastActivity.value >= QUIET_MS) {
        lastActivity := Some(now);
        Push(false);
      }
    }

    method Push(pageView: bool)
      requires queued == |trace|
      modifies this`events, this`scheduled, this`queued, this`trace
      ensures queued == |trace| && S() == Enqueue(old(S()), pageView)
    {
      if |events| >= CAPACITY { return; }
      events := events + [queued];
      queued, trace := queued + 1, trace + [Queued(owner, pageView)];
      scheduled := scheduled + 1;
    }

    /** A scheduled flush gets its turn. */
    method RunFlush()
      requires Valid() && scheduled > 0
      modifies this
      ensures Valid() && S() == Do(old(S()), Flush)
    {
      hide Inv;
      FlushKeeps(S());
      scheduled := scheduled - 1;
      if active || disposed { return; }
      active := true;
      started := started + 1;
      OuterHead(started - 1, generation);
    }

    /** The head of the outer loop, up to the next `await` or the end. */
    method OuterHead(id: nat, g: nat)
      requires queued == |trace|
      modifies this
      ensures queued == |trace| && S() == Turn(old(S()), id, g)
    {
      if events != [] && !disposed && g == generation {
        StartSend(id, Loop(g, events[0], 0, false));
      } else {
        loops := loops - {id};
        if g == generation { active := false; }
      }
    }

    method StartSend(id: nat, l: Loop)
      requires queued == |trace|
      modifies this`loops, this`queued, this`trace
      ensures queued == |trace| && S() == Send(old(S()), id, l)
    {
      loops := loops[id := l.(waiting := false)];
      queued, trace := queued + 1, trace + [Sent(l.uid)];
    }

    method InnerHead(id: nat, l: Loop)
      requires queued == |trace|
      modifies this
      ensures queued == |trace| && S() == Attempt(old(S()), id, l)
    {
      if l.attempt < ATTEMPTS && !disposed && l.generation == generation {
        StartSend(id, l);
      } else {
        AfterInner(id, l);
      }
    }

    method AfterInner(id: nat, l: Loop)
      requires queued == |trace|
      modifies this
      ensures queued == |trace| && S() == Done(old(S()), id, l)
    {
      if l.generation != generation {
        loops := loops - {id};
        return;
      }
      if events != [] && events[0] == l.uid { events := events[1..]; }
      OuterHead(id, l.generation);
    }

    /** A send settled: its loop goes on. */
    method ResumeSend(id: nat, answer: Answer)
      requires Valid() && id in loops && !loops[id].waiting
      modifies this
      ensures Valid() && S() == Do(old(S()), Settle(id, answer))
    {
      hide Inv;
      SettleKeeps(S(), id, answer);
      var l := loops[id];
      if answer.Accepted? || disposed || l.generation != generation || answer.Permanent? {
        AfterInner(id, l);
      } else if l.attempt < ATTEMPTS - 1 {
        loops := loops[id := l.(waiting := true)];
      } else {
        InnerHead(id, l.(attempt := l.attempt + 1));
      }
    }

    /** The pause before another attempt ended, or was cancelled. */
    method ResumeWait(id: nat)
      requires Valid() && id in loops && loops[id].waiting
      modifies this
      ensures Valid() && S() == Do(old(S()), Wake(id))
    {
      hide Inv;
      StepKeeps(S(), Wake(id));
      InnerHead(id, loops[id].(attempt := loops[id].attempt + 1));
    }

    method DisposeQueue()
      requires Valid()
      modifies this
      ensures Valid() && S() == Do(old(S()), Dispose)
    {
      hide Inv;
      DisposeKeeps(S());
      disposed, generation, events := true, generation + 1, [];
      queued, trace := queued + 1, trace + [Ended];
    }
  }
}
