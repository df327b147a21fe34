/**
 * The promise chain behind every keyed lock of the bridge: the next action of a
 * key is chained behind the entry of the map, whatever became of that action,
 * and an entry removes itself only while it is still the last.
 */
module KeyedSerialisation {
  import opened Effects
  import Runs

  datatype Status = Waiting | Running | Settled(ok: bool)

  /** One call: `prior` is the promise it was chained behind. */
  datatype Task = Task(key: nat, prior: Option<nat>, status: Status, cleaned: bool)

  /** Calls are numbered in order; `queues` maps a key to the last call chained under it. */
  datatype State = State(tasks: seq<Task>, queues: map<nat, nat>)

  datatype Step = Call(key: nat) | Start(task: nat) | Finish(task: nat, ok: bool) | Cleanup(task: nat)

  predicate SettledAt(s: State, t: nat) { t < |s.tasks| && s.tasks[t].status.Settled? }

  predicate Can(s: State, a: Step) {
    match a
    case Call(_) => true
    case Start(t) =>
      t < |s.tasks| && s.tasks[t].status.Waiting? && (s.tasks[t].prior.Some? ==> SettledAt(s, s.tasks[t].prior.value))
    case Finish(t, _) => t < |s.tasks| && s.tasks[t].status.Running?
    case Cleanup(t) => SettledAt(s, t) && !s.tasks[t].cleaned
  }

  function Do(s: State, a: Step): State
    requires Can(s, a)
  {
    match a
    case Call(key) =>
      var prior := if key in s.queues then Some(s.queues[key]) else None;
      State(s.tasks + [Task(key, prior, Waiting, false)], s.queues[key := |s.tasks|])
    case Start(t) => s.(tasks := s.tasks[t := s.tasks[t].(status := Running)])
    case Finish(t, ok) => s.(tasks := s.tasks[t := s.tasks[t].(status := Settled(ok))])
    case Cleanup(t) =>
      var key := s.tasks[t].key;
      State(s.tasks[t := s.tasks[t].(cleaned := true)],
            if key in s.queues && s.queues[key] == t then s.queues - {key} else s.queues)
  }

  const EMPTY: State := State([], map[])

  function Next(s: State, a: Step): State {
    if Can(s, a) then Do(s, a) else s
  }

  /** What calls, starts, ends and cleanups in any permitted order lead to. */
  ghost predicate Reachable(s: State) { Runs.Leads(Can, Next, EMPTY, s) }

  // ---- The invariant ----------------------------------------------------------

  predicate SameKey(s: State, i: nat, j: nat) {
    i < |s.tasks| && j < |s.tasks| && s.tasks[i].key == s.tasks[j].key
  }

  /** A call is chained behind the previous call of its key, or there was none left to wait for. */
  ghost predicate Chained(s: State, j: nat)
    requires j < |s.tasks|
  {
    match s.tasks[j].prior
    case Some(p) => p < j && SameKey(s, p, j) && forall k :: p < k < j ==> !SameKey(s, k, j)
    case None => forall k :: 0 <= k < j && SameKey(s, k, j) ==> SettledAt(s, k)
  }

  ghost predicate TaskOk(s: State, j: nat)
    requires j < |s.tasks|
  {
    && Chained(s, j)
    && (!s.tasks[j].status.Waiting? && s.tasks[j].prior.Some? ==> SettledAt(s, s.tasks[j].prior.value))
    && (s.tasks[j].cleaned ==> SettledAt(s, j))
    && (s.tasks[j].key !in s.queues ==> SettledAt(s, j))
  }

  ghost predicate EntryOk(s: State, key: nat)
    requires key in s.queues
  {
    && s.queues[key] < |s.tasks| && s.tasks[s.queues[key]].key == key && !s.tasks[s.queues[key]].cleaned
    && forall k :: s.queues[key] < k < |s.tasks| ==> s.tasks[k].key != key
  }

  ghost predicate Inv(s: State) {
    && (forall j :: 0 <= j < |s.tasks| ==> TaskOk(s, j))
    && (forall key :: key in s.queues ==> EntryOk(s, key))
  }

  lemma CallKeeps(s: State, key: nat)
    requires Inv(s)
    ensures Inv(Do(s, Call(key)))
  {
    var t := Do(s, Call(key));
    forall j | 0 <= j < |t.tasks| ensures TaskOk(t, j) {
      if j < |s.tasks| {
        assert TaskOk(s, j);
        ChainStays(s, t, j);
      } else {
        if key in s.queues {
          assert EntryOk(s, key);
        } else {
          forall k: nat | k < j && SameKey(t, k, j) ensures SettledAt(t, k) { assert TaskOk(s, k); }
        }
      }
    }
    forall k | k in t.queues ensures EntryOk(t, k) {
      if k != key { assert EntryOk(s, k); }
    }
  }

  /** Changing the status of one task, forwards, keeps the chains. */
  lemma StatusKeeps(s: State, t: State, i: nat)
    requires Inv(s) && i < |s.tasks| && t.queues == s.queues
    requires |t.tasks| == |s.tasks| && t.tasks == s.tasks[i := s.tasks[i].(status := t.tasks[i].status)]
    requires !t.tasks[i].status.Waiting? && !s.tasks[i].status.Settled?
    requires t.tasks[i].prior.Some? ==> SettledAt(s, t.tasks[i].prior.value)
    ensures Inv(t)
  {
    forall j | 0 <= j < |t.tasks| ensures TaskOk(t, j) {
      assert TaskOk(s, j);
      assert forall k :: SettledAt(s, k) ==> SettledAt(t, k);
      assert Chained(t, j) by { ChainStays(s, t, j); }
    }
    forall k | k in t.queues ensures EntryOk(t, k) { assert EntryOk(s, k); }
  }

  lemma ChainStays(s: State, t: State, j: nat)
    requires j < |s.tasks| <= |t.tasks| && Chained(s, j)
    requires forall k :: 0 <= k < |s.tasks| ==> t.tasks[k].key == s.tasks[k].key && t.tasks[k].prior == s.tasks[k].prior
    requires forall k :: SettledAt(s, k) ==> SettledAt(t, k)
    ensures Chained(t, j)
  {
    assert forall k: nat :: k < j ==> SameKey(t, k, j) == SameKey(s, k, j);
  }

  lemma CleanupKeeps(s: State, i: nat)
    requires Inv(s) && Can(s, Cleanup(i))
    ensures Inv(Do(s, Cleanup(i)))
  {
    var t := Do(s, Cleanup(i));
    var key := s.tasks[i].key;
    forall j | 0 <= j < |t.tasks| ensures TaskOk(t, j) {
      assert TaskOk(s, j);
      assert forall k :: SettledAt(s, k) ==> SettledAt(t, k);
      ChainStays(s, t, j);
      if s.tasks[j].key == key && key in s.queues && s.queues[key] == i { LastSettled(s, j, i); }
    }
    forall k | k in t.queues ensures EntryOk(t, k) { assert EntryOk(s, k); }
  }

  /** When the last call of a key has settled, all have. */
  lemma LastSettled(s: State, j: nat, i: nat)
    requires Inv(s) && SettledAt(s, i) && SameKey(s, j, i)
    requires s.tasks[i].key in s.queues && s.queues[s.tasks[i].key] == i
    ensures SettledAt(s, j)
  {
    assert EntryOk(s, s.tasks[i].key);
    if j < i { EarlierSettled(s, j, i); }
  }

  lemma StepKeeps(s: State, a: Step)
    requires Inv(s) && Can(s, a)
    ensures Inv(Do(s, a))
  {
    match a
    case Call(key) => CallKeeps(s, key);
    case Start(i) => StatusKeeps(s, Do(s, a), i);
    case Finish(i, _) => assert TaskOk(s, i); StatusKeeps(s, Do(s, a), i);
    case Cleanup(i) => CleanupKeeps(s, i);
  }

  lemma ReachableInv(s: State)
    requires Reachable(s)
    ensures Inv(s)
  {
    forall x, a | Inv(x) && Can(x, a) ensures Inv(Next(x, a)) { StepKeeps(x, a); }
    Runs.Kept(Can, Next, Inv, EMPTY, s);
  }

  // ---- What every run guarantees ------------------------------------------------

  lemma {:induction false} EarlierSettled(s: State, i: nat, j: nat)
    requires Inv(s) && i < j && SameKey(s, i, j) && !s.tasks[j].status.Waiting?
    ensures SettledAt(s, i)
    decreases j
  {
    assert TaskOk(s, j);
    if s.tasks[j].prior.Some? {
      var p := s.tasks[j].prior.value;
      assert !(p < i < j) && SettledAt(s, p);
      if i < p { EarlierSettled(s, i, p); }
    }
  }

  /** Actions of one key start in call order, each only after all earlier ones have settled, failed or not. */
  lemma CallOrder(s: State, i: nat, j: nat)
    requires Reachable(s) && i < j && SameKey(s, i, j) && !s.tasks[j].status.Waiting?
    ensures SettledAt(s, i)
  {
    ReachableInv(s);
    EarlierSettled(s, i, j);
  }

  /** At most one action of a key is running. */
  lemma MutualExclusion(s: State, i: nat, j: nat)
    requires Reachable(s) && SameKey(s, i, j) && s.tasks[i].status.Running? && s.tasks[j].status.Running?
    ensures i == j
  {
    ReachableInv(s);
    if i < j { EarlierSettled(s, i, j); }
    if j < i { EarlierSettled(s, j, i); }
  }

  /** A key without an entry has nothing waiting or running, and an entry is always the last call of its key. */
  lemma EntryIsLast(s: State, j: nat)
    requires Reachable(s) && j < |s.tasks|
    ensures var key := s.tasks[j].key; if key in s.queues then j <= s.queues[key] else SettledAt(s, j)
  {
    ReachableInv(s);
    assert TaskOk(s, j);
    if s.tasks[j].key in s.queues { assert EntryOk(s, s.tasks[j].key); }
  }

  lemma {:induction false} FirstUnsettled(s: State, j: nat) returns (i: nat)
    requires Inv(s) && j < |s.tasks| && !SettledAt(s, j)
    ensures i <= j && SameKey(s, i, j) && (s.tasks[i].status.Running? || Can(s, Start(i)))
    decreases j
  {
    assert TaskOk(s, j);
    if s.tasks[j].status.Waiting? && s.tasks[j].prior.Some? && !SettledAt(s, s.tasks[j].prior.value) {
      i := FirstUnsettled(s, s.tasks[j].prior.value);
    } else {
      i := j;
    }
  }

  /** No call is lost: while one waits, some earlier or equal call of its key is running or may start. */
  lemma NoDeadlock(s: State, j: nat) returns (i: nat)
    requires Reachable(s) && j < |s.tasks| && !SettledAt(s, j)
    ensures i <= j && SameKey(s, i, j) && (s.tasks[i].status.Running? || Can(s, Start(i)))
  {
    ReachableInv(s);
    i := FirstUnsettled(s, j);
  }

  /** Once every call has settled and cleaned up, no entry is left behind. */
  lemma NoLeak(s: State)
    requires Reachable(s) && forall j :: 0 <= j < |s.tasks| ==> s.tasks[j].cleaned
    ensures s.queues == map[]
  {
    ReachableInv(s);
    assert forall key :: key in s.queues ==> EntryOk(s, key);
    assert s.queues.Keys == {};
  }

  /** The map of chains, with the calls it has seen. */
  class SerialQueue {
    var queues: map<nat, nat>
    var tasks: seq<Task>

    function S(): State
      reads this
    {
      State(tasks, queues)
    }

    ghost predicate Valid()
      reads this
    {
      Inv(S())
    }

    constructor ()
      ensures Valid() && S() == EMPTY
    {
      queues, tasks := map[], [];
    }

    /** `serial`: chain behind the current entry, or start a new chain. */
    method Serial(key: nat) returns (pending: nat)
      requires Valid()
      modifies this
      ensures Valid() && S() == Do(old(S()), Call(key)) && pending == |old(tasks)|
      ensures queues[key] == pending
      ensures forall k :: 0 <= k < pending && tasks[k].key == key && !SettledAt(S(), k) ==> !Can(S(), Start(pending))
    {
      StepKeeps(S(), Call(key));
      var prior := None;
      if key in queues { prior := Some(queues[key]); }
      pending := |tasks|;
      tasks := tasks + [Task(key, prior, Waiting, false)];
      queues := queues[key := pending];
      LaterCannotStart(S(), pending);
    }

    /** The promise chained behind has settled, one way or the other: the action starts. */
    method Begin(task: nat)
      requires Valid() && Can(S(), Start(task))
      modifies this`tasks
      ensures Valid() && S() == Do(old(S()), Start(task))
      ensures forall k :: 0 <= k < |tasks| && k != task && tasks[k].key == tasks[task].key ==> !tasks[k].status.Running?
    {
      StepKeeps(S(), Start(task));
      tasks := tasks[task := tasks[task].(status := Running)];
      AloneWhileRunning(S(), task);
    }

    method End(task: nat, ok: bool)
      requires Valid() && Can(S(), Finish(task, ok))
      modifies this`tasks
      ensures Valid() && S() == Do(old(S()), Finish(task, ok))
    {
      StepKeeps(S(), Finish(task, ok));
      tasks := tasks[task := tasks[task].(status := Settled(ok))];
    }

    /** The `finally` of a settled action: only the last of a chain removes the entry. */
    method Settle(task: nat)
      requires Valid() && SettledAt(S(), task) && !tasks[task].cleaned
      modifies this
      ensures Valid() && S() == Do(old(S()), Cleanup(task))
      ensures forall k :: k in old(queues) && old(queues)[k] != task ==> k in queues && queues[k] == old(queues)[k]
    {
      StepKeeps(S(), Cleanup(task));
      var key := tasks[task].key;
      if key in queues && queues[key] == task { queues := queues - {key}; }
      tasks := tasks[task := tasks[task].(cleaned := true)];
    }
  }

  lemma AloneWhileRunning(s: State, i: nat)
    requires Inv(s) && i < |s.tasks| && s.tasks[i].status.Running?
    ensures forall k :: 0 <= k < |s.tasks| && k != i && s.tasks[k].key == s.tasks[i].key ==> !s.tasks[k].status.Running?
  {
    forall k | 0 <= k < |s.tasks| && k != i && s.tasks[k].key == s.tasks[i].key ensures !s.tasks[k].status.Running? {
      if k < i { EarlierSettled(s, k, i); }
      if i < k && s.tasks[k].status.Running? { EarlierSettled(s, i, k); }
    }
  }

  lemma LaterCannotStart(s: State, j: nat)
    requires Inv(s) && j < |s.tasks|
    ensures forall k :: 0 <= k < j && s.tasks[k].key == s.tasks[j].key && !SettledAt(s, k) ==> !Can(s, Start(j))
  {
    forall k | 0 <= k < j && s.tasks[k].key == s.tasks[j].key && !SettledAt(s, k) ensures !Can(s, Start(j)) {
      assert TaskOk(s, j) && SameKey(s, k, j);
      if s.tasks[j].prior.Some? && SettledAt(s, s.tasks[j].prior.value) {
        var p := s.tasks[j].prior.value;
        assert k < p;
        EarlierSettled(s, k, p);
      }
    }
  }
}
