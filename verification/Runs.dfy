/** Finite runs of a state machine given by its guard and its effect. */
module Runs {

  ghost predicate Legal<S(!new), A(!new)>(can: (S, A) -> bool, step: (S, A) -> S, s: S, acts: seq<A>)
    decreases |acts|
  {
    acts == [] || (can(s, acts[0]) && Legal(can, step, step(s, acts[0]), acts[1..]))
  }

  ghost function Run<S(!new), A(!new)>(step: (S, A) -> S, s: S, acts: seq<A>): S
    decreases |acts|
  {
    if acts == [] then s else Run(step, step(s, acts[0]), acts[1..])
  }

  /** Some permitted run leads from `s` to `t`. */
  ghost predicate Leads<S(!new), A(!new)>(can: (S, A) -> bool, step: (S, A) -> S, s: S, t: S) {
    exists acts :: Legal(can, step, s, acts) && Run(step, s, acts) == t
  }

  lemma {:induction false} Append<S(!new), A(!new)>(
      can: (S, A) -> bool, step: (S, A) -> S, s: S, acts: seq<A>, more: seq<A>)
    requires Legal(can, step, s, acts) && Legal(can, step, Run(step, s, acts), more)
    ensures Legal(can, step, s, acts + more)
    ensures Run(step, s, acts + more) == Run(step, Run(step, s, acts), more)
    decreases |acts|
  {
    if acts == [] {
      assert acts + more == more;
    } else {
      assert (acts + more)[1..] == acts[1..] + more;
      Append(can, step, step(s, acts[0]), acts[1..], more);
    }
  }

  lemma Stay<S(!new), A(!new)>(can: (S, A) -> bool, step: (S, A) -> S, s: S)
    ensures Leads(can, step, s, s)
  {
    var none: seq<A> := [];
    assert Legal(can, step, s, none) && Run(step, s, none) == s;
  }

  lemma OneMore<S(!new), A(!new)>(can: (S, A) -> bool, step: (S, A) -> S, s: S, t: S, a: A)
    requires Leads(can, step, s, t) && can(t, a)
    ensures Leads(can, step, s, step(t, a))
  {
    var acts :| Legal(can, step, s, acts) && Run(step, s, acts) == t;
    assert [a][1..] == [] && Legal(can, step, step(t, a), [a][1..]) && Legal(can, step, t, [a]);
    assert Run(step, t, [a]) == Run(step, step(t, a), [a][1..]) == step(t, a);
    Append(can, step, s, acts, [a]);
  }

  lemma Chain<S(!new), A(!new)>(can: (S, A) -> bool, step: (S, A) -> S, s: S, t: S, v: S)
    requires Leads(can, step, s, t) && Leads(can, step, t, v)
    ensures Leads(can, step, s, v)
  {
    var acts :| Legal(can, step, s, acts) && Run(step, s, acts) == t;
    var more :| Legal(can, step, t, more) && Run(step, t, more) == v;
    Append(can, step, s, acts, more);
  }

  /** What every permitted action keeps holds wherever runs lead. */
  lemma Kept<S(!new), A(!new)>(can: (S, A) -> bool, step: (S, A) -> S, inv: S -> bool, s: S, t: S)
    requires inv(s) && Leads(can, step, s, t)
    requires forall x, a :: inv(x) && can(x, a) ==> inv(step(x, a))
    ensures inv(t)
  {
    var acts :| Legal(can, step, s, acts) && Run(step, s, acts) == t;
    Invariant(can, step, inv, s, acts);
  }

  /** What every permitted action keeps, every run keeps. */
  lemma {:induction false} Invariant<S(!new), A(!new)>(
      can: (S, A) -> bool, step: (S, A) -> S, inv: S -> bool, s: S, acts: seq<A>)
    requires inv(s) && Legal(can, step, s, acts)
    requires forall x, a :: inv(x) && can(x, a) ==> inv(step(x, a))
    ensures inv(Run(step, s, acts))
    decreases |acts|
  {
    if acts != [] {
      Invariant(can, step, inv, step(s, acts[0]), acts[1..]);
    }
  }
}
