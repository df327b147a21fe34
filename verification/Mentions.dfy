/** Lists that may name the same account or robot again: each is taken once, in the order of first mention. */
module Mentions {

  /** `a` is mentioned before `b` is. */
  predicate MentionedBefore(all: seq<nat>, a: nat, b: nat) {
    exists k :: 0 <= k < |all| && all[k] == a && b !in all[..k + 1]
  }

  ghost predicate InOrder(r: seq<nat>, all: seq<nat>) {
    forall i, j :: 0 <= i < j < |r| ==> MentionedBefore(all, r[i], r[j])
  }

  lemma MentionedStays(all: seq<nat>, last: nat, a: nat, b: nat)
    requires MentionedBefore(all, a, b)
    ensures MentionedBefore(all + [last], a, b)
  {
    var k :| 0 <= k < |all| && all[k] == a && b !in all[..k + 1];
    var now := all + [last];
    assert now[k] == a && now[..k + 1] == all[..k + 1];
  }

  /** What is mentioned first comes first, also when one more is mentioned. */
  lemma InOrderStays(r: seq<nat>, all: seq<nat>, last: nat)
    requires InOrder(r, all) && forall u :: u in r ==> u in all
    ensures InOrder(r, all + [last]) && (last !in all ==> InOrder(r + [last], all + [last]))
  {
    var now := all + [last];
    forall i, j | 0 <= i < j < |r| ensures MentionedBefore(now, r[i], r[j]) { MentionedStays(all, last, r[i], r[j]); }
    if last !in all {
      forall i | 0 <= i < |r| ensures MentionedBefore(now, r[i], last) {
        assert r[i] in all;
        var k :| 0 <= k < |all| && all[k] == r[i];
        assert now[k] == r[i] && now[..k + 1] == all[..k + 1];
      }
    }
  }

  /** Each once, in order of first mention. */
  function Once(all: seq<nat>): (r: seq<nat>)
    ensures InOrder(r, all) && forall u :: u in r <==> u in all
    ensures forall i, j :: 0 <= i < j < |r| ==> r[i] != r[j]
  {
    if all == [] then []
    else
      var last, before := all[|all| - 1], Once(all[..|all| - 1]);
      assert all == all[..|all| - 1] + [last];
      InOrderStays(before, all[..|all| - 1], last);
      if last in before then before else before + [last]
  }
}
