/** Who is mentioned in a group message: the accounts asked for, what a roster confirms of them, and at most fifty. */
module Audience {
  import opened Effects
  import opened Mentions

  const MAX_NOTIFY_USERS: nat := 50

  /** `part` is what is left of `all` when some elements are removed. */
  predicate Subsequence(part: seq<nat>, all: seq<nat>)
    decreases all
  {
    if part == [] then true
    else if all == [] then false
    else if part[0] == all[0] then Subsequence(part[1..], all[1..])
    else Subsequence(part, all[1..])
  }

  lemma {:induction false} SubsequenceRefl(s: seq<nat>)
    ensures Subsequence(s, s)
  {
    if s != [] { SubsequenceRefl(s[1..]); }
  }

  lemma {:induction false} SubsequenceOfMore(a: seq<nat>, b: seq<nat>)
    requires b != [] && Subsequence(a, b[1..])
    ensures Subsequence(a, b)
    decreases |b|, 0
  {
    if a != [] && a[0] == b[0] { SubsequenceOfLess(a, b[1..]); }
  }

  lemma {:induction false} SubsequenceOfLess(a: seq<nat>, b: seq<nat>)
    requires a != [] && Subsequence(a, b)
    ensures Subsequence(a[1..], b)
    decreases |b|, 1
  {
    if a[0] == b[0] {
      SubsequenceOfMore(a[1..], b);
    } else {
      SubsequenceOfLess(a, b[1..]);
      SubsequenceOfMore(a[1..], b);
    }
  }

  lemma {:induction false} SubsequenceTrans(a: seq<nat>, b: seq<nat>, c: seq<nat>)
    requires Subsequence(a, b) && Subsequence(b, c)
    ensures Subsequence(a, c)
    decreases |b| + |c|
  {
    if a == [] {
    } else if b[0] != c[0] {
      SubsequenceTrans(a, b, c[1..]);
      SubsequenceOfMore(a, c);
    } else if a[0] == b[0] {
      SubsequenceTrans(a[1..], b[1..], c[1..]);
    } else {
      SubsequenceTrans(a, b[1..], c[1..]);
      SubsequenceOfMore(a, c);
    }
  }

  /** The members of `users` that a roster confirms: the others are removed, and nothing else changes. */
  function Confirmed(users: seq<nat>, roster: set<nat>): (r: seq<nat>)
    ensures Subsequence(r, users) && |r| <= |users|
    ensures forall u :: u in r <==> u in users && u in roster
  {
    if users == [] then []
    else if users[0] in roster then [users[0]] + Confirmed(users[1..], roster)
    else
      SubsequenceOfMore(Confirmed(users[1..], roster), users);
      Confirmed(users[1..], roster)
  }

  /** No confirmed mention is lost: each account is left as often as it was there. */
  lemma {:induction false} ConfirmedCounts(users: seq<nat>, roster: set<nat>, u: nat)
    ensures multiset(Confirmed(users, roster))[u] == if u in roster then multiset(users)[u] else 0
  {
    if users != [] {
      ConfirmedCounts(users[1..], roster, u);
      assert users == [users[0]] + users[1..];
    }
  }

  predicate Distinct(s: seq<nat>) { forall i, j :: 0 <= i < j < |s| ==> s[i] != s[j] }

  lemma {:induction false} OnceOfDistinct(s: seq<nat>)
    requires Distinct(s)
    ensures Once(s) == s
  {
    if s != [] {
      var before, last := s[..|s| - 1], s[|s| - 1];
      OnceOfDistinct(before);
      assert s == before + [last] && last !in before;
    }
  }

  lemma {:induction false} ConfirmedDistinct(users: seq<nat>, roster: set<nat>)
    requires Distinct(users)
    ensures Distinct(Confirmed(users, roster))
  {
    if users != [] {
      ConfirmedDistinct(users[1..], roster);
      assert users[0] !in users[1..];
    }
  }

  /** Whom a message is meant for: each account once, and of these, if a roster was read, those that it confirms. */
  function Intended(users: seq<nat>, roster: Option<set<nat>>): (r: seq<nat>)
    ensures Distinct(r)
  {
    ConfirmedDistinct(Once(users), roster.GetOr({}));
    if roster.None? then Once(users) else Confirmed(Once(users), roster.value)
  }

  /** The audience that is shown, and how many are only counted. */
  predicate Splits(audience: seq<nat>, shown: seq<nat>, omitted: nat) {
    && shown <= audience && |shown| <= MAX_NOTIFY_USERS && |shown| + omitted == |audience|
    && (omitted > 0 ==> |shown| == MAX_NOTIFY_USERS)
  }
}
