/** Greedy packing of a sequence into groups: exact, within the budget, and with no fewer groups possible. */
module Packing {
  import opened Effects
  import opened Utf16

  /** The groups one after the other. */
  function Flat<T>(groups: seq<seq<T>>): seq<T> {
    if groups == [] then [] else Flat(groups[..|groups| - 1]) + groups[|groups| - 1]
  }

  /** What is inside a group that fits, fits. */
  ghost predicate Hereditary<T(!new)>(fits: seq<T> -> bool) {
    forall s, a, b {:trigger fits(s), fits(s[a..b])} :: 0 <= a < b <= |s| && fits(s) ==> fits(s[a..b])
  }

  /** Consecutive groups that make up the items; each fits, or is empty. */
  predicate Packs<T(==)>(groups: seq<seq<T>>, items: seq<T>, fits: seq<T> -> bool) {
    Flat(groups) == items && forall k :: 0 <= k < |groups| ==> groups[k] == [] || fits(groups[k])
  }

  /** None is empty, and none could take the first item of the next. */
  predicate Greedy<T(==)>(groups: seq<seq<T>>, items: seq<T>, fits: seq<T> -> bool) {
    && Packs(groups, items, fits)
    && (forall k :: 0 <= k < |groups| ==> groups[k] != [])
    && (forall k {:trigger groups[k]} :: 0 <= k < |groups| - 1 ==> !fits(groups[k] + groups[k + 1][..1]))
  }

  // ---- Packing item by item -------------------------------------------------------------------

  lemma OpenGroup<T>(groups: seq<seq<T>>, items: seq<T>, x: T, fits: seq<T> -> bool)
    requires Greedy(groups, items, fits) && fits([x])
    requires groups != [] ==> !fits(groups[|groups| - 1] + [x])
    ensures Greedy(groups + [[x]], items + [x], fits)
  {
    var now := groups + [[x]];
    assert now[..|groups|] == groups;
    forall k | 0 <= k < |now| - 1 ensures !fits(now[k] + now[k + 1][..1]) {
      if k < |groups| - 1 {
        assert now[k] == groups[k] && now[k + 1] == groups[k + 1];
      } else {
        assert [x][..1] == [x];
      }
    }
  }

  lemma ExtendGroup<T>(groups: seq<seq<T>>, items: seq<T>, x: T, fits: seq<T> -> bool)
    requires Greedy(groups, items, fits) && groups != [] && fits(groups[|groups| - 1] + [x])
    ensures Greedy(groups[..|groups| - 1] + [groups[|groups| - 1] + [x]], items + [x], fits)
  {
    var n := |groups| - 1;
    var now := groups[..n] + [groups[n] + [x]];
    assert now[..n] == groups[..n];
    assert Flat(now) == Flat(groups[..n]) + (groups[n] + [x]) == Flat(groups) + [x];
    forall k | 0 <= k < |now| - 1 ensures !fits(now[k] + now[k + 1][..1]) {
      assert now[k] == groups[k] && now[k + 1][..1] == groups[k + 1][..1];
    }
  }

  // ---- Greedy is optimal ------------------------------------------------------------------------

  function Start<T>(groups: seq<seq<T>>, k: nat): nat
    requires k <= |groups|
  {
    |Flat(groups[..k])|
  }

  lemma {:induction false} GroupIsSlice<T>(groups: seq<seq<T>>, k: nat)
    requires k < |groups|
    ensures Start(groups, k + 1) == Start(groups, k) + |groups[k]| <= |Flat(groups)|
    ensures groups[k] == Flat(groups)[Start(groups, k)..Start(groups, k + 1)]
    decreases |groups|
  {
    var n := |groups| - 1;
    assert groups[..k + 1][..k] == groups[..k];
    if k < n {
      GroupIsSlice(groups[..n], k);
      assert groups[..n][..k] == groups[..k] && groups[..n][..k + 1] == groups[..k + 1];
    } else {
      assert groups[..k + 1] == groups;
    }
  }

  /** After equally many groups, the greedy packing has taken at least as many items. */
  lemma {:induction false} GreedyIsAhead<T(!new)>(groups: seq<seq<T>>, others: seq<seq<T>>, items: seq<T>,
      fits: seq<T> -> bool, k: nat)
    requires Hereditary(fits) && Greedy(groups, items, fits) && Packs(others, items, fits)
    requires k <= |groups| && k <= |others|
    ensures Start(groups, k) >= Start(others, k)
  {
    if k > 0 {
      GreedyIsAhead(groups, others, items, fits, k - 1);
      GroupIsSlice(groups, k - 1);
      GroupIsSlice(others, k - 1);
      assert groups[..|groups|] == groups;
      if k < |groups| && Start(groups, k) < Start(others, k) {
        GroupIsSlice(groups, k);
        NextFits(groups[k - 1], groups[k], others[k - 1], items, fits,
                 Start(groups, k - 1), Start(groups, k), Start(others, k - 1), Start(others, k));
      }
    }
  }

  /** The next item would still have been within a group that fits. */
  lemma NextFits<T(!new)>(group: seq<T>, next: seq<T>, other: seq<T>, items: seq<T>, fits: seq<T> -> bool,
                          a: nat, b: nat, c: nat, d: nat)
    requires c <= a < b < d <= |items| && next != [] && b + |next| <= |items|
    requires group == items[a..b] && next == items[b..b + |next|] && other == items[c..d]
    requires Hereditary(fits) && fits(other)
    ensures fits(group + next[..1])
  {
    var i, j := a - c, b + 1 - c;
    assert next[..1] == [items[b]] && items[a..b] + [items[b]] == items[a..b + 1];
    SliceOfSlice(items, c, d, i, j);
  }

  lemma SliceOfSlice<T>(s: seq<T>, c: nat, d: nat, i: nat, j: nat)
    requires c <= d <= |s| && i <= j <= d - c
    ensures s[c..d][i..j] == s[c + i..c + j]
  {
    forall k | 0 <= k < j - i ensures s[c..d][i..j][k] == s[c + i..c + j][k] {
      assert s[c..d][i + k] == s[c + i + k];
    }
  }

  /** No packing into consecutive groups that fit has fewer groups. */
  lemma GreedyIsOptimal<T(!new)>(groups: seq<seq<T>>, others: seq<seq<T>>, items: seq<T>, fits: seq<T> -> bool)
    requires Hereditary(fits) && Greedy(groups, items, fits) && Packs(others, items, fits)
    ensures |groups| <= |others|
  {
    if |others| < |groups| {
      var k := |others|;
      GreedyIsAhead(groups, others, items, fits, k);
      assert others[..k] == others;
      GroupIsSlice(groups, k);
    }
  }

  // ---- Splitting a message --------------------------------------------------------------------

  /** At most `maxBytes`, except that a single code point is always a part. */
  function ByteFit(maxBytes: nat): seq<Text> -> bool {
    (s: seq<Text>) => |s| == 1 || Total(Bytes, s) <= maxBytes
  }

  function Joined(groups: seq<seq<Text>>): (r: seq<Text>)
    ensures |r| == |groups|
  {
    if groups == [] then [] else Joined(groups[..|groups| - 1]) + [Join(groups[|groups| - 1])]
  }

  /** `splitMessage`. */
  method SplitMessage(content: Text, maxBytes: nat) returns (parts: seq<Text>, ghost groups: seq<seq<Text>>)
    ensures Greedy(groups, Chars(content), ByteFit(maxBytes)) && parts == Joined(groups)
    ensures Join(parts) == content
    ensures forall k :: 0 <= k < |parts| ==>
              parts[k] != [] && Size(Bytes, parts[k]) <= if maxBytes < 4 then 4 else maxBytes
  {
    hide Chars, Size, Greedy, ByteFit, Joined, Join, Total;
    var chars := Chars(content);
    var part: Text, bytes: nat := [], 0;
    parts, groups := [], [];
    NothingPacked(maxBytes);
    for i := 0 to |chars|
      invariant Greedy(groups, chars[..i], ByteFit(maxBytes))
      invariant part == [] <==> groups == []
      invariant parts + (if part == [] then [] else [part]) == Joined(groups)
      invariant bytes == if groups == [] then 0 else Total(Bytes, groups[|groups| - 1])
      invariant groups != [] ==> part == Join(groups[|groups| - 1]) && groups[|groups| - 1] != []
    {
      var size := Size(Bytes, chars[i]);
      CharIsSomething(content, i);
      assert chars[..i + 1] == chars[..i] + [chars[i]];
      if bytes + size > maxBytes && part != [] {
        TakeChar(groups, chars[i], bytes, maxBytes);
        OpenGroup(groups, chars[..i], chars[i], ByteFit(maxBytes));
        OneMoreGroup(groups, chars[i]);
        parts, part, bytes := parts + [part], [], 0;
        groups := groups + [[chars[i]]];
      } else if part == [] {
        SingleFits(maxBytes, chars[i]);
        OpenGroup(groups, chars[..i], chars[i], ByteFit(maxBytes));
        OneMoreGroup(groups, chars[i]);
        groups := groups + [[chars[i]]];
      } else {
        TakeChar(groups, chars[i], bytes, maxBytes);
        ExtendGroup(groups, chars[..i], chars[i], ByteFit(maxBytes));
        LongerGroup(groups, chars[i], parts, part);
        groups := groups[..|groups| - 1] + [groups[|groups| - 1] + [chars[i]]];
      }
      part, bytes := part + chars[i], bytes + size;
    }
    assert chars[..|chars|] == chars;
    if part != [] { parts := parts + [part]; }
    SplitIsExact(content, groups, maxBytes);
    forall k | 0 <= k < |parts|
      ensures parts[k] != [] && Size(Bytes, parts[k]) <= if maxBytes < 4 then 4 else maxBytes
    {
      PartFits(content, groups, maxBytes, k);
    }
  }

  lemma {:induction false} JoinOfJoined(groups: seq<seq<Text>>)
    ensures Join(Joined(groups)) == Join(Flat(groups))
  {
    if groups != [] {
      var n := |groups| - 1;
      var last := Join(groups[n]);
      JoinOfJoined(groups[..n]);
      JoinIsAssociative(Joined(groups[..n]), [last]);
      assert [last][1..] == [] && last + [] == last;
      JoinIsAssociative(Flat(groups[..n]), groups[n]);
    }
  }

  lemma SplitIsExact(content: Text, groups: seq<seq<Text>>, maxBytes: nat)
    requires Greedy(groups, Chars(content), ByteFit(maxBytes))
    ensures Join(Joined(groups)) == content
  {
    hide Chars;
    JoinOfJoined(groups);
    JoinOfChars(content);
  }

  lemma {:induction false} JoinedAt(groups: seq<seq<Text>>, k: nat)
    requires k < |groups|
    ensures Joined(groups)[k] == Join(groups[k])
    decreases |groups|
  {
    if k < |groups| - 1 { JoinedAt(groups[..|groups| - 1], k); }
  }

  lemma {:induction false} JoinFits(m: Measure, parts: seq<Text>)
    ensures Size(m, Join(parts)) <= Total(m, parts)
  {
    hide Size;
    SizeOfNothing(m);
    if parts != [] {
      JoinFits(m, parts[1..]);
      JoinedIsNoLarger(m, parts[0], Join(parts[1..]));
    }
  }

  lemma PartFits(content: Text, groups: seq<seq<Text>>, maxBytes: nat, k: nat)
    requires Greedy(groups, Chars(content), ByteFit(maxBytes)) && k < |groups|
    ensures Joined(groups)[k] != [] && Size(Bytes, Joined(groups)[k]) <= if maxBytes < 4 then 4 else maxBytes
  {
    hide Chars, Size, Join, Flat, Joined, Total;
    JoinedAt(groups, k);
    GroupIsSlice(groups, k);
    var first := Start(groups, k);
    CharIsSomething(content, first);
    assert groups[k][0] == Chars(content)[first];
    JoinFits(Bytes, groups[k]);
    assert groups[k] == [groups[k][0]] + groups[k][1..];
    FirstOfJoin(groups[k]);
    if |groups[k]| == 1 { assert groups[k][1..] == []; }
  }

  lemma FirstOfJoin(parts: seq<Text>)
    requires parts != []
    ensures Join(parts) == parts[0] + Join(parts[1..])
    ensures |parts| == 1 ==> Total(Bytes, parts) == Size(Bytes, parts[0])
  {
  }

  lemma ByteFitIsHereditary(maxBytes: nat)
    ensures Hereditary(ByteFit(maxBytes))
  {
    hide Size;
    forall s: seq<Text>, a, b | 0 <= a < b <= |s| && ByteFit(maxBytes)(s) ensures ByteFit(maxBytes)(s[a..b]) {
      assert s == s[..a] + s[a..b] + s[b..];
      TotalIsAdditive(Bytes, s[..a] + s[a..b], s[b..]);
      TotalIsAdditive(Bytes, s[..a], s[a..b]);
    }
  }

  /** No split at code points into parts that fit has fewer parts. */
  lemma SplitIsOptimal(content: Text, maxBytes: nat, groups: seq<seq<Text>>, others: seq<seq<Text>>)
    requires Greedy(groups, Chars(content), ByteFit(maxBytes)) && Packs(others, Chars(content), ByteFit(maxBytes))
    ensures |Joined(groups)| <= |others|
  {
    ByteFitIsHereditary(maxBytes);
    GreedyIsOptimal(groups, others, Chars(content), ByteFit(maxBytes));
  }

  lemma NothingPacked(maxBytes: nat)
    ensures Greedy([], [], ByteFit(maxBytes)) && Joined([]) == []
  {
  }

  lemma SingleFits(maxBytes: nat, ch: Text)
    ensures ByteFit(maxBytes)([ch])
  {
  }

  lemma TakeChar(groups: seq<seq<Text>>, ch: Text, bytes: nat, maxBytes: nat)
    requires groups != [] && groups[|groups| - 1] != [] && bytes == Total(Bytes, groups[|groups| - 1])
    ensures ByteFit(maxBytes)(groups[|groups| - 1] + [ch]) <==> bytes + Size(Bytes, ch) <= maxBytes
    ensures ByteFit(maxBytes)([ch])
    ensures Total(Bytes, groups[|groups| - 1] + [ch]) == bytes + Size(Bytes, ch)
    ensures Total(Bytes, [ch]) == Size(Bytes, ch)
  {
    hide Size;
    TotalIsAdditive(Bytes, groups[|groups| - 1], [ch]);
    assert [ch][1..] == [];
  }

  lemma OneMoreGroup(groups: seq<seq<Text>>, ch: Text)
    ensures Joined(groups + [[ch]]) == Joined(groups) + [ch]
    ensures Total(Bytes, [ch]) == Size(Bytes, ch) && Join([ch]) == ch == [] + ch
  {
    hide Size;
    assert [ch][1..] == [] && ch + [] == ch;
    assert Join([ch]) == ch;
    var now := groups + [[ch]];
    assert now[..|groups|] == groups && now[|groups|] == [ch];
  }

  lemma LongerGroup(groups: seq<seq<Text>>, ch: Text, parts: seq<Text>, part: Text)
    requires groups != [] && parts + [part] == Joined(groups)
    ensures var n := |groups| - 1;
            && parts + [part + ch] == Joined(groups[..n] + [groups[n] + [ch]])
            && Join(groups[n] + [ch]) == part + ch
  {
    var n := |groups| - 1;
    var now := groups[..n] + [groups[n] + [ch]];
    assert now[..n] == groups[..n] && now[n] == groups[n] + [ch];
    assert (parts + [part])[..n] == parts && (parts + [part])[n] == part;
    assert Joined(groups)[..n] == Joined(groups[..n]) && Joined(groups)[n] == Join(groups[n]);
    JoinIsAssociative(groups[n], [ch]);
    assert [ch][1..] == [] && ch + [] == ch;
  }

  lemma {:induction false} CharIsSomething(s: Text, i: nat)
    requires i < |Chars(s)|
    ensures Chars(s)[i] != [] && Size(Bytes, Chars(s)[i]) <= 4
    decreases i
  {
    if i > 0 {
      CharIsSomething(s[CharLen(s)..], i - 1);
    } else {
      assert s[..CharLen(s)][CharLen(s)..] == [];
    }
  }
}
