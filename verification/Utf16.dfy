/** Strings as sequences of UTF-16 code units, read by code points and measured in units or in UTF-8 bytes. */
module Utf16 {

  newtype Unit = u: int | 0 <= u < 0x1_0000

  type Text = seq<Unit>

  datatype Measure = Units | Bytes

  predicate High(u: Unit) { 0xD800 <= u < 0xDC00 }

  predicate Low(u: Unit) { 0xDC00 <= u < 0xE000 }

  /** Units in the first code point; a surrogate without its partner stands alone. */
  function CharLen(s: Text): (n: nat)
    requires s != []
    ensures 1 <= n <= |s| && n <= 2
  {
    if High(s[0]) && |s| > 1 && Low(s[1]) then 2 else 1
  }

  /** A lone surrogate is encoded as U+FFFD. */
  function CharSize(m: Measure, s: Text): (n: nat)
    requires s != []
    ensures 1 <= n <= 4 && CharLen(s) <= n
  {
    if m.Units? then CharLen(s)
    else if CharLen(s) == 2 then 4
    else if s[0] < 0x80 then 1
    else if s[0] < 0x800 then 2
    else 3
  }

  /** `text.length` or `Buffer.byteLength(text)`. */
  function Size(m: Measure, s: Text): nat {
    if s == [] then 0 else CharSize(m, s) + Size(m, s[CharLen(s)..])
  }

  /** The code points, as `for (const c of s)` gives them. */
  function Chars(s: Text): seq<Text> {
    if s == [] then [] else [s[..CharLen(s)]] + Chars(s[CharLen(s)..])
  }

  function Join(parts: seq<Text>): Text {
    if parts == [] then [] else parts[0] + Join(parts[1..])
  }

  function Total(m: Measure, parts: seq<Text>): nat {
    if parts == [] then 0 else Size(m, parts[0]) + Total(m, parts[1..])
  }

  /** No surrogate pair is split at `k`. */
  predicate Boundary(s: Text, k: nat)
    requires k <= |s|
  {
    !(0 < k < |s| && High(s[k - 1]) && Low(s[k]))
  }

  /** The first `c` code points. */
  function Prefix(s: Text, c: nat): Text
    requires c <= |Chars(s)|
  {
    Join(Chars(s)[..c])
  }

  lemma SizeOfNothing(m: Measure)
    ensures Size(m, []) == 0
  {
  }

  lemma {:induction false} LengthIsUnits(s: Text)
    ensures Size(Units, s) == |s| <= Size(Bytes, s)
  {
    if s != [] { LengthIsUnits(s[CharLen(s)..]); }
  }

  /** The first code point of `a` is that of `a + b`, unless it is completed by `b`. */
  lemma FirstOfJoined(m: Measure, a: Text, b: Text)
    requires a != [] && CharLen(a + b) == CharLen(a)
    ensures var n := CharLen(a);
            (a + b)[n..] == a[n..] + b && (a + b)[..n] == a[..n] && CharSize(m, a + b) == CharSize(m, a)
  {
  }

  /** Joining texts never costs more. */
  lemma {:induction false} JoinedIsNoLarger(m: Measure, a: Text, b: Text)
    ensures Size(m, a + b) <= Size(m, a) + Size(m, b)
    decreases |a|
  {
    if a == [] {
      assert a + b == b;
    } else if CharLen(a + b) == CharLen(a) {
      FirstOfJoined(m, a, b);
      JoinedIsNoLarger(m, a[CharLen(a)..], b);
    } else {
      assert |a| == 1 && (a + b)[2..] == b[1..] && (a + b)[1] == b[0];
    }
  }

  /** Nor does a longer text ever cost less. */
  lemma {:induction false} LongerIsNoSmaller(m: Measure, a: Text, b: Text)
    ensures Size(m, a) <= Size(m, a + b)
    decreases |a|
  {
    if a != [] {
      if CharLen(a + b) == CharLen(a) {
        FirstOfJoined(m, a, b);
        LongerIsNoSmaller(m, a[CharLen(a)..], b);
      } else {
        assert |a| == 1 && a[1..] == [];
      }
    }
  }

  /** It costs the same unless a pair is completed at the seam. */
  lemma {:induction false} SizeOfJoined(m: Measure, a: Text, b: Text)
    requires a != [] && b != [] ==> !(High(a[|a| - 1]) && Low(b[0]))
    ensures Size(m, a + b) == Size(m, a) + Size(m, b)
    decreases |a|
  {
    if a == [] {
      assert a + b == b;
    } else {
      var n := CharLen(a);
      assert b == [] ==> a + b == a;
      FirstOfJoined(m, a, b);
      assert a[n..] != [] ==> a[n..][|a| - n - 1] == a[|a| - 1];
      SizeOfJoined(m, a[n..], b);
    }
  }

  lemma {:induction false} JoinIsAssociative(a: seq<Text>, b: seq<Text>)
    ensures Join(a + b) == Join(a) + Join(b)
  {
    if a == [] {
      assert a + b == b;
    } else {
      assert (a + b)[1..] == a[1..] + b && (a + b)[0] == a[0];
      JoinIsAssociative(a[1..], b);
    }
  }

  lemma {:induction false} TotalIsAdditive(m: Measure, a: seq<Text>, b: seq<Text>)
    ensures Total(m, a + b) == Total(m, a) + Total(m, b)
  {
    if a == [] {
      assert a + b == b;
    } else {
      TotalIsAdditive(m, a[1..], b);
      assert (a + b)[1..] == a[1..] + b;
    }
  }

  lemma {:induction false} JoinOfChars(s: Text)
    ensures Join(Chars(s)) == s
  {
    if s != [] { JoinOfChars(s[CharLen(s)..]); }
  }

  /** A prefix that splits no pair, behind the first code point, is one in front of it as well. */
  lemma HeadOnto(m: Measure, s: Text, u: Text)
    requires s != [] && u <= s[CharLen(s)..] && Boundary(s[CharLen(s)..], |u|)
    ensures var n := CharLen(s); var t := s[..n] + u;
            && t <= s && Boundary(s, |t|) && (t == s <==> u == s[n..])
            && CharLen(t) == n && t[n..] == u && t[..n] == s[..n] && CharSize(m, t) == CharSize(m, s)
  {
  }

  /** A number of leading code points is a prefix that splits no pair, and is measured by adding up. */
  lemma {:induction false} PrefixFacts(m: Measure, s: Text, c: nat)
    requires c <= |Chars(s)|
    ensures Prefix(s, c) <= s && Boundary(s, |Prefix(s, c)|)
    ensures Chars(Prefix(s, c)) == Chars(s)[..c]
    ensures Size(m, Prefix(s, c)) == Total(m, Chars(s)[..c])
    decreases |s|
  {
    hide CharSize;
    if c > 0 {
      var n := CharLen(s);
      var ch, rest := s[..n], s[n..];
      PrefixFacts(m, rest, c - 1);
      var u := Prefix(rest, c - 1);
      HeadOnto(m, s, u);
      HeadOnto(m, s, []);
      assert ch + [] == ch;
      assert Chars(s)[..c] == [ch] + Chars(rest)[..c - 1];
      PrefixStep(m, s, c, u);
    }
  }

  lemma PrefixStep(m: Measure, s: Text, c: nat, u: Text)
    requires 0 < c <= |Chars(s)| && s != [] && u == Prefix(s[CharLen(s)..], c - 1)
    requires Chars(s)[..c] == [s[..CharLen(s)]] + Chars(s[CharLen(s)..])[..c - 1]
    ensures Prefix(s, c) == s[..CharLen(s)] + u
    ensures Total(m, Chars(s)[..c]) == Size(m, s[..CharLen(s)]) + Total(m, Chars(s[CharLen(s)..])[..c - 1])
  {
  }

  lemma PrefixGrows(m: Measure, s: Text, c: nat)
    requires c < |Chars(s)|
    ensures Prefix(s, c + 1) == Prefix(s, c) + Chars(s)[c]
    ensures Size(m, Prefix(s, c + 1)) == Size(m, Prefix(s, c)) + Size(m, Chars(s)[c])
  {
    var cs := Chars(s);
    assert cs[..c + 1] == cs[..c] + [cs[c]];
    JoinIsAssociative(cs[..c], [cs[c]]);
    TotalIsAdditive(m, cs[..c], [cs[c]]);
    assert Join([cs[c]]) == cs[c] && Total(m, [cs[c]]) == Size(m, cs[c]);
    PrefixFacts(m, s, c);
    PrefixFacts(m, s, c + 1);
  }

  lemma {:induction false} PrefixMonotone(m: Measure, s: Text, c: nat, d: nat)
    requires c <= d <= |Chars(s)|
    ensures Size(m, Prefix(s, c)) <= Size(m, Prefix(s, d))
    decreases d
  {
    if c < d {
      PrefixMonotone(m, s, c, d - 1);
      PrefixGrows(m, s, d - 1);
    }
  }

  /** As many leading code points as fit, one after the other. */
  function Take(m: Measure, s: Text, room: int): Text {
    if s == [] || CharSize(m, s) > room then []
    else s[..CharLen(s)] + Take(m, s[CharLen(s)..], room - CharSize(m, s))
  }

  lemma {:induction false} TakeFacts(m: Measure, s: Text, room: int)
    ensures Take(m, s, room) <= s && Boundary(s, |Take(m, s, room)|)
    ensures Size(m, Take(m, s, room)) <= if room < 0 then 0 else room
    ensures Size(m, s) <= room ==> Take(m, s, room) == s
    decreases |s|
  {
    if s != [] && CharSize(m, s) <= room {
      var n := CharLen(s);
      TakeFacts(m, s[n..], room - CharSize(m, s));
      HeadOnto(m, s, Take(m, s[n..], room - CharSize(m, s)));
    }
  }
}
