/**
 * Showing a name or title on one line: every character that could start Markdown is escaped, and nothing is cut
 * in half.
 */
module InlineText {
  import opened Utf16

  const AMPERSAND: Unit := 38
  const BACKSLASH: Unit := 92
  const DOTS: Text := [46, 46, 46]
  const AMP_ENTITY: Text := [38, 97, 109, 112, 59]
  const LT_ENTITY: Text := [38, 108, 116, 59]
  const GT_ENTITY: Text := [38, 103, 116, 59]

  /** ``\ ` * _ { } [ ] ( ) ! | ~`` */
  predicate Special(u: Unit) { u in {92, 96, 42, 95, 123, 125, 91, 93, 40, 41, 33, 124, 126} }

  function Escaped(ch: Text): Text {
    if ch == [38] then AMP_ENTITY
    else if ch == [60] then LT_ENTITY
    else if ch == [62] then GT_ENTITY
    else if |ch| == 1 && Special(ch[0]) then [BACKSLASH] + ch
    else ch
  }

  /** One escaped unit for each of the code points. */
  function EscapedAll(chars: seq<Text>): (r: seq<Text>)
    ensures |r| == |chars|
  {
    if chars == [] then [] else [Escaped(chars[0])] + EscapedAll(chars[1..])
  }

  /** How many units fit, taking them in order until one does not. */
  function Count(units: seq<Text>, k: nat, room: int): (r: nat)
    requires k <= |units|
    ensures k <= r <= |units|
    ensures r > k ==> Size(Bytes, Join(units[..r])) <= room
    ensures r < |units| ==> Size(Bytes, Join(units[..r + 1])) > room
    decreases |units| - k
  {
    if k < |units| && Size(Bytes, Join(units[..k + 1])) <= room then Count(units, k + 1, room) else k
  }

  /** The escaped text, or as many of its units as leave room for the dots. */
  function Inline(text: Text, maxBytes: int): Text {
    var units := EscapedAll(Chars(text));
    if Size(Bytes, Join(units)) <= maxBytes then Join(units)
    else Join(units[..Count(units, 0, maxBytes - 3)]) + DOTS
  }

  method InlineMarkdown(text: Text, maxBytes: int) returns (r: Text)
    ensures r == Inline(text, maxBytes)
  {
    hide Size, EscapedAll, Chars;
    var units := EscapedAll(Chars(text));
    if Size(Bytes, Join(units)) <= maxBytes { return Join(units); }
    r := [];
    var k := 0;
    while k < |units|
      invariant k <= |units| && r == Join(units[..k])
      invariant Count(units, k, maxBytes - 3) == Count(units, 0, maxBytes - 3)
    {
      JoinNext(units, k);
      if Size(Bytes, r + units[k]) > maxBytes - 3 { break; }
      r := r + units[k];
      k := k + 1;
    }
    r := r + DOTS;
  }

  lemma JoinNext(parts: seq<Text>, k: nat)
    requires k < |parts|
    ensures Join(parts[..k + 1]) == Join(parts[..k]) + parts[k]
  {
    assert parts[..k + 1] == parts[..k] + [parts[k]];
    JoinIsAssociative(parts[..k], [parts[k]]);
    assert Join([parts[k]]) == parts[k] + Join([parts[k]][1..]);
  }

  /** Within the limit, whatever the limit leaves for more than the dots. */
  lemma InlineFits(text: Text, maxBytes: int)
    ensures Size(Bytes, Inline(text, maxBytes)) <= if maxBytes < 3 then 3 else maxBytes
  {
    hide EscapedAll, Chars, Size;
    SizeOfNothing(Bytes);
    var units := EscapedAll(Chars(text));
    var k := Count(units, 0, maxBytes - 3);
    DotsTakeThree();
    JoinedIsNoLarger(Bytes, Join(units[..k]), DOTS);
  }

  lemma DotsTakeThree()
    ensures Size(Bytes, DOTS) == 3
  {
  }

  // ---- Escaping can be undone ---------------------------------------------------------

  predicate Starts(s: Text, prefix: Text) { |s| >= |prefix| && s[..|prefix|] == prefix }

  /** How a reader resolves the escapes. */
  function Plain(s: Text): Text {
    if s == [] then []
    else if s[0] == BACKSLASH && |s| > 1 then [s[1]] + Plain(s[2..])
    else if Starts(s, AMP_ENTITY) then [38] + Plain(s[5..])
    else if Starts(s, LT_ENTITY) then [60] + Plain(s[4..])
    else if Starts(s, GT_ENTITY) then [62] + Plain(s[4..])
    else [s[0]] + Plain(s[1..])
  }

  /** The first `k` units say the first `k` code points, whatever follows them. */
  lemma {:induction false} PlainOfUnits(text: Text, k: nat, tail: Text)
    requires k <= |Chars(text)|
    ensures Plain(Join(EscapedAll(Chars(text))[..k]) + tail) == Prefix(text, k) + Plain(tail)
    decreases |text|
  {
    hide Plain, Escaped;
    var units := EscapedAll(Chars(text));
    if k == 0 {
      assert [] + tail == tail && [] + Plain(tail) == Plain(tail);
    } else {
      var n := CharLen(text);
      var ch, others := text[..n], Chars(text[n..]);
      PlainOfUnits(text[n..], k - 1, tail);
      FirstUnit(ch, others, k);
      var rest := Join(EscapedAll(others)[..k - 1]);
      assert Escaped(ch) + rest + tail == Escaped(ch) + (rest + tail);
      PlainOfOne(text, rest + tail);
      assert ch + (Prefix(text[n..], k - 1) + Plain(tail)) == ch + Prefix(text[n..], k - 1) + Plain(tail);
    }
  }

  lemma FirstUnit(ch: Text, others: seq<Text>, k: nat)
    requires 0 < k <= |others| + 1
    ensures Join(([ch] + others)[..k]) == ch + Join(others[..k - 1])
    ensures Join(EscapedAll([ch] + others)[..k]) == Escaped(ch) + Join(EscapedAll(others)[..k - 1])
  {
    hide Escaped, Join;
    JoinHead(ch, others, k);
    assert ([ch] + others)[1..] == others;
    JoinHead(Escaped(ch), EscapedAll(others), k);
  }

  lemma JoinHead(first: Text, others: seq<Text>, k: nat)
    requires 0 < k <= |others| + 1
    ensures Join(([first] + others)[..k]) == first + Join(others[..k - 1])
  {
    assert ([first] + others)[..k][1..] == others[..k - 1];
  }

  /** What is shown says the text, or a beginning of it followed by the dots: no escape is cut or left open. */
  lemma InlineSaysThePrefix(text: Text, maxBytes: int)
    ensures var shown := Plain(Inline(text, maxBytes));
            shown == text || exists k: nat :: k <= |Chars(text)| && shown == Prefix(text, k) + DOTS
  {
    hide Plain, Size, Escaped;
    var units := EscapedAll(Chars(text));
    if Size(Bytes, Join(units)) <= maxBytes {
      PlainOfUnits(text, |units|, []);
      assert units[..|units|] == units && Join(units) + [] == Join(units);
      assert Chars(text)[..|units|] == Chars(text);
      JoinOfChars(text);
      PlainOfDots();
      assert text + [] == text;
    } else {
      var k := Count(units, 0, maxBytes - 3);
      PlainOfUnits(text, k, DOTS);
      PlainOfDots();
    }
  }

  lemma PlainOfDots()
    ensures Plain(DOTS) == DOTS && Plain([]) == []
  {
  }

  lemma PlainOfOne(text: Text, rest: Text)
    requires text != []
    ensures Plain(Escaped(text[..CharLen(text)]) + rest) == text[..CharLen(text)] + Plain(rest)
  {
    hide Plain;
    var ch := text[..CharLen(text)];
    if |ch| == 2 {
      PlainOfOther(ch[1], rest);
      PlainOfOther(ch[0], [ch[1]] + rest);
      assert ch + rest == [ch[0]] + ([ch[1]] + rest);
      assert ch + Plain(rest) == [ch[0]] + ([ch[1]] + Plain(rest));
    } else {
      assert ch == [ch[0]];
      if ch[0] in {38, 60, 62} {
        PlainOfEntity(Escaped(ch), rest);
      } else if Special(ch[0]) {
        assert Escaped(ch) == [BACKSLASH, ch[0]];
        PlainOfEscape(ch[0], rest);
      } else {
        PlainOfOther(ch[0], rest);
      }
    }
  }

  lemma PlainOfEntity(entity: Text, rest: Text)
    requires entity == AMP_ENTITY || entity == LT_ENTITY || entity == GT_ENTITY
    ensures Plain(entity + rest) == (if entity == AMP_ENTITY then [38] else if entity == LT_ENTITY then [60] else [62])
              + Plain(rest)
  {
  }

  lemma PlainOfEscape(u: Unit, rest: Text)
    ensures Plain([BACKSLASH, u] + rest) == [u] + Plain(rest)
  {
  }

  lemma StartsWithFirst(s: Text, prefix: Text)
    requires prefix != [] && s != [] && s[0] != prefix[0]
    ensures !Starts(s, prefix)
  {
    assert |s| >= |prefix| ==> s[..|prefix|][0] == s[0];
  }

  lemma PlainOfOther(u: Unit, rest: Text)
    requires u != BACKSLASH && u != AMPERSAND
    ensures Plain([u] + rest) == [u] + Plain(rest)
  {
    var s := [u] + rest;
    StartsWithFirst(s, AMP_ENTITY);
    StartsWithFirst(s, LT_ENTITY);
    StartsWithFirst(s, GT_ENTITY);
    hide Starts;
    assert s[1..] == rest;
  }

  // ---- Nothing that could start Markdown stands bare ---------------------------------------

  /** The characters that are escaped with a backslash, as they are written. */
  lemma SpecialCharacters(u: Unit)
    ensures Special(u) <==> u < 0x80 && (u as int) as char in "\\`*_{}[]()!|~"
  {
    var all := "\\`*_{}[]()!|~";
    assert all == [92 as char, 96 as char, 42 as char, 95 as char, 123 as char, 125 as char, 91 as char, 93 as char,
                   40 as char, 41 as char, 33 as char, 124 as char, 126 as char];
  }

  /** Read from the left, every such character is behind a backslash of its own, and `&`, `<`, `>` are entities. */
  predicate Guarded(s: Text) {
    if s == [] then true
    else if s[0] == BACKSLASH then |s| > 1 && Special(s[1]) && Guarded(s[2..])
    else if Starts(s, AMP_ENTITY) then Guarded(s[5..])
    else if Starts(s, LT_ENTITY) || Starts(s, GT_ENTITY) then Guarded(s[4..])
    else !Special(s[0]) && s[0] !in {38, 60, 62} && Guarded(s[1..])
  }

  lemma GuardedEntity(entity: Text, rest: Text)
    requires (entity == AMP_ENTITY || entity == LT_ENTITY || entity == GT_ENTITY) && Guarded(rest)
    ensures Guarded(entity + rest)
  {
    var s := entity + rest;
    assert s[..|entity|] == entity && s[|entity|..] == rest;
  }

  lemma GuardedEscape(u: Unit, rest: Text)
    requires Special(u) && Guarded(rest)
    ensures Guarded([BACKSLASH, u] + rest)
  {
    assert ([BACKSLASH, u] + rest)[2..] == rest;
  }

  lemma GuardedOther(u: Unit, rest: Text)
    requires !Special(u) && u !in {38, 60, 62} && Guarded(rest)
    ensures Guarded([u] + rest)
  {
    var s := [u] + rest;
    StartsWithFirst(s, AMP_ENTITY);
    StartsWithFirst(s, LT_ENTITY);
    StartsWithFirst(s, GT_ENTITY);
    assert s[1..] == rest;
  }

  lemma GuardedOne(text: Text, rest: Text)
    requires text != [] && Guarded(rest)
    ensures Guarded(Escaped(text[..CharLen(text)]) + rest)
  {
    hide Guarded;
    var ch := text[..CharLen(text)];
    if |ch| == 2 {
      GuardedOther(ch[1], rest);
      GuardedOther(ch[0], [ch[1]] + rest);
      assert Escaped(ch) + rest == [ch[0]] + ([ch[1]] + rest);
    } else {
      assert ch == [ch[0]];
      if ch[0] in {38, 60, 62} {
        GuardedEntity(Escaped(ch), rest);
      } else if Special(ch[0]) {
        assert Escaped(ch) == [BACKSLASH, ch[0]];
        GuardedEscape(ch[0], rest);
      } else {
        GuardedOther(ch[0], rest);
      }
    }
  }

  lemma {:induction false} GuardedUnits(text: Text, k: nat, tail: Text)
    requires k <= |Chars(text)| && Guarded(tail)
    ensures Guarded(Join(EscapedAll(Chars(text))[..k]) + tail)
    decreases |text|
  {
    hide Guarded, Escaped;
    if k == 0 {
      assert [] + tail == tail;
    } else {
      var n := CharLen(text);
      var ch, others := text[..n], Chars(text[n..]);
      GuardedUnits(text[n..], k - 1, tail);
      FirstUnit(ch, others, k);
      var rest := Join(EscapedAll(others)[..k - 1]);
      assert Escaped(ch) + rest + tail == Escaped(ch) + (rest + tail);
      GuardedOne(text, rest + tail);
    }
  }

  /** No character that could start Markdown, a link, a mention or a tag stands bare in what is shown. */
  lemma InlineIsGuarded(text: Text, maxBytes: int)
    ensures Guarded(Inline(text, maxBytes))
  {
    hide Size, Escaped;
    var units := EscapedAll(Chars(text));
    NothingToGuard();
    if Size(Bytes, Join(units)) <= maxBytes {
      GuardedUnits(text, |units|, []);
      assert units[..|units|] == units && Join(units) + [] == Join(units);
    } else {
      GuardedUnits(text, Count(units, 0, maxBytes - 3), DOTS);
    }
  }

  lemma NothingToGuard()
    ensures Guarded([]) && Guarded(DOTS)
  {
  }

  /** What is shown is the whole text, or its longest beginning that leaves room for the dots. */
  lemma InlineIsLongest(text: Text, maxBytes: int)
    ensures var units := EscapedAll(Chars(text));
            if Size(Bytes, Join(units)) <= maxBytes then Inline(text, maxBytes) == Join(units)
            else exists k: nat ::
              && k <= |units| && Inline(text, maxBytes) == Join(units[..k]) + DOTS
              && (k > 0 ==> Size(Bytes, Join(units[..k])) <= maxBytes - 3)
              && forall j :: k < j <= |units| ==> Size(Bytes, Join(units[..j])) > maxBytes - 3
  {
    hide Size, Chars, EscapedAll, Join;
    var units := EscapedAll(Chars(text));
    if Size(Bytes, Join(units)) > maxBytes {
      assert units[..|units|] == units;
      var k := Count(units, 0, maxBytes - 3);
      forall j | k < j <= |units| ensures Size(Bytes, Join(units[..j])) > maxBytes - 3 {
        assert units[..j] == units[..k + 1] + units[k + 1..j];
        JoinIsAssociative(units[..k + 1], units[k + 1..j]);
        LongerIsNoSmaller(Bytes, Join(units[..k + 1]), Join(units[k + 1..j]));
      }
    }
  }
}
