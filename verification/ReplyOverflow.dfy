/** When exactly a reply exceeds its budget, and an input for which it does. */
module ReplyOverflow {
  import opened Effects
  import opened Utf16
  import opened ReplyFences
  import opened ImageScanner
  import opened ImageTrimming
  import opened ReplyFormat

  // ---- The condition, on the input ------------------------------------------------------------

  /** How far two texts agree. */
  function Common(a: Text, b: Text): (n: nat)
    ensures n <= |a| && n <= |b| && a[..n] == b[..n] && (n < |a| && n < |b| ==> a[n] != b[n])
  {
    if a == [] || b == [] || a[0] != b[0] then 0
    else
      var n := Common(a[1..], b[1..]);
      assert a[..n + 1] == [a[0]] + a[1..][..n] && b[..n + 1] == [b[0]] + b[1..][..n];
      n + 1
  }

  /**
   * One after another, the pieces begin with `line`: each says the next part of
   * it, and ends there, or goes on with a code point too large for what is missing.
   */
  predicate Spells(m: Measure, pieces: seq<Text>, line: Text)
    decreases pieces
  {
    line == [] ||
    (pieces != [] &&
     var n := Common(pieces[0], line);
     && (n == |line| || n == |pieces[0]| || CharSize(m, pieces[0][n..]) > |line| - n)
     && Spells(m, pieces[1..], line[n..]))
  }

  /** Filling the room with the pieces, as far as each of them fits. */
  function Filled(m: Measure, pieces: seq<Text>, room: int): Text
    decreases pieces
  {
    if pieces == [] then []
    else
      var first := Take(m, pieces[0], room);
      first + Filled(m, pieces[1..], room - Size(m, first))
  }

  predicate Ascii(s: Text) { forall u :: u in s ==> u < 0x80 }

  lemma PlainAscii(s: Text)
    requires Ascii(s)
    ensures forall u :: u in s ==> u < 0x80
  {
  }

  lemma AsciiParts(s: Text, n: nat)
    requires Ascii(s) && n <= |s|
    ensures Ascii(s[..n]) && Ascii(s[n..])
  {
    forall u | u in s[..n] || u in s[n..] ensures u < 0x80 { assert u in s; }
  }

  lemma HeadSize(m: Measure, s: Text, u: Text)
    requires s != [] && u <= s[CharLen(s)..] && Boundary(s[CharLen(s)..], |u|)
    ensures Size(m, s[..CharLen(s)] + u) == CharSize(m, s) + Size(m, u)
  {
    hide CharSize;
    HeadOnto(m, s, u);
  }

  lemma AsciiIsOne(m: Measure, s: Text, k: nat)
    requires k < |s| && s[k] < 0x80
    ensures CharSize(m, s[k..]) == 1
  {
  }

  /** Taking stops where the next code point does not fit, and only there. */
  lemma {:induction false} TakeStops(m: Measure, s: Text, room: int)
    requires room >= 0
    ensures var a := Take(m, s, room); a <= s && (|a| < |s| ==> CharSize(m, s[|a|..]) > room - Size(m, a))
    decreases |s|
  {
    hide Size, CharSize;
    TakeFacts(m, s, room);
    if s == [] || CharSize(m, s) > room {
      SizeOfNothing(m);
      assert s[0..] == s;
    } else {
      var n := CharLen(s);
      var a := Take(m, s[n..], room - CharSize(m, s));
      TakeStops(m, s[n..], room - CharSize(m, s));
      TakeFacts(m, s[n..], room - CharSize(m, s));
      var all := s[..n] + a;
      assert Take(m, s, room) == all && |all| == n + |a|;
      assert s[n + |a|..] == s[n..][|a|..];
      HeadSize(m, s, a);
    }
  }

  lemma TakeHead(m: Measure, s: Text, room: nat)
    requires s != [] && s[0] < 0x80 && room > 0
    ensures Take(m, s, room) == [s[0]] + Take(m, s[1..], room - 1)
  {
    assert s[..1] == [s[0]];
  }

  lemma BehindFirst(s: Text, n: nat)
    requires 0 < n <= |s|
    ensures s[1..][..n - 1] == s[..n][1..] && s[1..][n - 1..] == s[n..] && s[..n] == [s[0]] + s[1..][..n - 1]
  {
  }

  lemma {:induction false} TakeAscii(m: Measure, s: Text, n: nat, room: nat)
    requires n <= |s| && n <= room && Ascii(s[..n])
    requires n == room || n == |s| || CharSize(m, s[n..]) > room - n
    ensures Take(m, s, room) == s[..n]
    decreases n
  {
    if n == 0 {
      if s != [] { assert s[0..] == s && CharSize(m, s) > room; }
    } else {
      hide CharSize, CharLen, Take;
      assert s[0] in s[..n];
      BehindFirst(s, n);
      AsciiParts(s[..n], 1);
      TakeHead(m, s, room);
      TakeAscii(m, s[1..], n - 1, room - 1);
    }
  }

  lemma {:induction false} NothingFilled(m: Measure, pieces: seq<Text>)
    ensures Filled(m, pieces, 0) == []
    decreases pieces
  {
    if pieces != [] {
      NothingTaken(m, pieces[0]);
      NothingFilled(m, pieces[1..]);
    }
  }

  lemma FilledStep(m: Measure, pieces: seq<Text>, room: int)
    requires pieces != []
    ensures var a := Take(m, pieces[0], room);
            Filled(m, pieces, room) == a + Filled(m, pieces[1..], room - Size(m, a))
  {
    hide Take, Size;
  }

  lemma SpellsStep(m: Measure, pieces: seq<Text>, line: Text)
    requires line != []
    ensures Spells(m, pieces, line) <==>
              pieces != [] &&
              var n := Common(pieces[0], line);
              && (n == |line| || n == |pieces[0]| || CharSize(m, pieces[0][n..]) > |line| - n)
              && Spells(m, pieces[1..], line[n..])
  {
    hide Common, CharSize;
  }

  lemma {:induction false} SpelledIsFilled(m: Measure, pieces: seq<Text>, line: Text)
    requires Ascii(line) && Spells(m, pieces, line)
    ensures Filled(m, pieces, |line|) == line
    decreases pieces
  {
    hide Size, Take, Filled, Spells, Common, CharSize, Ascii;
    if line == [] {
      NothingFilled(m, pieces);
    } else {
      SpellsStep(m, pieces, line);
      var s, n := pieces[0], Common(pieces[0], line);
      AsciiParts(line, n);
      TakeAscii(m, s, n, |line|);
      PlainAscii(line[..n]);
      AsciiMeasures(m, line[..n]);
      SpelledIsFilled(m, pieces[1..], line[n..]);
      FilledStep(m, pieces, |line|);
      assert line == line[..n] + line[n..];
    }
  }

  lemma {:induction false} FilledIsSpelled(m: Measure, pieces: seq<Text>, line: Text)
    requires Ascii(line) && Filled(m, pieces, |line|) == line
    ensures Spells(m, pieces, line)
    decreases pieces
  {
    hide Size, Take, Common, CharSize;
    if line != [] && pieces != [] {
      hide Ascii, Filled, Spells;
      var s := pieces[0];
      var a := Take(m, s, |line|);
      FilledStep(m, pieces, |line|);
      TakeStops(m, s, |line|);
      assert a == line[..|a|];
      AsciiParts(line, |a|);
      PlainAscii(a);
      AsciiMeasures(m, a);
      assert line[|a|..] == Filled(m, pieces[1..], |line| - |a|);
      FilledIsSpelled(m, pieces[1..], line[|a|..]);
      TakenIsCommon(m, s, line, a);
      SpellsStep(m, pieces, line);
    }
  }

  /** What is taken of a piece is all that it has in common with an ASCII line. */
  lemma TakenIsCommon(m: Measure, s: Text, line: Text, a: Text)
    requires Ascii(line) && a <= s && a <= line
    requires |a| < |s| ==> CharSize(m, s[|a|..]) > |line| - |a|
    ensures |a| == Common(s, line)
  {
    hide CharSize;
    var n := Common(s, line);
    forall k | 0 <= k < |a| ensures s[k] == line[k] { assert s[k] == a[k]; }
    forall k | 0 <= k < n ensures CharSize(m, s[k..]) == 1 {
      assert s[k] == s[..n][k] == line[..n][k] == line[k] && line[k] in line;
      AsciiIsOne(m, s, k);
    }
  }

  // With an image larger than the budget in every place, trimming is filling.

  predicate AllLarger(m: Measure, pictures: seq<Text>, budget: nat) {
    forall p :: p in pictures ==> Size(m, p) > budget
  }

  lemma {:induction false} NothingSpent(m: Measure, pictures: seq<Text>, budget: nat, k: nat)
    requires k <= |pictures| && AllLarger(m, pictures, budget)
    ensures Spent(m, pictures, budget, k) == 0
    ensures forall j :: 0 <= j < k ==> Keep(m, pictures, budget, j) == []
  {
    hide Size;
    if k > 0 {
      NothingSpent(m, pictures, budget, k - 1);
      assert pictures[k - 1] in pictures;
    }
  }

  lemma {:induction false} WovenIsFilled(m: Measure, gaps: seq<Text>, tail: Text, pictures: seq<Text>, budget: nat,
      k: nat)
    requires k <= |gaps| == |pictures| && AllLarger(m, pictures, budget)
    ensures Woven(m, gaps, pictures, budget, budget, k)
            + Filled(m, gaps[k..] + [tail], Room(m, gaps, budget, k))
            == Filled(m, gaps + [tail], budget)
  {
    hide Size, Take, Spent, Keep;
    if k == 0 {
      assert gaps[0..] == gaps;
    } else {
      WovenIsFilled(m, gaps, tail, pictures, budget, k - 1);
      NothingSpent(m, pictures, budget, k);
      var rest := gaps[k - 1..] + [tail];
      assert rest[0] == gaps[k - 1] && rest[1..] == gaps[k..] + [tail];
    }
  }

  lemma TrimmedIsFilled(m: Measure, gaps: seq<Text>, tail: Text, pictures: seq<Text>, budget: nat)
    requires |gaps| == |pictures| && AllLarger(m, pictures, budget)
    ensures TrimmedTo(m, gaps, tail, pictures, budget) == Filled(m, gaps + [tail], budget)
  {
    hide Size, Take, Spent, Woven, Room;
    var n := |gaps|;
    NothingSpent(m, pictures, budget, n);
    WovenIsFilled(m, gaps, tail, pictures, budget, n);
    var room := Room(m, gaps, budget, n);
    var rest := gaps[n..] + [tail];
    assert rest == [tail] && rest[1..] == [];
    assert Filled(m, rest[1..], room - Size(m, Take(m, tail, room))) == [];
    assert Filled(m, rest, room) == Take(m, tail, room) + [];
  }

  // A kept image shows in the result.

  lemma {:induction false} KeptShows(m: Measure, gaps: seq<Text>, pictures: seq<Text>, budget: nat, room: nat, k: nat)
    requires k <= |gaps| == |pictures|
    requires forall j :: 0 <= j < |pictures| ==> pictures[j] != [] && pictures[j][0] == BANG
    ensures BANG !in Woven(m, gaps, pictures, budget, room, k) ==>
              Spent(m, pictures, budget, k) == 0 && forall j :: 0 <= j < k ==> Size(m, pictures[j]) > budget
  {
    hide Size, Take, Room;
    if k > 0 {
      KeptShows(m, gaps, pictures, budget, room, k - 1);
      var before, kept := Woven(m, gaps, pictures, budget, room, k - 1), Keep(m, pictures, budget, k - 1);
      var now := before + Take(m, gaps[k - 1], Room(m, gaps, room, k - 1)) + kept;
      assert now == Woven(m, gaps, pictures, budget, room, k);
      if kept != [] {
        assert now[|now| - |kept|] == kept[0] == BANG;
      } else if BANG !in now {
        assert forall u :: u in before ==> u in now;
      }
    }
  }

  predicate SpellsFence(m: Measure, pieces: seq<Text>, indent: nat, mark: Unit, budget: nat) {
    && indent <= 3 && indent + 3 <= budget && (mark == BACKTICK || mark == TILDE)
    && Spells(m, pieces, Line(indent, mark, budget - indent))
  }

  /** No image fits the budget, and what is between the images begins with a fence of exactly that length. */
  ghost predicate BeginsWithFence(m: Measure, text: Text, budget: nat) {
    && AllLarger(m, Tokens(text), budget)
    && exists indent, mark :: SpellsFence(m, Between(text), indent, mark, budget)
  }

  lemma LineIsMarker(indent: nat, mark: Unit, length: nat)
    requires indent <= 3 && length >= 3 && (mark == BACKTICK || mark == TILDE)
    ensures MarkerOnly(Line(indent, mark, length)) && Ascii(Line(indent, mark, length))
    ensures BANG !in Line(indent, mark, length)
  {
    hide MarkerAt, Run;
    LineAlone([], indent, mark, length);
    assert [] + Line(indent, mark, length) == Line(indent, mark, length);
  }

  lemma TrimmedIsFilledText(m: Measure, text: Text, budget: nat)
    requires budget > 0 && AllLarger(m, Tokens(text), budget)
    ensures Trimmed(m, text, budget) == Filled(m, Between(text), budget)
  {
    hide Images, Filled, TrimmedTo;
    var images := Images(text);
    ImagesAreOrdered(text);
    FoundInOrder(text, images, |images|);
    TrimmedIsFilled(m, Gaps(text, images, |images|), Tail(text, images), Tokens(text), budget);
  }

  lemma NoImageKept(m: Measure, text: Text, budget: nat)
    requires budget > 0 && BANG !in Trimmed(m, text, budget)
    ensures AllLarger(m, Tokens(text), budget)
  {
    hide Images, Woven, Take, Room, Size, Token, InOrder, Ordered, Cursor;
    var images := Images(text);
    ImagesAreOrdered(text);
    FoundInOrder(text, images, |images|);
    var n, pictures := |images|, Tokens(text);
    var gaps := Gaps(text, images, n);
    var room := budget - Spent(m, pictures, budget, n);
    PicturesAreImages(text, images, n);
    var woven, last := Woven(m, gaps, pictures, budget, room, n), Take(m, Tail(text, images), Room(m, gaps, room, n));
    assert Trimmed(m, text, budget) == woven + last;
    assert forall u :: u in woven ==> u in woven + last;
    KeptShows(m, gaps, pictures, budget, room, n);
  }

  /** Exactly when the loop over a text with images ends over its budget, as a condition on that text. */
  lemma MarkerFillsIff(m: Measure, text: Text, budget: nat)
    ensures MarkerFills(m, text, budget) <==> BeginsWithFence(m, text, budget)
  {
    hide Trimmed, Size, Between, Tokens, Spells, Filled, MarkerAt;
    if MarkerFills(m, text, budget) {
      var t := Trimmed(m, text, budget);
      var k :| MarkerAt(t, 0) == Some(k) && t == Line(k.indent, k.mark, k.length);
      MarkerBounds(t, k);
      LineIsMarker(k.indent, k.mark, k.length);
      AsciiMeasures(m, t);
      NoImageKept(m, text, budget);
      TrimmedIsFilledText(m, text, budget);
      FilledIsSpelled(m, Between(text), t);
      assert SpellsFence(m, Between(text), k.indent, k.mark, budget);
    }
    if BeginsWithFence(m, text, budget) {
      var indent: nat, mark :| SpellsFence(m, Between(text), indent, mark, budget);
      var line := Line(indent, mark, budget - indent);
      LineIsMarker(indent, mark, budget - indent);
      AsciiMeasures(m, line);
      TrimmedIsFilledText(m, text, budget);
      SpelledIsFilled(m, Between(text), line);
      assert |line| == budget && Trimmed(m, text, budget) == line;
    }
  }

  lemma MarkerBounds(t: Text, k: Marker)
    requires MarkerAt(t, 0) == Some(k)
    ensures k.indent <= 3 && k.length >= 3 && (k.mark == BACKTICK || k.mark == TILDE)
  {
  }

  // ---- The exceptional case is real -----------------------------------------------------------

  /** A code block without content, fenced by `n` backticks, and an image with a long destination. */
  function BlockAndImage(n: nat): Text {
    Repeat(BACKTICK, n) + [LF] + Repeat(BACKTICK, n) + [LF, BANG, LEFT_BRACKET, RIGHT_BRACKET, LEFT_PAREN]
    + Repeat(117, n) + [RIGHT_PAREN]
  }

  predicate IsBlockAndImage(s: Text, n: nat) {
    && |s| == 3 * n + 7 && s[n] == LF && s[2 * n + 1] == LF
    && (forall k :: 0 <= k < n ==> s[k] == BACKTICK) && (forall k :: n + 1 <= k < 2 * n + 1 ==> s[k] == BACKTICK)
    && s[2 * n + 2] == BANG && s[2 * n + 3] == LEFT_BRACKET && s[2 * n + 4] == RIGHT_BRACKET
    && s[2 * n + 5] == LEFT_PAREN && (forall k :: 2 * n + 6 <= k < 3 * n + 6 ==> s[k] == 117)
    && s[3 * n + 6] == RIGHT_PAREN
  }

  lemma BlockUnits(n: nat)
    ensures IsBlockAndImage(BlockAndImage(n), n)
  {
    hide Repeat;
    var s := BlockAndImage(n);
    var a, b, c := Repeat(BACKTICK, n), [LF, BANG, LEFT_BRACKET, RIGHT_BRACKET, LEFT_PAREN], Repeat(117, n);
    assert s == a + [LF] + a + b + c + [RIGHT_PAREN];
  }

  lemma ImageAfterBlock(s: Text, n: nat)
    requires IsBlockAndImage(s, n) && n >= 3
    ensures |Images(s)| == 1 && Images(s)[0].start == 2 * n + 2 && Images(s)[0].end == |s|
  {
    hide Step, ImagesFrom, Run, IsBlockAndImage;
    var fence := Some(Marker(0, BACKTICK, n));
    BlockSteps(s, n);
    Skipped(s, 0, None, n + 1, fence);
    Skipped(s, n + 1, fence, 2 * n + 2, None);
    var image := ImageStep(s, n);
    OnlyImage(s, 2 * n + 2, image);
  }

  lemma BlockSteps(s: Text, n: nat)
    requires IsBlockAndImage(s, n) && n >= 3
    ensures |s| == 3 * n + 7
    ensures Step(s, 0, None) == (n + 1, Some(Marker(0, BACKTICK, n)), None)
    ensures Step(s, n + 1, Some(Marker(0, BACKTICK, n))) == (2 * n + 2, None, None)
  {
    hide Step, Run;
    RunIs(s, 0, SPACE, 0);
    RunIs(s, 0, BACKTICK, n);
    RunIs(s, n + 1, SPACE, 0);
    RunIs(s, n + 1, BACKTICK, n);
    BlockFence(s, 0, n, None);
    BlockFence(s, n + 1, n, Some(Marker(0, BACKTICK, n)));
  }

  lemma Skipped(s: Text, i: nat, fence: Option<Marker>, next: nat, after: Option<Marker>)
    requires i < |s| && Step(s, i, fence) == (next, after, None)
    ensures ImagesFrom(s, i, fence) == ImagesFrom(s, next, after)
  {
    hide Step;
  }

  lemma OnlyImage(s: Text, i: nat, image: Image)
    requires i < |s| && Step(s, i, None) == (|s|, None, Some(image))
    ensures ImagesFrom(s, i, None) == [image]
  {
    hide Step;
    assert ImagesFrom(s, |s|, None) == [];
  }

  lemma ImageStep(s: Text, n: nat) returns (image: Image)
    requires IsBlockAndImage(s, n) && n >= 3
    ensures image.start == 2 * n + 2 && image.end == |s|
    ensures Step(s, 2 * n + 2, None) == (|s|, None, Some(image))
  {
    hide TokenAt, Run;
    image := ImageToken(s, n);
    RunIs(s, 2 * n + 2, SPACE, 0);
    assert MarkerAt(s, 2 * n + 2).None?;
  }

  lemma {:induction false} LineOfMarks(s: Text, i: nat, end: nat)
    requires i <= end < |s| && s[end] == LF && forall k :: i <= k < end ==> s[k] == BACKTICK
    ensures EndOfLine(s, i) == end
    decreases end - i
  {
    if i < end { LineOfMarks(s, i + 1, end); }
  }

  lemma BlockMarker(s: Text, i: nat, n: nat)
    requires n >= 3 && i + n < |s| && s[i + n] == LF
    requires Run(s, i, SPACE) == 0 && Run(s, i, BACKTICK) == n
    ensures MarkerAt(s, i) == Some(Marker(0, BACKTICK, n)) && LineEnd(s, i) == i + n && EndOfLine(s, i) == i + n
    ensures Rest(s, i) == []
  {
    LineOfMarks(s, i, i + n);
    LineOfMarks(s, i + n, i + n);
  }

  /** A line of backticks alone toggles the fence. */
  lemma BlockFence(s: Text, i: nat, n: nat, fence: Option<Marker>)
    requires n >= 3 && i + n < |s| && s[i + n] == LF
    requires Run(s, i, SPACE) == 0 && Run(s, i, BACKTICK) == n
    requires i == 0 || s[i - 1] == LF
    requires fence.Some? ==> fence.value.mark == BACKTICK && fence.value.length <= n
    ensures Step(s, i, fence) == (i + n + 1, if fence.Some? then None else Some(Marker(0, BACKTICK, n)), None)
  {
    BlockMarker(s, i, n);
    hide Run, MarkerAt, EndOfLine, LineEnd, Rest, TokenAt, CodeEnd;
    assert Toggles(s, i, fence);
  }

  lemma ImageToken(s: Text, n: nat) returns (image: Image)
    requires IsBlockAndImage(s, n) && n >= 3
    ensures image.start == 2 * n + 2 && image.end == |s| && TokenAt(s, 2 * n + 2) == Some(image)
  {
    hide BareEnd, CloseBracket;
    BracketsOfImage(s, n);
    DestinationRun(s, 2 * n + 6, 3 * n + 6);
    assert Destination(s, 2 * n + 6) == Some((3 * n + 6, 3 * n + 6));
    assert TitleEnd(s, Blanks(s, 3 * n + 6)) == Some(3 * n + 6);
    image := TokenAt(s, 2 * n + 2).value;
  }

  lemma BracketsOfImage(s: Text, n: nat)
    requires IsBlockAndImage(s, n)
    ensures CloseBracket(s, 2 * n + 4, 1) == Some(2 * n + 5)
  {
  }

  /** A destination of letters ends at its parenthesis. */
  lemma {:induction false} DestinationRun(s: Text, j: nat, end: nat)
    requires j <= end < |s| && s[end] == RIGHT_PAREN && forall k :: j <= k < end ==> s[k] == 117
    ensures BareEnd(s, j, 0) == end
    decreases end - j
  {
    if j < end { DestinationRun(s, j + 1, end); }
  }

  lemma BlockIsTrimmedToMarker(s: Text, n: nat)
    requires IsBlockAndImage(s, n) && n >= 3
    ensures Trimmed(Units, s, n) == Line(0, BACKTICK, n)
  {
    hide Images, Take, TrimmedAround;
    ImageAfterBlock(s, n);
    ImagesAreOrdered(s);
    var images := Images(s);
    FoundInOrder(s, images, 1);
    var before := s[..2 * n + 2];
    assert before[..n] == Line(0, BACKTICK, n);
    FirstUnits(before, n);
    TrimOneImage(s, images, n);
    assert Tail(s, images) == [];
    assert Take(Units, Tail(s, images), 0) <= [] by { TakeFacts(Units, Tail(s, images), 0); }
  }

  /** With a single image that does not fit, trimming takes from what is before it. */
  lemma TrimOneImage(s: Text, images: seq<Image>, budget: nat)
    requires |images| == 1 && InOrder(s, images, 1) && images[0].end - images[0].start > budget
    requires |Take(Units, s[..images[0].start], budget)| == budget
    ensures TrimmedAround(Units, s, images, budget) == Take(Units, s[..images[0].start], budget)
              + Take(Units, Tail(s, images), 0)
  {
    hide Size, Take, CharLen, CharSize;
    var gaps, pictures := Gaps(s, images, 1), Pictures(s, images, 1);
    assert InOrder(s, images, 0);
    assert gaps == [s[..images[0].start]] && pictures == [s[images[0].start..images[0].end]];
    LengthIsUnits(pictures[0]);
    LengthIsUnits(Take(Units, gaps[0], budget));
    assert AllLarger(Units, pictures, budget);
    NothingSpent(Units, pictures, budget, 1);
    assert Room(Units, gaps, budget, 0) == budget && Room(Units, gaps, budget, 1) == 0;
    assert Woven(Units, gaps, pictures, budget, budget, 0) == [];
    assert Woven(Units, gaps, pictures, budget, budget, 1) == [] + Take(Units, gaps[0], budget) + [];
  }

  lemma {:induction false} FirstUnits(s: Text, n: nat)
    requires n <= |s| && forall k :: 0 <= k < n ==> !High(s[k])
    ensures Take(Units, s, n) == s[..n]
    decreases n
  {
    if n > 0 {
      FirstUnits(s[1..], n - 1);
      assert s[..n] == [s[0]] + s[1..][..n - 1];
    } else if s != [] {
      assert CharSize(Units, s) > 0;
    }
  }

  /**
   * In chat mode, without link or label, header and hint take 30 units of the limit.  A code block fenced by
   * backticks that fill the rest, before an image that does not fit, exceeds every limit from 36 on, and so
   * the one that callers use.
   */
  lemma ExceedsHappens(limit: nat)
    requires limit >= 36
    ensures Exceeds(ReplyFrame(Units, limit, Chat, [], [], [], None), BlockAndImage(limit - 30))
  {
    hide Size, Trimmed, Images, Suffix, BlockAndImage;
    var f, n := ReplyFrame(Units, limit, Chat, [], [], [], None), limit - 30;
    var s, marker := BlockAndImage(n), Line(0, BACKTICK, n);
    BlockUnits(n);
    ImageAfterBlock(s, n);
    BlockIsTrimmedToMarker(s, n);
    LengthIsUnits(f.prefix + (f.hint + f.after));
    assert Budget(f) == n;
    LengthIsUnits(Whole(f, s));
    LengthIsUnits(marker);
    LineAlone([], 0, BACKTICK, n);
    assert [] + marker == marker;
    assert MarkerOnly(marker);
  }

  lemma ExceedsTheReplyLimit()
    ensures exists text :: Exceeds(ReplyFrame(Units, MAX_REPLY_LENGTH, Chat, [], [], [], None), text)
  {
    ExceedsHappens(MAX_REPLY_LENGTH);
  }
}
