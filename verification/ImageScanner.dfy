/** Finding, replacing and trimming rendered images (CommonMark 0.31.2, section 6.4); code and escapes stay opaque. */
module ImageScanner {
  import opened Effects
  import opened Utf16
  import opened ReplyFences

  const TAB: Unit := 9
  const BANG: Unit := 33
  const QUOTE: Unit := 34
  const APOSTROPHE: Unit := 39
  const LEFT_PAREN: Unit := 40
  const RIGHT_PAREN: Unit := 41
  const LESS: Unit := 60
  const GREATER: Unit := 62
  const LEFT_BRACKET: Unit := 91
  const BACKSLASH: Unit := 92
  const RIGHT_BRACKET: Unit := 93

  datatype Image = Image(start: nat, end: nat, alt: Text, url: Text)

  /** `text[j] === u`; past the end nothing is equal. */
  predicate At(s: Text, j: nat, u: Unit) { j < |s| && s[j] == u }

  // ---- The scanner, as functions ------------------------------------------------------

  /** A fence line: unlike `replyFenceSuffix`, none of the line terminators may follow the marker. */
  predicate FenceLine(s: Text, i: nat)
    requires i <= |s|
  {
    MarkerAt(s, i).Some? && forall u :: u in Rest(s, i) ==> !Terminator(u)
  }

  function Rest(s: Text, i: nat): Text
    requires i <= |s| && MarkerAt(s, i).Some?
  {
    var m := MarkerAt(s, i).value;
    s[i + m.indent + m.length..LineEnd(s, i)]
  }

  predicate Toggles(s: Text, i: nat, fence: Option<Marker>)
    requires i <= |s|
  {
    && FenceLine(s, i)
    && (fence.Some? ==> var m := MarkerAt(s, i).value;
                        m.mark == fence.value.mark && m.length >= fence.value.length && Blank(Rest(s, i)))
  }

  // How a line is read here, and by `replyFenceSuffix`.

  /** The fence after the line at `i`, as the scanner reads it. */
  function ScannedFence(s: Text, i: nat, fence: Option<Marker>): Option<Marker>
    requires i <= |s|
  {
    if !Toggles(s, i, fence) then fence else if fence.Some? then None else MarkerAt(s, i)
  }

  function AsState(fence: Option<Marker>): State {
    match fence
    case None => Shut
    case Some(m) => Open(m.indent, m.mark, m.length)
  }

  /** The line at `i`, behind a line feed, leaves the same fence for both. */
  predicate ReadAlike(s: Text, i: nat, fence: Option<Marker>)
    requires i <= |s|
  {
    var st := AsState(fence);
    AsState(ScannedFence(s, i, fence)) == if MarkerAt(s, i).Some? then AfterLine(s, i, st) else st
  }

  /**
   * The two readings of one line agree exactly when it has no marker, or what is
   * behind the marker is harmless: for an opening line, it has another line
   * terminator exactly if it has a backtick after backticks; for a closing line,
   * it has no other line terminator.
   */
  lemma ReadAlikeIff(s: Text, i: nat, fence: Option<Marker>)
    requires i <= |s|
    ensures ReadAlike(s, i, fence) <==>
              (MarkerAt(s, i).Some? ==>
                 var m, rest := MarkerAt(s, i).value, Rest(s, i);
                 var broken := exists u :: u in rest && Terminator(u);
                 if fence.None? then broken == (m.mark == BACKTICK && BACKTICK in rest)
                 else m.mark == fence.value.mark && m.length >= fence.value.length && Blank(rest) ==> !broken)
  {
    hide Run, EndOfLine, MarkerAt;
    if MarkerAt(s, i).Some? {
      var m := MarkerAt(s, i).value;
      assert Rest(s, i) == s[i + m.indent + m.length..LineEnd(s, i)];
    }
  }

  /** A line that both begin with a fence for one only: three backticks, a letter and a backtick. */
  lemma ReadingsDiffer()
    ensures var s: Text := [BACKTICK, BACKTICK, BACKTICK, 97, BACKTICK];
            !ReadAlike(s, 0, None) && ScannedFence(s, 0, None) == Some(Marker(0, BACKTICK, 3)) && Suffix(s) == []
  {
    var s: Text := [BACKTICK, BACKTICK, BACKTICK, 97, BACKTICK];
    assert Run(s, 0, SPACE) == 0;
    RunIs(s, 0, BACKTICK, 3);
    assert MarkerAt(s, 0) == Some(Marker(0, BACKTICK, 3));
    NoMoreLines(s, 3);
    assert LineEnd(s, 0) == 5 && Rest(s, 0) == [97, BACKTICK];
    assert Next(s, 0, Shut) == (5, Shut) && Scan(s, 5, Shut) == Shut;
    assert Scan(s, 0, Shut) == Shut;
  }

  lemma {:induction false} NoMoreLines(s: Text, i: nat)
    requires i <= |s| && LF !in s[i..]
    ensures EndOfLine(s, i) == |s|
    decreases |s| - i
  {
    if i < |s| {
      assert s[i] in s[i..] && forall u :: u in s[i + 1..] ==> u in s[i..];
      NoMoreLines(s, i + 1);
    }
  }

  /** Index of the next `u` from `i`, or the length. */
  function Find(s: Text, i: nat, u: Unit): (j: nat)
    ensures j >= i && (j < |s| ==> s[j] == u)
    decreases |s| - i
  {
    if i < |s| && s[i] != u then Find(s, i + 1, u) else i
  }

  /** Behind the code span that `n` backticks open, or behind these if nothing closes them. */
  function CodeEnd(s: Text, i: nat): (e: nat)
    requires At(s, i, BACKTICK)
    ensures i < e <= |s|
  {
    var n := Run(s, i, BACKTICK);
    var closing := Closing(s, i + n, n);
    if closing.Some? then closing.value + n else i + n
  }

  /** The `n` backticks found are part of a longer run. */
  predicate Longer(s: Text, k: nat, n: nat)
    requires 1 <= k && k + n <= |s|
  {
    s[k - 1] == BACKTICK || At(s, k + n, BACKTICK)
  }

  /** The next run of exactly `n` backticks, searched as `indexOf` from `from` does. */
  function Closing(s: Text, from: nat, n: nat): (r: Option<nat>)
    requires 1 <= n <= from <= |s|
    ensures r.Some? ==> from <= r.value && r.value + n <= |s|
    decreases |s| - from
  {
    if from + n > |s| then None
    else if Run(s, from, BACKTICK) < n then Closing(s, from + 1, n)
    else if Longer(s, from, n) then Closing(s, from + n, n)
    else Some(from)
  }

  /** A run of exactly `n` backticks begins at `k`, behind something else. */
  predicate ExactRun(s: Text, k: nat, n: nat) {
    && 1 <= k && k + n <= |s| && s[k - 1] != BACKTICK && !At(s, k + n, BACKTICK)
    && forall j :: k <= j < k + n ==> s[j] == BACKTICK
  }

  /** The search, which skips over longer runs, finds the first run of exactly `n` backticks. */
  lemma {:induction false} ClosingIsFirst(s: Text, from: nat, n: nat)
    requires 1 <= n <= from <= |s|
    ensures var r := Closing(s, from, n);
            && (r.Some? ==> ExactRun(s, r.value, n) && forall j :: from <= j < r.value ==> !ExactRun(s, j, n))
            && (r.None? ==> forall j :: from <= j ==> !ExactRun(s, j, n))
    decreases |s| - from
  {
    hide Run;
    if from + n <= |s| {
      var run := Run(s, from, BACKTICK);
      if run < n {
        assert !ExactRun(s, from, n);
        ClosingIsFirst(s, from + 1, n);
      } else if Longer(s, from, n) {
        forall j | from <= j < from + n ensures !ExactRun(s, j, n) {
          if j > from { assert s[j - 1] == BACKTICK; }
        }
        ClosingIsFirst(s, from + n, n);
      }
    }
  }

  /** A code span ends behind the next run of exactly as many backticks as open it; without one there is no span. */
  lemma CodeSpanIsMatched(s: Text, i: nat)
    requires At(s, i, BACKTICK)
    ensures var n, e := Run(s, i, BACKTICK), CodeEnd(s, i);
            || (e == i + n && forall j :: i + n <= j ==> !ExactRun(s, j, n))
            || (e >= i + 2 * n && ExactRun(s, e - n, n) && forall j :: i + n <= j < e - n ==> !ExactRun(s, j, n))
  {
    hide Run, Closing;
    ClosingIsFirst(s, i + Run(s, i, BACKTICK), Run(s, i, BACKTICK));
  }

  /** Behind the bracket that closes the alternative text. */
  function CloseBracket(s: Text, j: nat, depth: nat): (r: Option<nat>)
    requires depth >= 1
    ensures r.Some? ==> j < r.value <= |s| && s[r.value - 1] == RIGHT_BRACKET
    decreases |s| - j
  {
    if j >= |s| || s[j] == LF then None
    else if s[j] == BACKSLASH then CloseBracket(s, j + 2, depth)
    else if s[j] == LEFT_BRACKET then CloseBracket(s, j + 1, depth + 1)
    else if s[j] == RIGHT_BRACKET then
      if depth == 1 then Some(j + 1) else CloseBracket(s, j + 1, depth - 1)
    else CloseBracket(s, j + 1, depth)
  }

  /** The end of a destination without angle brackets. */
  function BareEnd(s: Text, j: nat, depth: nat): (e: nat)
    ensures e >= j
    decreases |s| - j
  {
    if j >= |s| then j
    else if s[j] == BACKSLASH then BareEnd(s, j + 2, depth)
    else if s[j] == LEFT_PAREN then BareEnd(s, j + 1, depth + 1)
    else if s[j] == RIGHT_PAREN then if depth == 0 then j else BareEnd(s, j + 1, depth - 1)
    else if White(s[j]) && depth == 0 then j
    else BareEnd(s, j + 1, depth)
  }

  /** The end of the destination, and where the scan goes on. */
  function Destination(s: Text, start: nat): (r: Option<(nat, nat)>)
    ensures r.Some? ==> start <= r.value.0 <= r.value.1
  {
    if At(s, start, LESS) then
      var close := Find(s, start + 1, GREATER);
      if close >= |s| then None else Some((close, close + 1))
    else
      var end := BareEnd(s, start, 0);
      Some((end, end))
  }

  function Blanks(s: Text, j: nat): (e: nat)
    ensures e >= j
    decreases |s| - j
  {
    if At(s, j, SPACE) || At(s, j, TAB) then Blanks(s, j + 1) else j
  }

  function QuoteEnd(s: Text, j: nat, quote: Unit): (e: nat)
    ensures e >= j
    decreases |s| - j
  {
    if j >= |s| || s[j] == quote || s[j] == LF then j
    else QuoteEnd(s, if s[j] == BACKSLASH then j + 2 else j + 1, quote)
  }

  /** Behind an optional title. */
  function TitleEnd(s: Text, j: nat): (r: Option<nat>)
    ensures r.Some? ==> r.value >= j
  {
    if At(s, j, QUOTE) || At(s, j, APOSTROPHE) then
      var close := QuoteEnd(s, j + 1, s[j]);
      if At(s, close, s[j]) then Some(Blanks(s, close + 1)) else None
    else Some(j)
  }

  /** The destination as a URL: angle brackets and escapes of parentheses and backslashes removed. */
  function Url(raw: Text): Text {
    Unescape(if raw != [] && raw[0] == LESS then raw[1..if |raw| > 1 then |raw| - 1 else 1] else raw)
  }

  function Unescape(s: Text): Text {
    if s == [] then []
    else if |s| > 1 && s[0] == BACKSLASH && (s[1] == LEFT_PAREN || s[1] == RIGHT_PAREN || s[1] == BACKSLASH) then
      [s[1]] + Unescape(s[2..])
    else [s[0]] + Unescape(s[1..])
  }

  /**
   * The image from `i` to `close`, whose alternative text ends before `bracket` and whose destination ends at
   * `targetEnd`.
   */
  function MakeImage(s: Text, i: nat, bracket: nat, targetEnd: nat, close: nat): (r: Image)
    requires i + 2 < bracket < targetEnd <= close < |s|
    requires At(s, bracket, LEFT_PAREN) && At(s, bracket + 1, LESS) ==> At(s, targetEnd, GREATER) && targetEnd < close
    ensures r.start == i && r.end == close + 1 && r.alt == s[i + 2..bracket - 1]
  {
    var raw := s[bracket + 1..targetEnd + if At(s, bracket + 1, LESS) then 1 else 0];
    Image(i, close + 1, s[i + 2..bracket - 1], Url(raw))
  }

  /** The image starting at `i` whose alternative text is closed in front of the parenthesis at `bracket`. */
  function TokenBehind(s: Text, i: nat, bracket: nat): (r: Option<Image>)
    requires i + 2 < bracket && At(s, i, BANG) && At(s, i + 1, LEFT_BRACKET)
    requires At(s, bracket - 1, RIGHT_BRACKET) && At(s, bracket, LEFT_PAREN)
    ensures r.Some? ==> Token(s, r.value) && r.value.start == i
  {
    var target := Destination(s, bracket + 1);
    if target.None? then None
    else
      var close := TitleEnd(s, Blanks(s, target.value.1));
      if close.None? || !At(s, close.value, RIGHT_PAREN) then None
      else Some(MakeImage(s, i, bracket, target.value.0, close.value))
  }

  /** Where the parenthesis that closes an image starting at `i` is, with the parts of the image. */
  function TokenAt(s: Text, i: nat): (r: Option<Image>)
    ensures r.Some? ==> Token(s, r.value) && r.value.start == i
  {
    if !At(s, i, BANG) || !At(s, i + 1, LEFT_BRACKET) then None
    else
      var bracket := CloseBracket(s, i + 2, 1);
      if bracket.None? || !At(s, bracket.value, LEFT_PAREN) then None
      else
        TokenBehind(s, i, bracket.value)
  }

  /** An image lies in the text, begins with `![`, its alternative text is followed by `](`, and it ends with `)`. */
  predicate Token(s: Text, image: Image) {
    var open := image.start + 2 + |image.alt|;
    && open + 2 < image.end <= |s| && At(s, image.start, BANG) && At(s, image.start + 1, LEFT_BRACKET)
    && s[image.start + 2..open] == image.alt && At(s, open, RIGHT_BRACKET) && At(s, open + 1, LEFT_PAREN)
    && At(s, image.end - 1, RIGHT_PAREN)
  }

  /** One step of the scan at `i`: where it goes on, the fence, and the image found there. */
  function Step(s: Text, i: nat, fence: Option<Marker>): (r: (nat, Option<Marker>, Option<Image>))
    requires i < |s|
    ensures r.0 > i && (r.2.Some? ==> r.0 == r.2.value.end && r.2.value.start == i && Token(s, r.2.value))
  {
    var head := i == 0 || s[i - 1] == LF;
    if head && Toggles(s, i, fence) then
      (EndOfLine(s, i) + 1, if fence.Some? then None else Some(MarkerAt(s, i).value), None)
    else if head && fence.Some? then (EndOfLine(s, i) + 1, fence, None)
    else if s[i] == BACKSLASH then (i + 2, fence, None)
    else if s[i] == BACKTICK then (CodeEnd(s, i), fence, None)
    else
      var token := TokenAt(s, i);
      (if token.Some? then token.value.end else i + 1, fence, token)
  }

  function Listed(token: Option<Image>): seq<Image> { if token.Some? then [token.value] else [] }

  function ImagesFrom(s: Text, i: nat, fence: Option<Marker>): seq<Image>
    decreases |s| - i
  {
    if i >= |s| then []
    else
      var (next, after, token) := Step(s, i, fence);
      Listed(token) + ImagesFrom(s, next, after)
  }

  function Images(s: Text): seq<Image> { ImagesFrom(s, 0, None) }

  /** In order, disjoint and in bounds: each image starts no earlier than `from` and the one before it ends. */
  predicate Ordered(s: Text, images: seq<Image>, from: nat) {
    images == [] ||
    (from <= images[0].start && Token(s, images[0]) && Ordered(s, images[1..], images[0].end))
  }

  lemma {:induction false} ScanIsOrdered(s: Text, i: nat, fence: Option<Marker>)
    ensures Ordered(s, ImagesFrom(s, i, fence), i)
    decreases |s| - i
  {
    if i < |s| {
      var (next, after, token) := Step(s, i, fence);
      ScanIsOrdered(s, next, after);
      var rest := ImagesFrom(s, next, after);
      if token.Some? {
        assert ([token.value] + rest)[1..] == rest;
      } else {
        assert [] + rest == rest;
      }
    }
  }

  lemma ImagesAreOrdered(s: Text)
    ensures Ordered(s, Images(s), 0)
  {
    ScanIsOrdered(s, 0, None);
  }

  /** What the recursive definition says of any two images. */
  lemma {:induction false} OrderedMeans(s: Text, images: seq<Image>, from: nat, k: nat, l: nat)
    requires Ordered(s, images, from) && k < l < |images|
    ensures from <= images[k].start < images[k].end <= images[l].start < images[l].end <= |s|
    decreases images
  {
    var rest := images[1..];
    if k > 0 {
      OrderedMeans(s, rest, images[0].end, k - 1, l - 1);
    } else if l > 1 {
      OrderedMeans(s, rest, images[0].end, 0, l - 1);
      assert rest[0].start >= images[0].end && rest[l - 1] == images[l];
    } else {
      assert rest[0] == images[1];
    }
  }

  // ---- The scanner, as loops --------------------------------------------------------

  method CodeSpanEnd(text: Text, i: nat) returns (e: nat)
    requires At(text, i, BACKTICK)
    ensures e == CodeEnd(text, i)
  {
    var n := TickRun(text, i);
    var closing := ClosingTicks(text, i + n, n);
    return if closing.Some? then closing.value + n else i + n;
  }

  method TickRun(text: Text, i: nat) returns (n: nat)
    requires At(text, i, BACKTICK)
    ensures n == Run(text, i, BACKTICK) && n >= 1
  {
    n := 1;
    while At(text, i + n, BACKTICK)
      invariant 1 <= n && i + n <= |text| && n + Run(text, i + n, BACKTICK) == Run(text, i, BACKTICK)
      decreases |text| - n
    {
      n := n + 1;
    }
  }

  method ClosingTicks(text: Text, from: nat, n: nat) returns (closing: Option<nat>)
    requires 1 <= n <= from <= |text|
    ensures closing == Closing(text, from, n)
  {
    closing := IndexOfTicks(text, from, n);
    while closing.Some? && Longer(text, closing.value, n)
      invariant Candidate(text, from, n, closing)
      decreases if closing.Some? then |text| - closing.value + 1 else 0
    {
      closing := IndexOfTicks(text, closing.value + n, n);
    }
  }

  /** `k` is where the search for a closing run that began at `from` stands. */
  predicate Candidate(s: Text, from: nat, n: nat, k: Option<nat>)
    requires 1 <= n <= from <= |s|
  {
    && (k.Some? ==> from <= k.value && k.value + n <= |s| && IsTicks(s, k.value, n))
    && Closing(s, from, n) == if k.None? then None else Closing(s, k.value, n)
  }

  predicate IsTicks(s: Text, k: nat, n: nat)
    requires k <= |s|
  {
    Run(s, k, BACKTICK) >= n
  }

  /** `indexOf` of `n` backticks; the search for a closing run passes over what it skips. */
  method IndexOfTicks(text: Text, from: nat, n: nat) returns (r: Option<nat>)
    requires 1 <= n <= from <= |text|
    ensures Candidate(text, from, n, r)
  {
    var k := from;
    while k + n <= |text|
      invariant from <= k <= |text| && Closing(text, k, n) == Closing(text, from, n)
    {
      if IsTicks(text, k, n) { return Some(k); }
      k := k + 1;
    }
    return None;
  }

  method ScanAlt(text: Text, from: nat) returns (r: Option<nat>)
    ensures r == CloseBracket(text, from, 1)
  {
    var j, depth := from, 1;
    while j < |text| && depth > 0
      invariant j >= from
      invariant depth > 0 ==> CloseBracket(text, j, depth) == CloseBracket(text, from, 1)
      invariant depth == 0 ==> CloseBracket(text, from, 1) == Some(j)
      decreases |text| - j
    {
      if text[j] == BACKSLASH {
        j := j + 1;
      } else if text[j] == LF {
        break;
      } else if text[j] == LEFT_BRACKET {
        depth := depth + 1;
      } else if text[j] == RIGHT_BRACKET {
        depth := depth - 1;
      }
      j := j + 1;
    }
    return if depth == 0 then Some(j) else None;
  }

  method ScanBare(text: Text, from: nat) returns (j: nat)
    ensures j == BareEnd(text, from, 0)
  {
    j := from;
    var depth := 0;
    while j < |text|
      invariant j >= from && BareEnd(text, j, depth) == BareEnd(text, from, 0)
      decreases |text| - j
    {
      if text[j] == BACKSLASH {
        j := j + 1;
      } else if text[j] == LEFT_PAREN {
        depth := depth + 1;
      } else if text[j] == RIGHT_PAREN {
        if depth == 0 { break; }
        depth := depth - 1;
      } else if White(text[j]) && depth == 0 {
        break;
      }
      j := j + 1;
    }
  }

  method ScanTitle(text: Text, from: nat) returns (r: Option<nat>)
    ensures r == TitleEnd(text, from)
  {
    if !At(text, from, QUOTE) && !At(text, from, APOSTROPHE) { return Some(from); }
    var quote, j := text[from], from + 1;
    while j < |text| && text[j] != quote && text[j] != LF
      invariant QuoteEnd(text, j, quote) == QuoteEnd(text, from + 1, quote)
      decreases |text| - j
    {
      if text[j] == BACKSLASH { j := j + 1; }
      j := j + 1;
    }
    if !At(text, j, quote) { return None; }
    return Some(Blanks(text, j + 1));
  }

  method ScanToken(text: Text, i: nat) returns (r: Option<Image>)
    ensures r == TokenAt(text, i)
  {
    hide CloseBracket, TitleEnd, Blanks, Url;
    if !At(text, i, BANG) || !At(text, i + 1, LEFT_BRACKET) { return None; }
    var bracket := ScanAlt(text, i + 2);
    if bracket.None? || !At(text, bracket.value, LEFT_PAREN) { return None; }
    var start := bracket.value + 1;
    var target := ScanDestination(text, start);
    if target.None? { return None; }
    var close := ScanTitle(text, Blanks(text, target.value.1));
    if close.None? || !At(text, close.value, RIGHT_PAREN) { return None; }
    return Some(MakeImage(text, i, bracket.value, target.value.0, close.value));
  }

  method ScanDestination(text: Text, start: nat) returns (r: Option<(nat, nat)>)
    ensures r == Destination(text, start)
  {
    if At(text, start, LESS) {
      var close := Find(text, start + 1, GREATER);
      return if close >= |text| then None else Some((close, close + 1));
    }
    var end := ScanBare(text, start);
    return Some((end, end));
  }

  /** The body of the scanner's loop. */
  method ScanStep(text: Text, i: nat, fence: Option<Marker>)
    returns (next: nat, after: Option<Marker>, token: Option<Image>)
    requires i < |text|
    ensures (next, after, token) == Step(text, i, fence)
  {
    after, token := fence, None;
    if (i == 0 || text[i - 1] == LF) && Toggles(text, i, fence) {
      after := if fence.Some? then None else Some(MarkerAt(text, i).value);
      next := EndOfLine(text, i) + 1;
    } else if (i == 0 || text[i - 1] == LF) && fence.Some? {
      next := EndOfLine(text, i) + 1;
    } else if text[i] == BACKSLASH {
      next := i + 2;
    } else if text[i] == BACKTICK {
      next := CodeSpanEnd(text, i);
    } else {
      token := ScanToken(text, i);
      next := if token.Some? then token.value.end else i + 1;
    }
  }

  /** `markdownImages` terminates with the images in order, disjoint and in bounds. */
  method MarkdownImages(text: Text) returns (found: seq<Image>)
    ensures found == Images(text) && Ordered(text, found, 0)
  {
    found := [];
    var fence: Option<Marker> := None;
    var i := 0;
    while i < |text|
      invariant found + ImagesFrom(text, i, fence) == Images(text)
      decreases |text| - i
    {
      ghost var before := found;
      var next, after, token := ScanStep(text, i, fence);
      if token.Some? { found := found + [token.value]; }
      assert found == before + Listed(token);
      Associate(before, Listed(token), ImagesFrom(text, next, after));
      i, fence := next, after;
    }
    ScanIsOrdered(text, 0, None);
  }

  lemma Associate(a: seq<Image>, b: seq<Image>, c: seq<Image>)
    ensures (a + b) + c == a + (b + c)
  {
  }
}
