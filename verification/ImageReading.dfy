/** A text read as fence lines, escapes, code spans, images and single units: the scanner finds the images of it. */
module ImageReading {
  import opened Effects
  import opened Utf16
  import opened ReplyFences
  import opened ImageScanner
  import opened ImageGrammar

  datatype Kind =
    | Opening(fence: Marker) | Inside(fence: Marker) | Closing(fence: Marker)
    | Escaping | Code(ticks: nat) | Ticks(ticks: nat) | Picture(image: Image) | Other

  datatype Piece = Piece(from: nat, to: nat, kind: Kind)

  // ---- Lines ------------------------------------------------------------------------------

  predicate LineHead(s: Text, i: nat)
    requires i <= |s|
  {
    i == 0 || s[i - 1] == LF
  }

  function LineAt(s: Text, i: nat): Text
    requires i <= |s|
  {
    s[i..EndOfLine(s, i)]
  }

  predicate WholeLine(s: Text, from: nat, to: nat)
    requires from <= |s|
  {
    LineHead(s, from) && to == if EndOfLine(s, from) < |s| then EndOfLine(s, from) + 1 else |s|
  }

  /** Up to three spaces, at least three marks and no more of them, and then `rest`. */
  predicate Marks(line: Text, m: Marker, rest: Text) {
    && m.indent <= 3 && m.length >= 3 && (m.mark == BACKTICK || m.mark == TILDE)
    && line == Line(m.indent, m.mark, m.length) + rest && !At(rest, 0, m.mark)
    && forall u :: u in rest ==> !Terminator(u)
  }

  ghost predicate Opens(line: Text, m: Marker) {
    exists rest :: Marks(line, m, rest)
  }

  ghost predicate Closes(line: Text, fence: Marker) {
    exists m, rest :: Marks(line, m, rest) && m.mark == fence.mark && m.length >= fence.length && Blank(rest)
  }

  // ---- Readings ---------------------------------------------------------------------------

  predicate TicksAt(s: Text, i: nat, n: nat) {
    1 <= n && i + n <= |s| && !At(s, i + n, BACKTICK) && forall j :: i <= j < i + n ==> s[j] == BACKTICK
  }

  /** What a piece outside fences must be. */
  ghost predicate Inline(s: Text, p: Piece)
    requires p.from < p.to <= |s|
  {
    match p.kind
    case Escaping => s[p.from] == BACKSLASH && p.to == if p.from + 2 <= |s| then p.from + 2 else |s|
    case Code(n) =>
      && TicksAt(s, p.from, n) && p.from + 2 * n <= p.to && ExactRun(s, p.to - n, n)
      && forall j :: p.from + n <= j < p.to - n ==> !ExactRun(s, j, n)
    case Ticks(n) => TicksAt(s, p.from, n) && p.to == p.from + n && forall j :: p.to <= j ==> !ExactRun(s, j, n)
    case Picture(image) => image.start == p.from && image.end == p.to && IsImage(s, image)
    case Other =>
      && p.to == p.from + 1 && s[p.from] != BACKSLASH && s[p.from] != BACKTICK
      && forall image :: IsImage(s, image) ==> image.start != p.from
    case _ => false
  }

  /** A piece in its place: while a fence is open there are only its lines. */
  ghost predicate Fits(s: Text, p: Piece, fence: Option<Marker>) {
    && p.from < p.to <= |s|
    && match p.kind
       case Opening(m) => fence.None? && WholeLine(s, p.from, p.to) && Opens(LineAt(s, p.from), m)
       case Inside(m) => fence == Some(m) && WholeLine(s, p.from, p.to) && !Closes(LineAt(s, p.from), m)
       case Closing(m) => fence == Some(m) && WholeLine(s, p.from, p.to) && Closes(LineAt(s, p.from), m)
       case _ =>
         && fence.None? && Inline(s, p)
         && (LineHead(s, p.from) ==> forall m :: !Opens(LineAt(s, p.from), m))
  }

  function After(k: Kind): Option<Marker> {
    match k
    case Opening(m) => Some(m)
    case Inside(m) => Some(m)
    case _ => None
  }

  /** The pieces cover the text from `i` on, where `fence` is open. */
  ghost predicate Reads(s: Text, i: nat, fence: Option<Marker>, pieces: seq<Piece>)
    decreases pieces
  {
    if pieces == [] then i == |s|
    else pieces[0].from == i && Fits(s, pieces[0], fence) && Reads(s, pieces[0].to, After(pieces[0].kind), pieces[1..])
  }

  ghost predicate Reading(s: Text, pieces: seq<Piece>) {
    Reads(s, 0, None, pieces)
  }

  function Shown(k: Kind): seq<Image> { if k.Picture? then [k.image] else [] }

  function PicturesOf(pieces: seq<Piece>): seq<Image> {
    if pieces == [] then [] else Shown(pieces[0].kind) + PicturesOf(pieces[1..])
  }

  // ---- Fence lines are what the scanner takes for them --------------------------------------

  lemma {:induction false} EndBehind(s: Text, i: nat, k: nat)
    requires i <= k <= |s| && LF !in s[i..k]
    ensures EndOfLine(s, i) == EndOfLine(s, k)
    decreases k - i
  {
    if i < k {
      assert s[i] in s[i..k] && forall u :: u in s[i + 1..k] ==> u in s[i..k];
      EndBehind(s, i + 1, k);
    }
  }

  lemma LineHasNoFeed(indent: nat, mark: Unit, length: nat)
    requires mark == BACKTICK || mark == TILDE
    ensures LF !in Line(indent, mark, length)
  {
  }

  /** A marker and the rest of its line make up the line. */
  lemma MarkedLine(s: Text, i: nat)
    requires i <= |s| && MarkerAt(s, i).Some?
    ensures var m := MarkerAt(s, i).value;
            LineAt(s, i) == Line(m.indent, m.mark, m.length) + Rest(s, i) && !At(Rest(s, i), 0, m.mark)
  {
    hide EndOfLine;
    var m := MarkerAt(s, i).value;
    var k := i + m.indent + m.length;
    MarkerIsLine(s, i);
    LineHasNoFeed(m.indent, m.mark, m.length);
    EndBehind(s, i, k);
    assert LineAt(s, i) == s[i..k] + s[k..EndOfLine(s, k)];
  }

  lemma RunOf(s: Text, i: nat, c: Unit, n: nat)
    requires Has(s, i, Repeat(c, n)) && !At(s, i + n, c)
    ensures Run(s, i, c) == n
  {
    hide Run, Repeat;
    var r := Repeat(c, n);
    assert forall k {:trigger s[k]} :: i <= k < i + n ==> s[k] == s[i..i + n][k - i] == r[k - i];
    RunIs(s, i, c, n);
  }

  lemma HeadOfMarks(s: Text, i: nat, m: Marker)
    requires m.indent <= 3 && m.length >= 3 && (m.mark == BACKTICK || m.mark == TILDE)
    requires Has(s, i, Line(m.indent, m.mark, m.length)) && !At(s, i + m.indent + m.length, m.mark)
    ensures MarkerAt(s, i) == Some(m)
  {
    hide Run, Repeat, Has;
    var spaces, marks := Repeat(SPACE, m.indent), Repeat(m.mark, m.length);
    HasJoined(s, i, spaces, marks);
    MarksAreNoSpace(s, i + m.indent, m.mark, m.length);
    RunOf(s, i, SPACE, m.indent);
    RunOf(s, i + m.indent, m.mark, m.length);
  }

  lemma MarksAreNoSpace(s: Text, i: nat, mark: Unit, n: nat)
    requires Has(s, i, Repeat(mark, n)) && n > 0
    ensures At(s, i, mark)
  {
    assert s[i] == s[i..i + n][0] == Repeat(mark, n)[0];
  }

  lemma MarksIsMarker(s: Text, i: nat, m: Marker, rest: Text)
    requires i <= |s| && Marks(LineAt(s, i), m, rest)
    ensures MarkerAt(s, i) == Some(m) && Rest(s, i) == rest
  {
    hide EndOfLine, Run, Line, Has, MarkerAt;
    var line, text, b := LineAt(s, i), Line(m.indent, m.mark, m.length), i + m.indent + m.length;
    HasSlice(s, i, EndOfLine(s, i));
    HasJoined(s, i, text, rest);
    LineLength(m.indent, m.mark, m.length);
    HasIsSlice(s, i, text);
    HasIsSlice(s, b, rest);
    NotMarked(s, i, b, m.mark, rest);
    HeadOfMarks(s, i, m);
    LineHasNoFeed(m.indent, m.mark, m.length);
    EndBehind(s, i, b);
  }

  lemma LineLength(indent: nat, mark: Unit, length: nat)
    ensures |Line(indent, mark, length)| == indent + length
  {
  }

  lemma NotMarked(s: Text, i: nat, b: nat, mark: Unit, rest: Text)
    requires i <= b && i <= |s| && b <= EndOfLine(s, i) && s[b..EndOfLine(s, i)] == rest && !At(rest, 0, mark)
    requires mark != LF
    ensures !At(s, b, mark)
  {
    if rest != [] { assert rest[0] == s[b]; }
  }

  lemma FenceLineOpens(s: Text, i: nat, m: Marker)
    requires i <= |s|
    ensures FenceLine(s, i) && MarkerAt(s, i) == Some(m) <==> Opens(LineAt(s, i), m)
  {
    hide EndOfLine, Run, Line, MarkerAt, Rest, LineAt;
    if FenceLine(s, i) && MarkerAt(s, i) == Some(m) {
      MarkedLine(s, i);
      MarkerBounded(s, i);
      assert Marks(LineAt(s, i), m, Rest(s, i));
    }
    if Opens(LineAt(s, i), m) {
      var rest :| Marks(LineAt(s, i), m, rest);
      MarksIsMarker(s, i, m, rest);
    }
  }

  lemma MarkerBounded(s: Text, i: nat)
    requires i <= |s| && MarkerAt(s, i).Some?
    ensures var m := MarkerAt(s, i).value;
            m.indent <= 3 && m.length >= 3 && (m.mark == BACKTICK || m.mark == TILDE)
  {
  }

  lemma TogglesCloses(s: Text, i: nat, fence: Marker)
    requires i <= |s|
    ensures Toggles(s, i, Some(fence)) <==> Closes(LineAt(s, i), fence)
  {
    hide EndOfLine, Run, Line, MarkerAt, Rest, LineAt, Blank;
    if Toggles(s, i, Some(fence)) {
      MarkedLine(s, i);
      MarkerBounded(s, i);
      assert Marks(LineAt(s, i), MarkerAt(s, i).value, Rest(s, i));
    }
    if Closes(LineAt(s, i), fence) {
      var m, rest :| Marks(LineAt(s, i), m, rest) && m.mark == fence.mark && m.length >= fence.length && Blank(rest);
      MarksIsMarker(s, i, m, rest);
    }
  }

  lemma NothingOpensHere(s: Text, i: nat)
    requires i <= |s|
    ensures Toggles(s, i, None) <==> exists m :: Opens(LineAt(s, i), m)
  {
    hide MarkerAt, Rest, Opens, LineAt;
    if Toggles(s, i, None) { FenceLineOpens(s, i, MarkerAt(s, i).value); }
    forall m | Opens(LineAt(s, i), m) ensures Toggles(s, i, None) { FenceLineOpens(s, i, m); }
  }

  // ---- Every step of the scanner is the piece that fits, and the other way round ------------

  /** Where the piece that the scanner's step passes over ends. */
  function Reach(s: Text, next: nat): nat { if next <= |s| then next else |s| }

  lemma LineStep(s: Text, i: nat, fence: Option<Marker>) returns (p: Piece)
    requires i < |s| && LineHead(s, i) && (fence.Some? || Toggles(s, i, fence))
    ensures Fits(s, p, fence) && p.from == i && p.to == Reach(s, Step(s, i, fence).0)
    ensures After(p.kind) == Step(s, i, fence).1 && Shown(p.kind) == Listed(Step(s, i, fence).2)
  {
    hide Toggles, MarkerAt, Opens, Closes, EndOfLine, LineAt;
    var to := Reach(s, EndOfLine(s, i) + 1);
    if fence.None? {
      NothingOpensHere(s, i);
      assert FenceLine(s, i) by { TogglesMarks(s, i); }
      FenceLineOpens(s, i, MarkerAt(s, i).value);
      p := Piece(i, to, Opening(MarkerAt(s, i).value));
    } else {
      TogglesCloses(s, i, fence.value);
      p := Piece(i, to, if Toggles(s, i, fence) then Closing(fence.value) else Inside(fence.value));
    }
  }

  lemma TogglesMarks(s: Text, i: nat)
    requires i <= |s| && Toggles(s, i, None)
    ensures FenceLine(s, i) && MarkerAt(s, i).Some?
  {
  }

  lemma TicksOf(s: Text, i: nat)
    requires At(s, i, BACKTICK)
    ensures TicksAt(s, i, Run(s, i, BACKTICK))
  {
  }

  lemma CodeStep(s: Text, i: nat) returns (p: Piece)
    requires At(s, i, BACKTICK)
    ensures p.from == i && p.from < p.to <= |s| && p.to == CodeEnd(s, i) && Inline(s, p)
    ensures p.kind.Code? || p.kind.Ticks?
  {
    hide Run, ImageScanner.Closing, CodeEnd, TicksAt;
    var n, e := Run(s, i, BACKTICK), CodeEnd(s, i);
    TicksOf(s, i);
    CodeSpanIsMatched(s, i);
    p := Piece(i, e, if e == i + n then Ticks(n) else Code(n));
    assert n >= 1 by { TicksBounds(s, i, n); }
  }

  lemma TicksBounds(s: Text, i: nat, n: nat)
    requires TicksAt(s, i, n)
    ensures n >= 1 && i + n <= |s| && At(s, i, BACKTICK)
  {
  }

  lemma CodeIs(s: Text, p: Piece)
    requires p.from < p.to <= |s| && Inline(s, p) && (p.kind.Code? || p.kind.Ticks?)
    ensures At(s, p.from, BACKTICK) && CodeEnd(s, p.from) == p.to
  {
    hide Run, ImageScanner.Closing, CodeEnd;
    var i, n := p.from, p.kind.ticks;
    RunIs(s, i, BACKTICK, n);
    CodeSpanIsMatched(s, i);
  }

  lemma InlineStep(s: Text, i: nat) returns (p: Piece)
    requires i < |s| && !(LineHead(s, i) && Toggles(s, i, None))
    ensures Fits(s, p, None) && p.from == i && p.to == Reach(s, Step(s, i, None).0)
    ensures After(p.kind) == Step(s, i, None).1 && Shown(p.kind) == Listed(Step(s, i, None).2)
  {
    hide Toggles, TokenAt, CodeEnd, LineAt, Opens, IsImage, TicksAt, ExactRun;
    if LineHead(s, i) { NothingOpensHere(s, i); }
    if s[i] == BACKSLASH {
      p := Piece(i, Reach(s, i + 2), Escaping);
    } else if s[i] == BACKTICK {
      p := CodeStep(s, i);
    } else {
      var token := TokenAt(s, i);
      if token.Some? {
        TokenIff(s, token.value);
        p := Piece(i, token.value.end, Picture(token.value));
      } else {
        forall image | IsImage(s, image) ensures image.start != i { TokenIff(s, image); }
        p := Piece(i, i + 1, Other);
      }
    }
  }

  /** The piece for one step of the scanner. */
  lemma StepFits(s: Text, i: nat, fence: Option<Marker>) returns (p: Piece)
    requires i < |s| && (fence.Some? ==> LineHead(s, i))
    ensures Fits(s, p, fence) && p.from == i && p.to == Reach(s, Step(s, i, fence).0)
    ensures After(p.kind) == Step(s, i, fence).1 && Shown(p.kind) == Listed(Step(s, i, fence).2)
    ensures After(p.kind).Some? ==> p.to == |s| || LineHead(s, p.to)
  {
    hide Toggles, Step;
    if LineHead(s, i) && (fence.Some? || Toggles(s, i, fence)) {
      p := LineStep(s, i, fence);
    } else {
      p := InlineStep(s, i);
    }
  }

  lemma LineIsStep(s: Text, p: Piece, fence: Option<Marker>)
    requires Fits(s, p, fence) && (p.kind.Opening? || p.kind.Inside? || p.kind.Closing?)
    ensures p.to == Reach(s, Step(s, p.from, fence).0)
    ensures After(p.kind) == Step(s, p.from, fence).1 && Shown(p.kind) == Listed(Step(s, p.from, fence).2)
  {
    hide Toggles, MarkerAt, Opens, Closes, EndOfLine, LineAt;
    if fence.None? {
      NothingOpensHere(s, p.from);
      FenceLineOpens(s, p.from, p.kind.fence);
    } else {
      TogglesCloses(s, p.from, fence.value);
    }
  }

  lemma InlineIsStep(s: Text, p: Piece)
    requires Fits(s, p, None) && !p.kind.Opening?
    ensures p.to == Reach(s, Step(s, p.from, None).0)
    ensures After(p.kind) == Step(s, p.from, None).1 && Shown(p.kind) == Listed(Step(s, p.from, None).2)
  {
    hide Toggles, TokenAt, CodeEnd, LineAt, Opens, IsImage, TicksAt, ExactRun;
    var i := p.from;
    if LineHead(s, i) { NothingOpensHere(s, i); }
    match p.kind {
      case Code(n) => CodeIs(s, p);
      case Ticks(n) => CodeIs(s, p);
      case Picture(image) => TokenIff(s, image);
      case Other => if TokenAt(s, i).Some? { TokenIff(s, TokenAt(s, i).value); }
      case _ =>
    }
  }

  /** The piece that fits is the one that the scanner's step passes over. */
  lemma FitsIsStep(s: Text, p: Piece, fence: Option<Marker>)
    requires Fits(s, p, fence)
    ensures p.to == Reach(s, Step(s, p.from, fence).0)
    ensures After(p.kind) == Step(s, p.from, fence).1 && Shown(p.kind) == Listed(Step(s, p.from, fence).2)
  {
    if p.kind.Opening? || p.kind.Inside? || p.kind.Closing? {
      LineIsStep(s, p, fence);
    } else {
      InlineIsStep(s, p);
    }
  }

  // ---- What is found ------------------------------------------------------------------------

  lemma NoneBehind(s: Text, i: nat, fence: Option<Marker>)
    requires i >= |s|
    ensures ImagesFrom(s, i, fence) == []
  {
  }

  lemma {:induction false} ReadsAreFound(s: Text, i: nat, fence: Option<Marker>, pieces: seq<Piece>)
    requires Reads(s, i, fence, pieces)
    ensures ImagesFrom(s, i, fence) == PicturesOf(pieces)
    decreases pieces
  {
    hide Step, Fits;
    if pieces == [] {
      NoneBehind(s, i, fence);
    } else {
      var p := pieces[0];
      FitsIsStep(s, p, fence);
      FitsBounds(s, p, fence);
      ReadsAreFound(s, p.to, After(p.kind), pieces[1..]);
      var next := Step(s, i, fence).0;
      if next > |s| {
        NoneBehind(s, next, After(p.kind));
        NoneBehind(s, p.to, After(p.kind));
      }
    }
  }

  lemma FitsBounds(s: Text, p: Piece, fence: Option<Marker>)
    requires Fits(s, p, fence)
    ensures p.from < p.to <= |s|
  {
  }

  /** The scanner finds exactly the images of a reading, in their order. */
  lemma FoundAreRead(s: Text, pieces: seq<Piece>)
    requires Reading(s, pieces)
    ensures Images(s) == PicturesOf(pieces)
  {
    ReadsAreFound(s, 0, None, pieces);
  }

  lemma {:induction false} ReadFrom(s: Text, i: nat, fence: Option<Marker>) returns (pieces: seq<Piece>)
    requires i <= |s| && (fence.Some? ==> i == |s| || LineHead(s, i))
    ensures Reads(s, i, fence, pieces)
    decreases |s| - i
  {
    hide Step, Fits;
    if i == |s| {
      pieces := [];
    } else {
      var p := StepFits(s, i, fence);
      FitsBounds(s, p, fence);
      var rest := ReadFrom(s, p.to, After(p.kind));
      pieces := [p] + rest;
      assert pieces[1..] == rest;
    }
  }

  /** Every text has a reading. */
  lemma ReadingExists(s: Text) returns (pieces: seq<Piece>)
    ensures Reading(s, pieces)
  {
    pieces := ReadFrom(s, 0, None);
  }

  lemma {:induction false} PieceAt(s: Text, i: nat, fence: Option<Marker>, pieces: seq<Piece>, at: nat)
    returns (p: Piece, open: Option<Marker>)
    requires Reads(s, i, fence, pieces) && i <= at < |s|
    ensures p in pieces && Fits(s, p, open) && p.from <= at < p.to
    decreases pieces
  {
    hide Fits;
    FitsBounds(s, pieces[0], fence);
    if at < pieces[0].to {
      p, open := pieces[0], fence;
    } else {
      p, open := PieceAt(s, pieces[0].to, After(pieces[0].kind), pieces[1..], at);
    }
  }

  lemma {:induction false} PicturesInPieces(pieces: seq<Piece>, image: Image)
    ensures image in PicturesOf(pieces) <==> exists p :: p in pieces && p.kind == Picture(image)
  {
    if pieces != [] {
      PicturesInPieces(pieces[1..], image);
      if exists p :: p in pieces && p.kind == Picture(image) {
        var p :| p in pieces && p.kind == Picture(image);
        assert p == pieces[0] || p in pieces[1..];
      }
      if image in Shown(pieces[0].kind) { assert pieces[0] in pieces && pieces[0].kind == Picture(image); }
    }
  }

  /** What hides an image: a line of a fence, or a piece before it that it begins in. */
  predicate Hides(p: Piece, image: Image) {
    && p.from <= image.start < p.to
    && match p.kind
       case Escaping => p.from + 1 == image.start
       case Code(_) => p.from < image.start
       case Picture(other) => p.from < image.start
       case Ticks(_) => false
       case Other => false
       case _ => true
  }

  /** Nothing is missed: an image that stands in the text is found, or a fence, a code span, a backslash or an earlier
      image hides it. */
  lemma FoundUnlessHidden(s: Text, pieces: seq<Piece>, image: Image)
    requires Reading(s, pieces) && IsImage(s, image)
    ensures image in Images(s) || exists p :: p in pieces && Hides(p, image)
  {
    hide Reads, IsImage, Images;
    FoundAreRead(s, pieces);
    TokenIff(s, image);
    TokenStart(s, image.start);
    var p, open := PieceAt(s, 0, None, pieces, image.start);
    if p.kind == Picture(image) {
      PicturesInPieces(pieces, image);
    } else if !Hides(p, image) {
      Unhidden(s, p, open, image);
    }
  }

  lemma TokenStart(s: Text, i: nat)
    requires TokenAt(s, i).Some?
    ensures At(s, i, BANG)
  {
  }

  lemma Unhidden(s: Text, p: Piece, open: Option<Marker>, image: Image)
    requires Fits(s, p, open) && p.from <= image.start < p.to && IsImage(s, image) && At(s, image.start, BANG)
    requires !Hides(p, image)
    ensures p.kind == Picture(image)
  {
    hide IsImage, LineAt, Opens, ExactRun;
    if p.kind.Picture? {
      TokenIff(s, image);
      TokenIff(s, p.kind.image);
    }
  }

  lemma {:induction false} FoundPieces(s: Text, i: nat, fence: Option<Marker>, pieces: seq<Piece>, p: Piece, q: Piece)
    requires Reads(s, i, fence, pieces) && p in pieces && q in pieces && p != q
    ensures i <= p.from && i <= q.from && (p.to <= q.from || q.to <= p.from)
    decreases pieces
  {
    hide Fits;
    var first, rest := pieces[0], pieces[1..];
    FitsBounds(s, first, fence);
    if p in rest && q in rest {
      FoundPieces(s, first.to, After(first.kind), rest, p, q);
    } else if p in rest {
      PiecesFrom(s, first.to, After(first.kind), rest, p);
    } else {
      PiecesFrom(s, first.to, After(first.kind), rest, q);
    }
  }

  lemma {:induction false} PiecesFrom(s: Text, i: nat, fence: Option<Marker>, pieces: seq<Piece>, p: Piece)
    requires Reads(s, i, fence, pieces) && p in pieces
    ensures i <= p.from < p.to
    decreases pieces
  {
    hide Fits;
    FitsBounds(s, pieces[0], fence);
    if p != pieces[0] { PiecesFrom(s, pieces[0].to, After(pieces[0].kind), pieces[1..], p); }
  }

  /** Nothing is made up: what is found is an image, and no code, fence or escape has any of it. */
  lemma FoundIsImage(s: Text, pieces: seq<Piece>, image: Image, p: Piece)
    requires Reading(s, pieces) && image in Images(s) && p in pieces && p.kind != Picture(image)
    ensures IsImage(s, image) && (p.to <= image.start || image.end <= p.from)
  {
    hide Reads, IsImage, Images, Fits;
    FoundAreRead(s, pieces);
    PicturesInPieces(pieces, image);
    var q :| q in pieces && q.kind == Picture(image);
    FoundPieces(s, 0, None, pieces, p, q);
    PictureFits(s, 0, None, pieces, q);
  }

  lemma {:induction false} PictureFits(s: Text, i: nat, fence: Option<Marker>, pieces: seq<Piece>, q: Piece)
    requires Reads(s, i, fence, pieces) && q in pieces && q.kind.Picture?
    ensures IsImage(s, q.kind.image) && q.from == q.kind.image.start && q.to == q.kind.image.end
    decreases pieces
  {
    hide IsImage, LineAt, Opens;
    if q != pieces[0] { PictureFits(s, pieces[0].to, After(pieces[0].kind), pieces[1..], q); }
  }
}
