/** Showing the attachments of a reply: each where its image stands first, or below the text. */
module ReplyImages {
  import opened Effects
  import opened Utf16
  import opened ReplyFences
  import opened ImageScanner
  import opened ImageTrimming

  const MAX_REPLY_IMAGES: nat := 5

  /** What takes the place of an image: itself, nothing, or the attachment of that number. */
  datatype Piece = Itself | Nothing | Attached(number: nat)

  /** Which attachment an image refers to, by any of its addresses. */
  type Matcher = Image -> Option<nat>

  /** One of the first `n` images refers to attachment `a`. */
  ghost predicate Refers(images: seq<Image>, matched: Matcher, n: nat, a: nat)
    requires n <= |images|
  {
    exists j :: 0 <= j < n && matched(images[j]) == Some(a)
  }

  /** The first image of an attachment shows it, its other images vanish, and foreign images stay. */
  ghost function PieceAt(images: seq<Image>, matched: Matcher, k: nat): Piece
    requires k < |images|
  {
    var a := matched(images[k]);
    if a.None? then Itself
    else if Refers(images, matched, k, a.value) then Nothing
    else Attached(a.value)
  }

  ghost predicate Placed(images: seq<Image>, matched: Matcher, pieces: seq<Piece>) {
    |pieces| == |images| && forall k :: 0 <= k < |pieces| ==> pieces[k] == PieceAt(images, matched, k)
  }

  /** The attachments no image refers to, in order. */
  ghost predicate Unplaced(images: seq<Image>, matched: Matcher, n: nat, below: seq<nat>) {
    && (forall i, j :: 0 <= i < j < |below| ==> below[i] < below[j])
    && (forall a: nat :: a in below <==> a < n && !Refers(images, matched, |images|, a))
  }

  ghost function PiecesOf(images: seq<Image>, matched: Matcher): (r: seq<Piece>)
    ensures Placed(images, matched, r)
  {
    seq(|images|, k requires 0 <= k < |images| => PieceAt(images, matched, k))
  }

  ghost function UnplacedOf(images: seq<Image>, matched: Matcher, n: nat): (r: seq<nat>)
    ensures Unplaced(images, matched, n, r)
    ensures forall i :: 0 <= i < |r| ==> r[i] < n
  {
    if n == 0 then []
    else
      var before := UnplacedOf(images, matched, n - 1);
      assert forall i :: 0 <= i < |before| ==> before[i] in before;
      if Refers(images, matched, |images|, n - 1) then before else before + [n - 1]
  }

  function Occurrences(pieces: seq<Piece>, a: nat): nat {
    if pieces == [] then 0
    else Occurrences(pieces[..|pieces| - 1], a) + if pieces[|pieces| - 1] == Attached(a) then 1 else 0
  }

  lemma {:induction false} OccursOnce(images: seq<Image>, matched: Matcher, pieces: seq<Piece>, a: nat, k: nat)
    requires Placed(images, matched, pieces) && k <= |pieces|
    ensures Occurrences(pieces[..k], a) == if Refers(images, matched, k, a) then 1 else 0
  {
    if k > 0 {
      OccursOnce(images, matched, pieces, a, k - 1);
      assert pieces[..k][..k - 1] == pieces[..k - 1];
      assert pieces[k - 1] == PieceAt(images, matched, k - 1);
    }
  }

  /** Every attachment is shown exactly once: in place of an image, or below. */
  lemma EachExactlyOnce(images: seq<Image>, matched: Matcher, n: nat, a: nat)
    requires a < n
    ensures Occurrences(PiecesOf(images, matched), a) + multiset(UnplacedOf(images, matched, n))[a] == 1
  {
    var pieces, below := PiecesOf(images, matched), UnplacedOf(images, matched, n);
    OccursOnce(images, matched, pieces, a, |pieces|);
    assert pieces[..|pieces|] == pieces;
    OnceInOrder(below, a);
  }

  lemma {:induction false} OnceInOrder(s: seq<nat>, a: nat)
    requires forall i, j :: 0 <= i < j < |s| ==> s[i] < s[j]
    ensures multiset(s)[a] == if a in s then 1 else 0
  {
    if s != [] {
      var n := |s| - 1;
      assert s == s[..n] + [s[n]];
      OnceInOrder(s[..n], a);
    }
  }

  // ---- The text ---------------------------------------------------------------------------------

  function Shown(text: Text, image: Image, piece: Piece, rendered: seq<Text>): Text
    requires Token(text, image)
  {
    match piece
    case Itself => text[image.start..image.end]
    case Nothing => []
    case Attached(a) => if a < |rendered| then rendered[a] else []
  }

  /** What stands in the places of the first `|pieces|` images. */
  function AllShown(text: Text, images: seq<Image>, pieces: seq<Piece>, rendered: seq<Text>): (r: seq<Text>)
    requires |pieces| <= |images| && forall k :: 0 <= k < |pieces| ==> Token(text, images[k])
    ensures |r| == |pieces| && forall k :: 0 <= k < |r| ==> r[k] == Shown(text, images[k], pieces[k], rendered)
  {
    seq(|pieces|, k requires 0 <= k < |pieces| => Shown(text, images[k], pieces[k], rendered))
  }

  /** A paragraph for each of these attachments. */
  function Below(rendered: seq<Text>, below: seq<nat>): (r: seq<Text>)
    requires forall i :: 0 <= i < |below| ==> below[i] < |rendered|
    ensures |r| == |below| && forall i :: 0 <= i < |r| ==> r[i] == [LF, LF] + rendered[below[i]]
  {
    seq(|below|, i requires 0 <= i < |below| => [LF, LF] + rendered[below[i]])
  }

  // ---- What each attachment shows ----------------------------------------------------------------

  const MISSING: Text := [91, 22270, 29255, 26242, 26410, 21516, 27493, 65292, 35831, 25171, 24320, 23436, 25972,
      23545, 35805, 26597, 30475, 93]
  const TOO_MANY: Text := [91, 22270, 29255, 36229, 36807, 32, 53, 32, 24352, 65292, 35831, 25171, 24320, 23436, 25972,
      23545, 35805, 26597, 30475, 93]
  const UNSUPPORTED: Text := [91, 26242, 19981, 25903, 25345, 35813, 22270, 29255, 26684, 24335, 65292, 35831, 25171,
      24320, 23436, 25972, 23545, 35805, 26597, 30475, 93]
  const TOO_LARGE: Text := [91, 22270, 29255, 36229, 36807, 22823, 23567, 38480, 21046, 25110, 19981, 21487, 35835,
      21462, 65292, 35831, 25171, 24320, 23436, 25972, 23545, 35805, 26597, 30475, 93]
  const REMAINDER: Text := [91, 20854, 20313, 22270, 29255, 35831, 25171, 24320, 23436, 25972, 23545, 35805, 26597,
      30475, 93]

  datatype Attachment = Attachment(knownType: bool, sizeInBounds: bool, idValid: bool) {
    predicate Usable() { knownType && sizeInBounds && idValid }
  }

  /** The note in place of an attachment that is not published. */
  function Note(i: nat, a: Attachment): Text {
    if i >= MAX_REPLY_IMAGES then TOO_MANY
    else if !a.knownType then UNSUPPORTED
    else if !a.sizeInBounds then TOO_LARGE
    else MISSING
  }

  /** Attachment `i` is published: it is usable, and among the first five. */
  predicate Publishable(attachments: seq<Attachment>, i: nat)
    requires i < |attachments|
  {
    i < MAX_REPLY_IMAGES && attachments[i].Usable()
  }

  /** Exactly those, in their order. */
  ghost predicate Publishes(attachments: seq<Attachment>, published: seq<nat>) {
    && |published| <= MAX_REPLY_IMAGES
    && (forall i, j :: 0 <= i < j < |published| ==> published[i] < published[j])
    && (forall i: nat :: i in published <==> i < |attachments| && Publishable(attachments, i))
  }

  /** What each attachment shows: what its transfer gave, or a note. */
  predicate Rendered(attachments: seq<Attachment>, transfers: seq<Option<Text>>, rendered: seq<Text>)
    requires |transfers| == |attachments|
  {
    && |rendered| == |attachments|
    && forall i :: 0 <= i < |attachments| ==>
         rendered[i] == if Publishable(attachments, i) then transfers[i].GetOr(MISSING) else Note(i, attachments[i])
  }

  /** Transfers are arbitrary: `transfers[i]` is the image that transferring attachment `i` gives, if it succeeds. */
  method Render(attachments: seq<Attachment>, transfers: seq<Option<Text>>)
    returns (rendered: seq<Text>, published: seq<nat>)
    requires |transfers| == |attachments|
    ensures Rendered(attachments, transfers, rendered) && Publishes(attachments, published)
  {
    hide Publishes;
    rendered, published := [], [];
    assert Publishes(attachments[..0], []) by { NothingPublished(attachments); }
    for i := 0 to |attachments|
      invariant Rendered(attachments[..i], transfers[..i], rendered) && Publishes(attachments[..i], published)
    {
      PublishedNext(attachments, published, i);
      var a := attachments[i];
      var output := MISSING;
      if i >= MAX_REPLY_IMAGES {
        output := TOO_MANY;
      } else if !a.knownType {
        output := UNSUPPORTED;
      } else if !a.sizeInBounds {
        output := TOO_LARGE;
      } else if a.idValid {
        output := transfers[i].GetOr(MISSING);
        published := published + [i];
      }
      rendered := rendered + [output];
    }
    assert attachments[..|attachments|] == attachments && transfers[..|transfers|] == transfers;
  }

  lemma NothingPublished(attachments: seq<Attachment>)
    ensures Publishes(attachments[..0], [])
  {
  }

  lemma PublishedNext(attachments: seq<Attachment>, published: seq<nat>, i: nat)
    requires i < |attachments| && Publishes(attachments[..i], published)
    ensures Publishes(attachments[..i + 1], if Publishable(attachments, i) then published + [i] else published)
  {
    var now := if Publishable(attachments, i) then published + [i] else published;
    forall j | 0 <= j < |published| ensures published[j] < i && published[j] < MAX_REPLY_IMAGES {
      assert published[j] in published;
    }
    PublishedFew(published, if i < MAX_REPLY_IMAGES then i else MAX_REPLY_IMAGES);
    forall k: nat ensures k in now <==> k < i + 1 && Publishable(attachments, k) {
      if k == i && Publishable(attachments, i) { assert now[|published|] == i; }
    }
  }

  /** Increasing numbers below a bound are no more than the bound. */
  lemma {:induction false} PublishedFew(published: seq<nat>, bound: nat)
    requires forall i, j :: 0 <= i < j < |published| ==> published[i] < published[j]
    requires forall i :: 0 <= i < |published| ==> published[i] < bound
    ensures |published| <= bound
  {
    if published != [] {
      var n := |published| - 1;
      PublishedFew(published[..n], published[n]);
    }
  }

  /** Attachments beyond those that are known are only mentioned. */
  function Remainder(total: Option<nat>, n: nat): Text {
    if total.GetOr(n) > n then [LF, LF] + REMAINDER else []
  }

  /** The reply with its attachments: each where its image stands first, or below the text. */
  ghost predicate Prepared(content: Text, attachments: seq<Attachment>, matched: Matcher, rendered: seq<Text>,
      total: Option<nat>, result: Text)
    requires |rendered| == |attachments|
  {
    var images, pieces := Images(content), PiecesOf(Images(content), matched);
    && (forall image :: image in images ==> Token(content, image))
    && result == Alternating(Between(content), AllShown(content, images, pieces, rendered), |images|)
                 + Between(content)[|images|] + Join(Below(rendered, UnplacedOf(images, matched, |attachments|)))
                 + Remainder(total, |attachments|)
  }

  /**
   * `prepare`, with the known attachments in their order.  A message that is not eligible, or has no
   * attachment, is left alone; without a valid workspace nothing is published.
   */
  method Prepare(content: Text, attachments: seq<Attachment>, total: Option<nat>, eligible: bool, validWorkspace: bool,
      matched: Matcher, transfers: seq<Option<Text>>)
    returns (result: Option<Text>, rendered: seq<Text>, published: seq<nat>)
    requires |transfers| == |attachments|
    requires forall image :: matched(image).Some? ==> matched(image).value < |attachments|
    ensures result.None? <==> !eligible || (attachments == [] && total.GetOr(0) == 0)
    ensures result.Some? && !validWorkspace ==> result.value == content + [LF, LF] + MISSING && published == []
    ensures result.Some? && validWorkspace ==>
              && Rendered(attachments, transfers, rendered) && Publishes(attachments, published)
              && Prepared(content, attachments, matched, rendered, total, result.value)
  {
    hide Images, Rendered, Prepared, Publishes, IsShown;
    if !eligible || (attachments == [] && total.GetOr(0) == 0) { return None, [], []; }
    if !validWorkspace { return Some(content + [LF, LF] + MISSING), [], []; }
    rendered, published := Render(attachments, transfers);
    RenderedAll(attachments, transfers, rendered);
    var text := Show(content, matched, rendered);
    result := Some(text + Remainder(total, |attachments|));
    assert Prepared(content, attachments, matched, rendered, total, result.value) by {
      IsPrepared(content, attachments, matched, rendered, total, text);
    }
  }

  lemma RenderedAll(attachments: seq<Attachment>, transfers: seq<Option<Text>>, rendered: seq<Text>)
    requires |transfers| == |attachments| && Rendered(attachments, transfers, rendered)
    ensures |rendered| == |attachments|
  {
  }

  /** The text with its attachments, and those below it. */
  ghost predicate IsShown(content: Text, matched: Matcher, rendered: seq<Text>, text: Text) {
    var images, pieces := Images(content), PiecesOf(Images(content), matched);
    && (forall image :: image in images ==> Token(content, image))
    && text == Alternating(Between(content), AllShown(content, images, pieces, rendered), |images|)
               + Between(content)[|images|] + Join(Below(rendered, UnplacedOf(images, matched, |rendered|)))
  }

  lemma IsPrepared(content: Text, attachments: seq<Attachment>, matched: Matcher, rendered: seq<Text>,
      total: Option<nat>, text: Text)
    requires |rendered| == |attachments| && IsShown(content, matched, rendered, text)
    ensures Prepared(content, attachments, matched, rendered, total, text + Remainder(total, |attachments|))
  {
  }

  method Show(content: Text, matched: Matcher, rendered: seq<Text>) returns (text: Text)
    ensures IsShown(content, matched, rendered, text)
  {
    hide Images, Token, PiecesOf, UnplacedOf, Alternating, Tail, Gaps, AllShown;
    var images := MarkdownImages(content);
    FoundInOrder(content, images, |images|);
    var laid, seen := Place(content, matched, rendered);
    var last := Append(images, matched, rendered, seen);
    TailIs(content, images);
    AllTokens(content);
    text := laid + content[Cursor(images, |images|)..] + last;
  }

  lemma AllTokens(content: Text)
    ensures forall image :: image in Images(content) ==> Token(content, image)
  {
    hide Images, Token;
    var images := Images(content);
    ImagesAreOrdered(content);
    FoundInOrder(content, images, |images|);
    forall k | 0 <= k < |images| ensures Token(content, images[k]) { PartAt(content, images, k, |images|); }
  }

  /** The replacement pass, with the set of attachments already shown. */
  method Place(content: Text, matched: Matcher, rendered: seq<Text>) returns (out: Text, seen: set<nat>)
    ensures forall image :: image in Images(content) ==> Token(content, image)
    ensures var images, pieces := Images(content), PiecesOf(Images(content), matched);
            && out == Alternating(Between(content), AllShown(content, images, pieces, rendered), |images|)
            && (forall a: nat :: a in seen <==> Refers(images, matched, |images|, a))
  {
    hide Refers, Shown, Placed, Token, InOrder, PiecesOf, Images, Alternating, Gaps, AllShown;
    var images := MarkdownImages(content);
    FoundInOrder(content, images, |images|);
    AllTokens(content);
    out, seen := [], {};
    ghost var pieces: seq<Piece> := [];
    NothingPlaced(content, images, matched, rendered);
    OrderBefore(content, images, 0, |images|);
    for k := 0 to |images|
      invariant InOrder(content, images, k) && Cursor(images, k) <= |content| && |pieces| == k
      invariant Placed(images[..k], matched, pieces)
      invariant out == Alternating(Between(content), AllShown(content, images, pieces, rendered), k)
      invariant forall a: nat :: a in seen <==> Refers(images, matched, k, a)
    {
      OrderBefore(content, images, k + 1, |images|);
      PartAt(content, images, k, |images|);
      var a := matched(images[k]);
      var piece := if a.None? then Itself else if a.value in seen then Nothing else Attached(a.value);
      PlacedNext(images, matched, pieces, piece, k);
      ShownNext(content, images, pieces, piece, rendered, Between(content), k);
      RefersNext(images, matched, k);
      out := out + content[Cursor(images, k)..images[k].start] + Shown(content, images[k], piece, rendered);
      pieces := pieces + [piece];
      if a.Some? { seen := seen + {a.value}; }
    }
    assert images[..|images|] == images;
    PlacedOnce(images, matched, pieces);
  }

  lemma PlacedOnce(images: seq<Image>, matched: Matcher, pieces: seq<Piece>)
    requires Placed(images, matched, pieces)
    ensures pieces == PiecesOf(images, matched)
  {
  }

  lemma PlacedNext(images: seq<Image>, matched: Matcher, pieces: seq<Piece>, piece: Piece, k: nat)
    requires k < |images| && Placed(images[..k], matched, pieces) && piece == PieceAt(images, matched, k)
    ensures Placed(images[..k + 1], matched, pieces + [piece])
  {
  }

  lemma ShownNext(text: Text, images: seq<Image>, pieces: seq<Piece>, piece: Piece, rendered: seq<Text>,
      gaps: seq<Text>, k: nat)
    requires k == |pieces| < |images| && |gaps| == |images| + 1
    requires forall image :: image in images ==> Token(text, image)
    ensures Alternating(gaps, AllShown(text, images, pieces + [piece], rendered), k + 1)
            == Alternating(gaps, AllShown(text, images, pieces, rendered), k) + gaps[k]
               + Shown(text, images[k], piece, rendered)
  {
    hide Alternating, Shown, Token;
    var before, now := AllShown(text, images, pieces, rendered), AllShown(text, images, pieces + [piece], rendered);
    assert now == before + [Shown(text, images[k], piece, rendered)];
    AlternatingNext(gaps, now, k);
    AlternatingOfFirstOther(gaps, before, now[k], k);
  }

  lemma {:induction false} AlternatingOfFirstOther(gaps: seq<Text>, others: seq<Text>, other: Text, k: nat)
    requires k <= |gaps| && k <= |others|
    ensures Alternating(gaps, others + [other], k) == Alternating(gaps, others, k)
  {
    if k > 0 { AlternatingOfFirstOther(gaps, others, other, k - 1); }
  }

  lemma RefersNext(images: seq<Image>, matched: Matcher, k: nat)
    requires k < |images|
    ensures forall a: nat :: Refers(images, matched, k + 1, a) <==>
              Refers(images, matched, k, a) || matched(images[k]) == Some(a)
  {
  }

  lemma NothingPlaced(text: Text, images: seq<Image>, matched: Matcher, rendered: seq<Text>)
    ensures Placed(images[..0], matched, [])
    ensures Alternating(Between(text), AllShown(text, images, [], rendered), 0) == []
    ensures forall a: nat :: !Refers(images, matched, 0, a)
  {
  }

  /** The attachments that were not shown follow, in order. */
  method Append(images: seq<Image>, matched: Matcher, rendered: seq<Text>, seen: set<nat>) returns (out: Text)
    requires forall a: nat :: a in seen <==> Refers(images, matched, |images|, a)
    ensures out == Join(Below(rendered, UnplacedOf(images, matched, |rendered|)))
  {
    hide Refers, Below, Join;
    NothingBelow(rendered);
    out := [];
    for a := 0 to |rendered|
      invariant out == Join(Below(rendered, UnplacedOf(images, matched, a)))
    {
      if a !in seen {
        BelowNext(rendered, UnplacedOf(images, matched, a), a);
        out := out + [LF, LF] + rendered[a];
      }
    }
  }

  lemma NothingBelow(rendered: seq<Text>)
    ensures Join(Below(rendered, [])) == []
  {
  }

  lemma BelowNext(rendered: seq<Text>, below: seq<nat>, a: nat)
    requires a < |rendered| && forall i :: 0 <= i < |below| ==> below[i] < |rendered|
    ensures Join(Below(rendered, below + [a])) == Join(Below(rendered, below)) + [LF, LF] + rendered[a]
  {
    hide Join;
    var before, one := Below(rendered, below), [LF, LF] + rendered[a];
    assert Below(rendered, below + [a]) == before + [one];
    JoinIsAssociative(before, [one]);
    assert Join([one]) == one by { JoinOne(one); }
  }

  lemma JoinOne(s: Text)
    ensures Join([s]) == s
  {
    assert Join([s][1..]) == [];
  }
}
