/** Replacing the images of a text, and fitting a text into a budget without cutting an image. */
module ImageTrimming {
  import opened Effects
  import opened Utf16
  import opened ReplyFences
  import opened ImageScanner

  // ---- A text as what is between its images, and the images ---------------------------

  /** Where the text goes on after the first `k` images. */
  function Cursor(images: seq<Image>, k: nat): nat
    requires k <= |images|
  {
    if k == 0 then 0 else images[k - 1].end
  }

  /** The first `k` images are in order, disjoint and in bounds. */
  predicate InOrder(text: Text, images: seq<Image>, k: nat)
    requires k <= |images|
  {
    k == 0 || (InOrder(text, images, k - 1) && Cursor(images, k - 1) <= images[k - 1].start &&
        Token(text, images[k - 1]))
  }

  lemma {:induction false} FoundInOrder(text: Text, images: seq<Image>, k: nat)
    requires k <= |images| && Ordered(text, images, 0)
    ensures InOrder(text, images, k)
  {
    if k > 0 {
      FoundInOrder(text, images, k - 1);
      OrderedToken(text, images, 0, k - 1);
      if k > 1 { OrderedMeans(text, images, 0, k - 2, k - 1); }
    }
  }

  lemma {:induction false} OrderedToken(text: Text, images: seq<Image>, from: nat, k: nat)
    requires Ordered(text, images, from) && k < |images|
    ensures Token(text, images[k]) && from <= images[k].start
    decreases images
  {
    if k > 0 { OrderedToken(text, images[1..], images[0].end, k - 1); }
  }

  lemma {:induction false} OrderBefore(text: Text, images: seq<Image>, j: nat, k: nat)
    requires j <= k <= |images| && InOrder(text, images, k)
    ensures InOrder(text, images, j) && Cursor(images, j) <= |text|
    decreases k
  {
    if j < k { OrderBefore(text, images, j, k - 1); }
  }

  /** What is before each of the first `k` images, since the one before it. */
  function Gaps(text: Text, images: seq<Image>, k: nat): (r: seq<Text>)
    requires k <= |images| && InOrder(text, images, k)
    ensures |r| == k
  {
    if k == 0 then []
    else
      OrderBefore(text, images, k - 1, k);
      Gaps(text, images, k - 1) + [text[Cursor(images, k - 1)..images[k - 1].start]]
  }

  /** The tokens of the first `k` images. */
  function Pictures(text: Text, images: seq<Image>, k: nat): (r: seq<Text>)
    requires k <= |images| && InOrder(text, images, k)
    ensures |r| == k
  {
    if k == 0 then [] else Pictures(text, images, k - 1) + [text[images[k - 1].start..images[k - 1].end]]
  }

  /** What is behind the last image. */
  function Tail(text: Text, images: seq<Image>): Text
    requires InOrder(text, images, |images|)
  {
    OrderBefore(text, images, |images|, |images|);
    text[Cursor(images, |images|)..]
  }

  lemma Consecutive(text: Text, a: nat, b: nat, c: nat)
    requires a <= b <= c <= |text|
    ensures text[..a] + text[a..b] + text[b..c] == text[..c]
  {
  }

  // ---- Replacing --------------------------------------------------------------------

  function Alternating(gaps: seq<Text>, others: seq<Text>, k: nat): Text
    requires k <= |gaps| && k <= |others|
  {
    if k == 0 then [] else Alternating(gaps, others, k - 1) + gaps[k - 1] + others[k - 1]
  }

  lemma {:induction false} AlternatingOfPrefix(gaps: seq<Text>, others: seq<Text>, gap: Text, other: Text, k: nat)
    requires k <= |gaps| && k <= |others|
    ensures Alternating(gaps + [gap], others + [other], k) == Alternating(gaps, others, k)
  {
    if k > 0 { AlternatingOfPrefix(gaps, others, gap, other, k - 1); }
  }

  lemma {:induction false} AlternatingOfFirst(gaps: seq<Text>, gap: Text, others: seq<Text>, k: nat)
    requires k <= |gaps| && k <= |others|
    ensures Alternating(gaps + [gap], others, k) == Alternating(gaps, others, k)
  {
    if k > 0 { AlternatingOfFirst(gaps, gap, others, k - 1); }
  }

  /** The text in front of each image, and behind the last one. */
  function Between(text: Text): (r: seq<Text>)
    ensures |r| == |Images(text)| + 1
  {
    var images := Images(text);
    ImagesAreOrdered(text);
    FoundInOrder(text, images, |images|);
    Gaps(text, images, |images|) + [Tail(text, images)]
  }

  /** The images of the text, as they are written. */
  function Tokens(text: Text): (r: seq<Text>)
    ensures |r| == |Images(text)|
  {
    var images := Images(text);
    ImagesAreOrdered(text);
    FoundInOrder(text, images, |images|);
    Pictures(text, images, |images|)
  }

  /** The text is what is between its images and these, one after the other. */
  lemma PartsMakeText(text: Text)
    ensures text == Alternating(Between(text), Tokens(text), |Tokens(text)|) + Between(text)[|Tokens(text)|]
  {
    hide Images, Alternating, Gaps, Pictures, Tail;
    var images := Images(text);
    var n := |images|;
    ImagesAreOrdered(text);
    FoundInOrder(text, images, n);
    OrderBefore(text, images, n, n);
    AlternatingOfFirst(Gaps(text, images, n), Tail(text, images), Tokens(text), n);
    PartsMake(text, images, n);
    TailIs(text, images);
  }

  lemma TailIs(text: Text, images: seq<Image>)
    requires InOrder(text, images, |images|)
    ensures Cursor(images, |images|) <= |text| && Tail(text, images) == text[Cursor(images, |images|)..]
  {
    OrderBefore(text, images, |images|, |images|);
  }

  lemma LastParts(text: Text, images: seq<Image>, k: nat)
    requires 0 < k <= |images| && InOrder(text, images, k)
    ensures InOrder(text, images, k - 1)
    ensures Cursor(images, k - 1) <= images[k - 1].start <= images[k - 1].end == Cursor(images, k) <= |text|
    ensures Gaps(text, images, k) ==
              Gaps(text, images, k - 1) + [text[Cursor(images, k - 1)..images[k - 1].start]]
    ensures Pictures(text, images, k) ==
              Pictures(text, images, k - 1) + [text[images[k - 1].start..images[k - 1].end]]
  {
    OrderBefore(text, images, k - 1, k);
  }

  lemma {:induction false} PartsMake(text: Text, images: seq<Image>, k: nat)
    requires k <= |images| && InOrder(text, images, k)
    ensures Cursor(images, k) <= |text|
    ensures Alternating(Gaps(text, images, k), Pictures(text, images, k), k) == text[..Cursor(images, k)]
  {
    if k > 0 {
      hide InOrder, Token, Gaps, Pictures, Cursor, Alternating;
      LastParts(text, images, k);
      PartsMake(text, images, k - 1);
      var gap, own := text[Cursor(images, k - 1)..images[k - 1].start], text[images[k - 1].start..images[k - 1].end];
      AlternatingOfPrefix(Gaps(text, images, k - 1), Pictures(text, images, k - 1), gap, own, k - 1);
      Consecutive(text, Cursor(images, k - 1), images[k - 1].start, images[k - 1].end);
    }
  }

  lemma {:induction false} PartAt(text: Text, images: seq<Image>, k: nat, n: nat)
    requires k < n <= |images| && InOrder(text, images, n)
    ensures InOrder(text, images, k + 1) && Cursor(images, k) <= images[k].start && Token(text, images[k])
    ensures Gaps(text, images, n)[k] == text[Cursor(images, k)..images[k].start]
    ensures Pictures(text, images, n)[k] == text[images[k].start..images[k].end]
    decreases n
  {
    if k < n - 1 { PartAt(text, images, k, n - 1); }
  }

  /** What takes the place of each image. */
  function Each(images: seq<Image>, f: Image -> Text): (r: seq<Text>)
    ensures |r| == |images| && forall j :: 0 <= j < |r| ==> r[j] == f(images[j])
  {
    seq(|images|, j requires 0 <= j < |images| => f(images[j]))
  }

  /** `replaceMarkdownImages` changes the images and nothing else. */
  method ReplaceMarkdownImages(text: Text, replace: Image -> Text) returns (out: Text)
    ensures var n := |Images(text)|;
            out == Alternating(Between(text), Each(Images(text), replace), n) + Between(text)[n]
  {
    hide Images, Alternating, Gaps, Token;
    var images := MarkdownImages(text);
    FoundInOrder(text, images, |images|);
    OrderBefore(text, images, 0, |images|);
    ghost var others := Each(images, replace);
    AlternatingNone(Between(text), others);
    out := [];
    var cursor: nat := 0;
    for k := 0 to |images|
      invariant InOrder(text, images, k) && cursor == Cursor(images, k) <= |text|
      invariant out == Alternating(Between(text), others, k)
    {
      OrderBefore(text, images, k + 1, |images|);
      PartAt(text, images, k, |images|);
      AlternatingNext(Between(text), others, k);
      out := out + text[cursor..images[k].start] + replace(images[k]);
      cursor := images[k].end;
    }
    TailIs(text, images);
    out := out + text[cursor..];
  }

  lemma AlternatingNext(gaps: seq<Text>, others: seq<Text>, k: nat)
    requires k < |gaps| && k < |others|
    ensures Alternating(gaps, others, k + 1) == Alternating(gaps, others, k) + gaps[k] + others[k]
  {
  }

  lemma AlternatingNone(gaps: seq<Text>, others: seq<Text>)
    ensures Alternating(gaps, others, 0) == []
  {
  }

  /** Replacing every image by itself gives back the text. */
  lemma ReplacingByItself(text: Text, f: Image -> Text)
    requires forall image :: Token(text, image) ==> f(image) == text[image.start..image.end]
    ensures var n := |Images(text)|; Alternating(Between(text), Each(Images(text), f), n) + Between(text)[n] == text
  {
    hide Images, Alternating, Gaps;
    var images := Images(text);
    ImagesAreOrdered(text);
    FoundInOrder(text, images, |images|);
    forall j | 0 <= j < |images| ensures Each(images, f)[j] == Tokens(text)[j] { PartAt(text, images, j, |images|); }
    assert Each(images, f) == Tokens(text);
    PartsMakeText(text);
  }

  // ---- Trimming ---------------------------------------------------------------------

  /** What the images kept among the first `k` measure: each is kept if it still fits. */
  function Spent(m: Measure, pictures: seq<Text>, budget: nat, k: nat): (r: nat)
    requires k <= |pictures|
    ensures r <= budget
  {
    if k == 0 then 0
    else
      var before := Spent(m, pictures, budget, k - 1);
      if before + Size(m, pictures[k - 1]) <= budget then before + Size(m, pictures[k - 1]) else before
  }

  /** What remains of an image; a dropped one leaves nothing. */
  function Keep(m: Measure, pictures: seq<Text>, budget: nat, k: nat): Text
    requires k < |pictures|
  {
    if Spent(m, pictures, budget, k) + Size(m, pictures[k]) <= budget then pictures[k] else []
  }

  /** The room left after the first `k` gaps took what fits. */
  function Room(m: Measure, gaps: seq<Text>, room: nat, k: nat): int
    requires k <= |gaps|
  {
    if k == 0 then room
    else
      var before := Room(m, gaps, room, k - 1);
      before - Size(m, Take(m, gaps[k - 1], before))
  }

  lemma {:induction false} RoomIsLeft(m: Measure, gaps: seq<Text>, room: nat, k: nat)
    requires k <= |gaps|
    ensures 0 <= Room(m, gaps, room, k) <= room
  {
    if k > 0 {
      RoomIsLeft(m, gaps, room, k - 1);
      TakeFacts(m, gaps[k - 1], Room(m, gaps, room, k - 1));
    }
  }

  /** The first `k` gaps, as far as they fit, each with what remains of its image. */
  function Woven(m: Measure, gaps: seq<Text>, pictures: seq<Text>, budget: nat, room: nat, k: nat): Text
    requires k <= |gaps| == |pictures|
  {
    if k == 0 then []
    else
      Woven(m, gaps, pictures, budget, room, k - 1) + Take(m, gaps[k - 1], Room(m, gaps, room, k - 1))
      + Keep(m, pictures, budget, k - 1)
  }

  function TrimmedTo(m: Measure, gaps: seq<Text>, tail: Text, pictures: seq<Text>, budget: nat): Text
    requires |gaps| == |pictures|
  {
    var room := budget - Spent(m, pictures, budget, |pictures|);
    Woven(m, gaps, pictures, budget, room, |gaps|) + Take(m, tail, Room(m, gaps, room, |gaps|))
  }

  function Trimmed(m: Measure, text: Text, budget: int): Text {
    if budget <= 0 then []
    else
      ImagesAreOrdered(text);
      FoundInOrder(text, Images(text), |Images(text)|);
      TrimmedAround(m, text, Images(text), budget)
  }

  function TrimmedAround(m: Measure, text: Text, images: seq<Image>, budget: nat): Text
    requires InOrder(text, images, |images|)
  {
    TrimmedTo(m, Gaps(text, images, |images|), Tail(text, images), Pictures(text, images, |images|), budget)
  }

  lemma ThreeJoined(m: Measure, a: Text, b: Text, c: Text, x: nat, y: nat, z: nat)
    requires Size(m, a) <= x && Size(m, b) <= y && Size(m, c) <= z
    ensures Size(m, a + b + c) <= x + y + z
  {
    JoinedIsNoLarger(m, a, b);
    JoinedIsNoLarger(m, a + b, c);
  }

  lemma KeepMeasures(m: Measure, pictures: seq<Text>, budget: nat, k: nat)
    requires k < |pictures|
    ensures Spent(m, pictures, budget, k + 1) == Spent(m, pictures, budget, k) + Size(m, Keep(m, pictures, budget, k))
  {
  }

  lemma {:induction false} WovenFits(m: Measure, gaps: seq<Text>, pictures: seq<Text>, budget: nat, room: nat, k: nat)
    requires k <= |gaps| == |pictures|
    ensures 0 <= Room(m, gaps, room, k) <= room
    ensures Size(m, Woven(m, gaps, pictures, budget, room, k)) <= room - Room(m, gaps, room, k)
              + Spent(m, pictures, budget, k)
  {
    hide Size, Take;
    SizeOfNothing(m);
    if k > 0 {
      WovenFits(m, gaps, pictures, budget, room, k - 1);
      var left, spent := Room(m, gaps, room, k - 1), Spent(m, pictures, budget, k - 1);
      var before, between := Woven(m, gaps, pictures, budget, room, k - 1), Take(m, gaps[k - 1], left);
      var kept := Keep(m, pictures, budget, k - 1);
      RoomIsLeft(m, gaps, room, k);
      KeepMeasures(m, pictures, budget, k - 1);
      ThreeJoined(m, before, between, kept, room - left + spent, Size(m, between), Size(m, kept));
    }
  }

  lemma WithTailFits(m: Measure, woven: Text, tail: Text, left: nat, budget: nat)
    requires Size(m, woven) + left <= budget
    ensures Size(m, woven + Take(m, tail, left)) <= budget
  {
    TakeFacts(m, tail, left);
    JoinedIsNoLarger(m, woven, Take(m, tail, left));
  }

  lemma TrimmedToFits(m: Measure, gaps: seq<Text>, tail: Text, pictures: seq<Text>, budget: nat)
    requires |gaps| == |pictures|
    ensures Size(m, TrimmedTo(m, gaps, tail, pictures, budget)) <= budget
  {
    hide Size, Take, Room, Woven, Spent;
    var n := |gaps|;
    var room := budget - Spent(m, pictures, budget, n);
    WovenFits(m, gaps, pictures, budget, room, n);
    WithTailFits(m, Woven(m, gaps, pictures, budget, room, n), tail, Room(m, gaps, room, n), budget);
  }

  /** Trimming stays within the budget. */
  lemma TrimmedFits(m: Measure, text: Text, budget: int)
    ensures Size(m, Trimmed(m, text, budget)) <= if budget < 0 then 0 else budget
  {
    if budget > 0 {
      var images := Images(text);
      ImagesAreOrdered(text);
      FoundInOrder(text, images, |images|);
      TrimmedToFits(m, Gaps(text, images, |images|), Tail(text, images), Pictures(text, images, |images|), budget);
    }
  }

  /** `t` is as much of `s` as the room holds: the next code point would not fit. */
  predicate LongestWithin(m: Measure, s: Text, room: int, t: Text) {
    && t <= s && Boundary(s, |t|) && Size(m, t) <= room
    && (t == s || CharSize(m, s[|t|..]) > room - Size(m, t))
  }

  lemma OneMoreIsLongest(m: Measure, s: Text, room: nat, more: Text)
    requires s != [] && CharSize(m, s) <= room
    requires LongestWithin(m, s[CharLen(s)..], room - CharSize(m, s), more)
    ensures LongestWithin(m, s, room, s[..CharLen(s)] + more)
  {
    hide CharSize;
    var n := CharLen(s);
    HeadOnto(m, s, more);
    assert Size(m, s[..n] + more) == CharSize(m, s) + Size(m, more);
    assert s[n..][|more|..] == s[n + |more|..];
  }

  lemma {:induction false} TakeIsLongest(m: Measure, s: Text, room: nat)
    ensures LongestWithin(m, s, room, Take(m, s, room))
    decreases |s|
  {
    if s == [] || CharSize(m, s) > room {
      SizeOfNothing(m);
    } else {
      hide LongestWithin, CharSize, CharLen;
      TakeIsLongest(m, s[CharLen(s)..], room - CharSize(m, s));
      OneMoreIsLongest(m, s, room, Take(m, s[CharLen(s)..], room - CharSize(m, s)));
    }
  }

  /** One image after another is kept if it fits beside those kept before it. */
  predicate KeptGreedily(m: Measure, pictures: seq<Text>, kept: seq<Text>, budget: nat) {
    && |kept| <= |pictures|
    && forall j :: 0 <= j < |kept| ==>
         kept[j] == if Total(m, kept[..j]) + Size(m, pictures[j]) <= budget then pictures[j] else []
  }

  /** The gaps take, one after another, as much as the room that the earlier ones left holds. */
  predicate FilledGreedily(m: Measure, gaps: seq<Text>, betweens: seq<Text>, room: int) {
    && |betweens| <= |gaps|
    && forall j :: 0 <= j < |betweens| ==> LongestWithin(m, gaps[j], room - Total(m, betweens[..j]), betweens[j])
  }

  lemma KeptMore(m: Measure, pictures: seq<Text>, kept: seq<Text>, budget: nat, picture: Text)
    requires KeptGreedily(m, pictures, kept, budget) && |kept| < |pictures|
    requires picture == if Total(m, kept) + Size(m, pictures[|kept|]) <= budget then pictures[|kept|] else []
    ensures KeptGreedily(m, pictures, kept + [picture], budget)
    ensures Total(m, kept + [picture]) == Total(m, kept) + Size(m, picture)
  {
    hide Size, Total;
    var now := kept + [picture];
    forall j | 0 <= j < |now|
      ensures now[j] == if Total(m, now[..j]) + Size(m, pictures[j]) <= budget then pictures[j] else []
    {
      assert now[..j] == kept[..j];
      assert kept[..|kept|] == kept;
    }
    LastOfTotal(m, kept, picture);
  }

  lemma FilledMore(m: Measure, gaps: seq<Text>, betweens: seq<Text>, room: int, between: Text)
    requires FilledGreedily(m, gaps, betweens, room) && |betweens| < |gaps|
    requires LongestWithin(m, gaps[|betweens|], room - Total(m, betweens), between)
    ensures FilledGreedily(m, gaps, betweens + [between], room)
    ensures Total(m, betweens + [between]) == Total(m, betweens) + Size(m, between)
  {
    hide Size, Total, LongestWithin;
    var now := betweens + [between];
    forall j | 0 <= j < |now| ensures LongestWithin(m, gaps[j], room - Total(m, now[..j]), now[j]) {
      if j < |betweens| {
        assert now[..j] == betweens[..j] && now[j] == betweens[j];
      } else {
        assert now[..j] == betweens && now[j] == between;
      }
    }
    LastOfTotal(m, betweens, between);
  }

  lemma {:induction false} WovenIsGreedy(m: Measure, gaps: seq<Text>, pictures: seq<Text>, budget: nat, room: nat,
      k: nat)
    returns (betweens: seq<Text>, kept: seq<Text>)
    requires k <= |gaps| == |pictures|
    ensures |betweens| == |kept| == k
    ensures KeptGreedily(m, pictures, kept, budget) && Total(m, kept) == Spent(m, pictures, budget, k)
    ensures FilledGreedily(m, gaps, betweens, room) && Total(m, betweens) == room - Room(m, gaps, room, k)
    ensures Woven(m, gaps, pictures, budget, room, k) == Alternating(betweens, kept, k)
  {
    hide Size, Take, KeptGreedily, FilledGreedily, LongestWithin;
    if k == 0 {
      betweens, kept := [], [];
      NothingIsGreedy(m, gaps, pictures, budget, room);
    } else {
      var b, c := WovenIsGreedy(m, gaps, pictures, budget, room, k - 1);
      var left := Room(m, gaps, room, k - 1);
      var between, picture := Take(m, gaps[k - 1], left), Keep(m, pictures, budget, k - 1);
      RoomIsLeft(m, gaps, room, k - 1);
      TakeIsLongest(m, gaps[k - 1], left);
      SizeOfNothing(m);
      KeptMore(m, pictures, c, budget, picture);
      FilledMore(m, gaps, b, room, between);
      AlternatingOfPrefix(b, c, between, picture, k - 1);
      betweens, kept := b + [between], c + [picture];
    }
  }

  lemma NothingIsGreedy(m: Measure, gaps: seq<Text>, pictures: seq<Text>, budget: nat, room: int)
    ensures KeptGreedily(m, pictures, [], budget) && FilledGreedily(m, gaps, [], room)
  {
  }

  /** Which images are kept, and how much of the text: no room is given up that a part in its turn could have had. */
  predicate Greedy(m: Measure, gaps: seq<Text>, pictures: seq<Text>, betweens: seq<Text>, kept: seq<Text>,
      budget: nat) {
    && |betweens| == |gaps| && |kept| == |pictures|
    && KeptGreedily(m, pictures, kept, budget) && FilledGreedily(m, gaps, betweens, budget - Total(m, kept))
  }

  lemma {:induction false} FilledPrefix(m: Measure, gaps: seq<Text>, gap: Text, betweens: seq<Text>, room: int)
    requires FilledGreedily(m, gaps, betweens, room) && |gaps| == |betweens|
    ensures FilledGreedily(m, gaps + [gap], betweens, room)
  {
  }

  lemma TrimmedToIsGreedy(m: Measure, gaps: seq<Text>, tail: Text, pictures: seq<Text>, budget: nat)
    returns (betweens: seq<Text>, kept: seq<Text>)
    requires |gaps| == |pictures|
    ensures Greedy(m, gaps + [tail], pictures, betweens, kept, budget)
    ensures TrimmedTo(m, gaps, tail, pictures, budget) == Alternating(betweens, kept, |gaps|) + betweens[|gaps|]
  {
    hide Woven, Room, Take, Spent, Size, Total, KeptGreedily, FilledGreedily, LongestWithin;
    var n := |gaps|;
    var room := budget - Spent(m, pictures, budget, n);
    var b;
    b, kept := WovenIsGreedy(m, gaps, pictures, budget, room, n);
    var left := Room(m, gaps, room, n);
    RoomIsLeft(m, gaps, room, n);
    TakeIsLongest(m, tail, left);
    FilledPrefix(m, gaps, tail, b, room);
    FilledMore(m, gaps + [tail], b, room, Take(m, tail, left));
    betweens := b + [Take(m, tail, left)];
    AlternatingOfFirst(b, Take(m, tail, left), kept, n);
  }

  /** What trimming keeps, for any text and budget; no image is ever cut. */
  lemma TrimmedIsGreedy(m: Measure, text: Text, budget: nat) returns (betweens: seq<Text>, kept: seq<Text>)
    requires budget > 0
    ensures Greedy(m, Between(text), Tokens(text), betweens, kept, budget)
    ensures Trimmed(m, text, budget) == Alternating(betweens, kept, |kept|) + betweens[|kept|]
  {
    hide Images, TrimmedTo, Alternating, Greedy, Gaps, Pictures, Tail;
    var images := Images(text);
    ImagesAreOrdered(text);
    FoundInOrder(text, images, |images|);
    betweens, kept := TrimmedToIsGreedy(
      m, Gaps(text, images, |images|), Tail(text, images), Pictures(text, images, |images|), budget);
    GreedyLengths(m, Between(text), Tokens(text), betweens, kept, budget);
  }

  lemma GreedyLengths(m: Measure, gaps: seq<Text>, pictures: seq<Text>, betweens: seq<Text>, kept: seq<Text>,
      budget: nat)
    requires Greedy(m, gaps, pictures, betweens, kept, budget)
    ensures |betweens| == |gaps| && |kept| == |pictures|
  {
  }

  /** Beside what is kept there is no room for any image that was dropped. */
  lemma DroppedDoesNotFit(m: Measure, gaps: seq<Text>, pictures: seq<Text>, betweens: seq<Text>, kept: seq<Text>,
      budget: nat, j: nat)
    requires Greedy(m, gaps, pictures, betweens, kept, budget) && j < |pictures| && kept[j] != pictures[j]
    ensures kept[j] == [] && Total(m, kept) + Size(m, pictures[j]) > budget
  {
    hide Size, Total, FilledGreedily;
    SplitTotal(m, kept, j);
  }

  /** Once any text is cut, less than the largest code point remains of the budget. */
  lemma CutLeavesLittle(m: Measure, gaps: seq<Text>, pictures: seq<Text>, betweens: seq<Text>, kept: seq<Text>,
      budget: nat, j: nat)
    requires Greedy(m, gaps, pictures, betweens, kept, budget) && j < |gaps| && betweens[j] != gaps[j]
    ensures budget - 4 < Total(m, kept) + Total(m, betweens) <= budget
  {
    hide Size, Total, KeptGreedily;
    var room, n := budget - Total(m, kept), |betweens|;
    SplitTotal(m, betweens, j);
    assert LongestWithin(m, gaps[j], room - Total(m, betweens[..j]), betweens[j]);
    assert betweens[..n] == betweens && betweens[..n - 1] + [betweens[n - 1]] == betweens;
    SplitTotal(m, betweens, n);
    assert LongestWithin(m, gaps[n - 1], room - Total(m, betweens[..n - 1]), betweens[n - 1]);
  }

  lemma LastOfTotal(m: Measure, parts: seq<Text>, last: Text)
    ensures Total(m, parts + [last]) == Total(m, parts) + Size(m, last)
  {
    TotalIsAdditive(m, parts, [last]);
    assert Total(m, [last]) == Size(m, last) + Total(m, [last][1..]);
  }

  /** Gaps and images add up to the size of the text: no surrogate pair lies across a seam. */
  lemma {:induction false} PartsAddUp(m: Measure, text: Text, images: seq<Image>, k: nat)
    requires k <= |images| && InOrder(text, images, k)
    ensures Cursor(images, k) <= |text|
    ensures Total(m, Gaps(text, images, k)) + Total(m, Pictures(text, images, k)) + Size(m, text[Cursor(images, k)..])
              == Size(m, text)
  {
    hide Size;
    SizeOfNothing(m);
    if k == 0 {
      assert text[0..] == text;
    } else {
      PartsAddUp(m, text, images, k - 1);
      var gap, own := text[Cursor(images, k - 1)..images[k - 1].start], text[images[k - 1].start..images[k - 1].end];
      SizeAround(m, text, Cursor(images, k - 1), images[k - 1]);
      LastOfTotal(m, Gaps(text, images, k - 1), gap);
      LastOfTotal(m, Pictures(text, images, k - 1), own);
    }
  }

  lemma SizeAround(m: Measure, text: Text, cursor: nat, image: Image)
    requires Token(text, image) && cursor <= image.start
    ensures Size(m, text[cursor..]) ==
            Size(m, text[cursor..image.start]) + Size(m, text[image.start..image.end]) + Size(m, text[image.end..])
  {
    var a, b, c := text[cursor..image.start], text[image.start..image.end], text[image.end..];
    assert a + (b + c) == text[cursor..];
    SizeOfThree(m, a, b, c);
  }

  lemma SizeOfThree(m: Measure, a: Text, b: Text, c: Text)
    requires b != [] && b[0] == BANG && b[|b| - 1] == RIGHT_PAREN
    ensures Size(m, a + (b + c)) == Size(m, a) + Size(m, b) + Size(m, c)
  {
    assert (b + c)[0] == BANG;
    SizeOfJoined(m, a, b + c);
    SizeOfJoined(m, b, c);
  }

  lemma {:induction false} AllKept(m: Measure, pictures: seq<Text>, budget: nat, k: nat)
    requires k <= |pictures| && Total(m, pictures) <= budget
    ensures Spent(m, pictures, budget, k) == Total(m, pictures[..k])
    ensures k < |pictures| ==> Keep(m, pictures, budget, k) == pictures[k]
  {
    SplitTotal(m, pictures, k);
    if k > 0 { AllKept(m, pictures, budget, k - 1); }
  }

  lemma SplitTotal(m: Measure, parts: seq<Text>, k: nat)
    requires k <= |parts|
    ensures k > 0 ==> Total(m, parts[..k]) == Total(m, parts[..k - 1]) + Size(m, parts[k - 1])
    ensures k < |parts| ==> Total(m, parts[..k]) + Size(m, parts[k]) <= Total(m, parts)
    ensures Total(m, parts[..k]) <= Total(m, parts)
  {
    assert parts == parts[..k] + parts[k..];
    TotalIsAdditive(m, parts[..k], parts[k..]);
    if k > 0 {
      assert parts[..k] == parts[..k - 1] + [parts[k - 1]];
      LastOfTotal(m, parts[..k - 1], parts[k - 1]);
    }
  }

  lemma {:induction false} AllFilled(m: Measure, gaps: seq<Text>, room: nat, k: nat)
    requires k <= |gaps| && Total(m, gaps) <= room
    ensures Room(m, gaps, room, k) == room - Total(m, gaps[..k])
    ensures k < |gaps| ==> Take(m, gaps[k], Room(m, gaps, room, k)) == gaps[k]
  {
    SplitTotal(m, gaps, k);
    if k > 0 { AllFilled(m, gaps, room, k - 1); }
    if k < |gaps| { TakeFacts(m, gaps[k], Room(m, gaps, room, k)); }
  }

  /** When everything fits, everything is kept. */
  lemma {:induction false} AllWoven(m: Measure, text: Text, images: seq<Image>, budget: nat, room: nat, k: nat)
    requires k <= |images| && InOrder(text, images, |images|)
    requires Total(m, Pictures(text, images, |images|)) <= budget && Total(m, Gaps(text, images, |images|)) <= room
    ensures Cursor(images, k) <= |text|
    ensures Woven(m, Gaps(text, images, |images|), Pictures(text, images, |images|), budget, room, k)
              == text[..Cursor(images, k)]
  {
    hide Total, Take, Spent, Room, Gaps, Pictures, Size, Keep, InOrder;
    if k > 0 {
      var gaps, pictures := Gaps(text, images, |images|), Pictures(text, images, |images|);
      AllWoven(m, text, images, budget, room, k - 1);
      AllKept(m, pictures, budget, k - 1);
      AllFilled(m, gaps, room, k - 1);
      PartAt(text, images, k - 1, |images|);
      Consecutive(text, Cursor(images, k - 1), images[k - 1].start, images[k - 1].end);
    }
  }

  /** Nothing is trimmed from a text that fits. */
  lemma NothingTrimmed(m: Measure, text: Text, budget: int)
    requires Size(m, text) <= budget
    ensures Trimmed(m, text, budget) == text
  {
    if budget > 0 {
      var images := Images(text);
      ImagesAreOrdered(text);
      FoundInOrder(text, images, |images|);
      NothingTrimmedAround(m, text, images, budget);
    }
  }

  lemma NothingTrimmedAround(m: Measure, text: Text, images: seq<Image>, budget: nat)
    requires InOrder(text, images, |images|) && Size(m, text) <= budget
    ensures TrimmedAround(m, text, images, budget) == text
  {
    hide Size, Take, Room, Woven, Spent, Total, Gaps, Pictures;
    var n := |images|;
    var gaps, pictures := Gaps(text, images, n), Pictures(text, images, n);
    PartsAddUp(m, text, images, n);
    AllTaken(m, gaps, Tail(text, images), pictures, budget);
    AllWoven(m, text, images, budget, budget - Total(m, pictures), n);
  }

  lemma AllTaken(m: Measure, gaps: seq<Text>, tail: Text, pictures: seq<Text>, budget: nat)
    requires |gaps| == |pictures| && Total(m, gaps) + Total(m, pictures) + Size(m, tail) <= budget
    ensures TrimmedTo(m, gaps, tail, pictures, budget)
            == Woven(m, gaps, pictures, budget, budget - Total(m, pictures), |gaps|) + tail
  {
    hide Woven, Size, Take;
    AllKept(m, pictures, budget, |pictures|);
    assert pictures[..|pictures|] == pictures && gaps[..|gaps|] == gaps;
    var room := budget - Total(m, pictures);
    AllFilled(m, gaps, room, |gaps|);
    TakeFacts(m, tail, Room(m, gaps, room, |gaps|));
  }

  // ---- Trimming, as loops -------------------------------------------------------------

  /** What is left of the room after taking as much as fits. */
  function Left(m: Measure, s: Text, room: nat): (r: nat)
    decreases |s|
  {
    if s == [] || CharSize(m, s) > room then room else Left(m, s[CharLen(s)..], room - CharSize(m, s))
  }

  lemma {:induction false} LeftIsTheRest(m: Measure, s: Text, room: nat)
    ensures Left(m, s, room) == room - Size(m, Take(m, s, room))
    decreases |s|
  {
    if s != [] && CharSize(m, s) <= room {
      var n := CharLen(s);
      LeftIsTheRest(m, s[n..], room - CharSize(m, s));
      TakeFacts(m, s[n..], room - CharSize(m, s));
      HeadOnto(m, s, Take(m, s[n..], room - CharSize(m, s)));
    }
  }

  /** `take`: as many code points as fit, and the room they leave. */
  method TakeWithin(m: Measure, value: Text, room: nat) returns (result: Text, remaining: nat)
    ensures result == Take(m, value, room) && remaining == room - Size(m, result)
  {
    result, remaining := [], room;
    var rest := value;
    while rest != []
      invariant result + Take(m, rest, remaining) == Take(m, value, room)
      invariant Left(m, rest, remaining) == Left(m, value, room)
      decreases |rest|
    {
      var size, n := CharSize(m, rest), CharLen(rest);
      if size > remaining { break; }
      ghost var taken := Take(m, rest[n..], remaining - size);
      assert result + (rest[..n] + taken) == result + rest[..n] + taken;
      result, remaining, rest := result + rest[..n], remaining - size, rest[n..];
    }
    LeftIsTheRest(m, value, room);
  }

  /** The images to keep and what they measure. */
  method RetainImages(m: Measure, pictures: seq<Text>, budget: nat) returns (kept: seq<Text>, imageSize: nat)
    ensures imageSize == Spent(m, pictures, budget, |pictures|) && |kept| == |pictures|
    ensures forall j :: 0 <= j < |kept| ==> kept[j] == Keep(m, pictures, budget, j)
  {
    kept, imageSize := [], 0;
    for k := 0 to |pictures|
      invariant imageSize == Spent(m, pictures, budget, k) && |kept| == k
      invariant forall j :: 0 <= j < k ==> kept[j] == Keep(m, pictures, budget, j)
    {
      var size := Size(m, pictures[k]);
      if imageSize + size <= budget {
        kept, imageSize := kept + [pictures[k]], imageSize + size;
      } else {
        kept := kept + [[]];
      }
    }
  }

  /** `trimImageMarkdown`. */
  method TrimImageMarkdown(m: Measure, text: Text, budget: int) returns (out: Text)
    ensures out == Trimmed(m, text, budget)
    ensures budget <= 0 ==> out == []
  {
    if budget <= 0 { return []; }
    var images := MarkdownImages(text);
    FoundInOrder(text, images, |images|);
    out := TrimAround(m, text, images, budget);
  }

  method TrimAround(m: Measure, text: Text, images: seq<Image>, budget: nat) returns (out: Text)
    requires InOrder(text, images, |images|)
    ensures out == TrimmedAround(m, text, images, budget)
  {
    var gaps, pictures := Gaps(text, images, |images|), Pictures(text, images, |images|);
    var kept, imageSize := RetainImages(m, pictures, budget);
    out := FillGaps(m, gaps, Tail(text, images), pictures, kept, budget, budget - imageSize);
  }

  /** As much text as fits, and the kept images in their places. */
  method FillGaps(m: Measure, gaps: seq<Text>, tail: Text, ghost pictures: seq<Text>, kept: seq<Text>,
      ghost budget: nat, room: nat)
    returns (out: Text)
    requires |gaps| == |kept| == |pictures|
    requires forall j :: 0 <= j < |kept| ==> kept[j] == Keep(m, pictures, budget, j)
    requires room == budget - Spent(m, pictures, budget, |pictures|)
    ensures out == TrimmedTo(m, gaps, tail, pictures, budget)
  {
    hide Take, Size, Keep, Spent;
    out := [];
    var remaining := room;
    for k := 0 to |gaps|
      invariant remaining == Room(m, gaps, room, k) && out == Woven(m, gaps, pictures, budget, room, k)
    {
      var between, left := TakeWithin(m, gaps[k], remaining);
      out, remaining := out + between + kept[k], left;
    }
    var last, left := TakeWithin(m, tail, remaining);
    out := out + last;
  }
}
