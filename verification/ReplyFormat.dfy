/** Formatting a reply within a budget: what is cut, and when the result exceeds the budget all the same. */
module ReplyFormat {
  import opened Effects
  import opened Utf16
  import opened ReplyFences
  import opened ImageScanner
  import opened ImageTrimming
  import opened InlineText

  const MAX_REPLY_LENGTH: nat := 8192
  const MAX_TITLE_BYTES: int := 180

  const ISSUE_MODE: Text := [42, 42, 91, 20219, 21153, 27169, 24335, 93]
  const CHAT_MODE: Text := [42, 42, 91, 32842, 22825, 27169, 24335, 93]
  const HEADER_END: Text := [42, 42, 10, 10]
  const LINK_START: Text := [10, 10, 42, 42, 91, 23436, 25972, 23545, 35805, 38142, 25509, 93, 40]
  const LINK_END: Text := [41, 42, 42]
  /** The hint that points to the link below, and the one without a link. */
  const SEE_LINK: Text := [10, 10, 46, 46, 46, 65288, 22238, 22797, 36739, 38271, 65292, 20840, 25991, 35831, 22312,
      19979, 26041, 38142, 25509, 26597, 30475, 12290, 65289]
  const CUT_SHORT: Text := [10, 10, 46, 46, 46, 65288, 20869, 23481, 36739, 38271, 65292, 21518, 32493, 24050, 30465,
      30053, 12290, 65289]

  // ---- Fitting a body into a budget -----------------------------------------------------

  /** A body together with the line that closes its open fence. */
  function Closed(body: Text): Text { body + Suffix(body) }

  lemma ClosedMeasures(m: Measure, body: Text)
    ensures Size(m, Closed(body)) == Size(m, body) + |Suffix(body)|
  {
    hide Size, Scan;
    OpenFenceIsInText(body, 0, Shut);
    SizeOfJoined(m, body, Suffix(body));
    CloserMeasures(m, Scan(body, 0, Shut));
  }

  lemma {:induction false} AsciiMeasures(m: Measure, s: Text)
    requires forall u :: u in s ==> u < 0x80
    ensures Size(m, s) == |s|
  {
    if s != [] {
      assert s[0] in s && forall u :: u in s[1..] ==> u in s;
      AsciiMeasures(m, s[1..]);
    }
  }

  lemma CloserMeasures(m: Measure, st: State)
    requires Proper(st)
    ensures Size(m, Closer(st)) == |Closer(st)|
  {
    hide Size;
    assert forall u :: u in Closer(st) ==> u < 0x80;
    AsciiMeasures(m, Closer(st));
  }

  /** `c` leading code points are the most that fit, with their closing line. */
  ghost predicate LongestClosed(m: Measure, text: Text, budget: nat, c: nat)
    requires c <= |Chars(text)|
  {
    && Size(m, Closed(Prefix(text, c))) <= budget
    && forall d :: c < d <= |Chars(text)| ==> Size(m, Closed(Prefix(text, d))) > budget
  }

  /** Cutting a text without images: the longest prefix that fits, closing line included. */
  method ClipText(m: Measure, text: Text, budget: nat) returns (summary: Text)
    ensures exists c: nat :: c <= |Chars(text)| && summary == Prefix(text, c) && LongestClosed(m, text, budget, c)
  {
    hide Chars, Join, Size, Closed, Suffix, Total;
    var chars, used := LeadingChars(m, text, budget);
    ghost var c := |chars|;
    summary := Join(chars);
    var fence := ReplyFenceSuffix(summary);
    ClosedMeasures(m, summary);
    while used + |fence| > budget && |chars| > 0
      invariant c == |chars| <= |Chars(text)| && chars == Chars(text)[..c]
      invariant summary == Prefix(text, c) && used == Size(m, summary) <= budget && fence == Suffix(summary)
      invariant forall d :: c < d <= |Chars(text)| ==> Size(m, Closed(Prefix(text, d))) > budget
      decreases |chars|
    {
      ClosedMeasures(m, summary);
      PrefixGrows(m, text, c - 1);
      used := used - Size(m, chars[|chars| - 1]);
      assert Chars(text)[..c][..c - 1] == Chars(text)[..c - 1];
      chars := chars[..|chars| - 1];
      c := c - 1;
      summary := Join(chars);
      fence := ReplyFenceSuffix(summary);
    }
    ClosedMeasures(m, summary);
    if |chars| == 0 { NothingIsClosed(m); }
    assert LongestClosed(m, text, budget, c);
  }

  lemma NothingIsClosed(m: Measure)
    ensures Closed([]) == [] && Size(m, []) == 0 && Join([]) == []
  {
  }

  /** The first loop: as many code points as fit. */
  method LeadingChars(m: Measure, text: Text, budget: nat) returns (chars: seq<Text>, used: nat)
    ensures |chars| <= |Chars(text)| && chars == Chars(text)[..|chars|] &&
              used == Size(m, Prefix(text, |chars|)) <= budget
    ensures forall d :: |chars| < d <= |Chars(text)| ==> Size(m, Closed(Prefix(text, d))) > budget
  {
    hide Chars, Size;
    var all := Chars(text);
    chars, used := [], 0;
    SizeOfNothing(m);
    while |chars| < |all|
      invariant |chars| <= |all| && chars == all[..|chars|] && used == Size(m, Prefix(text, |chars|)) <= budget
    {
      var k := |chars|;
      PrefixGrows(m, text, k);
      var size := Size(m, all[k]);
      if used + size > budget {
        LongerDoesNotFit(m, text, budget, k + 1);
        return;
      }
      assert all[..k + 1] == all[..k] + [all[k]];
      chars, used := chars + [all[k]], used + size;
    }
  }

  lemma LongerDoesNotFit(m: Measure, text: Text, budget: nat, k: nat)
    requires k <= |Chars(text)| && Size(m, Prefix(text, k)) > budget
    ensures forall d :: k <= d <= |Chars(text)| ==> Size(m, Closed(Prefix(text, d))) > budget
  {
    hide Chars, Size;
    forall d | k <= d <= |Chars(text)| ensures Size(m, Closed(Prefix(text, d))) > budget {
      PrefixMonotone(m, text, k, d);
      ClosedMeasures(m, Prefix(text, d));
    }
  }

  /**
   * The one family of inputs on which cutting a text with images fails: what is kept first is an
   * opening fence and nothing else, and fills the budget.
   */
  ghost predicate MarkerFills(m: Measure, text: Text, budget: nat) {
    MarkerOnly(Trimmed(m, text, budget)) && Size(m, Trimmed(m, text, budget)) == budget
  }

  lemma MarkerStaysOpen(s: Text)
    requires MarkerOnly(s)
    ensures |Suffix(s)| == |s| + 1
  {
    var k :| MarkerAt(s, 0) == Some(k) && s == Line(k.indent, k.mark, k.length);
    assert LineEnd(s, 0) == |s|;
    assert s[k.indent + k.length..LineEnd(s, 0)] == [];
    assert AfterLine(s, 0, Shut) == Open(k.indent, k.mark, k.length);
    assert Next(s, 0, Shut) == (|s|, Open(k.indent, k.mark, k.length));
    assert Scan(s, |s|, Open(k.indent, k.mark, k.length)) == Open(k.indent, k.mark, k.length);
  }

  /** A summary whose closing line overshoots by more than the room it was given. */
  lemma OvershootIsMarker(m: Measure, summary: Text, given: nat, budget: nat)
    requires given <= budget && Size(m, summary) <= given && Size(m, Closed(summary)) - budget > given
    ensures given == budget == Size(m, summary) && MarkerOnly(summary)
  {
    hide Size, Scan;
    ClosedMeasures(m, summary);
    SuffixIsShort(summary);
    LengthIsUnits(summary);
    UnitsAreNoLarger(m, summary);
  }

  lemma UnitsAreNoLarger(m: Measure, s: Text)
    ensures |s| <= Size(m, s)
  {
  }

  /** By how much the text trimmed to some room, with its closing line, is over the budget. */
  function Overshoot(m: Measure, text: Text, budget: nat, room: nat): int {
    Size(m, Closed(Trimmed(m, text, room))) - budget
  }

  /**
   * The rooms tried: the whole budget, and after each that is too much, what is left when its overshoot is
   * given up.
   */
  ghost predicate Tried(m: Measure, text: Text, budget: nat, rooms: seq<nat>) {
    && rooms != [] && rooms[0] == budget
    && forall k :: 0 <= k < |rooms| - 1 ==>
         && Overshoot(m, text, budget, rooms[k]) > 0
         && rooms[k + 1] == rooms[k] - Overshoot(m, text, budget, rooms[k])
  }

  /** The text trimmed to the last of the rooms tried. */
  ghost predicate TrimmedLast(m: Measure, text: Text, budget: nat, rooms: seq<nat>, summary: Text) {
    Tried(m, text, budget, rooms) && summary == Trimmed(m, text, rooms[|rooms| - 1])
  }

  lemma TriedMore(m: Measure, text: Text, budget: nat, rooms: seq<nat>, room: nat)
    requires Tried(m, text, budget, rooms) && Overshoot(m, text, budget, rooms[|rooms| - 1]) > 0
    requires room == rooms[|rooms| - 1] - Overshoot(m, text, budget, rooms[|rooms| - 1])
    ensures Tried(m, text, budget, rooms + [room])
  {
    hide Overshoot;
  }

  /** All that is given up of the budget is room for one closing line: that of the text tried before. */
  lemma TriedLosesLittle(m: Measure, text: Text, budget: nat, rooms: seq<nat>)
    requires Tried(m, text, budget, rooms) && |rooms| > 1
    ensures budget - |Suffix(Trimmed(m, text, rooms[|rooms| - 2]))| <= rooms[|rooms| - 1] < budget
  {
    hide Size, Trimmed, Suffix;
    var before := rooms[|rooms| - 2];
    TrimmedFits(m, text, before);
    ClosedMeasures(m, Trimmed(m, text, before));
    TriedFalls(m, text, budget, rooms, |rooms| - 1);
  }

  lemma {:induction false} TriedFalls(m: Measure, text: Text, budget: nat, rooms: seq<nat>, k: nat)
    requires Tried(m, text, budget, rooms) && k < |rooms|
    ensures rooms[k] <= budget && (k > 0 ==> rooms[k] < budget)
  {
    hide Overshoot;
    if k > 0 { TriedFalls(m, text, budget, rooms, k - 1); }
  }

  /** A text that fits the whole budget, when trimmed and closed, is not cut any further. */
  lemma FirstIsLast(m: Measure, text: Text, budget: nat, rooms: seq<nat>)
    requires Tried(m, text, budget, rooms) && Overshoot(m, text, budget, budget) <= 0
    ensures rooms == [budget]
  {
  }

  /** Cutting a text with images: less and less room for it until its closing line fits as well. */
  method ClipImages(m: Measure, text: Text, budget: nat) returns (summary: Text)
    ensures Size(m, Closed(summary)) <= budget <==> !MarkerFills(m, text, budget)
    ensures exists rooms :: TrimmedLast(m, text, budget, rooms, summary)
    ensures MarkerFills(m, text, budget) ==> summary == Trimmed(m, text, budget)
  {
    hide Size, Trimmed, Suffix, Tried;
    var available: int := budget;
    summary := TrimImageMarkdown(m, text, available);
    TrimmedFits(m, text, available);
    var excess := Excess(m, summary, budget);
    ghost var given, rooms: seq<nat> := available, [budget];
    assert Tried(m, text, budget, rooms) by { FirstTried(m, text, budget); }
    available := available - if excess > 1 then excess else 1;
    while excess > 0 && available >= 0
      invariant 0 <= given <= budget && available == given - (if excess > 1 then excess else 1)
      invariant summary == Trimmed(m, text, given) && Size(m, summary) <= given
      invariant excess == Overshoot(m, text, budget, given)
      invariant given < budget ==> !MarkerFills(m, text, budget)
      invariant Tried(m, text, budget, rooms) && rooms != [] && rooms[|rooms| - 1] == given
      decreases available
    {
      if given == budget { NotMarker(m, text, budget); }
      TriedMore(m, text, budget, rooms, available);
      given, rooms := available, rooms + [available];
      summary := TrimImageMarkdown(m, text, available);
      TrimmedFits(m, text, available);
      excess := Excess(m, summary, budget);
      available := available - if excess > 1 then excess else 1;
    }
    assert TrimmedLast(m, text, budget, rooms, summary);
    if excess > 0 {
      OvershootIsMarker(m, summary, given, budget);
    } else if MarkerFills(m, text, budget) {
      MarkerOvershoots(m, summary, budget);
    }
  }

  lemma FirstTried(m: Measure, text: Text, budget: nat)
    ensures Tried(m, text, budget, [budget])
  {
  }

  /** `measure(summary + fence) - budget`. */
  method Excess(m: Measure, summary: Text, budget: nat) returns (excess: int)
    ensures excess == Size(m, Closed(summary)) - budget
  {
    var fence := ReplyFenceSuffix(summary);
    excess := Size(m, summary + fence) - budget;
  }

  lemma MarkerOvershoots(m: Measure, summary: Text, budget: nat)
    requires MarkerOnly(summary) && Size(m, summary) == budget
    ensures Size(m, Closed(summary)) > budget
    ensures |summary| == budget && Size(m, Closed(summary)) == 2 * budget + 1
  {
    hide Size, Scan;
    ClosedMeasures(m, summary);
    MarkerStaysOpen(summary);
    assert forall u :: u in summary ==> u < 0x80;
    AsciiMeasures(m, summary);
  }

  /** When room is left after the first attempt, that attempt was not a marker that fills the budget. */
  lemma NotMarker(m: Measure, text: Text, budget: nat)
    requires Size(m, Closed(Trimmed(m, text, budget))) - budget <= budget
    ensures !MarkerFills(m, text, budget)
  {
    hide Size, Trimmed, Suffix;
    if MarkerFills(m, text, budget) { MarkerOvershoots(m, Trimmed(m, text, budget), budget); }
  }

  // ---- The whole message ----------------------------------------------------------------

  /** `whole` is `prefix + text + fence + after` if that fits, and otherwise the text is cut to make room for a hint. */
  datatype Frame = Frame(m: Measure, limit: int, prefix: Text, hint: Text, after: Text)

  function Whole(f: Frame, text: Text): Text { f.prefix + Closed(text) + f.after }

  predicate Fits(f: Frame, text: Text) { Size(f.m, Whole(f, text)) <= f.limit }

  /** What header, hint and footer leave of the limit. */
  function Budget(f: Frame): int { f.limit - Size(f.m, f.prefix + (f.hint + f.after)) }

  predicate Throws(f: Frame, text: Text) { !Fits(f, text) && Budget(f) < 0 }

  /** The one case in which the result exceeds the limit. */
  ghost predicate Exceeds(f: Frame, text: Text) {
    !Fits(f, text) && Budget(f) >= 0 && Images(text) != [] && MarkerFills(f.m, text, Budget(f))
  }

  function Cut(f: Frame, summary: Text): Text { f.prefix + Closed(summary) + (f.hint + f.after) }

  /** A cut text: the longest prefix, or, to keep its images whole, the text trimmed to the last of the rooms tried. */
  ghost predicate CutOf(f: Frame, text: Text, r: Text)
    requires Budget(f) >= 0
  {
    if Images(text) == [] then
      exists c: nat :: c <= |Chars(text)| && LongestClosed(f.m, text, Budget(f), c) && r == Cut(f, Prefix(text, c))
    else exists rooms, summary :: TrimmedLast(f.m, text, Budget(f), rooms, summary) && r == Cut(f, summary)
  }

  /** The whole message, the message around a cut text, or an error; over the limit only in the exceptional case. */
  ghost predicate Replies(f: Frame, text: Text, r: Outcome<Text>) {
    && !r.Crashed? && (r.Thrown? <==> Throws(f, text))
    && (Fits(f, text) ==> r == Ok(Whole(f, text)))
    && (r.Ok? && !Fits(f, text) ==> CutOf(f, text, r.value))
    && (r.Ok? ==> (Size(f.m, r.value) <= f.limit <==> !Exceeds(f, text)))
  }

  method Compose(f: Frame, text: Text) returns (r: Outcome<Text>)
    requires f.hint != [] && f.hint[0] == LF
    ensures Replies(f, text, r)
  {
    hide Size, Chars, Suffix, Trimmed, Images;
    var closing := ReplyFenceSuffix(text);
    if Size(f.m, f.prefix + (text + closing) + f.after) <= f.limit { return Ok(f.prefix + (text + closing) + f.after); }
    var suffix := f.hint + f.after;
    var budget := f.limit - Size(f.m, f.prefix + suffix);
    if budget < 0 { return Thrown(0); }
    var images := MarkdownImages(text);
    if images != [] {
      var summary := ClipImages(f.m, text, budget);
      CutMeasures(f, summary, budget);
      var fence := ReplyFenceSuffix(summary);
      r := Ok(f.prefix + (summary + fence) + suffix);
      if MarkerFills(f.m, text, budget) { OverLimit(f, summary, budget); }
    } else {
      var summary := ClipText(f.m, text, budget);
      CutMeasures(f, summary, budget);
      var fence := ReplyFenceSuffix(summary);
      r := Ok(f.prefix + (summary + fence) + suffix);
    }
  }

  lemma CutMeasures(f: Frame, summary: Text, budget: nat)
    requires f.hint != [] && f.hint[0] == LF && budget == Budget(f)
    ensures Size(f.m, Cut(f, summary)) <= f.limit - budget + Size(f.m, Closed(summary))
  {
    hide Size, Suffix;
    var suffix := f.hint + f.after;
    assert suffix[0] == LF;
    SizeOfJoined(f.m, f.prefix, suffix);
    JoinedIsNoLarger(f.m, f.prefix, Closed(summary));
    JoinedIsNoLarger(f.m, f.prefix + Closed(summary), suffix);
  }

  /** A marker is plain ASCII, so around it nothing is saved at the seams. */
  lemma OverLimit(f: Frame, summary: Text, budget: nat)
    requires f.hint != [] && f.hint[0] == LF && budget == Budget(f)
    requires MarkerOnly(summary) && Size(f.m, summary) == budget
    ensures Size(f.m, Cut(f, summary)) > f.limit
  {
    hide Size, Suffix;
    var suffix := f.hint + f.after;
    assert suffix[0] == LF;
    MarkerOvershoots(f.m, summary, budget);
    assert Closed(summary)[0] == summary[0] < 0x80;
    SizeOfJoined(f.m, f.prefix, suffix);
    SizeOfJoined(f.m, f.prefix, Closed(summary));
    SizeOfJoined(f.m, f.prefix + Closed(summary), suffix);
  }

  // ---- The header -------------------------------------------------------------------------

  datatype Mode = Chat | Issue

  predicate Alphanumeric(u: Unit) { 48 <= u <= 57 || 65 <= u <= 90 || 97 <= u <= 122 }

  /** A prefix of one to ten letters or digits, a hyphen, and a number; at most 100 in all. */
  predicate Reference(s: Text) {
    && |s| <= 100
    && exists k :: 1 <= k <= 10 && k + 1 < |s| && s[k] == 45
                   && (forall i :: 0 <= i < k ==> Alphanumeric(s[i])) && (forall i :: k < i < |s| ==> 48 <= s[i] <= 57)
  }

  /** An empty identifier shows no reference. */
  predicate Shown(mode: Mode, identifier: Text) { mode.Issue? && identifier != [] }

  predicate BadReference(mode: Mode, identifier: Text) { Shown(mode, identifier) && !Reference(identifier) }

  /** The reference, with the title if there is room for at least four bytes of it. */
  function Titled(ref: Text, title: Text, maxTitleBytes: int): Text {
    if title == [] || maxTitleBytes < 4 then ref
    else ref + [58] + Inline(title, if maxTitleBytes < MAX_TITLE_BYTES then maxTitleBytes else MAX_TITLE_BYTES)
  }

  function Header(mode: Mode, ref: Text): Text {
    (if mode.Issue? then ISSUE_MODE else CHAT_MODE) + (if ref == [] then [] else [32] + ref) + HEADER_END
  }

  /** The header and the label; the title gets what a header without it leaves of `maxBytes`. */
  function ReplyPrefix(mode: Mode, identifier: Text, title: Text, lead: Text, maxBytes: int): Text {
    if !Shown(mode, identifier) then Header(mode, []) + lead
    else
      var bare := Header(mode, identifier) + lead;
      Header(mode, Titled(identifier, title, maxBytes - Size(Bytes, bare) - 1)) + lead
  }

  method WithReplyMode(content: Text, mode: Mode, identifier: Text, title: Text, maxBytes: int)
    returns (r: Outcome<Text>)
    ensures r == if BadReference(mode, identifier) then Thrown(0)
              else Ok(ReplyPrefix(mode, identifier, title, content, maxBytes))
  {
    hide Size, Inline;
    if BadReference(mode, identifier) { return Thrown(0); }
    var ref := if Shown(mode, identifier) then identifier else [];
    var bare := Header(mode, ref) + content;
    if ref != [] {
      var room := maxBytes - Size(Bytes, bare) - 1;
      if title != [] && room >= 4 {
        var name := InlineMarkdown(title, if room < MAX_TITLE_BYTES then room else MAX_TITLE_BYTES);
        ref := ref + [58] + name;
      }
    }
    return Ok(Header(mode, ref) + content);
  }

  function Footer(target: Option<Text>): Text {
    if target.None? then [] else LINK_START + target.value + LINK_END
  }

  function Hint(linked: bool): Text { if linked then SEE_LINK else CUT_SHORT }

  /** The frame of a reply. */
  function ReplyFrame(m: Measure, limit: int, mode: Mode, identifier: Text, title: Text, lead: Text,
      target: Option<Text>): Frame {
    var suffix := Hint(target.Some?) + Footer(target);
    Frame(m, limit, ReplyPrefix(mode, identifier, title, lead, limit - Size(m, suffix) - 4), Hint(target.Some?),
        Footer(target))
  }

  /** A title takes only spare room: it never turns a reply that can be sent into an error. */
  lemma TitleNeverThrows(content: Text, m: Measure, limit: int, mode: Mode, identifier: Text, title: Text, lead: Text,
      target: Option<Text>)
    requires !Throws(ReplyFrame(m, limit, mode, identifier, [], lead, target), content)
    ensures !Throws(ReplyFrame(m, limit, mode, identifier, title, lead, target), content)
  {
    hide Size, Inline, Fits, Header, Hint, Footer;
    var suffix := Hint(target.Some?) + Footer(target);
    var maxBytes := limit - Size(m, suffix) - 4;
    var room := maxBytes - Size(Bytes, Header(mode, identifier) + lead) - 1;
    if Shown(mode, identifier) && title != [] && room >= 4 {
      var prefix := ReplyPrefix(mode, identifier, title, lead, maxBytes);
      TitledFits(identifier, title, lead, room);
      UnitsOrBytes(m, prefix);
      JoinedIsNoLarger(m, prefix, suffix);
    }
  }

  lemma UnitsOrBytes(m: Measure, s: Text)
    ensures Size(m, s) <= Size(Bytes, s)
  {
  }

  lemma TitledFits(ref: Text, title: Text, lead: Text, room: int)
    requires title != [] && room >= 4 && ref != []
    ensures Size(Bytes, Header(Issue, Titled(ref, title, room)) + lead) <= Size(Bytes, Header(Issue, ref) + lead) + 1
              + room
  {
    hide Size, Inline;
    var limit := if room < MAX_TITLE_BYTES then room else MAX_TITLE_BYTES;
    var name := Inline(title, limit);
    InlineFits(title, limit);
    var a, b := ISSUE_MODE + ([32] + ref), HEADER_END + lead;
    assert Header(Issue, ref) + lead == a + b;
    assert Header(Issue, ref + [58] + name) + lead == a + ([58] + name) + b;
    SizeOfJoined(Bytes, a, b);
    AsciiMeasures(Bytes, [58]);
    JoinedIsNoLarger(Bytes, [58], name);
    JoinedIsNoLarger(Bytes, a, [58] + name);
    JoinedIsNoLarger(Bytes, a + ([58] + name), b);
  }

  // ---- No fence is left open in the whole message -------------------------------------------

  /** No line of `s` could be a fence line. */
  predicate NoFenceLine(s: Text) {
    forall i :: 0 <= i < |s| && LineStart(s, i) ==> s[i] != SPACE && s[i] != BACKTICK && s[i] != TILDE
  }

  lemma {:induction false} NothingOpens(s: Text, i: nat)
    requires i <= |s| && NoFenceLine(s)
    ensures Scan(s, i, Shut) == Shut
    decreases |s| - i
  {
    if i < |s| {
      assert LineStart(s, i) ==> Run(s, i, SPACE) == 0 && MarkerAt(s, i).None?;
      NothingOpens(s, i + 1);
    }
  }

  predicate OneLine(s: Text) { forall u :: u in s ==> !Terminator(u) }

  lemma {:induction false} JoinOneLine(parts: seq<Text>)
    requires forall p :: p in parts ==> OneLine(p)
    ensures OneLine(Join(parts))
  {
    if parts != [] {
      assert forall p :: p in parts[1..] ==> p in parts;
      JoinOneLine(parts[1..]);
      assert parts[0] in parts && Join(parts) == parts[0] + Join(parts[1..]);
    }
  }

  lemma {:induction false} EscapedOneLine(text: Text)
    requires OneLine(text)
    ensures forall p :: p in EscapedAll(Chars(text)) ==> OneLine(p)
    decreases |text|
  {
    if text != [] {
      var n := CharLen(text);
      EscapedOneLine(text[n..]);
      assert OneLine(text[..n]) && OneLine(Escaped(text[..n]));
      assert Chars(text) == [text[..n]] + Chars(text[n..]);
      assert EscapedAll(Chars(text)) == [Escaped(text[..n])] + EscapedAll(Chars(text[n..]));
    }
  }

  lemma InlineOneLine(text: Text, maxBytes: int)
    requires OneLine(text)
    ensures OneLine(Inline(text, maxBytes))
  {
    hide EscapedAll, Chars, Size, Join;
    var units := EscapedAll(Chars(text));
    EscapedOneLine(text);
    JoinOneLine(units);
    var k := Count(units, 0, maxBytes - 3);
    assert forall p :: p in units[..k] ==> p in units;
    JoinOneLine(units[..k]);
  }

  /** A label in front of the body is a line of its own, and leaves no fence open. */
  predicate Label(lead: Text) { lead == [] || (EndsLine(lead) && Suffix(lead) == []) }

  lemma HeaderOpensNothing(mode: Mode, ref: Text)
    requires OneLine(ref)
    ensures EndsLine(Header(mode, ref)) && Suffix(Header(mode, ref)) == []
  {
    var s := Header(mode, ref);
    NothingOpens(s, 0);
  }

  lemma PrefixOpensNothing(mode: Mode, identifier: Text, title: Text, lead: Text, maxBytes: int)
    requires !BadReference(mode, identifier) && OneLine(title) && Label(lead)
    ensures var p := ReplyPrefix(mode, identifier, title, lead, maxBytes); EndsLine(p) && Suffix(p) == []
  {
    hide Size, Inline, Header, Suffix, Reference;
    var ref: Text := [];
    if Shown(mode, identifier) {
      var room := maxBytes - Size(Bytes, Header(mode, identifier) + lead) - 1;
      ref := Titled(identifier, title, room);
      ReferenceIsOneLine(identifier);
      InlineOneLine(title, if room < MAX_TITLE_BYTES then room else MAX_TITLE_BYTES);
    }
    HeaderOpensNothing(mode, ref);
    assert ReplyPrefix(mode, identifier, title, lead, maxBytes) == Header(mode, ref) + lead;
    if lead == [] {
      assert Header(mode, ref) + lead == Header(mode, ref);
    } else {
      ClosedUnderHeader(Header(mode, ref), lead);
    }
  }

  lemma ReferenceIsOneLine(identifier: Text)
    requires Reference(identifier)
    ensures OneLine(identifier)
  {
  }

  /** Whatever the body, nothing is left open where hint or footer begin. */
  lemma ClosedAboveFooter(prefix: Text, body: Text)
    requires EndsLine(prefix) && Suffix(prefix) == []
    ensures Suffix(prefix + Closed(body)) == []
  {
    hide Suffix;
    SuffixCloses(body);
    ClosedUnderHeader(prefix, Closed(body));
  }

  /** Hint and footer open nothing either. */
  lemma {:induction false} ClosedBelow(above: Text, rest: Text)
    requires Suffix(above) == [] && (rest == [] || (rest[0] == LF && NoFenceLine(rest[1..])))
    ensures Suffix(above + rest) == []
  {
    hide Run, MarkerAt, AfterLine, LineEnd;
    var u := above + rest;
    if rest == [] {
      assert u == above;
    } else {
      var p := |above|;
      ScanBefore(u, above, 0, Shut);
      assert Scan(above, 0, Shut) == Shut;
      NotAMarker(u, p);
      ScanShifted(u, p + 1, rest[1..], 0, Shut);
      NothingOpens(rest[1..], 0);
    }
  }

  lemma NoFenceJoined(a: Text, b: Text)
    requires NoFenceLine(a) && NoFenceLine(b)
    ensures NoFenceLine(a + b)
  {
    var s := a + b;
    forall i | 0 <= i < |s| && LineStart(s, i) ensures s[i] != SPACE && s[i] != BACKTICK && s[i] != TILDE {
      if i < |a| { assert LineStart(a, i); } else { assert LineStart(b, i - |a|); }
    }
  }

  /** What goes on a line that begins with `start` begins no line. */
  lemma NoFenceContinued(start: Text, more: Text)
    requires NoFenceLine(start) && start != [] && !Terminator(start[|start| - 1]) && OneLine(more)
    ensures NoFenceLine(start + more)
  {
    var s := start + more;
    forall k | |start| <= k < |s| ensures !Terminator(s[k]) { assert s[k] in more; }
    forall i | 0 <= i < |s| && LineStart(s, i) ensures s[i] != SPACE && s[i] != BACKTICK && s[i] != TILDE {
      assert i < |start| && LineStart(start, i);
    }
  }

  lemma OneLineJoined(a: Text, b: Text)
    requires OneLine(a) && OneLine(b)
    ensures OneLine(a + b)
  {
  }

  lemma HintOpensNothing(linked: bool)
    ensures Hint(linked) != [] && Hint(linked)[0] == LF && NoFenceLine(Hint(linked)[1..])
  {
  }

  lemma LinkOpensNothing()
    ensures NoFenceLine(LINK_START) && NoFenceLine(LINK_START[1..]) && OneLine(LINK_END)
  {
  }

  lemma FooterIsQuiet(target: Option<Text>)
    requires target.Some? ==> OneLine(target.value)
    ensures Footer(target) != [] ==> Footer(target)[0] == LF && NoFenceLine(Footer(target)[1..])
    ensures NoFenceLine(Footer(target))
  {
    hide NoFenceLine;
    if target.Some? {
      var start, more := LINK_START, target.value + LINK_END;
      LinkOpensNothing();
      OneLineJoined(target.value, LINK_END);
      NoFenceContinued(start, more);
      NoFenceContinued(start[1..], more);
      assert Footer(target) == start + more && (start + more)[1..] == start[1..] + more;
    } else {
      NothingIsNoFence();
    }
  }

  lemma NothingIsNoFence()
    ensures NoFenceLine([])
  {
  }

  lemma FooterOpensNothing(target: Option<Text>, cut: bool)
    requires target.Some? ==> OneLine(target.value)
    ensures var rest := (if cut then Hint(target.Some?) else []) + Footer(target);
            rest == [] || (rest[0] == LF && NoFenceLine(rest[1..]))
  {
    hide NoFenceLine, OneLine, Hint, Footer;
    var hint, footer := Hint(target.Some?), Footer(target);
    FooterIsQuiet(target);
    if cut {
      HintOpensNothing(target.Some?);
      NoFenceJoined(hint[1..], footer);
      assert (hint + footer)[1..] == hint[1..] + footer;
    } else {
      assert [] + footer == footer;
    }
  }

  /** What a reply is made of: the prefix, a closed body, perhaps the hint, and the footer. */
  function Assembled(f: Frame, body: Text, cut: bool): Text {
    f.prefix + Closed(body) + ((if cut then f.hint else []) + f.after)
  }

  ghost predicate Around(f: Frame, r: Text) {
    exists body, cut :: r == Assembled(f, body, cut)
  }

  /** A title and a link on one line, and a label that leaves no fence open. */
  predicate Tidy(title: Text, lead: Text, target: Option<Text>) {
    OneLine(title) && Label(lead) && (target.Some? ==> OneLine(target.value))
  }

  lemma ReplyIsClosed(m: Measure, limit: int, mode: Mode, identifier: Text, title: Text, lead: Text,
      target: Option<Text>, r: Text)
    requires !BadReference(mode, identifier) && Tidy(title, lead, target)
    requires Around(ReplyFrame(m, limit, mode, identifier, title, lead, target), r)
    ensures Suffix(r) == []
  {
    hide Size, Suffix, Closed, ReplyPrefix, BadReference, OneLine, Label, NoFenceLine, Hint, Footer;
    var f := ReplyFrame(m, limit, mode, identifier, title, lead, target);
    var body, cut :| r == Assembled(f, body, cut);
    PrefixOpensNothing(mode, identifier, title, lead, limit - Size(m, Hint(target.Some?) + Footer(target)) - 4);
    ClosedAboveFooter(f.prefix, body);
    FooterOpensNothing(target, cut);
    ClosedBelow(f.prefix + Closed(body), (if cut then f.hint else []) + f.after);
  }

  lemma WholeIsAround(f: Frame, text: Text)
    ensures Around(f, Whole(f, text))
  {
    hide Closed;
    assert [] + f.after == f.after;
    assert Whole(f, text) == Assembled(f, text, false);
  }

  lemma CutIsAround(f: Frame, text: Text, r: Text)
    requires Budget(f) >= 0 && CutOf(f, text, r)
    ensures Around(f, r)
  {
    hide Closed, Images, Trimmed, Prefix, LongestClosed, Size;
    var body: Text;
    if Images(text) == [] {
      var c: nat :| c <= |Chars(text)| && LongestClosed(f.m, text, Budget(f), c) && r == Cut(f, Prefix(text, c));
      body := Prefix(text, c);
    } else {
      var rooms, summary :| TrimmedLast(f.m, text, Budget(f), rooms, summary) && r == Cut(f, summary);
      body := summary;
    }
    assert r == Assembled(f, body, true);
  }

  /**
   * `formatReply` throws for a bad reference, or when header and footer alone exceed the limit and the whole
   * message does too.  Otherwise the result is within the limit except in the one case named by `Exceeds`, and
   * leaves no fence open.
   */
  method FormatReply(content: Text, mode: Mode, identifier: Text, title: Text, lead: Text, target: Option<Text>,
      m: Measure, limit: int)
    returns (r: Outcome<Text>)
    ensures if BadReference(mode, identifier) then r == Thrown(0)
            else Replies(ReplyFrame(m, limit, mode, identifier, title, lead, target), content, r)
    ensures r.Ok? && Tidy(title, lead, target) ==> Suffix(r.value) == []
  {
    hide Size, Fits, CutOf, Exceeds, ReplyPrefix, Whole, Suffix, Tidy, Around;
    var suffix := Hint(target.Some?) + Footer(target);
    var prefix :- WithReplyMode(lead, mode, identifier, title, limit - Size(m, suffix) - 4);
    var f := Frame(m, limit, prefix, Hint(target.Some?), Footer(target));
    r := Compose(f, content);
    if r.Ok? && Tidy(title, lead, target) {
      if Fits(f, content) { WholeIsAround(f, content); } else { CutIsAround(f, content, r.value); }
      ReplyIsClosed(m, limit, mode, identifier, title, lead, target, r.value);
    }
  }

  // ---- A headed body is always cut in time ------------------------------------------------------

  /** The star of a reply header. */
  const STAR: Unit := 42

  /** What begins with a header, or with an image: never a fence line. */
  predicate Headed(s: Text) { s == [] || s[0] == STAR || s[0] == BANG }

  lemma {:induction false} PicturesAreImages(text: Text, images: seq<Image>, k: nat)
    requires k <= |images| && InOrder(text, images, k)
    ensures forall j :: 0 <= j < k ==> Pictures(text, images, k)[j] != [] && Pictures(text, images, k)[j][0] == BANG
  {
    if k > 0 {
      OrderBefore(text, images, k - 1, k);
      PicturesAreImages(text, images, k - 1);
    }
  }

  lemma {:induction false} FirstGap(text: Text, images: seq<Image>, k: nat)
    requires 0 < k <= |images| && InOrder(text, images, k)
    ensures InOrder(text, images, 1) && Gaps(text, images, k)[0] == text[..images[0].start]
  {
    if k > 1 {
      OrderBefore(text, images, k - 1, k);
      FirstGap(text, images, k - 1);
    }
  }

  /** However much is cut, what is left begins with the header's star, or is made of images. */
  lemma {:induction false} WovenIsHeaded(m: Measure, gaps: seq<Text>, pictures: seq<Text>, budget: nat, room: nat,
      k: nat)
    requires 0 < k <= |gaps| == |pictures| && gaps[0] != [] && gaps[0][0] == STAR
    requires forall j :: 0 <= j < k ==> pictures[j] != [] && pictures[j][0] == BANG
    ensures Headed(Woven(m, gaps, pictures, budget, room, k))
    ensures if room > 0 then Woven(m, gaps, pictures, budget, room, k) != [] else Room(m, gaps, room, k) == 0
  {
    hide Spent;
    if k == 1 {
      assert Room(m, gaps, room, 0) == room;
      assert CharSize(m, gaps[0]) == 1;
      assert Woven(m, gaps, pictures, budget, room, 0) == [];
    } else {
      WovenIsHeaded(m, gaps, pictures, budget, room, k - 1);
      if room == 0 { NothingTaken(m, gaps[k - 1]); }
    }
  }

  lemma NothingTaken(m: Measure, s: Text)
    ensures Take(m, s, 0) == [] && Size(m, Take(m, s, 0)) == 0
  {
  }

  /** In front of the first image of a headed text is its header. */
  lemma HeadedGap(text: Text, images: seq<Image>)
    requires images != [] && InOrder(text, images, |images|) && text != [] && text[0] == STAR
    ensures var gap := Gaps(text, images, |images|)[0]; gap != [] && gap[0] == STAR
  {
    FirstGap(text, images, |images|);
  }

  lemma TrimmedIsHeaded(m: Measure, text: Text, budget: nat)
    requires text != [] && text[0] == STAR && Images(text) != []
    ensures Headed(Trimmed(m, text, budget))
  {
    hide Size, Take, Woven, Room, Spent, Images, InOrder, Ordered, Gaps, Pictures, Tail;
    if budget > 0 {
      var images := Images(text);
      var n := |images|;
      ImagesAreOrdered(text);
      FoundInOrder(text, images, n);
      PicturesAreImages(text, images, n);
      HeadedGap(text, images);
      var gaps, pictures, tail := Gaps(text, images, n), Pictures(text, images, n), Tail(text, images);
      var room := budget - Spent(m, pictures, budget, n);
      WovenIsHeaded(m, gaps, pictures, budget, room, n);
      NothingTaken(m, tail);
      assert Trimmed(m, text, budget)
             == Woven(m, gaps, pictures, budget, room, n) + Take(m, tail, Room(m, gaps, room, n));
    }
  }

  // ---- The combined message of a group delivery -----------------------------------------------

  function CombinedFrame(mentions: Text, overflow: Text, footer: Text): Frame {
    Frame(Units, MAX_REPLY_LENGTH, [], Hint(footer != []), mentions + overflow + footer)
  }

  /** A group delivery hands a headed body to `combinedMarkdown`: it always fits, or is refused for its mentions. */
  lemma HeadedNeverExceeds(body: Text, mentions: Text, overflow: Text, footer: Text)
    requires body != [] && body[0] == STAR
    ensures !Exceeds(CombinedFrame(mentions, overflow, footer), body)
  {
    hide Size, Trimmed, Images;
    var f := CombinedFrame(mentions, overflow, footer);
    if Images(body) != [] && Budget(f) >= 0 {
      TrimmedIsHeaded(f.m, body, Budget(f));
    }
  }

  /** `combinedMarkdown`, from the body and footer that `infoflowMarkdown` gives and the mentions to add. */
  method CombinedMarkdown(body: Text, footer: Text, mentions: Text, overflow: Text) returns (r: Outcome<Text>)
    ensures Replies(CombinedFrame(mentions, overflow, footer), body, r)
    ensures r.Ok? && body != [] && body[0] == STAR ==> |r.value| <= MAX_REPLY_LENGTH
  {
    hide Size, Fits, Throws, CutOf, Exceeds;
    r := Compose(CombinedFrame(mentions, overflow, footer), body);
    if body != [] && body[0] == STAR { HeadedNeverExceeds(body, mentions, overflow, footer); }
    if r.Ok? { LengthIsUnits(r.value); }
    assert [] + Closed(body) == Closed(body);
  }
}
