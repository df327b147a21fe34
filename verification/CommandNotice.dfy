/** Notices that list tasks: rows are packed into pages, and no page that is shown is cut again. */
module CommandNotice {
  import opened Effects
  import opened Utf16
  import opened ReplyFences
  import opened ReplyFormat
  import opened Packing

  const PAGE_BYTES: nat := 1600
  const OUT_OF_RANGE: Text := [39029, 30721, 36229, 20986, 33539, 22260, 65292, 20849, 32]
  const SEND_STATUS: Text := [32, 39029, 12290, 35831, 21457, 36865, 32, 47, 115, 116, 97, 116, 117, 115, 32, 49, 12290]
  const IN_ALL: Text := [10, 10, 20849, 32]
  const TASKS_PAGE: Text := [32, 20010, 20219, 21153, 65292, 31532, 32]
  const PAGE_END: Text := [32, 39029, 12290]
  const FOR_NEXT: Text := [21457, 36865, 32, 47, 115, 116, 97, 116, 117, 115, 32]
  const NEXT_END: Text := [32, 26597, 30475, 19979, 19968, 39029, 12290]
  const MORE_TASKS: Text := [10, 10, 20219, 21153, 36739, 22810, 65292, 20854, 20313, 20219, 21153, 35831, 29992, 32,
      47, 115, 116, 97, 116, 117, 115, 32, 20998, 39029, 26597, 30475, 12290]

  /** `rows.join("\n")`. */
  function Lines(rows: seq<Text>): Text {
    if rows == [] then []
    else if |rows| == 1 then rows[0]
    else rows[0] + ([LF] + Lines(rows[1..]))
  }

  /** Everything on a page above its rows. */
  function Head(mode: Mode, heading: Text): Text { Header(mode, []) + heading + [LF, LF] }

  function PageFit(head: Text): seq<Text> -> bool {
    (rows: seq<Text>) => Size(Bytes, head + Lines(rows)) <= PAGE_BYTES
  }

  lemma {:induction false} LinesMeasure(rows: seq<Text>)
    requires rows != []
    ensures Size(Bytes, Lines(rows)) == Total(Bytes, rows) + |rows| - 1
    decreases rows
  {
    hide Size;
    SizeOfNothing(Bytes);
    if |rows| == 1 {
      assert rows[1..] == [];
    } else {
      LinesMeasure(rows[1..]);
      AsciiMeasures(Bytes, [LF]);
      SizeOfJoined(Bytes, [LF], Lines(rows[1..]));
      SizeOfJoined(Bytes, rows[0], [LF] + Lines(rows[1..]));
    }
  }

  lemma PageMeasures(head: Text, rows: seq<Text>)
    requires rows != [] && EndsLine(head)
    ensures Size(Bytes, head + Lines(rows)) == Size(Bytes, head) + Total(Bytes, rows) + |rows| - 1
  {
    hide Size, Lines;
    LinesMeasure(rows);
    SizeOfJoined(Bytes, head, Lines(rows));
  }

  /** Fewer rows of a page that fits, fit. */
  lemma PageFitIsHereditary(head: Text)
    requires EndsLine(head)
    ensures Hereditary(PageFit(head))
  {
    hide Size, Lines, Total;
    forall s: seq<Text>, a, b | 0 <= a < b <= |s| && PageFit(head)(s) ensures PageFit(head)(s[a..b]) {
      assert s == s[..a] + s[a..b] + s[b..];
      TotalIsAdditive(Bytes, s[..a] + s[a..b], s[b..]);
      TotalIsAdditive(Bytes, s[..a], s[a..b]);
      PageMeasures(head, s);
      PageMeasures(head, s[a..b]);
    }
  }

  /** No arrangement of the rows, in order, on pages that fit has fewer pages. */
  lemma PagesAreOptimal(head: Text, rows: seq<Text>, pages: seq<seq<Text>>, others: seq<seq<Text>>)
    requires EndsLine(head) && Greedy(pages, rows, PageFit(head)) && Packs(others, rows, PageFit(head))
    ensures |pages| <= |others|
  {
    PageFitIsHereditary(head);
    GreedyIsOptimal(pages, others, rows, PageFit(head));
  }

  // ---- Pages ------------------------------------------------------------------------------------

  /** A choice the service sent: its rendered row, or `None` if it names no valid task. */
  type Choice = Option<Text>

  predicate BadChoice(head: Text, c: Choice) { c.None? || !PageFit(head)([c.value]) }

  function Rows(choices: seq<Choice>): (r: seq<Text>)
    ensures |r| <= |choices|
  {
    if choices == [] then []
    else
      var last := choices[|choices| - 1];
      Rows(choices[..|choices| - 1]) + if last.Some? then [last.value] else []
  }

  /** The pages; without choices, one empty page. */
  method Paginate(head: Text, choices: seq<Choice>) returns (r: Outcome<seq<seq<Text>>>)
    ensures !r.Crashed? && (r.Thrown? <==> exists k :: 0 <= k < |choices| && BadChoice(head, choices[k]))
    ensures r.Ok? ==> if choices == [] then r.value == [[]] else Greedy(r.value, Rows(choices), PageFit(head))
  {
    hide Greedy, PageFit;
    var pages: seq<seq<Text>> := [[]];
    for i := 0 to |choices|
      invariant forall k :: 0 <= k < i ==> !BadChoice(head, choices[k])
      invariant pages != [] && (i == 0 ==> pages == [[]])
      invariant i > 0 ==> Greedy(pages, Rows(choices[..i]), PageFit(head))
    {
      assert choices[..i + 1][..i] == choices[..i];
      var choice := choices[i];
      if choice.None? { return Thrown(0); }
      var row := choice.value;
      if !PageFit(head)([row]) { return Thrown(0); }
      assert Rows(choices[..i + 1]) == Rows(choices[..i]) + [row];
      var last := pages[|pages| - 1];
      if i == 0 {
        NothingOnPages(head);
        OpenGroup([], [], row, PageFit(head));
        assert [] + [[row]] == [[row]] && [] + [row] == [row];
      } else if PageFit(head)(last + [row]) {
        ExtendGroup(pages, Rows(choices[..i]), row, PageFit(head));
      } else {
        OpenGroup(pages, Rows(choices[..i]), row, PageFit(head));
      }
      if i > 0 && !PageFit(head)(last + [row]) {
        pages := pages + [[row]];
      } else {
        pages := pages[..|pages| - 1] + [last + [row]];
      }
    }
    assert choices[..|choices|] == choices;
    r := Ok(pages);
  }

  lemma NothingOnPages(head: Text)
    ensures Greedy([], [], PageFit(head)) && Rows([]) == []
  {
  }

  // ---- The notice ---------------------------------------------------------------------------------

  function Decimal(n: nat): Text {
    if n < 10 then [(48 + n) as Unit] else Decimal(n / 10) + [(48 + n % 10) as Unit]
  }

  lemma DecimalIsShort(n: nat)
    requires n < 0x1_0000_0000
    ensures |Decimal(n)| <= 10
  {
    Digits(n, 10, 10_000_000_000);
  }

  lemma {:induction false} Digits(n: nat, k: nat, bound: nat)
    requires k >= 1 && n < bound && bound <= Power(k)
    ensures |Decimal(n)| <= k
    decreases k
  {
    if n >= 10 {
      assert k > 1;
      Digits(n / 10, k - 1, Power(k - 1));
    }
  }

  function Power(k: nat): nat { if k == 0 then 1 else 10 * Power(k - 1) }

  predicate Digit(u: Unit) { 48 <= u <= 57 }

  function ValueOf(s: Text): nat
    requires forall u :: u in s ==> Digit(u)
  {
    if s == [] then 0
    else
      var last := s[|s| - 1];
      assert Digit(last) && forall u :: u in s[..|s| - 1] ==> u in s;
      10 * ValueOf(s[..|s| - 1]) + (last as int - 48)
  }

  /** The digits say the number. */
  lemma {:induction false} DecimalSays(n: nat)
    ensures forall u :: u in Decimal(n) ==> Digit(u)
    ensures ValueOf(Decimal(n)) == n && (n > 0 ==> Decimal(n)[0] != 48)
  {
    var s := Decimal(n);
    if n >= 10 {
      DecimalSays(n / 10);
      assert s[..|s| - 1] == Decimal(n / 10);
    } else {
      assert s[..|s| - 1] == [];
    }
  }

  /** The line that says how to see the other pages. */
  function PageHint(status: bool, tasks: nat, page: nat, pages: nat): Text {
    if pages <= 1 then []
    else if !status then MORE_TASKS
    else
      IN_ALL + Decimal(tasks) + TASKS_PAGE + Decimal(page) + [47] + Decimal(pages) + PAGE_END
      + if page < pages then FOR_NEXT + Decimal(page + 1) + NEXT_END else []
  }

  function PageContent(heading: Text, rows: seq<Text>, hint: Text): Text { heading + [LF, LF] + Lines(rows) + hint }

  function NoticeFrame(mode: Mode): Frame { ReplyFrame(Units, MAX_REPLY_LENGTH, mode, [], [], [], None) }

  /** A page that was packed fits into a reply whole, with its hint and whatever closes it. */
  lemma PageIsNotCut(mode: Mode, heading: Text, rows: seq<Text>, hint: Text)
    requires PageFit(Head(mode, heading))(rows) && |hint| <= 200
    ensures Fits(NoticeFrame(mode), PageContent(heading, rows, hint))
  {
    hide Size, Lines, Suffix;
    var f, content := NoticeFrame(mode), PageContent(heading, rows, hint);
    LengthIsUnits(Head(mode, heading) + Lines(rows));
    assert |content| <= PAGE_BYTES + 200;
    SuffixIsShort(content);
    LengthIsUnits(Whole(f, content));
    assert |Whole(f, content)| <= 2 * |content| + 1 + |f.prefix|;
  }

  lemma HintIsShort(status: bool, tasks: nat, page: nat, pages: nat)
    requires tasks < 0x1_0000_0000 && page <= pages && (pages <= tasks || pages == 1)
    ensures |PageHint(status, tasks, page, pages)| <= 200
  {
    hide Decimal;
    DecimalIsShort(tasks);
    DecimalIsShort(page);
    DecimalIsShort(pages);
    if page < pages { DecimalIsShort(page + 1); }
  }

  predicate AnyBad(mode: Mode, heading: Text, choices: seq<Choice>) {
    exists k :: 0 <= k < |choices| && BadChoice(Head(mode, heading), choices[k])
  }

  /** What a request for a page past the end is told. */
  function Outside(pages: nat): Text { OUT_OF_RANGE + Decimal(pages) + SEND_STATUS }

  /** It fits into a reply, however many pages there are. */
  lemma OutsideIsNotCut(mode: Mode, pages: nat)
    requires pages < 0x1_0000_0000
    ensures Fits(NoticeFrame(mode), Outside(pages))
  {
    hide Size, Suffix, Decimal;
    var f, content := NoticeFrame(mode), Outside(pages);
    DecimalIsShort(pages);
    SuffixIsShort(content);
    LengthIsUnits(Whole(f, content));
    assert |content| <= 100;
    assert |Whole(f, content)| <= 2 * |content| + 1 + |f.prefix|;
  }

  /** The page that is asked for; only a status notice has more than the first, and no number means the first. */
  function PageAsked(status: bool, statusPage: int): int { if !status || statusPage == 0 then 1 else statusPage }

  /**
   * `formatCommandNotice`, for rendered choices.  A page of rows is shown whole; without choices the heading is
   * the reply; a bad choice or page number throws, and a page past the end says how many there are.
   */
  method FormatCommandNotice(mode: Mode, heading: Text, choices: seq<Choice>, status: bool, statusPage: int)
    returns (r: Outcome<Text>, ghost pages: seq<seq<Text>>)
    requires |choices| < 0x1_0000_0000
    ensures !r.Crashed?
    ensures AnyBad(mode, heading, choices) || PageAsked(status, statusPage) < 1 ==> r.Thrown?
    ensures !AnyBad(mode, heading, choices) ==>
              if choices == [] then pages == [[]] else Greedy(pages, Rows(choices), PageFit(Head(mode, heading)))
    ensures var page := PageAsked(status, statusPage);
            !AnyBad(mode, heading, choices) && page >= 1 ==>
              if page > |pages| then r == Ok(Whole(NoticeFrame(mode), Outside(|pages|)))
              else if choices == [] then Replies(NoticeFrame(mode), heading, r)
              else r == Ok(Whole(NoticeFrame(mode),
                     PageContent(heading, pages[page - 1], PageHint(status, |choices|, page, |pages|))))
  {
    hide Greedy, PageFit, Fits, Decimal, Lines, Size, Throws, Outside, Exceeds, CutOf;
    pages := [];
    var paginated := Paginate(Head(mode, heading), choices);
    if !paginated.Ok? { return Thrown(0), pages; }
    pages := paginated.value;
    var page := if !status || statusPage == 0 then 1 else statusPage;
    if page < 1 { return Thrown(0), pages; }
    if choices != [] { PagesFit(Head(mode, heading), Rows(choices), paginated.value); }
    if page > |paginated.value| {
      OutsideIsNotCut(mode, |paginated.value|);
      r := FormatReply(Outside(|paginated.value|), mode, [], [], [], None, Units, MAX_REPLY_LENGTH);
      return r, pages;
    }
    var hint := PageHint(status, |choices|, page, |paginated.value|);
    var content := if choices == [] then heading + hint else PageContent(heading, paginated.value[page - 1], hint);
    if choices != [] {
      HintIsShort(status, |choices|, page, |paginated.value|);
      PageIsNotCut(mode, heading, pages[page - 1], hint);
    } else {
      assert hint == [] && heading + [] == heading;
    }
    r := FormatReply(content, mode, [], [], [], None, Units, MAX_REPLY_LENGTH);
  }

  lemma PagesFit(head: Text, rows: seq<Text>, pages: seq<seq<Text>>)
    requires Greedy(pages, rows, PageFit(head)) && rows != []
    ensures 0 < |pages| <= |rows| && forall k :: 0 <= k < |pages| ==> PageFit(head)(pages[k])
  {
    hide PageFit;
    GroupsAreFew(pages);
  }

  lemma {:induction false} GroupsAreFew(groups: seq<seq<Text>>)
    requires forall k :: 0 <= k < |groups| ==> groups[k] != []
    ensures |groups| <= |Flat(groups)|
  {
    if groups != [] { GroupsAreFew(groups[..|groups| - 1]); }
  }
}
