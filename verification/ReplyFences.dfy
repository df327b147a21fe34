/** Code fences (CommonMark 0.31.2, section 4.5) as a reply tracks them, and the line that closes an open one. */
module ReplyFences {
  import opened Effects
  import opened Utf16

  const LF: Unit := 10
  const CR: Unit := 13
  const SPACE: Unit := 32
  const BACKTICK: Unit := 96
  const TILDE: Unit := 126
  const LINE_SEPARATOR: Unit := 0x2028
  const PARAGRAPH_SEPARATOR: Unit := 0x2029

  /** `^` in a multi-line pattern stands after any of these; a fence line ends at a line feed only. */
  predicate Terminator(u: Unit) { u == LF || u == CR || u == LINE_SEPARATOR || u == PARAGRAPH_SEPARATOR }

  /** White space for `trim` and `\s`. */
  predicate White(u: Unit) {
    9 <= u <= 13 || u == 32 || u == 160 || u == 0x1680 || 0x2000 <= u <= 0x200A || u == 0x2028 || u == 0x2029
    || u == 0x202F || u == 0x205F || u == 0x3000 || u == 0xFEFF
  }

  predicate Blank(s: Text) { forall u :: u in s ==> White(u) }

  /** The fence that is open, if any. */
  datatype State = Shut | Open(indent: nat, mark: Unit, length: nat)

  /** The marker at the head of a fence line. */
  datatype Marker = Marker(indent: nat, mark: Unit, length: nat)

  predicate LineStart(s: Text, i: nat)
    requires i <= |s|
  {
    i == 0 || Terminator(s[i - 1])
  }

  /** Length of the run of `c` at `i`. */
  function Run(s: Text, i: nat, c: Unit): (n: nat)
    requires i <= |s|
    ensures i + n <= |s| && (forall k :: i <= k < i + n ==> s[k] == c)
    ensures i + n < |s| ==> s[i + n] != c
    decreases |s| - i
  {
    if i < |s| && s[i] == c then 1 + Run(s, i + 1, c) else 0
  }

  function EndOfLine(s: Text, i: nat): (e: nat)
    requires i <= |s|
    ensures i <= e <= |s| && LF !in s[i..e] && (e < |s| ==> s[e] == LF)
    decreases |s| - i
  {
    if i < |s| && s[i] != LF then
      var e := EndOfLine(s, i + 1);
      assert s[i..e] == [s[i]] + s[i + 1..e];
      e
    else i
  }

  /** Up to three spaces and then at least three of one marker. */
  function MarkerAt(s: Text, i: nat): (r: Option<Marker>)
    requires i <= |s|
    ensures r.Some? ==>
              var m := r.value;
              && m.indent <= 3 && m.length >= 3 && (m.mark == BACKTICK || m.mark == TILDE)
              && i + m.indent + m.length <= |s|
  {
    var spaces := Run(s, i, SPACE);
    if spaces > 3 || i + spaces == |s| then None
    else
      var mark := s[i + spaces];
      var length := Run(s, i + spaces, mark);
      if (mark == BACKTICK || mark == TILDE) && length >= 3 then Some(Marker(spaces, mark, length)) else None
  }

  lemma MarkerIsLine(s: Text, i: nat)
    requires i <= |s| && MarkerAt(s, i).Some?
    ensures var m := MarkerAt(s, i).value; s[i..i + m.indent + m.length] == Line(m.indent, m.mark, m.length)
  {
  }

  function Repeat(c: Unit, n: nat): (r: Text)
    ensures |r| == n && forall k :: 0 <= k < n ==> r[k] == c
  {
    seq(n, _ => c)
  }

  function Line(indent: nat, mark: Unit, length: nat): Text { Repeat(SPACE, indent) + Repeat(mark, length) }

  /** What a fence line does: open, close, or nothing. */
  function Toggle(m: Marker, rest: Text, st: State): State {
    if st.Shut? then
      if m.mark == TILDE || BACKTICK !in rest then Open(m.indent, m.mark, m.length) else Shut
    else if m.mark == st.mark && m.length >= st.length && Blank(rest) then Shut
    else st
  }

  function AfterLine(s: Text, i: nat, st: State): State
    requires i <= |s| && MarkerAt(s, i).Some?
  {
    var m := MarkerAt(s, i).value;
    Toggle(m, s[i + m.indent + m.length..LineEnd(s, i)], st)
  }

  /** Where the fence line at `i` ends. */
  function LineEnd(s: Text, i: nat): (e: nat)
    requires i <= |s| && MarkerAt(s, i).Some?
    ensures var m := MarkerAt(s, i).value; i < i + m.indent + m.length <= e <= |s|
  {
    var m := MarkerAt(s, i).value;
    EndOfLine(s, i + m.indent + m.length)
  }

  /** One step of the search for fence lines: past one that starts at `i`, or past one unit. */
  function Next(s: Text, i: nat, st: State): (r: (nat, State))
    requires i < |s|
    ensures i < r.0 <= |s|
  {
    if LineStart(s, i) && MarkerAt(s, i).Some? then (LineEnd(s, i), AfterLine(s, i, st)) else (i + 1, st)
  }

  /** The state after reading from `i` on: every fence line is considered, in order. */
  function Scan(s: Text, i: nat, st: State): State
    requires i <= |s|
    decreases |s| - i
  {
    if i == |s| then st else Scan(s, Next(s, i, st).0, Next(s, i, st).1)
  }

  function Closer(st: State): Text {
    if st.Shut? then [] else [LF] + Line(st.indent, st.mark, st.length)
  }

  /** The text to append so that no fence is left open. */
  function Suffix(s: Text): Text { Closer(Scan(s, 0, Shut)) }

  /** `replyFenceSuffix`, as the loop over the fence lines. */
  method ReplyFenceSuffix(text: Text) returns (r: Text)
    ensures r == Suffix(text)
  {
    hide Run, EndOfLine, MarkerAt, LineEnd, AfterLine;
    var fence := Shut;
    var i := 0;
    while i < |text|
      invariant i <= |text| && Scan(text, i, fence) == Scan(text, 0, Shut)
    {
      if LineStart(text, i) && MarkerAt(text, i).Some? {
        i, fence := LineEnd(text, i), AfterLine(text, i, fence);
      } else {
        i := i + 1;
      }
    }
    r := Closer(fence);
  }

  // ---- Closing works ---------------------------------------------------------------

  /** `u` continues `s` on a new line. */
  predicate Continues(u: Text, s: Text) { |s| < |u| && s == u[..|s|] && u[|s|] == LF }

  lemma {:induction false} EndBefore(u: Text, s: Text, i: nat)
    requires Continues(u, s) && i <= |s|
    ensures EndOfLine(u, i) == EndOfLine(s, i)
    decreases |s| - i
  {
  }

  /** What follows on a new line leaves the fence lines as they are. */
  lemma MarkerBefore(u: Text, s: Text, i: nat)
    requires Continues(u, s) && i < |s|
    ensures MarkerAt(u, i) == MarkerAt(s, i)
  {
  }

  lemma LineBefore(u: Text, s: Text, i: nat, st: State)
    requires Continues(u, s) && i < |s| && MarkerAt(s, i).Some? && MarkerAt(u, i) == MarkerAt(s, i)
    ensures LineEnd(u, i) == LineEnd(s, i) && AfterLine(u, i, st) == AfterLine(s, i, st)
  {
    hide Run, EndOfLine, MarkerAt;
    var m := MarkerAt(s, i).value;
    var from := i + m.indent + m.length;
    EndBefore(u, s, from);
    assert u[from..LineEnd(s, i)] == s[from..LineEnd(s, i)];
  }

  lemma {:induction false} ScanBefore(u: Text, s: Text, i: nat, st: State)
    requires Continues(u, s) && i <= |s|
    ensures Scan(u, i, st) == Scan(u, |s|, Scan(s, i, st))
    decreases |s| - i
  {
    if i < |s| {
      NextBefore(u, s, i, st);
      ScanBefore(u, s, Next(s, i, st).0, Next(s, i, st).1);
    }
  }

  lemma NextBefore(u: Text, s: Text, i: nat, st: State)
    requires Continues(u, s) && i < |s|
    ensures Next(u, i, st) == Next(s, i, st)
  {
    MarkerBefore(u, s, i);
    if MarkerAt(s, i).Some? { LineBefore(u, s, i, st); }
  }

  predicate Proper(st: State) {
    st.Open? ==> st.indent <= 3 && st.length >= 3 && (st.mark == BACKTICK || st.mark == TILDE)
  }

  /** An open fence was copied from the text, so its line is no longer than the text. */
  lemma {:induction false} OpenFenceIsInText(s: Text, i: nat, st: State)
    requires i <= |s| && Proper(st)
    ensures var r := Scan(s, i, st);
            Proper(r) && (r == st || r.Shut? || r.indent + r.length <= |s| - i)
    ensures var r := Scan(s, i, st);
            r.Open? && r != st && r.indent + r.length == |s| - i ==> s[i..] == Line(r.indent, r.mark, r.length)
    decreases |s| - i
  {
    if i < |s| {
      var (j, next) := Next(s, i, st);
      if MarkerAt(s, i).Some? { MarkerIsLine(s, i); }
      OpenFenceIsInText(s, j, next);
    }
  }

  /** A text that consists of an opening fence and nothing else. */
  ghost predicate MarkerOnly(s: Text) {
    exists m :: MarkerAt(s, 0) == Some(m) && s == Line(m.indent, m.mark, m.length)
  }

  /** The suffix is at most one longer than the text, and that only for a text that is a fence marker alone. */
  lemma SuffixIsShort(s: Text)
    ensures |Suffix(s)| <= |s| + 1
    ensures |Suffix(s)| == |s| + 1 ==> MarkerOnly(s)
  {
    OpenFenceIsInText(s, 0, Shut);
    assert s[0..] == s;
    var r := Scan(s, 0, Shut);
    if r.Open? && |Suffix(s)| == |s| + 1 {
      assert [] + Line(r.indent, r.mark, r.length) == s;
      LineAlone([], r.indent, r.mark, r.length);
    }
  }

  /** On a line of its own, the closing line is a fence line with nothing after the marker. */
  lemma CloserCloses(s: Text, st: State)
    requires st.Open? && Proper(st)
    ensures Scan(s + Closer(st), |s|, st) == Shut
  {
    var all := s + Closer(st);
    assert all == (s + [LF]) + Line(st.indent, st.mark, st.length);
    assert all[|s|] == LF;
    LineAlone(s + [LF], st.indent, st.mark, st.length);
    ClosingLine(all, |s| + 1, st);
    NotAMarker(all, |s|);
  }

  lemma NotAMarker(s: Text, i: nat)
    requires i < |s| && s[i] == LF
    ensures MarkerAt(s, i).None?
  {
  }

  lemma ClosingLine(s: Text, i: nat, st: State)
    requires 0 < i < |s| && s[i - 1] == LF && st.Open?
    requires MarkerAt(s, i) == Some(Marker(st.indent, st.mark, st.length))
    requires LineEnd(s, i) == |s| == i + st.indent + st.length
    ensures Scan(s, i, st) == Shut
  {
  }

  lemma LineAlone(s: Text, indent: nat, mark: Unit, length: nat)
    requires indent <= 3 && length >= 3 && (mark == BACKTICK || mark == TILDE)
    ensures var all := s + Line(indent, mark, length);
            MarkerAt(all, |s|) == Some(Marker(indent, mark, length)) && LineEnd(all, |s|) == |all|
  {
    var all := s + Line(indent, mark, length);
    assert forall k :: |s| <= k < |s| + indent ==> all[k] == SPACE;
    assert forall k :: |s| + indent <= k < |all| ==> all[k] == mark;
    RunIs(all, |s|, SPACE, indent);
    RunIs(all, |s| + indent, mark, length);
  }

  lemma {:induction false} RunIs(s: Text, i: nat, c: Unit, n: nat)
    requires i + n <= |s| && (forall k :: i <= k < i + n ==> s[k] == c) && (i + n < |s| ==> s[i + n] != c)
    ensures Run(s, i, c) == n
    decreases n
  {
  }

  /** Closed fences: appending the suffix leaves nothing to close. */
  lemma SuffixCloses(s: Text)
    ensures Suffix(s + Suffix(s)) == []
  {
    var st := Scan(s, 0, Shut);
    OpenFenceIsInText(s, 0, Shut);
    if st.Open? {
      ScanBefore(s + Closer(st), s, 0, Shut);
      CloserCloses(s, st);
    } else {
      assert s + Suffix(s) == s;
    }
  }

  // ---- Under a header --------------------------------------------------------------

  predicate EndsLine(p: Text) { p != [] && p[|p| - 1] == LF }

  /** `b` is what is in `u` from `p` on. */
  predicate Below(u: Text, p: nat, b: Text) {
    p + |b| == |u| && forall k {:trigger b[k]} :: 0 <= k < |b| ==> u[p + k] == b[k]
  }

  lemma {:induction false} RunShifted(u: Text, p: nat, b: Text, i: nat, c: Unit)
    requires Below(u, p, b) && i <= |b|
    ensures Run(u, p + i, c) == Run(b, i, c)
    decreases |b| - i
  {
    if i < |b| {
      assert u[p + i] == b[i];
      if b[i] == c { RunShifted(u, p, b, i + 1, c); }
    }
  }

  lemma {:induction false} EndShifted(u: Text, p: nat, b: Text, i: nat)
    requires Below(u, p, b) && i <= |b|
    ensures EndOfLine(u, p + i) == p + EndOfLine(b, i)
    decreases |b| - i
  {
    if i < |b| {
      assert u[p + i] == b[i];
      if b[i] != LF { EndShifted(u, p, b, i + 1); }
    }
  }

  lemma MarkerShifted(u: Text, p: nat, b: Text, i: nat)
    requires Below(u, p, b) && i < |b|
    ensures MarkerAt(u, p + i) == MarkerAt(b, i)
  {
    hide Run;
    RunShifted(u, p, b, i, SPACE);
    var spaces := Run(b, i, SPACE);
    if spaces <= 3 && i + spaces < |b| {
      assert u[p + i + spaces] == b[i + spaces];
      RunShifted(u, p, b, i + spaces, b[i + spaces]);
    }
  }

  lemma RestShifted(u: Text, p: nat, b: Text, from: nat, to: nat)
    requires Below(u, p, b) && from <= to <= |b|
    ensures u[p + from..p + to] == b[from..to]
  {
  }

  lemma LineShifted(u: Text, p: nat, b: Text, i: nat, st: State)
    requires Below(u, p, b) && i < |b| && MarkerAt(b, i).Some? && MarkerAt(u, p + i) == MarkerAt(b, i)
    ensures LineEnd(u, p + i) == p + LineEnd(b, i) && AfterLine(u, p + i, st) == AfterLine(b, i, st)
  {
    hide Run, EndOfLine, MarkerAt;
    var m := MarkerAt(b, i).value;
    var from := i + m.indent + m.length;
    EndShifted(u, p, b, from);
    RestShifted(u, p, b, from, LineEnd(b, i));
  }

  lemma {:induction false} ScanShifted(u: Text, p: nat, b: Text, i: nat, st: State)
    requires Below(u, p, b) && i <= |b| && LineStart(u, p)
    ensures Scan(u, p + i, st) == Scan(b, i, st)
    decreases |b| - i
  {
    if i < |b| {
      NextShifted(u, p, b, i, st);
      ScanShifted(u, p, b, Next(b, i, st).0, Next(b, i, st).1);
    }
  }

  lemma NextShifted(u: Text, p: nat, b: Text, i: nat, st: State)
    requires Below(u, p, b) && i < |b| && LineStart(u, p)
    ensures Next(u, p + i, st) == (p + Next(b, i, st).0, Next(b, i, st).1)
  {
    hide Run, EndOfLine, MarkerAt, AfterLine;
    MarkerShifted(u, p, b, i);
    assert i > 0 ==> u[p + i - 1] == b[i - 1];
    if MarkerAt(b, i).Some? { LineShifted(u, p, b, i, st); }
  }

  /** Below a header that ends its line and leaves no fence open, a body is closed by its own suffix. */
  lemma ClosedUnderHeader(header: Text, body: Text)
    requires EndsLine(header) && Suffix(header) == []
    ensures Suffix(header + body) == Suffix(body)
  {
    hide Run, EndOfLine, MarkerAt, AfterLine, LineEnd;
    var u, q := header + body, header[..|header| - 1];
    ScanBefore(header, q, 0, Shut);
    NotAMarker(header, |q|);
    ScanBefore(u, q, 0, Shut);
    NotAMarker(u, |q|);
    assert Scan(q, 0, Shut) == Shut;
    assert u[|header| - 1] == LF;
    ScanShifted(u, |header|, body, 0, Shut);
  }
}
