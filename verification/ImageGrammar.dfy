/**
 * What the scanner of images finds, independently of how it scans.
 *
 * A writer spells an image from its parts; the scanner recognises exactly what it
 * writes.  A reading divides a text into fence lines, escapes, code spans, images
 * and single units; the scanner finds exactly the images of the one reading.
 */
module ImageGrammar {
  import opened Effects
  import opened Utf16
  import opened ReplyFences
  import opened ImageScanner

  // ---- The writer -----------------------------------------------------------------------

  datatype Atom = Literal(unit: Unit) | Escape(unit: Unit)

  function Spell(a: Atom): Text { if a.Literal? then [a.unit] else [BACKSLASH, a.unit] }

  function Spelled(atoms: seq<Atom>): Text {
    if atoms == [] then [] else Spell(atoms[0]) + Spelled(atoms[1..])
  }

  /** How many more brackets are opened than closed. */
  function Level(atoms: seq<Atom>, open: Unit, close: Unit): int {
    if atoms == [] then 0
    else
      (if atoms[0] == Literal(open) then 1 else if atoms[0] == Literal(close) then -1 else 0)
      + Level(atoms[1..], open, close)
  }

  /** Inside `depth` open brackets, these are closed and no more, and only at the end are all of them. */
  ghost predicate Balanced(atoms: seq<Atom>, open: Unit, close: Unit, depth: nat) {
    && depth + Level(atoms, open, close) == 0
    && forall k :: 0 <= k <= |atoms| ==> depth + Level(atoms[..k], open, close) >= 0
  }

  predicate NoLiteral(atoms: seq<Atom>, u: Unit) { Literal(u) !in atoms }

  /** An alternative text: its brackets balance, and it does not leave its line but by an escape. */
  ghost predicate AltText(atoms: seq<Atom>, depth: nat) {
    Balanced(atoms, LEFT_BRACKET, RIGHT_BRACKET, depth) && NoLiteral(atoms, LF) && NoLiteral(atoms, BACKSLASH)
  }

  /** A destination without angle brackets: its parentheses balance, and white space is only inside them. */
  ghost predicate BareTarget(atoms: seq<Atom>, depth: nat) {
    && Balanced(atoms, LEFT_PAREN, RIGHT_PAREN, depth) && NoLiteral(atoms, BACKSLASH)
    && forall k :: 0 <= k < |atoms| && atoms[k].Literal? && White(atoms[k].unit) ==>
         depth + Level(atoms[..k], LEFT_PAREN, RIGHT_PAREN) > 0
  }

  predicate TitleText(atoms: seq<Atom>, quote: Unit) {
    NoLiteral(atoms, quote) && NoLiteral(atoms, LF) && NoLiteral(atoms, BACKSLASH)
  }

  /** A destination; one in angle brackets may end in a backslash that escapes nothing. */
  datatype Target = Angled(atoms: seq<Atom>, lone: bool) | Bare(atoms: seq<Atom>)

  datatype Title = Title(quote: Unit, atoms: seq<Atom>, after: Text)

  datatype Parts = Parts(alt: seq<Atom>, target: Target, gap: Text, title: Option<Title>)

  predicate AllBlank(s: Text) { forall u :: u in s ==> u == SPACE || u == TAB }

  function Inner(t: Target): Text { Spelled(t.atoms) + if t.Angled? && t.lone then [BACKSLASH] else [] }

  function WrittenTarget(t: Target): Text { if t.Angled? then [LESS] + Inner(t) + [GREATER] else Inner(t) }

  function WrittenTitle(t: Option<Title>): Text {
    if t.None? then [] else [t.value.quote] + Spelled(t.value.atoms) + [t.value.quote] + t.value.after
  }

  function Written(p: Parts): Text {
    [BANG, LEFT_BRACKET] + (Spelled(p.alt) + [RIGHT_BRACKET]) + [LEFT_PAREN]
    + (WrittenTarget(p.target) + (p.gap + (WrittenTitle(p.title) + [RIGHT_PAREN])))
  }

  ghost predicate ProperTarget(t: Target) {
    match t
    case Angled(atoms, _) => NoLiteral(atoms, BACKSLASH) && GREATER !in Inner(t)
    case Bare(atoms) => BareTarget(atoms, 0) && !At(Inner(t), 0, LESS)
  }

  predicate ProperTitle(t: Option<Title>) {
    t.Some? ==> (t.value.quote == QUOTE || t.value.quote == APOSTROPHE) && TitleText(t.value.atoms, t.value.quote)
                && AllBlank(t.value.after)
  }

  ghost predicate Proper(p: Parts) {
    && AltText(p.alt, 0) && ProperTarget(p.target) && AllBlank(p.gap) && ProperTitle(p.title)
    && (p.target.Bare? && p.title.Some? ==> p.gap != [])
  }

  /** What an escape stands for in a URL: parentheses and backslashes lose theirs. */
  function Meant(a: Atom): Text {
    if a.Escape? && (a.unit == LEFT_PAREN || a.unit == RIGHT_PAREN || a.unit == BACKSLASH) then [a.unit] else Spell(a)
  }

  function AllMeant(atoms: seq<Atom>): Text {
    if atoms == [] then [] else Meant(atoms[0]) + AllMeant(atoms[1..])
  }

  function UrlOf(t: Target): Text { AllMeant(t.atoms) + if t.Angled? && t.lone then [BACKSLASH] else [] }

  /** `t` stands in `s` at `i`. */
  predicate Has(s: Text, i: nat, t: Text) { i + |t| <= |s| && s[i..i + |t|] == t }

  ghost predicate Spells(s: Text, image: Image, p: Parts) {
    && Proper(p) && Has(s, image.start, Written(p))
    && image == Image(image.start, image.start + |Written(p)|, Spelled(p.alt), UrlOf(p.target))
  }

  ghost predicate IsImage(s: Text, image: Image) {
    exists p :: Spells(s, image, p)
  }

  // ---- What is written is read, and what is read was written ------------------------------

  lemma HasJoined(s: Text, i: nat, a: Text, b: Text)
    ensures Has(s, i, a + b) <==> Has(s, i, a) && Has(s, i + |a|, b)
  {
    if Has(s, i, a) && Has(s, i + |a|, b) {
      assert s[i..i + |a + b|] == s[i..i + |a|] + s[i + |a|..i + |a| + |b|];
    }
    if Has(s, i, a + b) {
      assert s[i..i + |a|] == (a + b)[..|a|] == a;
      assert s[i + |a|..i + |a| + |b|] == (a + b)[|a|..] == b;
    }
  }

  lemma HasUnit(s: Text, i: nat, u: Unit)
    ensures Has(s, i, [u]) <==> At(s, i, u)
  {
  }

  lemma HasAtom(s: Text, i: nat, atoms: seq<Atom>)
    requires Has(s, i, Spelled(atoms)) && atoms != []
    ensures Has(s, i, Spell(atoms[0])) && Has(s, i + |Spell(atoms[0])|, Spelled(atoms[1..]))
    ensures At(s, i, if atoms[0].Literal? then atoms[0].unit else BACKSLASH)
  {
    HasJoined(s, i, Spell(atoms[0]), Spelled(atoms[1..]));
    assert s[i..i + |Spell(atoms[0])|][0] == Spell(atoms[0])[0];
  }

  lemma HasMore(s: Text, i: nat, a: Atom, atoms: seq<Atom>)
    requires Has(s, i, Spell(a)) && Has(s, i + |Spell(a)|, Spelled(atoms))
    ensures Has(s, i, Spelled([a] + atoms)) && |Spelled([a] + atoms)| == |Spell(a)| + |Spelled(atoms)|
  {
    assert ([a] + atoms)[1..] == atoms;
    HasJoined(s, i, Spell(a), Spelled(atoms));
  }

  function Change(a: Atom, open: Unit, close: Unit): int {
    if a == Literal(open) then 1 else if a == Literal(close) then -1 else 0
  }

  lemma BalancedMore(a: Atom, atoms: seq<Atom>, open: Unit, close: Unit, depth: nat)
    requires depth + Change(a, open, close) >= 0
    ensures Balanced([a] + atoms, open, close, depth) <==>
              Balanced(atoms, open, close, depth + Change(a, open, close))
  {
    var all, more := [a] + atoms, depth + Change(a, open, close);
    assert all[1..] == atoms;
    forall k | 0 <= k <= |atoms|
      ensures Level(all[..k + 1], open, close) == Change(a, open, close) + Level(atoms[..k], open, close)
    {
      assert all[..k + 1][1..] == atoms[..k];
    }
    if Balanced(all, open, close, depth) {
      forall k | 0 <= k <= |atoms| ensures more + Level(atoms[..k], open, close) >= 0 {
        assert depth + Level(all[..k + 1], open, close) >= 0;
      }
    }
    if Balanced(atoms, open, close, more) {
      forall k | 0 <= k <= |all| ensures depth + Level(all[..k], open, close) >= 0 {
        if k > 0 { assert more + Level(atoms[..k - 1], open, close) >= 0; }
      }
    }
  }

  lemma BalancedFirst(atoms: seq<Atom>, open: Unit, close: Unit, depth: nat)
    requires Balanced(atoms, open, close, depth) && atoms != []
    ensures depth + Change(atoms[0], open, close) >= 0
    ensures Balanced(atoms[1..], open, close, depth + Change(atoms[0], open, close))
  {
    assert atoms[..1][1..] == [];
    assert Level(atoms[..1], open, close) == Change(atoms[0], open, close);
    assert [atoms[0]] + atoms[1..] == atoms;
    BalancedMore(atoms[0], atoms[1..], open, close, depth);
  }

  lemma BalancedNothing(open: Unit, close: Unit)
    ensures Balanced([], open, close, 0)
  {
  }

  predicate AltAtom(a: Atom, depth: nat) {
    a != Literal(LF) && a != Literal(BACKSLASH) && depth + Change(a, LEFT_BRACKET, RIGHT_BRACKET) >= 0
  }

  /** The depth behind an atom. */
  function Deeper(a: Atom, open: Unit, close: Unit, depth: nat): nat {
    if a == Literal(open) then depth + 1 else if a == Literal(close) && depth > 0 then depth - 1 else depth
  }

  /** One atom of an alternative text is passed over. */
  lemma AltStep(s: Text, j: nat, depth: nat, a: Atom)
    requires Has(s, j, Spell(a)) && AltAtom(a, depth)
    ensures CloseBracket(s, j, depth + 1)
              == CloseBracket(s, j + |Spell(a)|, Deeper(a, LEFT_BRACKET, RIGHT_BRACKET, depth) + 1)
  {
    assert s[j..j + |Spell(a)|][0] == s[j];
  }

  /** What the scanner passes over is an atom. */
  lemma AltAtomAt(s: Text, j: nat, depth: nat) returns (a: Atom)
    requires CloseBracket(s, j, depth + 1).Some? && !AltEnds(s, j, depth)
    ensures Has(s, j, Spell(a)) && AltAtom(a, depth)
  {
    a := if s[j] == BACKSLASH then Escape(s[j + 1]) else Literal(s[j]);
  }

  predicate AltEnds(s: Text, j: nat, depth: nat) { At(s, j, RIGHT_BRACKET) && depth == 0 }

  lemma AltFirst(atoms: seq<Atom>, depth: nat)
    requires AltText(atoms, depth) && atoms != []
    ensures AltAtom(atoms[0], depth) && AltText(atoms[1..], Deeper(atoms[0], LEFT_BRACKET, RIGHT_BRACKET, depth))
  {
    var a, rest := atoms[0], atoms[1..];
    BalancedFirst(atoms, LEFT_BRACKET, RIGHT_BRACKET, depth);
    assert a in atoms && forall x :: x in rest ==> x in atoms;
  }

  lemma AltMore(a: Atom, rest: seq<Atom>, depth: nat)
    requires AltAtom(a, depth) && AltText(rest, Deeper(a, LEFT_BRACKET, RIGHT_BRACKET, depth))
    ensures AltText([a] + rest, depth)
  {
    BalancedMore(a, rest, LEFT_BRACKET, RIGHT_BRACKET, depth);
  }

  lemma AltNothing(s: Text, j: nat, depth: nat)
    requires AltText([], depth) && At(s, j, RIGHT_BRACKET)
    ensures CloseBracket(s, j, depth + 1) == Some(j + 1)
  {
  }

  lemma AltClosed(s: Text, j: nat, depth: nat)
    requires AltEnds(s, j, depth)
    ensures CloseBracket(s, j, depth + 1) == Some(j + 1) && AltText([], depth)
  {
  }

  lemma AltBounds(s: Text, j: nat, depth: nat)
    requires CloseBracket(s, j, depth + 1).Some?
    ensures j < |s|
  {
  }

  lemma {:induction false} AltIsRead(s: Text, j: nat, depth: nat, atoms: seq<Atom>)
    requires AltText(atoms, depth) && Has(s, j, Spelled(atoms)) && At(s, j + |Spelled(atoms)|, RIGHT_BRACKET)
    ensures CloseBracket(s, j, depth + 1) == Some(j + |Spelled(atoms)| + 1)
    decreases atoms
  {
    hide AltText, AltAtom, Has, CloseBracket, Deeper;
    if atoms == [] {
      AltNothing(s, j, depth);
    } else {
      HasAtom(s, j, atoms);
      AltFirst(atoms, depth);
      AltStep(s, j, depth, atoms[0]);
      AltIsRead(s, j + |Spell(atoms[0])|, Deeper(atoms[0], LEFT_BRACKET, RIGHT_BRACKET, depth), atoms[1..]);
    }
  }

  lemma {:induction false} AltWasWritten(s: Text, j: nat, depth: nat) returns (atoms: seq<Atom>)
    requires CloseBracket(s, j, depth + 1).Some?
    ensures AltText(atoms, depth) && Has(s, j, Spelled(atoms))
    ensures CloseBracket(s, j, depth + 1) == Some(j + |Spelled(atoms)| + 1)
    ensures At(s, j + |Spelled(atoms)|, RIGHT_BRACKET)
    decreases |s| - j
  {
    hide AltText, AltAtom, AltEnds, CloseBracket, Deeper, At;
    AltBounds(s, j, depth);
    if AltEnds(s, j, depth) {
      atoms := [];
      AltClosed(s, j, depth);
      assert At(s, j, RIGHT_BRACKET) by { EndsAtBracket(s, j, depth); }
    } else {
      var a := AltAtomAt(s, j, depth);
      AltStep(s, j, depth, a);
      var rest := AltWasWritten(s, j + |Spell(a)|, Deeper(a, LEFT_BRACKET, RIGHT_BRACKET, depth));
      AltMore(a, rest, depth);
      HasMore(s, j, a, rest);
      atoms := [a] + rest;
    }
  }

  lemma EndsAtBracket(s: Text, j: nat, depth: nat)
    requires AltEnds(s, j, depth)
    ensures At(s, j, RIGHT_BRACKET)
  {
  }

  /** A unit at which a destination without angle brackets ends, outside parentheses. */
  predicate EndsTarget(u: Unit) { u == RIGHT_PAREN || White(u) }

  predicate BareEnds(s: Text, j: nat, depth: nat) { j < |s| && EndsTarget(s[j]) && depth == 0 }

  predicate BareAtom(a: Atom, depth: nat) {
    a != Literal(BACKSLASH) && depth + Change(a, LEFT_PAREN, RIGHT_PAREN) >= 0
    && (a.Literal? && White(a.unit) ==> depth > 0)
  }

  lemma BareStep(s: Text, j: nat, depth: nat, a: Atom)
    requires Has(s, j, Spell(a)) && BareAtom(a, depth)
    ensures BareEnd(s, j, depth) == BareEnd(s, j + |Spell(a)|, Deeper(a, LEFT_PAREN, RIGHT_PAREN, depth))
  {
    assert s[j..j + |Spell(a)|][0] == s[j];
  }

  lemma BareAtomAt(s: Text, j: nat, depth: nat) returns (a: Atom)
    requires BareEnd(s, j, depth) < |s| && !BareEnds(s, j, depth)
    ensures Has(s, j, Spell(a)) && BareAtom(a, depth)
  {
    a := if s[j] == BACKSLASH then Escape(s[j + 1]) else Literal(s[j]);
  }

  lemma BareFirst(atoms: seq<Atom>, depth: nat)
    requires BareTarget(atoms, depth) && atoms != []
    ensures BareAtom(atoms[0], depth) && BareTarget(atoms[1..], Deeper(atoms[0], LEFT_PAREN, RIGHT_PAREN, depth))
  {
    var a, rest := atoms[0], atoms[1..];
    BalancedFirst(atoms, LEFT_PAREN, RIGHT_PAREN, depth);
    assert a in atoms && forall x :: x in rest ==> x in atoms;
    assert atoms[..0] == [];
    forall k | 0 <= k < |rest| && rest[k].Literal? && White(rest[k].unit)
      ensures depth + Change(a, LEFT_PAREN, RIGHT_PAREN) + Level(rest[..k], LEFT_PAREN, RIGHT_PAREN) > 0
    {
      assert atoms[k + 1] == rest[k] && atoms[..k + 1][1..] == rest[..k];
    }
  }

  lemma BareMore(a: Atom, rest: seq<Atom>, depth: nat)
    requires BareAtom(a, depth) && BareTarget(rest, Deeper(a, LEFT_PAREN, RIGHT_PAREN, depth))
    ensures BareTarget([a] + rest, depth)
  {
    var atoms := [a] + rest;
    BalancedMore(a, rest, LEFT_PAREN, RIGHT_PAREN, depth);
    forall k | 0 <= k < |atoms| && atoms[k].Literal? && White(atoms[k].unit)
      ensures depth + Level(atoms[..k], LEFT_PAREN, RIGHT_PAREN) > 0
    {
      if k > 0 { assert atoms[..k][1..] == rest[..k - 1] && atoms[k] == rest[k - 1]; }
    }
  }

  lemma BareNothing(s: Text, j: nat, depth: nat)
    requires BareTarget([], depth) && j < |s| && EndsTarget(s[j])
    ensures BareEnd(s, j, depth) == j
  {
    assert depth + Level([], LEFT_PAREN, RIGHT_PAREN) == 0;
  }

  lemma BareClosed(s: Text, j: nat, depth: nat)
    requires BareEnds(s, j, depth)
    ensures BareEnd(s, j, depth) == j && BareTarget([], depth) && EndsTarget(s[j])
  {
  }

  lemma {:induction false} BareIsRead(s: Text, j: nat, depth: nat, atoms: seq<Atom>)
    requires BareTarget(atoms, depth) && Has(s, j, Spelled(atoms))
    requires j + |Spelled(atoms)| < |s| && EndsTarget(s[j + |Spelled(atoms)|])
    ensures BareEnd(s, j, depth) == j + |Spelled(atoms)|
    decreases atoms
  {
    hide BareTarget, BareAtom, Has, BareEnd, Deeper, EndsTarget;
    if atoms == [] {
      BareNothing(s, j, depth);
    } else {
      HasAtom(s, j, atoms);
      BareFirst(atoms, depth);
      BareStep(s, j, depth, atoms[0]);
      BareIsRead(s, j + |Spell(atoms[0])|, Deeper(atoms[0], LEFT_PAREN, RIGHT_PAREN, depth), atoms[1..]);
    }
  }

  lemma {:induction false} BareWasWritten(s: Text, j: nat, depth: nat) returns (atoms: seq<Atom>)
    requires BareEnd(s, j, depth) < |s|
    ensures BareTarget(atoms, depth) && Has(s, j, Spelled(atoms)) && BareEnd(s, j, depth) == j + |Spelled(atoms)|
    ensures EndsTarget(s[BareEnd(s, j, depth)])
    decreases |s| - j
  {
    hide BareTarget, BareAtom, BareEnds, BareEnd, Deeper, EndsTarget;
    if BareEnds(s, j, depth) {
      atoms := [];
      BareClosed(s, j, depth);
    } else {
      var a := BareAtomAt(s, j, depth);
      BareStep(s, j, depth, a);
      var rest := BareWasWritten(s, j + |Spell(a)|, Deeper(a, LEFT_PAREN, RIGHT_PAREN, depth));
      BareMore(a, rest, depth);
      HasMore(s, j, a, rest);
      atoms := [a] + rest;
    }
  }

  predicate TitleAtom(a: Atom, quote: Unit) { a != Literal(quote) && a != Literal(LF) && a != Literal(BACKSLASH) }

  lemma TitleStep(s: Text, j: nat, quote: Unit, a: Atom)
    requires Has(s, j, Spell(a)) && TitleAtom(a, quote) && quote != BACKSLASH
    ensures QuoteEnd(s, j, quote) == QuoteEnd(s, j + |Spell(a)|, quote)
  {
    assert s[j..j + |Spell(a)|][0] == s[j];
  }

  lemma TitleAtomAt(s: Text, j: nat, quote: Unit) returns (a: Atom)
    requires At(s, QuoteEnd(s, j, quote), quote) && !At(s, j, quote)
    ensures Has(s, j, Spell(a)) && TitleAtom(a, quote)
  {
    a := if s[j] == BACKSLASH then Escape(s[j + 1]) else Literal(s[j]);
  }

  lemma TitleFirst(atoms: seq<Atom>, quote: Unit)
    requires TitleText(atoms, quote) && atoms != []
    ensures TitleAtom(atoms[0], quote) && TitleText(atoms[1..], quote)
  {
    assert atoms[0] in atoms && forall x :: x in atoms[1..] ==> x in atoms;
  }

  lemma {:induction false} TitleIsRead(s: Text, j: nat, quote: Unit, atoms: seq<Atom>)
    requires quote != BACKSLASH && TitleText(atoms, quote) && Has(s, j, Spelled(atoms))
    requires At(s, j + |Spelled(atoms)|, quote)
    ensures QuoteEnd(s, j, quote) == j + |Spelled(atoms)|
    decreases atoms
  {
    if atoms != [] {
      hide TitleText, TitleAtom, Has, QuoteEnd;
      HasAtom(s, j, atoms);
      TitleFirst(atoms, quote);
      TitleStep(s, j, quote, atoms[0]);
      TitleIsRead(s, j + |Spell(atoms[0])|, quote, atoms[1..]);
    }
  }

  lemma {:induction false} TitleWasWritten(s: Text, j: nat, quote: Unit) returns (atoms: seq<Atom>)
    requires quote != BACKSLASH && At(s, QuoteEnd(s, j, quote), quote)
    ensures TitleText(atoms, quote) && Has(s, j, Spelled(atoms)) && QuoteEnd(s, j, quote) == j + |Spelled(atoms)|
    decreases |s| - j
  {
    if At(s, j, quote) {
      atoms := [];
    } else {
      var a := TitleAtomAt(s, j, quote);
      hide QuoteEnd;
      TitleStep(s, j, quote, a);
      TitleBounds(s, j, quote);
      var rest := TitleWasWritten(s, j + |Spell(a)|, quote);
      HasMore(s, j, a, rest);
      atoms := [a] + rest;
    }
  }

  lemma TitleBounds(s: Text, j: nat, quote: Unit)
    requires At(s, QuoteEnd(s, j, quote), quote)
    ensures j < |s|
  {
  }

  lemma {:induction false} BlanksAreRead(s: Text, j: nat, gap: Text)
    requires AllBlank(gap) && Has(s, j, gap)
    ensures Blanks(s, j) == Blanks(s, j + |gap|)
    decreases gap
  {
    if gap != [] {
      assert gap[0] in gap && forall u :: u in gap[1..] ==> u in gap;
      assert s[j] == s[j..j + |gap|][0];
      assert s[j + 1..j + |gap|] == s[j..j + |gap|][1..];
      BlanksAreRead(s, j + 1, gap[1..]);
    }
  }

  lemma {:induction false} BlanksWereWritten(s: Text, j: nat)
    requires j <= |s|
    ensures var e := Blanks(s, j); e <= |s| && AllBlank(s[j..e])
    decreases |s| - j
  {
    if At(s, j, SPACE) || At(s, j, TAB) {
      BlanksWereWritten(s, j + 1);
      assert s[j..Blanks(s, j)] == [s[j]] + s[j + 1..Blanks(s, j)];
    }
  }

  lemma NoBlank(s: Text, j: nat)
    requires !At(s, j, SPACE) && !At(s, j, TAB)
    ensures Blanks(s, j) == j
  {
  }

  lemma {:induction false} FindIs(s: Text, j: nat, u: Unit, e: nat)
    requires j <= e && At(s, e, u) && forall k :: j <= k < e ==> s[k] != u
    ensures Find(s, j, u) == e
    decreases e - j
  {
    if j < e { FindIs(s, j + 1, u, e); }
  }

  lemma {:induction false} FindIsFirst(s: Text, j: nat, u: Unit)
    requires j <= |s| && Find(s, j, u) < |s|
    ensures u !in s[j..Find(s, j, u)]
    decreases |s| - j
  {
    if s[j] != u {
      FindIsFirst(s, j + 1, u);
      assert s[j..Find(s, j, u)] == [s[j]] + s[j + 1..Find(s, j, u)];
    }
  }

  /** Whatever is escaped, the URL says what was meant; a backslash at its end stays. */
  lemma {:induction false} UnescapeMeans(atoms: seq<Atom>, tail: Text)
    requires NoLiteral(atoms, BACKSLASH) && (tail == [] || tail == [BACKSLASH])
    ensures Unescape(Spelled(atoms) + tail) == AllMeant(atoms) + tail
  {
    hide Unescape, Spell, Meant;
    if atoms == [] {
      UnescapeTail(tail);
      assert [] + tail == tail;
    } else {
      var a, spelled, meant := atoms[0], Spelled(atoms[1..]), AllMeant(atoms[1..]);
      assert a in atoms && forall x :: x in atoms[1..] ==> x in atoms;
      UnescapeMeans(atoms[1..], tail);
      UnescapeStep(a, spelled + tail);
      Regroup(Spell(a), spelled, tail);
      Regroup(Meant(a), meant, tail);
    }
  }

  lemma Regroup(a: Text, b: Text, c: Text)
    ensures (a + b) + c == a + (b + c)
  {
  }

  lemma UnescapeTail(tail: Text)
    requires tail == [] || tail == [BACKSLASH]
    ensures Unescape(tail) == tail
  {
    assert Unescape([]) == [] && [BACKSLASH][1..] == [];
    assert tail == [BACKSLASH] ==> Unescape(tail) == [tail[0]] + Unescape(tail[1..]);
  }

  lemma UnescapeStep(a: Atom, rest: Text)
    requires a != Literal(BACKSLASH)
    ensures Unescape(Spell(a) + rest) == Meant(a) + Unescape(rest)
  {
    var t := Spell(a) + rest;
    if a.Literal? {
      assert t[0] == a.unit && t[1..] == rest;
    } else {
      assert t[0] == BACKSLASH && t[1] == a.unit && t[2..] == rest;
      if Meant(a) == Spell(a) {
        assert t[1..][0] == a.unit && t[1..][1..] == rest;
        assert Unescape(t) == [t[0]] + Unescape(t[1..]);
      }
    }
  }

  /** Every text is what some atoms spell, up to a backslash that escapes nothing. */
  lemma {:induction false} Atomised(s: Text) returns (atoms: seq<Atom>, lone: bool)
    ensures NoLiteral(atoms, BACKSLASH) && s == Spelled(atoms) + if lone then [BACKSLASH] else []
    decreases |s|
  {
    if |s| <= 1 {
      atoms, lone := if s == [] || s[0] == BACKSLASH then [] else [Literal(s[0])], s == [BACKSLASH];
      assert s != [] ==> s == [s[0]] && Spelled([Literal(s[0])]) == [s[0]] + Spelled([]);
    } else {
      var a := if s[0] == BACKSLASH then Escape(s[1]) else Literal(s[0]);
      var rest;
      rest, lone := Atomised(s[|Spell(a)|..]);
      atoms := [a] + rest;
      assert atoms[1..] == rest && s == Spell(a) + s[|Spell(a)|..];
    }
  }

  /** A URL can be written so that the scanner gives it back. */
  lemma {:induction false} EscapedUrl(url: Text) returns (atoms: seq<Atom>)
    ensures NoLiteral(atoms, BACKSLASH) && NoLiteral(atoms, LEFT_PAREN) && NoLiteral(atoms, RIGHT_PAREN)
    ensures AllMeant(atoms) == url == Unescape(Spelled(atoms))
  {
    if url == [] {
      atoms := [];
    } else {
      var special := url[0] == LEFT_PAREN || url[0] == RIGHT_PAREN || url[0] == BACKSLASH;
      var rest := EscapedUrl(url[1..]);
      atoms := [if special then Escape(url[0]) else Literal(url[0])] + rest;
      assert atoms[1..] == rest && url == [url[0]] + url[1..];
      UnescapeMeans(atoms, []);
      assert Spelled(atoms) + [] == Spelled(atoms);
    }
  }

  lemma UrlIsMeant(t: Target)
    requires ProperTarget(t)
    ensures Url(WrittenTarget(t)) == UrlOf(t)
  {
    hide BareTarget, Unescape;
    var raw := WrittenTarget(t);
    NoBackslash(t);
    UnescapeMeans(t.atoms, if t.Angled? && t.lone then [BACKSLASH] else []);
    if t.Angled? { assert raw[0] == LESS && raw[1..|raw| - 1] == Inner(t); }
  }

  lemma NoBackslash(t: Target)
    requires ProperTarget(t)
    ensures NoLiteral(t.atoms, BACKSLASH)
  {
  }

  /** Where a destination ends, and where the text goes on. */
  function TargetEnds(start: nat, t: Target): (nat, nat) {
    var e := start + |WrittenTarget(t)|;
    if t.Angled? then (start + 1 + |Inner(t)|, e) else (e, e)
  }

  lemma TargetIsRead(s: Text, start: nat, t: Target)
    requires ProperTarget(t) && Has(s, start, WrittenTarget(t))
    requires var e := start + |WrittenTarget(t)|; e < |s| && (t.Bare? ==> EndsTarget(s[e]))
    ensures Destination(s, start) == Some(TargetEnds(start, t))
    ensures At(s, start, LESS) <==> t.Angled?
  {
    hide Destination;
    if t.Angled? { AngledIsRead(s, start, t); } else { BareIsWhole(s, start, t); }
  }

  lemma AngledIsRead(s: Text, start: nat, t: Target)
    requires ProperTarget(t) && Has(s, start, WrittenTarget(t)) && t.Angled?
    ensures Destination(s, start) == Some(TargetEnds(start, t)) && At(s, start, LESS)
  {
    hide BareTarget, BareEnd, Find, EndsTarget, Has, Spelled;
    var inner := Inner(t);
    var close := start + 1 + |inner|;
    Regroup([LESS], inner, [GREATER]);
    HasJoined(s, start, [LESS], inner + [GREATER]);
    HasJoined(s, start + 1, inner, [GREATER]);
    HasUnit(s, start, LESS);
    HasUnit(s, close, GREATER);
    forall k | start + 1 <= k < close ensures s[k] != GREATER { HasAt(s, start + 1, inner, k - start - 1); }
    FindIs(s, start + 1, GREATER, close);
  }

  lemma HasAt(s: Text, i: nat, t: Text, m: nat)
    requires Has(s, i, t) && m < |t|
    ensures At(s, i + m, t[m])
  {
    assert s[i..i + |t|][m] == s[i + m];
  }

  lemma BareIsWhole(s: Text, start: nat, t: Target)
    requires ProperTarget(t) && Has(s, start, WrittenTarget(t)) && t.Bare?
    requires var e := start + |WrittenTarget(t)|; e < |s| && EndsTarget(s[e])
    ensures Destination(s, start) == Some(TargetEnds(start, t)) && !At(s, start, LESS)
  {
    hide BareTarget, BareEnd, Find, EndsTarget;
    var w, inner := WrittenTarget(t), Inner(t);
    assert forall k {:trigger w[k]} :: 0 <= k < |w| ==> s[start + k] == s[start..start + |w|][k] == w[k];
    assert inner == Spelled(t.atoms);
    BareIsRead(s, start, 0, t.atoms);
    if inner == [] { NotLess(s[start]); } else { assert s[start] == inner[0]; }
  }

  lemma NotLess(u: Unit)
    requires EndsTarget(u)
    ensures u != LESS
  {
  }

  lemma AngledWasWritten(s: Text, start: nat) returns (t: Target)
    requires At(s, start, LESS) && Find(s, start + 1, GREATER) < |s|
    ensures t.Angled? && ProperTarget(t) && Has(s, start, WrittenTarget(t))
    ensures TargetEnds(start, t) == (Find(s, start + 1, GREATER), Find(s, start + 1, GREATER) + 1)
  {
    hide Find, Spelled;
    var close := Find(s, start + 1, GREATER);
    FindIsFirst(s, start + 1, GREATER);
    var atoms, lone := Atomised(s[start + 1..close]);
    t := Angled(atoms, lone);
    assert s[start..close + 1] == [LESS] + s[start + 1..close] + [GREATER];
  }

  lemma TargetWasWritten(s: Text, start: nat) returns (t: Target)
    requires start <= |s| && Destination(s, start).Some? && Destination(s, start).value.1 < |s|
    ensures ProperTarget(t) && Has(s, start, WrittenTarget(t))
    ensures Destination(s, start) == Some(TargetEnds(start, t))
    ensures t.Bare? ==> EndsTarget(s[start + |WrittenTarget(t)|])
  {
    hide BareTarget, BareEnd, EndsTarget, Spelled;
    if At(s, start, LESS) {
      t := AngledWasWritten(s, start);
    } else {
      var atoms := BareWasWritten(s, start, 0);
      t := Bare(atoms);
      assert Inner(t) == Spelled(atoms) + [] == Spelled(atoms);
      assert Inner(t) != [] ==> s[start] == s[start..start + |Inner(t)|][0];
    }
  }

  lemma TitleIsWhole(s: Text, j: nat, title: Title)
    requires ProperTitle(Some(title)) && Has(s, j, WrittenTitle(Some(title)))
    requires At(s, j + |WrittenTitle(Some(title))|, RIGHT_PAREN)
    ensures TitleEnd(s, j) == Some(j + |WrittenTitle(Some(title))|) && At(s, j, title.quote)
  {
    hide QuoteEnd, Blanks, TitleText, AllBlank, Has, Spelled, WrittenTitle;
    var q, text, after := title.quote, Spelled(title.atoms), title.after;
    var e := j + 1 + |text|;
    TitleHas(s, j, title);
    TitleIsRead(s, j + 1, q, title.atoms);
    BlanksAreRead(s, e + 1, after);
    NoBlank(s, e + 1 + |after|);
  }

  /** The parts of a title, each in its place. */
  lemma TitleHas(s: Text, j: nat, title: Title)
    requires Has(s, j, WrittenTitle(Some(title)))
    ensures var text := Spelled(title.atoms);
            var e := j + 1 + |text|;
            && |WrittenTitle(Some(title))| == |text| + |title.after| + 2 && Has(s, j + 1, text)
            && At(s, j, title.quote) && At(s, e, title.quote) && Has(s, e + 1, title.after)
  {
    hide Has, Spelled;
    var q, text, after := title.quote, Spelled(title.atoms), title.after;
    var e := j + 1 + |text|;
    Regroup([q] + text, [q], after);
    Regroup([q], text, [q] + after);
    HasJoined(s, j, [q], text + ([q] + after));
    HasJoined(s, j + 1, text, [q] + after);
    HasJoined(s, e, [q], after);
    HasUnit(s, j, q);
    HasUnit(s, e, q);
  }

  lemma EndIsRead(s: Text, j: nat, gap: Text, title: Option<Title>)
    requires AllBlank(gap) && ProperTitle(title) && Has(s, j, gap + (WrittenTitle(title) + [RIGHT_PAREN]))
    ensures var e := j + |gap| + |WrittenTitle(title)|;
            TitleEnd(s, Blanks(s, j)) == Some(e) && At(s, e, RIGHT_PAREN)
  {
    hide TitleEnd, AllBlank, Has;
    var k, w := j + |gap|, WrittenTitle(title);
    HasJoined(s, j, gap, w + [RIGHT_PAREN]);
    HasJoined(s, k, w, [RIGHT_PAREN]);
    HasUnit(s, k + |w|, RIGHT_PAREN);
    BlanksAreRead(s, j, gap);
    if title.Some? { TitleIsWhole(s, k, title.value); } else { NoTitle(s, k); }
    NoBlank(s, k);
  }

  lemma NoTitle(s: Text, k: nat)
    requires At(s, k, RIGHT_PAREN)
    ensures TitleEnd(s, k) == Some(k)
  {
  }

  /** What is written at `i`, part by part. */
  lemma HasParts(s: Text, i: nat, p: Parts)
    requires Has(s, i, Written(p))
    ensures var b := i + 3 + |Spelled(p.alt)|; var start := b + 1; var j := start + |WrittenTarget(p.target)|;
            && At(s, i, BANG) && At(s, i + 1, LEFT_BRACKET) && Has(s, i + 2, Spelled(p.alt))
            && At(s, b - 1, RIGHT_BRACKET) && At(s, b, LEFT_PAREN)
            && Has(s, start, WrittenTarget(p.target)) && Has(s, j, p.gap + (WrittenTitle(p.title) + [RIGHT_PAREN]))
            && i + |Written(p)| == j + |p.gap| + |WrittenTitle(p.title)| + 1
  {
    hide Spelled, WrittenTarget, WrittenTitle, Has;
    var alt, target, end := Spelled(p.alt), WrittenTarget(p.target), p.gap + (WrittenTitle(p.title) + [RIGHT_PAREN]);
    var b := i + 3 + |alt|;
    var open: Text := [BANG, LEFT_BRACKET];
    HasJoined(s, i, open + (alt + [RIGHT_BRACKET]) + [LEFT_PAREN], target + end);
    HasJoined(s, i, open + (alt + [RIGHT_BRACKET]), [LEFT_PAREN]);
    HasJoined(s, i, open, alt + [RIGHT_BRACKET]);
    HasJoined(s, i, [BANG], [LEFT_BRACKET]);
    assert [BANG] + [LEFT_BRACKET] == open;
    HasJoined(s, i + 2, alt, [RIGHT_BRACKET]);
    HasJoined(s, b + 1, target, end);
    HasUnit(s, i, BANG);
    HasUnit(s, i + 1, LEFT_BRACKET);
    HasUnit(s, b - 1, RIGHT_BRACKET);
    HasUnit(s, b, LEFT_PAREN);
  }

  /** And the other way round. */
  lemma HasWhole(s: Text, i: nat, p: Parts)
    requires At(s, i, BANG) && At(s, i + 1, LEFT_BRACKET) && Has(s, i + 2, Spelled(p.alt))
    requires var b := i + 3 + |Spelled(p.alt)|; var start := b + 1; var j := start + |WrittenTarget(p.target)|;
             && At(s, b - 1, RIGHT_BRACKET) && At(s, b, LEFT_PAREN)
             && Has(s, start, WrittenTarget(p.target)) && Has(s, j, p.gap + (WrittenTitle(p.title) + [RIGHT_PAREN]))
    ensures Has(s, i, Written(p))
  {
    hide Spelled, WrittenTarget, WrittenTitle, Has;
    var alt, target, end := Spelled(p.alt), WrittenTarget(p.target), p.gap + (WrittenTitle(p.title) + [RIGHT_PAREN]);
    var b := i + 3 + |alt|;
    var open: Text := [BANG, LEFT_BRACKET];
    HasUnit(s, i, BANG);
    HasUnit(s, i + 1, LEFT_BRACKET);
    HasUnit(s, b - 1, RIGHT_BRACKET);
    HasUnit(s, b, LEFT_PAREN);
    HasJoined(s, b + 1, target, end);
    HasJoined(s, i + 2, alt, [RIGHT_BRACKET]);
    assert [BANG] + [LEFT_BRACKET] == open;
    HasJoined(s, i, [BANG], [LEFT_BRACKET]);
    HasJoined(s, i, open, alt + [RIGHT_BRACKET]);
    HasJoined(s, i, open + (alt + [RIGHT_BRACKET]), [LEFT_PAREN]);
    HasJoined(s, i, open + (alt + [RIGHT_BRACKET]) + [LEFT_PAREN], target + end);
  }

  /** Behind a destination without angle brackets comes white space or a parenthesis. */
  lemma TargetStops(s: Text, i: nat, p: Parts)
    requires Proper(p) && Has(s, i, Written(p)) && p.target.Bare?
    ensures var j := i + 4 + |Spelled(p.alt)| + |WrittenTarget(p.target)|; j < |s| && EndsTarget(s[j])
  {
    hide AltText, ProperTarget, Spelled, WrittenTarget, Written;
    HasParts(s, i, p);
    var j, end := i + 4 + |Spelled(p.alt)| + |WrittenTarget(p.target)|, p.gap + (WrittenTitle(p.title) + [RIGHT_PAREN]);
    assert s[j] == s[j..j + |end|][0] == end[0];
    if p.gap != [] { assert p.gap[0] in p.gap; }
  }

  lemma HasIsSlice(s: Text, i: nat, t: Text)
    requires Has(s, i, t)
    ensures i + |t| <= |s| && s[i..i + |t|] == t
  {
  }

  /** The parts of an image, once found, make it. */
  lemma PartsAreToken(s: Text, i: nat, b: nat, t: Target, close: nat)
    requires At(s, i, BANG) && At(s, i + 1, LEFT_BRACKET) && CloseBracket(s, i + 2, 1) == Some(b)
    requires At(s, b, LEFT_PAREN) && Destination(s, b + 1) == Some(TargetEnds(b + 1, t))
    requires At(s, b + 1, LESS) <==> t.Angled?
    requires Has(s, b + 1, WrittenTarget(t)) && ProperTarget(t)
    requires TitleEnd(s, Blanks(s, b + 1 + |WrittenTarget(t)|)) == Some(close) && At(s, close, RIGHT_PAREN)
    ensures TokenAt(s, i) == Some(Image(i, close + 1, s[i + 2..b - 1], UrlOf(t)))
  {
    hide ProperTarget, WrittenTarget, UrlOf, CloseBracket, Destination, TitleEnd, Blanks, Url, TargetEnds, Has;
    EndsAt(b + 1, t);
    UrlIsMeant(t);
    HasIsSlice(s, b + 1, WrittenTarget(t));
  }

  /** What is written is found as an image, with the text and the URL that were meant. */
  lemma WrittenIsRead(s: Text, i: nat, p: Parts)
    requires Proper(p) && Has(s, i, Written(p))
    ensures TokenAt(s, i) == Some(Image(i, i + |Written(p)|, Spelled(p.alt), UrlOf(p.target)))
  {
    hide AltText, ProperTarget, ProperTitle, AllBlank, Spelled, WrittenTarget, WrittenTitle, Written, UrlOf, EndsTarget;
    hide CloseBracket, Destination, TitleEnd, Blanks, TargetEnds, TokenAt, Has;
    var b := i + 3 + |Spelled(p.alt)|;
    HasParts(s, i, p);
    AltIsRead(s, i + 2, 0, p.alt);
    if p.target.Bare? { TargetStops(s, i, p); }
    HasIsSlice(s, i, Written(p));
    TargetIsRead(s, b + 1, p.target);
    EndIsRead(s, b + 1 + |WrittenTarget(p.target)|, p.gap, p.title);
    PartsAreToken(s, i, b, p.target, i + |Written(p)| - 1);
    HasIsSlice(s, i + 2, Spelled(p.alt));
  }

  lemma EndsAt(start: nat, t: Target)
    ensures TargetEnds(start, t).1 == start + |WrittenTarget(t)|
    ensures TargetEnds(start, t).0 + (if t.Angled? then 1 else 0) == start + |WrittenTarget(t)|
  {
  }

  /** The end of an image: blanks, a title, and blanks behind it. */
  lemma EndWasWritten(s: Text, j: nat) returns (gap: Text, title: Option<Title>)
    requires j <= |s| && TitleEnd(s, Blanks(s, j)).Some? && At(s, TitleEnd(s, Blanks(s, j)).value, RIGHT_PAREN)
    ensures AllBlank(gap) && ProperTitle(title) && Has(s, j, gap + (WrittenTitle(title) + [RIGHT_PAREN]))
    ensures TitleEnd(s, Blanks(s, j)).value == j + |gap| + |WrittenTitle(title)|
    ensures gap == s[j..j + |gap|] && !At(s, j + |gap|, SPACE) && !At(s, j + |gap|, TAB)
  {
    hide QuoteEnd, Blanks, TitleText, AllBlank;
    BlanksWereWritten(s, j);
    var k := Blanks(s, j);
    BlanksEnd(s, j);
    gap := s[j..k];
    if At(s, k, QUOTE) || At(s, k, APOSTROPHE) {
      var t := TitleAround(s, k);
      title := Some(t);
    } else {
      title := None;
    }
    var w, e := WrittenTitle(title), TitleEnd(s, k).value;
    HasUnit(s, e, RIGHT_PAREN);
    HasJoined(s, k, w, [RIGHT_PAREN]);
    HasJoined(s, j, gap, w + [RIGHT_PAREN]);
  }

  lemma {:induction false} BlanksEnd(s: Text, j: nat)
    ensures !At(s, Blanks(s, j), SPACE) && !At(s, Blanks(s, j), TAB)
    decreases |s| - j
  {
    if At(s, j, SPACE) || At(s, j, TAB) { BlanksEnd(s, j + 1); }
  }

  lemma TitleAround(s: Text, k: nat) returns (t: Title)
    requires (At(s, k, QUOTE) || At(s, k, APOSTROPHE)) && TitleEnd(s, k).Some?
    ensures ProperTitle(Some(t)) && Has(s, k, WrittenTitle(Some(t)))
    ensures TitleEnd(s, k).value == k + |WrittenTitle(Some(t))|
  {
    hide QuoteEnd, Blanks, TitleText, AllBlank, Has, Spelled;
    var q := s[k];
    var close := QuoteEnd(s, k + 1, q);
    var atoms := TitleWasWritten(s, k + 1, q);
    BlanksWereWritten(s, close + 1);
    var after := s[close + 1..Blanks(s, close + 1)];
    t := Title(q, atoms, after);
    HasSlice(s, close + 1, Blanks(s, close + 1));
    TitleJoined(s, k, t);
  }

  lemma TitleJoined(s: Text, k: nat, t: Title)
    requires At(s, k, t.quote) && Has(s, k + 1, Spelled(t.atoms)) && At(s, k + 1 + |Spelled(t.atoms)|, t.quote)
    requires Has(s, k + 2 + |Spelled(t.atoms)|, t.after)
    ensures Has(s, k, WrittenTitle(Some(t))) && |WrittenTitle(Some(t))| == 2 + |Spelled(t.atoms)| + |t.after|
  {
    hide Has, Spelled;
    var q, text := t.quote, Spelled(t.atoms);
    HasUnit(s, k, q);
    HasUnit(s, k + 1 + |text|, q);
    HasJoined(s, k + 1 + |text|, [q], t.after);
    HasJoined(s, k + 1, text, [q] + t.after);
    HasJoined(s, k, [q], text + ([q] + t.after));
    assert WrittenTitle(Some(t)) == [q] + (text + ([q] + t.after));
  }

  lemma HasSlice(s: Text, a: nat, b: nat)
    requires a <= b <= |s|
    ensures Has(s, a, s[a..b])
  {
  }

  /** What is found as an image was written so. */
  lemma ReadWasWritten(s: Text, i: nat) returns (p: Parts)
    requires TokenAt(s, i).Some?
    ensures Proper(p) && Has(s, i, Written(p))
  {
    hide AltText, ProperTarget, ProperTitle, AllBlank, Spelled, WrittenTarget, WrittenTitle, Written, EndsTarget;
    hide CloseBracket, Destination, TitleEnd, Blanks, Url, TargetEnds;
    var alt := AltWasWritten(s, i + 2, 0);
    var start := CloseBracket(s, i + 2, 1).value + 1;
    var target := TargetWasWritten(s, start);
    EndsAt(start, target);
    var j := start + |WrittenTarget(target)|;
    var gap, title := EndWasWritten(s, j);
    p := Parts(alt, target, gap, title);
    HasWhole(s, i, p);
    if target.Bare? && title.Some? && gap == [] { NoGap(s, j, title); }
  }

  lemma NoGap(s: Text, j: nat, title: Option<Title>)
    requires title.Some? && ProperTitle(title) && Has(s, j, [] + (WrittenTitle(title) + [RIGHT_PAREN]))
    ensures j < |s| && !EndsTarget(s[j])
  {
    var w := [] + (WrittenTitle(title) + [RIGHT_PAREN]);
    assert s[j] == s[j..j + |w|][0] == title.value.quote;
  }

  /** The scanner recognises an image exactly where one is written, and as that. */
  lemma TokenIff(s: Text, image: Image)
    ensures TokenAt(s, image.start) == Some(image) <==> IsImage(s, image)
  {
    hide TokenAt, Proper, Has, Written, UrlOf;
    if TokenAt(s, image.start) == Some(image) {
      var p := ReadWasWritten(s, image.start);
      WrittenIsRead(s, image.start, p);
      assert Spells(s, image, p);
    }
    if IsImage(s, image) {
      var p :| Spells(s, image, p);
      WrittenIsRead(s, image.start, p);
    }
  }
}
