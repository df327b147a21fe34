/**
 * The inbox of one conversation as a protocol over durable and volatile copies.
 *
 * Records are numbered in arrival order.  `inbox` is the map the process holds,
 * `disk` the last inbox file that was renamed into place, and a crash replaces
 * the former by the latter.  Other conversations of the same relay can do one
 * thing to this one: save the whole inbox at any moment (`Save`).
 */
module InboundProtocol {
  import opened Effects
  import opened InboundTypes
  import Runs

  /** How far the one record has come that is being handled; `story` is what was heard and done in that handling. */
  datatype Stage = Begun | Counted | Sent | Frozen

  datatype Pass = Idle | In(uid: nat, stage: Stage)

  datatype State = State(
    inbox: map<nat, Record>, disk: map<nat, Record>, quarantine: set<nat>, decisions: set<nat>,
    confirmed: set<nat>, next: nat, armed: Option<nat>, pass: Pass,
    story: seq<Event>, groups: bool, trace: seq<Event>)

  datatype Action =
    | Admit(id: nat, input: Input)  // accepted only together with its save
    | Save
    | Crash
    | Enter(uid: nat)  // its handling begins
    | Hear(uid: nat, what: Report)
    | Update(uid: nat, to: Record)
    | Freeze(uid: nat, notice: Notice)
    | Fill(uid: nat, text: Text)  // gives the notice just frozen its text
    | Count(uid: nat)  // one more upload begins
    | HandOff(uid: nat)
    | BeforeSubmit(uid: nat)
    | ChatPost(uid: nat)
    | AfterSubmit(uid: nat)
    | Post(uid: nat)
    | Notify(uid: nat)
    | Tell(uid: nat, text: Text)
    | Answer(uid: nat)
    | HandOver(uid: nat)
    | Drop(uid: nat, why: Silence)
    | Archive(id: nat)
    | Bury(uid: nat)
    | Delete(uid: nat)

  // ---- What one handling may do with a record -------------------------------------

  /** The record may be taken up: it is neither settled, nor uncertain, nor under quarantine. */
  predicate Eligible(s: State, u: nat) {
    && u in s.inbox && s.inbox[u].id !in s.decisions
    && !s.inbox[u].quarantined && !s.inbox[u].chatSubmitting && !s.inbox[u].chatSubmitted
  }

  /** The record is being handled, and is neither Chat's nor answered for good. */
  predicate Acting(s: State, u: nat) {
    && s.pass.In? && s.pass.uid == u && u in s.inbox
    && !s.inbox[u].chatHandoff && s.inbox[u].notice.None? && !Legacy(s.inbox[u])
  }

  /** The preflight was answered in this handling, and that answer sends the input there. */
  ghost predicate Sends(story: seq<Event>, input: Input, to: Destination) {
    exists e :: e in story && e.Heard? && e.what.Routed? && DestinationOf(input, e.what.decision) == to
  }

  /** The preflight's answer in this handling names that destination. */
  ghost predicate Selects(story: seq<Event>, pin: Option<Pin>) {
    exists e :: e in story && e.Heard? && e.what.Routed? &&
                e.what.decision.binding.Some? && e.what.decision.binding.value.pin == pin
  }

  /** The notices that the branches of the handling freeze. */
  ghost predicate MayFreeze(r: Record, notice: Notice, stage: Stage, groups: bool, story: seq<Event>) {
    || (NeedsPreflight(r, groups) && Unpinned(r) && Sends(story, r.input, Says(notice)))
    || (Refusal(r.input).Some? && Settled(r) && notice == Notice(Refusal(r.input), false))
    || (TakesImages(r) && notice.Speaks())
    || (UploadsUsed(r) && Sealed(r) && Settled(r) && Refusal(r.input).None?
        && notice == Notice(Some(UPLOAD_FAILED), false))
    || (stage == Sent && r.input.images > 0 && notice.Speaks())
    || (stage == Sent && r.input.operation in {Lookup(Help), Lookup(Status)})
  }

  /** When a decision is shown that is not frozen. */
  predicate MayTell(r: Record, stage: Stage, groups: bool) {
    || (NeedsPreflight(r, groups) && r.input.operation != Unbind)
    || TakesImages(r)
    || stage == Sent
  }

  /** When an input becomes Chat's. */
  ghost predicate MayHandOff(r: Record, stage: Stage, groups: bool, story: seq<Event>) {
    || (r.input.operation == Message && NeedsPreflight(r, groups) && Unpinned(r) && Sends(story, r.input, ToChat))
    || (r.input.operation.Lookup? && stage == Sent)
  }

  /** When the complete body may go out, but for the inputs ahead of it. */
  predicate MayPost(r: Record, stage: Stage) {
    && Sealed(r) && Settled(r) && Refusal(r.input).None?
    && (if r.input.images > 0 then stage == Counted else stage == Begun)
  }

  /** How a record may otherwise change in memory. */
  predicate Evolves(a: Record, b: Record, groups: bool) {
    && b.id == a.id && b.input == a.input && Coherent(b)
    && b.chatHandoff == a.chatHandoff && b.notice == a.notice
    && b.chatSubmitting == a.chatSubmitting && b.chatSubmitted == a.chatSubmitted
    && b.uploadAttempts == a.uploadAttempts && (a.quarantined ==> b.quarantined)
    && (Sealed(a) ==> Sealed(b) && b.prepared == a.prepared)
    && (a.prepared.Some? ==> b.prepared.Some? && b.prepared.value.expected == a.prepared.value.expected)
    && (NeedsPreflight(b, groups) ==> NeedsPreflight(a, groups))
  }

  // ---- When is a notice final? ----------------------------------------------------

  /**
   * A record without a notice that can only come to the same text again: it is
   * refused whatever its destination, or its uploads are used up, and nothing
   * else can be said before that.
   */
  predicate Stuck(r: Record, n: Notice, groups: bool) {
    && !r.chatHandoff
    && (NeedsPreflight(r, groups) ==> r.input.operation == Unbind && r.prepared.Some?)
    && n == Notice(if Refusal(r.input).Some? then Refusal(r.input) else Some(UPLOAD_FAILED), false)
    && (Refusal(r.input).Some? || (UploadsUsed(r) && !TakesImages(r)))
  }

  /** What the copy of the record in the inbox file must be for notice `n` to be the last word. */
  predicate Final(s: State, u: nat, n: Notice) {
    u in s.disk && (s.disk[u].notice.Some? || Stuck(s.disk[u], n, s.groups))
  }

  /** A copy of a record that will only ever repeat `n`, or say nothing. */
  predicate Bound(r: Record, n: Notice, groups: bool) {
    match r.notice
    case Some(m) => m == n || !m.Speaks()
    case None => Stuck(r, n, groups)
  }

  // ---- The actions ------------------------------------------------------------------

  /** The guard of each action: what the relay must have established first. */
  ghost predicate Can(s: State, a: Action) {
    match a
    case Admit(id, _) =>
      id !in s.quarantine && id !in s.decisions && forall u :: u in s.inbox ==> s.inbox[u].id != id
    case Save => true
    case Crash => true
    case Enter(u) => Eligible(s, u) && forall v :: v in s.inbox && v < u ==> !Unpinned(s.inbox[v])
    case Hear(u, _) => s.pass.In? && s.pass.uid == u
    case Update(u, to) =>
      && u in s.inbox && Evolves(s.inbox[u], to, s.groups)
      && (Unpinned(s.inbox[u]) && !Unpinned(to) ==>
            s.pass.In? && s.pass.uid == u && Selects(s.story, to.prepared.value.expected))
    case Freeze(u, notice) => Acting(s, u) && MayFreeze(s.inbox[u], notice, s.pass.stage, s.groups, s.story)
    case Fill(u, text) =>
      && s.pass == In(u, Frozen) && u in s.inbox && s.inbox[u].input.operation.Lookup?
      && s.inbox[u].notice.Some? && s.inbox[u].notice.value.text.None?
    case Count(u) =>
      && Acting(s, u) && s.pass.stage == Begun && s.inbox[u].input.images > 0 && s.inbox[u].uploadAttempts < 3
      && Sealed(s.inbox[u]) && Settled(s.inbox[u]) && Refusal(s.inbox[u].input).None?
    case HandOff(u) => Acting(s, u) && MayHandOff(s.inbox[u], s.pass.stage, s.groups, s.story)
    case BeforeSubmit(u) =>
      && u in s.inbox && s.inbox[u].chatHandoff && !s.inbox[u].chatSubmitting && !s.inbox[u].chatSubmitted
      && s.inbox[u].id !in s.decisions
    case ChatPost(u) =>
      s.armed == Some(u) && u in s.inbox && u in s.disk && s.inbox[u].chatSubmitting && s.disk[u].chatSubmitting
    case AfterSubmit(u) => u in s.inbox && s.inbox[u].chatHandoff
    case Post(u) =>
      && Acting(s, u) && MayPost(s.inbox[u], s.pass.stage) && s.disk == s.inbox
      && var body := s.inbox[u].prepared.value;
      Versioned(body.operation) ==>
        && body.expected.Some?
        && forall v :: v in s.inbox && v < u ==> PinnedElsewhere(s.inbox[v], body.expected.value.binding)
    case Notify(u) =>
      && s.pass.In? && s.pass.uid == u && Eligible(s, u)
      && s.inbox[u].notice.Some? && s.inbox[u].notice.value.Speaks()
    case Tell(u, _) => Acting(s, u) && MayTell(s.inbox[u], s.pass.stage, s.groups)
    case Answer(u) => true
    case HandOver(u) => Eligible(s, u) && s.inbox[u].chatHandoff
    case Drop(u, why) => u in s.inbox && s.inbox[u].chatHandoff && Justified(s.inbox[u].input, why)
    case Archive(id) => true
    case Bury(u) => u in s.inbox && !s.inbox[u].chatHandoff
    case Delete(u) =>
      u in s.inbox && s.inbox[u].chatSubmitting && !s.inbox[u].chatSubmitted ==> s.inbox[u].id in s.quarantine
  }

  function Ahead(s: State, u: nat): set<nat>
    requires u in s.inbox && s.inbox[u].prepared.Some?
  {
    var body := s.inbox[u].prepared.value;
    if body.expected.None? then {}
    else set v | v in s.inbox && v < u && PinnedTo(s.inbox[v], body.expected.value.binding)
  }

  /** The state with another record `u`, at another stage of its handling. */
  function With(s: State, u: nat, r: Record, stage: Stage): State {
    s.(inbox := s.inbox[u := r], pass := In(u, stage))
  }

  /** The inbox file says that the input is Chat's. */
  predicate HandedOffInFile(s: State, u: nat) { u in s.disk && s.disk[u].chatHandoff }

  /** An effect of the handling, which both logs keep. */
  function Seen(s: State, e: Event): State { s.(trace := s.trace + [e], story := s.story + [e]) }

  /** The effect of each action. */
  function Do(s: State, a: Action): State {
    match a
    case Admit(id, input) =>
      var inbox := s.inbox[s.next := Fresh(id, input)];
      s.(inbox := inbox, disk := inbox, next := s.next + 1, trace := s.trace + [Admitted(s.next, id)])
    case Save => s.(disk := s.inbox)
    case Crash => s.(inbox := s.disk, armed := None, pass := Idle, story := [])
    case Enter(u) => s.(pass := In(u, Begun), story := [])
    case Hear(u, what) => Seen(s, Heard(u, what))
    case Update(u, to) => s.(inbox := s.inbox[u := to])
    case Freeze(u, notice) =>
      if u !in s.inbox then s else With(s, u, s.inbox[u].(notice := Some(notice)), Frozen)
    case Fill(u, text) =>
      if u !in s.inbox || s.inbox[u].notice.None? then s
      else With(s, u, s.inbox[u].(notice := Some(s.inbox[u].notice.value.(text := Some(text)))), Frozen)
    case Count(u) =>
      if u !in s.inbox then s
      else With(s, u, s.inbox[u].(uploadAttempts := s.inbox[u].uploadAttempts + 1), Counted)
    case HandOff(u) =>
      if u !in s.inbox then s else s.(inbox := s.inbox[u := s.inbox[u].(chatHandoff := true)])
    case BeforeSubmit(u) =>
      if u !in s.inbox then s
      else s.(inbox := s.inbox[u := s.inbox[u].(chatSubmitting := true)], armed := Some(u))
    case ChatPost(u) =>
      if u !in s.inbox then s else Seen(s, ChatPosted(u, s.inbox[u].id)).(armed := None)
    case AfterSubmit(u) =>
      if u !in s.inbox then s
      else s.(inbox := s.inbox[u := s.inbox[u].(chatSubmitted := true)], confirmed := s.confirmed + {u})
    case Post(u) =>
      if u !in s.inbox || s.inbox[u].prepared.None? then s
      else Seen(s, Posted(u, s.inbox[u].prepared.value, Ahead(s, u))).(pass := In(u, Sent))
    case Notify(u) =>
      if u !in s.inbox || s.inbox[u].notice.None? then s
      else
        var n := s.inbox[u].notice.value;
        Seen(s, RoutingNoticed(u, n, Final(s, u, n)))
    case Tell(u, text) => Seen(s, Told(u, text))
    case Answer(u) => Seen(s, Answered(u))
    case HandOver(u) => Seen(s, HandedOver(u, HandedOffInFile(s, u)))
    case Drop(u, why) => Seen(s, Dropped(u, why))
    case Archive(id) => s.(quarantine := s.quarantine + {id}, trace := s.trace + [Quarantined(id)])
    case Bury(u) =>
      if u !in s.inbox then s
      else s.(decisions := s.decisions + {s.inbox[u].id}, trace := s.trace + [Tombstoned(s.inbox[u].id)])
    case Delete(u) => s.(inbox := s.inbox - {u})
  }

  /** Any coherent inbox file left by an earlier process, before any effect. */
  ghost predicate Initial(s: State) {
    && s.inbox == s.disk && s.trace == [] && s.armed == None && s.pass == Idle && s.story == []
    && Records(s.disk, s) && Distinct(s.disk, s.disk)
  }

  /** Some run of permitted actions leads from `s` to `t`. */
  ghost predicate Leads(s: State, t: State) {
    Runs.Leads(Can, Do, s, t)
  }

  ghost predicate Reachable(s: State) {
    exists init :: Initial(init) && Leads(init, s)
  }

  // ---- The invariant --------------------------------------------------------

  /** A copy of record `u`, in memory or on disk, agrees with an effect seen outside. */
  predicate Fits(r: Record, u: nat, e: Event, groups: bool) {
    match e
    case Posted(v, body, _) =>
      && (v == u ==> Sealed(r) && r.prepared == Some(body))
      && (v > u && Versioned(body.operation) ==>
            body.expected.Some? && PinnedElsewhere(r, body.expected.value.binding))
    case ChatPosted(v, id) => v == u ==> r.chatSubmitting && r.id == id
    case RoutingNoticed(v, n, final) => v == u && final ==> n.Speaks() && Bound(r, n, groups)
    case HandedOver(v, durable) => v == u && durable ==> r.chatHandoff
    case _ => true
  }

  /** What may follow what: every promise about two effects, `e` before `f`. */
  predicate MayFollow(e: Event, f: Event) {
    && (e.Posted? && f.ChatPosted? && e.uid == f.uid ==> !Mutating(e.body.operation))
    && (e.Posted? && f.HandedOver? && e.uid == f.uid ==> !Mutating(e.body.operation))
    && (e.ChatPosted? && f.Posted? ==> e.uid != f.uid)
    && (e.HandedOver? && e.durable && f.Posted? ==> e.uid != f.uid)
    && (e.ChatPosted? && f.ChatPosted? ==> e.uid != f.uid)
    && (e.Posted? && f.Posted? && e.uid == f.uid ==> e.body == f.body)
    && (e.Posted? && f.Posted? && SameVersionedBinding(e.body, f.body) ==> e.uid <= f.uid)
    && (e.RoutingNoticed? && e.final && Concerns(f, e.uid) ==> Repeats(f, e.notice))
    && ((e.Quarantined? || e.Tombstoned?) && f.Admitted? ==> e.id != f.id)
  }

  predicate SameVersionedBinding(a: Body, b: Body) {
    && Versioned(a.operation) && Versioned(b.operation) && a.expected.Some? && b.expected.Some?
    && a.expected.value.binding == b.expected.value.binding
  }

  /** The record makes itself felt outside the relay. */
  predicate Concerns(e: Event, u: nat) {
    (e.Posted? || e.ChatPosted? || e.RoutingNoticed? || e.Told? || e.HandedOver?) && e.uid == u
  }

  predicate Repeats(e: Event, n: Notice) { e.RoutingNoticed? && e.notice == n }

  /** One event against the counters and marker files. */
  predicate Recorded(e: Event, s: State) {
    && (e.Admitted? || e.Posted? || e.ChatPosted? || e.RoutingNoticed? || e.HandedOver? ==> e.uid < s.next)
    && (e.Quarantined? ==> e.id in s.quarantine)
    && (e.Tombstoned? ==> e.id in s.decisions)
    && (e.Posted? && Versioned(e.body.operation) ==> e.ahead == {})
    && (e.ChatPosted? ==> s.armed != Some(e.uid))
  }

  ghost predicate CopyFits(m: map<nat, Record>, tr: seq<Event>, groups: bool) {
    forall u, e :: u in m && e in tr ==> Fits(m[u], u, e, groups)
  }

  ghost predicate Pairs(tr: seq<Event>) {
    forall i, j :: 0 <= i < j < |tr| ==> MayFollow(tr[i], tr[j])
  }

  ghost predicate Events(s: State) {
    forall e :: e in s.trace ==> Recorded(e, s)
  }

  /** A record bound to an earlier notice that memory has lost was not taken further since. */
  predicate Quiet(s: State, e: Event) {
    e.RoutingNoticed? && e.final && e.uid in s.inbox && s.inbox[e.uid].notice != Some(e.notice)
    ==> s.pass.Idle? || s.pass.uid != e.uid || s.pass.stage == Begun
  }

  ghost predicate AllQuiet(s: State) {
    forall e :: e in s.trace ==> Quiet(s, e)
  }

  ghost predicate Records(m: map<nat, Record>, s: State) {
    forall u :: u in m ==>
      && u < s.next && Coherent(m[u])
      && (m[u].chatSubmitted ==> u in s.confirmed)
      && (m[u].id in s.decisions ==> !m[u].chatSubmitting)
  }

  ghost predicate Distinct(m: map<nat, Record>, n: map<nat, Record>) {
    forall u, v :: u in m && v in n && m[u].id == n[v].id ==> u == v
  }

  /** One copy of a record is at least as far as another: a frozen notice stays, but may get its text. */
  predicate Succeeds(a: Record, b: Record) {
    && b.id == a.id && b.input == a.input
    && (a.chatHandoff ==> b.chatHandoff) && (a.quarantined ==> b.quarantined) && (Legacy(a) ==> Legacy(b))
    && (a.prepared.Some? ==> b.prepared.Some?)
    && (a.notice.Some? ==> b.notice.Some?) && (a.notice.Some? && a.notice.value.Speaks() ==> b.notice == a.notice)
    && (a.notice.None? && b.notice.Some? ==> !Legacy(a))
    && (!a.chatHandoff && b.chatHandoff && a.input.operation == Message ==> Refusal(a.input).None?)
  }

  /** The memory copy of a record is at least as far as the durable one. */
  ghost predicate Newer(disk: map<nat, Record>, inbox: map<nat, Record>) {
    forall u :: u in disk && u in inbox ==> Succeeds(disk[u], inbox[u])
  }

  /** A Chat submission leaves a copy only confirmed or quarantined. */
  ghost predicate Kept(m: map<nat, Record>, s: State) {
    forall e :: e in s.trace && e.ChatPosted? && e.uid !in s.confirmed && e.id !in s.quarantine ==> e.uid in m
  }

  ghost predicate Identified(s: State) {
    && Distinct(s.inbox, s.inbox) && Distinct(s.disk, s.disk) && Distinct(s.inbox, s.disk) && Newer(s.disk, s.inbox)
    && s.inbox.Keys <= s.disk.Keys && (s.armed.Some? ==> s.armed.value < s.next)
  }

  ghost predicate Inv(s: State) {
    && Records(s.inbox, s) && Records(s.disk, s) && Identified(s)
    && CopyFits(s.inbox, s.trace, s.groups) && CopyFits(s.disk, s.trace, s.groups)
    && Kept(s.inbox, s) && Kept(s.disk, s)
    && Events(s) && Pairs(s.trace) && AllQuiet(s)
  }

  lemma FitsAppend(m: map<nat, Record>, tr: seq<Event>, e: Event, groups: bool)
    requires CopyFits(m, tr, groups)
    requires forall u :: u in m ==> Fits(m[u], u, e, groups)
    ensures CopyFits(m, tr + [e], groups)
  {
  }

  lemma PairsAppend(tr: seq<Event>, e: Event)
    requires Pairs(tr)
    requires forall f :: f in tr ==> MayFollow(f, e)
    ensures Pairs(tr + [e])
  {
  }

  lemma EventsAppend(s: State, t: State, e: Event)
    requires Events(s) && t.trace == s.trace + [e] && Recorded(e, t)
    requires t.next >= s.next && s.quarantine <= t.quarantine && s.decisions <= t.decisions
    requires t.armed == s.armed || t.armed == None
    ensures Events(t)
  {
  }

  lemma KeptAppend(m: map<nat, Record>, s: State, t: State, e: Event)
    requires Kept(m, s) && t.trace == s.trace + [e]
    requires t.confirmed == s.confirmed && s.quarantine <= t.quarantine
    requires e.ChatPosted? ==> e.uid in m
    ensures Kept(m, t)
  {
  }

  /** Everything but the new event's own obligations, for actions that only append one. */
  lemma AppendKeeps(s: State, t: State, e: Event)
    requires Inv(s)
    requires t == s.(trace := s.trace + [e], armed := t.armed, pass := t.pass, story := t.story)
    requires t.armed == s.armed || t.armed == None
    requires forall u :: u in s.inbox ==> Fits(s.inbox[u], u, e, s.groups)
    requires forall u :: u in s.disk ==> Fits(s.disk[u], u, e, s.groups)
    requires forall f :: f in s.trace ==> MayFollow(f, e) && Quiet(t, f)
    requires e.ChatPosted? ==> e.uid in s.inbox && e.uid in s.disk
    requires Recorded(e, t) && Quiet(t, e)
    ensures Inv(t)
  {
    hide Fits, Recorded, MayFollow, Quiet, Coherent, Succeeds;
    FitsAppend(s.inbox, s.trace, e, s.groups);
    FitsAppend(s.disk, s.trace, e, s.groups);
    KeptAppend(s.inbox, s, t, e);
    KeptAppend(s.disk, s, t, e);
    EventsAppend(s, t, e);
    PairsAppend(s.trace, e);
  }

  /** The same, for events that nothing in the invariant speaks about. */
  lemma NoteKeeps(s: State, t: State, e: Event)
    requires Inv(s) && (e.Told? || e.Answered? || e.Dropped? || e.Heard?)
    requires forall f :: f in s.trace ==> MayFollow(f, e)
    requires t == s.(trace := s.trace + [e], story := t.story)
    ensures Inv(t)
  {
    forall f | f in s.trace ensures Quiet(t, f) { assert Quiet(s, f); }
    AppendKeeps(s, t, e);
  }

  /** A record in the middle of its handling is not bound to an earlier notice. */
  lemma NotBound(s: State, u: nat, f: Event)
    requires Inv(s) && Acting(s, u) && f in s.trace && f.RoutingNoticed? && f.final && f.uid == u
    ensures Stuck(s.inbox[u], f.notice, s.groups) && s.pass.stage == Begun
  {
    assert Fits(s.inbox[u], u, f, s.groups) && Quiet(s, f);
  }

  lemma PostMayFollow(s: State, u: nat, f: Event)
    requires Inv(s) && Can(s, Post(u)) && f in s.trace
    ensures MayFollow(f, Posted(u, s.inbox[u].prepared.value, Ahead(s, u)))
  {
    var r := s.inbox[u];
    assert Coherent(r) && Fits(r, u, f, s.groups);
    if f.RoutingNoticed? && f.final && f.uid == u { NotBound(s, u, f); }
  }

  lemma PostKeeps(s: State, u: nat)
    requires Inv(s) && Can(s, Post(u))
    ensures Inv(Do(s, Post(u)))
  {
    var t, e := Do(s, Post(u)), Posted(u, s.inbox[u].prepared.value, Ahead(s, u));
    forall f | f in s.trace ensures MayFollow(f, e) && Quiet(t, f) {
      PostMayFollow(s, u, f);
      assert Quiet(s, f);
      if f.RoutingNoticed? && f.final && f.uid == u { NotBound(s, u, f); }
    }
    AppendKeeps(s, t, e);
  }

  lemma ChatPostKeeps(s: State, u: nat)
    requires Inv(s) && Can(s, ChatPost(u))
    ensures Inv(Do(s, ChatPost(u)))
  {
    var t, e := Do(s, ChatPost(u)), ChatPosted(u, s.inbox[u].id);
    forall f | f in s.trace ensures MayFollow(f, e) && Quiet(t, f) {
      assert Fits(s.inbox[u], u, f, s.groups) && Recorded(f, s) && Quiet(s, f) && Coherent(s.inbox[u]);
    }
    AppendKeeps(s, t, e);
  }

  lemma NotifyKeeps(s: State, u: nat)
    requires Inv(s) && Can(s, Notify(u))
    ensures Inv(Do(s, Notify(u)))
  {
    var n := s.inbox[u].notice.value;
    var t, e := Do(s, Notify(u)), RoutingNoticed(u, n, Final(s, u, n));
    assert Succeeds(s.disk[u], s.inbox[u]);
    forall f | f in s.trace ensures MayFollow(f, e) && Quiet(t, f) {
      assert Fits(s.inbox[u], u, f, s.groups) && Quiet(s, f);
    }
    AppendKeeps(s, t, e);
  }

  lemma TellKeeps(s: State, u: nat, text: Text)
    requires Inv(s) && Can(s, Tell(u, text))
    ensures Inv(Do(s, Tell(u, text)))
  {
    forall f | f in s.trace ensures MayFollow(f, Told(u, text)) {
      if f.RoutingNoticed? && f.final && f.uid == u { NotBound(s, u, f); }
    }
    NoteKeeps(s, Do(s, Tell(u, text)), Told(u, text));
  }

  lemma HandOverKeeps(s: State, u: nat)
    requires Inv(s) && Can(s, HandOver(u))
    ensures Inv(Do(s, HandOver(u)))
  {
    var e := HandedOver(u, HandedOffInFile(s, u));
    var t := Do(s, HandOver(u));
    forall f | f in s.trace ensures MayFollow(f, e) && Quiet(t, f) {
      assert Fits(s.inbox[u], u, f, s.groups) && Coherent(s.inbox[u]) && Quiet(s, f);
    }
    AppendKeeps(s, t, e);
  }

  lemma ArchiveKeeps(s: State, id: nat)
    requires Inv(s)
    ensures Inv(Do(s, Archive(id)))
  {
    hide Coherent, Succeeds, Legacy, Distinct, Newer;
    var t, e := Do(s, Archive(id)), Quarantined(id);
    FitsAppend(s.inbox, s.trace, e, s.groups);
    FitsAppend(s.disk, s.trace, e, s.groups);
    KeptAppend(s.inbox, s, t, e);
    KeptAppend(s.disk, s, t, e);
    EventsAppend(s, t, e);
    PairsAppend(s.trace, e);
    forall f | f in t.trace ensures Quiet(t, f) { assert f in s.trace ==> Quiet(s, f); }
  }

  lemma BuryRecords(s: State, u: nat)
    requires Records(s.inbox, s) && Records(s.disk, s) && Identified(s) && u in s.inbox && !s.inbox[u].chatHandoff
    ensures Records(s.inbox, Do(s, Bury(u))) && Records(s.disk, Do(s, Bury(u)))
  {
  }

  lemma BuryKeeps(s: State, u: nat)
    requires Inv(s) && Can(s, Bury(u))
    ensures Inv(Do(s, Bury(u)))
  {
    hide Coherent, Succeeds, Legacy, Distinct, Newer;
    var t, e := Do(s, Bury(u)), Tombstoned(s.inbox[u].id);
    FitsAppend(s.inbox, s.trace, e, s.groups);
    FitsAppend(s.disk, s.trace, e, s.groups);
    KeptAppend(s.inbox, s, t, e);
    KeptAppend(s.disk, s, t, e);
    EventsAppend(s, t, e);
    PairsAppend(s.trace, e);
    BuryRecords(s, u);
    forall f | f in t.trace ensures Quiet(t, f) { assert f in s.trace ==> Quiet(s, f); }
  }

  lemma AdmitFits(s: State, id: nat, input: Input, m: map<nat, Record>)
    requires Events(s) && CopyFits(s.inbox, s.trace, s.groups) && m == s.inbox[s.next := Fresh(id, input)]
    ensures CopyFits(m, s.trace + [Admitted(s.next, id)], s.groups)
  {
    forall v, e | v in m && e in s.trace + [Admitted(s.next, id)] ensures Fits(m[v], v, e, s.groups) {
      if e in s.trace {
        assert Recorded(e, s);
        if v in s.inbox { assert Fits(s.inbox[v], v, e, s.groups); }
      }
    }
  }

  lemma AdmitIdentified(s: State, id: nat, input: Input)
    requires Records(s.inbox, s) && Identified(s) && Can(s, Admit(id, input))
    ensures Identified(Do(s, Admit(id, input)))
  {
  }

  lemma AdmitRecords(s: State, id: nat, input: Input)
    requires Records(s.inbox, s) && Can(s, Admit(id, input))
    ensures Records(Do(s, Admit(id, input)).inbox, Do(s, Admit(id, input)))
  {
  }

  lemma AdmitKeeps(s: State, id: nat, input: Input)
    requires Inv(s) && Can(s, Admit(id, input))
    ensures Inv(Do(s, Admit(id, input)))
  {
    var t, e := Do(s, Admit(id, input)), Admitted(s.next, id);
    AdmitFits(s, id, input, t.inbox);
    forall f | f in s.trace ensures MayFollow(f, e) && Quiet(t, f) { assert Recorded(f, s) && Quiet(s, f); }
    KeptAppend(s.inbox, s, t, e);
    EventsAppend(s, t, e);
    PairsAppend(s.trace, e);
    AdmitRecords(s, id, input);
    AdmitIdentified(s, id, input);
  }

  lemma StuckStays(a: Record, b: Record, n: Notice, groups: bool)
    requires Evolves(a, b, groups) && Stuck(a, n, groups)
    ensures Stuck(b, n, groups)
  {
  }

  lemma EvolvesFits(a: Record, b: Record, u: nat, e: Event, groups: bool)
    requires Evolves(a, b, groups) && Fits(a, u, e, groups)
    ensures Fits(b, u, e, groups)
  {
    if e.RoutingNoticed? && e.uid == u && e.final && a.notice.None? { StuckStays(a, b, e.notice, groups); }
  }

  /** The flags of the Chat branch concern no effect but those of Chat. */
  lemma FlagFits(a: Record, b: Record, u: nat, e: Event, groups: bool)
    requires Fits(a, u, e, groups) && Coherent(a) && (e.RoutingNoticed? && e.final ==> e.uid != u || a.chatHandoff)
    requires b == a.(chatSubmitting := true) || b == a.(chatSubmitted := true)
    ensures Fits(b, u, e, groups)
  {
  }

  lemma FitsReplace(m: map<nat, Record>, tr: seq<Event>, u: nat, to: Record, groups: bool)
    requires CopyFits(m, tr, groups) && u in m
    requires forall e :: e in tr ==> Fits(to, u, e, groups)
    ensures CopyFits(m[u := to], tr, groups)
  {
  }

  lemma IdentifiedReplace(s: State, t: State, u: nat, to: Record)
    requires Identified(s) && u < s.next && u in s.inbox && Succeeds(s.inbox[u], to)
    requires t == s.(inbox := s.inbox[u := to], armed := t.armed, confirmed := t.confirmed, pass := t.pass)
    requires t.armed == s.armed || t.armed == Some(u)
    ensures Identified(t)
  {
  }

  lemma RecordsReplace(s: State, t: State, u: nat, to: Record)
    requires Records(s.inbox, s) && Records(s.disk, s) && u in s.inbox && to.id == s.inbox[u].id && Coherent(to)
    requires t == s.(inbox := s.inbox[u := to], armed := t.armed, confirmed := t.confirmed, pass := t.pass)
    requires s.confirmed <= t.confirmed && (to.chatSubmitted ==> u in t.confirmed)
    requires to.id in s.decisions ==> !to.chatSubmitting
    ensures Records(t.inbox, t) && Records(t.disk, t)
  {
  }

  lemma KeptReplace(m: map<nat, Record>, s: State, t: State, u: nat, to: Record)
    requires Kept(m, s) && u in m && t.trace == s.trace && t.quarantine == s.quarantine && s.confirmed <= t.confirmed
    ensures Kept(m[u := to], t) && Kept(m, t)
  {
  }

  /** Replacing one record in memory keeps the invariant but for the event bookkeeping. */
  lemma ReplaceKeeps(s: State, t: State, u: nat, to: Record)
    requires Inv(s) && u in s.inbox && Succeeds(s.inbox[u], to) && Coherent(to)
    requires t == s.(inbox := s.inbox[u := to], armed := t.armed, confirmed := t.confirmed, pass := t.pass)
    requires t.armed == s.armed || t.armed == Some(u)
    requires s.confirmed <= t.confirmed && (to.chatSubmitted ==> u in t.confirmed)
    requires to.id in s.decisions ==> !to.chatSubmitting
    requires forall e :: e in s.trace ==> Fits(to, u, e, s.groups) && Quiet(t, e)
    requires Events(t)
    ensures Inv(t)
  {
    hide Fits, Quiet, Coherent, Recorded, MayFollow;
    FitsReplace(s.inbox, s.trace, u, to, s.groups);
    IdentifiedReplace(s, t, u, to);
    RecordsReplace(s, t, u, to);
    KeptReplace(s.inbox, s, t, u, to);
    KeptReplace(s.disk, s, t, u, s.disk[u]);
  }

  lemma SameEvents(s: State, t: State)
    requires Events(s) && t.trace == s.trace && t.next == s.next && t.armed == s.armed
    requires t.quarantine == s.quarantine && t.decisions == s.decisions
    ensures Events(t)
  {
  }

  lemma UpdateKeeps(s: State, u: nat, to: Record)
    requires Inv(s) && Can(s, Update(u, to))
    ensures Inv(Do(s, Update(u, to)))
  {
    var t := Do(s, Update(u, to));
    forall e | e in s.trace ensures Fits(to, u, e, s.groups) && Quiet(t, e) {
      assert Fits(s.inbox[u], u, e, s.groups) && Quiet(s, e);
      EvolvesFits(s.inbox[u], to, u, e, s.groups);
    }
    SameEvents(s, t);
    ReplaceKeeps(s, t, u, to);
  }

  /** A record being handled may take the next step if no earlier notice binds it. */
  lemma StageKeeps(s: State, t: State, u: nat, to: Record)
    requires Inv(s) && u in s.inbox && Succeeds(s.inbox[u], to) && Coherent(to)
    requires t == s.(inbox := s.inbox[u := to], pass := t.pass)
    requires t.pass == s.pass || (t.pass.In? && t.pass.uid == u)
    requires to.chatSubmitting == s.inbox[u].chatSubmitting && to.chatSubmitted == s.inbox[u].chatSubmitted
    requires to.prepared == s.inbox[u].prepared && to.mediaPrepared == s.inbox[u].mediaPrepared
    requires forall f :: f in s.trace && f.RoutingNoticed? && f.final && f.uid == u ==> to.notice == Some(f.notice)
    ensures Inv(t)
  {
    forall e | e in s.trace ensures Fits(to, u, e, s.groups) && Quiet(t, e) {
      assert Fits(s.inbox[u], u, e, s.groups) && Quiet(s, e);
    }
    SameEvents(s, t);
    ReplaceKeeps(s, t, u, to);
  }

  lemma FreezeKeeps(s: State, u: nat, notice: Notice)
    requires Inv(s) && Can(s, Freeze(u, notice))
    ensures Inv(Do(s, Freeze(u, notice)))
  {
    var t := Do(s, Freeze(u, notice));
    forall f | f in s.trace && f.RoutingNoticed? && f.final && f.uid == u ensures f.notice == notice {
      NotBound(s, u, f);
    }
    StageKeeps(s, t, u, t.inbox[u]);
  }

  lemma FillKeeps(s: State, u: nat, text: Text)
    requires Inv(s) && Can(s, Fill(u, text))
    ensures Inv(Do(s, Fill(u, text)))
  {
    var t := Do(s, Fill(u, text));
    forall f | f in s.trace && f.RoutingNoticed? && f.final ensures f.uid != u {
      assert Fits(s.inbox[u], u, f, s.groups) && Quiet(s, f);
    }
    StageKeeps(s, t, u, t.inbox[u]);
  }

  lemma CountOrHandOffKeeps(s: State, a: Action)
    requires Inv(s) && Can(s, a) && (a.Count? || a.HandOff?)
    ensures Inv(Do(s, a))
  {
    var t, u := Do(s, a), a.uid;
    forall f | f in s.trace && f.RoutingNoticed? && f.final ensures f.uid != u {
      if f.uid == u { NotBound(s, u, f); }
    }
    assert Coherent(s.inbox[u]);
    StageKeeps(s, t, u, t.inbox[u]);
  }

  lemma BeforeSubmitKeeps(s: State, u: nat)
    requires Inv(s) && Can(s, BeforeSubmit(u))
    ensures Inv(Do(s, BeforeSubmit(u)))
  {
    var t := Do(s, BeforeSubmit(u));
    forall e | e in s.trace ensures Fits(t.inbox[u], u, e, s.groups) && Quiet(t, e) && Recorded(e, t) {
      assert Recorded(e, s) && Fits(s.inbox[u], u, e, s.groups) && Quiet(s, e);
      FlagFits(s.inbox[u], t.inbox[u], u, e, s.groups);
    }
    ReplaceKeeps(s, t, u, t.inbox[u]);
  }

  lemma AfterSubmitKeeps(s: State, u: nat)
    requires Inv(s) && Can(s, AfterSubmit(u))
    ensures Inv(Do(s, AfterSubmit(u)))
  {
    var t := Do(s, AfterSubmit(u));
    forall e | e in s.trace ensures Fits(t.inbox[u], u, e, s.groups) && Quiet(t, e) {
      assert Fits(s.inbox[u], u, e, s.groups) && Quiet(s, e);
      FlagFits(s.inbox[u], t.inbox[u], u, e, s.groups);
    }
    SameEvents(s, t);
    ReplaceKeeps(s, t, u, t.inbox[u]);
  }

  lemma DeleteIdentified(s: State, u: nat)
    requires Identified(s) && Records(s.inbox, s)
    ensures Identified(s.(inbox := s.inbox - {u}))
    ensures Records(s.inbox - {u}, s.(inbox := s.inbox - {u}))
  {
  }

  lemma DeleteKept(s: State, u: nat)
    requires Inv(s) && Can(s, Delete(u))
    ensures Kept(s.inbox - {u}, s)
  {
    hide Identified, Events, Pairs, AllQuiet;
    forall e | e in s.trace && e.ChatPosted? && e.uid !in s.confirmed && e.id !in s.quarantine
      ensures e.uid in s.inbox - {u}
    {
      assert e.uid in s.inbox && Fits(s.inbox[e.uid], e.uid, e, s.groups);
    }
  }

  lemma DeleteEvents(s: State, u: nat)
    requires Events(s) && AllQuiet(s)
    ensures Events(s.(inbox := s.inbox - {u})) && AllQuiet(s.(inbox := s.inbox - {u}))
  {
    var t := s.(inbox := s.inbox - {u});
    forall e | e in t.trace ensures Recorded(e, t) && Quiet(t, e) { assert Recorded(e, s) && Quiet(s, e); }
  }

  lemma FitsLess(m: map<nat, Record>, tr: seq<Event>, u: nat, groups: bool)
    requires CopyFits(m, tr, groups)
    ensures CopyFits(m - {u}, tr, groups)
  {
    hide Fits;
  }

  lemma DeleteKeeps(s: State, u: nat)
    requires Inv(s) && Can(s, Delete(u))
    ensures Inv(Do(s, Delete(u)))
  {
    var t := Do(s, Delete(u));
    DeleteIdentified(s, u);
    assert Records(t.disk, t);
    DeleteKept(s, u);
    DeleteEvents(s, u);
    FitsLess(s.inbox, s.trace, u, s.groups);
    hide Identified, Records, Events, AllQuiet, CopyFits, Pairs;
  }

  lemma SaveOrCrashKeeps(s: State, a: Action)
    requires Inv(s) && (a.Save? || a.Crash?)
    ensures Inv(Do(s, a))
  {
    var t := Do(s, a);
    forall e | e in t.trace ensures Quiet(t, e) { assert Quiet(s, e); }
  }

  lemma EnterKeeps(s: State, u: nat)
    requires Inv(s)
    ensures Inv(Do(s, Enter(u)))
  {
  }

  /** Every allowed action keeps the invariant. */
  lemma ActionKeeps(s: State, a: Action)
    requires Inv(s) && Can(s, a)
    ensures Inv(Do(s, a))
  {
    hide Inv, Can, Do;
    match a
    case Post(u) => PostKeeps(s, u);
    case ChatPost(u) => ChatPostKeeps(s, u);
    case AfterSubmit(u) => AfterSubmitKeeps(s, u);
    case BeforeSubmit(u) => BeforeSubmitKeeps(s, u);
    case Notify(u) => NotifyKeeps(s, u);
    case Tell(u, text) => TellKeeps(s, u, text);
    case Freeze(u, notice) => FreezeKeeps(s, u, notice);
    case Fill(u, text) => FillKeeps(s, u, text);
    case HandOver(u) => HandOverKeeps(s, u);
    case Admit(id, input) => AdmitKeeps(s, id, input);
    case Answer(u) => SilentKeeps(s, a);
    case Hear(u, what) => SilentKeeps(s, a);
    case Drop(u, why) => SilentKeeps(s, a);
    case Archive(id) => ArchiveKeeps(s, id);
    case Bury(u) => BuryKeeps(s, u);
    case Update(u, to) => UpdateKeeps(s, u, to);
    case Delete(u) => DeleteKeeps(s, u);
    case Enter(u) => EnterKeeps(s, u);
    case Count(u) => CountOrHandOffKeeps(s, a);
    case HandOff(u) => CountOrHandOffKeeps(s, a);
    case _ => SaveOrCrashKeeps(s, a);
  }

  lemma SilentKeeps(s: State, a: Action)
    requires Inv(s) && (a.Answer? || a.Drop? || a.Hear?)
    ensures Inv(Do(s, a))
  {
    NoteKeeps(s, Do(s, a),
              if a.Answer? then Answered(a.uid) else if a.Drop? then Dropped(a.uid, a.why) else Heard(a.uid, a.what));
  }

  lemma InitialInv(s: State)
    requires Initial(s)
    ensures Inv(s)
  {
  }
}
