/**
 * The checkpoint of one outgoing item, shared by every coordinator of the process.
 *
 * `mem` is the entry of the shared map, `disk` the entry of the last saved file.
 * Deliveries of other items save the whole map at any moment.  Fingerprints are
 * injective, so a digest is modelled as the text it stands for, with the number of
 * parts it is cut into.
 */
module DeliveryProtocol {
  import opened Effects
  import opened GroupRouting
  import opened Audience
  import Runs

  datatype Digest = Digest(text: nat, parts: nat)

  /** The pinned group message: `shown` are mentioned, `omitted` only counted. */
  datatype Payload = Payload(id: nat, time: nat, shown: seq<nat>, omitted: nat, content: nat, revision: nat)

  /** `life` numbers the checkpoints an item has had, in memory, since the run began. */
  datatype Checkpoint = Checkpoint(
    life: nat, digest: Digest, next: nat, legacy: bool, users: Option<seq<nat>>, route: Option<Route>,
    transport: Option<Payload>, notified: bool, acked: bool)

  /** A group is observed active or not; `users` and `legacy` are those of the checkpoint a part is sent under. */
  datatype Event =
    | Observed(observation: Observation, generation: nat, active: bool)
    | RosterRead(roster: set<nat>)
    | Permitted(allowed: bool)
    | Sent(life: nat, digest: Digest, index: nat, route: Option<Route>, payload: Option<Payload>,
           saved: nat, refusals: nat, durable: bool, generation: nat, users: Option<seq<nat>>, legacy: bool)
    | Refused(life: nat)
    | Answered(taken: bool)
    | AckAsked(life: nat, digest: Digest, durable: bool)

  /** `refusals` counts explicit audience rejections; `inFlight` and `refused` follow the call being made. */
  datatype State = State(
    shared: bool, mem: Option<Checkpoint>, disk: Option<Checkpoint>, trace: seq<Event>,
    lives: nat, refusals: nat, inFlight: bool, refused: bool, seen: Option<(Observation, nat)>)

  datatype Action =
    | Pin(digest: Digest, users: seq<nat>, route: Option<Route>)
    | Save
    | Crash
    | Observe(observation: Observation, generation: nat, active: bool)
    | Note(event: Event)  // a roster read, the answer to a last check, or to a send
    | Fill(payload: Payload, confirmedBy: Option<set<nat>>)
    | Send(generation: nat)
    | Fail
    | Refuse
    | Repin(payload: Payload, roster: set<nat>)
    | Advance
    | Mention
    | AskAck
    | Close

  predicate Shrinks(a: Payload, b: Payload) {
    |b.shown| < |a.shown| && b.omitted == a.omitted && forall u :: u in b.shown ==> u in a.shown
  }

  /** Whom the parts under a checkpoint mention; those of the older format mention nobody. */
  function Base(legacy: bool, users: Option<seq<nat>>): seq<nat> { if legacy then [] else users.GetOr([]) }

  /** The roster was read before; without one, nobody had to be confirmed. */
  predicate WasRead(tr: seq<Event>, roster: Option<set<nat>>) { roster.Some? ==> RosterRead(roster.value) in tr }

  /**
   * The payload mentions whom its checkpoint says, once each and as far as a roster confirmed them if one was
   * read: at most fifty, the others are counted.  After a refusal, some of the fifty may be gone.
   */
  ghost predicate Addressed(tr: seq<Event>, legacy: bool, users: Option<seq<nat>>, p: Payload) {
    exists roster: Option<set<nat>>, first: seq<nat> :: AddressedBy(tr, legacy, users, p, roster, first)
  }

  predicate AddressedBy(tr: seq<Event>, legacy: bool, users: Option<seq<nat>>, p: Payload, roster: Option<set<nat>>,
      first: seq<nat>)
  {
    && WasRead(tr, roster) && Splits(Intended(Base(legacy, users), roster), first, p.omitted)
    && Subsequence(p.shown, first) && (p.revision == 0 ==> p.shown == first)
  }

  ghost predicate Can(s: State, a: Action) {
    match a
    case Pin(_, _, route) => s.mem.None? && (s.shared ==> route.Some?)
    case Save => true
    case Crash => true
    case Observe(_, _, _) => true
    case Note(e) => e.RosterRead? || e.Permitted? || e.Answered?
    case Fill(p, roster) =>
      && s.mem.Some? && s.mem.value.transport.None? && p.revision == 0 && WasRead(s.trace, roster)
      && Splits(Intended(Base(s.mem.value.legacy, s.mem.value.users), roster), p.shown, p.omitted)
    case Send(generation) =>
      && s.mem.Some? && !s.mem.value.acked && s.mem.value.next < s.mem.value.digest.parts
      && (s.shared ==> s.mem.value.transport.Some? && s.mem.value.route.Some? && s.seen.Some?
                       && CanSend(s.seen.value.0, s.mem.value.route.value) && s.seen.value.1 == generation)
    case Fail => true
    case Refuse => s.mem.Some? && s.inFlight
    case Repin(p, roster) =>
      && s.mem.Some? && s.refused && s.mem.value.transport.Some?
      && Shrinks(s.mem.value.transport.value, p) && p.revision == s.refusals
      && RosterRead(roster) in s.trace && p.shown == Confirmed(s.mem.value.transport.value.shown, roster)
    case Advance => s.mem.Some? && s.inFlight
    case Mention => s.mem.Some?
    case AskAck => s.mem.Some? && s.mem.value.next == s.mem.value.digest.parts
    case Close => s.mem.Some? && s.mem.value.next == s.mem.value.digest.parts
  }

  /** The durable checkpoint already says everything this send depends on. */
  predicate Backed(s: State) {
    && s.mem.Some? && s.disk.Some? && s.disk.value.life == s.mem.value.life
    && s.disk.value.digest == s.mem.value.digest && s.disk.value.route == s.mem.value.route
    && s.disk.value.transport == s.mem.value.transport && s.disk.value.next == s.mem.value.next
  }

  /** The durable checkpoint already says that every part was sent. */
  predicate Finished(s: State) {
    s.mem.Some? && s.disk.Some? && s.disk.value.life == s.mem.value.life && s.disk.value.next == s.mem.value.next
  }

  function Saved(s: State): nat {
    if s.mem.Some? && s.disk.Some? && s.disk.value.life == s.mem.value.life then s.disk.value.next else 0
  }

  /** The event of a send from `s`. */
  function SentBy(s: State, generation: nat): Event
    requires s.mem.Some?
  {
    var c := s.mem.value;
    Sent(c.life, c.digest, c.next, c.route, c.transport, Saved(s), s.refusals, Backed(s), generation, c.users, c.legacy)
  }

  /** The event of an acknowledgement request from `s`. */
  function AckBy(s: State): Event
    requires s.mem.Some?
  {
    AckAsked(s.mem.value.life, s.mem.value.digest, Finished(s))
  }

  function Do(s: State, a: Action): State {
    match a
    case Pin(d, users, route) =>
      s.(mem := Some(Checkpoint(s.lives, d, 0, false, Some(users), route, None, false, false)), lives := s.lives + 1)
    case Save => s.(disk := s.mem)
    case Crash => s.(mem := s.disk, inFlight := false, refused := false, seen := None)
    case Observe(o, g, active) =>
      s.(seen := if active then Some((o, g)) else None, trace := s.trace + [Observed(o, g, active)])
    case Note(e) => s.(trace := s.trace + [e])
    case Fill(p, _) => if s.mem.None? then s else s.(mem := Some(s.mem.value.(transport := Some(p))))
    case Send(generation) =>
      if s.mem.None? then s
      else s.(inFlight := true, refused := false, trace := s.trace + [SentBy(s, generation)])
    case Fail => s.(inFlight := false)
    case Refuse =>
      if s.mem.None? then s
      else s.(inFlight := false, refused := true, refusals := s.refusals + 1,
              trace := s.trace + [Refused(s.mem.value.life)])
    case Repin(p, _) => if s.mem.None? then s else s.(mem := Some(s.mem.value.(transport := Some(p))), refused := false)
    case Advance =>
      if s.mem.None? then s
      else
        var c := s.mem.value;
        s.(inFlight := false, seen := None,
           mem := Some(c.(next := c.next + 1, transport := if c.legacy then None else c.transport)))
    case Mention => if s.mem.None? then s else s.(mem := Some(s.mem.value.(notified := true)))
    case AskAck =>
      if s.mem.None? then s
      else s.(trace := s.trace + [AckBy(s)])
    case Close =>
      if s.mem.None? then s else s.(mem := if s.shared then Some(s.mem.value.(acked := true)) else None)
  }

  /** A send that an earlier process made: part `i`, under checkpoint `c`. */
  function Past(c: Checkpoint, i: nat): Event {
    Sent(c.life, c.digest, i, None, None, 0, 0, false, 0, c.users, c.legacy)
  }

  /** What an earlier process did: it read rosters, and sent the parts below the progress of `c`. */
  predicate PastTrace(tr: seq<Event>, c: Checkpoint) {
    && c.next <= |tr|
    && (forall i :: 0 <= i < |tr| - c.next ==> tr[i].RosterRead?)
    && forall i :: |tr| - c.next <= i < |tr| ==> tr[i] == Past(c, i - (|tr| - c.next))
  }

  /** The run starts from a saved checkpoint, whose past sends are on record, or from none. */
  ghost predicate Initial(s: State) {
    && s.mem == s.disk && s.refusals == 0 && !s.inFlight && !s.refused && s.seen.None?
    && (s.mem.None? ==> s.trace == [])
    && (s.mem.Some? ==>
          && s.mem.value.life < s.lives && s.mem.value.next <= s.mem.value.digest.parts
          && (s.mem.value.transport.Some? ==> s.mem.value.transport.value.revision == 0)
          && (s.mem.value.acked ==> s.mem.value.next == s.mem.value.digest.parts)
          && PastTrace(s.trace, s.mem.value) && AudienceOk(s.mem, s.trace))
  }

  /** Some run of permitted actions leads from `s` to `t`. */
  ghost predicate Leads(s: State, t: State) {
    Runs.Leads(Can, Do, s, t)
  }

  ghost predicate Reachable(s: State) {
    exists init :: Initial(init) && Leads(init, s)
  }

  // ---- The invariant --------------------------------------------------------

  /** The payload is still the one sent, or has a smaller audience since a later explicit refusal. */
  predicate Keeps(sent: Option<Payload>, refusals: nat, now: Option<Payload>) {
    now == sent || (now.Some? && (sent.Some? ==> now.value.revision > refusals && Shrinks(sent.value, now.value)))
  }

  /** A copy of the checkpoint agrees with what was sent under it. */
  predicate Fits(c: Checkpoint, e: Event) {
    match e
    case Sent(life, digest, index, route, payload, saved, refusals, durable, _, users, legacy) =>
      life == c.life ==>
        && digest == c.digest && saved <= c.next && users == c.users && legacy == c.legacy
        && (durable ==> index <= c.next && route == c.route
                        && (index == c.next ==> Keeps(payload, refusals, c.transport)))
    case AckAsked(life, digest, durable) =>
      life == c.life ==> digest == c.digest && (durable ==> c.next == c.digest.parts)
    case _ => true
  }

  /** What may follow what, `e` before `f`. */
  predicate MayFollow(shared: bool, e: Event, f: Event) {
    && (e.Sent? && f.Sent? && e.life == f.life ==>
          && f.digest == e.digest && f.users == e.users && f.legacy == e.legacy && e.saved <= f.index
          && (e.durable ==> e.index <= f.index && f.route == e.route)
          && (e.durable && f.index == e.index ==> Keeps(e.payload, e.refusals, f.payload)))
    && (e.Sent? && f.AckAsked? && e.life == f.life ==> f.digest == e.digest)
    && (e.AckAsked? && e.durable && f.Sent? ==> f.life != e.life)
    && (shared && Lasting(e) && (f.Sent? || f.AckAsked?) ==> f.life == e.life)
  }

  predicate Lasting(e: Event) { (e.Sent? || e.AckAsked?) && e.durable }

  predicate Recorded(e: Event, s: State) {
    && (e.Sent? ==> e.life < s.lives && e.refusals <= s.refusals && (s.refused ==> e.refusals < s.refusals))
    && (e.AckAsked? ==> e.life < s.lives)
    && (s.shared && Lasting(e) ==>
          s.mem.Some? && s.disk.Some? && s.mem.value.life == e.life && s.disk.value.life == e.life)
  }

  ghost predicate CopyFits(c: Option<Checkpoint>, tr: seq<Event>) {
    c.Some? ==> forall e :: e in tr ==> Fits(c.value, e)
  }

  ghost predicate Pairs(shared: bool, tr: seq<Event>) {
    forall i, j :: 0 <= i < j < |tr| ==> MayFollow(shared, tr[i], tr[j])
  }

  ghost predicate Events(s: State) {
    forall e :: e in s.trace ==> Recorded(e, s)
  }

  predicate SentPart(e: Event, d: Digest, i: nat) { e.Sent? && e.digest == d && e.index == i }

  ghost predicate WasSent(tr: seq<Event>, d: Digest, i: nat) {
    exists e :: e in tr && SentPart(e, d, i)
  }

  ghost predicate SentBelow(tr: seq<Event>, d: Digest, n: nat) {
    forall i: nat :: i < n ==> WasSent(tr, d, i)
  }

  /** Every part below the progress of a copy was sent, with its digest. */
  ghost predicate Progress(c: Option<Checkpoint>, tr: seq<Event>) {
    c.Some? ==> c.value.next <= c.value.digest.parts && SentBelow(tr, c.value.digest, c.value.next)
  }

  /** At each send the earlier parts, and at each acknowledgement all parts, had been sent before. */
  ghost predicate Ordered(tr: seq<Event>) {
    forall k :: 0 <= k < |tr| ==>
      && (tr[k].Sent? ==> SentBelow(tr[..k], tr[k].digest, tr[k].index))
      && (tr[k].AckAsked? ==> SentBelow(tr[..k], tr[k].digest, tr[k].digest.parts))
  }

  function Refusals(tr: seq<Event>): nat {
    if tr == [] then 0 else Refusals(tr[..|tr| - 1]) + if tr[|tr| - 1].Refused? then 1 else 0
  }

  /** Sends carry the number of refusals before them, and payloads are no newer than that. */
  ghost predicate Counted(tr: seq<Event>) {
    forall k :: 0 <= k < |tr| && tr[k].Sent? ==>
      && tr[k].refusals == Refusals(tr[..k])
      && (tr[k].payload.Some? ==> tr[k].payload.value.revision <= tr[k].refusals)
  }

  predicate CopyOk(c: Option<Checkpoint>, s: State) {
    c.Some? ==>
      && c.value.life < s.lives && (c.value.acked ==> c.value.next == c.value.digest.parts)
      && (c.value.transport.Some? ==> c.value.transport.value.revision <= s.refusals)
  }

  predicate Copies(s: State) {
    && CopyOk(s.mem, s) && CopyOk(s.disk, s)
    && (s.mem.Some? && s.disk.Some? && s.mem.value.life == s.disk.value.life ==>
          && s.disk.value.digest == s.mem.value.digest && s.disk.value.next <= s.mem.value.next
          && s.disk.value.users == s.mem.value.users && s.disk.value.route == s.mem.value.route
          && s.disk.value.legacy == s.mem.value.legacy)
    && (s.shared && s.disk.Some? ==> s.mem.Some? && s.mem.value.life == s.disk.value.life)
  }

  /** The message whose call is pending is the one the checkpoint describes. */
  ghost predicate Pending(s: State) {
    s.inFlight ==>
      && s.mem.Some? && s.mem.value.next < s.mem.value.digest.parts
      && WasSent(s.trace, s.mem.value.digest, s.mem.value.next)
  }

  /** The payload that a copy pins is addressed to its users. */
  ghost predicate AudienceOk(c: Option<Checkpoint>, tr: seq<Event>) {
    c.Some? && c.value.transport.Some? ==> Addressed(tr, c.value.legacy, c.value.users, c.value.transport.value)
  }

  /** And so was every payload that went out. */
  ghost predicate AllAddressed(tr: seq<Event>) {
    forall k :: 0 <= k < |tr| && tr[k].Sent? && tr[k].payload.Some? ==>
      Addressed(tr[..k], tr[k].legacy, tr[k].users, tr[k].payload.value)
  }

  /** What is promised about the trace, and about both copies of the checkpoint against it. */
  ghost predicate TraceInv(s: State) {
    && CopyFits(s.mem, s.trace) && CopyFits(s.disk, s.trace)
    && Progress(s.mem, s.trace) && Progress(s.disk, s.trace) && Ordered(s.trace)
    && Counted(s.trace) && Pairs(s.shared, s.trace)
    && AudienceOk(s.mem, s.trace) && AudienceOk(s.disk, s.trace) && AllAddressed(s.trace)
  }

  ghost predicate Inv(s: State) {
    && TraceInv(s) && Copies(s) && Pending(s) && s.refusals == Refusals(s.trace) && Events(s)
    && (s.refused ==> s.refusals > 0)
  }

  // ---- Appending one event ----------------------------------------------------

  lemma FitsAppend(c: Option<Checkpoint>, tr: seq<Event>, e: Event)
    requires CopyFits(c, tr) && (c.Some? ==> Fits(c.value, e))
    ensures CopyFits(c, tr + [e])
  {
  }

  lemma PairsAppend(shared: bool, tr: seq<Event>, e: Event)
    requires Pairs(shared, tr) && forall f :: f in tr ==> MayFollow(shared, f, e)
    ensures Pairs(shared, tr + [e])
  {
  }

  lemma SentBelowAppend(tr: seq<Event>, e: Event, d: Digest, n: nat)
    requires SentBelow(tr, d, n)
    ensures SentBelow(tr + [e], d, n)
  {
    forall i: nat | i < n ensures WasSent(tr + [e], d, i) {
      assert WasSent(tr, d, i);
      var f :| f in tr && SentPart(f, d, i);
      assert f in tr + [e];
    }
  }

  lemma ProgressAppend(c: Option<Checkpoint>, tr: seq<Event>, e: Event)
    requires Progress(c, tr)
    ensures Progress(c, tr + [e])
  {
    if c.Some? { SentBelowAppend(tr, e, c.value.digest, c.value.next); }
  }

  lemma OrderedAppend(tr: seq<Event>, e: Event)
    requires Ordered(tr)
    requires e.Sent? ==> SentBelow(tr, e.digest, e.index)
    requires e.AckAsked? ==> SentBelow(tr, e.digest, e.digest.parts)
    ensures Ordered(tr + [e])
  {
    var t := tr + [e];
    forall k | 0 <= k < |t|
      ensures t[k].Sent? ==> SentBelow(t[..k], t[k].digest, t[k].index)
      ensures t[k].AckAsked? ==> SentBelow(t[..k], t[k].digest, t[k].digest.parts)
    {
      assert t[..k] == tr[..k];
      assert tr[..|tr|] == tr;
    }
  }

  lemma CountedAppend(tr: seq<Event>, e: Event)
    requires Counted(tr)
    requires e.Sent? ==> e.refusals == Refusals(tr) && (e.payload.Some? ==> e.payload.value.revision <= e.refusals)
    ensures Counted(tr + [e]) && Refusals(tr + [e]) == Refusals(tr) + if e.Refused? then 1 else 0
  {
    var t := tr + [e];
    assert t[..|t| - 1] == tr;
    forall k | 0 <= k < |t| && t[k].Sent?
      ensures t[k].refusals == Refusals(t[..k])
      ensures t[k].payload.Some? ==> t[k].payload.value.revision <= t[k].refusals
    {
      assert t[..k] == tr[..k];
      assert tr[..|tr|] == tr;
    }
  }

  lemma AddressedLater(tr: seq<Event>, now: seq<Event>, legacy: bool, users: Option<seq<nat>>, p: Payload)
    requires Addressed(tr, legacy, users, p) && tr <= now
    ensures Addressed(now, legacy, users, p)
  {
    var roster: Option<set<nat>>, first: seq<nat> :| AddressedBy(tr, legacy, users, p, roster, first);
    assert AddressedBy(now, legacy, users, p, roster, first);
  }

  lemma AudienceAppend(c: Option<Checkpoint>, tr: seq<Event>, e: Event)
    requires AudienceOk(c, tr)
    ensures AudienceOk(c, tr + [e])
  {
    hide Addressed;
    if c.Some? && c.value.transport.Some? {
      AddressedLater(tr, tr + [e], c.value.legacy, c.value.users, c.value.transport.value);
    }
  }

  lemma AddressedAppend(tr: seq<Event>, e: Event)
    requires AllAddressed(tr)
    requires e.Sent? && e.payload.Some? ==> Addressed(tr, e.legacy, e.users, e.payload.value)
    ensures AllAddressed(tr + [e])
  {
    hide Addressed;
    var t := tr + [e];
    forall k | 0 <= k < |t| && t[k].Sent? && t[k].payload.Some?
      ensures Addressed(t[..k], t[k].legacy, t[k].users, t[k].payload.value)
    {
      assert t[..k] == tr[..k];
      assert tr[..|tr|] == tr;
    }
  }

  lemma PendingAppend(s: State, t: State, e: Event)
    requires Pending(s) && t.trace == s.trace + [e] && t.mem == s.mem && t.inFlight == s.inFlight
    ensures Pending(t)
  {
  }

  lemma EventsAppend(s: State, t: State, e: Event)
    requires Events(s) && t.trace == s.trace + [e] && t.mem == s.mem && t.disk == s.disk
    requires t.shared == s.shared && t.lives == s.lives && t.refusals >= s.refusals
    requires t.refused ==> s.refused || t.refusals > s.refusals
    requires Recorded(e, t)
    ensures Events(t)
  {
    forall f | f in t.trace ensures Recorded(f, t) { if f in s.trace { assert Recorded(f, s); } }
  }

  lemma CopiesStay(s: State, t: State)
    requires Copies(s) && t.mem == s.mem && t.disk == s.disk && t.shared == s.shared && t.lives == s.lives
    requires t.refusals >= s.refusals
    ensures Copies(t)
  {
  }

  /** Everything the trace says survives an event that fits both copies and may follow the others. */
  lemma TraceAppend(s: State, t: State, e: Event)
    requires TraceInv(s) && s.refusals == Refusals(s.trace)
    requires t.trace == s.trace + [e] && t.mem == s.mem && t.disk == s.disk && t.shared == s.shared
    requires t.mem.Some? ==> Fits(t.mem.value, e)
    requires t.disk.Some? ==> Fits(t.disk.value, e)
    requires forall f :: f in s.trace ==> MayFollow(s.shared, f, e)
    requires e.Sent? ==> e.refusals == s.refusals && (e.payload.Some? ==> e.payload.value.revision <= e.refusals)
    requires e.Sent? ==> SentBelow(s.trace, e.digest, e.index)
    requires e.AckAsked? ==> SentBelow(s.trace, e.digest, e.digest.parts)
    requires e.Sent? && e.payload.Some? ==> Addressed(s.trace, e.legacy, e.users, e.payload.value)
    ensures TraceInv(t)
    ensures Refusals(t.trace) == s.refusals + if e.Refused? then 1 else 0
  {
    FitsAppend(s.mem, s.trace, e);
    FitsAppend(s.disk, s.trace, e);
    ProgressAppend(s.mem, s.trace, e);
    ProgressAppend(s.disk, s.trace, e);
    OrderedAppend(s.trace, e);
    CountedAppend(s.trace, e);
    PairsAppend(s.shared, s.trace, e);
    AudienceAppend(s.mem, s.trace, e);
    AudienceAppend(s.disk, s.trace, e);
    AddressedAppend(s.trace, e);
  }

  // ---- Each action keeps the invariant ------------------------------------------

  lemma SendFits(s: State, g: nat)
    requires Copies(s) && s.mem.Some? && s.mem.value.next < s.mem.value.digest.parts
    ensures Fits(s.mem.value, SentBy(s, g))
    ensures s.disk.Some? ==> Fits(s.disk.value, SentBy(s, g))
  {
  }

  lemma SendMayFollow(s: State, f: Event, g: nat)
    requires s.mem.Some? && Fits(s.mem.value, f) && Recorded(f, s) && s.mem.value.next < s.mem.value.digest.parts
    ensures MayFollow(s.shared, f, SentBy(s, g))
  {
  }

  /** What the trace needs to know about a send. */
  lemma SendOk(s: State, g: nat, e: Event)
    requires Inv(s) && Can(s, Send(g)) && e == SentBy(s, g)
    ensures Fits(s.mem.value, e) && (s.disk.Some? ==> Fits(s.disk.value, e))
    ensures forall f :: f in s.trace ==> MayFollow(s.shared, f, e)
    ensures e.Sent? && e.refusals == s.refusals && (e.payload.Some? ==> e.payload.value.revision <= e.refusals)
    ensures SentBelow(s.trace, e.digest, e.index)
    ensures e.payload.Some? ==> Addressed(s.trace, e.legacy, e.users, e.payload.value)
  {
    hide Ordered, Counted, Pairs, Pending, Addressed, AllAddressed;
    SendFits(s, g);
    forall f | f in s.trace ensures MayFollow(s.shared, f, e) { SendMayFollow(s, f, g); }
  }

  lemma SendKeeps(s: State, g: nat)
    requires Inv(s) && Can(s, Send(g))
    ensures Inv(Do(s, Send(g)))
  {
    hide TraceInv, MayFollow, Fits, SentBelow, Events, Pending;
    var t := Do(s, Send(g));
    var e := SentBy(s, g);
    SendOk(s, g, e);
    TraceAppend(s, t, e);
    SendPending(s, t, g, e);
  }

  lemma SendPending(s: State, t: State, g: nat, e: Event)
    requires Events(s) && Copies(s) && s.mem.Some? && s.mem.value.next < s.mem.value.digest.parts
    requires t == Do(s, Send(g)) && t.trace == s.trace + [e]
    ensures Pending(t) && Events(t)
  {
    assert t.trace[|s.trace|] == e;
    assert e in t.trace && SentPart(e, t.mem.value.digest, t.mem.value.next);
    EventsAppend(s, t, e);
  }

  lemma AskAckOk(s: State, e: Event)
    requires Inv(s) && Can(s, AskAck) && e == AckBy(s)
    ensures Fits(s.mem.value, e) && (s.disk.Some? ==> Fits(s.disk.value, e)) && Recorded(e, Do(s, AskAck))
    ensures forall f :: f in s.trace ==> MayFollow(s.shared, f, e)
    ensures SentBelow(s.trace, e.digest, e.digest.parts)
  {
    hide Ordered, Counted, Pairs, Pending;
    forall f | f in s.trace ensures MayFollow(s.shared, f, e) { assert Fits(s.mem.value, f) && Recorded(f, s); }
  }

  lemma AskAckKeeps(s: State)
    requires Inv(s) && Can(s, AskAck)
    ensures Inv(Do(s, AskAck))
  {
    hide TraceInv, Events, Pending, SentBelow, Copies, Refusals, Fits, MayFollow;
    var t, e := Do(s, AskAck), AckBy(s);
    AskAckOk(s, e);
    TraceAppend(s, t, e);
    PendingAppend(s, t, e);
    EventsAppend(s, t, e);
    CopiesStay(s, t);
  }

  /** What is read or observed is no part of what the trace promises. */
  lemma HeardKeeps(s: State, t: State, e: Event)
    requires Inv(s) && (e.Observed? || e.RosterRead? || e.Permitted? || e.Answered?)
    requires t == s.(trace := s.trace + [e], seen := t.seen)
    ensures Inv(t)
  {
    hide TraceInv, Events, Pending, SentBelow, Copies, Refusals, Addressed;
    TraceAppend(s, t, e);
    PendingAppend(s, t, e);
    EventsAppend(s, t, e);
    CopiesStay(s, t);
  }

  lemma RefuseKeeps(s: State)
    requires Inv(s) && Can(s, Refuse)
    ensures Inv(Do(s, Refuse))
  {
    hide TraceInv, Events, SentBelow, Copies, Refusals;
    var t, e := Do(s, Refuse), Refused(s.mem.value.life);
    TraceAppend(s, t, e);
    EventsAppend(s, t, e);
    CopiesStay(s, t);
  }

  lemma FillKeeps(s: State, p: Payload, roster: Option<set<nat>>)
    requires Inv(s) && Can(s, Fill(p, roster))
    ensures Inv(Do(s, Fill(p, roster)))
  {
    hide Splits, Intended, Addressed, AllAddressed;
    FilledIsAddressed(s, p, roster);
  }

  lemma FilledIsAddressed(s: State, p: Payload, roster: Option<set<nat>>)
    requires Can(s, Fill(p, roster))
    ensures AudienceOk(Do(s, Fill(p, roster)).mem, s.trace)
  {
    var c := s.mem.value;
    SubsequenceRefl(p.shown);
    assert AddressedBy(s.trace, c.legacy, c.users, p, roster, p.shown);
  }

  lemma RepinKeeps(s: State, p: Payload, roster: set<nat>)
    requires Inv(s) && Can(s, Repin(p, roster))
    ensures Inv(Do(s, Repin(p, roster)))
  {
    hide Splits, Intended, Addressed, AllAddressed, Confirmed;
    RepinnedIsAddressed(s, p, roster);
  }

  lemma RepinnedIsAddressed(s: State, p: Payload, roster: set<nat>)
    requires Can(s, Repin(p, roster)) && AudienceOk(s.mem, s.trace) && s.refusals > 0
    ensures AudienceOk(Do(s, Repin(p, roster)).mem, s.trace)
  {
    hide Splits, Intended;
    var c := s.mem.value;
    var was := c.transport.value;
    var earlier: Option<set<nat>>, first: seq<nat> :| AddressedBy(s.trace, c.legacy, c.users, was, earlier, first);
    SubsequenceTrans(p.shown, was.shown, first);
    assert AddressedBy(s.trace, c.legacy, c.users, p, earlier, first);
  }

  lemma AdvanceKeeps(s: State)
    requires Inv(s) && Can(s, Advance)
    ensures Inv(Do(s, Advance))
  {
  }

  lemma MarkKeeps(s: State, a: Action)
    requires Inv(s) && Can(s, a) && (a.Mention? || (a.Close? && s.shared))
    ensures Inv(Do(s, a))
  {
  }

  lemma PinKeeps(s: State, d: Digest, users: seq<nat>, route: Option<Route>)
    requires Inv(s) && Can(s, Pin(d, users, route))
    ensures Inv(Do(s, Pin(d, users, route)))
  {
  }

  lemma CopyKeeps(s: State, a: Action)
    requires Inv(s) && Can(s, a) && (a.Save? || a.Crash? || a.Fail? || (a.Close? && !s.shared))
    ensures Inv(Do(s, a))
  {
  }

  /** Every allowed action keeps the invariant. */
  lemma ActionKeeps(s: State, a: Action)
    requires Inv(s) && Can(s, a)
    ensures Inv(Do(s, a))
  {
    match a
    case Send(g) => SendKeeps(s, g);
    case AskAck => AskAckKeeps(s);
    case Observe(o, g, active) => HeardKeeps(s, Do(s, a), Observed(o, g, active));
    case Note(e) => HeardKeeps(s, Do(s, a), e);
    case Refuse => RefuseKeeps(s);
    case Fill(p, roster) => FillKeeps(s, p, roster);
    case Repin(p, roster) => RepinKeeps(s, p, roster);
    case Advance => AdvanceKeeps(s);
    case Pin(d, users, route) => PinKeeps(s, d, users, route);
    case Mention => MarkKeeps(s, a);
    case Close => if s.shared { MarkKeeps(s, a); } else { CopyKeeps(s, a); }
    case _ => CopyKeeps(s, a);
  }

  lemma InitialInv(s: State)
    requires Initial(s)
    ensures Inv(s)
  {
    hide Addressed;
    if s.mem.Some? {
      var c, tr := s.mem.value, s.trace;
      var n := |tr| - c.next;
      NoRefusals(tr);
      forall k | n <= k <= |tr| ensures SentBelow(tr[..k], c.digest, k - n) && Refusals(tr[..k]) == 0 {
        PastSends(tr, c, k - n);
        NoRefusals(tr[..k]);
      }
      assert tr[..|tr|] == tr;
      InitialEvents(s);
    }
  }

  lemma PastSends(tr: seq<Event>, c: Checkpoint, k: nat)
    requires PastTrace(tr, c) && k <= c.next
    ensures SentBelow(tr[..|tr| - c.next + k], c.digest, k)
  {
    var n := |tr| - c.next;
    var past := tr[..n + k];
    forall i: nat | i < k ensures WasSent(past, c.digest, i) {
      assert past[n + i] in past && SentPart(past[n + i], c.digest, i);
    }
  }

  lemma InitialEvents(s: State)
    requires Initial(s)
    ensures Events(s) && Pairs(s.shared, s.trace)
  {
  }

  lemma {:induction false} NoRefusals(tr: seq<Event>)
    requires forall e :: e in tr ==> !e.Refused?
    ensures Refusals(tr) == 0
  {
    if tr != [] { NoRefusals(tr[..|tr| - 1]); }
  }
}
