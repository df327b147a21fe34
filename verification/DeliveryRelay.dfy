/**
 * Delivering one outgoing item, in the form of the source.
 *
 * Any number of coordinators may hold snapshots of the item, stale or not; the
 * per-item lock lets one `Deliver` run at a time.  As for the inbox, every effect
 * is one action of the protocol, and any of them may throw or be the last.
 */
module DeliveryRelay {
  import opened Effects
  import opened GroupRouting
  import opened Mentions
  import opened Audience
  import opened DeliveryProtocol
  import opened DeliveryGuarantees
  import Runs

  /** A snapshot of the item.  `legacy` is its content as the older format cut it. */
  datatype Item = Item(
    valid: bool, group: bool, content: nat, legacy: Digest, users: seq<nat>, planned: bool, generation: nat,
    team: Team, author: Author, attribution: nat, requiresCheck: bool)

  function DigestOf(item: Item, legacy: bool): Digest {
    if legacy then item.legacy else Digest(item.content, 1)
  }

  ghost predicate PartSent(tr: seq<Event>, from: nat, d: Digest, i: nat) {
    exists k :: from <= k < |tr| && SentPart(tr[k], d, i)
  }

  /** An observation that does not let the delivery go on. */
  predicate Unusable(e: Event, generation: nat) { e.Observed? && (!e.active || e.generation != generation) }

  /** Since `before`, the last thing heard is that the delivery is not allowed any more. */
  predicate EndsRefused(before: seq<Event>, now: seq<Event>) {
    |now| > |before| && now[|now| - 1] == Permitted(false)
  }

  /** What the send API answers: an explicit rejection of the people mentioned is not just any error. */
  datatype SendAnswer = Taken | Rejects | Fails

  /**
   * Since `from` a part was given up for good reason: its send failed, or was rejected with nobody to leave
   * out, or again, or the roster has everybody whom it mentions.
   */
  ghost predicate GivenUp(from: nat, tr: seq<Event>, p: Option<Payload>, group: bool) {
    && |tr| > from && var e := tr[|tr| - 1];
    || e == Answered(false)
    || (e.Refused? && (!group || p.None? || p.value.shown == [] || exists j :: from <= j < |tr| - 1 && tr[j].Refused?))
    || (e.RosterRead? && |tr| >= from + 2 && tr[|tr| - 2].Refused? && p.Some? && p.value.shown != []
        && |Confirmed(p.value.shown, e.roster)| == |p.value.shown|)
  }

  /** The send `e`, after `tr`, is a first message to `users`. */
  ghost predicate ReachesBy(tr: seq<Event>, from: nat, users: seq<nat>, checked: bool, e: Event) {
    && e.Sent? && e.payload.Some? && e.payload.value.revision == 0
    && var p := e.payload.value;
       if checked && Once(users) != [] then
         exists j :: from <= j < |tr| && tr[j].RosterRead?
                     && Splits(Confirmed(Once(users), tr[j].roster), p.shown, p.omitted)
       else Splits(Once(users), p.shown, p.omitted)
  }

  ghost predicate ReachedIn(tr: seq<Event>, from: nat, users: seq<nat>, checked: bool) {
    exists k :: from <= k < |tr| && ReachesBy(tr[..k], from, users, checked, tr[k])
  }

  /** Taking each once again changes nothing. */
  lemma OnceIsIntended(users: seq<nat>, roster: set<nat>)
    ensures Once(users) == Intended(users, None)
    ensures Once(Confirmed(Once(users), roster)) == Intended(users, Some(roster))
  {
    ConfirmedDistinct(Once(users), roster);
    OnceOfDistinct(Confirmed(Once(users), roster));
  }

  lemma NothingRead(before: seq<Event>, now: seq<Event>, roster: Option<set<nat>>)
    requires now == before + if roster.Some? then [RosterRead(roster.value)] else []
    ensures WasRead(now, roster)
  {
    if roster.Some? { assert now[|before|] == RosterRead(roster.value); }
  }

  lemma KeepSent(before: seq<Event>, now: seq<Event>, from: nat, d: Digest, lo: nat, at: nat)
    requires before <= now && from <= |before| && PartSent(now, |before|, d, at)
    requires forall i: nat :: lo <= i < at ==> PartSent(before, from, d, i)
    ensures forall i: nat :: lo <= i <= at ==> PartSent(now, from, d, i)
  {
    forall i: nat | lo <= i <= at ensures PartSent(now, from, d, i) {
      if i < at {
        assert PartSent(before, from, d, i);
        var k :| from <= k < |before| && SentPart(before[k], d, i);
        assert now[k] == before[k];
      }
    }
  }

  class Delivery {
    const shared: bool
    var mem: Option<Checkpoint>
    var disk: Option<Checkpoint>
    var stopped: bool
    ghost var trace: seq<Event>
    var lives: nat
    var refusals: nat
    var lastClientMessageId: nat
    ghost var inFlight: bool
    ghost var refused: bool
    ghost var seen: Option<(Observation, nat)>
    ghost var faults: nat

    ghost function S(): State
      reads this
    {
      State(shared, mem, disk, trace, lives, refusals, inFlight, refused, seen)
    }

    ghost predicate Valid()
      reads this
    {
      Reachable(S())
    }

    // ---- Effects ---------------------------------------------------------------

    /** Failed effects are counted, so that nothing else can pass for one. */
    ghost method Fault()
      modifies this`faults
      ensures faults == old(faults) + 1
    {
      faults := faults + 1;
    }

    /** Writes the map of checkpoints: the file is replaced as a whole, or not at all. */
    method WriteDeliveries() returns (r: Outcome<()>)
      requires Valid()
      modifies this`disk
      ensures Valid() && (r.Ok? ==> disk == mem) && (disk == mem || disk == old(disk))
    {
      r := *;
      var renamed: bool := *;
      if r.Ok? || (r.Crashed? && renamed) {
        disk := mem;
        ReachableStep(old(S()), Save);
      }
    }

    /** A save of this delivery's own. */
    method SaveDeliveries() returns (r: Outcome<()>)
      requires Valid()
      modifies this`disk, this`faults
      ensures Valid() && Counts(old(faults), r)
      ensures r.Ok? ==> disk == mem
      ensures disk == mem || disk == old(disk)
    {
      r := WriteDeliveries();
      if r.IsFailure() { Fault(); }
    }

    /** Other items' deliveries may save the whole map, and the relay may be stopped. */
    method Await()
      requires Valid()
      modifies this`disk, this`stopped
      ensures Valid() && (disk == mem || disk == old(disk)) && (old(stopped) ==> stopped)
    {
      var others, stop: bool := *, *;
      if others { var saved := WriteDeliveries(); }
      stopped := stopped || stop;
    }

    method Ask<T(0)>() returns (r: Outcome<T>)
      requires Valid()
      modifies this`disk, this`stopped, this`faults
      ensures Valid() && (disk == mem || disk == old(disk)) && (old(stopped) ==> stopped) && Counts(old(faults), r)
    {
      Await();
      r := *;
      if r.IsFailure() { Fault(); }
    }

    /** A failure comes from an effect that failed, and none that failed is passed over. */
    ghost predicate Counts<T>(before: nat, r: Outcome<T>)
      reads this`faults
    {
      if r.IsFailure() then before < faults else faults == before
    }

    /** The same, but an error may also have this `cause`. */
    ghost predicate Fair<T>(before: nat, r: Outcome<T>, cause: bool)
      reads this`faults
    {
      before <= faults && (r.Ok? ==> faults == before) && (r.IsFailure() ==> before < faults || (r.Thrown? && cause))
    }

    /** Reconciles the group; the result is as fresh as the roster read inside it. */
    method ObserveGroup(item: Item) returns (r: Outcome<Observation>)
      requires Valid()
      modifies this`disk, this`stopped, this`faults, this`trace, this`seen
      ensures Valid() && old(trace) <= trace
      ensures r.Ok? ==>
                && Inspected(r.value) && seen == Some((r.value, item.generation))
                && trace == old(trace) + [Observed(r.value, item.generation, true)]
      ensures Fair(old(faults), r, trace != old(trace) && Unusable(trace[|trace| - 1], item.generation))
    {
      var found: Observation :- Ask();
      var active: bool, generation: nat := *, *;
      // `inspect` reports a leader as present only after seeing it, connected, in a roster.
      var o := if Inspected(found) then found else found.(leaderPresent := false);
      label before:
      seen := if active then Some((o, generation)) else None;
      trace := trace + [Observed(o, generation, active)];
      ReachableStep(old@before(S()), Observe(o, generation, active));
      if !active || generation != item.generation { return Thrown(0); }
      return Ok(o);
    }

    /** Something read or answered is put on record. */
    ghost method Hear(e: Event)
      requires Valid() && (e.RosterRead? || e.Permitted? || e.Answered?)
      modifies this`trace
      ensures Valid() && trace == old(trace) + [e]
    {
      trace := trace + [e];
      ReachableStep(old(S()), Note(e));
    }

    /** The accounts in the group, as the roster lists them. */
    method ReadRoster() returns (r: Outcome<set<nat>>)
      requires Valid()
      modifies this`disk, this`stopped, this`faults, this`trace
      ensures Valid() && Counts(old(faults), r)
      ensures trace == old(trace) + if r.Ok? then [RosterRead(r.value)] else []
    {
      r := Ask();
      if r.Ok? { Hear(RosterRead(r.value)); }
    }

    /** The last check before a send: whether the binding still allows this delivery. */
    method CheckDelivery() returns (r: Outcome<()>)
      requires Valid()
      modifies this`disk, this`stopped, this`faults, this`trace
      ensures Valid() && old(trace) <= trace
      ensures r.Ok? ==> trace == old(trace) + [Permitted(true)]
      ensures trace == old(trace) || trace == old(trace) + [Permitted(r.Ok?)]
      ensures Fair(old(faults), r, trace == old(trace) + [Permitted(false)])
    {
      var allowed: bool :- Ask();
      Hear(Permitted(allowed));
      r := if allowed then Ok(()) else Thrown(0);
    }

    // ---- sendGroupExact -----------------------------------------------------------

    /** Pins the message of this part once: identifier, time, audience and content. */
    method PrepareGroupDelivery(audience: seq<nat>, content: nat, ghost roster: Option<set<nat>>)
      returns (r: Outcome<()>)
      requires Valid() && mem.Some?
      requires mem.value.transport.None? ==>
                 && WasRead(trace, roster)
                 && Once(audience) == Intended(Base(mem.value.legacy, mem.value.users), roster)
      modifies this`mem, this`disk, this`faults
      ensures Valid() && mem.Some? && mem == Some(old(mem).value.(transport := mem.value.transport))
      ensures Counts(old(faults), r)
      ensures old(mem).value.transport.Some? ==> mem == old(mem)
      ensures mem.value.transport.Some?
      ensures old(mem).value.transport.None? ==>
                var p := mem.value.transport.value; Splits(Once(audience), p.shown, p.omitted) && p.revision == 0
      ensures r.Ok? && old(mem).value.transport.None? ==> disk == mem
    {
      hide Reachable, Intended, Base, WasRead, Confirmed, CanSend;
      if mem.value.transport.None? {
        var users := Once(audience);
        var id: nat, time: nat := *, *;
        var shown := if |users| > MAX_NOTIFY_USERS then users[..MAX_NOTIFY_USERS] else users;
        var p := Payload(id, time, shown, |users| - |shown|, content, 0);
        mem := Some(mem.value.(transport := Some(p)));
        ReachableStep(old(S()), Fill(p, roster));
        var saved :- SaveDeliveries();
      }
      // A payload from an earlier process may be damaged, or too long.
      var fits: bool := *;
      if !fits {
        Fault();
        return Thrown(0);
      }
      return Ok(());
    }

    /** What must hold whenever a message goes out. */
    ghost predicate Ready(generation: nat)
      reads this
    {
      Can(S(), Send(generation))
    }

    /** The current part of checkpoint `c` was sent since `before`, as `c` pins it and, if checked, with leave. */
    ghost predicate SentSince(before: seq<Event>, c: Checkpoint, check: bool)
      reads this`trace
    {
      exists k :: |before| <= k < |trace| && SentPart(trace[k], c.digest, c.next) && trace[k].payload == c.transport
                  && (check ==> k > |before| && trace[k - 1] == Permitted(true))
    }

    method Transmit(ghost generation: nat)
      requires Valid() && Ready(generation)
      modifies this`trace, this`inFlight, this`refused
      ensures Valid() && inFlight && trace == old(trace) + [SentBy(old(S()), generation)]
    {
      var c := mem.value;
      trace := trace + [SentBy(S(), generation)];
      inFlight, refused := true, false;
      ReachableStep(old(S()), Send(generation));
    }

    method NoteRejection()
      requires Valid() && mem.Some? && inFlight
      modifies this`trace, this`inFlight, this`refused, this`refusals
      ensures Valid() && refused && !inFlight && trace == old(trace) + [Refused(mem.value.life)]
    {
      inFlight, refused, refusals := false, true, refusals + 1;
      trace := trace + [Refused(mem.value.life)];
      ReachableStep(old(S()), Refuse);
    }

    method NoteFailure()
      requires Valid()
      modifies this`inFlight
      ensures Valid() && !inFlight
    {
      inFlight := false;
      ReachableStep(old(S()), Fail);
    }

    /** One call of the send API; `rejected` reports an explicit rejection of the human audience. */
    method SendOnce(generation: nat, check: bool) returns (r: Outcome<()>, rejected: bool)
      requires Valid() && Ready(generation) && !inFlight
      modifies this`disk, this`stopped, this`faults, this`trace, this`inFlight, this`refused, this`refusals
      ensures Valid() && old(trace) <= trace
      ensures r.Ok? ==> inFlight && |trace| > |old(trace)| && trace[|trace| - 1] == Answered(true)
      ensures r.Ok? || rejected ==> SentSince(old(trace), mem.value, check)
      ensures r.Thrown? ==> !inFlight
      ensures rejected ==> r == Thrown(0) && refused && faults == old(faults)
      ensures rejected <==> |trace| > |old(trace)| && trace[|trace| - 1].Refused?
      ensures Fair(old(faults), r, rejected || trace == old(trace) + [Permitted(false)] ||
                                   (|trace| > |old(trace)| && trace[|trace| - 1] == Answered(false)))
    {
      hide Reachable, CanSend;
      rejected := false;
      if check {
        var allowed := CheckDelivery();
        if allowed.IsFailure() { return allowed, false; }
      }
      ghost var c, at := mem.value, |trace|;
      Transmit(generation);
      assert SentPart(trace[at], c.digest, c.next) && trace[at].payload == c.transport;
      assert check ==> at == |old(trace)| + 1 && trace[at - 1] == Permitted(true);
      ghost var sent := trace;
      r, rejected := Call();
      assert sent <= trace && trace[at] == sent[at] && (at > 0 ==> trace[at - 1] == sent[at - 1]);
    }

    /** The send API answers the call that was made. */
    method Call() returns (r: Outcome<()>, rejected: bool)
      requires Valid() && inFlight && mem.Some?
      modifies this`disk, this`stopped, this`faults, this`trace, this`inFlight, this`refused, this`refusals
      ensures Valid() && old(trace) <= trace && (rejected ==> r.Thrown?)
      ensures r.Thrown? && !rejected ==> trace == old(trace) + [Answered(false)]
      ensures r.Ok? ==> inFlight && trace == old(trace) + [Answered(true)]
      ensures r.Thrown? ==> r == Thrown(0) && !inFlight
      ensures rejected ==> refused && trace == old(trace) + [Refused(mem.value.life)]
      ensures r.Crashed? ==> trace == old(trace)
      ensures if r.Crashed? then old(faults) < faults else faults == old(faults)
    {
      hide Reachable;
      Await();
      var died: bool, answer: SendAnswer := *, *;
      if died {
        Fault();
        return Crashed, false;
      }
      match answer {
        case Taken =>
          Hear(Answered(true));
          return Ok(()), false;
        case Rejects =>
          NoteRejection();
          return Thrown(0), true;
        case Fails =>
          Hear(Answered(false));
          NoteFailure();
          return Thrown(0), false;
      }
    }

    /** Replaces a rejected audience by its confirmed members, if that removes anyone. */
    method ShrinkAudience(ghost generation: nat) returns (r: Outcome<()>)
      requires Valid() && mem.Some? && mem.value.transport.Some? && refused && Ready(generation)
      modifies this`mem, this`disk, this`stopped, this`faults, this`trace, this`refused, this`lastClientMessageId
      ensures Valid() && mem.Some? && mem.value.transport.Some? && old(trace) <= trace
      ensures mem == Some(old(mem).value.(transport := mem.value.transport)) && Ready(generation)
      ensures r.Ok? ==> disk == mem && Shrinks(old(mem).value.transport.value, mem.value.transport.value)
      ensures mem == old(mem) || mem.value.transport.value.revision == refusals
      ensures r.Ok? ==> mem.value.transport.value.id == lastClientMessageId > old(lastClientMessageId)
      ensures r.Ok? ==>
                && |trace| == |old(trace)| + 1 && trace[|old(trace)|].RosterRead?
                && mem.value.transport.value.shown ==
                     Confirmed(old(mem).value.transport.value.shown, trace[|old(trace)|].roster)
      ensures Fair(old(faults), r,
                && |trace| == |old(trace)| + 1 && trace[|old(trace)|].RosterRead? && mem == old(mem)
                && |Confirmed(mem.value.transport.value.shown, trace[|old(trace)|].roster)|
                   == |mem.value.transport.value.shown|)
    {
      hide Reachable, CanSend, Confirmed, Splits, Intended;
      var roster: set<nat> :- ReadRoster();
      var was := mem.value.transport.value;
      var valid := Confirmed(was.shown, roster);
      if |valid| == |was.shown| { return Thrown(0); }
      var now: nat, content: nat := *, *;
      var id := ClientMessageId(now);
      label before:
      var p := Payload(id, now, valid, was.omitted, content, refusals);
      refused, mem := false, Some(mem.value.(transport := Some(p)));
      ReachableStep(old@before(S()), Repin(p, roster));
      r := SaveDeliveries();
    }

    /** A transport id that no other message of this process has had: ids only grow. */
    method ClientMessageId(now: nat) returns (id: nat)
      requires Valid()
      modifies this`lastClientMessageId
      ensures Valid() && old(lastClientMessageId) < id == lastClientMessageId && now * 1000 <= id
      ensures id == now * 1000 || id == old(lastClientMessageId) + 1
    {
      lastClientMessageId := if now * 1000 > lastClientMessageId + 1 then now * 1000 else lastClientMessageId + 1;
      id := lastClientMessageId;
    }

    /**
     * Since `from` a first message went out to `users`: once each and, for a checked item, as far as a roster
     * read for it confirmed them.
     */
    ghost predicate Reaches(from: nat, users: seq<nat>, checked: bool)
      reads this`trace
    {
      ReachedIn(trace, from, users, checked)
    }

    /** Pins the first message of a part, for a checked item after reading who is in the group. */
    method PinMessage(item: Item, users: seq<nat>) returns (r: Outcome<()>, ghost roster: Option<set<nat>>)
      requires Valid() && mem.Some? && users == Base(mem.value.legacy, mem.value.users)
      modifies this`mem, this`disk, this`stopped, this`faults, this`trace
      ensures Valid() && mem.Some? && mem == Some(old(mem).value.(transport := mem.value.transport))
      ensures Counts(old(faults), r) && old(trace) <= trace
      ensures r.Ok? ==> mem.value.transport.Some?
      ensures r.Ok? && old(mem).value.transport.Some? ==> mem == old(mem) && trace == old(trace)
      ensures r.Ok? && old(mem).value.transport.None? ==>
                var p := mem.value.transport.value;
                && (roster.Some? <==> item.requiresCheck && Once(users) != [])
                && trace == old(trace) + (if roster.Some? then [RosterRead(roster.value)] else [])
                && Splits(Intended(users, roster), p.shown, p.omitted) && p.revision == 0
    {
      hide Reachable, Splits, WasRead, Intended, Confirmed, Base;
      var audience := users;
      roster := None;
      OnceIsIntended(users, {});
      if item.requiresCheck && mem.value.transport.None? && |Once(users)| > 0 {
        var read := ReadRoster();
        if read.IsFailure() { return read.PropagateFailure(), roster; }
        audience, roster := Confirmed(Once(users), read.value), Some(read.value);
        OnceIsIntended(users, read.value);
      }
      NothingRead(old(trace), trace, roster);
      var content: nat := *;
      r := PrepareGroupDelivery(audience, content, roster);
    }

    /** `sendGroupExact`: a pinned message, resent once to a confirmed audience after an explicit rejection. */
    method SendGroupExact(item: Item, users: seq<nat>) returns (r: Outcome<()>)
      requires Valid() && mem.Some? && !mem.value.acked && mem.value.next < mem.value.digest.parts && !inFlight
      requires users == Base(mem.value.legacy, mem.value.users)
      requires shared ==> mem.value.route.Some? && seen.Some? && CanSend(seen.value.0, mem.value.route.value)
                          && seen.value.1 == item.generation
      modifies this`mem, this`disk, this`stopped, this`faults, this`trace, this`inFlight, this`refused,
          this`refusals, this`lastClientMessageId
      ensures Valid() && mem.Some? && mem == Some(old(mem).value.(transport := mem.value.transport))
      ensures old(trace) <= trace
      ensures r.Ok? ==> inFlight && SentSince(old(trace), mem.value, item.requiresCheck)
      ensures r.Ok? && old(mem).value.transport.None? ==> Reaches(|old(trace)|, users, item.requiresCheck)
      ensures r.Thrown? ==> !inFlight
      ensures Fair(old(faults), r,
                   EndsRefused(old(trace), trace) || GivenUp(|old(trace)|, trace, mem.value.transport, true))
    {
      hide Reachable, CanSend, SentSince, Reaches, GivenUp;
      var rejected;
      r, rejected := SendFirst(item, users);
      if rejected && |mem.value.transport.value.shown| > 0 {
        ghost var refusal := trace;
        r := ResendShrunk(item);
        ReachesLater(refusal, |old(trace)|, users, item.requiresCheck);
        ReachesIs(|old(trace)|, users, item.requiresCheck);
        if r.Ok? { SentLater(old(trace), refusal, mem.value, item.requiresCheck); }
        GivesUpAgain(|old(trace)|, refusal, trace, mem.value.transport);
      } else {
        ReachesIs(|old(trace)|, users, item.requiresCheck);
        GivesUpFirst(|old(trace)|, trace, mem.value.transport);
      }
    }

    /** The pinned message is sent. */
    method SendFirst(item: Item, users: seq<nat>) returns (r: Outcome<()>, rejected: bool)
      requires Valid() && mem.Some? && !mem.value.acked && mem.value.next < mem.value.digest.parts && !inFlight
      requires users == Base(mem.value.legacy, mem.value.users)
      requires shared ==> mem.value.route.Some? && seen.Some? && CanSend(seen.value.0, mem.value.route.value)
                          && seen.value.1 == item.generation
      modifies this`mem, this`disk, this`stopped, this`faults, this`trace, this`inFlight, this`refused,
          this`refusals, this`lastClientMessageId
      ensures Valid() && mem.Some? && mem == Some(old(mem).value.(transport := mem.value.transport))
      ensures old(trace) <= trace && (r.Ok? ==> inFlight) && (r.Thrown? ==> !inFlight)
      ensures r.Ok? || rejected ==> mem.value.transport.Some? && SentSince(old(trace), mem.value, item.requiresCheck)
      ensures (r.Ok? || rejected) && old(mem).value.transport.None? ==>
                ReachedIn(trace, |old(trace)|, users, item.requiresCheck)
      ensures rejected ==> r == Thrown(0) && refused && faults == old(faults) && Ready(item.generation)
      ensures rejected ==> |trace| > |old(trace)| && trace[|trace| - 1].Refused?
      ensures Fair(old(faults), r, rejected || EndsRefused(old(trace), trace) ||
                                   (|trace| > |old(trace)| && trace[|trace| - 1] == Answered(false)))
    {
      hide Reachable, CanSend, SentSince, Splits, Reaches;
      var prepared;
      ghost var roster;
      prepared, roster := PinMessage(item, users);
      if prepared.IsFailure() { return prepared, false; }
      ghost var before, c := trace, mem.value;
      r, rejected := SendOnce(item.generation, item.requiresCheck);
      if r.Ok? || rejected {
        SentLater(old(trace), before, c, item.requiresCheck);
        if old(mem).value.transport.None? { FirstReaches(old(trace), before, users, c, item.requiresCheck, roster); }
        ReachesIs(|old(trace)|, users, item.requiresCheck);
      }
    }

    lemma GivesUpFirst(from: nat, tr: seq<Event>, p: Option<Payload>)
      ensures |tr| > from && (tr[|tr| - 1] == Answered(false) ||
                              (tr[|tr| - 1].Refused? && (p.None? || |p.value.shown| == 0))) ==>
                GivenUp(from, tr, p, true)
    {
    }

    lemma GivesUpAgain(from: nat, before: seq<Event>, tr: seq<Event>, p: Option<Payload>)
      requires before <= tr && |before| > from && before[|before| - 1].Refused?
      ensures |tr| > |before| && GivesUp(before, tr, p) ==> GivenUp(from, tr, p, true)
    {
      assert tr[|before| - 1] == before[|before| - 1];
    }

    /** After a refusal: no other answer, or the roster has everybody. */
    ghost predicate GivesUp(before: seq<Event>, tr: seq<Event>, p: Option<Payload>) {
      |tr| > |before| && var e := tr[|tr| - 1];
      || e == Answered(false) || e.Refused?
      || (|tr| == |before| + 1 && e.RosterRead? && p.Some? && p.value.shown != []
          && |Confirmed(p.value.shown, e.roster)| == |p.value.shown|)
    }

    lemma ReachesIs(from: nat, users: seq<nat>, checked: bool)
      ensures Reaches(from, users, checked) <==> ReachedIn(trace, from, users, checked)
    {
    }

    lemma SentLater(start: seq<Event>, before: seq<Event>, c: Checkpoint, check: bool)
      requires SentSince(before, c, check) && start <= before
      ensures SentSince(start, c, check)
    {
    }

    /** The message just sent is the first one, to whom it was prepared for. */
    lemma FirstReaches(start: seq<Event>, before: seq<Event>, users: seq<nat>, c: Checkpoint, check: bool,
        roster: Option<set<nat>>)
      requires start <= before <= trace && SentSince(before, c, check) && c.transport.Some?
      requires c.transport.value.revision == 0
      requires Splits(Intended(users, roster), c.transport.value.shown, c.transport.value.omitted)
      requires roster.Some? <==> check && Once(users) != []
      requires before == start + if roster.Some? then [RosterRead(roster.value)] else []
      ensures Reaches(|start|, users, check)
    {
      hide Splits;
      var k :| |before| <= k < |trace| && SentPart(trace[k], c.digest, c.next) && trace[k].payload == c.transport
               && (check ==> k > |before| && trace[k - 1] == Permitted(true));
      if roster.Some? { assert trace[..k][|start|] == before[|start|] == RosterRead(roster.value); }
      assert ReachesBy(trace[..k], |start|, users, check, trace[k]);
    }

    lemma ReachesLater(before: seq<Event>, from: nat, users: seq<nat>, checked: bool)
      requires before <= trace
      ensures ReachedIn(before, from, users, checked) ==> Reaches(from, users, checked)
    {
      hide ReachesBy;
      if ReachedIn(before, from, users, checked) {
        var k :| from <= k < |before| && ReachesBy(before[..k], from, users, checked, before[k]);
        assert trace[..k] == before[..k] && trace[k] == before[k];
      }
    }

    method ResendShrunk(item: Item) returns (r: Outcome<()>)
      requires Valid() && Ready(item.generation) && mem.value.transport.Some? && refused && !inFlight
      requires mem.value.transport.value.shown != []
      modifies this`mem, this`disk, this`stopped, this`faults, this`trace, this`inFlight, this`refused,
          this`refusals, this`lastClientMessageId
      ensures Valid() && mem.Some? && mem == Some(old(mem).value.(transport := mem.value.transport))
      ensures old(trace) <= trace
      ensures r.Ok? ==> inFlight && SentSince(old(trace), mem.value, item.requiresCheck)
      ensures r.Thrown? ==> !inFlight
      ensures Fair(old(faults), r,
                   EndsRefused(old(trace), trace) || GivesUp(old(trace), trace, mem.value.transport))
    {
      hide Reachable, CanSend, SentSince;
      var shrunk :- ShrinkAudience(item.generation);
      ghost var before := trace;
      var again;
      r, again := SendOnce(item.generation, item.requiresCheck);
      if r.Ok? { SentLater(old(trace), before, mem.value, item.requiresCheck); }
    }

    // ---- deliver ------------------------------------------------------------------

    method Advance()
      requires Valid() && mem.Some? && inFlight
      modifies this`mem, this`inFlight, this`seen
      ensures Valid() && !inFlight && mem.Some?
      ensures mem == Some(old(mem).value.(next := mem.value.next, transport := mem.value.transport))
      ensures mem.value.next == old(mem).value.next + 1
    {
      var c := mem.value;
      inFlight, seen := false, None;
      mem := Some(c.(next := c.next + 1, transport := if c.legacy then None else c.transport));
      ReachableStep(old(S()), DeliveryProtocol.Advance);
    }

    /** The last thing heard forbids to go on: a check was refused, no sender can be chosen, or a part was given up. */
    ghost predicate Halted(before: seq<Event>, item: Item)
      reads this`trace, this`mem
    {
      && |trace| > |before| && var e := trace[|trace| - 1];
      || e == Permitted(false) || Unusable(e, item.generation)
      || (e.Observed? && SelectSender(e.observation, item.team, item.author, item.attribution,
                                      if mem.Some? then mem.value.route else None).None?)
      || (mem.Some? && GivenUp(|before|, trace, mem.value.transport, item.group))
    }

    /** A fresh observation, in which the pinned sender can still send. */
    method ChooseSender(item: Item) returns (r: Outcome<()>)
      requires Valid() && mem.Some? && mem.value.route.Some?
      modifies this`disk, this`stopped, this`faults, this`trace, this`seen
      ensures Valid() && old(trace) <= trace
      ensures r.Ok? ==> seen.Some? && CanSend(seen.value.0, mem.value.route.value) && seen.value.1 == item.generation
      ensures Fair(old(faults), r, Halted(old(trace), item))
    {
      hide Reachable, CanSend;
      var o :- ObserveGroup(item);
      var pin := mem.value.route;
      var route := SelectSender(o, item.team, item.author, item.attribution, pin);
      if route.None? { return Thrown(0); }
      SelectedCanSend(o, item.team, item.author, item.attribution, pin);
      PinIsKept(o, item.team, item.author, item.attribution, pin.value);
      return Ok(());
    }

    /** Before a part: a fresh observation for the pinned sender, and for a checked item leave to go on. */
    method Clear(item: Item) returns (r: Outcome<()>)
      requires Valid() && mem.Some? && (shared ==> mem.value.route.Some?)
      modifies this`disk, this`stopped, this`faults, this`trace, this`seen
      ensures Valid() && old(trace) <= trace
      ensures r.Ok? && shared ==>
                seen.Some? && CanSend(seen.value.0, mem.value.route.value) && seen.value.1 == item.generation
      ensures r.Ok? && item.requiresCheck ==> trace != old(trace) && trace[|trace| - 1] == Permitted(true)
      ensures Fair(old(faults), r, Halted(old(trace), item))
    {
      hide Reachable, CanSend, SelectSender;
      if shared {
        var chosen :- ChooseSender(item);
      }
      if item.requiresCheck {
        var allowed :- CheckDelivery();
      }
      return Ok(());
    }

    /** The message of one part. */
    method SendPart(item: Item) returns (r: Outcome<()>)
      requires Valid() && mem.Some? && !mem.value.acked && mem.value.next < mem.value.digest.parts && !inFlight
      requires shared ==>
                 item.group && mem.value.route.Some? && seen.Some? && CanSend(seen.value.0, mem.value.route.value)
                 && seen.value.1 == item.generation
      modifies this`mem, this`disk, this`stopped, this`faults, this`trace, this`inFlight, this`refused,
               this`refusals, this`lastClientMessageId
      ensures Valid() && mem.Some? && mem == Some(old(mem).value.(transport := mem.value.transport))
      ensures old(trace) <= trace
      ensures r.Ok? ==> inFlight && SentSince(old(trace), mem.value, item.requiresCheck)
      ensures r.Ok? && item.group && old(mem).value.transport.None? ==>
                Reaches(|old(trace)|, Base(mem.value.legacy, mem.value.users), item.requiresCheck)
      ensures r.Thrown? ==> !inFlight
      ensures Fair(old(faults), r,
                   EndsRefused(old(trace), trace) || GivenUp(|old(trace)|, trace, mem.value.transport, item.group))
    {
      hide Reachable, CanSend, Reaches, SentSince, Base;
      if item.group {
        r := SendGroupExact(item, Base(mem.value.legacy, mem.value.users));
      } else {
        var rejected;
        r, rejected := SendOnce(item.generation, item.requiresCheck);
      }
    }

    /** One part: a fresh observation, the pinned sender, the message, and the saved progress. */
    method DeliverPart(item: Item) returns (r: Outcome<()>)
      requires Valid() && mem.Some? && !mem.value.acked && mem.value.next < mem.value.digest.parts && !inFlight
      requires shared ==> item.group && mem.value.route.Some?
      modifies this`mem, this`disk, this`stopped, this`faults, this`trace, this`inFlight, this`refused,
               this`refusals, this`lastClientMessageId, this`seen
      ensures Valid() && mem.Some? && old(trace) <= trace
      ensures mem == Some(old(mem).value.(next := mem.value.next, transport := mem.value.transport))
      ensures r.Ok? ==> disk == mem && mem.value.next == old(mem).value.next + 1
      ensures r.Ok? ==> PartSent(trace, |old(trace)|, mem.value.digest, old(mem).value.next)
      ensures r.Ok? && item.group && old(mem).value.transport.None? ==>
                Reaches(|old(trace)|, Base(mem.value.legacy, mem.value.users), item.requiresCheck)
      ensures !r.Crashed? ==> !inFlight
      ensures Fair(old(faults), r, Halted(old(trace), item))
    {
      hide Reachable, CanSend, Reaches, SentSince, Base, SelectSender, PartSent;
      var clear :- Clear(item);
      ghost var before, c := trace, mem.value;
      var sent :- SendPart(item);
      ReachesSince(|before|, |old(trace)|, Base(c.legacy, c.users), item.requiresCheck);
      SentIsPart(before, |old(trace)|, mem.value, item.requiresCheck);
      Advance();
      r := SaveDeliveries();
    }

    lemma SentIsPart(before: seq<Event>, from: nat, c: Checkpoint, check: bool)
      requires SentSince(before, c, check) && from <= |before|
      ensures PartSent(trace, from, c.digest, c.next)
    {
    }

    lemma ReachesSince(later: nat, from: nat, users: seq<nat>, checked: bool)
      requires from <= later
      ensures Reaches(later, users, checked) ==> Reaches(from, users, checked)
    {
      if Reaches(later, users, checked) {
        var k :| later <= k < |trace| && ReachesBy(trace[..k], later, users, checked, trace[k]);
        assert ReachesBy(trace[..k], from, users, checked, trace[k]);
      }
    }

    /** The checks a retry must pass before anything is sent: same audience, same content, sane progress. */
    predicate Consistent(item: Item)
      reads this
    {
      mem.Some? ==>
        && (mem.value.users.Some? ==> multiset(mem.value.users.value) == multiset(Audience(item)))
        && mem.value.digest == DigestOf(item, mem.value.legacy)
        && mem.value.next <= mem.value.digest.parts
    }

    function Audience(item: Item): seq<nat> {
      if item.group then Once(item.users) else []
    }

    /** The checks themselves. */
    method Acceptable(item: Item) returns (ok: bool)
      ensures ok <==> item.valid && Consistent(item)
    {
      if !item.valid { return false; }
      if mem.None? { return true; }
      var prior, incoming := mem.value, if item.group then Once(item.users) else [];
      if prior.users.Some? && multiset(prior.users.value) != multiset(incoming) { return false; }
      return prior.digest == DigestOf(item, prior.legacy) && prior.next <= prior.digest.parts;
    }

    /** No active plan names this item, or its checkpoint is of a time without routes. */
    predicate Unroutable(item: Item)
      reads this
    {
      shared && (!item.planned || (mem.Some? && mem.value.route.None?))
    }

    /** Every part was sent, and nobody is left to be mentioned. */
    predicate Finishing(users: seq<nat>)
      reads this
    {
      mem.Some? && mem.value.next >= mem.value.digest.parts && (|users| == 0 || mem.value.notified)
    }

    /** A group item belongs to this coordinator only through a fresh, active plan; then a sender is chosen. */
    method ChooseRoute(item: Item, users: seq<nat>) returns (r: Outcome<Option<Route>>)
      requires Valid()
      modifies this`disk, this`stopped, this`faults, this`trace, this`seen
      ensures Valid() && old(trace) <= trace
      ensures Fair(old(faults), r, Halted(old(trace), item) || Unroutable(item))
      ensures r.Ok? && shared ==>
                && |trace| == |old(trace)| + 1 && trace[|old(trace)|].Observed?
                && r.value == if Finishing(users) then None
                              else SelectSender(trace[|old(trace)|].observation, item.team, item.author,
                                                item.attribution, if mem.Some? then mem.value.route else None)
      ensures r.Ok? && !shared ==> r.value.None?
      ensures Unroutable(item) ==> !r.Ok? && trace == old(trace)
      ensures r.Ok? && shared ==> item.planned && (mem.Some? ==> mem.value.route.Some?)
      ensures r.Ok? && shared && mem.None? ==> r.value.Some?
      ensures r.Ok? && r.value.Some? && mem.Some? ==> r.value == mem.value.route
    {
      if !shared { return Ok(None); }
      if !item.planned { return Thrown(0); }
      if mem.Some? && mem.value.route.None? { return Thrown(0); }
      var o :- ObserveGroup(item);
      if mem.Some? && mem.value.next >= mem.value.digest.parts && (|users| == 0 || mem.value.notified) {
        return Ok(None);
      }
      var pin := if mem.Some? then mem.value.route else None;
      var route := SelectSender(o, item.team, item.author, item.attribution, pin);
      if route.None? { return Thrown(0); }
      if pin.Some? { PinIsKept(o, item.team, item.author, item.attribution, pin.value); }
      return Ok(route);
    }

    /** Pins content, audience and route before the first send. */
    method PinCheckpoint(item: Item, route: Option<Route>) returns (r: Outcome<()>)
      requires Valid() && mem.None? && (shared ==> route.Some?)
      modifies this`mem, this`disk, this`lives, this`faults
      ensures Counts(old(faults), r)
      ensures Valid() && mem.Some? && mem.value.transport.None? && mem.value.next == 0 &&
                mem.value.digest == DigestOf(item, false)
      ensures mem.value.users == Some(Audience(item)) && mem.value.route == route && !mem.value.acked &&
                !mem.value.legacy
      ensures r.Ok? ==> disk == mem
    {
      mem := Some(Checkpoint(lives, DigestOf(item, false), 0, false, Some(Audience(item)), route, None, false, false));
      lives := lives + 1;
      ReachableStep(old(S()), Pin(DigestOf(item, false), Audience(item), route));
      r := SaveDeliveries();
    }

    /** All remaining parts in order; stopping leaves the rest for a later attempt. */
    method DeliverParts(item: Item) returns (r: Outcome<bool>)
      requires Valid() && mem.Some? && !mem.value.acked && mem.value.next <= mem.value.digest.parts && !inFlight
      requires shared ==> item.group && mem.value.route.Some?
      modifies this`mem, this`disk, this`stopped, this`faults, this`trace, this`inFlight, this`refused,
               this`refusals, this`lastClientMessageId, this`seen
      ensures Valid() && mem.Some? && old(trace) <= trace
      ensures mem == Some(old(mem).value.(next := mem.value.next, transport := mem.value.transport))
      ensures r.Ok? ==> if r.value then mem.value.next == mem.value.digest.parts else stopped
      ensures old(stopped) && old(mem).value.next < old(mem).value.digest.parts ==>
                r == Ok(false) && trace == old(trace)
      ensures r.Ok? && r.value ==>
                forall i: nat :: old(mem).value.next <= i < mem.value.next ==>
                    PartSent(trace, |old(trace)|, mem.value.digest, i)
      ensures r.Ok? && r.value && item.group && NewMessage(old(mem)) ==>
                Reaches(|old(trace)|, Base(mem.value.legacy, mem.value.users), item.requiresCheck)
      ensures !r.Crashed? ==> !inFlight
      ensures Fair(old(faults), r, Halted(old(trace), item))
    {
      hide Reaches, PartSent, Halted, Reachable;
      ghost var users := Base(mem.value.legacy, mem.value.users);
      while mem.value.next < mem.value.digest.parts
        invariant Valid() && mem.Some? && !inFlight && old(trace) <= trace && faults == old(faults)
        invariant mem == Some(old(mem).value.(next := mem.value.next, transport := mem.value.transport))
        invariant old(mem).value.next <= mem.value.next <= mem.value.digest.parts
        invariant mem.value.next == old(mem).value.next ==> mem == old(mem)
        invariant old(stopped) && old(mem).value.next < old(mem).value.digest.parts ==>
                    stopped && mem.value.next == old(mem).value.next && trace == old(trace)
        invariant forall i: nat :: old(mem).value.next <= i < mem.value.next ==>
            PartSent(trace, |old(trace)|, mem.value.digest, i)
        invariant mem.value.next > old(mem).value.next && item.group && NewMessage(old(mem)) ==>
                    Reaches(|old(trace)|, users, item.requiresCheck)
        decreases mem.value.digest.parts - mem.value.next
      {
        if stopped { return Ok(false); }
        ghost var before, at := trace, mem.value.next;
        ReachesIs(|old(trace)|, users, item.requiresCheck);
        var delivered := DeliverPart(item);
        HaltedSince(before, old(trace), item);
        if delivered.IsFailure() { return delivered.PropagateFailure(); }
        KeepSent(before, trace, |old(trace)|, old(mem).value.digest, old(mem).value.next, at);
        ReachesLater(before, |old(trace)|, users, item.requiresCheck);
        ReachesSince(|before|, |old(trace)|, users, item.requiresCheck);
      }
      return Ok(true);
    }

    /** The next part has no message yet. */
    ghost predicate NewMessage(c: Option<Checkpoint>) {
      c.Some? && !c.value.acked && c.value.next < c.value.digest.parts && c.value.transport.None?
    }

    lemma HaltedSince(before: seq<Event>, start: seq<Event>, item: Item)
      requires |start| <= |before|
      ensures Halted(before, item) ==> Halted(start, item)
    {
    }

    /** Delivers the item and acknowledges it; `true` when it is finished. */
    method Deliver(item: Item) returns (r: Outcome<bool>)
      requires Valid() && !inFlight && (shared ==> item.group)
      modifies this
      ensures Valid() && old(trace) <= trace
      ensures !r.Crashed? ==> !inFlight
      ensures old(mem).Some? && old(mem).value.acked ==> mem == old(mem) && trace == old(trace) && r == Ok(true)
      ensures r.Ok? && r.value && !(old(mem).Some? && old(mem).value.acked) ==> disk == mem && mem.Some? == shared
      ensures r.Ok? && r.value && shared && !(old(mem).Some? && old(mem).value.acked) ==>
                && mem.value.acked && mem.value.digest == DigestOf(item, mem.value.legacy)
                && PartAcked(|old(trace)|, mem.value.digest)
      ensures r.Ok? && r.value && item.group && (old(mem).None? || NewMessage(old(mem))) ==>
                var users := if old(mem).None? then Audience(item)
                    else Base(old(mem).value.legacy, old(mem).value.users);
                Reaches(|old(trace)|, users, item.requiresCheck)
      ensures (!item.valid || !old(Consistent(item))) && !(old(mem).Some? && old(mem).value.acked) ==>
                r == Thrown(0) && mem == old(mem) && trace == old(trace)
      ensures r.Ok? && !r.value ==> stopped
      ensures Fair(old(faults), r, || Halted(old(trace), item)
                                   || !item.valid || !old(Consistent(item)) || old(Unroutable(item)))
    {
      hide Reaches, PartSent, Halted, Reachable, SelectSender;
      if mem.Some? && mem.value.acked { return Ok(true); }
      var acceptable := Acceptable(item);
      if !acceptable { return Thrown(0); }
      var users := if mem.Some? then mem.value.users.GetOr([]) else Audience(item);
      var route :- ChooseRoute(item, users);
      ghost var chosen := trace;
      if mem.None? {
        var pinned :- PinCheckpoint(item, route);
      }
      ghost var c := mem.value;
      var complete := DeliverParts(item);
      HaltedSince(chosen, old(trace), item);
      if complete.IsFailure() { return complete.PropagateFailure(); }
      if !complete.value { return Ok(false); }
      ReachesSince(|chosen|, |old(trace)|, Base(c.legacy, c.users), item.requiresCheck);
      ghost var done := trace;
      r := Acknowledge(users);
      ReachesLater(done, |old(trace)|, Base(c.legacy, c.users), item.requiresCheck);
    }

    method Mention()
      requires Valid() && mem.Some?
      modifies this`mem
      ensures Valid() && mem == Some(old(mem).value.(notified := true))
    {
      mem := Some(mem.value.(notified := true));
      ReachableStep(old(S()), DeliveryProtocol.Mention);
    }

    /** Requests the acknowledgement, and closes the checkpoint when it is granted; not once the relay is stopped. */
    method Acknowledge(users: seq<nat>) returns (r: Outcome<bool>)
      requires Valid() && mem.Some? && mem.value.next == mem.value.digest.parts && !inFlight
      modifies this`mem, this`disk, this`stopped, this`faults, this`trace
      ensures Valid() && old(trace) <= trace && Counts(old(faults), r)
      ensures r.Ok? && r.value ==> disk == mem && mem.Some? == shared && (shared ==> mem.value.acked)
      ensures r.Ok? && r.value && shared ==>
                && mem.value.digest == old(mem).value.digest && mem.value.legacy == old(mem).value.legacy
                && mem.value.notified == (old(mem).value.notified || |users| > 0)
      ensures r.Ok? && r.value ==> PartAcked(|old(trace)|, old(mem).value.digest)
      ensures if old(stopped) then stopped && r == Ok(false) && S() == old(S()) else r.Ok? ==> r.value
    {
      hide Reachable;
      if stopped { return Ok(false); }
      if |users| > 0 && !mem.value.notified {
        Mention();
        var saved :- SaveDeliveries();
      }
      RequestAck();
      var granted: () :- Ask();
      Close();
      var saved :- SaveDeliveries();
      return Ok(true);
    }

    ghost predicate PartAcked(from: nat, d: Digest)
      reads this
    {
      exists k :: from <= k < |trace| && trace[k].AckAsked? && trace[k].digest == d
    }

    method RequestAck()
      requires Valid() && mem.Some? && mem.value.next == mem.value.digest.parts
      modifies this`trace
      ensures Valid() && old(trace) <= trace && PartAcked(|old(trace)|, mem.value.digest)
    {
      trace := trace + [AckAsked(mem.value.life, mem.value.digest, Finished(S()))];
      ReachableStep(old(S()), AskAck);
      assert trace[|old(trace)|].AckAsked?;
    }

    /** A shared checkpoint stays as a tombstone; a private one is removed. */
    method Close()
      requires Valid() && mem.Some? && mem.value.next == mem.value.digest.parts
      modifies this`mem
      ensures Valid() && mem == if shared then Some(old(mem).value.(acked := true)) else None
    {
      mem := if shared then Some(mem.value.(acked := true)) else None;
      ReachableStep(old(S()), DeliveryProtocol.Close);
    }

    // ---- Whole runs -----------------------------------------------------------------

    constructor (group: bool, file: Option<Checkpoint>, past: seq<Event>, first: nat)
      requires Initial(State(group, file, file, past, first, 0, false, false, None))
      ensures Valid() && shared == group && mem == file && !inFlight && !stopped
    {
      shared, mem, disk, stopped := group, file, file, false;
      trace, lives, refusals, lastClientMessageId := past, first, 0, 0;
      inFlight, refused, seen, faults := false, false, None, 0;
      new;
      Runs.Stay(Can, Do, S());
      assert Initial(S()) && Leads(S(), S());
    }

    method Restart()
      requires Valid()
      modifies this
      ensures Valid() && mem == disk == old(disk) && trace == old(trace) && !inFlight
      ensures !stopped && lastClientMessageId == 0
    {
      mem, inFlight, refused, seen := disk, false, false, None;
      stopped, lastClientMessageId := false, 0;
      ReachableStep(old(S()), DeliveryProtocol.Crash);
    }

    /** Coordinators deliver their snapshots one after another, with crashes anywhere. */
    method Live(snapshots: seq<Item>)
      requires Valid() && !inFlight && (shared ==> forall i :: 0 <= i < |snapshots| ==> snapshots[i].group)
      modifies this
      ensures Valid()
    {
      var i := 0;
      while i < |snapshots|
        invariant Valid() && !inFlight
      {
        var outcome := Deliver(snapshots[i]);
        if outcome.Crashed? { Restart(); }
        i := i + 1;
      }
    }
  }
}
