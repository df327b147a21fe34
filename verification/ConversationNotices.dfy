/**
 * Conversation notices: checkpoint, send, checkpoint, acknowledge.
 *
 * Unlike a delivery, a notice saves its checkpoint again before asking for the
 * acknowledgement, so a failed save can never complete the server's outbox.
 */
module ConversationNotices {
  import opened Effects

  /** `next` is 0 while the outcome of a send is unknown, and 1 once it was accepted, perhaps with a message id. */
  datatype Checkpoint = Checkpoint(digest: nat, next: nat, content: nat, acked: bool, receipt: Option<nat>)

  /** What is asked and heard about one notice; an acknowledgement names the message, if its id is known. */
  datatype Event =
    | Found(caller: bool)
    | Inside(member: bool)
    | Allowed(allowed: bool)
    | Sent(digest: nat, content: nat)
    | Accepted(receipt: Option<nat>)
    | AckAsked(digest: nat, receipt: Option<nat>)
    | AckTaken(handled: bool)

  /** A notice as listed by the service; `digest` identifies its kind, task, conversation and bare text. */
  datatype NoticeItem = NoticeItem(valid: bool, group: bool, digest: nat, content: nat)

  // ---- How one notice of a poll goes ----------------------------------------------------------

  /** One notice of a poll, or its beginning: what was heard and done, the checkpoint then, and how it ended. */
  datatype Ending = Ending(story: seq<Event>, last: Option<Checkpoint>, end: Outcome<bool>)

  predicate Ends(e: Ending, i: nat, last: Option<Checkpoint>, end: Outcome<bool>) {
    |e.story| == i && e.last == last && e.end == end
  }

  predicate AckStory(e: Ending, i: nat, c: Checkpoint) {
    && i + 1 < |e.story| && e.story[i] == AckAsked(c.digest, c.receipt) && e.story[i + 1].AckTaken?
    && if e.story[i + 1].handled then Ends(e, i + 2, Some(c.(acked := true)), Ok(true))
       else Ends(e, i + 2, Some(c), Thrown(0))
  }

  predicate SendStory(e: Ending, i: nat, digest: nat, content: nat) {
    && i + 1 < |e.story| && e.story[i] == Sent(digest, content) && e.story[i + 1].Accepted?
    && AckStory(e, i + 2, Checkpoint(digest, 1, content, false, e.story[i + 1].receipt))
  }

  /** The service must still allow the notice when it is sent. */
  predicate AllowedStory(e: Ending, i: nat, prior: Option<Checkpoint>, digest: nat, content: nat) {
    && i < |e.story| && e.story[i].Allowed?
    && if e.story[i].allowed then SendStory(e, i + 1, digest, content) else Ends(e, i + 1, prior, Ok(false))
  }

  /** A group notice is sent only by a connected robot that is in the group. */
  predicate MemberStory(e: Ending, i: nat, prior: Option<Checkpoint>, digest: nat, content: nat) {
    && i < |e.story| && e.story[i].Found?
    && if !e.story[i].caller then Ends(e, i + 1, prior, Thrown(0))
       else
         && i + 1 < |e.story| && e.story[i + 1].Inside?
         && if e.story[i + 1].member then AllowedStory(e, i + 2, prior, digest, content)
            else Ends(e, i + 2, prior, Thrown(0))
  }

  predicate UnsentStory(e: Ending, i: nat, prior: Option<Checkpoint>, item: NoticeItem) {
    var content := if prior.Some? then prior.value.content else item.content;
    if item.group then MemberStory(e, i, prior, item.digest, content)
    else AllowedStory(e, i, prior, item.digest, content)
  }

  /** A notice unlike its checkpoint is refused, an acknowledged one is left alone, a sent one is acknowledged only. */
  predicate NoticeStory(e: Ending, i: nat, prior: Option<Checkpoint>, item: NoticeItem) {
    if !item.valid || (prior.Some? && (prior.value.digest != item.digest || prior.value.next > 1)) then
      Ends(e, i, prior, Thrown(0))
    else if prior.Some? && prior.value.acked then Ends(e, i, prior, Ok(true))
    else if prior.Some? && prior.value.next == 1 then AckStory(e, i, prior.value)
    else UnsentStory(e, i, prior, item)
  }

  /**
   * A notice that is sent at all was allowed by the service right before, from
   * inside its group, and is sent once, with its first content.
   */
  lemma SentAsAllowed(e: Ending, prior: Option<Checkpoint>, item: NoticeItem, k: nat)
    requires NoticeStory(e, 0, prior, item) && k < |e.story| && e.story[k].Sent?
    ensures k > 0 && e.story[k - 1] == Allowed(true) && item.valid
    ensures item.group ==> k == 3 && e.story[0] == Found(true) && e.story[1] == Inside(true)
    ensures e.story[k] == Sent(item.digest, if prior.Some? then prior.value.content else item.content)
    ensures forall j: nat :: j < |e.story| && e.story[j].Sent? ==> j == k
    ensures e.last.Some? && e.last.value.next == 1
  {
  }

  /** A poll completes a notice exactly when its checkpoint says acknowledged, by now or before. */
  lemma CompletedIff(e: Ending, i: nat, prior: Option<Checkpoint>, item: NoticeItem)
    requires NoticeStory(e, i, prior, item)
    ensures e.end == Ok(true) <==>
            && item.valid && e.last.Some? && e.last.value.acked && e.last.value.digest == item.digest
            && e.last.value.next <= 1
    ensures e.end == Ok(true) && !(prior.Some? && prior.value.acked) ==>
              && |e.story| >= i + 2 && e.story[|e.story| - 1] == AckTaken(true)
              && e.story[|e.story| - 2] == AckAsked(item.digest, e.last.value.receipt)
  {
  }

  // ---- What holds over all polls -----------------------------------------------------------------

  predicate SentDone(c: Option<Checkpoint>, digest: nat) { c.Some? && c.value.next == 1 && c.value.digest == digest }

  /** Acknowledged, in the trace `tr`, means sent, and saved as sent. */
  ghost predicate Backed(tr: seq<Event>, c: Option<Checkpoint>) {
    forall e :: e in tr && e.AckAsked? ==> SentDone(c, e.digest)
  }

  ghost predicate WasSent(tr: seq<Event>, c: Checkpoint) {
    exists e :: e in tr && e == Sent(c.digest, c.content)
  }

  ghost predicate Truthful(tr: seq<Event>, c: Option<Checkpoint>) {
    c.Some? ==> c.value.next <= 1 && (c.value.next == 1 ==> WasSent(tr, c.value))
  }

  ghost predicate NoSendAfterAck(tr: seq<Event>) {
    forall i, j :: 0 <= i < j < |tr| && tr[i].AckAsked? ==>
        !tr[j].Sent? && (tr[j].AckAsked? ==> tr[j].digest == tr[i].digest)
  }

  /** Before each acknowledgement request the notice it names was sent. */
  ghost predicate AckAfterSend(tr: seq<Event>) {
    forall k :: 0 <= k < |tr| && tr[k].AckAsked? ==>
        exists m :: 0 <= m < k && tr[m].Sent? && tr[m].digest == tr[k].digest
  }

  ghost predicate Sound(tr: seq<Event>, mem: Option<Checkpoint>, disk: Option<Checkpoint>) {
    && NoSendAfterAck(tr) && AckAfterSend(tr) && Backed(tr, mem) && Backed(tr, disk)
    && Truthful(tr, mem) && Truthful(tr, disk)
  }

  lemma WasSentLater(tr: seq<Event>, e: Event, c: Checkpoint)
    requires WasSent(tr, c)
    ensures WasSent(tr + [e], c)
  {
    assert Sent(c.digest, c.content) in tr + [e];
  }

  lemma TruthfulLater(tr: seq<Event>, e: Event, c: Option<Checkpoint>)
    requires Truthful(tr, c)
    ensures Truthful(tr + [e], c)
  {
    if c.Some? && c.value.next == 1 { WasSentLater(tr, e, c.value); }
  }

  lemma AckAfterSendLater(tr: seq<Event>, e: Event)
    requires AckAfterSend(tr) && !e.AckAsked?
    ensures AckAfterSend(tr + [e])
  {
    var t := tr + [e];
    forall k | 0 <= k < |t| && t[k].AckAsked?
      ensures exists m :: 0 <= m < k && t[m].Sent? && t[m].digest == t[k].digest
    {
      var m :| 0 <= m < k && tr[m].Sent? && tr[m].digest == tr[k].digest;
      assert t[m] == tr[m];
    }
  }

  /** What is only heard, or comes back, changes nothing. */
  lemma AppendHeard(tr: seq<Event>, e: Event, mem: Option<Checkpoint>, disk: Option<Checkpoint>)
    requires Sound(tr, mem, disk) && !e.Sent? && !e.AckAsked?
    ensures Sound(tr + [e], mem, disk)
  {
    TruthfulLater(tr, e, mem);
    TruthfulLater(tr, e, disk);
    AckAfterSendLater(tr, e);
  }

  lemma AppendSent(tr: seq<Event>, c: Option<Checkpoint>, d: Option<Checkpoint>, digest: nat, content: nat)
    requires NoSendAfterAck(tr) && AckAfterSend(tr) && Backed(tr, c) && !SentDone(c, digest)
    requires c.Some? ==> c.value.digest == digest
    requires Truthful(tr, d)
    ensures var t := tr + [Sent(digest, content)];
            NoSendAfterAck(t) && AckAfterSend(t) && Truthful(t, d) && forall e :: e in t ==> !e.AckAsked?
  {
    assert forall e :: e in tr && e.AckAsked? ==> SentDone(c, e.digest);
    TruthfulLater(tr, Sent(digest, content), d);
    AckAfterSendLater(tr, Sent(digest, content));
  }

  lemma AppendAck(tr: seq<Event>, c: Checkpoint)
    requires NoSendAfterAck(tr) && AckAfterSend(tr) && Backed(tr, Some(c)) && Truthful(tr, Some(c)) && c.next == 1
    ensures var t := tr + [AckAsked(c.digest, c.receipt)];
            NoSendAfterAck(t) && AckAfterSend(t) && Truthful(t, Some(c)) && Backed(t, Some(c))
  {
    var t := tr + [AckAsked(c.digest, c.receipt)];
    var e :| e in tr && e == Sent(c.digest, c.content);
    var m :| 0 <= m < |tr| && tr[m] == e;
    assert t[m] == e && e in t;
    forall k | 0 <= k < |t| && t[k].AckAsked?
      ensures exists m :: 0 <= m < k && t[m].Sent? && t[m].digest == t[k].digest
    {
      if k < |tr| {
        var n :| 0 <= n < k && tr[n].Sent? && tr[n].digest == tr[k].digest;
        assert t[n] == tr[n];
      }
    }
    forall i, j | 0 <= i < j < |t| && t[i].AckAsked?
      ensures !t[j].Sent? && (t[j].AckAsked? ==> t[j].digest == t[i].digest)
    {
      assert t[i] == tr[i] && tr[i] in tr;
      if j < |tr| { assert t[j] == tr[j]; }
    }
  }

  class NoticeRelay {
    var mem: Option<Checkpoint>
    var disk: Option<Checkpoint>
    var stopped: bool
    ghost var trace: seq<Event>
    // How many effects have failed.
    ghost var faults: nat

    ghost predicate Valid()
      reads this
    {
      && Sound(trace, mem, disk)
      && (disk.Some? ==> mem.Some? && mem.value.digest == disk.value.digest)
    }

    /** From here on the notice went as `told`, unless an effect failed or the relay was stopped. */
    ghost predicate Follows(before: nat, past: seq<Event>, r: Outcome<bool>, told: bool)
      reads this
    {
      && before <= faults && past <= trace
      && ((told && faults == before) || (r.IsFailure() && before < faults) || (stopped && r == Ok(false)))
    }

    ghost function Here(r: Outcome<bool>): Ending
      reads this
    {
      Ending(trace, mem, r)
    }

    constructor ()
      ensures Valid() && mem.None? && trace == [] && !stopped
    {
      mem, disk, stopped, trace, faults := None, None, false, [], 0;
    }

    method WriteNotices() returns (r: Outcome<()>)
      requires Valid()
      modifies this`disk
      ensures Valid()
      ensures r.Ok? ==> disk == mem
      ensures disk == mem || disk == old(disk)
    {
      hide Sound;
      r := *;
      var renamed: bool := *;
      if r.Ok? || (r.Crashed? && renamed) {
        disk := mem;
        SoundTwice(trace, mem, old(disk));
      }
    }

    lemma SoundTwice(tr: seq<Event>, c: Option<Checkpoint>, d: Option<Checkpoint>)
      requires Sound(tr, c, d)
      ensures Sound(tr, c, c)
    {
    }

    method SaveNotices() returns (r: Outcome<()>)
      requires Valid()
      modifies this`disk, this`faults
      ensures Valid() && faults == old(faults) + (if r.IsFailure() then 1 else 0)
      ensures r.Ok? ==> disk == mem
      ensures disk == mem || disk == old(disk)
    {
      hide Sound;
      r := WriteNotices();
      if r.IsFailure() { faults := faults + 1; }
    }

    /** An await: other notices may save the checkpoint file, and the relay may stop; its failures are counted. */
    method Await() returns (r: Outcome<()>)
      requires Valid()
      modifies this`disk, this`stopped, this`faults
      ensures Valid() && (disk == mem || disk == old(disk)) && (old(stopped) ==> stopped)
      ensures faults == old(faults) + (if r.IsFailure() then 1 else 0)
    {
      hide Sound;
      var others: bool := *;
      if others { var saved := WriteNotices(); }
      var stop: bool := *;
      stopped := stopped || stop;
      r := *;
      if r.IsFailure() { faults := faults + 1; }
    }

    /** A question that is answered by yes or no. */
    method Ask(report: bool -> Event) returns (r: Outcome<bool>)
      requires Valid() && !stopped && forall x :: !report(x).Sent? && !report(x).AckAsked?
      modifies this`disk, this`stopped, this`trace, this`faults
      ensures Valid() && (disk == mem || disk == old(disk)) && (old(stopped) ==> stopped)
      ensures faults == old(faults) + (if r.IsFailure() then 1 else 0)
      ensures trace == if r.Ok? then old(trace) + [report(r.value)] else old(trace)
    {
      hide Sound;
      var done :- Await();
      var answer: bool := *;
      AppendHeard(trace, report(answer), mem, disk);
      trace := trace + [report(answer)];
      return Ok(answer);
    }

    /** Nothing was sent of this notice, or its outcome is not known. */
    ghost predicate Unsent(digest: nat)
      reads this
    {
      mem.Some? ==> mem.value.digest == digest && mem.value.next == 0 && !mem.value.acked
    }

    /** A group's notice needs its robot connected and in the group. */
    method SendToGroup(digest: nat, content: nat) returns (r: Outcome<bool>)
      requires Valid() && Unsent(digest) && !stopped
      modifies this
      ensures Valid() && (r == Ok(true) ==> disk == mem)
      ensures Follows(old(faults), old(trace), r, MemberStory(Here(r), |old(trace)|, old(mem), digest, content))
    {
      hide Sound, AllowedStory;
      var caller :- Ask(x => Found(x));
      if !caller { return Thrown(0); }
      if stopped { return Ok(false); }
      var member :- Ask(x => Inside(x));
      if !member { return Thrown(0); }
      r := SendIfAllowed(digest, content);
    }

    /** Sends the notice, if its authority still stands; `false` leaves it for another poll. */
    method SendIfAllowed(digest: nat, content: nat) returns (r: Outcome<bool>)
      requires Valid() && Unsent(digest)
      modifies this
      ensures Valid() && (old(stopped) ==> r == Ok(false) && trace == old(trace))
      ensures r == Ok(true) ==> disk == mem
      ensures Follows(old(faults), old(trace), r, AllowedStory(Here(r), |old(trace)|, old(mem), digest, content))
    {
      hide Sound, SendStory;
      if stopped { return Ok(false); }
      var allowed :- Ask(x => Allowed(x));
      if stopped || !allowed { return Ok(false); }
      r := SendOnce(digest, content);
    }

    lemma Unfinished(digest: nat, content: nat)
      requires Valid() && Unsent(digest)
      ensures var c := Some(Checkpoint(digest, 0, content, false, None));
              Sound(trace, c, disk) && (disk.Some? ==> disk.value.digest == digest)
              && forall e :: e in trace ==> !e.AckAsked?
    {
      assert forall e :: e in trace && e.AckAsked? ==> SentDone(mem, e.digest);
    }

    /** Checkpoint, send, and then acknowledge. */
    method SendOnce(digest: nat, content: nat) returns (r: Outcome<bool>)
      requires Valid() && Unsent(digest) && !stopped
      modifies this
      ensures Valid() && (r == Ok(true) ==> disk == mem)
      ensures Follows(old(faults), old(trace), r, SendStory(Here(r), |old(trace)|, digest, content))
    {
      hide Sound, AckStory;
      Unfinished(digest, content);
      mem := Some(Checkpoint(digest, 0, content, false, None));
      var saved :- SaveNotices();
      LogSend(digest, content);
      var sent :- Await();
      var receipt: Option<nat> := *;
      Confirm(receipt);
      r := Acknowledge();
    }

    method LogSend(digest: nat, content: nat)
      requires Valid() && !stopped && disk == mem == Some(Checkpoint(digest, 0, content, false, None))
      modifies this`trace
      ensures Valid() && trace == old(trace) + [Sent(digest, content)] && WasSent(trace, mem.value)
    {
      AppendSent(trace, mem, disk, digest, content);
      trace := trace + [Sent(digest, content)];
      assert Sent(digest, content) in trace;
    }

    /** The send was accepted, perhaps with a message id. */
    method Confirm(receipt: Option<nat>)
      requires Valid() && mem.Some? && mem.value.next == 0 && WasSent(trace, mem.value)
      modifies this`mem, this`trace
      ensures Valid() && mem == Some(old(mem).value.(next := 1, receipt := receipt))
      ensures trace == old(trace) + [Accepted(receipt)]
    {
      AppendHeard(trace, Accepted(receipt), mem, disk);
      WasSentLater(trace, Accepted(receipt), mem.value);
      trace := trace + [Accepted(receipt)];
      mem := Some(mem.value.(next := 1, receipt := receipt));
      assert WasSent(trace, mem.value);
    }

    /** One notice of a poll. */
    method Deliver(item: NoticeItem) returns (r: Outcome<bool>)
      requires Valid()
      modifies this
      ensures Valid() && old(trace) <= trace
      ensures Follows(old(faults), old(trace), r, NoticeStory(Here(r), |old(trace)|, old(mem), item))
      ensures old(mem).Some? && old(mem).value.digest != item.digest && !old(stopped) ==>
                !r.Ok? && mem == old(mem) && trace == old(trace)
      ensures old(mem).Some? && old(mem).value.acked && r.Ok? ==> trace == old(trace)
      ensures old(mem).Some? && old(mem).value.next == 1 ==>
                forall k :: |old(trace)| <= k < |trace| ==> !trace[k].Sent?
      ensures r.Ok? && r.value ==> mem.Some? && mem.value.acked && mem.value.digest == item.digest
      ensures r == Ok(true) && !(old(mem).Some? && old(mem).value.acked) ==> disk == mem
      ensures old(stopped) ==> r == Ok(false) && trace == old(trace) && mem == old(mem)
    {
      hide Sound, AckStory, MemberStory, AllowedStory;
      if stopped { return Ok(false); }
      if !item.valid { return Thrown(0); }
      if mem.Some? && (mem.value.digest != item.digest || mem.value.next > 1) { return Thrown(0); }
      if mem.Some? && mem.value.acked { return Ok(true); }
      if mem.None? || mem.value.next == 0 {
        var content := if mem.Some? then mem.value.content else item.content;
        if item.group {
          r := SendToGroup(item.digest, content);
        } else {
          r := SendIfAllowed(item.digest, content);
        }
      } else {
        r := Acknowledge();
      }
      if r == Ok(true) { CompletedIff(Here(r), |old(trace)|, old(mem), item); }
    }

    /** Saved again even if this process already holds it as sent; only then is the acknowledgement asked for. */
    method Acknowledge() returns (r: Outcome<bool>)
      requires Valid() && mem.Some? && mem.value.next == 1
      modifies this
      ensures Valid() && old(trace) <= trace
      ensures forall k :: |old(trace)| <= k < |trace| ==> !trace[k].Sent?
      ensures r.Ok? && r.value ==> mem == Some(old(mem).value.(acked := true)) && disk == mem
      ensures old(stopped) && !r.IsFailure() ==> r == Ok(false) && trace == old(trace)
      ensures Follows(old(faults), old(trace), r, AckStory(Here(r), |old(trace)|, old(mem).value))
    {
      hide Sound;
      var saved :- SaveNotices();
      if stopped { return Ok(false); }
      LogAck();
      var handled :- Ask(x => AckTaken(x));
      if !handled { return Thrown(0); }
      MarkAcked();
      saved :- SaveNotices();
      return Ok(true);
    }

    method LogAck()
      requires Valid() && !stopped && mem.Some? && mem.value.next == 1 && disk == mem
      modifies this`trace
      ensures Valid() && trace == old(trace) + [AckAsked(mem.value.digest, mem.value.receipt)]
    {
      AppendAck(trace, mem.value);
      trace := trace + [AckAsked(mem.value.digest, mem.value.receipt)];
    }

    method MarkAcked()
      requires Valid() && mem.Some? && mem.value.next == 1
      modifies this`mem
      ensures Valid() && mem == Some(old(mem).value.(acked := true))
    {
      mem := Some(mem.value.(acked := true));
      assert WasSent(trace, mem.value);
    }

    method Restart()
      requires Valid()
      modifies this
      ensures Valid() && mem == disk == old(disk) && trace == old(trace) && !stopped
    {
      mem, stopped := disk, false;
    }

    /** Any polls and crashes: what was acknowledged had been sent and is never sent again. */
    method Live(polls: seq<NoticeItem>)
      requires Valid()
      modifies this
      ensures NoSendAfterAck(trace) && AckAfterSend(trace)
    {
      var i := 0;
      while i < |polls|
        invariant Valid()
      {
        var outcome := Deliver(polls[i]);
        if outcome.Crashed? { Restart(); }
        i := i + 1;
      }
    }
  }
}
