/** When a routing notice, or the handing over to Chat, is a record's last word, and runs in which it is not. */
module InboundFinality {
  import opened Effects
  import opened InboundTypes
  import opened InboundProtocol
  import opened InboundGuarantees
  import Runs

  /** From here on, the record does nothing but repeat notice `n`. */
  ghost predicate OnlyRepeats(tr: seq<Event>, from: nat, u: nat, n: Notice) {
    forall k :: from <= k < |tr| && Concerns(tr[k], u) ==> Repeats(tr[k], n)
  }

  /** The record acts on a task, or says another text. */
  predicate SaysElse(e: Event, u: nat, n: Notice) {
    && Concerns(e, u)
    && (e.Posted? || (e.Told? && Some(e.text) != n.text) || (e.RoutingNoticed? && e.notice.text != n.text))
  }

  lemma FinalNoticeIsLast(s: State, u: nat, t: State)
    requires Reachable(s) && Can(s, Notify(u)) && Final(s, u, s.inbox[u].notice.value)
    requires Leads(Do(s, Notify(u)), t)
    ensures OnlyRepeats(t.trace, |s.trace|, u, s.inbox[u].notice.value)
  {
    var after, e := Do(s, Notify(u)), RoutingNoticed(u, s.inbox[u].notice.value, true);
    ReachableStep(s, Notify(u));
    ReachableRun(after, t);
    ReachableInv(t);
    RunExtends(after, t);
    var i := |s.trace|;
    assert after.trace[i] == e && t.trace[i] == after.trace[i];
    forall k | i <= k < |t.trace| && Concerns(t.trace[k], u) ensures Repeats(t.trace[k], e.notice) {
      if k > i { assert MayFollow(t.trace[i], t.trace[k]); }
    }
  }

  // The other half: a run after which the record says something else.

  /** `t` is `s` without its oldest records: those ahead of `k` are settled or under quarantine. */
  ghost predicate Without(s: State, t: State, k: nat) {
    && t.inbox == t.disk && t.inbox.Keys == (set v | v in s.inbox && v >= k)
    && (forall v :: v in t.inbox ==> t.inbox[v] == s.inbox[v])
    && (forall v :: v in t.inbox && t.inbox[v].id in t.decisions ==> t.inbox[v].id in s.decisions)
    && t.groups == s.groups && t.next == s.next && s.trace <= t.trace
  }

  lemma InvRecord(s: State, v: nat)
    requires Inv(s) && v in s.inbox
    ensures Coherent(s.inbox[v]) && (s.inbox[v].id in s.decisions ==> !s.inbox[v].chatSubmitting)
  {
  }

  lemma InvDistinct(s: State)
    requires Inv(s)
    ensures Distinct(s.inbox, s.inbox)
  {
  }

  lemma Step(origin: State, s: State, a: Action) returns (t: State)
    requires Leads(origin, s) && Can(s, a)
    ensures Leads(origin, t) && t == Do(s, a)
  {
    t := Do(s, a);
    Further(origin, s, a);
  }

  /** The handling of the first record begins, unless its Chat submission is uncertain. */
  lemma TakeUp(origin: State, s: State, v: nat) returns (t: State)
    requires Leads(origin, s) && v in s.inbox && forall w :: w in s.inbox ==> w >= v
    ensures Leads(origin, t) && t == s.(pass := t.pass, trace := t.trace, story := t.story) && s.trace <= t.trace
  {
    hide Leads;
    t := s;
    if Eligible(s, v) {
      t := Step(origin, t, Enter(v));
      if s.inbox[v].chatHandoff { t := Step(origin, t, HandOver(v)); }
    }
  }

  /** A record whose handling ends in a refusal for good goes to the quarantine; it is removed next. */
  lemma Refuse(origin: State, s: State, v: nat) returns (t: State)
    requires Leads(origin, s) && v in s.inbox && s.inbox == s.disk && Coherent(s.inbox[v])
    requires forall w :: w in s.inbox ==> w >= v
    ensures Leads(origin, t) && s.trace <= t.trace
    ensures t.inbox.Keys == s.inbox.Keys && forall w :: w in s.inbox && w != v ==> t.inbox[w] == s.inbox[w]
    ensures t.inbox[v].id == s.inbox[v].id && t.inbox[v].id in t.quarantine
    ensures t.decisions == s.decisions && t.groups == s.groups && t.next == s.next
  {
    hide Leads, Coherent, Evolves;
    var r := s.inbox[v];
    t := TakeUp(origin, s, v);
    QuarantineEvolves(r, s.groups);
    t := Step(origin, t, Update(v, r.(quarantined := true)));
    t := Step(origin, t, Archive(r.id));
  }

  /** A record with a notice is told it again, or answered in silence, and gets its terminal marker. */
  lemma RepeatAndBury(origin: State, s: State, v: nat) returns (t: State)
    requires Leads(origin, s) && Eligible(s, v) && s.inbox[v].notice.Some? && Coherent(s.inbox[v])
    requires forall w :: w in s.inbox ==> w >= v
    ensures Leads(origin, t) && s.trace <= t.trace
    ensures t == s.(pass := t.pass, trace := t.trace, story := t.story, decisions := s.decisions + {s.inbox[v].id})
  {
    hide Leads, Final;
    t := Step(origin, s, Enter(v));
    if s.inbox[v].notice.value.Speaks() {
      t := Step(origin, t, Notify(v));
    } else {
      t := Step(origin, t, Answer(v));
    }
    t := Step(origin, t, Bury(v));
  }

  /** A pass removes the record ahead: it is settled, or repeats its notice, or its handling is refused as invalid. */
  lemma RemoveFirst(origin: State, s: State, v: nat) returns (t: State)
    requires Leads(origin, s) && Inv(s) && s.inbox == s.disk && forall w :: w in s.inbox ==> w >= v
    ensures Leads(origin, t) && Without(s, t, v + 1)
  {
    hide Leads, Inv, Coherent, Eligible;
    t := s;
    if v !in s.inbox { return; }
    InvRecord(s, v);
    InvDistinct(s);
    if s.inbox[v].id !in s.decisions && !s.inbox[v].chatSubmitted {
      if Eligible(s, v) && s.inbox[v].notice.Some? {
        t := RepeatAndBury(origin, s, v);
      } else {
        t := Refuse(origin, s, v);
      }
    }
    t := Step(origin, t, Delete(v));
    t := Step(origin, t, Save);
  }

  lemma {:induction false} RemoveAhead(origin: State, s: State, k: nat) returns (t: State)
    requires Inv(origin) && Leads(origin, s) && s.inbox == s.disk
    ensures Leads(origin, t) && Without(s, t, k)
    decreases k
  {
    hide Leads, Inv;
    if k == 0 {
      t := s;
    } else {
      var m := RemoveAhead(origin, s, k - 1);
      RunKeeps(origin, m);
      t := RemoveFirst(origin, m, k - 1);
    }
  }

  /** The record is being handled, first in line, with file and memory equal. */
  ghost predicate Handled(s: State, u: nat, stage: Stage) {
    && s.pass == In(u, stage) && u in s.inbox && s.inbox == s.disk && Eligible(s, u) && Coherent(s.inbox[u])
    && !Legacy(s.inbox[u]) && !s.inbox[u].chatHandoff && forall v :: v in s.inbox ==> v >= u
  }

  /** A run from `origin` in which the last effect is that the record says something other than `n`. */
  ghost predicate Ends(origin: State, t: State, u: nat, n: Notice, from: nat) {
    Leads(origin, t) && from < |t.trace| && SaysElse(t.trace[|t.trace| - 1], u, n)
  }

  lemma UpdateAndSave(origin: State, s: State, u: nat, to: Record) returns (t: State)
    requires Leads(origin, s) && Handled(s, u, Begun) && Evolves(s.inbox[u], to, s.groups)
    requires to.quarantined == s.inbox[u].quarantined && !Legacy(to)
    requires Unpinned(s.inbox[u]) && !Unpinned(to) ==> Selects(s.story, to.prepared.value.expected)
    ensures Leads(origin, t) && Handled(t, u, Begun) && t.inbox[u] == to && t.trace == s.trace && t.groups == s.groups
  {
    hide Leads;
    t := Step(origin, s, Update(u, to));
    t := Step(origin, t, Save);
  }

  lemma EndsSince(origin: State, t: State, u: nat, n: Notice, from: nat, before: nat)
    requires Ends(origin, t, u, n, from) && before <= from
    ensures Ends(origin, t, u, n, before)
  {
  }

  /** The preflight is answered. */
  lemma HearDecision(origin: State, s: State, u: nat, d: Decision) returns (t: State)
    requires Leads(origin, s) && Handled(s, u, Begun)
    ensures Leads(origin, t) && Handled(t, u, Begun) && s.trace <= t.trace && t.inbox == s.inbox
    ensures t.groups == s.groups && Heard(u, Routed(d)) in t.story
  {
    hide Leads, Coherent, Legacy;
    t := Step(origin, s, Hear(u, Routed(d)));
  }

  lemma FreezeAndNotify(origin: State, s: State, u: nat, n: Notice, m: Notice) returns (t: State)
    requires Leads(origin, s) && Handled(s, u, Begun) && s.inbox[u].notice.None?
    requires MayFreeze(s.inbox[u], m, Begun, s.groups, s.story) && m.Speaks() && m.text != n.text
    ensures Ends(origin, t, u, n, |s.trace|)
  {
    hide Leads, MayFreeze, Coherent, Legacy;
    t := Step(origin, s, Freeze(u, m));
    t := Step(origin, t, Save);
    t := Step(origin, t, Notify(u));
  }

  lemma TellElse(origin: State, s: State, u: nat, n: Notice) returns (t: State)
    requires Leads(origin, s) && Handled(s, u, Begun) && s.inbox[u].notice.None? && n.Speaks()
    requires MayTell(s.inbox[u], Begun, s.groups)
    ensures Ends(origin, t, u, n, |s.trace|)
  {
    hide Leads, MayTell, Coherent, Legacy;
    t := Step(origin, s, Tell(u, n.text.value + 1));
  }

  lemma CountAndPost(origin: State, s: State, u: nat) returns (t: State)
    requires Leads(origin, s) && Handled(s, u, Begun) && s.inbox[u].notice.None?
    requires Sealed(s.inbox[u]) && Settled(s.inbox[u]) && Refusal(s.inbox[u].input).None? && !UploadsUsed(s.inbox[u])
    ensures Leads(origin, t) && |s.trace| < |t.trace| && s.trace <= t.trace
    ensures t.trace[|t.trace| - 1].Posted? && t.trace[|t.trace| - 1].uid == u
  {
    hide Leads, Ahead;
    t := s;
    if s.inbox[u].input.images > 0 {
      t := Step(origin, t, Count(u));
      t := Step(origin, t, Save);
    }
    t := Step(origin, t, Post(u));
  }

  /** The preflight accepts a pinned unbind; other inputs that come here needed none. */
  lemma PassPreflight(origin: State, s: State, u: nat) returns (t: State)
    requires Leads(origin, s) && Handled(s, u, Begun) && s.inbox[u].notice.None?
    requires NeedsPreflight(s.inbox[u], s.groups) ==> s.inbox[u].input.operation == Unbind && s.inbox[u].prepared.Some?
    ensures Leads(origin, t) && Handled(t, u, Begun) && t.trace == s.trace && t.groups == s.groups
    ensures t.inbox[u] == s.inbox[u].(preflightPending := false) && Settled(t.inbox[u])
  {
    t := UpdateAndSave(origin, s, u, s.inbox[u].(preflightPending := false));
  }

  /** The body of a first request is saved, unless images must be staged first. */
  lemma SaveFirstBody(origin: State, s: State, u: nat) returns (t: State)
    requires Leads(origin, s) && Handled(s, u, Begun) && s.inbox[u].notice.None? && Settled(s.inbox[u])
    requires NeedsPreflight(s.inbox[u], s.groups) ==> s.inbox[u].input.operation == Unbind
    ensures Leads(origin, t) && Handled(t, u, Begun) && t.trace == s.trace && t.groups == s.groups
    ensures Sealed(t.inbox[u]) && Settled(t.inbox[u]) && t.inbox[u] == s.inbox[u].(prepared := t.inbox[u].prepared)
  {
    var r := s.inbox[u];
    if r.prepared.Some? {
      t := s;
    } else {
      var body := Body(r.input.operation, 0, r.input.message, r.input.content, None, None, None, 0);
      t := UpdateAndSave(origin, s, u, r.(prepared := Some(body)));
    }
  }

  /** Beyond the preflight: the refusal, the uploads, or the POST. */
  lemma GoOn(origin: State, s: State, u: nat, n: Notice) returns (t: State)
    requires Leads(origin, s) && Handled(s, u, Begun) && s.inbox[u].notice.None? && n.Speaks() && !n.silent
    requires Settled(s.inbox[u]) && !Stuck(s.inbox[u], n, s.groups) && !TakesImages(s.inbox[u])
    requires NeedsPreflight(s.inbox[u], s.groups) ==> s.inbox[u].input.operation == Unbind
    ensures Ends(origin, t, u, n, |s.trace|)
  {
    hide Leads;
    var refusal := Refusal(s.inbox[u].input);
    if refusal.Some? {
      assert n == Notice(n.text, false);
      t := FreezeAndNotify(origin, s, u, n, Notice(refusal, false));
    } else {
      t := SaveFirstBody(origin, s, u);
      if UploadsUsed(s.inbox[u]) {
        t := FreezeAndNotify(origin, t, u, n, Notice(Some(UPLOAD_FAILED), false));
      } else {
        t := CountAndPost(origin, t, u);
      }
    }
  }

  /** The service handles an input itself, without any binding, and answers with a text. */
  function Answering(text: Text): Decision {
    Decision(true, false, None, false, None, Some(text), false, false)
  }

  /** The service has nothing to do with an input. */
  const UNCLAIMED: Decision := Decision(false, false, None, false, None, None, false, false)

  lemma OtherwiseFirst(origin: State, s: State, u: nat, n: Notice) returns (t: State)
    requires Leads(origin, s) && Handled(s, u, Begun) && s.inbox[u].notice.None? && n.Speaks()
    requires !Stuck(s.inbox[u], n, s.groups)
    ensures Ends(origin, t, u, n, |s.trace|)
  {
    hide Ends, Leads;
    var r := s.inbox[u];
    if NeedsPreflight(r, s.groups) && Unpinned(r) {
      // The service does not know a binding and answers the input itself.
      var heard := HearDecision(origin, s, u, Answering(n.text.value + 1));
      t := FreezeAndNotify(origin, heard, u, n, Notice(Some(n.text.value + 1), false));
      EndsSince(origin, t, u, n, |heard.trace|, |s.trace|);
    } else if (NeedsPreflight(r, s.groups) && r.input.operation != Unbind) || TakesImages(r) {
      // The binding needs attention, or does not take comments.
      t := TellElse(origin, s, u, n);
    } else {
      t := PassPreflight(origin, s, u);
      t := GoOn(origin, t, u, n);
    }
  }

  /** A record that the next process finds in the file as nothing had happened to it. */
  ghost predicate Untouched(s: State, u: nat) {
    && u in s.disk && Coherent(s.disk[u]) && s.disk[u].notice.None? && !Legacy(s.disk[u]) && !s.disk[u].chatHandoff
    && !s.disk[u].quarantined && s.disk[u].id !in s.decisions
  }

  /** A crash; then a pass that comes to the record, as the file has it. */
  lemma CrashAndReturn(s: State, u: nat) returns (t: State)
    requires Reachable(s) && Untouched(s, u)
    ensures Leads(s, t) && Handled(t, u, Begun) && s.trace <= t.trace && t.groups == s.groups
    ensures t.inbox[u] == s.disk[u]
  {
    hide Leads, Inv, Reachable, Legacy;
    ReachableInv(s);
    LeadsNowhere(s);
    t := Step(s, s, Crash);
    t := RemoveAhead(s, t, u);
    t := Step(s, t, Enter(u));
  }

  lemma LeadsNowhere(s: State)
    ensures Leads(s, s)
  {
    hide Can, Do;
    Runs.Stay(Can, Do, s);
  }

  /** A record about to send a notice that the file does not have could be taken up from the file. */
  lemma NotifiedCopies(s: State, u: nat)
    requires Reachable(s) && Can(s, Notify(u))
    ensures u in s.disk && (s.disk[u].notice.None? ==> Untouched(s, u))
  {
    ReachableInv(s);
    assert Succeeds(s.disk[u], s.inbox[u]) && Coherent(s.inbox[u]);
  }

  /** After a notice that was not final there is a crash, and a pass in which the record says something else. */
  lemma LostNoticeIsNotFinal(s: State, u: nat) returns (t: State)
    requires Reachable(s) && Can(s, Notify(u)) && !Final(s, u, s.inbox[u].notice.value)
    ensures Leads(Do(s, Notify(u)), t) && |s.trace| < |t.trace|
    ensures SaysElse(t.trace[|t.trace| - 1], u, s.inbox[u].notice.value)
  {
    hide Leads, Inv, Reachable, Handled, Stuck, Coherent, Legacy;
    NotifiedCopies(s, u);
    ReachableStep(s, Notify(u));
    t := CrashAndReturn(Do(s, Notify(u)), u);
    t := OtherwiseFirst(Do(s, Notify(u)), t, u, s.inbox[u].notice.value);
  }

  /**
   * A routing notice is the record's last word exactly when the inbox file held a
   * notice as it was sent, with or without its text, or a record that can only
   * come to the same text again.
   */
  lemma NoticeFinalIff(s: State, u: nat)
    requires Reachable(s) && Can(s, Notify(u))
    ensures Final(s, u, s.inbox[u].notice.value) <==>
            forall t :: Leads(Do(s, Notify(u)), t) ==> OnlyRepeats(t.trace, |s.trace|, u, s.inbox[u].notice.value)
  {
    var n := s.inbox[u].notice.value;
    if Final(s, u, n) {
      forall t | Leads(Do(s, Notify(u)), t) ensures OnlyRepeats(t.trace, |s.trace|, u, n) {
        FinalNoticeIsLast(s, u, t);
      }
    } else {
      var t := LostNoticeIsNotFinal(s, u);
      var k := |t.trace| - 1;
      assert Concerns(t.trace[k], u) && !Repeats(t.trace[k], n);
    }
  }

  // ---- A notice without its text ----------------------------------------------------------

  predicate MuteNotice(r: Record) { r.notice.Some? && !r.notice.value.Speaks() }

  /** Both copies of the record have a notice with nothing to send, whose handling is over; nothing was heard since. */
  ghost predicate Mute(s: State, u: nat, from: nat) {
    && Inv(s) && u < s.next && s.pass != In(u, Frozen)
    && (u in s.inbox ==> MuteNotice(s.inbox[u])) && (u in s.disk ==> MuteNotice(s.disk[u]))
    && from <= |s.trace| && forall k :: from <= k < |s.trace| ==> !Concerns(s.trace[k], u)
  }

  lemma InvRecords(s: State)
    requires Inv(s)
    ensures Records(s.inbox, s)
  {
  }

  lemma MuteKeeps(s: State, u: nat, from: nat, a: Action)
    requires Mute(s, u, from) && Can(s, a)
    ensures Mute(Do(s, a), u, from)
  {
    hide Can, Do, MuteNotice, Inv;
    ActionKeeps(s, a);
    var t := Do(s, a);
    InvRecords(s);
    MuteStep(s, u, a);
    MuteEvent(s, u, a);
    StepExtends(s, a);
    forall k | from <= k < |t.trace| ensures !Concerns(t.trace[k], u) {
      assert k < |s.trace| ==> t.trace[k] == s.trace[k];
    }
  }

  lemma MuteStep(s: State, u: nat, a: Action)
    requires u < s.next && s.pass != In(u, Frozen) && Can(s, a)
    requires (u in s.inbox ==> MuteNotice(s.inbox[u])) && (u in s.disk ==> MuteNotice(s.disk[u]))
    ensures var t := Do(s, a);
            && u < t.next && t.pass != In(u, Frozen)
            && (u in t.inbox ==> MuteNotice(t.inbox[u])) && (u in t.disk ==> MuteNotice(t.disk[u]))
  {
    hide MayFreeze, MayTell, MayHandOff, MayPost, NeedsPreflight, Final, Ahead, Legacy, Coherent, Justified;
  }

  lemma MuteEvent(s: State, u: nat, a: Action)
    requires Records(s.inbox, s) && Can(s, a) && (u in s.inbox ==> MuteNotice(s.inbox[u]))
    ensures var t := Do(s, a);
            && |s.trace| <= |t.trace| <= |s.trace| + 1
            && (|t.trace| > |s.trace| ==> !Concerns(t.trace[|s.trace|], u))
  {
    hide MayFreeze, MayTell, MayHandOff, MayPost, NeedsPreflight, Final, Ahead, Legacy, Justified, Evolves, Selects;
    hide Sends, Refusal, PinnedElsewhere;
    assert u in s.inbox ==> Coherent(s.inbox[u]);
  }

  /** A saved notice with nothing to send gets no text once its handling is over: the record is silent for good. */
  lemma TextlessIsSilent(s: State, u: nat, t: State)
    requires Reachable(s) && u in s.inbox && MuteNotice(s.inbox[u]) && s.pass != In(u, Frozen)
    requires u in s.disk && s.disk[u].notice.Some? && Leads(s, t)
    ensures forall k :: |s.trace| <= k < |t.trace| ==> !Concerns(t.trace[k], u)
  {
    ReachableInv(s);
    assert Succeeds(s.disk[u], s.inbox[u]);
    var mute := (x: State) => Mute(x, u, |s.trace|);
    forall x, a | mute(x) && Can(x, a) ensures mute(Do(x, a)) { MuteKeeps(x, u, |s.trace|, a); }
    Runs.Kept(Can, Do, mute, s, t);
  }

  // ---- When does a handing over to Chat last? --------------------------------------------

  ghost predicate NeverPosts(tr: seq<Event>, from: nat, u: nat) {
    forall k :: from <= k < |tr| ==> !(tr[k].Posted? && tr[k].uid == u)
  }

  lemma SavedHandOverIsFinal(s: State, u: nat, t: State)
    requires Reachable(s) && Can(s, HandOver(u)) && HandedOffInFile(s, u) && Leads(Do(s, HandOver(u)), t)
    ensures NeverPosts(t.trace, |s.trace|, u)
  {
    var after, i := Do(s, HandOver(u)), |s.trace|;
    ReachableStep(s, HandOver(u));
    ReachableRun(after, t);
    ReachableInv(t);
    RunExtends(after, t);
    assert after.trace[i] == HandedOver(u, true) && t.trace[i] == after.trace[i];
    forall k | i <= k < |t.trace| ensures !(t.trace[k].Posted? && t.trace[k].uid == u) {
      if k > i { assert MayFollow(t.trace[i], t.trace[k]); }
    }
  }

  /** A message whose handing over is not in the file has no destination there, and is not refused. */
  lemma HandedOverCopies(s: State, u: nat)
    requires Reachable(s) && Can(s, HandOver(u)) && !HandedOffInFile(s, u) && s.inbox[u].input.operation == Message
    ensures Untouched(s, u) && s.disk[u].prepared.None? && s.disk[u].input.operation == Message
    ensures Refusal(s.disk[u].input).None?
  {
    ReachableInv(s);
    assert Succeeds(s.disk[u], s.inbox[u]) && Coherent(s.inbox[u]) && Coherent(s.disk[u]);
  }

  /** The service selects a task for the message this time, and its images arrive. */
  lemma PinAndPost(origin: State, s: State, u: nat) returns (t: State)
    requires Leads(origin, s) && Handled(s, u, Begun) && s.inbox[u].notice.None? && s.inbox[u].prepared.None?
    requires s.inbox[u].input.operation == Message && Refusal(s.inbox[u].input).None?
    ensures Leads(origin, t) && |s.trace| < |t.trace|
    ensures t.trace[|t.trace| - 1].Posted? && t.trace[|t.trace| - 1].uid == u
  {
    hide Leads;
    var input := s.inbox[u].input;
    var body := Body(Message, 0, input.message, input.content, Some(Pin(0, 0)), None, None, 0);
    t := PinRecord(origin, s, u, body);
    t := UpdateAndSave(origin, t, u, t.inbox[u].(preflightPending := false));
    if input.images > 0 {
      t := UpdateAndSave(origin, t, u, t.inbox[u].(prepared := Some(body.(attachments := Some([]))),
                                                  mediaPrepared := Some(true)));
    }
    t := CountAndPost(origin, t, u);
  }

  lemma PinRecord(origin: State, s: State, u: nat, body: Body) returns (t: State)
    requires Leads(origin, s) && Handled(s, u, Begun) && s.inbox[u].notice.None? && s.inbox[u].prepared.None?
    requires s.inbox[u].input.operation == body.operation == Message && body.expected.Some?
    ensures Leads(origin, t) && Handled(t, u, Begun) && s.trace <= t.trace && t.groups == s.groups
    ensures Coherent(t.inbox[u])
    ensures t.inbox[u] == s.inbox[u].(prepared := Some(body), preflightPending := true, uploadAttempts := 0,
                                      mediaPrepared := Some(s.inbox[u].input.images == 0))
  {
    var d := Decision(false, false, None, false, Some(BindingView(body.expected, None, false, false, NotPrivate, 0)),
                      None, false, false);
    t := HearDecision(origin, s, u, d);
    t := UpdateAndSave(origin, t, u, s.inbox[u].(prepared := Some(body), preflightPending := true,
                                                 mediaPrepared := Some(s.inbox[u].input.images == 0)));
  }

  /** After a handing over that the file does not have, there is a crash, and a pass that posts to a task. */
  lemma LostHandOverIsNotFinal(s: State, u: nat) returns (t: State)
    requires Reachable(s) && Can(s, HandOver(u)) && !HandedOffInFile(s, u) && s.inbox[u].input.operation == Message
    ensures Leads(Do(s, HandOver(u)), t) && !NeverPosts(t.trace, |s.trace|, u)
  {
    hide Leads, Inv, Reachable, Coherent;
    HandedOverCopies(s, u);
    var after := Do(s, HandOver(u));
    ReachableStep(s, HandOver(u));
    t := CrashAndReturn(after, u);
    t := PinAndPost(after, t, u);
    var k := |t.trace| - 1;
    assert t.trace[k].Posted? && t.trace[k].uid == u;
  }

  /** A message handed over to Chat stays away from tasks exactly when the inbox file says so as Chat gets it. */
  lemma HandOverFinalIff(s: State, u: nat)
    requires Reachable(s) && Can(s, HandOver(u)) && s.inbox[u].input.operation == Message
    ensures HandedOffInFile(s, u) <==> forall t :: Leads(Do(s, HandOver(u)), t) ==> NeverPosts(t.trace, |s.trace|, u)
  {
    if HandedOffInFile(s, u) {
      forall t | Leads(Do(s, HandOver(u)), t) ensures NeverPosts(t.trace, |s.trace|, u) {
        SavedHandOverIsFinal(s, u, t);
      }
    } else {
      var t := LostHandOverIsNotFinal(s, u);
    }
  }

  // ---- The failing states exist --------------------------------------------------------------

  /** A relay that has just started with an empty inbox. */
  const EMPTY: State := State(map[], map[], {}, {}, {}, 0, None, Idle, [], false, [])

  /** A plain message, in a group or not. */
  function Plain(group: bool): Input {
    Input(Message, false, group, 0, 0, 0, 0, false, None, false, false, false)
  }

  /** The message was admitted, and its handling began. */
  lemma AdmitAndEnter(group: bool) returns (s: State)
    ensures Reachable(s) && s.pass == In(0, Begun) && s.inbox == s.disk == map[0 := Fresh(0, Plain(group))]
    ensures s == EMPTY.(inbox := s.inbox, disk := s.disk, next := 1, pass := s.pass, trace := [Admitted(0, 0)])
  {
    hide Leads;
    assert Initial(EMPTY);
    LeadsNowhere(EMPTY);
    s := Step(EMPTY, EMPTY, Admit(0, Plain(group)));
    s := Step(EMPTY, s, Enter(0));
  }

  lemma Onward(s: State, a: Action) returns (t: State)
    requires Reachable(s) && Can(s, a)
    ensures Reachable(t) && t == Do(s, a)
  {
    ReachableStep(s, a);
    t := Do(s, a);
  }

  /** The save that freezes a notice fails, and so does the next one: the notice is sent, and is not final. */
  lemma UnsavedNoticeHappens() returns (s: State)
    ensures Reachable(s) && Can(s, Notify(0)) && !Final(s, 0, s.inbox[0].notice.value)
  {
    hide Reachable;
    s := AdmitAndEnter(false);
    s := Onward(s, Hear(0, Routed(Answering(NOT_BOUND))));
    s := Onward(s, Freeze(0, Notice(Some(NOT_BOUND), false)));
  }

  /** The same, for the save that hands a message over. */
  lemma UnsavedHandOverHappens() returns (s: State)
    ensures Reachable(s) && Can(s, HandOver(0)) && s.inbox[0].input.operation == Message && !HandedOffInFile(s, 0)
  {
    hide Reachable;
    s := AdmitAndEnter(false);
    s := Onward(s, Hear(0, Routed(UNCLAIMED)));
    s := Onward(s, HandOff(0));
  }

  /** A message of a group sender who is not allowed is handed over and saved. */
  lemma SavedHandOver() returns (s: State)
    ensures Reachable(s) && s.trace == [Admitted(0, 0), Heard(0, Routed(UNCLAIMED))] && Can(s, HandOver(0)) &&
              HandedOffInFile(s, 0)
    ensures s.inbox[0].input == Plain(true)
  {
    hide Reachable;
    s := AdmitAndEnter(true);
    s := Onward(s, Hear(0, Routed(UNCLAIMED)));
    s := Onward(s, HandOff(0));
    s := Onward(s, Save);
  }

  /** Such a message is let go without a word. */
  lemma SilentDropHappens() returns (s: State)
    ensures Reachable(s)
    ensures s.trace == [Admitted(0, 0), Heard(0, Routed(UNCLAIMED)), HandedOver(0, true), Dropped(0, Barred(false, {}))]
  {
    hide Reachable;
    s := SavedHandOver();
    s := Onward(s, HandOver(0));
    s := Onward(s, Drop(0, Barred(false, {})));
  }
}
