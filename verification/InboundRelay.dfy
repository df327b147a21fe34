/**
 * The relay's handling of one conversation, in the form of the source.
 *
 * Each effect is one action of the protocol, so its precondition is what the
 * code must have established by then.  A method may return `Crashed` from any
 * effect; `Restart` then reloads the inbox file.  Answers of the server, of the
 * media stage and of Chat are arbitrary.
 */
module InboundRelay {
  import opened Effects
  import opened InboundTypes
  import opened InboundProtocol
  import opened InboundGuarantees
  import opened InboundStories
  import Runs

  /** What handling record `u` may change: the record itself, later arrivals, the files, and the trace. */
  ghost predicate Handling(s: State, t: State, u: nat) {
    && s.next <= t.next && s.trace <= t.trace
    && t.decisions == s.decisions && t.quarantine == s.quarantine && t.confirmed == s.confirmed
    && t.armed == s.armed
    && (forall v {:trigger v in t.inbox} {:trigger t.inbox[v]} ::
          v in s.inbox && v != u ==> v in t.inbox && t.inbox[v] == s.inbox[v])
    && (forall v {:trigger v in t.inbox} {:trigger t.inbox[v]} :: v in t.inbox ==> v in s.inbox || v >= s.next)
    && (u in s.inbox ==> u in t.inbox && SameInput(s.inbox[u], t.inbox[u]))
  }

  predicate SameInput(a: Record, b: Record) {
    && b.id == a.id && b.input == a.input && b.quarantined == a.quarantined
    && b.chatSubmitting == a.chatSubmitting && b.chatSubmitted == a.chatSubmitted
  }

  /** Nothing at all happened to records that were there before. */
  ghost predicate Elsewhere(s: State, t: State) {
    && s.next <= t.next && s.trace <= t.trace
    && t.decisions == s.decisions && t.quarantine == s.quarantine && t.confirmed == s.confirmed
    && t.armed == s.armed && t.pass == s.pass && t.story == s.story
    && (forall v {:trigger v in t.inbox} {:trigger t.inbox[v]} ::
          v in s.inbox ==> v in t.inbox && t.inbox[v] == s.inbox[v])
    && (forall v {:trigger v in t.inbox} {:trigger t.inbox[v]} :: v in t.inbox ==> v in s.inbox || v >= s.next)
    && (forall v {:trigger v in t.disk} ::
          v in s.inbox && v in s.disk && s.disk[v] == s.inbox[v] ==> v in t.disk && t.disk[v] == t.inbox[v])
  }

  predicate PinnedIn(r: Record, blocked: set<nat>) {
    r.prepared.Some? && r.prepared.value.expected.Some? && r.prepared.value.expected.value.binding in blocked
  }

  /** Every earlier input still in the inbox is pinned to a blocked binding. */
  ghost predicate AheadBlocked(s: State, u: nat, blocked: set<nat>) {
    u < s.next && forall v :: v in s.inbox && v < u ==> PinnedIn(s.inbox[v], blocked)
  }

  predicate About(e: Event, u: nat) {
    (e.Posted? || e.RoutingNoticed? || e.Told? || e.Answered?) && e.uid == u
  }

  /** The input was answered: posted, given a notice, or decided by the service or by Chat. */
  ghost predicate Spoke(s: State, t: State, u: nat) {
    exists k :: |s.trace| <= k < |t.trace| && About(t.trace[k], u)
  }

  /** The input was handed to Chat's own handling, which had a reason to let it go without a word. */
  ghost predicate LetGo(s: State, t: State, u: nat)
    requires u in s.inbox
  {
    exists k :: |s.trace| <= k < |t.trace| &&
                t.trace[k].Dropped? && t.trace[k].uid == u && Justified(s.inbox[u].input, t.trace[k].why)
  }

  /** How an input may leave the inbox. */
  ghost predicate Accounted(s: State, t: State, u: nat)
    requires u in s.inbox
  {
    || Spoke(s, t, u) || u in t.confirmed || LetGo(s, t, u)
    || s.inbox[u].id in t.decisions || s.inbox[u].id in t.quarantine
  }

  lemma ElsewhereHere(s: State)
    ensures Elsewhere(s, s)
  {
  }

  lemma ElsewhereTrans(s: State, t: State, v: State)
    requires Elsewhere(s, t) && Elsewhere(t, v)
    ensures Elsewhere(s, v)
  {
  }

  lemma SpokeSince(s: State, t: State, v: State, u: nat)
    requires Spoke(t, v, u) && s.trace <= t.trace
    ensures Spoke(s, v, u)
  {
  }

  lemma ElsewhereThenHandling(s: State, t: State, v: State, u: nat)
    requires u in s.inbox && Elsewhere(s, t) && Handling(t, v, u)
    ensures Handling(s, v, u)
  {
  }

  lemma HandlingHere(s: State, u: nat)
    ensures Handling(s, s, u)
  {
  }

  lemma ElsewhereIsHandling(s: State, t: State, u: nat)
    requires u in s.inbox && Elsewhere(s, t)
    ensures Handling(s, t, u) && u in t.inbox && t.inbox[u] == s.inbox[u]
  {
  }

  lemma HandlingTrans(s: State, t: State, v: State, u: nat)
    requires u in s.inbox && Handling(s, t, u) && Handling(t, v, u)
    ensures Handling(s, v, u)
  {
  }

  lemma AheadStays(s: State, t: State, u: nat, blocked: set<nat>)
    requires AheadBlocked(s, u, blocked) && Handling(s, t, u)
    ensures AheadBlocked(t, u, blocked)
  {
  }

  lemma AccountedLater(s: State, t: State, v: State, u: nat)
    requires u in s.inbox && Accounted(s, t, u)
    requires t.trace <= v.trace && t.decisions <= v.decisions && t.quarantine <= v.quarantine
    requires t.confirmed <= v.confirmed
    ensures Accounted(s, v, u)
  {
    if LetGo(s, t, u) {
      var k :| |s.trace| <= k < |t.trace| &&
               t.trace[k].Dropped? && t.trace[k].uid == u && Justified(s.inbox[u].input, t.trace[k].why);
      assert v.trace[k] == t.trace[k];
    }
  }

  lemma AccountedSince(s: State, t: State, v: State, u: nat)
    requires u in s.inbox && u in t.inbox && SameInput(s.inbox[u], t.inbox[u])
    requires Accounted(t, v, u) && s.trace <= t.trace
    ensures Accounted(s, v, u)
  {
  }

  lemma HandlingLog(s: State, t: State, u: nat)
    requires u in s.inbox && Handling(s, t, u)
    ensures u in t.inbox && SameInput(s.inbox[u], t.inbox[u]) && s.trace <= t.trace
  {
  }

  /** A change that leaves the body alone is an update if the record may evolve so. */
  lemma UpdateAllowed(s: State, u: nat, to: Record)
    requires u in s.inbox && Evolves(s.inbox[u], to, s.groups) && to.prepared == s.inbox[u].prepared
    ensures Can(s, Update(u, to))
  {
  }

  lemma NoteEvolves(r: Record, groups: bool)
    requires Coherent(r)
    ensures Evolves(r, r.(mediaCommitted := true), groups)
    ensures Evolves(r, r.(stageAttempts := r.stageAttempts + 1), groups)
  {
  }

  lemma SettleEvolves(r: Record, d: Decision, groups: bool)
    requires Coherent(r)
    ensures Evolves(r, Passed(r, d), groups)
  {
  }

  /** The Chat submission was begun, and its outcome is not known. */
  predicate Uncertain(r: Record) { r.chatSubmitting && !r.chatSubmitted }

  /** Every record before `u` waits for a blocked binding, and nothing was submitted for it. */
  ghost predicate AllWait(s: State, u: nat, blocked: set<nat>) {
    forall v :: v in s.inbox && v < u ==> PinnedIn(s.inbox[v], blocked) && !s.inbox[v].chatSubmitting
  }

  lemma WaitersAreAhead(s: State, u: nat, blocked: set<nat>)
    requires AllWait(s, u, blocked) && u < s.next
    ensures AheadBlocked(s, u, blocked)
  {
  }

  /** What one turn of the drain may change. */
  ghost predicate Turn(s: State, t: State, u: nat) {
    && s.next <= t.next && s.trace <= t.trace && s.quarantine <= t.quarantine && s.decisions <= t.decisions
    && s.confirmed <= t.confirmed
    && (forall v {:trigger v in t.inbox} {:trigger t.inbox[v]} ::
          v in s.inbox && v != u ==> v in t.inbox && t.inbox[v] == s.inbox[v])
    && (forall v {:trigger v in t.inbox} {:trigger t.inbox[v]} :: v in t.inbox ==> v in s.inbox || v >= s.next)
  }

  // ---- A drain that began in the state `s` and is now in `t` ---------------------------------------

  /** Every record that has left the inbox since was answered, confirmed in Chat, let go or marked. */
  ghost predicate AllAccounted(s: State, t: State) {
    forall v :: v in s.inbox && v !in t.inbox ==> Accounted(s, t, v)
  }

  /** An input whose Chat submission was uncertain only leaves the inbox for the quarantine. */
  ghost predicate UncertainQuarantined(s: State, t: State) {
    forall v :: v in s.inbox && v !in t.inbox && Uncertain(s.inbox[v]) ==> s.inbox[v].id in t.quarantine
  }

  /** No uncertain input before `u` was left in the inbox. */
  ghost predicate UncertainGone(s: State, t: State, u: nat) {
    forall v :: v in s.inbox && v < u && Uncertain(s.inbox[v]) ==> v !in t.inbox
  }

  /** From `u` on, what is in the inbox is as it was; only later arrivals came to it. */
  ghost predicate Untouched(s: State, t: State, u: nat, end: nat) {
    && (forall v {:trigger t.inbox[v]} :: v in s.inbox && v in t.inbox && v >= u ==> t.inbox[v] == s.inbox[v])
    && (forall v {:trigger v in t.inbox} :: v in t.inbox ==> v in s.inbox || v >= end)
  }

  lemma DrainStarts(s: State)
    ensures AllAccounted(s, s) && UncertainQuarantined(s, s) && UncertainGone(s, s, 0) && Untouched(s, s, 0, s.next)
    ensures AllWait(s, 0, {})
  {
  }

  lemma WasThere(s: State, m: State, u: nat, end: nat)
    requires Untouched(s, m, u, end) && u in m.inbox && u < end
    ensures u in s.inbox && m.inbox[u] == s.inbox[u]
  {
  }

  lemma DrainGoesOn(s: State, m: State, t: State, u: nat, end: nat)
    requires u in s.inbox && u in m.inbox && m.inbox[u] == s.inbox[u] && s.trace <= m.trace && u < end <= m.next
    requires Turn(m, t, u) && (u !in t.inbox ==> Accounted(m, t, u)) && forall v :: v in s.inbox ==> v < end
    requires u !in t.inbox && Uncertain(m.inbox[u]) ==> m.inbox[u].id in t.quarantine
    requires AllAccounted(s, m) && UncertainQuarantined(s, m) && Untouched(s, m, u, end)
    ensures AllAccounted(s, t) && UncertainQuarantined(s, t) && Untouched(s, t, u + 1, end)
    ensures s.trace <= t.trace && m.next <= t.next
  {
    hide Accounted;
    forall v | v in s.inbox && v !in t.inbox ensures Accounted(s, t, v) {
      if v == u { AccountedSince(s, m, t, u); } else { AccountedLater(s, m, t, v); }
    }
  }

  lemma DrainWaits(s: State, m: State, t: State, u: nat, blocked: set<nat>, more: set<nat>)
    requires u in s.inbox && u in m.inbox && m.inbox[u] == s.inbox[u] && u < m.next && Turn(m, t, u)
    requires AllWait(m, u, blocked) && UncertainGone(s, m, u)
    requires u in t.inbox ==>
               PinnedIn(t.inbox[u], blocked + more) && !t.inbox[u].chatSubmitting && !Uncertain(s.inbox[u])
    ensures AllWait(t, u + 1, blocked + more) && UncertainGone(s, t, u + 1)
  {
  }

  lemma DrainSkips(s: State, t: State, u: nat, end: nat, blocked: set<nat>)
    ensures u !in t.inbox && AllWait(t, u, blocked) ==> AllWait(t, u + 1, blocked)
    ensures u !in t.inbox && UncertainGone(s, t, u) ==> UncertainGone(s, t, u + 1)
    ensures Untouched(s, t, u, end) ==> Untouched(s, t, u + 1, end)
  {
  }

  lemma StopsOpen(s: State, m: State, t: State, u: nat, blocked: set<nat>, e: Ending, r: Outcome<bool>, last: Record,
                  why: Option<Silence>, allowed: bool)
    requires u in s.inbox && r.Thrown?
    requires if Over(s, u) then Tidied(s, m, u, r, last) else Processed(s, m, u, blocked, e, r, last, why, allowed)
    requires Recovered(m, t, u, last, r.status, Ok(Stop))
    ensures u in t.inbox && Unpinned(t.inbox[u])
  {
    hide Handles, CompletedAs;
  }

  /** What becomes of a message that arrives: only a known or an accepted one is worked on. */
  datatype Arrival = Ignored | Waiting | Full | Accepted | Unsaved

  // ---- A record's turn in the drain, between the states `s` and `t` ------------------------------

  /** The inbox and the marker files, where record `u` had identifier `id`. */
  ghost predicate PlacedAt(s: State, t: State, u: nat, id: nat, place: Place) {
    match place
    case Stays(last) =>
      u in t.inbox && t.inbox[u] == last && t.quarantine == s.quarantine && t.decisions == s.decisions
    case Gone(buried, quarantined) =>
      && u !in t.inbox && u !in t.disk
      && t.decisions == s.decisions + (if buried then {id} else {})
      && t.quarantine == s.quarantine + (if quarantined then {id} else {})
  }

  /** A record that needs no handling any more, or whose Chat submission is uncertain. */
  predicate Over(s: State, u: nat)
    requires u in s.inbox
  {
    var r := s.inbox[u];
    r.id in s.decisions || r.chatSubmitted || r.quarantined || r.chatSubmitting
  }

  /** Such a record is not handled: a settled one has left, an uncertain one is an error. */
  ghost predicate Tidied(s: State, t: State, u: nat, r: Outcome<bool>, last: Record)
    requires u in s.inbox
  {
    var rec := s.inbox[u];
    && t.story == s.story
    && if rec.id in s.decisions || rec.chatSubmitted then
         r == Ok(false) && PlacedAt(s, t, u, rec.id, Gone(false, false))
       else if rec.quarantined then r == Ok(false) && PlacedAt(s, t, u, rec.id, Gone(false, true))
       else r == Thrown(409) && last == rec && PlacedAt(s, t, u, rec.id, Stays(rec))
  }

  /** Any other record is handled; what follows depends on how that ended, and an error is left to the drain. */
  ghost predicate Processed(s: State, t: State, u: nat, blocked: set<nat>, e: Ending, r: Outcome<bool>, last: Record,
                            why: Option<Silence>, allowed: bool)
    requires u in s.inbox
  {
    && e.uid == u && Handles(e, s.inbox[u], s.groups, blocked)
    && if e.end.Thrown? then
         && r == Thrown(e.end.status) && t.story == e.story && last == e.last && SameInput(s.inbox[u], last)
         && PlacedAt(s, t, u, s.inbox[u].id, Stays(last))
       else
         exists place: Place ::
           && CompletedAs(e, t.story, last, why, allowed, place, Continue({}))
           && PlacedAt(s, t, u, s.inbox[u].id, place) && r == Ok(place.Stays?)
  }

  /** The error of a record's turn: a confirmed one leaves, a hopeless or uncertain one is put under quarantine. */
  ghost predicate Recovered(s: State, t: State, u: nat, last: Record, status: nat, r: Outcome<Next>) {
    && t.story == s.story && t.decisions == s.decisions
    && if last.chatSubmitted then
         t.quarantine == s.quarantine && (r.Ok? ==> r.value == Continue({}) && u !in t.inbox && u !in t.disk)
       else if last.quarantined || last.chatSubmitting || Fatal(status) then
         && (u in t.inbox ==> t.inbox[u] == last.(quarantined := true))
         && (r.Ok? ==> r.value == Continue({}) && u !in t.inbox && u !in t.disk
                       && t.quarantine == s.quarantine + {last.id})
       else
         && t.inbox == s.inbox && t.quarantine == s.quarantine
         && (r.Ok? ==> t.disk == t.inbox && r.value == After(last))
  }

  /** A whole turn: a record that is over just leaves, or goes to the quarantine; any other one is handled. */
  ghost predicate TurnTold(s: State, t: State, u: nat, blocked: set<nat>, allowed: bool, next: Next)
    requires u in s.inbox
  {
    var r := s.inbox[u];
    if Over(s, u) then
      && t.story == s.story && next == Continue({})
      && PlacedAt(s, t, u, r.id, Gone(false, !(r.id in s.decisions || r.chatSubmitted)))
    else
      exists e: Ending, last: Record, why: Option<Silence>, place: Place ::
        && e.uid == u && Handles(e, r, s.groups, blocked) && CompletedAs(e, t.story, last, why, allowed, place, next)
        && PlacedAt(s, t, u, r.id, place)
  }

  lemma TurnWithoutError(s: State, t: State, u: nat, blocked: set<nat>, e: Ending, r: Outcome<bool>, last: Record,
                         why: Option<Silence>, allowed: bool)
    requires u in s.inbox && r.Ok?
    requires if Over(s, u) then Tidied(s, t, u, r, last) else Processed(s, t, u, blocked, e, r, last, why, allowed)
    ensures TurnTold(s, t, u, blocked, allowed, Continue({}))
  {
    hide Handles, CompletedAs;
  }

  lemma TurnWithError(s: State, m: State, t: State, u: nat, blocked: set<nat>, e: Ending, r: Outcome<bool>,
                      last: Record, why: Option<Silence>, allowed: bool, next: Next)
    requires u in s.inbox && r.Thrown?
    requires if Over(s, u) then Tidied(s, m, u, r, last) else Processed(s, m, u, blocked, e, r, last, why, allowed)
    requires Recovered(m, t, u, last, r.status, Ok(next))
    ensures TurnTold(s, t, u, blocked, allowed, next)
  {
    hide Handles;
    if !Over(s, u) {
      var place := if Fatal(r.status) then Gone(false, true) else Stays(last);
      assert CompletedAs(e, t.story, last, why, allowed, place, next) && PlacedAt(s, t, u, s.inbox[u].id, place);
    }
  }

  class Relay {
    var inbox: map<nat, Record>
    var disk: map<nat, Record>
    var quarantine: set<nat>
    var decisions: set<nat>
    var next: nat
    var stopped: bool
    // The message ids in the state file of Chat's own handling.
    var seen: set<nat>
    var uncertain: set<nat>
    const groups: bool
    const allowAllInGroups: bool
    const allowed: set<nat>
    ghost var confirmed: set<nat>
    ghost var armed: Option<nat>
    ghost var pass: Pass
    ghost var story: seq<Event>
    ghost var trace: seq<Event>
    // How many effects of the relay's own have failed.
    ghost var faults: nat

    ghost function S(): State
      reads this
    {
      State(inbox, disk, quarantine, decisions, confirmed, next, armed, pass, story, groups, trace)
    }

    ghost predicate Valid()
      reads this
    {
      Reachable(S())
    }

    // ---- Effects ---------------------------------------------------------------

    /** Writes the inbox to its file: the file is replaced as a whole, or not at all. */
    method WriteInbox() returns (r: Outcome<()>)
      requires Valid()
      modifies this`disk
      ensures Valid()
      ensures r.Ok? ==> disk == inbox
      ensures r.Thrown? ==> disk == old(disk) && r.status == 0
      ensures disk == inbox || disk == old(disk)
    {
      hide Reachable;
      r := *;
      if r.Thrown? { r := Thrown(0); }
      var renamed: bool := *;
      if r.Ok? || (r.Crashed? && renamed) {
        disk := inbox;
        ReachableStep(old(S()), Save);
      }
    }

    /** A save of the relay's own; its failures are counted. */
    method SaveInbox() returns (r: Outcome<()>)
      requires Valid()
      modifies this`disk, this`faults
      ensures Valid() && faults == old(faults) + (if r.IsFailure() then 1 else 0)
      ensures r.Ok? ==> disk == inbox
      ensures r.Thrown? ==> disk == old(disk) && r.status == 0
      ensures disk == inbox || disk == old(disk)
    {
      r := WriteInbox();
      if r.IsFailure() { faults := faults + 1; }
    }

    /** Accepts a new message only together with its save. */
    method Admit(id: nat, input: Input) returns (r: Outcome<()>)
      requires Valid() && Can(S(), InboundProtocol.Admit(id, input))
      modifies this`inbox, this`disk, this`next, this`trace
      ensures Valid()
      ensures r.Ok? ==> S() == Do(old(S()), InboundProtocol.Admit(id, input))
      ensures r.Thrown? ==> S() == old(S())
      ensures S() == old(S()) || S() == Do(old(S()), InboundProtocol.Admit(id, input))
    {
      hide Reachable;
      var before := inbox;
      inbox := inbox[next := Fresh(id, input)];
      r := *;
      var renamed: bool := *;
      if r.Ok? || (r.Crashed? && renamed) {
        disk := inbox;
        trace := trace + [Admitted(next, id)];
        next := next + 1;
        ReachableStep(old(S()), InboundProtocol.Admit(id, input));
      } else {
        inbox := before;
      }
    }

    /**
     * The admission check of `handle`: marked messages, and new ones while the inbox is full, are refused; a known
     * one waits in the inbox already.
     */
    method Arrive(id: nat, input: Input, full: bool) returns (r: Outcome<Arrival>)
      requires Valid()
      modifies this`inbox, this`disk, this`next, this`trace
      ensures Valid() && Elsewhere(old(S()), S()) && !r.Thrown?
      ensures id in quarantine || id in decisions ==> S() == old(S())
      ensures S() == old(S()) || S() == Do(old(S()), InboundProtocol.Admit(id, input))
      ensures r.Ok? ==>
                match r.value
                case Ignored => (id in quarantine || id in decisions) && S() == old(S())
                case Waiting => (exists u :: u in old(inbox) && old(inbox)[u].id == id) && S() == old(S())
                case Full => full && S() == old(S())
                case Accepted => S() == Do(old(S()), InboundProtocol.Admit(id, input))
                case Unsaved => S() == old(S())
      ensures r == Ok(Ignored) <== id in quarantine || id in decisions
      ensures r == Ok(Unsaved) || r == Ok(Accepted) ==> !full
    {
      hide Reachable;
      ReachableBounds(S());
      if id in quarantine || id in decisions { return Ok(Ignored); }
      if exists u <- inbox :: inbox[u].id == id { return Ok(Waiting); }
      if full { return Ok(Full); }
      var admitted := Admit(id, input);
      match admitted {
        case Ok(_) => return Ok(Accepted);
        case Thrown(_) => return Ok(Unsaved);
        case Crashed => return Crashed;
      }
    }

    /** An await: messages may arrive, other conversations may save the inbox, the relay may be stopped. */
    method Await()
      requires Valid()
      modifies this
      ensures Valid() && Elsewhere(old(S()), S()) && (old(stopped) ==> stopped) && faults == old(faults)
    {
      hide Reachable;
      var n: nat := *;
      while n > 0
        invariant Valid() && Elsewhere(old(S()), S()) && stopped == old(stopped) && faults == old(faults)
      {
        ghost var mid := S();
        Interfere();
        ElsewhereTrans(old(S()), mid, S());
        n := n - 1;
      }
      var stop: bool := *;
      stopped := stopped || stop;
      seen, uncertain := *, *;
    }

    /** One thing that can happen meanwhile. */
    method Interfere()
      requires Valid()
      modifies this`inbox, this`disk, this`next, this`trace
      ensures Valid() && Elsewhere(old(S()), S())
    {
      hide Reachable;
      var arrives: bool, id: nat, input: Input, full: bool := *, *, *, *;
      if arrives {
        var accepted := Arrive(id, input, full);
      } else {
        var saved := WriteInbox();
      }
    }

    /** A request without effect on tasks, or a file that is read. */
    method Ask<T(0)>() returns (r: Outcome<T>)
      requires Valid()
      modifies this
      ensures Valid() && Elsewhere(old(S()), S()) && (old(stopped) ==> stopped)
      ensures faults == old(faults) + (if r.IsFailure() then 1 else 0)
    {
      hide Reachable;
      Await();
      r := *;
      if r.IsFailure() { faults := faults + 1; }
    }

    method Hear(u: nat, what: Report)
      requires Valid() && pass.In? && pass.uid == u
      modifies this`trace, this`story
      ensures Valid() && S() == Do(old(S()), Action.Hear(u, what))
    {
      hide Reachable;
      trace, story := trace + [Heard(u, what)], story + [Heard(u, what)];
      ReachableStep(old(S()), Action.Hear(u, what));
    }

    /** Asks, and remembers the answer; an error is the end of the handling. */
    method Inquire<T(0)>(u: nat, report: T -> Report) returns (r: Outcome<T>)
      requires Valid() && pass.In? && pass.uid == u && u in inbox
      modifies this
      ensures Valid() && (old(stopped) ==> stopped)
      ensures Handling(old(S()), S(), u) && u in inbox && inbox[u] == old(inbox)[u] && old(trace) <= trace
      ensures pass == old(pass) && decisions == old(decisions)
      ensures faults == old(faults) + (if r.IsFailure() then 1 else 0)
      ensures story == if r.Ok? then old(story) + [Heard(u, report(r.value))] else old(story)
    {
      hide Reachable;
      r := Ask();
      if r.Ok? { Hear(u, report(r.value)); }
    }

    /** The same, where an error is one of the answers. */
    method Receive<T(0)>(u: nat, report: T -> Report) returns (r: Outcome<T>)
      requires Valid() && pass.In? && pass.uid == u && u in inbox
      modifies this
      ensures Valid() && (old(stopped) ==> stopped) && !r.Thrown?
      ensures Handling(old(S()), S(), u) && u in inbox && inbox[u] == old(inbox)[u] && old(trace) <= trace
      ensures pass == old(pass) && decisions == old(decisions)
      ensures faults == old(faults) + (if r.IsFailure() then 1 else 0)
      ensures story == if r.Ok? then old(story) + [Heard(u, report(r.value))] else old(story)
    {
      hide Reachable;
      Await();
      var died: bool := *;
      if died {
        faults := faults + 1;
        return Crashed;
      }
      var answer: T := *;
      Hear(u, report(answer));
      return Ok(answer);
    }

    /** The handling of a record begins, with every earlier one pinned. */
    method Enter(u: nat)
      requires Valid() && Can(S(), InboundProtocol.Enter(u))
      modifies this`pass, this`story
      ensures Valid() && pass == In(u, Begun) && story == []
    {
      hide Reachable;
      pass, story := In(u, Begun), [];
      ReachableStep(old(S()), InboundProtocol.Enter(u));
    }

    method Set(u: nat, to: Record)
      requires Valid() && Can(S(), Update(u, to))
      modifies this`inbox
      ensures Valid() && inbox == old(inbox)[u := to] && Turn(old(S()), S(), u)
      ensures to.quarantined == old(inbox)[u].quarantined ==> Handling(old(S()), S(), u)
    {
      hide Reachable;
      inbox := inbox[u := to];
      ReachableStep(old(S()), Update(u, to));
    }

    /** Changes a record in memory and saves the inbox, which may fail after the change. */
    method SetAndSave(u: nat, to: Record) returns (r: Outcome<()>)
      requires Valid() && Can(S(), Update(u, to)) && to.quarantined == inbox[u].quarantined
      modifies this`inbox, this`disk, this`faults
      ensures Valid() && Handling(old(S()), S(), u) && inbox == old(inbox)[u := to]
      ensures faults == old(faults) + (if r.IsFailure() then 1 else 0)
      ensures r.Ok? ==> disk == inbox
    {
      hide Reachable;
      Set(u, to);
      r := SaveInbox();
    }

    /** Freezes a notice: from now on it is repeated instead of handling the input again. */
    method FreezeNotice(u: nat, notice: Notice) returns (r: Outcome<()>)
      requires Valid() && Can(S(), Action.Freeze(u, notice))
      modifies this`inbox, this`disk, this`pass, this`faults
      ensures Valid() && Handling(old(S()), S(), u)
      ensures faults == old(faults) + (if r.IsFailure() then 1 else 0)
      ensures inbox == old(inbox)[u := old(inbox)[u].(notice := Some(notice))] && pass == In(u, Frozen)
    {
      hide Reachable;
      inbox := inbox[u := inbox[u].(notice := Some(notice))];
      pass := In(u, Frozen);
      ReachableStep(old(S()), Action.Freeze(u, notice));
      r := SaveInbox();
    }

    /** What may cut a handling short: an effect that failed since, or the relay's end. */
    ghost predicate Excused<T>(before: nat, r: Outcome<T>)
      reads this
    {
      r.IsFailure() && (before < faults || (stopped && r == Thrown(0)))
    }

    /** Sends the frozen notice of a record; a silent or empty one is only an answer. */
    method SendRoutingNotice(u: nat) returns (r: Outcome<()>)
      requires Valid() && pass.In? && pass.uid == u && Eligible(S(), u) && inbox[u].notice.Some?
      modifies this
      ensures Valid() && Handling(old(S()), S(), u) && inbox[u] == old(inbox)[u] && (old(stopped) ==> stopped)
      ensures r.Ok? ==> Spoke(old(S()), S(), u)
      ensures old(story) <= story
      ensures if r.IsFailure() then old(faults) <= faults && Excused(old(faults), r) else faults == old(faults)
      ensures r.Ok? ==> |story| == |old(story)| + 1 && NoticedOf(story[|old(story)|], u, inbox[u].notice.value)
      ensures old(stopped) && old(inbox)[u].notice.value.Speaks() ==> r == Thrown(0) && S() == old(S())
      ensures !old(inbox)[u].notice.value.Speaks() ==>
                r == Ok(()) && S() == Do(old(S()), Answer(u))
    {
      hide Reachable;
      if !inbox[u].notice.value.Speaks() {
        Decide(u);
        return Ok(());
      }
      if stopped { return Thrown(0); }
      ghost var e := RoutingNoticed(u, inbox[u].notice.value, Final(S(), u, inbox[u].notice.value));
      trace, story := trace + [e], story + [e];
      ReachableStep(old(S()), Notify(u));
      assert About(trace[|old(trace)|], u);
      r := Ask();
    }

    /** An input is decided without a notice of its own. */
    method Decide(u: nat)
      requires Valid()
      modifies this`trace, this`story
      ensures Valid() && S() == Do(old(S()), Answer(u)) && Spoke(old(S()), S(), u)
      ensures trace == old(trace) + [Answered(u)] && story == old(story) + [Answered(u)]
    {
      hide Reachable;
      trace, story := trace + [Answered(u)], story + [Answered(u)];
      ReachableStep(old(S()), Answer(u));
      assert About(trace[|old(trace)|], u);
    }

    /** Shows a decision of the service that is not frozen; a silent or empty one is not sent. */
    method SendNotice(u: nat, shown: Notice) returns (r: Outcome<()>)
      requires Valid() && u in inbox && (shown.Speaks() ==> Can(S(), Tell(u, shown.text.value)))
      modifies this
      ensures Valid() && Handling(old(S()), S(), u) && inbox[u] == old(inbox)[u] && (old(stopped) ==> stopped)
      ensures r.Ok? ==> Spoke(old(S()), S(), u)
      ensures old(story) <= story
      ensures if r.IsFailure() then old(faults) <= faults && Excused(old(faults), r) else faults == old(faults)
      ensures r.Ok? ==> |story| == |old(story)| + 1 && ToldOf(story[|old(story)|], u, shown)
      ensures old(stopped) && shown.Speaks() ==> r == Thrown(0) && S() == old(S())
    {
      hide Reachable;
      if !shown.Speaks() {
        Decide(u);
        return Ok(());
      }
      if stopped { return Thrown(0); }
      trace, story := trace + [Told(u, shown.text.value)], story + [Told(u, shown.text.value)];
      ReachableStep(old(S()), Tell(u, shown.text.value));
      assert About(trace[|old(trace)|], u);
      r := Ask();
    }

    // ---- How far a part of the handling has come ------------------------------------------

    /** The handling up to here, and how the part that ends here ended. */
    ghost function Here(u: nat, r: Outcome<Flow>): Ending
      requires u in inbox
      reads this
    {
      Ending(u, story, inbox[u], r)
    }

    /** This part of the handling went as `told`, and nothing failed in it; or it was cut short. */
    ghost predicate Follows(before: nat, past: seq<Event>, r: Outcome<Flow>, told: bool)
      reads this
    {
      before <= faults && past <= story && ((told && faults == before && !r.Crashed?) || Excused(before, r))
    }

    /** Freezes a notice, saves it, and only then sends it. */
    method FreezeAndSend(u: nat, notice: Notice) returns (r: Outcome<Flow>)
      requires Valid() && Eligible(S(), u) && Can(S(), Action.Freeze(u, notice))
      modifies this
      ensures Valid() && Handling(old(S()), S(), u) && (old(stopped) ==> stopped)
      ensures r.Ok? ==> r.value == Return(Done) && !inbox[u].chatHandoff && Spoke(old(S()), S(), u)
      ensures Follows(old(faults), old(story), r, Freezes(Here(u, r), |old(story)|, old(inbox)[u], notice))
    {
      hide Reachable, MayFreeze;
      var saved :- FreezeNotice(u, notice);
      var sent :- SendRoutingNotice(u);
      return Ok(Return(Done));
    }

    /** Returns after showing a decision that ends this input. */
    method ShowAndFinish(u: nat, shown: Notice) returns (r: Outcome<Flow>)
      requires Valid() && u in inbox && !inbox[u].chatHandoff
      requires shown.Speaks() ==> Can(S(), Tell(u, shown.text.value))
      modifies this
      ensures Valid() && Handling(old(S()), S(), u) && (old(stopped) ==> stopped)
      ensures r.Ok? ==> r.value == Return(Done) && !inbox[u].chatHandoff && Spoke(old(S()), S(), u)
      ensures Follows(old(faults), old(story), r, Shows(Here(u, r), |old(story)|, old(inbox)[u], shown))
    {
      hide Reachable;
      var sent :- SendNotice(u, shown);
      return Ok(Return(Done));
    }

    /** Hands the input to Chat for good. */
    method HandOff(u: nat) returns (r: Outcome<Flow>)
      requires Valid() && Can(S(), InboundProtocol.HandOff(u))
      modifies this`inbox, this`disk, this`faults
      ensures Valid() && Handling(old(S()), S(), u)
      ensures r.Ok? ==> r.value == Return(Chat) && inbox[u].chatHandoff
      ensures Follows(old(faults), old(story), r, HandsOff(Here(u, r), |old(story)|, old(inbox)[u]))
    {
      hide Reachable;
      inbox := inbox[u := inbox[u].(chatHandoff := true)];
      ReachableStep(old(S()), InboundProtocol.HandOff(u));
      var saved :- SaveInbox();
      return Ok(Return(Chat));
    }

    /** Pins a versioned input to the destination the service selected, durably. */
    method PinDestination(u: nat, body: Body, pin: Pin) returns (r: Outcome<()>)
      requires Valid() && Open(u) && NeedsPreflight(inbox[u], groups) && Selects(story, Some(pin))
      requires body.expected == Some(pin) && body.operation == inbox[u].input.operation
      requires inbox[u].prepared.Some? ==> inbox[u].prepared == Some(body)
      requires Sealed(inbox[u]) && inbox[u].input.operation == Message ==> inbox[u].input.images == 0
      modifies this`inbox, this`disk, this`faults
      ensures Valid() && Handling(old(S()), S(), u)
      ensures faults == old(faults) + (if r.IsFailure() then 1 else 0)
      ensures inbox[u] == Fixed(old(inbox)[u], body)
      ensures r.Ok? ==> inbox[u] == old(inbox)[u].(prepared := Some(body), preflightPending := true,
                                                 mediaPrepared := Some(old(inbox)[u].input.images == 0))
      ensures r.Ok? ==> disk == inbox
    {
      hide Reachable, Selects;
      ReachableRecord(S(), u);
      r := SetAndSave(u, inbox[u].(prepared := Some(body), preflightPending := true,
                                   mediaPrepared := Some(inbox[u].input.images == 0)));
    }

    // ---- handleSerial ------------------------------------------------------------

    /** Nothing was sent yet, and the record is neither Chat's nor answered: `handleSerial` may act on it. */
    ghost predicate Open(u: nat)
      reads this
    {
      pass == In(u, Begun) && Acting(S(), u) && Eligible(S(), u)
    }

    /** The request was sent in this handling; its answer is being handled. */
    ghost predicate Requested(u: nat)
      reads this
    {
      pass == In(u, Sent) && Acting(S(), u) && Eligible(S(), u)
    }

    /** The body a request is made from: the prepared one, if there is one; only a prepared one has a destination. */
    ghost predicate Carries(u: nat, body: Body)
      reads this
    {
      && u in inbox && body.operation == inbox[u].input.operation
      && (inbox[u].prepared.Some? ==> inbox[u].prepared == Some(body))
      && (body.expected.Some? ==> inbox[u].prepared.Some?)
    }

    /** A versioned body is pinned to a destination that no earlier input is waiting for. */
    ghost predicate Pinned(u: nat, body: Body, blocked: set<nat>)
      reads this
    {
      && u in inbox && inbox[u].prepared.Some? && !inbox[u].preflightPending
      && body.expected.Some? && body.expected.value.binding !in blocked
    }

    /** What a return from `handleSerial` means. */
    ghost predicate Concluded(s: State, u: nat, verdict: Verdict, blocked: set<nat>)
      reads this
    {
      && u in inbox
      && match verdict
         case Done => !inbox[u].chatHandoff && Spoke(s, S(), u)
         case Chat => inbox[u].chatHandoff
         case Deferred => PinnedIn(inbox[u], blocked) && !inbox[u].chatHandoff
    }

    lemma ConcludedSince(s: State, t: State, u: nat, r: Outcome<Flow>, blocked: set<nat>)
      requires s.trace <= t.trace
      requires r.Ok? ==> r.value.Return? && Concluded(t, u, r.value.verdict, blocked)
      ensures r.Ok? ==> Concluded(s, u, r.value.verdict, blocked)
    {
    }

    lemma AnsweredSince(s: State, t: State, u: nat, r: Outcome<Flow>, blocked: set<nat>)
      requires s.trace <= t.trace
      requires r.Ok? && r.value.Return? ==> Concluded(t, u, r.value.verdict, blocked)
      ensures r.Ok? && r.value.Return? ==> Concluded(s, u, r.value.verdict, blocked)
    {
    }

    /** Membership of the leader, for a grouped binding: the input ends here, or its binding is active. */
    method CheckGroup(u: nat, body: Body, blocked: set<nat>, preflight: Decision) returns (r: Outcome<Flow>)
      requires Valid() && Open(u) && Carries(u, body) && NeedsPreflight(inbox[u], groups)
      requires inbox[u].input.operation != Unbind
      requires Versioned(body.operation) ==>
                 inbox[u].prepared.Some? && body.expected.Some? && body.expected.value.binding !in blocked
      modifies this
      ensures Valid() && Handling(old(S()), S(), u)
      ensures r.Ok? && r.value.Return? ==> Concluded(old(S()), u, r.value.verdict, blocked)
      ensures r.Ok? && r.value.Proceed? ==>
                && r.value.body == body && Open(u) && Carries(u, body)
                && inbox[u].prepared == old(inbox)[u].prepared
                && (Versioned(body.operation) ==> Pinned(u, body, blocked))
      ensures Follows(old(faults), old(story), r,
                      CheckStory(Here(u, r), |old(story)|, old(inbox)[u], groups, body, preflight))
    {
      hide Reachable, NeedsPreflight, CheckedStory;
      var checked: Decision :- Inquire(u, (d: Decision) => Checked(d));
      ghost var mid := S();
      r := Judge(u, body, blocked, preflight, checked);
      HandlingTrans(old(S()), mid, S(), u);
    }

    /** The group's binding must be that of the body, and active. */
    method Judge(u: nat, body: Body, blocked: set<nat>, preflight: Decision, checked: Decision)
      returns (r: Outcome<Flow>)
      requires Valid() && Open(u) && Carries(u, body) && NeedsPreflight(inbox[u], groups)
      requires inbox[u].input.operation != Unbind
      requires Versioned(body.operation) ==>
                 inbox[u].prepared.Some? && body.expected.Some? && body.expected.value.binding !in blocked
      modifies this
      ensures Valid() && Handling(old(S()), S(), u)
      ensures r.Ok? && r.value.Return? ==> Concluded(old(S()), u, r.value.verdict, blocked)
      ensures r.Ok? && r.value.Proceed? ==>
                && r.value.body == body && Open(u) && Carries(u, body)
                && inbox[u].prepared == old(inbox)[u].prepared
                && (Versioned(body.operation) ==> Pinned(u, body, blocked))
      ensures Follows(old(faults), old(story), r,
                      CheckedStory(Here(u, r), |old(story)|, old(inbox)[u], groups, body, preflight, checked))
    {
      hide Reachable, NeedsPreflight, SettleStory, Shows;
      if Versioned(inbox[u].input.operation) &&
         (checked.binding.None? || checked.binding.value.pin.None? || body.expected.None? ||
          checked.binding.value.pin.value.generation != body.expected.value.generation) {
        return Thrown(409);
      }
      if checked.binding.None? || !checked.binding.value.groupActive {
        var shown := if !preflight.Commentable() && preflight.notice.Some? then preflight else checked;
        r := ShowAndFinish(u, shown.Shown());
      } else {
        r := Take(u, body, blocked, preflight);
      }
    }

    /** Asks the service where this input belongs; ends it in Chat or a routing notice, or admits it. */
    method Preflight(u: nat, body: Body, wasPrepared: bool, blocked: set<nat>) returns (r: Outcome<Flow>)
      requires Valid() && Open(u) && Carries(u, body) && (wasPrepared <==> inbox[u].prepared.Some?)
      requires NeedsPreflight(inbox[u], groups)
      requires wasPrepared && Versioned(body.operation) ==> body.expected.Some?
      requires Sealed(inbox[u]) && body.operation == Message ==> inbox[u].input.images == 0
      modifies this
      ensures Valid() && Handling(old(S()), S(), u)
      ensures r.Ok? && r.value.Return? ==> Concluded(old(S()), u, r.value.verdict, blocked)
      ensures r.Ok? && r.value.Proceed? ==>
                && Open(u) && Carries(u, r.value.body)
                && (if Versioned(body.operation) then Pinned(u, r.value.body, blocked)
                    else inbox[u].prepared == old(inbox)[u].prepared)
      ensures Follows(old(faults), old(story), r,
                      PreflightStory(Here(u, r), |old(story)|, old(inbox)[u], groups, blocked, body, wasPrepared))
    {
      hide Reachable, NeedsPreflight, DestinedStory, Handling, Spoke, Coherent;
      var preflight: Decision :- Inquire(u, (d: Decision) => Routed(d));
      ghost var mid := S();
      assert Heard(u, Routed(preflight)) in story by { assert story[|story| - 1] == Heard(u, Routed(preflight)); }
      r := Destined(u, body, wasPrepared, blocked, preflight);
      HandlingTrans(old(S()), mid, S(), u);
      AnsweredSince(old(S()), mid, u, r, blocked);
    }

    /** Where the preflight's answer sends the input. */
    method Destined(u: nat, body: Body, wasPrepared: bool, blocked: set<nat>, preflight: Decision)
      returns (r: Outcome<Flow>)
      requires Valid() && Open(u) && Carries(u, body) && (wasPrepared <==> inbox[u].prepared.Some?)
      requires NeedsPreflight(inbox[u], groups) && Heard(u, Routed(preflight)) in story
      requires wasPrepared && Versioned(body.operation) ==> body.expected.Some?
      requires Sealed(inbox[u]) && body.operation == Message ==> inbox[u].input.images == 0
      modifies this
      ensures Valid() && Handling(old(S()), S(), u)
      ensures r.Ok? && r.value.Return? ==> Concluded(old(S()), u, r.value.verdict, blocked)
      ensures r.Ok? && r.value.Proceed? ==>
                && Open(u) && Carries(u, r.value.body)
                && (if Versioned(body.operation) then Pinned(u, r.value.body, blocked)
                    else inbox[u].prepared == old(inbox)[u].prepared)
      ensures Follows(old(faults), old(story), r,
                      DestinedStory(Here(u, r), |old(story)|, old(inbox)[u], groups, blocked, body, wasPrepared,
                                    preflight))
    {
      hide Reachable, NeedsPreflight, AdmissionStory, ArrivesAt, DestinationOf, Spoke;
      HandlingHere(S(), u);
      var input := inbox[u].input;
      if body.expected.Some? && (preflight.binding.None? || preflight.binding.value.pin != body.expected) {
        return Thrown(409);
      }
      DestinationIs(input, preflight);
      if preflight.binding.None? && (preflight.handled || input.operation == Message || input.operation == Unbind) {
        r := Unclaimed(u, preflight);
      } else {
        r := Admission(u, body, wasPrepared, blocked, preflight);
      }
    }

    lemma DestinationIs(input: Input, d: Decision)
      ensures DestinationOf(input, d).ToTask? <==>
              d.binding.Some? || (!d.handled && input.operation != Message && input.operation != Unbind)
    {
    }

    /** No task claims the input: it is refused for its media, becomes Chat's, or is answered by the service. */
    method Unclaimed(u: nat, preflight: Decision) returns (r: Outcome<Flow>)
      requires Valid() && Open(u) && NeedsPreflight(inbox[u], groups) && Unpinned(inbox[u])
      requires Heard(u, Routed(preflight)) in story && preflight.binding.None?
      requires preflight.handled || inbox[u].input.operation == Message || inbox[u].input.operation == Unbind
      modifies this
      ensures Valid() && Handling(old(S()), S(), u)
      ensures r.Ok? ==> r.value == Return(if inbox[u].chatHandoff then Chat else Done)
      ensures r.Ok? && !inbox[u].chatHandoff ==> Spoke(old(S()), S(), u)
      ensures Follows(old(faults), old(story), r,
                      ArrivesAt(Here(u, r), |old(story)|, old(inbox)[u], DestinationOf(old(inbox)[u].input, preflight)))
    {
      hide Reachable, NeedsPreflight, Freezes, HandsOff;
      var input := inbox[u].input;
      assert Sends(story, input, DestinationOf(input, preflight));
      if !preflight.handled && input.operation == Message {
        if Refusal(input).Some? {
          r := FreezeAndSend(u, Notice(Refusal(input), false));
        } else {
          r := HandOff(u);
        }
      } else {
        var text := if preflight.notice.None? && input.operation == Unbind then Some(NOT_BOUND) else preflight.notice;
        r := FreezeAndSend(u, Notice(text, preflight.silent));
      }
    }

    /** Pins a versioned input and checks that its binding accepts it now. */
    method Admission(u: nat, given: Body, wasPrepared: bool, blocked: set<nat>, preflight: Decision)
      returns (r: Outcome<Flow>)
      requires Valid() && Open(u) && Carries(u, given) && (wasPrepared <==> inbox[u].prepared.Some?)
      requires NeedsPreflight(inbox[u], groups) && (Versioned(given.operation) ==> preflight.binding.Some?)
      requires given.expected.Some? ==> preflight.binding.Some? && preflight.binding.value.pin == given.expected
      requires wasPrepared && Versioned(given.operation) ==> given.expected.Some?
      requires Sealed(inbox[u]) && given.operation == Message ==> inbox[u].input.images == 0
      requires Heard(u, Routed(preflight)) in story
      modifies this
      ensures Valid() && Handling(old(S()), S(), u)
      ensures r.Ok? && r.value.Return? ==> Concluded(old(S()), u, r.value.verdict, blocked)
      ensures r.Ok? && r.value.Proceed? ==>
                && Open(u) && Carries(u, r.value.body)
                && (if Versioned(given.operation) then Pinned(u, r.value.body, blocked)
                    else inbox[u].prepared == old(inbox)[u].prepared)
      ensures Follows(old(faults), old(story), r,
                      AdmissionStory(Here(u, r), |old(story)|, old(inbox)[u], groups, blocked, given, wasPrepared,
                                     preflight))
    {
      hide Reachable, NeedsPreflight, AcceptStory;
      if !Versioned(given.operation) {
        r := Accepting(u, given, blocked, preflight);
        return;
      }
      var view := preflight.binding.value;
      if view.pin.None? { return Thrown(0); }
      var body := given.(expected := view.pin);
      if inbox[u].input.displayText && given.operation == Message && !wasPrepared {
        if view.issue.None? { return Thrown(0); }
        body := body.(issue := view.issue);
      }
      r := PinAndAccept(u, body, view.pin.value, blocked, preflight);
    }

    /** Freezes the first observed destination of a versioned input, before anything else can fail. */
    method PinAndAccept(u: nat, body: Body, pin: Pin, blocked: set<nat>, preflight: Decision) returns (r: Outcome<Flow>)
      requires Valid() && Open(u) && body.operation == inbox[u].input.operation && Versioned(body.operation)
      requires inbox[u].prepared.Some? ==> inbox[u].prepared == Some(body)
      requires NeedsPreflight(inbox[u], groups) && body.expected == Some(pin) && Selects(story, Some(pin))
      requires Sealed(inbox[u]) && body.operation == Message ==> inbox[u].input.images == 0
      modifies this
      ensures Valid() && Handling(old(S()), S(), u)
      ensures r.Ok? && r.value.Return? ==> Concluded(old(S()), u, r.value.verdict, blocked)
      ensures r.Ok? && r.value.Proceed? ==>
                Open(u) && Carries(u, r.value.body) && Pinned(u, r.value.body, blocked)
      ensures Follows(old(faults), old(story), r,
                      var fixed := Fixed(old(inbox)[u], body);
                      if BlockedBy(body, blocked) then Returns(Here(u, r), |old(story)|, fixed, Deferred)
                      else AcceptStory(Here(u, r), |old(story)|, fixed, groups, body, preflight))
    {
      hide Reachable, AcceptStory, Selects;
      var pinned :- PinDestination(u, body, pin);
      if pin.binding in blocked { return Ok(Return(Deferred)); }
      ghost var mid := S();
      r := Accepting(u, body, blocked, preflight);
      HandlingTrans(old(S()), mid, S(), u);
    }

    /** Whether the binding accepts the pinned input now. */
    method Accepting(u: nat, body: Body, blocked: set<nat>, preflight: Decision) returns (r: Outcome<Flow>)
      requires Valid() && Open(u) && Carries(u, body) && NeedsPreflight(inbox[u], groups)
      requires Versioned(body.operation) ==>
                 inbox[u].prepared.Some? && body.expected.Some? && body.expected.value.binding !in blocked
      modifies this
      ensures Valid() && Handling(old(S()), S(), u)
      ensures r.Ok? && r.value.Return? ==> Concluded(old(S()), u, r.value.verdict, blocked)
      ensures r.Ok? && r.value.Proceed? ==>
                && r.value.body == body && Open(u) && Carries(u, body)
                && inbox[u].prepared == old(inbox)[u].prepared
                && (Versioned(body.operation) ==> Pinned(u, body, blocked))
      ensures Follows(old(faults), old(story), r,
                      AcceptStory(Here(u, r), |old(story)|, old(inbox)[u], groups, body, preflight))
    {
      hide Reachable, NeedsPreflight, SettleStory, CheckStory, Shows;
      var input := inbox[u].input;
      if input.operation != Unbind && preflight.binding.Some? {
        if !input.group && preflight.binding.value.privacy.NeedsRebind? {
          r := ShowAndFinish(u, Notice(Some(preflight.notice.GetOr(REBIND)), false));
          return;
        }
        if groups && input.group {
          if !preflight.binding.value.grouped { return Thrown(0); }
          r := CheckGroup(u, body, blocked, preflight);
          return;
        }
      }
      r := Take(u, body, blocked, preflight);
    }

    /** A binding that takes no comments is shown; else the input goes on. */
    method Take(u: nat, body: Body, blocked: set<nat>, preflight: Decision) returns (r: Outcome<Flow>)
      requires Valid() && Open(u) && Carries(u, body) && NeedsPreflight(inbox[u], groups)
      requires Versioned(body.operation) ==>
                 inbox[u].prepared.Some? && body.expected.Some? && body.expected.value.binding !in blocked
      modifies this
      ensures Valid() && Handling(old(S()), S(), u)
      ensures r.Ok? && r.value.Return? ==> Concluded(old(S()), u, r.value.verdict, blocked)
      ensures r.Ok? && r.value.Proceed? ==>
                && r.value.body == body && Open(u) && Carries(u, body)
                && inbox[u].prepared == old(inbox)[u].prepared
                && (Versioned(body.operation) ==> Pinned(u, body, blocked))
      ensures Follows(old(faults), old(story), r,
                      SettleStory(Here(u, r), |old(story)|, old(inbox)[u], groups, body, preflight))
    {
      hide Reachable, NeedsPreflight, Shows, GoesOn;
      var input := inbox[u].input;
      if input.operation != Unbind && preflight.handled && !preflight.Commentable() &&
         (input.images > 0 || !(preflight.Grouped() && groups && input.group)) {
        r := ShowAndFinish(u, preflight.Shown());
      } else {
        r := Settle(u, body, blocked, preflight);
      }
    }

    method Settle(u: nat, body: Body, blocked: set<nat>, preflight: Decision) returns (r: Outcome<Flow>)
      requires Valid() && Open(u) && Carries(u, body)
      requires Versioned(body.operation) ==>
                 inbox[u].prepared.Some? && body.expected.Some? && body.expected.value.binding !in blocked
      modifies this`inbox, this`disk, this`faults
      ensures Valid() && Handling(old(S()), S(), u)
      ensures r.Ok? ==>
                && r.value == Proceed(body, Some(preflight)) && Open(u) && Carries(u, body)
                && inbox[u].prepared == old(inbox)[u].prepared
                && (Versioned(body.operation) ==> Pinned(u, body, blocked))
      ensures Follows(old(faults), old(story), r,
                      GoesOn(Here(u, r), |old(story)|, Passed(old(inbox)[u], preflight), body, Some(preflight)))
    {
      hide Reachable, Can, Do, Evolves, Coherent, NeedsPreflight, Handling, Turn;
      ReachableRecord(S(), u);
      SettleEvolves(inbox[u], preflight, groups);
      UpdateAllowed(S(), u, Passed(inbox[u], preflight));
      var input := inbox[u].input;
      var quoted := inbox[u].quoteVerified || (input.requireRobotQuote && preflight.Commentable());
      if Versioned(input.operation) {
        var saved :- SetAndSave(u, inbox[u].(quoteVerified := quoted, preflightPending := false));
      } else {
        Set(u, inbox[u].(quoteVerified := quoted));
      }
      return Ok(Proceed(body, Some(preflight)));
    }

    /** Refuses the message as a whole, with a frozen notice. */
    method RejectMedia(u: nat, text: Text) returns (r: Outcome<Flow>)
      requires Valid() && Eligible(S(), u) && Can(S(), Action.Freeze(u, Notice(Some(text), false)))
      modifies this
      ensures Valid() && Handling(old(S()), S(), u) && (old(stopped) ==> stopped)
      ensures r.Ok? ==> r.value == Return(Done) && !inbox[u].chatHandoff && Spoke(old(S()), S(), u)
      ensures Follows(old(faults), old(story), r,
                      Freezes(Here(u, r), |old(story)|, old(inbox)[u], Notice(Some(text), false)))
    {
      hide Reachable;
      r := FreezeAndSend(u, Notice(Some(text), false));
    }

    /** Media not yet part of the body may still be staged into it. */
    ghost predicate Stageable(u: nat, body: Body)
      reads this
    {
      Open(u) && Carries(u, body) && TakesImages(inbox[u])
    }

    /** The images were put into the body, or the message is answered. */
    ghost predicate StagedInto(s: State, u: nat, body: Body, r: Outcome<Flow>)
      reads this
    {
      && (r.Ok? && r.value.Return? ==>
            u in inbox && r.value.verdict == Done && !inbox[u].chatHandoff && Spoke(s, S(), u))
      && (r.Ok? && r.value.Proceed? ==>
            && Stageable(u, body) && r.value.body == body.(attachments := r.value.body.attachments)
            && r.value.body.attachments.Some?)
    }

    lemma StagedSince(s: State, t: State, u: nat, body: Body, r: Outcome<Flow>)
      requires StagedInto(t, u, body, r) && s.trace <= t.trace
      ensures StagedInto(s, u, body, r)
    {
    }

    /** Stages the images of an input and puts their bytes into the body, or rejects the whole message. */
    method PrepareMedia(u: nat, body: Body, given: Option<Decision>) returns (r: Outcome<Flow>)
      requires Valid() && Stageable(u, body)
      modifies this
      ensures Valid() && Handling(old(S()), S(), u) && StagedInto(old(S()), u, body, r)
      ensures Follows(old(faults), old(story), r,
                      MediaStory(Here(u, r), |old(story)|, old(inbox)[u], body, given))
    {
      hide Reachable, NeedsPreflight, TakesImages, RoomStory;
      if given.None? && body.operation == Create {
        var answer: Decision :- Inquire(u, (d: Decision) => Routed(d));
        ghost var mid := S();
        r := MakeRoom(u, body, Some(answer));
        HandlingTrans(old(S()), mid, S(), u);
        StagedSince(old(S()), mid, u, body, r);
      } else {
        r := MakeRoom(u, body, given);
      }
    }

    /** A task that takes no comments is shown, and at most five images are fetched. */
    method MakeRoom(u: nat, body: Body, preflight: Option<Decision>) returns (r: Outcome<Flow>)
      requires Valid() && Stageable(u, body)
      modifies this
      ensures Valid() && Handling(old(S()), S(), u) && StagedInto(old(S()), u, body, r)
      ensures Follows(old(faults), old(story), r,
                      RoomStory(Here(u, r), |old(story)|, old(inbox)[u], body, preflight))
    {
      hide Reachable, NeedsPreflight, TakesImages, Shows, Freezes, StagedStory;
      if preflight.Some? && preflight.value.handled && !preflight.value.Commentable() {
        r := ShowAndFinish(u, preflight.value.Shown());
      } else if inbox[u].input.images > MAX_IMAGES {
        r := RejectImages(u, TOO_MANY_IMAGES);
      } else {
        r := StageImages(u, body, preflight);
      }
    }

    method CountStaging(u: nat, body: Body) returns (r: Outcome<()>)
      requires Valid() && Stageable(u, body)
      modifies this`inbox, this`disk, this`faults
      ensures Valid() && Handling(old(S()), S(), u) && Stageable(u, body)
      ensures faults == old(faults) + (if r.IsFailure() then 1 else 0)
      ensures inbox[u] == old(inbox)[u].(stageAttempts := old(inbox)[u].stageAttempts + 1)
    {
      hide Reachable, Can, Do, Evolves, Coherent, NeedsPreflight;
      ReachableRecord(S(), u);
      NoteEvolves(inbox[u], groups);
      UpdateAllowed(S(), u, inbox[u].(stageAttempts := inbox[u].stageAttempts + 1));
      r := SetAndSave(u, inbox[u].(stageAttempts := inbox[u].stageAttempts + 1));
    }

    /** The whole message is refused while its images are staged. */
    method RejectImages(u: nat, text: Text) returns (r: Outcome<Flow>)
      requires Valid() && Open(u) && TakesImages(inbox[u])
      modifies this
      ensures Valid() && Handling(old(S()), S(), u)
      ensures r.Ok? ==> r.value == Return(Done) && !inbox[u].chatHandoff && Spoke(old(S()), S(), u)
      ensures Follows(old(faults), old(story), r,
                      Freezes(Here(u, r), |old(story)|, old(inbox)[u], Notice(Some(text), false)))
    {
      hide Reachable, TakesImages, NeedsPreflight, Freezes;
      r := RejectMedia(u, text);
    }

    /** An attempt to stage the images is counted durably before it begins. */
    method StageImages(u: nat, body: Body, preflight: Option<Decision>) returns (r: Outcome<Flow>)
      requires Valid() && Stageable(u, body)
      modifies this
      ensures Valid() && Handling(old(S()), S(), u)
      ensures r.Ok? && r.value.Return? ==>
                r.value.verdict == Done && !inbox[u].chatHandoff && Spoke(old(S()), S(), u)
      ensures r.Ok? && r.value.Proceed? ==>
                && Stageable(u, body) && r.value.body == body.(attachments := r.value.body.attachments)
                && r.value.body.attachments.Some?
      ensures Follows(old(faults), old(story), r,
                      var counted := old(inbox)[u].(stageAttempts := old(inbox)[u].stageAttempts + 1);
                      StagedStory(Here(u, r), |old(story)|, counted, body, preflight))
    {
      hide Reachable, TakesImages, MayFreeze, NeedsPreflight, Evolves, StagedStory;
      var saved :- CountStaging(u, body);
      ghost var mid := S();
      r := FetchImages(u, body, preflight);
      HandlingTrans(old(S()), mid, S(), u);
      StagedSince(old(S()), mid, u, body, r);
    }

    /** Fetches the images; an attempt that fails is made again later, but no more than three times. */
    method FetchImages(u: nat, body: Body, preflight: Option<Decision>) returns (r: Outcome<Flow>)
      requires Valid() && Stageable(u, body)
      modifies this
      ensures Valid() && Handling(old(S()), S(), u) && StagedInto(old(S()), u, body, r)
      ensures Follows(old(faults), old(story), r,
                      StagedStory(Here(u, r), |old(story)|, old(inbox)[u], body, preflight))
    {
      hide Reachable, TakesImages, MayFreeze, NeedsPreflight, FetchedStory, Freezes;
      var fetched: Fetched :- Receive(u, (f: Fetched) => Staged(f));
      ghost var mid := S();
      match fetched {
        case Missed(permanent, status) =>
          if !permanent && inbox[u].stageAttempts < MAX_STAGINGS { return Thrown(status); }
          r := RejectImages(u, NOT_RECEIVED);
        case Files(files, failures) =>
          r := Attach(u, body, preflight, files, failures);
      }
      HandlingTrans(old(S()), mid, S(), u);
      StagedSince(old(S()), mid, u, body, r);
    }

    /** Puts the images into the body if none is missing and they are not too large together. */
    method Attach(u: nat, body: Body, preflight: Option<Decision>, files: seq<File>, failures: Option<Text>)
      returns (r: Outcome<Flow>)
      requires Valid() && Stageable(u, body)
      modifies this
      ensures Valid() && Handling(old(S()), S(), u) && StagedInto(old(S()), u, body, r)
      ensures Follows(old(faults), old(story), r,
                      FetchedStory(Here(u, r), |old(story)|, old(inbox)[u], body, preflight, files, failures))
    {
      hide Reachable, TakesImages, Freezes, Weight;
      if failures.Some? || |files| != inbox[u].input.images {
        r := RejectImages(u, failures.GetOr(INCOMPLETE));
        return;
      }
      var attachments :- ReadImages(files);
      if attachments.None? {
        ghost var mid := S();
        r := RejectImages(u, TOO_MANY_BYTES);
        ElsewhereThenHandling(old(S()), mid, S(), u);
        StagedSince(old(S()), mid, u, body, r);
        return;
      }
      return Ok(Proceed(body.(attachments := attachments), preflight));
    }

    /** Reads the staged files until their total size passes the limit. */
    method ReadImages(files: seq<File>) returns (r: Outcome<Option<seq<nat>>>)
      requires Valid()
      modifies this
      ensures Valid() && Elsewhere(old(S()), S())
      ensures if r.IsFailure() then faults > old(faults) else faults == old(faults)
      ensures r.Ok? ==> r.value == if Weight(files) > MAX_IMAGE_BYTES then None else Some(Contents(files))
    {
      hide Reachable, Elsewhere;
      var total: nat, i: nat, attachments := 0, 0, [];
      ElsewhereHere(S());
      while i < |files|
        invariant Valid() && Elsewhere(old(S()), S()) && faults == old(faults)
        invariant i <= |files| && total == Weight(files[..i]) <= MAX_IMAGE_BYTES && attachments == Contents(files[..i])
      {
        ghost var mid := S();
        var read: Outcome<()> := Ask();
        ElsewhereTrans(old(S()), mid, S());
        if read.IsFailure() { return read.PropagateFailure(); }
        assert files[..i + 1][..i] == files[..i];
        total := total + files[i].size;
        if total > MAX_IMAGE_BYTES {
          WeightGrows(files, i + 1);
          return Ok(None);
        }
        attachments := attachments + [files[i].content];
        i := i + 1;
      }
      assert files[..i] == files;
      return Ok(Some(attachments));
    }

    /** What must hold before a body, with freshly staged `files` if any, is saved and sent. */
    ghost predicate Sendable(u: nat, body: Body, files: Option<seq<nat>>, blocked: set<nat>)
      reads this
    {
      && Open(u) && Carries(u, body) && Refusal(inbox[u].input).None?
      && (Versioned(body.operation) ==> Pinned(u, body, blocked))
      && (if files.Some? then TakesImages(inbox[u])
          else body.operation == Message ==> inbox[u].mediaPrepared != Some(false))
    }

    /** A complete saved body, about to be sent or, when its uploads are used up, to be asked about. */
    ghost predicate Completed(u: nat, blocked: set<nat>)
      reads this
    {
      && Open(u) && Sealed(inbox[u]) && Refusal(inbox[u].input).None? && disk == inbox
      && (Versioned(inbox[u].input.operation) ==> Pinned(u, inbox[u].prepared.value, blocked))
    }

    /** A private bind or create carries the robot's public display data; then the body is completed and sent. */
    method Submit(u: nat, given: Body, files: Option<seq<nat>>, wasPrepared: bool, blocked: set<nat>)
      returns (r: Outcome<Flow>)
      requires Valid() && Sendable(u, given, files, blocked) && AheadBlocked(S(), u, blocked)
      requires wasPrepared || Versioned(given.operation) || inbox[u].prepared.None?
      modifies this
      ensures Valid() && Handling(old(S()), S(), u)
      ensures r.Ok? ==> r.value.Return? && Concluded(old(S()), u, r.value.verdict, blocked)
      ensures Follows(old(faults), old(story), r,
                      SubmitStory(Here(u, r), |old(story)|, old(inbox)[u], groups, given, files, wasPrepared))
    {
      hide Reachable, TakesImages, MayPost, Settled, Coherent, Legacy, Sealed, UploadStory, Handling, AheadBlocked,
          Spoke;
      if !wasPrepared && !inbox[u].input.group && (given.operation == Bind || given.operation == Create) {
        var metadata :- Describe(u);
        ghost var mid := S();
        AheadStays(old(S()), mid, u, blocked);
        r := SaveAndSend(u, if metadata.Some? then given.(metadata := metadata.value) else given, files, blocked);
        HandlingTrans(old(S()), mid, S(), u);
        ConcludedSince(old(S()), mid, u, r, blocked);
      } else {
        r := SaveAndSend(u, given, files, blocked);
      }
    }

    /** The robot's public display data; a relay that was stopped meanwhile binds nothing. */
    method Describe(u: nat) returns (r: Outcome<Option<nat>>)
      requires Valid() && pass.In? && pass.uid == u && u in inbox
      modifies this
      ensures Valid() && (old(stopped) ==> stopped) && (r.Ok? ==> !stopped)
      ensures Handling(old(S()), S(), u) && u in inbox && inbox[u] == old(inbox)[u] && old(trace) <= trace
      ensures pass == old(pass) && decisions == old(decisions) && old(story) <= story
      ensures if r.IsFailure() then old(faults) <= faults && Excused(old(faults), r) else faults == old(faults)
      ensures r.Ok? ==> story == old(story) + [Heard(u, Described(r.value))]
    {
      hide Reachable;
      r := Inquire(u, (m: Option<nat>) => Described(m));
      if r.Ok? && stopped { return Thrown(0); }
    }

    /** Completes the body, saves it, and only then sends it. */
    method SaveAndSend(u: nat, body: Body, files: Option<seq<nat>>, blocked: set<nat>) returns (r: Outcome<Flow>)
      requires Valid() && Sendable(u, body, files, blocked) && AheadBlocked(S(), u, blocked)
      modifies this
      ensures Valid() && Handling(old(S()), S(), u)
      ensures r.Ok? ==> r.value.Return? && Concluded(old(S()), u, r.value.verdict, blocked)
      ensures Follows(old(faults), old(story), r,
                      UploadStory(Here(u, r), |old(story)|, InboundStories.Saved(old(inbox)[u], body, files), groups))
    {
      hide Reachable, TakesImages, MayPost, Settled, Coherent, Legacy, Sealed, UploadStory, Handling, AheadBlocked,
          Spoke;
      var saved :- SaveBody(u, body, files, blocked);
      ghost var mid := S();
      AheadStays(old(S()), mid, u, blocked);
      r := Upload(u, blocked);
      HandlingTrans(old(S()), mid, S(), u);
      ConcludedSince(old(S()), mid, u, r, blocked);
    }

    /** Makes the complete body durable. */
    method SaveBody(u: nat, given: Body, files: Option<seq<nat>>, blocked: set<nat>) returns (r: Outcome<()>)
      requires Valid() && Sendable(u, given, files, blocked)
      modifies this`inbox, this`disk, this`faults
      ensures Valid() && Handling(old(S()), S(), u)
      ensures faults == old(faults) + (if r.IsFailure() then 1 else 0)
      ensures inbox[u].prepared == Some(if files.Some? then given.(attachments := files) else given)
      ensures inbox[u] == InboundStories.Saved(old(inbox)[u], given, files)
      ensures r.Ok? ==> Completed(u, blocked) && disk == inbox
    {
      hide Reachable, Selects;
      ReachableRecord(S(), u);
      var body := if files.Some? then given.(attachments := files) else given;
      r := SetAndSave(u, inbox[u].(prepared := Some(body),
                                   mediaPrepared := if files.Some? then Some(true) else inbox[u].mediaPrepared));
    }

    /** An upload with images is counted durably before it starts; three are enough. */
    method Upload(u: nat, blocked: set<nat>) returns (r: Outcome<Flow>)
      requires Valid() && Completed(u, blocked) && AheadBlocked(S(), u, blocked)
      modifies this
      ensures Valid() && Handling(old(S()), S(), u)
      ensures r.Ok? ==> r.value.Return? && Concluded(old(S()), u, r.value.verdict, blocked)
      ensures Follows(old(faults), old(story), r, UploadStory(Here(u, r), |old(story)|, old(inbox)[u], groups))
    {
      hide Reachable, PostStory, ConfirmStory, Handling, AheadBlocked, Spoke, Coherent, Can;
      if inbox[u].input.images > 0 && inbox[u].uploadAttempts >= 3 {
        r := ConfirmUpload(u, blocked);
        HandlingLog(old(S()), S(), u);
        return;
      }
      HandlingHere(S(), u);
      if inbox[u].input.images > 0 {
        CountAllowed(u, blocked);
        var saved :- CountUpload(u);
        AheadStays(old(S()), S(), u, blocked);
      }
      ghost var mid := S();
      r := PostAndConclude(u, blocked);
      HandlingTrans(old(S()), mid, S(), u);
      ConcludedSince(old(S()), mid, u, r, blocked);
    }

    lemma CountAllowed(u: nat, blocked: set<nat>)
      requires Completed(u, blocked) && inbox[u].input.images > 0 && !UploadsUsed(inbox[u])
      ensures Can(S(), Count(u))
    {
    }

    method CountUpload(u: nat) returns (r: Outcome<()>)
      requires Valid() && Can(S(), Count(u))
      modifies this`inbox, this`disk, this`pass, this`faults
      ensures Valid() && Handling(old(S()), S(), u) && pass == In(u, Counted)
      ensures faults == old(faults) + (if r.IsFailure() then 1 else 0)
      ensures inbox == old(inbox)[u := old(inbox)[u].(uploadAttempts := old(inbox)[u].uploadAttempts + 1)]
      ensures r.Ok? ==> disk == inbox
    {
      hide Reachable;
      inbox := inbox[u := inbox[u].(uploadAttempts := inbox[u].uploadAttempts + 1)];
      pass := In(u, Counted);
      ReachableStep(old(S()), Count(u));
      r := SaveInbox();
    }

    /** After three uploads, asks whether one arrived instead of uploading again. */
    method ConfirmUpload(u: nat, blocked: set<nat>) returns (r: Outcome<Flow>)
      requires Valid() && Completed(u, blocked) && UploadsUsed(inbox[u])
      modifies this
      ensures Valid() && Handling(old(S()), S(), u)
      ensures r.Ok? ==> r.value == Return(Done) && !inbox[u].chatHandoff && Spoke(old(S()), S(), u)
      ensures Follows(old(faults), old(story), r, ConfirmStory(Here(u, r), |old(story)|, old(inbox)[u]))
    {
      hide Reachable, Freezes;
      var received: Option<bool> :- Inquire(u, (x: Option<bool>) => Received(x));
      ghost var mid := S();
      if received == Some(true) {
        r := Committed(u);
      } else if received == Some(false) {
        r := RejectMedia(u, UPLOAD_FAILED);
      } else {
        r := Thrown(0);
      }
      HandlingTrans(old(S()), mid, S(), u);
    }

    /** The service confirmed an earlier upload: the record only has to be completed. */
    method Committed(u: nat) returns (r: Outcome<Flow>)
      requires Valid() && Open(u)
      modifies this
      ensures Valid() && Handling(old(S()), S(), u)
      ensures r.Ok? ==> r.value == Return(Done) && !inbox[u].chatHandoff && Spoke(old(S()), S(), u)
      ensures Follows(old(faults), old(story), r, Commits(Here(u, r), |old(story)|, old(inbox)[u]))
    {
      hide Reachable, Can, Do, Evolves, Coherent, NeedsPreflight, Legacy;
      ReachableRecord(S(), u);
      NoteEvolves(inbox[u], groups);
      UpdateAllowed(S(), u, inbox[u].(mediaCommitted := true));
      var saved :- SetAndSave(u, inbox[u].(mediaCommitted := true));
      Decide(u);
      return Ok(Return(Done));
    }

    /** The body is saved, counted if it has images, and no earlier input waits for its binding. */
    ghost predicate Ready(u: nat, blocked: set<nat>)
      reads this
    {
      && pass.In? && Acting(S(), u) && Eligible(S(), u) && MayPost(inbox[u], pass.stage) && disk == inbox
      && AheadBlocked(S(), u, blocked)
      && (Versioned(inbox[u].input.operation) ==> Pinned(u, inbox[u].prepared.value, blocked))
    }

    /** The POST itself, and what its answer means. */
    method PostAndConclude(u: nat, blocked: set<nat>) returns (r: Outcome<Flow>)
      requires Valid() && Ready(u, blocked)
      modifies this
      ensures Valid() && Handling(old(S()), S(), u)
      ensures r.Ok? ==> r.value.Return? && Concluded(old(S()), u, r.value.verdict, blocked)
      ensures Follows(old(faults), old(story), r, PostStory(Here(u, r), |old(story)|, old(inbox)[u], groups))
    {
      hide Reachable, MayPost, AnswerStory, Handling, AheadBlocked, Coherent;
      Post(u, blocked);
      ghost var sent := S();
      var answered: Outcome<Reply> := Receive(u, (x: Reply) => Replied(x));
      ghost var mid := S();
      HandlingTrans(old(S()), sent, mid, u);
      if answered.IsFailure() { return answered.PropagateFailure(); }
      r := Weigh(u, answered.value);
      HandlingTrans(old(S()), mid, S(), u);
      HandlingLog(mid, S(), u);
      assert About(trace[|old(trace)|], u);
    }

    /** A refusal of the images ends the message, other errors leave it pending; an answer is handled. */
    method Weigh(u: nat, reply: Reply) returns (r: Outcome<Flow>)
      requires Valid() && Requested(u) && inbox[u].prepared.Some?
      modifies this
      ensures Valid() && Handling(old(S()), S(), u)
      ensures r.Ok? ==> r.value.Return? && (r.value.verdict == Done || r.value.verdict == Chat)
      ensures r.Ok? ==> inbox[u].chatHandoff == (r.value.verdict == Chat)
      ensures Follows(old(faults), old(story), r, AnswerStory(Here(u, r), |old(story)|, old(inbox)[u], groups, reply))
    {
      hide Reachable, ReplyStory, Freezes, Handling;
      HandlingHere(S(), u);
      match reply {
        case Refused(status) =>
          if inbox[u].input.images == 0 || status !in {400, 409, 413} { return Thrown(status); }
          r := RejectMedia(u, if status == 409 then BINDING_CHANGED else FORMAT_REFUSED);
        case Decided(result) =>
          r := Conclude(u, result);
      }
    }

    method Post(u: nat, blocked: set<nat>)
      requires Valid() && Ready(u, blocked)
      modifies this`trace, this`pass, this`story
      ensures Valid() && |trace| == |old(trace)| + 1 && old(trace) <= trace && Handling(old(S()), S(), u)
      ensures Requested(u) && inbox[u].prepared.Some? && story == old(story) + [trace[|old(trace)|]]
      ensures trace[|old(trace)|].Posted? && trace[|old(trace)|].uid == u
      ensures trace[|old(trace)|].body == inbox[u].prepared.value && trace[|old(trace)|].ahead == Ahead(S(), u)
    {
      hide Reachable;
      ReachableRecord(S(), u);
      ghost var e := Posted(u, inbox[u].prepared.value, Ahead(S(), u));
      trace, story := trace + [e], story + [e];
      pass := In(u, Sent);
      ReachableStep(old(S()), InboundProtocol.Post(u));
    }

    /** Handles the service's answer to the POST. */
    method Conclude(u: nat, answer: Decision) returns (r: Outcome<Flow>)
      requires Valid() && Requested(u) && inbox[u].prepared.Some?
      modifies this
      ensures Valid() && Handling(old(S()), S(), u)
      ensures r.Ok? ==> r.value.Return? && (r.value.verdict == Done || r.value.verdict == Chat)
      ensures r.Ok? ==> inbox[u].chatHandoff == (r.value.verdict == Chat)
      ensures Follows(old(faults), old(story), r, ReplyStory(Here(u, r), |old(story)|, old(inbox)[u], groups, answer))
    {
      hide Reachable, RegroupStory;
      var noted :- NoteAnswer(u, answer);
      ghost var mid := S();
      r := Regroup(u, answer);
      HandlingTrans(old(S()), mid, S(), u);
    }

    /** The answer of a read-only command is frozen, any other one is still open. */
    ghost predicate Noted(u: nat, answer: Decision)
      reads this
    {
      && u in inbox && inbox[u].prepared.Some? && !inbox[u].chatHandoff && Eligible(S(), u)
      && if answer.handled && inbox[u].input.operation in {Lookup(Help), Lookup(Status)}
         then pass == In(u, Frozen) && inbox[u].notice == Some(answer.Shown())
         else Requested(u)
    }

    /** A grouped bind or create succeeds only once its leader is seen in the group. */
    method Regroup(u: nat, result: Decision) returns (r: Outcome<Flow>)
      requires Valid() && Noted(u, result)
      modifies this
      ensures Valid() && Handling(old(S()), S(), u)
      ensures r.Ok? ==> r.value.Return? && (r.value.verdict == Done || r.value.verdict == Chat)
      ensures r.Ok? ==> inbox[u].chatHandoff == (r.value.verdict == Chat)
      ensures Follows(old(faults), old(story), r, RegroupStory(Here(u, r), |old(story)|, old(inbox)[u], groups, result))
    {
      hide Reachable, Legacy, FinishStory;
      var input := inbox[u].input;
      if groups && input.group && result.binding.Some? && result.binding.value.grouped
         && (input.operation == Bind || input.operation == Create) && result.canReconcile {
        var checked: Decision :- Inquire(u, (d: Decision) => Regrouped(d));
        ghost var mid := S();
        r := Finish(u, checked);
        HandlingTrans(old(S()), mid, S(), u);
      } else {
        r := Finish(u, result);
      }
    }

    /** What is shown, or that Chat takes over, once the answer is noted. */
    method Finish(u: nat, result: Decision) returns (r: Outcome<Flow>)
      requires Valid() && Noted(u, result)
      modifies this
      ensures Valid() && Handling(old(S()), S(), u)
      ensures r.Ok? ==> r.value.Return? && (r.value.verdict == Done || r.value.verdict == Chat)
      ensures r.Ok? ==> inbox[u].chatHandoff == (r.value.verdict == Chat)
      ensures Follows(old(faults), old(story), r, FinishStory(Here(u, r), |old(story)|, old(inbox)[u], result))
    {
      hide Reachable, Legacy, ResultStory, UnhandledStory;
      if result.handled {
        r := ShowResult(u, result);
      } else {
        assert Requested(u);
        r := Unhandled(u);
      }
    }

    /** Records committed media, and freezes the answer of a read-only command. */
    method NoteAnswer(u: nat, result: Decision) returns (r: Outcome<()>)
      requires Valid() && Requested(u) && inbox[u].prepared.Some?
      modifies this`inbox, this`disk, this`pass, this`faults
      ensures Valid() && Handling(old(S()), S(), u)
      ensures if r.IsFailure() then faults > old(faults) else faults == old(faults)
      ensures !inbox[u].chatHandoff && inbox[u].prepared == old(inbox)[u].prepared
      ensures r.Ok? ==> Noted(u, result) && inbox[u] == AfterReply(old(inbox)[u], result)
    {
      hide Reachable, Coherent, NeedsPreflight, Do, Handling;
      r := NoteMedia(u, result);
      ghost var mid := S();
      HandlingLog(old(S()), mid, u);
      if r.Ok? && result.handled &&
         (inbox[u].input.operation == Lookup(Help) || inbox[u].input.operation == Lookup(Status)) {
        r := FreezeNotice(u, result.Shown());
        HandlingTrans(old(S()), mid, S(), u);
      }
    }

    method NoteMedia(u: nat, result: Decision) returns (r: Outcome<()>)
      requires Valid() && Requested(u) && inbox[u].prepared.Some?
      modifies this`inbox, this`disk, this`faults
      ensures Valid() && Handling(old(S()), S(), u) && Requested(u)
      ensures faults == old(faults) + (if r.IsFailure() then 1 else 0)
      ensures inbox[u].prepared == old(inbox)[u].prepared
      ensures inbox[u] == if inbox[u].input.images > 0 && result.comment then old(inbox)[u].(mediaCommitted := true)
                          else old(inbox)[u]
    {
      hide Reachable, Can, Do, Evolves, Coherent, NeedsPreflight;
      ReachableRecord(S(), u);
      NoteEvolves(inbox[u], groups);
      UpdateAllowed(S(), u, inbox[u].(mediaCommitted := true));
      if inbox[u].input.images > 0 && result.comment {
        r := SetAndSave(u, inbox[u].(mediaCommitted := true));
      } else {
        r := Ok(());
      }
    }

    /** The service did not take the input: explain, or hand a command over to Chat. */
    method Unhandled(u: nat) returns (r: Outcome<Flow>)
      requires Valid() && Requested(u) && inbox[u].prepared.Some?
      modifies this
      ensures Valid() && Handling(old(S()), S(), u)
      ensures r.Ok? ==> r.value.Return? && (r.value.verdict == Done || r.value.verdict == Chat)
      ensures r.Ok? ==> inbox[u].chatHandoff == (r.value.verdict == Chat)
      ensures Follows(old(faults), old(story), r, UnhandledStory(Here(u, r), |old(story)|, old(inbox)[u]))
    {
      hide Reachable;
      ReachableRecord(S(), u);
      var input := inbox[u].input;
      if input.operation == Message && inbox[u].prepared.value.expected.Some? { return Thrown(409); }
      if input.explicitBinding {
        r := ShowAndFinish(u, Notice(Some(USE_BIND), false));
      } else if !input.operation.Lookup? {
        r := Ok(Return(Done));
      } else {
        r := HandOff(u);
      }
    }

    /** The binding found is shown when the service left the text to the relay. */
    method FillNotice(u: nat, text: Text)
      requires Valid() && pass == In(u, Frozen) && u in inbox && inbox[u].input.operation.Lookup?
      requires inbox[u].notice.Some? && inbox[u].notice.value.text.None?
      modifies this`inbox
      ensures Valid() && Handling(old(S()), S(), u)
      ensures inbox == old(inbox)[u := old(inbox)[u].(notice := Some(old(inbox)[u].notice.value.(text := Some(text))))]
    {
      hide Reachable;
      inbox := inbox[u := inbox[u].(notice := Some(inbox[u].notice.value.(text := Some(text))))];
      ReachableStep(old(S()), Fill(u, text));
    }

    /** Shows the result of the POST, unless its success is marked as shown elsewhere. */
    method ShowResult(u: nat, result: Decision) returns (r: Outcome<Flow>)
      requires Valid() && u in inbox && Eligible(S(), u)
      requires (pass == In(u, Frozen) && inbox[u].input.operation.Lookup? && inbox[u].notice == Some(result.Shown())
                && !inbox[u].chatHandoff) || Requested(u)
      modifies this
      ensures Valid() && Handling(old(S()), S(), u)
      ensures r.Ok? ==> r.value == Return(Done) && !inbox[u].chatHandoff
      ensures Follows(old(faults), old(story), r, ResultStory(Here(u, r), |old(story)|, old(inbox)[u], result))
    {
      hide Reachable, Shows, Coherent, NeedsPreflight, Handling;
      var shown := Present(u, result);
      var operation := inbox[u].input.operation;
      if result.suppress && result.canComment != Some(false) &&
         (operation == Unbind ||
          ((operation == Bind || operation == Create) && result.binding.Some? &&
           (!result.binding.value.grouped || result.binding.value.groupActive) &&
           (result.binding.value.privacy.NotPrivate? || result.binding.value.privacy.Active?))) {
        return Ok(Return(Done));
      }
      ghost var mid := S();
      r := ShowOrRepeat(u, shown);
      HandlingTrans(old(S()), mid, S(), u);
    }

    /** The binding found is shown when the service said nothing itself. */
    method Present(u: nat, result: Decision) returns (shown: Notice)
      requires Valid() && u in inbox
      requires inbox[u].notice.Some? ==>
                 pass == In(u, Frozen) && inbox[u].input.operation.Lookup? && inbox[u].notice == Some(result.Shown())
      modifies this`inbox
      ensures Valid() && Handling(old(S()), S(), u) && shown == Presented(old(inbox)[u].input, result)
      ensures if old(inbox)[u].notice.Some? then inbox == old(inbox)[u := old(inbox)[u].(notice := Some(shown))]
              else inbox == old(inbox)
    {
      hide Reachable, Handling;
      HandlingHere(S(), u);
      shown := result.Shown();
      if inbox[u].input.operation.Lookup? && result.binding.Some? && result.Commentable() && shown.text.None? {
        shown := shown.(text := Some(result.binding.value.title));
        // A frozen notice is the same object as the result.
        if inbox[u].notice.Some? { FillNotice(u, result.binding.value.title); }
      }
    }

    /** A frozen answer is sent as such, any other one is only shown. */
    method ShowOrRepeat(u: nat, shown: Notice) returns (r: Outcome<Flow>)
      requires Valid() && u in inbox && Eligible(S(), u) && !inbox[u].chatHandoff
      requires if inbox[u].notice.Some? then pass == In(u, Frozen) && inbox[u].notice.value == shown else Requested(u)
      modifies this
      ensures Valid() && Handling(old(S()), S(), u)
      ensures r.Ok? ==> r.value == Return(Done) && !inbox[u].chatHandoff
      ensures Follows(old(faults), old(story), r,
                      if old(inbox)[u].notice.Some? then Freezes(Here(u, r), |old(story)|, old(inbox)[u], shown)
                      else Shows(Here(u, r), |old(story)|, old(inbox)[u], shown))
    {
      hide Reachable;
      if inbox[u].notice.Some? {
        var sent :- SendRoutingNotice(u);
      } else {
        var sent :- SendNotice(u, shown);
      }
      return Ok(Return(Done));
    }

    /**
     * Acts on one record: see `Concluded` for the three ways it returns, and `Handles` for what it does on every
     * answer.
     */
    method HandleSerial(u: nat, blocked: set<nat>) returns (r: Outcome<Verdict>)
      requires Valid() && Eligible(S(), u) && AheadBlocked(S(), u, blocked)
      modifies this
      ensures Valid() && Handling(old(S()), S(), u)
      ensures r.Ok? ==> Concluded(old(S()), u, r.value, blocked)
      ensures Follows(old(faults), [], AsFlow(r), Handles(Here(u, AsFlow(r)), old(inbox)[u], groups, blocked))
      ensures old(inbox)[u].notice.Some? && !old(inbox)[u].notice.value.Speaks() ==>
                r == Ok(Done) && trace == old(trace) + [Answered(u)] && inbox == old(inbox)
    {
      hide Reachable, BeginStory, Coherent;
      ReachableRecord(S(), u);
      Enter(u);
      if inbox[u].chatHandoff { return Ok(Chat); }
      var flow: Outcome<Flow>;
      if inbox[u].notice.Some? {
        flow := Repeat(u, blocked);
      } else {
        flow := Begin(u, blocked);
      }
      if flow.IsFailure() { return flow.PropagateFailure(); }
      return Ok(flow.value.verdict);
    }

    /** The record was answered by a frozen notice before: that notice again, and nothing else. */
    method Repeat(u: nat, blocked: set<nat>) returns (r: Outcome<Flow>)
      requires Valid() && pass == In(u, Begun) && Eligible(S(), u)
      requires !inbox[u].chatHandoff && inbox[u].notice.Some?
      modifies this
      ensures Valid() && Handling(old(S()), S(), u)
      ensures r.Ok? ==> r.value.Return? && Concluded(old(S()), u, r.value.verdict, blocked)
      ensures Follows(old(faults), old(story), r,
                      Freezes(Here(u, r), |old(story)|, old(inbox)[u], old(inbox)[u].notice.value))
      ensures !old(inbox)[u].notice.value.Speaks() ==>
                r == Ok(Return(Done)) && trace == old(trace) + [Answered(u)] && inbox == old(inbox)
    {
      hide Reachable;
      var sent :- SendRoutingNotice(u);
      return Ok(Return(Done));
    }

    /** The record is new or was left before: its body, unless its binding is blocked or cannot be proven. */
    method Begin(u: nat, blocked: set<nat>) returns (r: Outcome<Flow>)
      requires Valid() && pass == In(u, Begun) && Eligible(S(), u) && AheadBlocked(S(), u, blocked)
      requires !inbox[u].chatHandoff && inbox[u].notice.None?
      modifies this
      ensures Valid() && Handling(old(S()), S(), u)
      ensures r.Ok? ==> r.value.Return? && Concluded(old(S()), u, r.value.verdict, blocked)
      ensures Follows(old(faults), old(story), r,
                      BeginStory(Here(u, r), |old(story)|, old(inbox)[u], groups, blocked))
    {
      hide Reachable, RouteStory, Handling, AheadBlocked, Spoke;
      var scope: nat :- Inquire<nat>(u, (x: nat) => Scoped(x));
      ghost var mid := S();
      ReachableRecord(S(), u);
      var rec := inbox[u];
      var wasPrepared := rec.prepared.Some?;
      var body := if wasPrepared then rec.prepared.value else NewBody(rec.input, scope);
      if body.expected.Some? && body.expected.value.binding in blocked { return Ok(Return(Deferred)); }
      if wasPrepared && Versioned(body.operation) && body.expected.None? { return Thrown(409); }
      AheadStays(old(S()), mid, u, blocked);
      r := Route(u, body, wasPrepared, blocked);
      HandlingTrans(old(S()), mid, S(), u);
      ConcludedSince(old(S()), mid, u, r, blocked);
    }

    /** The preflight when one is due, then the request. */
    method Route(u: nat, body: Body, wasPrepared: bool, blocked: set<nat>) returns (r: Outcome<Flow>)
      requires Valid() && Open(u) && Carries(u, body) && (wasPrepared <==> inbox[u].prepared.Some?)
      requires AheadBlocked(S(), u, blocked)
      requires wasPrepared && Versioned(body.operation) ==>
                 body.expected.Some? && body.expected.value.binding !in blocked
      modifies this
      ensures Valid() && Handling(old(S()), S(), u)
      ensures r.Ok? ==> r.value.Return? && Concluded(old(S()), u, r.value.verdict, blocked)
      ensures Follows(old(faults), old(story), r,
                      RouteStory(Here(u, r), |old(story)|, old(inbox)[u], groups, blocked, body, wasPrepared))
    {
      hide Reachable, PreflightStory, ExecuteStory, Handling, AheadBlocked, Spoke;
      ReachableRecord(S(), u);
      var rec := inbox[u];
      if !(rec.preflightPending || (rec.input.images > 0 && rec.mediaPrepared == Some(false)) ||
           (!wasPrepared && (rec.input.operation == Message || rec.input.operation == Unbind ||
                             (groups && rec.input.group && rec.input.operation == Lookup(NoCommand))))) {
        r := Execute(u, body, None, wasPrepared, blocked);
        return;
      }
      r := Preflight(u, body, wasPrepared, blocked);
      ghost var s := S();
      HandlingLog(old(S()), s, u);
      AheadStays(old(S()), s, u, blocked);
      ghost var mid := Here(u, r);
      assert ExecuteRouted(mid, mid, groups, wasPrepared) || (r.Ok? && r.value.Proceed?);
      if r.IsFailure() || r.value.Return? { return; }
      ReachableRecord(S(), u);
      r := Execute(u, r.value.body, r.value.preflight, wasPrepared, blocked);
      HandlingTrans(old(S()), s, S(), u);
      ConcludedSince(old(S()), s, u, r, blocked);
      assert Excused(old(faults), r) || ExecuteRouted(mid, Here(u, r), groups, wasPrepared);
    }

    /** Media, then the request itself. */
    method Execute(u: nat, body: Body, preflight: Option<Decision>, wasPrepared: bool, blocked: set<nat>)
      returns (r: Outcome<Flow>)
      requires Valid() && Open(u) && Carries(u, body) && AheadBlocked(S(), u, blocked)
      requires Versioned(body.operation) ==> Pinned(u, body, blocked)
      requires wasPrepared || Versioned(body.operation) || inbox[u].prepared.None?
      requires wasPrepared && body.operation == Create ==> inbox[u].prepared.Some?
      modifies this
      ensures Valid() && Handling(old(S()), S(), u)
      ensures r.Ok? ==> r.value.Return? && Concluded(old(S()), u, r.value.verdict, blocked)
      ensures Follows(old(faults), old(story), r,
                      ExecuteStory(Here(u, r), |old(story)|, old(inbox)[u], groups, body, preflight, wasPrepared))
    {
      hide Reachable, NeedsPreflight, SubmitStory, StageStory, Freezes, Handling, AheadBlocked, Spoke;
      ReachableRecord(S(), u);
      var input := inbox[u].input;
      if Refusal(input).Some? {
        r := RejectMedia(u, Refusal(input).value);
        HandlingLog(old(S()), S(), u);
        return;
      }
      if input.images > 0 && ((!wasPrepared && input.operation == Create) ||
                              (input.operation == Message && inbox[u].mediaPrepared == Some(false))) {
        r := StageAndSubmit(u, body, preflight, wasPrepared, blocked);
      } else {
        r := Submit(u, body, None, wasPrepared, blocked);
      }
    }

    /** The images are staged, and then the request is made. */
    method StageAndSubmit(u: nat, body: Body, preflight: Option<Decision>, wasPrepared: bool, blocked: set<nat>)
      returns (r: Outcome<Flow>)
      requires Valid() && Stageable(u, body) && AheadBlocked(S(), u, blocked)
      requires Versioned(body.operation) ==> Pinned(u, body, blocked)
      requires wasPrepared || Versioned(body.operation) || inbox[u].prepared.None?
      modifies this
      ensures Valid() && Handling(old(S()), S(), u)
      ensures r.Ok? ==> r.value.Return? && Concluded(old(S()), u, r.value.verdict, blocked)
      ensures Follows(old(faults), old(story), r,
                      StageStory(Here(u, r), |old(story)|, old(inbox)[u], groups, body, preflight, wasPrepared))
    {
      hide Reachable, NeedsPreflight, SubmitStory, MediaStory, Handling, AheadBlocked, Spoke, Coherent, Legacy,
          Eligible;
      r := PrepareMedia(u, body, preflight);
      ghost var s := S();
      HandlingLog(old(S()), s, u);
      AheadStays(old(S()), s, u, blocked);
      ghost var mid := Here(u, r);
      assert SubmitStaged(mid, mid, groups, body, wasPrepared) || (r.Ok? && r.value.Proceed?);
      if r.IsFailure() || r.value.Return? { return; }
      r := Submit(u, body, r.value.body.attachments, wasPrepared, blocked);
      HandlingTrans(old(S()), s, S(), u);
      ConcludedSince(old(S()), s, u, r, blocked);
      assert Excused(old(faults), r) || SubmitStaged(mid, Here(u, r), groups, body, wasPrepared);
    }

    // ---- Chat ---------------------------------------------------------------------

    /** What the Chat branch may change: the record's two Chat flags, besides what any await may. */
    ghost predicate ChatHandling(s: State, u: nat)
      reads this
    {
      && s.next <= next && s.trace <= trace && decisions == s.decisions && quarantine == s.quarantine
      && s.confirmed <= confirmed && s.story <= story
      && (forall v {:trigger v in inbox} {:trigger inbox[v]} ::
            v in s.inbox && v != u ==> v in inbox && inbox[v] == s.inbox[v])
      && (forall v {:trigger v in inbox} {:trigger inbox[v]} :: v in inbox ==> v in s.inbox || v >= s.next)
      && u in s.inbox && u in inbox
      && inbox[u] == s.inbox[u].(chatSubmitting := inbox[u].chatSubmitting, chatSubmitted := inbox[u].chatSubmitted)
    }

    /** A failure of this part comes from an effect that failed, and none that failed is passed over. */
    ghost predicate Counts<T>(before: nat, r: Outcome<T>)
      reads this
    {
      if r.IsFailure() then before < faults else faults == before
    }

    /** Handed over, and not submitted in any earlier handling. */
    ghost predicate ForChat(u: nat)
      reads this
    {
      Eligible(S(), u) && inbox[u].chatHandoff
    }

    /** The hand-off callback before the submission: durable, or no submission. */
    method BeforeSubmit(u: nat) returns (r: Outcome<()>)
      requires Valid() && ForChat(u)
      modifies this`inbox, this`disk, this`armed, this`faults
      ensures Valid() && inbox == old(inbox)[u := old(inbox)[u].(chatSubmitting := true)] && armed == Some(u)
      ensures Counts(old(faults), r) && (r.Ok? ==> disk == inbox)
    {
      hide Reachable;
      inbox := inbox[u := inbox[u].(chatSubmitting := true)];
      armed := Some(u);
      ReachableStep(old(S()), InboundProtocol.BeforeSubmit(u));
      r := SaveInbox();
    }

    /** The hand-off callback after an accepted submission. */
    method AfterSubmit(u: nat) returns (r: Outcome<()>)
      requires Valid() && u in inbox && inbox[u].chatHandoff
      modifies this`inbox, this`disk, this`confirmed, this`faults
      ensures Valid() && inbox == old(inbox)[u := old(inbox)[u].(chatSubmitted := true)]
      ensures Counts(old(faults), r) && confirmed == old(confirmed) + {u}
    {
      hide Reachable;
      inbox := inbox[u := inbox[u].(chatSubmitted := true)];
      confirmed := confirmed + {u};
      ReachableStep(old(S()), InboundProtocol.AfterSubmit(u));
      r := SaveInbox();
    }

    method PostChat(u: nat)
      requires Valid() && u in inbox && inbox[u].chatSubmitting && armed == Some(u)
      requires u in disk && disk[u].chatSubmitting
      modifies this`trace, this`story, this`armed
      ensures Valid() && armed.None? && trace == old(trace) + [ChatPosted(u, inbox[u].id)]
      ensures story == old(story) + [ChatPosted(u, inbox[u].id)]
    {
      hide Reachable;
      trace, story := trace + [ChatPosted(u, inbox[u].id)], story + [ChatPosted(u, inbox[u].id)];
      armed := None;
      ReachableStep(old(S()), ChatPost(u));
    }

    /** The submission itself, bracketed by the two callbacks. */
    method SubmitChat(u: nat) returns (r: Outcome<()>)
      requires Valid() && ForChat(u)
      modifies this
      ensures Valid() && ChatHandling(old(S()), u) && Counts(old(faults), r)
      ensures r.Ok? ==> inbox[u].chatSubmitting && inbox[u].chatSubmitted && armed.None? && u in confirmed
      ensures r.Ok? ==> story == old(story) + [ChatPosted(u, inbox[u].id)]
    {
      hide Reachable;
      var marked :- BeforeSubmit(u);
      var scope: () :- Ask();
      assert u in disk;
      PostChat(u);
      r := ConfirmChat(u);
    }

    /** A submission that fails, or whose answer names no task, is not confirmed. */
    method ConfirmChat(u: nat) returns (r: Outcome<()>)
      requires Valid() && u in inbox && inbox[u].chatHandoff
      modifies this
      ensures Valid() && ChatHandling(old(S()), u) && Counts(old(faults), r) && story == old(story)
      ensures inbox[u].chatSubmitting == old(inbox)[u].chatSubmitting
      ensures armed == old(armed) && (r.Ok? ==> inbox[u].chatSubmitted && u in confirmed)
    {
      hide Reachable;
      var task: () :- Ask();
      r := FinishChat(u);
    }

    /** Saves the state file of Chat's own handling. */
    method SaveState() returns (r: Outcome<()>)
      modifies this`faults
      ensures Counts(old(faults), r)
    {
      r := *;
      if r.IsFailure() { faults := faults + 1; }
    }

    /** Remembers the message as handled, then confirms its record; doing it twice changes nothing. */
    method FinishChat(u: nat) returns (r: Outcome<()>)
      requires Valid() && u in inbox && inbox[u].chatHandoff
      modifies this
      ensures Valid() && ChatHandling(old(S()), u) && inbox[u].chatSubmitting == old(inbox)[u].chatSubmitting
      ensures Counts(old(faults), r) && story == old(story)
      ensures armed == old(armed) && (r.Ok? || old(inbox)[u].chatSubmitted ==> inbox[u].chatSubmitted)
      ensures r.Ok? ==> u in confirmed && inbox[u].input.message in seen
    {
      hide Reachable;
      var persisted :- SaveState();
      seen, uncertain := seen + {inbox[u].input.message}, uncertain - {inbox[u].input.message};
      r := AfterSubmit(u);
    }

    /** Whom the Bridge talks to: configured users, and in groups everybody if so configured. */
    predicate Allowed(input: Input)
      reads this
    {
      (input.group && allowAllInGroups) || input.sender in allowed
    }

    /** Why the Bridge's own handling lets this input go without a word, if it does. */
    function Unsaid(input: Input): Option<Silence>
      reads this
    {
      if input.message in seen + uncertain then Some(Known(seen + uncertain))
      else if Refusal(input).None? && input.group && !Allowed(input) then Some(Barred(allowAllInGroups, allowed))
      else None
    }

    /** Known messages are ignored, then refused media is explained, and only then are group senders screened. */
    method Screen(input: Input) returns (why: Option<Silence>)
      ensures why == Unsaid(input) && (why.Some? ==> Justified(input, why.value))
    {
      if input.message in seen || input.message in uncertain { return Some(Known(seen + uncertain)); }
      if input.mediaRejection.None? && !input.unsupportedFile && input.group &&
         !allowAllInGroups && input.sender !in allowed {
        return Some(Barred(allowAllInGroups, allowed));
      }
      return None;
    }

    method Drop(u: nat, why: Silence)
      requires Valid() && u in inbox && inbox[u].chatHandoff && Justified(inbox[u].input, why)
      modifies this`trace, this`story
      ensures Valid()
      ensures S() == old(S()).(trace := old(trace) + [Dropped(u, why)], story := old(story) + [Dropped(u, why)])
    {
      hide Reachable;
      trace, story := trace + [Dropped(u, why)], story + [Dropped(u, why)];
      ReachableStep(old(S()), InboundProtocol.Drop(u, why));
    }

    method HandOver(u: nat)
      requires Valid() && ForChat(u)
      modifies this`trace, this`story
      ensures var e := HandedOver(u, HandedOffInFile(old(S()), u));
              Valid() && S() == old(S()).(trace := old(trace) + [e], story := old(story) + [e])
    {
      hide Reachable;
      ghost var e := HandedOver(u, HandedOffInFile(S(), u));
      trace, story := trace + [e], story + [e];
      ReachableStep(old(S()), InboundProtocol.HandOver(u));
    }

    /**
     * The Bridge's own handling of an input that was handed over to Chat.  It lets
     * known messages and group senders that are not allowed go without a word;
     * whatever else returns was answered or confirmed.
     */
    method Fallback(u: nat) returns (r: Outcome<()>)
      requires Valid() && ForChat(u)
      modifies this
      ensures Valid() && ChatHandling(old(S()), u) && Counts(old(faults), r)
      ensures r.Ok? ==> ChatStory(u, story, |old(story)|, old(inbox)[u], inbox[u],
                                  old(Unsaid(inbox[u].input)), Allowed(inbox[u].input))
      ensures old(Unsaid(inbox[u].input)).Some? ==>
                var silence := [HandedOver(u, HandedOffInFile(old(S()), u)),
                                Dropped(u, old(Unsaid(inbox[u].input)).value)];
                r == Ok(()) && S() == old(S()).(trace := old(trace) + silence, story := old(story) + silence)
      ensures r.Ok? && old(Unsaid(inbox[u].input)).None? ==> Spoke(old(S()), S(), u) || u in confirmed
      ensures r.Ok? && inbox[u].chatSubmitting ==> inbox[u].chatSubmitted
    {
      hide Reachable, Coherent, NeedsPreflight, Legacy, Spoke;
      HandOver(u);
      var input := inbox[u].input;
      var why := Screen(input);
      if why.Some? {
        Drop(u, why.value);
        return Ok(());
      }
      ghost var mid := S();
      r := Attend(u);
      if r.Ok? && u !in confirmed { SpokeSince(old(S()), mid, S(), u); }
    }

    /** An input that is not let go: the sender is told why not, a command is answered, or Chat gets it. */
    method Attend(u: nat) returns (r: Outcome<()>)
      requires Valid() && ForChat(u)
      modifies this
      ensures Valid() && ChatHandling(old(S()), u) && Counts(old(faults), r)
      ensures r.Ok? ==> Spoke(old(S()), S(), u) || u in confirmed
      ensures r.Ok? && inbox[u].chatSubmitting ==> inbox[u].chatSubmitted
      ensures var input := old(inbox)[u].input;
              r.Ok? ==>
                if Refusal(input).Some? || !Allowed(input) then
                  story == old(story) + [Answered(u)] && inbox[u] == old(inbox)[u]
                else if input.command then
                  story == old(story) + [Answered(u)] && inbox[u] == old(inbox)[u].(chatSubmitted := true)
                else
                  && story == old(story) + [ChatPosted(u, inbox[u].id)]
                  && inbox[u] == old(inbox)[u].(chatSubmitting := true, chatSubmitted := true)
    {
      hide Reachable;
      var input := inbox[u].input;
      if input.mediaRejection.Some? || input.unsupportedFile ||
         !((input.group && allowAllInGroups) || input.sender in allowed) {
        r := Explain(u);
      } else if input.command {
        r := Command(u);
      } else {
        var sent :- SubmitChat(u);
        r := Acknowledge(u);
      }
    }

    /** A reply that says why the input is not taken; whether it arrives is not looked at. */
    method Explain(u: nat) returns (r: Outcome<()>)
      requires Valid() && ForChat(u)
      modifies this
      ensures Valid() && ChatHandling(old(S()), u) && Spoke(old(S()), S(), u) && Counts(old(faults), r)
      ensures inbox[u] == old(inbox)[u] && story == old(story) + [Answered(u)] && !r.Thrown?
    {
      hide Reachable;
      Decide(u);
      Await();
      var died: bool := *;
      if died {
        faults := faults + 1;
        return Crashed;
      }
      return Ok(());
    }

    /** A task request, a command, or a question for the progress of a task. */
    method Command(u: nat) returns (r: Outcome<()>)
      requires Valid() && u in inbox && inbox[u].chatHandoff
      modifies this
      ensures Valid() && ChatHandling(old(S()), u) && inbox[u].chatSubmitting == old(inbox)[u].chatSubmitting
      ensures Counts(old(faults), r) && story == old(story) + [Answered(u)]
      ensures r.Ok? ==> u in confirmed && inbox[u].chatSubmitted
    {
      hide Reachable;
      Decide(u);
      var done: () :- Ask();
      r := FinishChat(u);
    }

    /** Receipts after an accepted submission; completing twice changes nothing. */
    method Acknowledge(u: nat) returns (r: Outcome<()>)
      requires Valid() && u in inbox && inbox[u].chatHandoff && inbox[u].chatSubmitted
      modifies this
      ensures Valid() && ChatHandling(old(S()), u) && inbox[u] == old(inbox)[u]
      ensures Counts(old(faults), r) && story == old(story)
    {
      hide Reachable;
      var shown: () :- Ask();
      r := FinishChat(u);
    }

    // ---- drain --------------------------------------------------------------------

    method Delete(u: nat)
      requires Valid() && (u in inbox && Uncertain(inbox[u]) ==> inbox[u].id in quarantine)
      modifies this`inbox
      ensures Valid() && inbox == old(inbox) - {u}
    {
      hide Reachable;
      inbox := inbox - {u};
      ReachableStep(old(S()), InboundProtocol.Delete(u));
    }

    /** Moves a record to the quarantine: file first, then the inbox. */
    method ArchiveQuarantined(u: nat, id: nat) returns (r: Outcome<()>)
      requires Valid() && (u in inbox ==> inbox[u].id == id)
      modifies this`inbox, this`disk, this`quarantine, this`trace, this`faults
      ensures Valid() && Turn(old(S()), S(), u) && Counts(old(faults), r)
      ensures if u in inbox then inbox == old(inbox) else u in old(inbox) ==> id in quarantine
      ensures old(quarantine) <= quarantine <= old(quarantine) + {id}
      ensures r.Ok? ==> u !in inbox && u !in disk && id in quarantine
    {
      hide Reachable, Coherent, NeedsPreflight, Legacy;
      var written: Outcome<()>, renamed: bool := *, *;
      if written.Ok? || (written.Crashed? && renamed) {
        quarantine := quarantine + {id};
        trace := trace + [Quarantined(id)];
        ReachableStep(old(S()), Archive(id));
      }
      if written.IsFailure() {
        faults := faults + 1;
        return written;
      }
      Delete(u);
      r := SaveInbox();
    }

    /** Leaves a tombstone, so that a redelivery is not interpreted again. */
    method CompleteRoutingDecision(u: nat) returns (r: Outcome<()>)
      requires Valid() && u in inbox && !inbox[u].chatHandoff
      modifies this`decisions, this`trace, this`faults
      ensures Valid() && Turn(old(S()), S(), u) && Counts(old(faults), r)
      ensures r.Ok? ==> decisions == old(decisions) + {inbox[u].id}
    {
      hide Reachable;
      var written: Outcome<()>, renamed: bool := *, *;
      if written.Ok? || (written.Crashed? && renamed) {
        decisions := decisions + {inbox[u].id};
        trace := trace + [Tombstoned(inbox[u].id)];
        ReachableStep(old(S()), Bury(u));
      }
      if written.IsFailure() { faults := faults + 1; }
      return written;
    }

    method DeleteAndSave(u: nat) returns (r: Outcome<()>)
      requires Valid() && (u in inbox && Uncertain(inbox[u]) ==> inbox[u].id in quarantine)
      modifies this`inbox, this`disk, this`faults
      ensures Valid() && inbox == old(inbox) - {u} && Counts(old(faults), r)
      ensures r.Ok? ==> disk == inbox
    {
      hide Reachable;
      Delete(u);
      r := SaveInbox();
    }

    /** The record waits for a blocked binding, and nothing was submitted for it. */
    ghost predicate Waits(u: nat, blocked: set<nat>)
      reads this
    {
      u in inbox && PinnedIn(inbox[u], blocked) && !inbox[u].chatSubmitting
    }

    /**
     * One record of the drain: `true` means deferred; otherwise it has left the inbox. `last` is the record
     * object, and `e` its handling.
     */
    method Attempt(u: nat, blocked: set<nat>) 
      returns (r: Outcome<bool>, last: Record, ghost e: Ending, ghost why: Option<Silence>)
      requires Valid() && u in inbox && AheadBlocked(S(), u, blocked)
      modifies this
      ensures Valid() && Turn(old(S()), S(), u) && last.id == old(inbox)[u].id
      ensures if u in inbox then inbox[u] == last else Accounted(old(S()), S(), u)
      ensures last.chatSubmitted ==> Accounted(old(S()), S(), u)
      ensures r.Ok? ==> if r.value then Waits(u, blocked) else u !in inbox && u !in disk
      ensures Uncertain(old(inbox)[u]) ==>
                (if u in inbox then Uncertain(last) else last.id in quarantine) && (r.Ok? ==> u !in inbox)
      ensures old(faults) <= faults && (r.Crashed? ==> old(faults) < faults)
      ensures faults == old(faults) && !stopped ==>
                if Over(old(S()), u) then Tidied(old(S()), S(), u, r, last)
                else Processed(old(S()), S(), u, blocked, e, r, last, why, Allowed(old(inbox)[u].input))
    {
      hide Reachable;
      ReachableRecord(S(), u);
      last := inbox[u];
      e, why := Ending(u, story, last, Crashed), None;
      var gone: Outcome<()>;
      if last.id in decisions || last.chatSubmitted {
        gone := DeleteAndSave(u);
        r := if gone.Ok? then Ok(false) else gone.PropagateFailure();
      } else if last.quarantined {
        gone := ArchiveQuarantined(u, last.id);
        r := if gone.Ok? then Ok(false) else gone.PropagateFailure();
      } else if last.chatSubmitting {
        r := Thrown(409);
      } else {
        r, last, e, why := Process(u, blocked);
      }
    }

    /** A record that is neither settled nor uncertain: handle it, and complete what it ended in. */
    method Process(u: nat, blocked: set<nat>)
      returns (r: Outcome<bool>, last: Record, ghost e: Ending, ghost why: Option<Silence>)
      requires Valid() && Eligible(S(), u) && AheadBlocked(S(), u, blocked)
      modifies this
      ensures Valid() && Turn(old(S()), S(), u) && last.id == old(inbox)[u].id
      ensures if u in inbox then inbox[u] == last else Accounted(old(S()), S(), u)
      ensures last.chatSubmitted ==> Accounted(old(S()), S(), u)
      ensures r.Ok? ==> if r.value then Waits(u, blocked) else u !in inbox && u !in disk
      ensures old(faults) <= faults && (r.Crashed? ==> old(faults) < faults)
      ensures faults == old(faults) && !stopped ==>
                Processed(old(S()), S(), u, blocked, e, r, last, why, Allowed(old(inbox)[u].input))
    {
      hide Reachable, Accounted, Handles;
      var verdict := HandleSerial(u, blocked);
      last := inbox[u];
      e, why := Here(u, AsFlow(verdict)), Unsaid(last.input);
      if verdict.IsFailure() {
        r := verdict.PropagateFailure();
        return;
      }
      ghost var allowed := Allowed(last.input);
      if verdict.value == Deferred {
        assert CompletedAs(e, story, last, why, allowed, Stays(last), Continue({}));
        return Ok(true), last, e, why;
      }
      ghost var mid := S();
      r, last := Complete(u, verdict.value);
      if u !in inbox || last.chatSubmitted {
        if verdict.value == Chat {
          AccountedSince(old(S()), mid, S(), u);
        } else {
          SpokeAccounts(old(S()), mid, S(), u);
        }
      }
      if r.Ok? {
        ghost var marked := verdict.value == Done && (last.notice.Some? || last.mediaCommitted);
        assert CompletedAs(e, story, last, why, allowed, Gone(marked, false), Continue({}));
      }
    }

    lemma SpokeAccounts(s: State, t: State, v: State, u: nat)
      requires u in s.inbox && Spoke(s, t, u) && t.trace <= v.trace
      ensures Accounted(s, v, u)
    {
    }

    /** Chat takes over, or a terminal decision is buried; then the record leaves the inbox. */
    method Complete(u: nat, verdict: Verdict) returns (r: Outcome<bool>, last: Record)
      requires Valid() && Eligible(S(), u) && verdict != Deferred
      requires inbox[u].chatHandoff == (verdict == Chat)
      modifies this
      ensures Valid() && Turn(old(S()), S(), u) && last.id == old(inbox)[u].id
      ensures u in inbox ==> inbox[u] == last
      ensures verdict == Chat && (u !in inbox || last.chatSubmitted) ==> Accounted(old(S()), S(), u)
      ensures r.Ok? ==> !r.value && u !in inbox && u !in disk
      ensures Counts(old(faults), r)
      ensures r.Ok? && verdict == Done ==>
                && story == old(story) && last == old(inbox)[u]
                && PlacedAt(old(S()), S(), u, last.id, Gone(last.notice.Some? || last.mediaCommitted, false))
      ensures r.Ok? && verdict == Chat ==>
                && old(story) <= story && PlacedAt(old(S()), S(), u, last.id, Gone(false, false))
                && ChatStory(u, story, |old(story)|, old(inbox)[u], last, old(Unsaid(inbox[u].input)),
                             Allowed(old(inbox)[u].input))
    {
      hide Reachable, ChatStory;
      var done: Outcome<()> := Ok(());
      if verdict == Chat {
        done := HandToChat(u);
      } else if inbox[u].notice.Some? || inbox[u].mediaCommitted {
        done := CompleteRoutingDecision(u);
      }
      last := inbox[u];
      if done.Ok? { done := DeleteAndSave(u); }
      r := if done.Ok? then Ok(false) else done.PropagateFailure();
    }

    /** Chat takes over; a record that is confirmed by then may leave, whatever else fails. */
    method HandToChat(u: nat) returns (done: Outcome<()>)
      requires Valid() && ForChat(u)
      modifies this
      ensures Valid() && ChatHandling(old(S()), u) && Counts(old(faults), done)
      ensures done.Ok? || inbox[u].chatSubmitted ==> Accounted(old(S()), S(), u)
      ensures done.Ok? && inbox[u].chatSubmitting ==> inbox[u].chatSubmitted
      ensures done.Ok? ==> ChatStory(u, story, |old(story)|, old(inbox)[u], inbox[u],
                                     old(Unsaid(inbox[u].input)), Allowed(inbox[u].input))
    {
      hide Reachable, LetGo, Spoke, Justified, ChatStory;
      ghost var why := Unsaid(inbox[u].input);
      done := Fallback(u);
      if done.Ok? { SilenceAccounts(old(S()), S(), u, why); }
      ReachableRecord(S(), u);
    }

    lemma SilenceAccounts(s: State, t: State, u: nat, why: Option<Silence>)
      requires u in s.inbox && (why.Some? ==> Justified(s.inbox[u].input, why.value))
      requires if why.Some? then t.trace == s.trace + [HandedOver(u, HandedOffInFile(s, u)), Dropped(u, why.value)]
               else Spoke(s, t, u) || u in t.confirmed
      ensures Accounted(s, t, u)
    {
      if why.Some? { assert t.trace[|s.trace| + 1] == Dropped(u, why.value); }
    }

    /** Marks the record, if it is still there, and moves it to the quarantine. */
    method Quarantine(u: nat, last: Record) returns (r: Outcome<()>)
      requires Valid() && (u in inbox ==> inbox[u] == last)
      modifies this`inbox, this`disk, this`quarantine, this`trace, this`faults
      ensures Valid() && Turn(old(S()), S(), u) && Counts(old(faults), r)
      ensures u in old(inbox) && u !in inbox ==> last.id in quarantine
      ensures u in inbox ==> inbox == old(inbox)[u := last.(quarantined := true)]
      ensures old(quarantine) <= quarantine <= old(quarantine) + {last.id}
      ensures r.Ok? ==> u !in inbox && u !in disk && last.id in quarantine
    {
      hide Evolves, Coherent, Reachable, NeedsPreflight, Can, Do, Handling;
      if u in inbox {
        ReachableRecord(S(), u);
        QuarantineEvolves(last, groups);
        UpdateAllowed(S(), u, last.(quarantined := true));
        Set(u, last.(quarantined := true));
      }
      r := ArchiveQuarantined(u, last.id);
    }

    /** The `catch` of the drain, for the record object `last`, which may have left the inbox already. */
    method Recover(u: nat, last: Record, status: nat) returns (r: Outcome<Next>)
      requires Valid() && (u in inbox ==> inbox[u] == last)
      modifies this
      ensures Valid() && Turn(old(S()), S(), u) && Counts(old(faults), r)
      ensures r.Ok? && r.value.Continue? && u in inbox ==> Waits(u, r.value.blocked) && !Uncertain(last)
      ensures u in old(inbox) && u !in inbox ==> if last.chatSubmitted then u in confirmed else last.id in quarantine
      ensures Recovered(old(S()), S(), u, last, status, r) && stopped == old(stopped)
    {
      hide Reachable, Handling, Elsewhere, Coherent, NeedsPreflight, Legacy;
      if u in inbox { ReachableRecord(S(), u); }
      if last.chatSubmitted {
        var gone :- DeleteAndSave(u);
        return Ok(Continue({}));
      }
      if last.quarantined || last.chatSubmitting || status in {400, 409, 413} {
        var gone :- Quarantine(u, last);
        return Ok(Continue({}));
      }
      var saved :- SaveInbox();
      r := Ok(if last.prepared.Some? && last.prepared.value.expected.Some?
              then Continue({last.prepared.value.expected.value.binding}) else Stop);
    }

    /** Everything that arrived before `u` and is still here waits for a blocked binding, or the relay has stopped. */
    ghost predicate Swept(u: nat, blocked: set<nat>)
      reads this
    {
      stopped || AllWait(S(), u, blocked)
    }

    /** One record, with the drain's `try` around it; `None` stops the drain. */
    method OneTurn(u: nat, blocked: set<nat>) returns (r: Outcome<Next>)
      requires Valid() && u in inbox && AheadBlocked(S(), u, blocked)
      modifies this
      ensures Valid() && Turn(old(S()), S(), u)
      ensures u !in inbox ==> Accounted(old(S()), S(), u)
      ensures u !in inbox && Uncertain(old(inbox)[u]) ==> old(inbox)[u].id in quarantine
      ensures r.Ok? && r.value.Continue? && u in inbox ==>
                Waits(u, blocked + r.value.blocked) && !Uncertain(old(inbox)[u])
      ensures old(faults) <= faults && (r.IsFailure() ==> old(faults) < faults)
      ensures faults == old(faults) && !stopped ==>
                r.Ok? && TurnTold(old(S()), S(), u, blocked, Allowed(old(inbox)[u].input), r.value)
      ensures faults == old(faults) && !stopped && r.Ok? && r.value.Stop? ==> u in inbox && Unpinned(inbox[u])
    {
      hide Reachable, LetGo, Spoke, Tidied, Processed, Recovered, TurnTold, Over;
      ghost var allowed := Allowed(inbox[u].input);
      var attempt, last;
      ghost var e, why;
      attempt, last, e, why := Attempt(u, blocked);
      if attempt.Crashed? { return Crashed; }
      ghost var mid := S();
      if attempt.Ok? {
        if faults == old(faults) && !stopped {
          TurnWithoutError(old(S()), mid, u, blocked, e, attempt, last, why, allowed);
        }
        return Ok(Continue({}));
      }
      ghost var calm := faults == old(faults) && !stopped;
      r := Recover(u, last, attempt.status);
      if u !in mid.inbox || last.chatSubmitted { AccountedLater(old(S()), mid, S(), u); }
      if calm && r.Ok? {
        TurnWithError(old(S()), mid, S(), u, blocked, e, attempt, last, why, allowed, r.value);
        if r.value.Stop? { StopsOpen(old(S()), mid, S(), u, blocked, e, attempt, last, why, allowed); }
      }
    }

    lemma WaitsAs(u: nat, blocked: set<nat>)
      requires Waits(u, blocked)
      ensures PinnedIn(inbox[u], blocked) && !inbox[u].chatSubmitting
    {
    }

    /** Works through the inbox of the conversation in arrival order. */
    method Drain() returns (r: Outcome<()>, complete: bool, blocked: set<nat>)
      requires Valid()
      modifies this
      ensures Valid() && AllAccounted(old(S()), S()) && UncertainQuarantined(old(S()), S())
      ensures old(trace) <= trace && old(next) <= next && (complete ==> r.Ok?)
      ensures complete ==> Swept(old(next), blocked) && (stopped || UncertainGone(old(S()), S(), old(next)))
      ensures old(faults) <= faults && (r.IsFailure() ==> old(faults) < faults)
      ensures faults == old(faults) && !stopped && !complete ==>
                exists v :: v in inbox && v < next && Unpinned(inbox[v])
    {
      hide Reachable, Accounted, Uncertain, TurnTold, Unpinned, PinnedIn, AllWait, AheadBlocked;
      hide AllAccounted, UncertainQuarantined, UncertainGone, Untouched, Turn;
      DrainStarts(S());
      ReachableBounds(S());
      var u, end := 0, next;
      complete, blocked := false, {};
      while u < end
        invariant Valid() && u <= end == old(next) <= next && Swept(u, blocked)
        invariant stopped || UncertainGone(old(S()), S(), u)
        invariant AllAccounted(old(S()), S()) && UncertainQuarantined(old(S()), S()) && old(trace) <= trace
        invariant Untouched(old(S()), S(), u, end)
        invariant old(faults) <= faults
      {
        if u in inbox && !stopped {
          ghost var mid := S();
          WaitersAreAhead(mid, u, blocked);
          WasThere(old(S()), mid, u, end);
          var turn := OneTurn(u, blocked);
          DrainGoesOn(old(S()), mid, S(), u, end);
          if turn.IsFailure() { return turn.PropagateFailure(), false, blocked; }
          if turn.value.Stop? { return Ok(()), false, blocked; }
          if u in inbox && !stopped { WaitsAs(u, blocked + turn.value.blocked); }
          if !stopped {
            DrainWaits(old(S()), mid, S(), u, blocked, turn.value.blocked);
          }
          blocked := blocked + turn.value.blocked;
        } else {
          DrainSkips(old(S()), S(), u, end, blocked);
        }
        u := u + 1;
      }
      return Ok(()), true, blocked;
    }

    // ---- Whole runs -----------------------------------------------------------------

    /** A new inbox over any file a previous process left. */
    constructor (file: map<nat, Record>, quarantined: set<nat>, buried: set<nat>, done: set<nat>, first: nat,
                 grouped: bool, everybody: bool, users: set<nat>)
      requires Initial(State(file, file, quarantined, buried, done, first, None, Idle, [], grouped, []))
      ensures Valid() && inbox == disk == file && quarantine == quarantined && decisions == buried && trace == []
      ensures !stopped && groups == grouped && allowAllInGroups == everybody && allowed == users
    {
      inbox, disk, quarantine, decisions, next := file, file, quarantined, buried, first;
      stopped, groups, allowAllInGroups, allowed, seen, uncertain := false, grouped, everybody, users, {}, {};
      confirmed, armed, pass, story, trace, faults := done, None, Idle, [], [], 0;
      new;
      Runs.Stay(Can, Do, S());
      assert Initial(S()) && Leads(S(), S());
    }

    /** The process starts again from the files. */
    method Restart()
      requires Valid()
      modifies this
      ensures Valid() && inbox == disk && disk == old(disk) && trace == old(trace) && !stopped
    {
      hide Reachable;
      inbox, armed, pass, story, stopped := disk, None, Idle, [], false;
      ReachableStep(old(S()), InboundProtocol.Crash);
    }

    /** A message arrives: admitted at most once, then the conversation is drained. */
    method Handle(id: nat, input: Input, full: bool) returns (r: Outcome<Arrival>)
      requires Valid()
      modifies this
      ensures Valid() && AllAccounted(old(S()), S()) && UncertainQuarantined(old(S()), S()) && old(trace) <= trace
      ensures old(stopped) ==> r == Ok(Ignored) && S() == old(S())
      ensures !old(stopped) && (id in old(quarantine) || id in old(decisions)) ==> r == Ok(Ignored) && S() == old(S())
      ensures !old(stopped) && r.Ok? ==> Taken(old(S()), id, full, r.value)
    {
      hide Reachable;
      if stopped { return Ok(Ignored); }
      r := Arrive(id, input, full);
      if r.IsFailure() || r.value.Ignored? || r.value.Full? || r.value.Unsaved? { return; }
      ghost var mid := S();
      var complete, blocked, drained;
      drained, complete, blocked := Drain();
      forall v | v in old(inbox) && v !in inbox ensures Accounted(old(S()), S(), v) {
        AccountedSince(old(S()), mid, S(), v);
      }
      if drained.IsFailure() { return drained.PropagateFailure(); }
    }

    /** What `handle` has done with a message that came while it was in the state `s`. */
    ghost predicate Taken(s: State, id: nat, full: bool, arrival: Arrival)
      reads this
    {
      match arrival
      case Ignored => (id in s.quarantine || id in s.decisions) && S() == s
      case Full => full && S() == s
      case Unsaved => !full && S() == s
      case Waiting => exists u :: u in s.inbox && s.inbox[u].id == id
      case Accepted => !full && s.next < next && |s.trace| < |trace| && trace[|s.trace|] == Admitted(s.next, id)
    }

    /** Any number of deliveries, retries, stops and crashes, in any order. */
    method Live(messages: seq<(nat, Input, bool)>)
      requires Valid()
      modifies this
      ensures Valid()
    {
      hide Reachable;
      var i := 0;
      while i < |messages|
        invariant Valid()
      {
        var outcome := Handle(messages[i].0, messages[i].1, messages[i].2);
        var died, poll: bool := outcome.Crashed?, *;
        if !died && poll {
          var drained, complete, blocked := Drain();
          died := drained.Crashed?;
        }
        if died { Restart(); }
        i := i + 1;
      }
    }
  }
}
