/** Over all runs: what is pinned to a task or given to Chat was so decided in the preflight of that record. */
module InboundAnswers {
  import opened Effects
  import opened InboundTypes
  import opened InboundProtocol
  import opened InboundGuarantees
  import Runs

  /** In the preflight of record `u` the service said that no task claims the message. */
  ghost predicate FreedFor(tr: seq<Event>, u: nat, input: Input) {
    exists e :: e in tr && e.Heard? && e.uid == u && e.what.Routed? && DestinationOf(input, e.what.decision) == ToChat
  }

  /** In the preflight of record `u` the service named that binding and generation. */
  ghost predicate NamedFor(tr: seq<Event>, u: nat, pin: Option<Pin>) {
    exists e :: e in tr && e.Heard? && e.uid == u && e.what.Routed? &&
                e.what.decision.binding.Some? && e.what.decision.binding.value.pin == pin
  }

  ghost predicate Decided(r: Record, u: nat, tr: seq<Event>) {
    && (r.input.operation == Message && r.chatHandoff ==> FreedFor(tr, u, r.input))
    && (!Unpinned(r) ==> NamedFor(tr, u, r.prepared.value.expected))
  }

  ghost predicate AllDecided(m: map<nat, Record>, tr: seq<Event>, first: nat) {
    forall u :: u in m && u >= first ==> Decided(m[u], u, tr)
  }

  /** The story of a handling is about its record, and part of the trace. */
  ghost predicate StoryKnown(s: State) {
    s.pass.In? ==> forall e :: e in s.story ==> e in s.trace && (e.Heard? ==> e.uid == s.pass.uid)
  }

  ghost predicate PostsDecided(tr: seq<Event>, first: nat) {
    forall e :: e in tr && e.Posted? && e.uid >= first && e.body.expected.Some? ==> NamedFor(tr, e.uid, e.body.expected)
  }

  /** Records from `first` on are those admitted in the run. */
  ghost predicate Backed(s: State, first: nat) {
    && Inv(s) && first <= s.next && StoryKnown(s) && PostsDecided(s.trace, first)
    && AllDecided(s.inbox, s.trace, first) && AllDecided(s.disk, s.trace, first)
  }

  lemma DecidedLater(r: Record, u: nat, tr: seq<Event>, later: seq<Event>)
    requires Decided(r, u, tr) && tr <= later
    ensures Decided(r, u, later)
  {
  }

  lemma AllDecidedLater(m: map<nat, Record>, tr: seq<Event>, later: seq<Event>, first: nat)
    requires AllDecided(m, tr, first) && tr <= later
    ensures AllDecided(m, later, first)
  {
    hide Decided;
    forall u | u in m && u >= first ensures Decided(m[u], u, later) { DecidedLater(m[u], u, tr, later); }
  }

  lemma StoryStep(s: State, a: Action)
    requires StoryKnown(s) && Can(s, a)
    ensures StoryKnown(Do(s, a))
  {
    hide MayFreeze, MayTell, MayHandOff, MayPost, Evolves, Eligible, Final, Ahead, Justified, Selects;
  }

  lemma HandOffDecided(s: State, u: nat)
    requires StoryKnown(s) && Can(s, HandOff(u)) && Decided(s.inbox[u], u, s.trace)
    ensures Decided(s.inbox[u].(chatHandoff := true), u, s.trace)
  {
    hide NeedsPreflight, NamedFor, DestinationOf, Legacy;
    if s.inbox[u].input.operation == Message {
      var e :| e in s.story && e.Heard? && e.what.Routed? &&
               DestinationOf(s.inbox[u].input, e.what.decision) == ToChat;
      assert e in s.trace;
    }
  }

  lemma UpdateDecided(s: State, u: nat, to: Record)
    requires StoryKnown(s) && Can(s, Update(u, to)) && Decided(s.inbox[u], u, s.trace)
    ensures Decided(to, u, s.trace)
  {
    hide NeedsPreflight, FreedFor, Coherent;
    if Unpinned(s.inbox[u]) && !Unpinned(to) {
      var pin := to.prepared.value.expected;
      var e :| e in s.story && e.Heard? && e.what.Routed? &&
               e.what.decision.binding.Some? && e.what.decision.binding.value.pin == pin;
      assert e in s.trace;
    }
  }

  /** Other actions leave the record's input, destination and handing over alone. */
  lemma OtherwiseSame(s: State, a: Action, u: nat)
    requires u in s.inbox && u in Do(s, a).inbox && !a.Crash? && !a.Update? && (a.Admit? ==> u < s.next)
    requires a.HandOff? ==> a.uid != u
    ensures var r, t := s.inbox[u], Do(s, a).inbox[u];
            t.input == r.input && t.prepared == r.prepared && t.chatHandoff == r.chatHandoff
  {
    hide Final, Ahead;
  }

  lemma SameDecided(r: Record, t: Record, u: nat, tr: seq<Event>)
    requires Decided(r, u, tr) && t.input == r.input && t.prepared == r.prepared && t.chatHandoff == r.chatHandoff
    ensures Decided(t, u, tr)
  {
  }

  /** One record after one action: as it was, or changed by its own handling. */
  lemma RecordStep(s: State, a: Action, u: nat)
    requires StoryKnown(s) && Can(s, a) && u in s.inbox && u in Do(s, a).inbox && Decided(s.inbox[u], u, s.trace)
    requires !a.Crash? && (a.Admit? ==> u < s.next)
    ensures Decided(Do(s, a).inbox[u], u, Do(s, a).trace)
  {
    hide Can, Decided, StoryKnown, Final, Ahead;
    var t := Do(s, a);
    StepExtends(s, a);
    if a.Update? && a.uid == u {
      UpdateDecided(s, u, a.to);
    } else if a.HandOff? && a.uid == u {
      HandOffDecided(s, u);
    } else if !a.Update? {
      OtherwiseSame(s, a, u);
      SameDecided(s.inbox[u], t.inbox[u], u, s.trace);
    }
    DecidedLater(t.inbox[u], u, s.trace, t.trace);
  }

  lemma InboxStep(s: State, a: Action, first: nat)
    requires Backed(s, first) && Can(s, a)
    ensures AllDecided(Do(s, a).inbox, Do(s, a).trace, first)
  {
    hide Decided, Can, Inv, StoryKnown, PostsDecided;
    var t := Do(s, a);
    StepExtends(s, a);
    InboxBound(s);
    AllDecidedLater(s.inbox, s.trace, t.trace, first);
    AllDecidedLater(s.disk, s.trace, t.trace, first);
    forall u | u in t.inbox && u >= first ensures Decided(t.inbox[u], u, t.trace) {
      if a.Crash? {
      } else if a.Admit? && u == s.next {
        FreshDecided(u, a.id, a.input, t.trace);
      } else {
        NothingNew(s, a, u);
        RecordStep(s, a, u);
      }
    }
  }

  lemma NothingNew(s: State, a: Action, u: nat)
    requires Can(s, a) && u in Do(s, a).inbox && !a.Crash? && (a.Admit? ==> u != s.next)
    ensures u in s.inbox
  {
  }

  lemma InboxBound(s: State)
    requires Inv(s)
    ensures forall u :: u in s.inbox ==> u < s.next
  {
  }

  lemma FreshDecided(u: nat, id: nat, input: Input, tr: seq<Event>)
    ensures Decided(Fresh(id, input), u, tr)
  {
  }

  lemma DiskStep(s: State, a: Action, first: nat)
    requires Backed(s, first) && Can(s, a)
    ensures AllDecided(Do(s, a).disk, Do(s, a).trace, first)
  {
    hide Decided, Can, Inv, StoryKnown, PostsDecided;
    InboxStep(s, a, first);
    StepExtends(s, a);
    AllDecidedLater(s.disk, s.trace, Do(s, a).trace, first);
    AllDecidedLater(s.inbox, s.trace, Do(s, a).trace, first);
  }

  lemma PostStep(s: State, a: Action, first: nat)
    requires Backed(s, first) && Can(s, a)
    ensures PostsDecided(Do(s, a).trace, first)
  {
    hide Can, Inv, StoryKnown, NamedFor;
    var t := Do(s, a);
    StepExtends(s, a);
    forall e | e in t.trace && e.Posted? && e.uid >= first && e.body.expected.Some?
      ensures NamedFor(t.trace, e.uid, e.body.expected)
    {
      if e in s.trace {
        NamedLater(s.trace, t.trace, e.uid, e.body.expected);
      } else {
        PostNamed(s, a);
        NamedLater(s.trace, t.trace, e.uid, e.body.expected);
      }
    }
  }

  lemma PostNamed(s: State, a: Action)
    requires Can(s, a) && a.Post?
    ensures a.uid in s.inbox && s.inbox[a.uid].prepared.Some?
  {
  }

  lemma NamedLater(tr: seq<Event>, later: seq<Event>, u: nat, pin: Option<Pin>)
    requires NamedFor(tr, u, pin) && tr <= later
    ensures NamedFor(later, u, pin)
  {
  }

  lemma BackedStep(s: State, a: Action, first: nat)
    requires Backed(s, first) && Can(s, a)
    ensures Backed(Do(s, a), first)
  {
    hide Can, Do, Inv, StoryKnown, PostsDecided, AllDecided;
    ActionKeeps(s, a);
    StoryStep(s, a);
    InboxStep(s, a, first);
    DiskStep(s, a, first);
    PostStep(s, a, first);
    NextGrows(s, a);
  }

  lemma NextGrows(s: State, a: Action)
    ensures s.next <= Do(s, a).next
  {
  }

  lemma StartBacked(s: State)
    requires Inv(s) && s.pass.Idle?
    ensures Backed(s, s.next)
  {
    forall e | e in s.trace && e.Posted? ensures e.uid < s.next { assert Recorded(e, s); }
  }

  /**
   * In every run from a fresh start, with crashes and restarts: a message admitted in
   * it is Chat's only if the service said in that record's preflight that no
   * task claims it, and a destination is only ever one that the service named
   * there, in the record, its file and every request.
   */
  lemma DestinationsAreDecided(s: State, t: State)
    requires Reachable(s) && s.pass.Idle? && Leads(s, t)
    ensures AllDecided(t.inbox, t.trace, s.next) && AllDecided(t.disk, t.trace, s.next)
    ensures PostsDecided(t.trace, s.next)
  {
    hide Can, Do, Inv, Reachable;
    ReachableInv(s);
    StartBacked(s);
    var backed := (x: State) => Backed(x, s.next);
    forall x, a | backed(x) && Can(x, a) ensures backed(Do(x, a)) { BackedStep(x, a, s.next); }
    Runs.Kept(Can, Do, backed, s, t);
  }
}
