/** What holds of the inbox over all runs, from any inbox file, with crashes and failed saves anywhere. */
module InboundGuarantees {
  import opened Effects
  import opened InboundTypes
  import opened InboundProtocol
  import Runs

  lemma RunKeeps(s: State, t: State)
    requires Inv(s) && Leads(s, t)
    ensures Inv(t)
  {
    hide Inv, Can, Do;
    forall x, a | Inv(x) && Can(x, a) ensures Inv(Do(x, a)) { ActionKeeps(x, a); }
    Runs.Kept(Can, Do, Inv, s, t);
  }

  lemma ReachableInv(s: State)
    requires Reachable(s)
    ensures Inv(s)
  {
    var init :| Initial(init) && Leads(init, s);
    InitialInv(init);
    RunKeeps(init, s);
  }

  lemma ReachableRecord(s: State, u: nat)
    requires Reachable(s) && u in s.inbox
    ensures Coherent(s.inbox[u]) && u < s.next && u in s.disk
    ensures s.inbox[u].id in s.decisions ==> !s.inbox[u].chatSubmitting
    ensures s.inbox[u].chatSubmitted ==> u in s.confirmed
  {
    ReachableInv(s);
  }

  lemma ReachableBounds(s: State)
    requires Reachable(s)
    ensures forall u :: u in s.inbox ==> u < s.next
  {
    ReachableInv(s);
  }

  lemma ReachableRun(s: State, t: State)
    requires Reachable(s) && Leads(s, t)
    ensures Reachable(t)
  {
    var init :| Initial(init) && Leads(init, s);
    Runs.Chain(Can, Do, init, s, t);
  }

  lemma Further(s: State, t: State, a: Action)
    requires Leads(s, t) && Can(t, a)
    ensures Leads(s, Do(t, a))
  {
    hide Can, Do;
    Runs.OneMore(Can, Do, s, t, a);
  }

  lemma ReachableStep(s: State, a: Action)
    requires Reachable(s) && Can(s, a)
    ensures Reachable(Do(s, a))
  {
    hide Can, Do, Initial;
    var init :| Initial(init) && Leads(init, s);
    Further(init, s, a);
  }

  /**
   * A record never both mutates a task and submits to Chat, in either order.
   * Nor is it even handed over after a mutation, or posted after a handing over
   * that was saved.
   */
  lemma OneDestination(s: State, i: nat, j: nat)
    requires Reachable(s) && i < |s.trace| && j < |s.trace|
    requires s.trace[j].ChatPosted? || (s.trace[j].HandedOver? && (i < j || s.trace[j].durable))
    requires s.trace[i].Posted? && s.trace[i].uid == s.trace[j].uid
    ensures !Mutating(s.trace[i].body.operation)
    ensures s.trace[j].HandedOver? ==> i < j
  {
    ReachableInv(s);
    assert if i < j then MayFollow(s.trace[i], s.trace[j]) else MayFollow(s.trace[j], s.trace[i]);
  }

  /** All POSTs made for one record carry the same body, hence one binding and generation. */
  lemma StableRetries(s: State, i: nat, j: nat)
    requires Reachable(s) && i < |s.trace| && j < |s.trace|
    requires s.trace[i].Posted? && s.trace[j].Posted? && s.trace[i].uid == s.trace[j].uid
    ensures s.trace[i].body == s.trace[j].body
  {
    ReachableInv(s);
    if i != j {
      assert if i < j then MayFollow(s.trace[i], s.trace[j]) else MayFollow(s.trace[j], s.trace[i]);
    }
  }

  /** One Chat submission per record; if its outcome stayed unknown the input is retained or quarantined. */
  lemma ChatAtMostOnce(s: State, i: nat)
    requires Reachable(s) && i < |s.trace| && s.trace[i].ChatPosted?
    ensures forall j :: 0 <= j < |s.trace| && j != i && s.trace[j].ChatPosted? ==> s.trace[j].uid != s.trace[i].uid
    ensures s.trace[i].uid in s.confirmed || s.trace[i].id in s.quarantine
            || (s.trace[i].uid in s.inbox && s.trace[i].uid in s.disk && s.disk[s.trace[i].uid].chatSubmitting)
  {
    ReachableInv(s);
    var e := s.trace[i];
    forall j | 0 <= j < |s.trace| && j != i && s.trace[j].ChatPosted? ensures s.trace[j].uid != e.uid {
      assert if i < j then MayFollow(e, s.trace[j]) else MayFollow(s.trace[j], e);
    }
    assert e in s.trace;
    if e.uid !in s.confirmed && e.id !in s.quarantine {
      assert e.uid in s.disk && e.uid in s.inbox;
      assert Fits(s.disk[e.uid], e.uid, e, s.groups);
    }
  }

  /** Versioned POSTs for one binding go out in arrival order, none with an input of that binding waiting ahead. */
  lemma ArrivalOrder(s: State, i: nat, j: nat)
    requires Reachable(s) && i < j < |s.trace| && s.trace[i].Posted? && s.trace[j].Posted?
    requires SameVersionedBinding(s.trace[i].body, s.trace[j].body)
    ensures s.trace[i].uid <= s.trace[j].uid && s.trace[j].ahead == {}
  {
    ReachableInv(s);
    assert MayFollow(s.trace[i], s.trace[j]) && Recorded(s.trace[j], s);
  }

  /** A quarantined or tombstoned message is never admitted again. */
  lemma NeverReadmitted(s: State, i: nat, j: nat)
    requires Reachable(s) && i < j < |s.trace| && s.trace[j].Admitted?
    requires s.trace[i].Quarantined? || s.trace[i].Tombstoned?
    ensures s.trace[i].id != s.trace[j].id
  {
    ReachableInv(s);
    assert MayFollow(s.trace[i], s.trace[j]);
  }

  lemma StepExtends(s: State, a: Action)
    ensures s.trace <= Do(s, a).trace
  {
  }

  lemma RunExtends(s: State, t: State)
    requires Leads(s, t)
    ensures s.trace <= t.trace
  {
    hide Can, Do;
    var longer := (x: State) => s.trace <= x.trace;
    forall x, a | longer(x) && Can(x, a) ensures longer(Do(x, a)) { StepExtends(x, a); }
    Runs.Kept(Can, Do, longer, s, t);
  }

  lemma QuarantineEvolves(r: Record, groups: bool)
    requires Coherent(r)
    ensures Evolves(r, r.(quarantined := true), groups)
  {
  }
}
