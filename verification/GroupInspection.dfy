/**
 * Inspecting a group and inviting its leader, in the form of the source.
 *
 * The attempt ledger and the web job state live in one file that is written as a
 * whole and renamed.  Inspections of one group run one at a time; what happens
 * between two of their steps is that others save the file and that time passes.
 */
module GroupInspection {
  import opened Effects
  import opened GroupRouting
  import opened GroupAdmission
  import opened GroupStories
  import opened Mentions

  /** Every robot in `robots` was looked up since `from`. */
  ghost predicate AllProbed(tr: seq<Event>, from: nat, job: JobKey, robots: seq<nat>) {
    forall robot :: robot in robots ==> WasProbed(tr, from, job, robot)
  }

  ghost predicate WasProbed(tr: seq<Event>, from: nat, job: JobKey, robot: nat) {
    exists k :: from <= k < |tr| && tr[k] == Probed(job, robot)
  }

  lemma ProbedLater(tr: seq<Event>, now: seq<Event>, from: nat, job: JobKey, robot: nat)
    requires WasProbed(tr, from, job, robot) && tr <= now
    ensures WasProbed(now, from, job, robot)
  {
  }

  lemma LastOf(tr: seq<Event>, now: seq<Event>, e: Event)
    requires now == tr + [e]
    ensures now[|now| - 1] == e && now[|tr|] == e
  {
  }

  class IssueGroups {
    var attempts: map<InviteKey, Attempt>
    var jobs: map<JobKey, JobState>
    var savedAttempts: map<InviteKey, Attempt>
    var savedJobs: map<JobKey, JobState>
    var clock: nat
    ghost var trace: seq<Event>

    /** The budget holds, and both copies of the ledger account for every invitation issued. */
    ghost predicate Valid()
      reads this
    {
      && LedgerOk(trace, attempts) && LedgerOk(trace, savedAttempts) && BudgetKept(trace)
      && Verified(trace)
      && JobsOk(trace, jobs) && JobsOk(trace, savedJobs)
    }

    constructor ()
      ensures Valid() && trace == []
    {
      attempts, jobs, savedAttempts, savedJobs, trace := map[], map[], map[], map[], [];
      clock := *;
    }

    // ---- Effects ---------------------------------------------------------------

    method Save() returns (r: Outcome<()>)
      requires Valid()
      modifies this`savedAttempts, this`savedJobs
      ensures old(jobs == savedJobs) ==> jobs == savedJobs
      ensures Valid()
      ensures r.Ok? ==> savedAttempts == attempts && savedJobs == jobs
    {
      r := *;
      var renamed: bool := *;
      if r.Ok? || (r.Crashed? && renamed) { savedAttempts, savedJobs := attempts, jobs; }
    }

    /** A save whose failure ends the work. */
    method MustSave() returns (r: Outcome<()>)
      requires Valid()
      modifies this`savedAttempts, this`savedJobs, this`trace
      ensures old(jobs == savedJobs) ==> jobs == savedJobs
      ensures Valid() && (r.Thrown? ==> r.status == 0)
      ensures r.Ok? ==> savedAttempts == attempts && savedJobs == jobs
      ensures trace == old(trace) + if r.Thrown? then [Failed(0)] else []
    {
      r := Save();
      if r.Thrown? {
        Log(Failed(0));
        r := Thrown(0);
      }
    }

    /** The clock never goes back, over restarts as well. */
    method Now() returns (t: nat)
      modifies this`clock
      ensures old(clock) <= t == clock
    {
      var later: nat := *;
      if clock < later { clock := later; }
      t := clock;
    }

    /** An await: inspections of other groups may save the file. */
    method Ask<T(0)>() returns (r: Outcome<T>)
      requires Valid()
      modifies this`savedAttempts, this`savedJobs, this`clock
      ensures old(jobs == savedJobs) ==> jobs == savedJobs
      ensures Valid() && old(clock) <= clock
    {
      var others: bool := *;
      if others { var saved := Save(); }
      var now := Now();
      r := *;
    }

    /** A roster or a list of bots, as the group's service gives it to `caller`. */
    method ReadGroup(caller: Entry, group: nat) returns (r: Outcome<Roster>)
      requires Valid()
      modifies this`savedAttempts, this`savedJobs, this`clock, this`trace
      ensures old(jobs == savedJobs) ==> jobs == savedJobs
      ensures Valid() && old(trace) <= trace
      ensures r.Ok? ==> trace == old(trace) + [ReadBy(caller, group, r.value)]
      ensures r.Thrown? ==> trace == old(trace) + [Failed(r.status)]
      ensures r.Crashed? ==> trace == old(trace)
    {
      r := Ask();
      if r.Ok? { Log(ReadBy(caller, group, r.value)); }
      if r.Thrown? { Log(Failed(r.status)); }
    }

    /** The configured robots of an agent, or one robot's. */
    method Lookup(asked: Asked) returns (r: Outcome<seq<Entry>>)
      requires Valid()
      modifies this`savedAttempts, this`savedJobs, this`clock, this`trace
      ensures old(jobs == savedJobs) ==> jobs == savedJobs
      ensures Valid() && old(trace) <= trace && (r.Thrown? ==> r.status == 0)
      ensures !r.Crashed? ==> trace == old(trace) + [Listed(asked, if r.Ok? then Some(r.value) else None)]
      ensures r.Crashed? ==> trace == old(trace)
    {
      r := Ask();
      if !r.Crashed? { Log(Listed(asked, if r.Ok? then Some(r.value) else None)); }
      if r.Thrown? { r := Thrown(0); }
    }

    /** Work is cancelled when the relay stops, or when it took too long. */
    method Cancelled() returns (c: bool)
      requires Valid()
      modifies this`trace
      ensures Valid() && trace == old(trace) + if c then [Failed(0)] else []
    {
      c := *;
      if c { Log(Failed(0)); }
    }

    ghost method Log(e: Event)
      requires Valid() && !e.Invited? && Agrees(e, jobs) && Agrees(e, savedJobs)
      modifies this`trace
      ensures Valid() && trace == old(trace) + [e]
    {
      OtherKeeps(trace, attempts, e);
      OtherKeeps(trace, savedAttempts, e);
      trace := trace + [e];
    }

    // ---- The invitation budget ----------------------------------------------------

    /** What one turn of the invitation may leave behind. */
    ghost predicate InviteTurn(before: seq<Event>, ledger: map<InviteKey, Attempt>, key: InviteKey, caller: nat,
        target: nat, sender: Option<nat>, r: Outcome<Reason>)
      reads this
    {
      || (trace == before && r.Ok? && attempts == ledger)
      || (trace == before && r.Crashed?)
      || (trace == before + [Failed(0)] && r == Thrown(0))
      || (before <= trace
          && exists at :: Allowed(ledger, key, at)
                          && Issued(trace[|before|..], Invited(key, caller, target, at, sender), r))
    }

    /** Counts, saves, and only then invites. */
    method MaybeInvite(caller: Entry, target: Entry, key: InviteKey, sender: Option<nat>) returns (r: Outcome<Reason>)
      requires Valid() && key.robot == target.robot && trace != []
      requires sender.Some? ==> Agrees(Invited(key, caller.app, target.app, 0, sender), jobs)
      requires var last := trace[|trace| - 1];
               last.Read? && last.caller == caller.app && last.group == key.group && caller.app in last.bots
               && (sender.Some? ==> sender.value in last.people && target.app !in last.bots)
      modifies this
      ensures Valid() && old(trace) <= trace && jobs == old(jobs)
      ensures old(key in attempts && attempts[key].count >= MAX_ATTEMPTS) ==> trace == old(trace)
      ensures InviteTurn(old(trace), old(attempts), key, caller.app, target.app, sender, r)
      ensures trace != old(trace) ==>
                key in attempts && attempts[key].count == 1 + old(if key in attempts then attempts[key].count else 0)
      ensures old(attempts.Keys) <= attempts.Keys && (r.Ok? ==> key in attempts && r.value == attempts[key].reason)
      ensures r.Ok? && trace == old(trace) ==> !Allowed(attempts, key, old(clock))
    {
      hide LedgerOk, BudgetKept, Verified, JobsOk, Agrees, Issued, Justifies;
      var checked := Now();
      if key in attempts && (attempts[key].count >= MAX_ATTEMPTS || attempts[key].next > checked) {
        return Ok(attempts[key].reason);
      }
      var now := Now();
      ghost var before, start := attempts, trace;
      Count(key, checked, now);
      var saved :- MustSave();
      assert trace == start;
      Issue(caller, target, key, before, checked, now, sender);
      r := Answer(key);
      ghost var e := Invited(key, caller.app, target.app, now, sender);
      AnswerIssues(trace[|start|..], e, attempts[key].reason, r);
      assert trace[|start|..] == trace[|old(trace)|..] && Allowed(before, key, now);
    }

    /** One more attempt is counted, in memory. */
    method Count(key: InviteKey, checked: nat, now: nat)
      requires Valid() && Allowed(attempts, key, checked) && checked <= now
      modifies this`attempts
      ensures Valid() && attempts == old(attempts)[key := NextAttempt(old(attempts), key, now)]
    {
      CountKeeps(trace, attempts, key, checked, now);
      attempts := attempts[key := NextAttempt(attempts, key, now)];
    }

    ghost method Issue(caller: Entry, target: Entry, key: InviteKey, before: map<InviteKey, Attempt>,
        checked: nat, at: nat, sender: Option<nat>)
      requires Valid() && LedgerOk(trace, before) && Allowed(before, key, checked) && checked <= at
      requires attempts == savedAttempts == before[key := NextAttempt(before, key, at)] && jobs == savedJobs
      requires sender.Some? ==> Agrees(Invited(key, caller.app, target.app, 0, sender), jobs)
      requires trace != [] && Justifies(trace[|trace| - 1], Invited(key, caller.app, target.app, at, sender))
      modifies this`trace
      ensures Valid() && trace == old(trace) + [Invited(key, caller.app, target.app, at, sender)]
    {
      var e := Invited(key, caller.app, target.app, at, sender);
      InvitationKeeps(trace, before, key, checked, at, e);
      InvitationLedger(trace, attempts, e);
      trace := trace + [e];
    }

    /** The answer only changes the reason that the ledger gives. */
    method Answer(key: InviteKey) returns (r: Outcome<Reason>)
      requires Valid() && key in attempts
      modifies this`attempts, this`savedAttempts, this`savedJobs, this`clock, this`trace
      ensures Valid()
      ensures key in attempts && attempts == old(attempts)[key := old(attempts[key]).(reason := attempts[key].reason)]
      ensures r.Ok? ==> r.value == attempts[key].reason && trace == old(trace) + [Replied(key, r.value)]
      ensures r.Thrown? ==> r.status == 0 && trace == old(trace) + [Replied(key, attempts[key].reason), Failed(0)]
      ensures r.Crashed? ==> trace == old(trace) || trace == old(trace) + [Replied(key, attempts[key].reason)]
      ensures attempts[key].reason in {InvitationPending, ApprovalPending, InvitationFailed, MembershipUnconfirmed} ||
                attempts[key].reason == old(attempts[key].reason)
    {
      hide BudgetKept, Verified, JobsOk;
      var answer: Outcome<Reason> := Ask();
      if answer.Crashed? { return Crashed; }
      // Anything but the three answers of the service is an error.
      var reason := if answer.Ok? && answer.value in {ApprovalPending, InvitationFailed, MembershipUnconfirmed} then
          answer.value
                    else InvitationFailed;
      attempts := attempts[key := attempts[key].(reason := reason)];
      Log(Replied(key, reason));
      var saved :- MustSave();
      return Ok(reason);
    }

    // ---- Inspecting a bound group ----------------------------------------------------

    /** `inspectSerial`: what was listed and read decides the result, and nothing else does. */
    method InspectSerial(scopeRobot: nat, key: InviteKey, team: Team, configured: bool, invite: bool, bootstrap: bool)
      returns (r: Outcome<Inspection>)
      requires Valid()
      modifies this
      ensures Valid() && old(trace) <= trace
      ensures !configured || team.leader !in team.agents ==>
                r == Ok(Absent(LeaderConfigurationMissing)) && trace == old(trace)
      ensures configured && team.leader in team.agents && !r.Crashed? ==>
                && |trace| > |old(trace)| && var first := trace[|old(trace)|];
                && first.Listed? && first.asked == ForAgent(team.leader)
                && (first.entries.None? ==> r == Thrown(0) && |trace| == |old(trace)| + 1)
                && (first.entries.Some? ==>
                      && r.Ok?
                      && EntriesStory(trace[|old(trace)| + 1..], key, scopeRobot, first.entries.value, team.leader,
                                      invite, bootstrap, attempts, r.value))
      ensures r.Ok? && r.value.Present? ==>
                var o := r.value.observation;
                && Inspected(o) && o.leaderPresent && o.leader in o.entries && o.leader.agent == team.leader
                && (forall e :: e in o.entries && e.agent == team.leader ==> e == o.leader)
                && |trace| > |old(trace)| && trace[|trace| - 1].Read? && trace[|trace| - 1].bots == o.members
      ensures !invite ==> forall k :: |old(trace)| <= k < |trace| ==> !trace[k].Invited?
    {
      hide LedgerOk, BudgetKept, Verified, JobsOk, EntriesStory;
      if !configured || team.leader !in team.agents { return Ok(Absent(LeaderConfigurationMissing)); }
      var entries: seq<Entry> :- Lookup(ForAgent(team.leader));
      ghost var listed := trace;
      assert listed[|old(trace)|] == Listed(ForAgent(team.leader), Some(entries));
      r := InspectEntries(scopeRobot, key, team.leader, entries, invite, bootstrap);
      assert |old(trace)| + 1 == |listed|;
    }

    /** The inspection, once the configured robots are known. */
    method InspectEntries(scopeRobot: nat, key: InviteKey, agent: nat, entries: seq<Entry>, invite: bool,
        bootstrap: bool)
      returns (r: Outcome<Inspection>)
      requires Valid()
      modifies this
      ensures Valid() && old(trace) <= trace && !r.Thrown?
      ensures r.Ok? ==>
                EntriesStory(trace[|old(trace)|..], key, scopeRobot, entries, agent, invite, bootstrap, attempts,
                    r.value)
      ensures r.Ok? && r.value.Present? ==>
                var o := r.value.observation;
                && Inspected(o) && o.leaderPresent && o.leader in o.entries && o.leader.agent == agent
                && (forall e :: e in o.entries && e.agent == agent ==> e == o.leader)
                && |trace| > |old(trace)| && trace[|trace| - 1].Read? && trace[|trace| - 1].bots == o.members
      ensures !invite ==> forall k :: |old(trace)| <= k < |trace| ==> !trace[k].Invited?
    {
      hide LedgerOk, BudgetKept, Verified, JobsOk, ReadStory;
      var candidates := OfAgent(entries, agent);
      if |candidates| != 1 { return Ok(Absent(LeaderMissingOrAmbiguous)); }
      var leader := candidates[0];
      assert leader in candidates;
      assert forall e :: e in entries && e.agent == agent ==> e in candidates;
      AppsCounted(entries);
      var apps := set e <- entries :: e.app;
      if |apps| != |entries| { return Ok(Absent(LeaderMissingOrAmbiguous)); }
      if !leader.client || !leader.send { return Ok(Absent(LeaderUnavailable)); }
      ghost var first, more, asker;
      r, first, more, asker := Observe(scopeRobot, key, entries, leader, invite, bootstrap);
      if r.Thrown? {
        assert trace[|old(trace)|..] == first + more;
        return Ok(Absent(MembershipCheckFailed));
      }
      if r.Ok? { assert trace[|old(trace)|..] == first + more; }
    }

    /** The robot that asks: the leader, or on a bootstrap whoever was addressed. */
    method FirstRead(scopeRobot: nat, group: nat, entries: seq<Entry>, leader: Entry, bootstrap: bool)
      returns (r: Outcome<(Entry, Roster)>, ghost said: seq<Event>)
      requires Valid()
      modifies this`savedAttempts, this`savedJobs, this`clock, this`trace
      ensures Valid() && trace == old(trace) + said
      ensures r.Ok? ==>
                && FirstStory(said, group, Connected(entries, scopeRobot), leader, bootstrap, r.value.0)
                && said != [] && said[|said| - 1].Read? && RosterOf(said[|said| - 1]) == r.value.1
      ensures r.Thrown? ==> GaveUp(said, Connected(entries, scopeRobot), leader, bootstrap)
      ensures forall k :: 0 <= k < |said| ==> !said[k].Invited?
    {
      hide LedgerOk, BudgetKept, Verified, JobsOk;
      var own := Connected(entries, scopeRobot);
      var caller := leader;
      var members := ReadGroup(leader, group);
      said := trace[|old(trace)|..];
      if members.Crashed? { return Crashed, said; }
      if members.Thrown? {
        if !bootstrap || own.None? || own.value == leader { return Thrown(0), said; }
        caller := own.value;
        members := ReadGroup(caller, group);
        said := trace[|old(trace)|..];
        if !members.Ok? { return members.PropagateFailure(), said; }
      }
      if bootstrap && leader.app !in members.value.bots { caller := own.GetOr(leader); }
      return Ok((caller, members.value)), said;
    }

    /** Since `from`, a read of the group before `k` did not show the application. */
    ghost predicate ShownAbsent(from: nat, k: int, group: nat, app: nat)
      reads this
    {
      exists j :: from <= j < k && j < |trace| && trace[j].Read? && trace[j].group == group && app !in trace[j].bots
    }

    method Observe(scopeRobot: nat, key: InviteKey, entries: seq<Entry>, leader: Entry, invite: bool, bootstrap: bool)
      returns (r: Outcome<Inspection>, ghost first: seq<Event>, ghost more: seq<Event>, ghost asker: Entry)
      requires Valid() && leader.client && leader.send
      modifies this
      ensures Valid() && trace == old(trace) + first + more
      ensures r.Ok? ==>
                ReadStory(first, more, key, scopeRobot, entries, leader, asker, invite, bootstrap, attempts, r.value)
      ensures r.Thrown? ==> GaveUp(first + more, Connected(entries, scopeRobot), leader, bootstrap)
      ensures r.Ok? && r.value.Present? ==>
                && r.value.observation == Observation(true, leader, entries, r.value.observation.members)
                && leader.app in r.value.observation.members
                && |trace| > |old(trace)| && trace[|trace| - 1].Read? &&
                    trace[|trace| - 1].bots == r.value.observation.members
      ensures !invite ==> forall k :: |old(trace)| <= k < |trace| ==> !trace[k].Invited?
      ensures forall k :: |old(trace)| <= k < |trace| && trace[k].Invited? ==>
                ShownAbsent(|old(trace)|, k, key.group, leader.app)
    {
      hide LedgerOk, BudgetKept, Verified, JobsOk, FirstStory, MoreStory;
      more, asker := [], leader;
      var read;
      read, first := FirstRead(scopeRobot, key.group, entries, leader, bootstrap);
      assert old(trace) + first + [] == old(trace) + first;
      if read.IsFailure() { return read.PropagateFailure(), first, more, asker; }
      var (caller, roster) := read.value;
      asker := caller;
      ghost var seen := |trace| - 1;
      assert trace[seen] == first[|first| - 1] && trace[seen].group == key.group by {
        FirstReadsGroup(first, key.group, Connected(entries, scopeRobot), leader, bootstrap, caller);
      }
      r, more := After(roster.bots, trace[seen], key, entries, leader, caller, invite);
      assert trace == old(trace) + (first + more);
      if r.Ok? {
        ReadStoryMeans(first, more, key, scopeRobot, entries, leader, asker, invite, bootstrap, attempts, r.value);
      }
      forall k | |old(trace)| <= k < |trace| && trace[k].Invited?
        ensures ShownAbsent(|old(trace)|, k, key.group, leader.app)
      {
        assert k > seen && leader.app !in first[|first| - 1].bots && trace[seen] == first[|first| - 1];
      }
    }

    /** The first read reads the group. */
    lemma FirstReadsGroup(said: seq<Event>, group: nat, own: Option<Entry>, leader: Entry, bootstrap: bool,
        asker: Entry)
      requires FirstStory(said, group, own, leader, bootstrap, asker)
      ensures said != [] && said[|said| - 1].Read? && said[|said| - 1].group == group
    {
    }

    /** What follows the first read: an invitation, if the leader is missing and may be invited, and another look. */
    method After(members: set<nat>, ghost first: Event, key: InviteKey, entries: seq<Entry>, leader: Entry,
        caller: Entry, invite: bool)
      returns (r: Outcome<Inspection>, ghost more: seq<Event>)
      requires Valid() && first.Read? && first.bots == members
      modifies this
      ensures Valid() && trace == old(trace) + more
      ensures r.Ok? ==> MoreStory(first, more, key, entries, leader, caller, invite, attempts, r.value)
      ensures r.Thrown? ==> more != [] && more[|more| - 1].Failed?
      ensures !invite || leader.app in first.bots ==> more == []
    {
      hide LedgerOk, BudgetKept, Verified, JobsOk;
      more := [];
      if leader.app !in members && invite {
        r, more := InviteAndLook(key, entries, leader, caller);
      } else if leader.app !in members {
        r := Ok(Absent(LeaderNotInGroup));
      } else {
        r := Ok(Present(Observation(true, leader, entries, members)));
      }
    }

    /** The reads around an invitation. */
    method InviteAndLook(key: InviteKey, entries: seq<Entry>, leader: Entry, caller: Entry)
      returns (r: Outcome<Inspection>, ghost more: seq<Event>)
      requires Valid()
      modifies this
      ensures Valid() && trace == old(trace) + more
      ensures r.Ok? ==> InvitedStory(more, key, entries, leader, caller, attempts, r.value)
      ensures r.Thrown? ==> more != [] && more[|more| - 1].Failed?
    {
      hide LedgerOk, BudgetKept, Verified, JobsOk, Allowed;
      // A list that can be read does not prove that its reader is in the group.
      var again := ReadGroup(caller, key.group);
      more := trace[|old(trace)|..];
      if again.IsFailure() { return again.PropagateFailure(), more; }
      if caller.app !in again.value.bots { return Ok(Absent(InviterNotInGroup)), more; }
      ghost var before, ledger := trace, attempts;
      assert more == [ReadBy(caller, key.group, again.value)];
      var full := key.(robot := leader.robot);
      var reason := MaybeInvite(caller, leader, full, None);
      ghost var mid := trace[|before|..];
      more := trace[|old(trace)|..];
      InviteEnds(before, ledger, full, caller, leader, reason);
      if reason.IsFailure() { return reason.PropagateFailure(), more; }
      r, more := LookAgain(more, mid, key, entries, leader, caller, reason.value);
      assert trace == old(trace) + more;
    }

    /** Only a fresh read proves that an accepted invitation took effect. */
    method LookAgain(ghost so: seq<Event>, ghost mid: seq<Event>, key: InviteKey, entries: seq<Entry>,
        leader: Entry, caller: Entry, reason: Reason)
      returns (r: Outcome<Inspection>, ghost more: seq<Event>)
      requires Valid() && |so| >= 1 && so[1..] == mid && ReadsGroup(so[0], caller, key.group)
      requires caller.app in so[0].bots && InviteStory(mid, key.(robot := leader.robot), caller, leader)
      requires key.(robot := leader.robot) in attempts && attempts[key.(robot := leader.robot)].reason == reason
      modifies this
      ensures Valid() && |more| >= |so| && more[..|so|] == so && trace == old(trace) + more[|so|..]
      ensures r.Ok? ==> InvitedStory(more, key, entries, leader, caller, attempts, r.value)
      ensures r.Thrown? ==> more != [] && more[|more| - 1].Failed?
    {
      hide LedgerOk, BudgetKept, Verified, JobsOk;
      var after := ReadGroup(caller, key.group);
      ghost var last := trace[|old(trace)|..];
      more := so + last;
      assert more[|so|..] == last;
      if after.IsFailure() { return after.PropagateFailure(), more; }
      assert more[1..|more| - 1] == mid;
      if leader.app !in after.value.bots { return Ok(Absent(reason)), more; }
      return Ok(Present(Observation(true, leader, entries, after.value.bots))), more;
    }

    lemma InviteEnds(before: seq<Event>, ledger: map<InviteKey, Attempt>, key: InviteKey, caller: Entry,
        leader: Entry, r: Outcome<Reason>)
      requires InviteTurn(before, ledger, key, caller.app, leader.app, None, r)
      ensures before <= trace
      ensures r.Ok? ==> InviteStory(trace[|before|..], key, caller, leader)
      ensures r.Thrown? ==> |trace| > |before| && trace[|trace| - 1].Failed?
    {
      if r.Ok? && trace == before { assert trace[|before|..] == []; }
    }

    // ---- Web requests ------------------------------------------------------------------

    /** Fixes the generation's target before anything else; `None` when the generation has another one. */
    method PinTarget(job: WebJob) returns (r: Outcome<()>)
      requires Valid()
      modifies this`jobs, this`savedAttempts, this`savedJobs, this`trace
      ensures Valid() && old(trace) <= trace
      ensures old(job.key in jobs && jobs[job.key].target != job.goal) ==>
                r == Thrown(0) && jobs == old(jobs) && trace == old(trace)
      ensures r.Ok? ==> job.key in jobs && jobs[job.key].target == job.goal && savedJobs == jobs
      ensures r.Ok? ==> trace == old(trace) + [Started(job.key, job.goal)]
      ensures r.Ok? ==> jobs[job.key].cursor == old(if job.key in jobs then jobs[job.key].cursor else 0)
      ensures r.Thrown? && !old(job.key in jobs && jobs[job.key].target != job.goal) ==>
                trace == old(trace) + [Failed(0)]
      ensures r.Crashed? ==> trace == old(trace)
    {
      if job.key in jobs && jobs[job.key].target != job.goal { return Thrown(0); }
      var cursor := if job.key in jobs then jobs[job.key].cursor else 0;
      Repin(job.key, JobState(job.goal, cursor));
      var saved :- MustSave();
      Log(Started(job.key, job.goal));
      return Ok(());
    }

    /** Changes what is stored of a web request, but never its target. */
    method Repin(key: JobKey, state: JobState)
      requires Valid() && (key in jobs ==> jobs[key].target == state.target)
      modifies this`jobs
      ensures Valid() && jobs == old(jobs)[key := state]
    {
      assert forall e :: e in trace ==> Agrees(e, jobs);
      jobs := jobs[key := state];
      assert forall e :: e in trace ==> Agrees(e, jobs);
    }

    /** The next batch; the cursor moves on, and is saved, before the scan. */
    method TakeBatch(job: JobKey, candidates: seq<nat>) returns (r: Outcome<seq<nat>>)
      requires Valid() && job in jobs
      modifies this`jobs, this`savedAttempts, this`savedJobs, this`trace
      ensures Valid()
      ensures job in jobs && trace == old(trace) + if r.Thrown? then [Failed(0)] else []
      ensures jobs == old(jobs)[job := old(jobs[job]).(cursor := NextCursor(|candidates|, old(jobs[job]).cursor))]
      ensures r.Ok? ==> r.value == Batch(candidates, old(jobs[job]).cursor) && savedJobs == jobs
    {
      var cursor := jobs[job].cursor;
      var n := |candidates|;
      Repin(job, jobs[job].(cursor := if n > BATCH then (cursor % n + BATCH) % n else 0));
      var saved :- MustSave();
      return Ok(Batch(candidates, cursor));
    }

    /** One robot of the scan: `Some` when its own read shows it in the group. */
    method Probe(job: JobKey, group: nat, robot: nat, scopeRobot: nat, scopeAgent: nat)
      returns (r: Outcome<Option<(Entry, Roster)>>, ghost said: seq<Event>)
      requires Valid()
      modifies this`savedAttempts, this`savedJobs, this`clock, this`trace
      ensures old(jobs == savedJobs) ==> jobs == savedJobs
      ensures Valid() && trace == old(trace) + said && said != [] && said[0] == Probed(job, robot)
      ensures !r.Crashed? ==> ProbeStory(job, group, robot, scopeRobot, scopeAgent, Visit(said, r))
    {
      hide LedgerOk, BudgetKept, Verified, JobsOk, RosterStory;
      Log(Probed(job, robot));
      said := [Probed(job, robot)];
      var entries: Outcome<seq<Entry>> := Lookup(ForRobot(robot));
      said := trace[|old(trace)|..];
      if !entries.Ok? { return entries.PropagateFailure(), said; }
      var mine := OfRobot(entries.value, robot);
      var candidates := if robot == scopeRobot then OfAgent(mine, scopeAgent) else mine;
      if |candidates| != 1 || !candidates[0].client { return Ok(None), said; }
      ghost var more;
      r, more := ProbeRoster(candidates[0], group);
      said := said + more;
    }

    /** The candidate's own read of the group. */
    method ProbeRoster(candidate: Entry, group: nat)
      returns (r: Outcome<Option<(Entry, Roster)>>, ghost said: seq<Event>)
      requires Valid()
      modifies this`savedAttempts, this`savedJobs, this`clock, this`trace
      ensures old(jobs == savedJobs) ==> jobs == savedJobs
      ensures Valid() && trace == old(trace) + said
      ensures !r.Crashed? ==> RosterStory(said, candidate, group, r)
    {
      hide LedgerOk, BudgetKept, Verified, JobsOk;
      var roster := ReadGroup(candidate, group);
      said := trace[|old(trace)|..];
      if !roster.Ok? { return roster.PropagateFailure(), said; }
      var cancelled := Cancelled();
      said := trace[|old(trace)|..];
      if cancelled { return Thrown(0), said; }
      if candidate.app !in roster.value.bots { return Ok(None), said; }
      return Ok(Some((candidate, roster.value))), said;
    }

    /** One robot of the scan, unless the work was cancelled before its turn. */
    method VisitOne(job: WebJob, robot: nat, scopeRobot: nat, scopeAgent: nat)
      returns (r: Outcome<Option<(Entry, Roster)>>, ghost visit: Visit)
      requires Valid()
      modifies this`savedAttempts, this`savedJobs, this`clock, this`trace
      ensures old(jobs == savedJobs) ==> jobs == savedJobs
      ensures Valid() && old(trace) <= trace
      ensures !r.Crashed? ==>
                visit.outcome == r && trace == old(trace) + visit.said &&
                    Visited(job, robot, scopeRobot, scopeAgent, visit)
    {
      hide LedgerOk, BudgetKept, Verified, JobsOk, ProbeStory;
      var cancelled: bool := *;
      if cancelled {
        Log(Skipped(job.key, robot));
        return Thrown(0), Visit([Skipped(job.key, robot)], Thrown(0));
      }
      ghost var said;
      r, said := Probe(job.key, job.goal.group, robot, scopeRobot, scopeAgent);
      visit := Visit(said, r);
    }

    /** Scans for a robot that is in the group: the first that is found, or none of all that were visited. */
    method FindCaller(job: WebJob, robots: seq<nat>, scopeRobot: nat, scopeAgent: nat)
      returns (r: Outcome<Scan>, ghost visits: seq<Visit>)
      requires Valid()
      modifies this`savedAttempts, this`savedJobs, this`clock, this`trace
      ensures old(jobs == savedJobs) ==> jobs == savedJobs
      ensures Valid() && old(trace) <= trace && !r.Thrown?
      ensures r.Ok? ==>
                && trace == old(trace) + Told(visits) && Scanned(job, robots, scopeRobot, scopeAgent, visits)
                && ScanResult(robots, job.goal.sender, visits, r.value)
    {
      hide LedgerOk, BudgetKept, Verified, JobsOk, Visited, Told;
      var unavailable := false;
      visits := [];
      assert Told(visits) == [] by { NothingTold(); }
      for i := 0 to |robots|
        invariant Valid() && trace == old(trace) + Told(visits) && |visits| == i
        invariant old(jobs == savedJobs) ==> jobs == savedJobs
        invariant Scanned(job, robots, scopeRobot, scopeAgent, visits)
        invariant forall j :: 0 <= j < i ==> !Finds(visits[j])
        invariant unavailable <==> exists j :: 0 <= j < i && Fails(visits[j])
      {
        var probe;
        ghost var visit, before := *, visits;
        probe, visit := VisitOne(job, robots[i], scopeRobot, scopeAgent);
        if probe.Crashed? { return Crashed, visits; }
        visits := visits + [visit];
        ToldMore(before, visit);
        assert forall j :: 0 <= j < i ==> visits[j] == before[j];
        assert visits[i] == visit;
        if probe.Thrown? && probe.status != NOT_IN_GROUP { unavailable := true; }
        if probe.Ok? && probe.value.Some? {
          var (caller, roster) := probe.value.value;
          r := Ok(if job.goal.sender in roster.people then Found(caller) else Refused(ActorNotInGroup));
          return r, visits;
        }
      }
      return Ok(Nobody(unavailable)), visits;
    }

    /** One batch is scanned; `true` if it ended without a caller. */
    method ScanOnce(job: WebJob, candidates: seq<nat>, scopeRobot: nat, scopeAgent: nat) returns (nobody: bool)
      requires Valid() && job.key in jobs && jobs == savedJobs
      modifies this
      ensures Valid() && old(trace) <= trace
      ensures nobody ==>
                && job.key in jobs && jobs == savedJobs
                && jobs[job.key].cursor == NextCursor(|candidates|, old(jobs[job.key].cursor))
                && (NoneSkipped(trace, |old(trace)|) ==>
                      AllProbed(trace, |old(trace)|, job.key,
                          [scopeRobot] + Batch(candidates, old(jobs[job.key].cursor))))
    {
      hide LedgerOk, BudgetKept, Verified, JobsOk, AllProbed, Batch, Told, Scanned, NoneSkipped, NextCursor;
      var batch := TakeBatch(job.key, candidates);
      if !batch.Ok? { return false; }
      var scan;
      ghost var visits;
      scan, visits := FindCaller(job, [scopeRobot] + batch.value, scopeRobot, scopeAgent);
      if !scan.Ok? || !scan.value.Nobody? { return false; }
      if NoneSkipped(trace, |old(trace)|) {
        AllVisited(old(trace), trace, job, [scopeRobot] + batch.value, scopeRobot, scopeAgent, visits);
      }
      nobody := true;
    }

    /**
     * Any number of scans for one request, with restarts between them; `full` if none found a caller or was cut
     * short.
     */
    method Rescan(job: WebJob, candidates: seq<nat>, scopeRobot: nat, scopeAgent: nat, scans: nat) returns (full: bool)
      requires Valid() && job.key in jobs && jobs == savedJobs
      modifies this
      ensures Valid() && old(trace) <= trace
      ensures full && scans * BATCH >= |candidates| && NoneSkipped(trace, |old(trace)|) ==>
                AllProbed(trace, |old(trace)|, job.key, candidates)
    {
      hide LedgerOk, BudgetKept, Verified, JobsOk, AllProbed, Batch, ScansDone, NoneSkipped, NextCursor;
      NothingDone(trace, |trace|, job.key, candidates, jobs[job.key].cursor);
      ghost var raw, from, n := jobs[job.key].cursor, |trace|, |candidates|;
      for k := 0 to scans
        invariant Valid() && old(trace) <= trace
        invariant job.key in jobs && jobs == savedJobs && jobs[job.key].cursor == CursorAfter(n, raw, k)
        invariant NoneSkipped(trace, from) ==> ScansDone(trace, from, job.key, candidates, raw, k)
      {
        var restarted: bool := *;
        if restarted { Restart(); }
        ghost var before := trace;
        var nobody := ScanOnce(job, candidates, scopeRobot, scopeAgent);
        if !nobody { return false; }
        if NoneSkipped(trace, from) {
          SkippedBefore(before, trace, from);
          ScanDone(before, trace, from, job.key, candidates, raw, k, [scopeRobot]);
        }
      }
      if scans * BATCH >= |candidates| && NoneSkipped(trace, from) {
        EveryCandidateProbed(trace, from, job.key, candidates, raw, scans);
      }
      full := true;
    }

    /** A fresh read of inviter and applicant; the reason is empty exactly when both are there. */
    method Refresh(caller: Entry, goal: Target) returns (r: Outcome<(Roster, Reason)>)
      requires Valid()
      modifies this`savedAttempts, this`savedJobs, this`clock, this`trace
      ensures Valid() && old(trace) <= trace
      ensures r.Ok? ==>
                var (roster, reason) := r.value;
                && trace == old(trace) + [ReadBy(caller, goal.group, roster)]
                && reason == Checked(roster, caller, goal.sender)
      ensures r.Thrown? ==> trace != old(trace) && trace[|trace| - 1].Failed?
    {
      hide LedgerOk, BudgetKept, Verified, JobsOk;
      var cancelled := Cancelled();
      if cancelled { return Thrown(0); }
      var roster :- ReadGroup(caller, goal.group);
      cancelled := Cancelled();
      if cancelled { return Thrown(0); }
      if caller.app !in roster.bots { return Ok((roster, InviterNotInGroup)); }
      return Ok((roster, if goal.sender in roster.people then NoReason else ActorNotInGroup));
    }

    /** The leader's only entry, unless another robot of the caller's application claims to be it. */
    method FindLeader(agent: nat, caller: Entry) returns (r: Outcome<Option<Entry>>)
      requires Valid()
      modifies this`savedAttempts, this`savedJobs, this`clock, this`trace
      ensures Valid() && !r.Thrown? && old(trace) <= trace
      ensures r.Ok? ==>
                && |trace| == |old(trace)| + 1 && trace[|old(trace)|].Listed?
                && trace[|old(trace)|].asked == ForAgent(agent)
                && r.value == LeaderAmong(trace[|old(trace)|].entries, agent, caller)
    {
      hide LedgerOk, BudgetKept, Verified, JobsOk;
      var entries: Outcome<seq<Entry>> := Lookup(ForAgent(agent));
      if entries.Crashed? { return Crashed; }
      if entries.Thrown? { return Ok(None); }
      var leaders := OfAgent(entries.value, agent);
      if |leaders| != 1 { return Ok(None); }
      if leaders[0].app == caller.app && leaders[0].robot != caller.robot { return Ok(None); }
      return Ok(Some(leaders[0]));
    }

    /** Whom to invite.  A member that is missing or ambiguous is left out, every other one is included. */
    method Targets(goal: Target, leader: Entry, caller: Entry)
      returns (r: Outcome<seq<Entry>>, ghost listed: seq<Option<seq<Entry>>>)
      requires Valid()
      modifies this`savedAttempts, this`savedJobs, this`clock, this`trace
      ensures Valid() && old(trace) <= trace && !r.Thrown?
      ensures r.Ok? ==>
                && |listed| == |goal.agents| && trace == old(trace) + Lookups(goal.agents, goal.leader, listed)
                && TargetsOf(goal, listed, leader, caller, r.value)
    {
      hide LedgerOk, BudgetKept, Verified, JobsOk, Lookups, TargetsOf, ProperTargets, IsMember, Invitable;
      var targets := [leader];
      var seen := {leader.app, caller.app};
      listed := [];
      NoTargets(goal, leader, caller);
      for i := 0 to |goal.agents|
        invariant Valid() && |listed| == i && trace == old(trace) + Lookups(goal.agents, goal.leader, listed)
        invariant TargetsOf(goal, listed, leader, caller, targets) && SeenApps(targets, caller, seen)
      {
        ghost var one: Option<seq<Entry>> := None;
        ghost var targetsBefore, seenBefore := targets, seen;
        if goal.agents[i] != goal.leader {
          var entries: Outcome<seq<Entry>> := Lookup(ForAgent(goal.agents[i]));
          if entries.Crashed? { return Crashed, listed; }
          if entries.Ok? {
            one := Some(entries.value);
            var matches := OfAgent(entries.value, goal.agents[i]);
            if |matches| == 1 && matches[0].app !in seen {
              seen := seen + {matches[0].app};
              targets := targets + [matches[0]];
            }
          }
        }
        LookupsMore(goal.agents, goal.leader, listed, one);
        MoreTargets(goal, listed, one, leader, caller, targetsBefore, seenBefore);
        listed := listed + [one];
      }
      return Ok(targets), listed;
    }

    /** One invitation, directly after the read that entitles it. */
    method InviteOne(job: WebJob, caller: Entry, target: Entry, roster: Roster)
      returns (r: Outcome<Option<Reason>>, ghost said: seq<Event>)
      requires Valid() && trace != [] && trace[|trace| - 1] == ReadBy(caller, job.goal.group, roster)
      requires job.key in jobs && jobs[job.key].target == job.goal
      requires Checked(roster, caller, job.goal.sender) == NoReason
      modifies this
      ensures Valid() && trace == old(trace) + said && jobs == old(jobs) && old(attempts.Keys) <= attempts.Keys
      ensures r.Ok? && r.value.None? ==> target.app in roster.bots && said == []
      ensures r.Ok? && r.value.Some? ==>
                && target.app !in roster.bots && TargetKey(job, target) in attempts
                && (if said == [] then
                      TargetKey(job, target) in old(attempts) &&
                          r.value.value == old(attempts)[TargetKey(job, target)].reason
                    else
                      |said| == 2 && said[0].Invited? && said[1].Replied?
                          && said[0].key == said[1].key == TargetKey(job, target) && r.value.value == said[1].reason)
      ensures r.Thrown? ==> said != [] && said[|said| - 1].Failed?
    {
      hide LedgerOk, BudgetKept, Verified, JobsOk, Allowed;
      said := [];
      if target.app in roster.bots { return Ok(None), said; }
      var cancelled := Cancelled();
      said := trace[|old(trace)|..];
      if cancelled { return Thrown(0), said; }
      ghost var before, ledger := trace, attempts;
      var answer := MaybeInvite(caller, target, TargetKey(job, target), Some(job.goal.sender));
      said := trace[|old(trace)|..];
      WebInviteEnds(before, ledger, TargetKey(job, target), caller, target, job.goal.sender, answer);
      if answer.IsFailure() { return answer.PropagateFailure(), said; }
      return Ok(Some(answer.value)), said;
    }

    lemma WebInviteEnds(before: seq<Event>, ledger: map<InviteKey, Attempt>, key: InviteKey, caller: Entry,
        target: Entry, sender: nat, r: Outcome<Reason>)
      requires InviteTurn(before, ledger, key, caller.app, target.app, Some(sender), r)
      ensures before <= trace
      ensures r.Ok? ==>
                var said := trace[|before|..];
                if said == [] then attempts == ledger
                else |said| == 2 && said[0].Invited? && said[1].Replied? && said[0].key == said[1].key == key
                     && r.value == said[1].reason
      ensures r.Thrown? ==> |trace| > |before| && trace[|trace| - 1].Failed?
    {
      if r.Ok? && trace == before { assert trace[|before|..] == []; }
    }

    /** The turn of one target: inviter and applicant are read again, and it is invited if it is missing. */
    method TargetTurn(job: WebJob, caller: Entry, target: Entry)
      returns (r: Outcome<(Reason, Option<Reason>)>, ghost turn: seq<Event>)
      requires Valid() && job.key in jobs && jobs[job.key].target == job.goal
      modifies this
      ensures Valid() && trace == old(trace) + turn && jobs == old(jobs) && old(attempts.Keys) <= attempts.Keys
      ensures r.Thrown? ==> turn != [] && turn[|turn| - 1].Failed?
      ensures r.Ok? ==>
                && turn != [] && ReadsGroup(turn[0], caller, job.goal.group)
                && r.value.0 == Checked(RosterOf(turn[0]), caller, job.goal.sender)
                && (if r.value.0 != NoReason then |turn| == 1
                    else TurnStory(turn, old(attempts), attempts, TargetKey(job, target), target.app, r.value.1))
    {
      hide LedgerOk, BudgetKept, Verified, JobsOk;
      var again := Refresh(caller, job.goal);
      turn := trace[|old(trace)|..];
      if again.IsFailure() { return again.PropagateFailure(), turn; }
      var (roster, reason) := again.value;
      assert turn == [ReadBy(caller, job.goal.group, roster)];
      if reason != NoReason { return Ok((reason, None)), turn; }
      var answer;
      ghost var more;
      answer, more := InviteOne(job, caller, target, roster);
      turn := turn + more;
      if answer.IsFailure() { return answer.PropagateFailure(), turn; }
      return Ok((NoReason, answer.value)), turn;
    }

    /** Rechecks inviter and applicant before each invitation; gives the reason to stop, and the leader's. */
    method InviteTargets(job: WebJob, caller: Entry, targets: seq<Entry>)
      returns (r: Outcome<(Reason, Reason)>, ghost said: seq<Event>)
      requires Valid() && |targets| > 0 && job.key in jobs && jobs[job.key].target == job.goal
      modifies this
      ensures Valid() && trace == old(trace) + said
      ensures r.Thrown? ==> said != [] && said[|said| - 1].Failed?
      ensures r.Ok? && r.value.0 != NoReason ==>
                && said != [] && ReadsGroup(said[|said| - 1], caller, job.goal.group)
                && r.value.0 == Checked(RosterOf(said[|said| - 1]), caller, job.goal.sender)
      ensures r.Ok? && r.value.0 == NoReason ==>
                && LeaderReason(said, old(attempts), job, targets[0], r.value.1) && InviteWhole(said)
                && (forall t :: t in targets ==> SeenOrTried(attempts, trace, |old(trace)|, job, t))
    {
      hide LedgerOk, BudgetKept, Verified, JobsOk, SeenOrTried, LeaderReason, TurnStory, Checked;
      var leaderReason := LeaderNotInGroup;
      said := [];
      for i := 0 to |targets|
        invariant Valid() && trace == old(trace) + said && job.key in jobs && jobs[job.key].target == job.goal
        invariant i == 0 ==> said == [] && attempts == old(attempts) && leaderReason == LeaderNotInGroup
        invariant i > 0 ==> LeaderReason(said, old(attempts), job, targets[0], leaderReason) && InviteWhole(said)
        invariant forall t :: t in targets[..i] ==> SeenOrTried(attempts, trace, |old(trace)|, job, t)
      {
        ghost var attemptsBefore, traceBefore, saidBefore := attempts, trace, said;
        var one;
        ghost var turn;
        one, turn := TargetTurn(job, caller, targets[i]);
        said := saidBefore + turn;
        assert trace == old(trace) + said;
        if one.IsFailure() { return one.PropagateFailure(), said; }
        var (reason, answer) := one.value;
        if reason != NoReason { return Ok((reason, leaderReason)), said; }
        if i == 0 && answer.Some? { leaderReason := Reported(answer.value); }
        TurnTried(attemptsBefore, attempts, traceBefore, trace, |old(trace)|, job, targets, i, turn, answer);
        if i == 0 {
          assert said == turn;
          FirstTurn(turn, old(attempts), attempts, job, targets[0], answer);
        } else {
          TurnReads(turn, attemptsBefore, attempts, TargetKey(job, targets[i]), targets[i].app, answer);
          LeaderReasonStays(saidBefore, turn, old(attempts), job, targets[0], leaderReason);
        }
      }
      assert targets[..|targets|] == targets;
      return Ok((NoReason, leaderReason)), said;
    }

    /** Invites, then reads once more: an accepted invitation is not membership. */
    method Conclude(job: WebJob, caller: Entry, leader: Entry) returns (r: Outcome<WebResult>, ghost w: Work)
      requires Valid() && job.key in jobs && jobs[job.key].target == job.goal
      modifies this
      ensures Valid() && old(trace) <= trace
      ensures r.Thrown? ==> trace != old(trace) && trace[|trace| - 1].Failed?
      ensures r.Ok? ==>
                && trace != old(trace) && trace[|trace| - 1].Read?
                && Ends(trace, caller, job.goal, leader.app, w.leaderReason, r.value)
                && (Checked(RosterOf(trace[|trace| - 1]), caller, job.goal.sender) == NoReason ==>
                      Completed(trace, |old(trace)|, job, caller, leader, old(attempts), attempts, w))
    {
      hide LedgerOk, BudgetKept, Verified, JobsOk, Lookups, TargetsOf, SeenOrTried, LeaderReason, Completed, Checked;
      ghost var listed;
      w := Work([], [], NoReason);
      var targets;
      targets, listed := Targets(job.goal, leader, caller);
      if !targets.Ok? { return targets.PropagateFailure(), w; }
      LeaderFirst(job.goal, listed, leader, caller, targets.value);
      ghost var looked := trace;
      var invited;
      ghost var said;
      invited, said := InviteTargets(job, caller, targets.value);
      if !invited.Ok? { return invited.PropagateFailure(), w; }
      var (stop, leaderReason) := invited.value;
      w := Work(listed, targets.value, leaderReason);
      if stop != NoReason { return Ok(WebResult(stop != ActorNotInGroup, false, stop)), w; }
      var final := Refresh(caller, job.goal);
      if !final.Ok? { return final.PropagateFailure(), w; }
      var (roster, reason) := final.value;
      CompletedBy(old(trace), looked, said, trace, job, caller, leader, old(attempts), attempts, w, roster);
      if reason != NoReason { return Ok(WebResult(reason != ActorNotInGroup, false, reason)), w; }
      var present := leader.app in roster.bots;
      return Ok(WebResult(true, present, if present then NoReason else leaderReason)), w;
    }

    /** From a caller to a result. */
    method WithCaller(job: WebJob, caller: Entry) returns (r: Outcome<WebResult>, ghost w: Work)
      requires Valid() && job.key in jobs && jobs[job.key].target == job.goal
      modifies this
      ensures Valid() && old(trace) <= trace && !r.Thrown?
      ensures r.Ok? ==> CallerStory(trace, |old(trace)|, job, caller, old(attempts), attempts, w, r.value)
    {
      hide LedgerOk, BudgetKept, Verified, JobsOk, LeaderAmong, Completed, Checked;
      w := Work([], [], NoReason);
      var found := FindLeader(job.goal.leader, caller);
      if found.Crashed? { return Crashed, w; }
      if found.value.None? { return Ok(WebResult(true, false, LeaderMissingOrAmbiguous)), w; }
      var entry := found.value.value;
      if !entry.client || !entry.send { return Ok(WebResult(true, false, LeaderUnavailable)), w; }
      ghost var listed := trace;
      r, w := Conclude(job, caller, entry);
      assert trace[|old(trace)|] == listed[|old(trace)|];
      if r.Thrown? { return Ok(WebResult(true, false, MembershipCheckFailed)), w; }
    }

    /**
     * `inspectWebGroupJob`.  The target of the generation is fixed first; then what is configured, listed and read
     * decides the result, and nothing else does.
     */
    method InspectWebGroupJob(job: WebJob, scopeRobot: nat, scopeAgent: nat)
      returns (r: Outcome<WebResult>, ghost visits: seq<Visit>, ghost scan: Scan, ghost w: Work)
      requires Valid()
      modifies this
      ensures Valid() && old(trace) <= trace
      ensures !job.valid || old(job.key in jobs && jobs[job.key].target != job.goal) ==> !r.Ok?
      ensures !job.valid ==> r == Thrown(0) && trace == old(trace)
      ensures old(job.key in jobs && jobs[job.key].target != job.goal) ==>
                trace == old(trace) || trace == old(trace) + [Failed(0)]
      ensures r.Thrown? && job.valid && !old(job.key in jobs && jobs[job.key].target != job.goal) ==>
                trace != old(trace) && trace[|trace| - 1].Failed?
      ensures r.Ok? ==>
                && |trace| > |old(trace)| && trace[|old(trace)|] == Started(job.key, job.goal)
                && TargetStory(trace, |old(trace)| + 1, job, scopeRobot, scopeAgent,
                               old(if job.key in jobs then jobs[job.key].cursor else 0), old(attempts), attempts,
                               visits, scan, w, r.value)
    {
      hide LedgerOk, BudgetKept, Verified, JobsOk, TargetStory;
      visits, scan, w := [], Nobody(true), Work([], [], NoReason);
      if !job.valid { return Thrown(0), visits, scan, w; }
      var cancelled := Cancelled();
      if cancelled { return Thrown(0), visits, scan, w; }
      var pinned := PinTarget(job);
      if !pinned.Ok? { return pinned.PropagateFailure(), visits, scan, w; }
      ghost var started := trace;
      r, visits, scan, w := WithTarget(job, scopeRobot, scopeAgent);
      assert trace[|old(trace)|] == started[|old(trace)|] && |started| == |old(trace)| + 1;
    }

    /** The robots configured in the workspace. */
    method Configured() returns (r: Outcome<seq<nat>>)
      requires Valid()
      modifies this`savedAttempts, this`savedJobs, this`clock, this`trace
      ensures Valid() && old(trace) <= trace
      ensures !r.Crashed? ==> trace == old(trace) + [Event.Configured(if r.Ok? then Some(r.value) else None)]
    {
      hide LedgerOk, BudgetKept, Verified, JobsOk;
      r := Ask();
      if !r.Crashed? { Log(Event.Configured(if r.Ok? then Some(r.value) else None)); }
    }

    /** The target is fixed: find a robot in the group, and let it invite. */
    method WithTarget(job: WebJob, scopeRobot: nat, scopeAgent: nat)
      returns (r: Outcome<WebResult>, ghost visits: seq<Visit>, ghost scan: Scan, ghost w: Work)
      requires Valid() && job.key in jobs && jobs[job.key].target == job.goal
      modifies this
      ensures Valid() && old(trace) <= trace
      ensures r.Thrown? ==> trace != old(trace) && trace[|trace| - 1].Failed?
      ensures r.Ok? ==>
                TargetStory(trace, |old(trace)|, job, scopeRobot, scopeAgent, old(jobs[job.key].cursor), old(attempts),
                            attempts, visits, scan, w, r.value)
    {
      hide LedgerOk, BudgetKept, Verified, JobsOk, Batch, Candidates, Told, Scanned, ScanResult, CallerStory;
      visits, scan, w := [], Nobody(true), Work([], [], NoReason);
      var configured := Configured();
      if configured.Crashed? { return Crashed, visits, scan, w; }
      if configured.Thrown? || |configured.value| > MAX_CONFIGURED {
        return Ok(WebResult(false, false, MembershipCheckFailed)), visits, scan, w;
      }
      var candidates := Candidates(job.inviters + configured.value, scopeRobot);
      var batch := TakeBatch(job.key, candidates);
      if !batch.Ok? { return batch.PropagateFailure(), visits, scan, w; }
      ghost var before := trace;
      var found;
      found, visits := FindCaller(job, [scopeRobot] + batch.value, scopeRobot, scopeAgent);
      if !found.Ok? { return found.PropagateFailure(), visits, scan, w; }
      scan := found.value;
      ghost var at := |before| + |Told(visits)|;
      assert trace[|before|..at] == Told(visits) && trace[|old(trace)|].Configured?;
      ghost var scanned := trace;
      match found.value {
        case Refused(reason) =>
          return Ok(WebResult(false, false, reason)), visits, scan, w;
        case Nobody(unavailable) =>
          var reason := if unavailable || |candidates| > BATCH then MembershipCheckFailed else InviterNotInGroup;
          return Ok(WebResult(false, false, reason)), visits, scan, w;
        case Found(inviter) =>
          r, w := WithCaller(job, inviter);
          assert trace[|before|..at] == scanned[|before|..at] && trace[|old(trace)|] == scanned[|old(trace)|];
      }
    }

    method Restart()
      requires Valid()
      modifies this`attempts, this`jobs
      ensures Valid() && attempts == savedAttempts && jobs == savedJobs
    {
      attempts, jobs := savedAttempts, savedJobs;
    }

    /** Any inspections, web requests and restarts, in any order. */
    method Live(requests: seq<Request>)
      requires Valid()
      modifies this
      ensures BudgetKept(trace) && Verified(trace) && OneTarget(trace)
    {
      for i := 0 to |requests|
        invariant Valid()
      {
        match requests[i] {
          case Inspect(scopeRobot, key, team, configured, invite, bootstrap) =>
            var seen := InspectSerial(scopeRobot, key, team, configured, invite, bootstrap);
            if seen.Crashed? { Restart(); }
          case Web(job, scopeRobot, scopeAgent) =>
            var result;
            ghost var visits, scan, work;
            result, visits, scan, work := InspectWebGroupJob(job, scopeRobot, scopeAgent);
            if result.Crashed? { Restart(); }
        }
      }
      JobsHaveOneTarget(trace, jobs);
    }
  }

  lemma NothingTold()
    ensures Told([]) == []
  {
  }

  ghost predicate NoneSkipped(tr: seq<Event>, from: nat) {
    forall k :: from <= k < |tr| ==> !tr[k].Skipped?
  }

  lemma SkippedBefore(before: seq<Event>, now: seq<Event>, from: nat)
    requires before <= now && NoneSkipped(now, from) && from <= |before|
    ensures NoneSkipped(before, from) && NoneSkipped(now, |before|)
  {
    assert forall k :: 0 <= k < |before| ==> before[k] == now[k];
  }

  lemma NothingDone(tr: seq<Event>, from: nat, job: JobKey, candidates: seq<nat>, raw: nat)
    ensures ScansDone(tr, from, job, candidates, raw, 0)
  {
  }

  /** A scan that found nobody, and skipped nobody, looked up every robot. */
  lemma AllVisited(before: seq<Event>, now: seq<Event>, job: WebJob, robots: seq<nat>, scopeRobot: nat,
      scopeAgent: nat, visits: seq<Visit>)
    requires now == before + Told(visits) && |visits| == |robots|
    requires Scanned(job, robots, scopeRobot, scopeAgent, visits) && NoneSkipped(now, |before|)
    ensures AllProbed(now, |before|, job.key, robots)
  {
    hide Told;
    forall robot | robot in robots ensures WasProbed(now, |before|, job.key, robot) {
      var i :| 0 <= i < |robots| && robots[i] == robot;
      var at := ToldAt(visits, i);
      assert Visited(job, robots[i], scopeRobot, scopeAgent, visits[i]);
      assert now[|before| + at] == Told(visits)[at] == visits[i].said[0];
    }
  }

  /** Where the story of visit `i` begins. */
  lemma {:induction false} ToldAt(visits: seq<Visit>, i: nat) returns (at: nat)
    requires i < |visits| && forall v :: v in visits ==> v.said != []
    ensures at < |Told(visits)| && Told(visits)[at] == visits[i].said[0]
  {
    var n := |visits| - 1;
    if i == n {
      at := |Told(visits[..n])|;
    } else {
      at := ToldAt(visits[..n], i);
    }
  }

  /** The applications taken so far: those of the targets, and the caller's. */
  predicate SeenApps(targets: seq<Entry>, caller: Entry, seen: set<nat>) {
    && caller.app in seen && (forall t :: t in targets ==> t.app in seen)
    && forall a :: a in seen ==> a == caller.app || exists t <- targets :: t.app == a
  }

  lemma NoTargets(goal: Target, leader: Entry, caller: Entry)
    ensures Lookups(goal.agents, goal.leader, []) == [] && TargetsOf(goal, [], leader, caller, [leader])
    ensures SeenApps([leader], caller, {leader.app, caller.app})
  {
    assert leader in [leader];
  }

  /** One more member, looked up or not: it joins the targets if it was found once and its application is new. */
  lemma MoreTargets(goal: Target, listed: seq<Option<seq<Entry>>>, one: Option<seq<Entry>>, leader: Entry,
      caller: Entry, targets: seq<Entry>, seen: set<nat>)
    requires TargetsOf(goal, listed, leader, caller, targets) && SeenApps(targets, caller, seen)
    requires |listed| < |goal.agents|
    ensures var i := |listed|;
            var e := Unambiguous(one, goal.agents[i]);
            var joins := goal.agents[i] != goal.leader && e.Some? && e.value.app !in seen;
            && TargetsOf(goal, listed + [one], leader, caller, if joins then targets + [e.value] else targets)
            && SeenApps(if joins then targets + [e.value] else targets, caller,
                        if joins then seen + {e.value.app} else seen)
  {
    hide Unambiguous, ProperTargets, IsMember, Invitable;
    var i := |listed|;
    var e := Unambiguous(one, goal.agents[i]);
    var joins := goal.agents[i] != goal.leader && e.Some? && e.value.app !in seen;
    if joins { OneJoins(targets, leader, caller, seen, e.value); }
    var after, apps := if joins then targets + [e.value] else targets, if joins then seen + {e.value.app} else seen;
    assert Invitable(goal, listed + [one], i) && !joins ==> e.value.app in seen by { NotJoined(goal, listed, one); }
    assert targets != [] by { ProperHead(targets, leader, caller); }
    CoveredMore(goal, listed, one, caller, targets, after, apps);
    MembersMore(goal, listed, one, targets, after);
  }

  lemma ProperHead(targets: seq<Entry>, leader: Entry, caller: Entry)
    requires ProperTargets(targets, leader, caller)
    ensures targets != []
  {
  }

  lemma NotJoined(goal: Target, listed: seq<Option<seq<Entry>>>, one: Option<seq<Entry>>)
    requires |listed| < |goal.agents|
    ensures Invitable(goal, listed + [one], |listed|) <==>
              goal.agents[|listed|] != goal.leader && Unambiguous(one, goal.agents[|listed|]).Some?
  {
  }

  lemma OneJoins(targets: seq<Entry>, leader: Entry, caller: Entry, seen: set<nat>, e: Entry)
    requires ProperTargets(targets, leader, caller) && SeenApps(targets, caller, seen) && e.app !in seen
    ensures ProperTargets(targets + [e], leader, caller) && SeenApps(targets + [e], caller, seen + {e.app})
  {
    var now := targets + [e];
    assert now[|targets|] == e && e in now && forall t :: t in targets ==> t in now;
    forall i | 0 <= i < |targets| ensures targets[i].app != e.app { assert targets[i] in targets; }
  }

  lemma CoveredMore(goal: Target, listed: seq<Option<seq<Entry>>>, one: Option<seq<Entry>>, caller: Entry,
      targets: seq<Entry>, after: seq<Entry>, apps: set<nat>)
    requires |listed| < |goal.agents| && Covered(goal, listed, caller, targets)
    requires SeenApps(after, caller, apps) && forall t :: t in targets ==> t in after
    requires var e := Unambiguous(one, goal.agents[|listed|]);
             Invitable(goal, listed + [one], |listed|) ==> e.value.app in apps
    ensures Covered(goal, listed + [one], caller, after)
  {
    hide Unambiguous;
    var now := listed + [one];
    forall j | Invitable(goal, now, j)
      ensures var f := Unambiguous(now[j], goal.agents[j]).value; f.app == caller.app || exists t <- after ::
                t.app == f.app
    {
      if j < |listed| { assert Invitable(goal, listed, j); }
    }
  }

  lemma MembersMore(goal: Target, listed: seq<Option<seq<Entry>>>, one: Option<seq<Entry>>, targets: seq<Entry>,
      after: seq<Entry>)
    requires |listed| < |goal.agents| && forall j :: 0 < j < |targets| ==> IsMember(goal, listed, targets[j])
    requires var e := Unambiguous(one, goal.agents[|listed|]);
             after == targets || (goal.agents[|listed|] != goal.leader && e.Some? && after == targets + [e.value])
    requires targets != []
    ensures forall j :: 0 < j < |after| ==> IsMember(goal, listed + [one], after[j])
  {
    hide Unambiguous;
    var i, now := |listed|, listed + [one];
    forall j | 0 < j < |after| ensures IsMember(goal, now, after[j]) {
      if j < |targets| {
        assert IsMember(goal, listed, targets[j]);
        var k :| Invitable(goal, listed, k) && Unambiguous(listed[k], goal.agents[k]).value == targets[j];
        assert Invitable(goal, now, k) && now[k] == listed[k];
      } else {
        assert Invitable(goal, now, i);
      }
    }
  }

  lemma LeaderFirst(goal: Target, listed: seq<Option<seq<Entry>>>, leader: Entry, caller: Entry,
      targets: seq<Entry>)
    requires TargetsOf(goal, listed, leader, caller, targets)
    ensures |targets| > 0 && targets[0] == leader
  {
  }

  /** The final read changes nothing of what was looked up, seen and invited before it. */
  lemma CompletedBy(start: seq<Event>, looked: seq<Event>, said: seq<Event>, now: seq<Event>, job: WebJob,
      caller: Entry, leader: Entry, before: map<InviteKey, Attempt>, after: map<InviteKey, Attempt>, w: Work,
      roster: Roster)
    requires |w.listed| == |job.goal.agents|
    requires looked == start + Lookups(job.goal.agents, job.goal.leader, w.listed)
    requires now == looked + said + [ReadBy(caller, job.goal.group, roster)]
    requires TargetsOf(job.goal, w.listed, leader, caller, w.targets)
    requires LeaderReason(said, before, job, leader, w.leaderReason) && InviteWhole(said)
    requires forall t :: t in w.targets ==> SeenOrTried(after, looked + said, |looked|, job, t)
    ensures Completed(now, |start|, job, caller, leader, before, after, w)
  {
    hide Lookups, TargetsOf, SeenOrTried, LeaderReason;
    var last := [ReadBy(caller, job.goal.group, roster)];
    var n := |Lookups(job.goal.agents, job.goal.leader, w.listed)|;
    LeaderReasonStays(said, last, before, job, leader, w.leaderReason);
    assert now[|start|..|start| + n] == Lookups(job.goal.agents, job.goal.leader, w.listed);
    assert now[|start| + n..] == said + last;
    TriedStays(after, after, looked + said, now, |looked|, job, w.targets);
  }

  /** A target that was seen, or whose invitation was counted, stays so. */
  lemma TurnTried(a: map<InviteKey, Attempt>, b: map<InviteKey, Attempt>, tr: seq<Event>, now: seq<Event>, from: nat,
      job: WebJob, targets: seq<Entry>, i: nat, turn: seq<Event>, answer: Option<Reason>)
    requires i < |targets| && from <= |tr| && a.Keys <= b.Keys && now == tr + turn
    requires TurnStory(turn, a, b, TargetKey(job, targets[i]), targets[i].app, answer)
    requires turn[0].Read? && turn[0].group == job.goal.group
    requires forall t :: t in targets[..i] ==> SeenOrTried(a, tr, from, job, t)
    ensures forall t :: t in targets[..i + 1] ==> SeenOrTried(b, now, from, job, t)
  {
    TriedStays(a, b, tr, now, from, job, targets[..i]);
    assert now[|tr|] == turn[0];
    assert targets[..i + 1] == targets[..i] + [targets[i]];
  }

  lemma TurnReads(turn: seq<Event>, a: map<InviteKey, Attempt>, b: map<InviteKey, Attempt>, key: InviteKey,
      app: nat, answer: Option<Reason>)
    requires TurnStory(turn, a, b, key, app, answer)
    ensures turn != [] && turn[0].Read?
  {
  }

  /** The leader's turn fixes the reason given for it at the end. */
  lemma FirstTurn(turn: seq<Event>, a: map<InviteKey, Attempt>, b: map<InviteKey, Attempt>, job: WebJob,
      leader: Entry, answer: Option<Reason>)
    requires TurnStory(turn, a, b, TargetKey(job, leader), leader.app, answer)
    ensures LeaderReason(turn, a, job, leader, if answer.Some? then Reported(answer.value) else LeaderNotInGroup)
    ensures InviteWhole(turn)
  {
  }

  /** The first `scans` batches from the cursor `raw` were probed since `from`. */
  ghost predicate ScansDone(tr: seq<Event>, from: nat, job: JobKey, candidates: seq<nat>, raw: nat, scans: nat) {
    forall j: nat :: j < scans ==> AllProbed(tr, from, job, Batch(candidates, CursorAfter(|candidates|, raw, j)))
  }

  lemma ScanDone(before: seq<Event>, now: seq<Event>, from: nat, job: JobKey, candidates: seq<nat>, raw: nat, k: nat,
                 first: seq<nat>)
    requires before <= now && from <= |before| && ScansDone(before, from, job, candidates, raw, k)
    requires AllProbed(now, |before|, job, first + Batch(candidates, CursorAfter(|candidates|, raw, k)))
    ensures ScansDone(now, from, job, candidates, raw, k + 1)
  {
    hide AllProbed, Batch, CursorAfter;
    var batch := Batch(candidates, CursorAfter(|candidates|, raw, k));
    AllProbedLater(now, now, |before|, from, job, first + batch, batch);
    forall j: nat | j <= k ensures AllProbed(now, from, job, Batch(candidates, CursorAfter(|candidates|, raw, j))) {
      if j < k {
        var earlier := Batch(candidates, CursorAfter(|candidates|, raw, j));
        AllProbedLater(before, now, from, from, job, earlier, earlier);
      }
    }
  }

  lemma AllProbedLater(tr: seq<Event>, now: seq<Event>, from: nat, since: nat, job: JobKey, robots: seq<nat>,
      some: seq<nat>)
    requires AllProbed(tr, from, job, robots) && tr <= now && since <= from
    requires forall robot :: robot in some ==> robot in robots
    ensures AllProbed(now, since, job, some)
  {
  }

  /** Rotation coverage: enough full scans probe every candidate, from any cursor and over restarts. */
  lemma EveryCandidateProbed(tr: seq<Event>, from: nat, job: JobKey, candidates: seq<nat>, raw: nat, scans: nat)
    requires ScansDone(tr, from, job, candidates, raw, scans) && scans * BATCH >= |candidates|
    ensures AllProbed(tr, from, job, candidates)
  {
    forall robot | robot in candidates ensures WasProbed(tr, from, job, robot) {
      var i :| 0 <= i < |candidates| && candidates[i] == robot;
      RotationCovers(candidates, raw, scans, i);
      var k: nat :| k < scans && candidates[i] in Batch(candidates, CursorAfter(|candidates|, raw, k));
      assert AllProbed(tr, from, job, Batch(candidates, CursorAfter(|candidates|, raw, k)));
    }
  }
}
