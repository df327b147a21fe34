/**
 * Admitting a leader robot to a group: the invitation budget, the checks before
 * each invitation, and the web jobs that scan for a robot able to invite.
 */
module GroupAdmission {
  import opened Effects
  import opened GroupRouting

  const MAX_ATTEMPTS: nat := 3
  const BACKOFF_MS: nat := 600000

  function Pow2(n: nat): (r: nat)
    ensures r >= 1
  {
    if n == 0 then 1 else 2 * Pow2(n - 1)
  }

  lemma {:induction false} Pow2Monotone(m: nat, n: nat)
    requires m <= n
    ensures Pow2(m) <= Pow2(n)
    decreases n
  {
    if m < n { Pow2Monotone(m, n - 1); }
  }

  datatype Reason =
    | NoReason | LeaderConfigurationMissing | LeaderMissingOrAmbiguous | LeaderUnavailable | InviterNotInGroup
    | ActorNotInGroup | LeaderNotInGroup | MembershipCheckFailed | InvitationPending | InvitationFailed
    | ApprovalPending | MembershipUnconfirmed

  /** Only a new binding generation has a new budget. */
  datatype InviteKey = InviteKey(binding: nat, generation: nat, group: nat, robot: nat)

  datatype Attempt = Attempt(count: nat, next: nat, reason: Reason)

  /** One generation of a web request, what it targets (its fingerprint), and what is stored for it. */
  datatype JobKey = JobKey(request: nat, generation: nat)

  datatype Target = Target(workspace: nat, group: nat, sender: nat, issue: nat, leader: nat, agents: seq<nat>)

  datatype JobState = JobState(target: Target, cursor: nat)

  /** Whose configured robots are looked up. */
  datatype Asked = ForAgent(agent: nat) | ForRobot(robot: nat)

  /**
   * What reaches the group, and what comes back.  `caller` and `target` are application ids, `at` is the
   * clock reading stored with the attempt, and `sender` is the applicant when a web request invites.  A
   * look-up without an answer failed; `Failed` is any other failure, or work that was cancelled.
   */
  datatype Event =
    | Read(caller: nat, group: nat, bots: set<nat>, people: set<nat>)
    | Invited(key: InviteKey, caller: nat, target: nat, at: nat, sender: Option<nat>)
    | Replied(key: InviteKey, reason: Reason)
    | Started(job: JobKey, goal: Target)
    | Configured(robots: Option<seq<nat>>)
    | Probed(job: JobKey, robot: nat)
    | Skipped(job: JobKey, robot: nat)
    | Listed(asked: Asked, entries: Option<seq<Entry>>)
    | Failed(status: nat)

  // ---- The invitation budget ---------------------------------------------------

  /** When invitations were issued under one key. */
  function Times(tr: seq<Event>, key: InviteKey): seq<nat> {
    if tr == [] then []
    else
      var last, before := tr[|tr| - 1], Times(tr[..|tr| - 1], key);
      if last.Invited? && last.key == key then before + [last.at] else before
  }

  /** At most three, and each wait at least twice the one before. */
  ghost predicate WithinBudget(times: seq<nat>) {
    && |times| <= MAX_ATTEMPTS
    && forall i :: 0 <= i < |times| - 1 ==> times[i + 1] >= times[i] + BACKOFF_MS * Pow2(i)
  }

  /** An entry of the ledger accounts for the invitations issued. */
  predicate Covers(a: Attempt, times: seq<nat>) {
    times != [] ==> a.count >= |times| && a.next >= times[|times| - 1] + BACKOFF_MS * Pow2(|times| - 1)
  }

  ghost predicate LedgerOk(tr: seq<Event>, ledger: map<InviteKey, Attempt>) {
    forall key {:trigger Times(tr, key)} :: Times(tr, key) != [] ==>
        key in ledger && Covers(ledger[key], Times(tr, key))
  }

  ghost predicate BudgetKept(tr: seq<Event>) {
    forall key :: WithinBudget(Times(tr, key))
  }

  /** May another invitation go out at `now`? */
  predicate Allowed(ledger: map<InviteKey, Attempt>, key: InviteKey, now: nat) {
    key in ledger ==> ledger[key].count < MAX_ATTEMPTS && ledger[key].next <= now
  }

  function NextAttempt(ledger: map<InviteKey, Attempt>, key: InviteKey, now: nat): Attempt {
    var count := 1 + if key in ledger then ledger[key].count else 0;
    Attempt(count, now + BACKOFF_MS * Pow2(count - 1), InvitationPending)
  }

  /** Counting an attempt, before it is made, keeps the ledger true. */
  lemma CountKeeps(tr: seq<Event>, ledger: map<InviteKey, Attempt>, key: InviteKey, checked: nat, now: nat)
    requires LedgerOk(tr, ledger) && Allowed(ledger, key, checked) && checked <= now
    ensures LedgerOk(tr, ledger[key := NextAttempt(ledger, key, now)])
  {
  }

  /** An invitation that was counted and saved first stays within the budget. */
  lemma InvitationKeeps(tr: seq<Event>, before: map<InviteKey, Attempt>, key: InviteKey, checked: nat, now: nat,
      e: Event)
    requires LedgerOk(tr, before) && BudgetKept(tr) && Allowed(before, key, checked) && checked <= now
    requires e.Invited? && e.key == key && e.at == now
    ensures BudgetKept(tr + [e])
    ensures Covers(NextAttempt(before, key, now), Times(tr + [e], key))
  {
  }

  /** Other events, and other keys, do not touch a key's account. */
  lemma OtherKeeps(tr: seq<Event>, ledger: map<InviteKey, Attempt>, e: Event)
    requires LedgerOk(tr, ledger) && !e.Invited?
    ensures LedgerOk(tr + [e], ledger)
    ensures BudgetKept(tr) ==> BudgetKept(tr + [e])
  {
  }

  lemma InvitationLedger(tr: seq<Event>, ledger: map<InviteKey, Attempt>, e: Event)
    requires LedgerOk(tr, ledger) && e.Invited?
    requires e.key in ledger && Covers(ledger[e.key], Times(tr + [e], e.key))
    ensures LedgerOk(tr + [e], ledger)
  {
  }

  // ---- Verified invitations and fixed targets -------------------------------------

  /** The read that entitles an invitation: a web request also needs the applicant in, and the target out. */
  predicate Justifies(r: Event, e: Event) {
    && r.Read? && e.Invited? && r.caller == e.caller && r.group == e.key.group && e.caller in r.bots
    && (e.sender.Some? ==> e.sender.value in r.people && e.target !in r.bots)
  }

  /** Each invitation directly follows the read that entitles it. */
  ghost predicate Verified(tr: seq<Event>) {
    forall k :: 0 <= k < |tr| && tr[k].Invited? ==> k > 0 && Justifies(tr[k - 1], tr[k])
  }

  /** What a web event says about the target of its generation. */
  predicate Agrees(e: Event, jobs: map<JobKey, JobState>) {
    && (e.Started? ==> e.job in jobs && jobs[e.job].target == e.goal)
    && (e.Invited? && e.sender.Some? ==>
          var job := JobKey(e.key.binding, e.key.generation);
          job in jobs && jobs[job].target.group == e.key.group && jobs[job].target.sender == e.sender.value)
  }

  ghost predicate JobsOk(tr: seq<Event>, jobs: map<JobKey, JobState>) {
    forall e :: e in tr ==> Agrees(e, jobs)
  }

  /** A generation has one target, and its invitations go to that target's group for its applicant. */
  ghost predicate OneTarget(tr: seq<Event>) {
    && (forall e, f :: e in tr && f in tr && e.Started? && f.Started? && e.job == f.job ==> e.goal == f.goal)
    && (forall e, f :: e in tr && f in tr && e.Started? && f.Invited? && f.sender.Some?
                       && e.job == JobKey(f.key.binding, f.key.generation) ==>
          f.key.group == e.goal.group && f.sender.value == e.goal.sender)
  }

  lemma JobsHaveOneTarget(tr: seq<Event>, jobs: map<JobKey, JobState>)
    requires JobsOk(tr, jobs)
    ensures OneTarget(tr)
  {
  }

  // ---- The rotating scan ------------------------------------------------------------

  const BATCH: nat := 99

  predicate Distinct(s: seq<nat>) {
    forall i, j :: 0 <= i < j < |s| ==> s[i] != s[j]
  }

  /** The candidates scanned from a stored cursor: all, or a full batch of consecutive ones, in a circle. */
  function Batch(candidates: seq<nat>, raw: nat): (r: seq<nat>)
    ensures |r| == if |candidates| <= BATCH then |candidates| else BATCH
    ensures forall c :: c in r ==> c in candidates
  {
    if |candidates| <= BATCH then candidates
    else seq(BATCH, o requires 0 <= o < BATCH => candidates[(raw % |candidates| + o) % |candidates|])
  }

  /** A batch that is not everything is a stretch of the candidates, written twice in a row. */
  lemma BatchIsConsecutive(candidates: seq<nat>, raw: nat)
    requires |candidates| > BATCH
    ensures var from := raw % |candidates|;
            Batch(candidates, raw) == (candidates + candidates)[from..from + BATCH]
  {
    var n := |candidates|;
    var from := raw % n;
    var twice := candidates + candidates;
    forall o | 0 <= o < BATCH ensures Batch(candidates, raw)[o] == twice[from..from + BATCH][o] {
      var q := if from + o < n then 0 else 1;
      QuotientUnique(from + o, q, from + o - n * q, n);
    }
  }

  function NextCursor(n: nat, raw: nat): nat {
    if n > BATCH then (raw % n + BATCH) % n else 0
  }

  /** The cursor stored after `k` scans of `n` candidates. */
  function CursorAfter(n: nat, raw: nat, k: nat): nat {
    if k == 0 then raw else NextCursor(n, CursorAfter(n, raw, k - 1))
  }

  lemma ModAdd(a: nat, b: nat, n: nat)
    requires n > 0
    ensures (a % n + b) % n == (a + b) % n
  {
    var q := a / n;
    assert a + b == a % n + b + n * q;
    ModMultiple(a % n + b, q, n);
  }

  lemma {:induction false} ModMultiple(x: nat, q: nat, n: nat)
    requires n > 0
    ensures (x + n * q) % n == x % n
    decreases q
  {
    if q > 0 {
      ModMultiple(x, q - 1, n);
      var y := x + n * (q - 1);
      assert x + n * q == y + n;
      ModStep(y, n);
    }
  }

  lemma ModStep(y: nat, n: nat)
    requires n > 0
    ensures (y + n) % n == y % n
  {
    var q, r := y / n, y % n;
    assert y + n == n * (q + 1) + r;
    QuotientUnique(y + n, q + 1, r, n);
  }

  lemma QuotientUnique(x: nat, q: nat, r: nat, n: nat)
    requires n > 0 && x == n * q + r && r < n
    ensures x % n == r
  {
    var p, s := x / n, x % n;
    assert n * p + s == n * q + r;
    if p < q {
      Scale(n, q - p);
    } else if q < p {
      Scale(n, p - q);
    }
  }

  lemma Scale(n: nat, d: nat)
    requires d >= 1
    ensures n * d >= n
    ensures forall m: nat :: n * (m + d) == n * m + n * d
  {
  }

  lemma {:induction false} CursorIs(n: nat, raw: nat, k: nat)
    requires n > BATCH
    ensures CursorAfter(n, raw, k) % n == (raw + BATCH * k) % n
  {
    if k > 0 {
      CursorIs(n, raw, k - 1);
      var c := CursorAfter(n, raw, k - 1);
      ModAdd(c, BATCH, n);
      ModAdd(raw + BATCH * (k - 1), BATCH, n);
      QuotientUnique((c % n + BATCH) % n, 0, (c % n + BATCH) % n, n);
    }
  }

  /** Enough consecutive scans to cover the candidates probe every one, wherever the cursor starts. */
  lemma RotationCovers(candidates: seq<nat>, raw: nat, scans: nat, i: nat)
    requires i < |candidates| && scans * BATCH >= |candidates|
    ensures exists k: nat :: k < scans && candidates[i] in Batch(candidates, CursorAfter(|candidates|, raw, k))
  {
    var n := |candidates|;
    if n <= BATCH {
      assert candidates[i] in Batch(candidates, CursorAfter(n, raw, 0));
    } else {
      // The distance from the cursor to the candidate, in whole batches and a rest.
      var d := (i + n - raw % n) % n;
      var k, o := d / BATCH, d % BATCH;
      assert d == BATCH * k + o;
      Reaches(raw, d, i, n);
      CursorIs(n, raw, k);
      var c := CursorAfter(n, raw, k);
      ModAdd(raw + BATCH * k, o, n);
      assert (c % n + o) % n == i;
      assert Batch(candidates, c)[o] == candidates[i];
    }
  }

  lemma Reaches(raw: nat, d: nat, i: nat, n: nat)
    requires i < n && d == (i + n - raw % n) % n
    ensures (raw + d) % n == i
  {
    ModAdd(raw, d, n);
    ModAdd(i + n - raw % n, raw % n, n);
    ModStep(i, n);
    QuotientUnique(i, 0, i, n);
  }
}
