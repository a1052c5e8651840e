/** Targeted reconciliation of one group: requests coalesce into a revisioned intent, a claim reads the
    requested revision, and whatever was requested while it ran is read again. Times are in milliseconds. */
module GroupIntents {
  import opened Options

  type Instant = real

  /** Debounce and maximum wait of a request, and the attempts a revision gets. */
  datatype Config = Config(debounce: Instant, maxWait: Instant, maxAttempts: nat)
  {
    predicate Valid() { 0.0 <= debounce <= maxWait && 1 <= maxAttempts }
  }

  datatype Status = PENDING | RUNNING | RETRY | COMPLETED | FAILED
  datatype Lease = Lease(token: nat, expiresAt: Instant)
  datatype Intent = Intent(status: Status, requested: nat, completed: nat, claimed: Option<nat>, notBefore: Instant,
                           nextAttemptAt: Instant, attempts: nat, lease: Option<Lease>,
                           firstRequestedAt: Instant, lastRequestedAt: Instant, coalesced: nat)

  /** `jitter` is the random factor of the retry delay. */
  datatype Failure = Failure(retryable: bool, jitter: real)

  const LEASE_MS := 120000.0

  /** `min(300, 5 * 2 ** max(0, attempts - 1))` seconds. */
  function RetryBase(attempts: nat): Instant {
    if attempts <= 1 then 5000.0 else Earlier(300000.0, 2.0 * RetryBase(attempts - 1))
  }

  function RetryAt(attempts: nat, jitter: real, now: Instant): Instant {
    now + RetryBase(attempts) * jitter
  }

  function Earlier(a: Instant, b: Instant): Instant { if a <= b then a else b }
  function Later(a: Instant, b: Instant): Instant { if a >= b then a else b }

  predicate IsOver(i: Intent) { i.status == COMPLETED || i.status == FAILED }
  predicate IsWaiting(i: Intent) { i.status == PENDING || i.status == RETRY }

  // ---------------------------------------------------------------------------------------------
  // The transactions on one row

  function Scheduled(c: Config, row: Option<Intent>, now: Instant): Intent {
    match row
    case None => Intent(PENDING, 1, 0, None, now + c.debounce, now + c.debounce, 0, None, now, now, 0)
    case Some(i) =>
      var first := if IsOver(i) then now else i.firstRequestedAt;
      var notBefore := Earlier(first + c.maxWait, now + c.debounce);
      var running := i.status == RUNNING;
      i.(requested := i.requested + 1, status := if running then RUNNING else PENDING, notBefore := notBefore,
         nextAttemptAt := if running then i.nextAttemptAt else notBefore, attempts := if running then i.attempts else 0,
         coalesced := if IsOver(i) then 0 else i.coalesced + 1, firstRequestedAt := first, lastRequestedAt := now)
  }

  predicate Claimable(c: Config, i: Intent, now: Instant) {
    IsWaiting(i) && i.nextAttemptAt <= now && i.notBefore <= now && i.attempts < c.maxAttempts
  }

  function Claimed(i: Intent, token: nat, now: Instant): Intent {
    i.(status := RUNNING, claimed := Some(i.requested), attempts := i.attempts + 1, lease := Some(Lease(token, now + LEASE_MS)))
  }

  predicate Owns(row: Option<Intent>, token: nat, now: Instant) {
    row.Some? && row.value.status == RUNNING && row.value.lease.Some?
    && row.value.lease.value.token == token && row.value.lease.value.expiresAt > now
  }

  predicate OwnsRevision(row: Option<Intent>, token: nat, revision: nat, now: Instant) {
    Owns(row, token, now) && row.value.claimed == Some(revision)
  }

  function Renewed(i: Intent, now: Instant): Intent
    requires i.lease.Some?
  {
    i.(lease := Some(i.lease.value.(expiresAt := now + LEASE_MS)))
  }

  /** What a request that arrived meanwhile turns the row into. */
  function Reopened(i: Intent, now: Instant): Intent {
    i.(status := PENDING, attempts := 0, nextAttemptAt := Later(i.notBefore, now), claimed := None, lease := None)
  }

  /** A read that succeeded, or found the group gone. */
  function Finished(i: Intent, revision: nat, now: Instant): Intent {
    var done := i.(completed := if i.completed >= revision then i.completed else revision);
    if i.requested > revision then Reopened(done, now) else done.(status := COMPLETED, claimed := None, lease := None)
  }

  function GaveUp(c: Config, i: Intent, revision: nat, f: Failure, now: Instant): Intent {
    if i.requested > revision then Reopened(i, now)
    else if f.retryable && i.attempts < c.maxAttempts
    then i.(status := RETRY, nextAttemptAt := RetryAt(i.attempts, f.jitter, now), claimed := None, lease := None)
    else i.(status := FAILED, claimed := None, lease := None)
  }

  predicate IsExpired(i: Intent, now: Instant) {
    i.status == RUNNING && i.lease.Some? && i.lease.value.expiresAt < now
  }

  function Recovered(c: Config, i: Intent, now: Instant): Intent {
    if i.requested > (if i.claimed.Some? then i.claimed.value else i.completed) then Reopened(i, now)
    else if i.attempts >= c.maxAttempts then i.(status := FAILED, claimed := None, lease := None)
    else i.(status := RETRY, nextAttemptAt := now, claimed := None, lease := None)
  }

  // ---------------------------------------------------------------------------------------------
  // Runs

  datatype State = State(now: Instant, row: Option<Intent>)

  /** `Finish` is both a completed read and a read that found no group. */
  datatype Step =
    | Schedule
    | Claim(token: nat)
    | Renew(token: nat)
    | Finish(token: nat, revision: nat)
    | Fail(token: nat, revision: nat, failure: Failure)
    | Recover

  /** Whether the step's guard holds; otherwise it changes nothing. */
  predicate TakesEffect(c: Config, row: Option<Intent>, step: Step, at: Instant) {
    match step
    case Schedule => true
    case Claim(_) => row.Some? && Claimable(c, row.value, at)
    case Renew(token) => Owns(row, token, at)
    case Finish(token, revision) => OwnsRevision(row, token, revision, at)
    case Fail(token, revision, _) => OwnsRevision(row, token, revision, at)
    case Recover => row.Some? && IsExpired(row.value, at)
  }

  function Next(c: Config, row: Option<Intent>, step: Step, at: Instant): Option<Intent> {
    if !TakesEffect(c, row, step, at) then row else
    match step
    case Schedule => Some(Scheduled(c, row, at))
    case Claim(token) => Some(Claimed(row.value, token, at))
    case Renew(_) => Some(Renewed(row.value, at))
    case Finish(_, revision) => Some(Finished(row.value, revision, at))
    case Fail(_, revision, failure) => Some(GaveUp(c, row.value, revision, failure, at))
    case Recover => Some(Recovered(c, row.value, at))
  }

  ghost predicate IsRun(c: Config, states: seq<State>, steps: seq<(Step, Instant)>) {
    && |states| == |steps| + 1 && states[0].row == None
    && forall i :: 0 <= i < |steps| ==>
         states[i].now <= steps[i].1 == states[i + 1].now
         && states[i + 1].row == Next(c, states[i].row, steps[i].0, steps[i].1)
  }

  predicate RowOk(c: Config, i: Intent, now: Instant) {
    && i.completed <= i.requested && (i.status == COMPLETED <==> i.completed == i.requested)
    && (i.status == RUNNING <==> i.claimed.Some?) && (i.status == RUNNING ==> i.lease.Some?)
    && (i.claimed.Some? ==> i.completed < i.claimed.value <= i.requested)
    && (IsWaiting(i) ==> i.attempts < c.maxAttempts) && i.attempts <= c.maxAttempts
    && i.firstRequestedAt <= i.lastRequestedAt <= now
    && i.notBefore <= i.firstRequestedAt + c.maxWait && i.notBefore <= i.lastRequestedAt + c.debounce
    && (i.status == PENDING ==> i.nextAttemptAt <= Later(i.notBefore, now))
  }

  predicate Inv(c: Config, s: State) {
    s.row.Some? ==> RowOk(c, s.row.value, s.now)
  }

  lemma StepKeeps(c: Config, s: State, step: Step, at: Instant)
    requires c.Valid() && Inv(c, s) && s.now <= at
    ensures Inv(c, State(at, Next(c, s.row, step, at)))
  {
  }

  lemma {:induction false} RunKeepsInv(c: Config, states: seq<State>, steps: seq<(Step, Instant)>, n: nat)
    requires c.Valid() && IsRun(c, states, steps) && n <= |steps|
    ensures Inv(c, states[n])
  {
    if n > 0 {
      RunKeepsInv(c, states, steps, n - 1);
      StepKeeps(c, states[n - 1], steps[n - 1].0, steps[n - 1].1);
      assert states[n - 1 + 1].row == Next(c, states[n - 1].row, steps[n - 1].0, steps[n - 1].1);
    }
  }

  /** No revision is completed before it is requested, an intent is completed exactly when nothing requested
      is open, and one that waits may still be tried. */
  lemma RevisionsAreOrdered(c: Config, states: seq<State>, steps: seq<(Step, Instant)>, n: nat)
    requires c.Valid() && IsRun(c, states, steps) && n <= |steps| && states[n].row.Some?
    ensures var i := states[n].row.value;
      && i.completed <= i.requested && (i.status == COMPLETED <==> i.completed == i.requested)
      && (IsWaiting(i) ==> i.attempts < c.maxAttempts)
      && i.notBefore <= i.firstRequestedAt + c.maxWait
  {
    RunKeepsInv(c, states, steps, n);
  }

  /** However often it is requested again, a pending intent can be claimed once the maximum wait since its
      first request has passed. */
  lemma CoalescingDoesNotStarve(c: Config, states: seq<State>, steps: seq<(Step, Instant)>, n: nat, at: Instant)
    requires c.Valid() && IsRun(c, states, steps) && n <= |steps| && states[n].row.Some?
    requires states[n].row.value.status == PENDING && states[n].now <= at
    requires at >= states[n].row.value.firstRequestedAt + c.maxWait
    ensures Claimable(c, states[n].row.value, at)
  {
    RunKeepsInv(c, states, steps, n);
  }

  // ---------------------------------------------------------------------------------------------
  // No request is lost

  /** The claim at step `j` took effect, for `token`. */
  predicate IsClaim(c: Config, states: seq<State>, steps: seq<(Step, Instant)>, j: nat, token: nat)
    requires |states| == |steps| + 1 && j < |steps|
  {
    steps[j].0 == Claim(token) && TakesEffect(c, states[j].row, steps[j].0, steps[j].1)
  }

  predicate NoRequestSince(steps: seq<(Step, Instant)>, j: nat, n: nat)
    requires n <= |steps|
  {
    forall i :: j < i < n ==> !steps[i].0.Schedule?
  }

  /** While a claim reads the latest revision, no request came after it. */
  lemma {:induction false} RunningReadIsFresh(c: Config, states: seq<State>, steps: seq<(Step, Instant)>, n: nat) returns (j: nat)
    requires c.Valid() && IsRun(c, states, steps) && n <= |steps| && states[n].row.Some?
    requires states[n].row.value.status == RUNNING && states[n].row.value.claimed == Some(states[n].row.value.requested)
    ensures j < n && states[n].row.value.lease.Some?
    ensures IsClaim(c, states, steps, j, states[n].row.value.lease.value.token) && NoRequestSince(steps, j, n)
  {
    RunKeepsInv(c, states, steps, n);
    RunKeepsInv(c, states, steps, n - 1);
    var step, at := steps[n - 1].0, steps[n - 1].1;
    assert states[n - 1 + 1].row == Next(c, states[n - 1].row, step, at);
    if step.Claim? && TakesEffect(c, states[n - 1].row, step, at) {
      j := n - 1;
    } else {
      j := RunningReadIsFresh(c, states, steps, n - 1);
    }
  }

  /** The step at `k` ended a read with success or a missing group. */
  predicate IsFinish(c: Config, states: seq<State>, steps: seq<(Step, Instant)>, k: nat, token: nat)
    requires |states| == |steps| + 1 && k < |steps|
  {
    steps[k].0.Finish? && steps[k].0.token == token && TakesEffect(c, states[k].row, steps[k].0, steps[k].1)
  }

  /** A completed intent was completed by a read that was claimed after the last request. */
  lemma {:induction false} CompletedReadIsFresh(c: Config, states: seq<State>, steps: seq<(Step, Instant)>, n: nat)
    returns (j: nat, k: nat, token: nat)
    requires c.Valid() && IsRun(c, states, steps) && n <= |steps| && states[n].row.Some?
    requires states[n].row.value.status == COMPLETED
    ensures j < k < n && IsClaim(c, states, steps, j, token) && IsFinish(c, states, steps, k, token)
    ensures NoRequestSince(steps, j, n)
  {
    var step, at := steps[n - 1].0, steps[n - 1].1;
    RunKeepsInv(c, states, steps, n - 1);
    assert states[n - 1 + 1].row == Next(c, states[n - 1].row, step, at);
    if step.Finish? && TakesEffect(c, states[n - 1].row, step, at) {
      k, token := n - 1, step.token;
      j := RunningReadIsFresh(c, states, steps, n - 1);
    } else {
      j, k, token := CompletedReadIsFresh(c, states, steps, n - 1);
    }
  }

  // ---------------------------------------------------------------------------------------------
  // Every request ends

  /** What is left to do without a further request. */
  function Measure(c: Config, i: Intent): int {
    if IsOver(i) then 0
    else if IsWaiting(i) then 2 * (c.maxAttempts - i.attempts)
    else if i.claimed == Some(i.requested) then 2 * (c.maxAttempts - i.attempts) + 1
    else 2 * c.maxAttempts + 1
  }

  /** Only a request can make more work; claims, results, failures and expiries each use some up. */
  lemma StepsMakeProgress(c: Config, s: State, step: Step, at: Instant)
    requires c.Valid() && Inv(c, s) && s.row.Some? && s.now <= at
    requires !step.Schedule? && !step.Renew? && TakesEffect(c, s.row, step, at)
    ensures 0 <= Measure(c, Next(c, s.row, step, at).value) < Measure(c, s.row.value) <= 2 * c.maxAttempts + 1
  {
  }

  /** Steps that take effect, other than renewals, between `from` and `n`. */
  function Progress(c: Config, states: seq<State>, steps: seq<(Step, Instant)>, from: nat, n: nat): nat
    requires |states| == |steps| + 1 && from <= n <= |steps|
    decreases n
  {
    if n == from then 0
    else Progress(c, states, steps, from, n - 1)
         + if !steps[n - 1].0.Renew? && TakesEffect(c, states[n - 1].row, steps[n - 1].0, steps[n - 1].1) then 1 else 0
  }

  /** Without a further request an intent is over after at most `2 * maxAttempts + 1` steps. */
  lemma {:induction false} RequestsEnd(c: Config, states: seq<State>, steps: seq<(Step, Instant)>, from: nat, n: nat)
    requires c.Valid() && IsRun(c, states, steps) && from <= n <= |steps| && states[from].row.Some?
    requires forall i :: from <= i < n ==> !steps[i].0.Schedule?
    ensures states[n].row.Some? && Measure(c, states[n].row.value) >= 0
    ensures Progress(c, states, steps, from, n) + Measure(c, states[n].row.value) <= 2 * c.maxAttempts + 1
    ensures IsOver(states[n].row.value) <==> Measure(c, states[n].row.value) == 0
    decreases n
  {
    RunKeepsInv(c, states, steps, n);
    if n > from {
      RequestsEnd(c, states, steps, from, n - 1);
      var s, step, at := states[n - 1], steps[n - 1].0, steps[n - 1].1;
      RunKeepsInv(c, states, steps, n - 1);
      assert states[n - 1 + 1].row == Next(c, s.row, step, at);
      if !step.Renew? && TakesEffect(c, s.row, step, at) { StepsMakeProgress(c, s, step, at); }
    }
  }
}
