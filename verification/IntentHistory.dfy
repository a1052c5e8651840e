/** When a coalesced request is read, and why it is given up, told from the requests and results before. */
module IntentHistory {
  import opened Options
  import opened GroupIntents

  // ---------------------------------------------------------------------------------------------
  // One failure

  /** 5, 10, 20, 40, 80, 160 and from then on 300 seconds. */
  function RetryDelay(attempts: nat): Instant {
    if attempts <= 1 then 5000.0 else if attempts == 2 then 10000.0 else if attempts == 3 then 20000.0
    else if attempts == 4 then 40000.0 else if attempts == 5 then 80000.0 else if attempts == 6 then 160000.0 else 300000.0
  }

  lemma {:induction false} DelaysDouble(attempts: nat)
    ensures RetryBase(attempts) == RetryDelay(attempts)
  {
    if attempts > 1 { DelaysDouble(attempts - 1); }
  }

  /** A failed read of a revision that was requested again is due at once, or when the debounce allows it; otherwise it
      is retried after the delay exactly if it may be retried and attempts are left, and given up if not. */
  lemma FailureDecides(c: Config, row: Option<Intent>, token: nat, revision: nat, f: Failure, at: Instant)
    requires TakesEffect(c, row, Fail(token, revision, f), at)
    ensures row.Some? && Next(c, row, Fail(token, revision, f), at).Some?
    ensures var i, j := row.value, Next(c, row, Fail(token, revision, f), at).value;
      && j.lease.None? && j.claimed.None? && j.requested == i.requested && j.completed == i.completed
      && (j.status == PENDING <==> i.requested > revision)
      && (j.status == PENDING ==> j.attempts == 0 && j.nextAttemptAt >= at && j.nextAttemptAt >= i.notBefore
                                  && (j.nextAttemptAt == at || j.nextAttemptAt == i.notBefore))
      && (j.status == RETRY <==> i.requested <= revision && f.retryable && i.attempts < c.maxAttempts)
      && (j.status == RETRY ==> j.attempts == i.attempts && j.nextAttemptAt == at + RetryDelay(i.attempts) * f.jitter)
      && (j.status == FAILED <==> i.requested <= revision && (!f.retryable || i.attempts >= c.maxAttempts))
  {
    DelaysDouble(row.value.attempts);
  }

  // ---------------------------------------------------------------------------------------------
  // Debounce

  function LastRequest(steps: seq<(Step, Instant)>, n: nat): Option<Instant>
    requires n <= |steps|
  {
    if n == 0 then None else if steps[n - 1].0.Schedule? then Some(steps[n - 1].1) else LastRequest(steps, n - 1)
  }

  /** The first request since the intent was last completed or given up. */
  function FirstRequest(states: seq<State>, steps: seq<(Step, Instant)>, n: nat): Option<Instant>
    requires |states| == |steps| + 1 && n <= |steps|
  {
    if n == 0 then None
    else
      var row := states[n - 1].row;
      if steps[n - 1].0.Schedule? && (row.None? || row.value.status == COMPLETED || row.value.status == FAILED)
      then Some(steps[n - 1].1)
      else FirstRequest(states, steps, n - 1)
  }

  /** The row remembers both, and waits for the earlier of the debounce after the one and the maximum wait after the
      other. */
  ghost predicate Remembers(c: Config, states: seq<State>, steps: seq<(Step, Instant)>, n: nat)
    requires |states| == |steps| + 1 && n <= |steps|
  {
    states[n].row.Some? ==>
      var i, last, first := states[n].row.value, LastRequest(steps, n), FirstRequest(states, steps, n);
      && last == Some(i.lastRequestedAt) && first == Some(i.firstRequestedAt)
      && i.notBefore <= last.value + c.debounce && i.notBefore <= first.value + c.maxWait
      && (i.notBefore == last.value + c.debounce || i.notBefore == first.value + c.maxWait)
  }

  lemma {:induction false} RequestsAreRemembered(c: Config, states: seq<State>, steps: seq<(Step, Instant)>, n: nat)
    requires c.Valid() && IsRun(c, states, steps) && n <= |steps|
    ensures Remembers(c, states, steps, n)
  {
    if n > 0 {
      RequestsAreRemembered(c, states, steps, n - 1);
      assert states[n - 1 + 1].row == Next(c, states[n - 1].row, steps[n - 1].0, steps[n - 1].1);
    }
  }

  /** A request is not read before the debounce since the last one is over, unless the first one has waited for as long
      as requests may. */
  lemma ClaimsWaitForDebounce(c: Config, states: seq<State>, steps: seq<(Step, Instant)>, n: nat, token: nat)
    requires c.Valid() && IsRun(c, states, steps) && n < |steps| && IsClaim(c, states, steps, n, token)
    ensures LastRequest(steps, n).Some? && FirstRequest(states, steps, n).Some?
    ensures || steps[n].1 >= LastRequest(steps, n).value + c.debounce
            || steps[n].1 >= FirstRequest(states, steps, n).value + c.maxWait
  {
    RequestsAreRemembered(c, states, steps, n);
  }

  // ---------------------------------------------------------------------------------------------
  // Giving up

  /** Step `k` took effect as a failure that may not be retried. */
  predicate IsFinalFailure(c: Config, states: seq<State>, steps: seq<(Step, Instant)>, k: nat)
    requires |states| == |steps| + 1 && k < |steps|
  {
    steps[k].0.Fail? && !steps[k].0.failure.retryable && TakesEffect(c, states[k].row, steps[k].0, steps[k].1)
  }

  /** An intent is given up only after its last attempt, or on a failure that may not be retried and after which nobody
      requested it again. */
  lemma {:induction false} WhyIntentsFail(c: Config, states: seq<State>, steps: seq<(Step, Instant)>, n: nat)
    requires c.Valid() && IsRun(c, states, steps) && n <= |steps| && states[n].row.Some? && states[n].row.value.status == FAILED
    ensures states[n].row.value.attempts == c.maxAttempts
            || exists k :: 0 <= k < n && IsFinalFailure(c, states, steps, k) && NoRequestSince(steps, k, n)
    decreases n
  {
    RunKeepsInv(c, states, steps, n);
    if n > 0 {
      var s, step, at := states[n - 1], steps[n - 1].0, steps[n - 1].1;
      RunKeepsInv(c, states, steps, n - 1);
      assert states[n - 1 + 1].row == Next(c, s.row, step, at);
      if s.row.Some? && s.row.value.status == FAILED {
        WhyIntentsFail(c, states, steps, n - 1);
        if k :| 0 <= k < n - 1 && IsFinalFailure(c, states, steps, k) && NoRequestSince(steps, k, n - 1) {
          assert !step.Schedule?;
          assert NoRequestSince(steps, k, n);
        }
      } else if states[n].row.value.attempts < c.maxAttempts {
        assert IsFinalFailure(c, states, steps, n - 1) && NoRequestSince(steps, n - 1, n);
      }
    }
  }

  // ---------------------------------------------------------------------------------------------
  // Leases

  /** A claim stands: only its holder ends or renews it, before the lease runs out, and only after that anybody else
      takes it away; a request leaves it alone. */
  lemma ClaimStands(c: Config, row: Option<Intent>, step: Step, at: Instant)
    requires TakesEffect(c, row, step, at) && row.Some? && row.value.status == RUNNING && row.value.lease.Some?
    ensures Next(c, row, step, at).Some?
    ensures var i, j := row.value, Next(c, row, step, at).value;
      j.status != RUNNING || j.lease != i.lease || j.claimed != i.claimed ==>
        || (!step.Schedule? && !step.Claim? && !step.Recover? && step.token == i.lease.value.token && at < i.lease.value.expiresAt)
        || i.lease.value.expiresAt < at
  {
  }
}
