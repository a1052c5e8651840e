/** What failures do to the pacing of a session: they halve its rate, hold the next request back for a while that
    grows with every failure in a row, and nobody gets in while a request is under way. */
module PacingPressure {
  import opened Options
  import opened PacingLimit

  /** The step ends an acquisition of `token` in the row. */
  predicate Ends(row: Option<Row>, step: Step, token: nat) {
    Owns(row, token) && (step == Success(token) || step == Release(token) || (step.Failure? && step.token == token))
  }

  predicate IsPressure(row: Option<Row>, step: Step) {
    step.Failure? && step.policy.ratePressure && Owns(row, step.token)
  }

  /** 5, 15, 30, then 60 seconds with the failure's jitter, unless the server said how long to wait. */
  function Wait(policy: Policy, failures: nat): Instant {
    if policy.retryAfter.Some? then policy.retryAfter.value
    else policy.jitter * (if failures <= 1 then 5000.0 else if failures == 2 then 15000.0 else if failures == 3 then 30000.0 else 60000.0)
  }

  // ---------------------------------------------------------------------------------------------
  // One failure

  /** A failure that reduces an adaptive rate halves it, rounding down, but not below the minimum, and one that does
      not leaves it; either way the lease is given back. */
  lemma FailureHalvesRate(c: Config, s: State, token: nat, policy: Policy, at: Instant)
    requires c.Valid() && Owns(s.row, token)
    ensures var t := After(c, s, Failure(token, policy), at);
            var rate := if s.row.value.rate.Some? then s.row.value.rate.value else c.max;
      && t.row.Some? && t.row.value.rate.Some? && t.row.value.lease.None? && t.log == s.log
      && (policy.reduceRate && c.adaptive ==>
            var reduced := t.row.value.rate.value;
            && c.min <= reduced && rate <= 2 * reduced + 1
            && (reduced == c.min || 2 * reduced <= rate))
      && (!(policy.reduceRate && c.adaptive) ==> t.row.value.rate.value == rate)
  {
  }

  /** A success forgets the failures and the cooldown and gives the lease back. */
  lemma SuccessClears(c: Config, s: State, token: nat, at: Instant)
    requires c.Valid() && Owns(s.row, token)
    ensures var t := After(c, s, Success(token), at);
      t.row.Some? && t.row.value.failures == 0 && t.row.value.cooldownUntil.None? && t.row.value.lease.None? && t.log == s.log
  {
  }

  // ---------------------------------------------------------------------------------------------
  // Failures in a row

  /** Failures under pressure since the last success, or since the start. */
  function InARow(states: seq<State>, steps: seq<(Step, Instant)>, n: nat): nat
    requires |states| == |steps| + 1 && n <= |steps|
  {
    if n == 0 then (if states[0].row.Some? then states[0].row.value.failures else 0)
    else
      var row, step := states[n - 1].row, steps[n - 1].0;
      if step.Success? && Owns(row, step.token) then 0
      else InARow(states, steps, n - 1) + if IsPressure(row, step) then 1 else 0
  }

  lemma {:induction false} FailuresAreCounted(c: Config, states: seq<State>, steps: seq<(Step, Instant)>, n: nat)
    requires c.Valid() && IsRun(c, states, steps) && n <= |steps|
    ensures InARow(states, steps, n) == if states[n].row.Some? then states[n].row.value.failures else 0
  {
    if n > 0 {
      FailuresAreCounted(c, states, steps, n - 1);
      assert states[n - 1 + 1] == After(c, states[n - 1], steps[n - 1].0, steps[n - 1].1);
    }
  }

  // ---------------------------------------------------------------------------------------------
  // The cooldown

  /** The next acquisition is the one at place `place`: either there is none yet and the cooldown stands, or it came
      no earlier than `until`. */
  ghost predicate CoolsDown(s: State, place: nat, until: Instant) {
    if |s.log| > place then s.log[place].at >= until
    else |s.log| == place && s.row.Some? && s.row.value.lease.None? && s.row.value.cooldownUntil == Some(until)
  }

  lemma CoolsDownStep(c: Config, s: State, step: Step, at: Instant, place: nat, until: Instant)
    requires c.Valid() && CoolsDown(s, place, until)
    ensures CoolsDown(After(c, s, step, at), place, until)
  {
  }

  lemma {:induction false} CoolsDownFrom(c: Config, states: seq<State>, steps: seq<(Step, Instant)>, k: nat, n: nat)
    requires c.Valid() && IsRun(c, states, steps) && k < n <= |steps| && IsPressure(states[k].row, steps[k].0)
    ensures CoolsDown(states[n], |states[k].log|, steps[k].1 + Wait(steps[k].0.policy, InARow(states, steps, k) + 1))
    decreases n
  {
    if n == k + 1 {
      FailuresAreCounted(c, states, steps, k);
      assert states[k + 1] == After(c, states[k], steps[k].0, steps[k].1);
    } else {
      CoolsDownFrom(c, states, steps, k, n - 1);
      assert states[n - 1 + 1] == After(c, states[n - 1], steps[n - 1].0, steps[n - 1].1);
      CoolsDownStep(c, states[n - 1], steps[n - 1].0, steps[n - 1].1, |states[k].log|,
                    steps[k].1 + Wait(steps[k].0.policy, InARow(states, steps, k) + 1));
    }
  }

  /** After a failure under pressure the next request of the session, whoever makes it, waits for as long as the
      server asked, or else for a time that grows with the failures since the last success. */
  lemma CooldownIsKept(c: Config, states: seq<State>, steps: seq<(Step, Instant)>, k: nat, n: nat)
    requires c.Valid() && IsRun(c, states, steps) && k < n <= |steps| && IsPressure(states[k].row, steps[k].0)
    ensures |states[n].log| > |states[k].log| ==>
      states[n].log[|states[k].log|].at >= steps[k].1 + Wait(steps[k].0.policy, InARow(states, steps, k) + 1)
  {
    CoolsDownFrom(c, states, steps, k, n);
  }

  // ---------------------------------------------------------------------------------------------
  // One request at a time

  /** The holder gave its acquisition back between the steps `k` and `n`. */
  ghost predicate GivenBack(states: seq<State>, steps: seq<(Step, Instant)>, k: nat, n: nat, token: nat)
    requires |states| == |steps| + 1 && n <= |steps|
  {
    exists j :: k < j < n && Ends(states[j].row, steps[j].0, token)
  }

  /** The acquisition at the last place still stands, or the next one came after its lease had run out. */
  ghost predicate Excludes(s: State, place: nat, token: nat, from: Instant) {
    if |s.log| > place + 1 then s.log[place + 1].at > from + LEASE_MS
    else |s.log| == place + 1 && Owns(s.row, token) && s.row.value.lease.value.expiresAt >= from + LEASE_MS
  }

  lemma ExcludesStep(c: Config, s: State, step: Step, at: Instant, place: nat, token: nat, from: Instant)
    requires c.Valid() && Excludes(s, place, token, from) && from <= at && !Ends(s.row, step, token)
    ensures Excludes(After(c, s, step, at), place, token, from)
  {
  }

  lemma {:induction false} TimesAreOrdered(c: Config, states: seq<State>, steps: seq<(Step, Instant)>, k: nat, n: nat)
    requires c.Valid() && IsRun(c, states, steps) && k <= n < |steps|
    ensures steps[k].1 <= steps[n].1
    decreases n
  {
    if k < n {
      TimesAreOrdered(c, states, steps, k, n - 1);
      assert states[n - 1 + 1] == After(c, states[n - 1], steps[n - 1].0, steps[n - 1].1);
      assert states[n].now <= steps[n].1;
    }
  }

  lemma {:induction false} ExcludesFrom(c: Config, states: seq<State>, steps: seq<(Step, Instant)>, k: nat, n: nat)
    requires c.Valid() && IsRun(c, states, steps) && k < n <= |steps| && steps[k].0.Reserve?
    requires |states[k + 1].log| > |states[k].log| && !GivenBack(states, steps, k, n, steps[k].0.token)
    ensures Excludes(states[n], |states[k].log|, steps[k].0.token, steps[k].1)
    decreases n
  {
    if n == k + 1 {
      assert states[k + 1] == After(c, states[k], steps[k].0, steps[k].1);
    } else {
      assert !GivenBack(states, steps, k, n - 1, steps[k].0.token);
      ExcludesFrom(c, states, steps, k, n - 1);
      assert states[n - 1 + 1] == After(c, states[n - 1], steps[n - 1].0, steps[n - 1].1);
      TimesAreOrdered(c, states, steps, k, n - 1);
      ExcludesStep(c, states[n - 1], steps[n - 1].0, steps[n - 1].1, |states[k].log|, steps[k].0.token, steps[k].1);
    }
  }

  /** Between one acquisition of a session and the next the first holder gave back, by a success, a failure or a
      release, or its lease ran out. */
  lemma OneRequestAtATime(c: Config, states: seq<State>, steps: seq<(Step, Instant)>, k: nat, n: nat)
    requires c.Valid() && IsRun(c, states, steps) && k < n <= |steps| && steps[k].0.Reserve?
    requires |states[k + 1].log| > |states[k].log| && |states[n].log| > |states[k].log| + 1
    ensures GivenBack(states, steps, k, n, steps[k].0.token) || states[n].log[|states[k].log| + 1].at > steps[k].1 + LEASE_MS
  {
    if !GivenBack(states, steps, k, n, steps[k].0.token) {
      ExcludesFrom(c, states, steps, k, n);
    }
  }

  /** A reservation succeeds exactly if there is no row yet, or the gap, the cooldown and the lease in it are over; the
      next one has to wait for a minute divided by the rate. */
  lemma ReservesExactlyWhenFree(c: Config, s: State, token: nat, at: Instant)
    requires c.Valid() && Inv(c, s)
    ensures var t := After(c, s, Reserve(token), at);
      && t.row.Some?
      && (|t.log| == |s.log| + 1 <==>
            (s.row.Some? ==>
               && s.row.value.nextRequestAt <= at
               && (s.row.value.cooldownUntil.Some? ==> s.row.value.cooldownUntil.value <= at)
               && (s.row.value.lease.Some? ==> s.row.value.lease.value.expiresAt < at)))
      && (|t.log| != |s.log| + 1 ==> t.log == s.log)
      && (|t.log| == |s.log| + 1 ==>
            var last := t.log[|s.log|];
            && last.at == at && c.min <= last.rate <= c.max && (!c.adaptive ==> last.rate == c.max)
            && (c.adaptive && s.row.Some? && s.row.value.rate.Some? ==> last.rate == s.row.value.rate.value)
            && last.rate > 0 && t.row.value.nextRequestAt == at + 60000.0 / last.rate as real
            && t.row.value.lease == Some(Lease(token, at + LEASE_MS)))
  {
    var row := Ensured(c, s.row, at);
    assert RowOk(c, row) && 1 <= EffectiveRate(c, row) <= c.max;
  }
}
