/** Adaptive pacing of one session's group reads: a lease that serializes them, a gap between acquisitions,
    and a rate that is halved under pressure and recovers one step per run of successes. Times are real and
    in milliseconds. */
module PacingLimit {
  import opened Options
  import opened Orders

  type Instant = real

  datatype Config = Config(max: nat, min: nat, recovery: nat, adaptive: bool)
  {
    predicate Valid() { 1 <= min <= max && 1 <= recovery }
  }

  datatype Lease = Lease(token: nat, expiresAt: Instant)
  datatype Row = Row(nextRequestAt: Instant, failures: nat, cooldownUntil: Option<Instant>, lease: Option<Lease>,
                     rate: Option<nat>, streak: nat)

  /** `jitter` is the random factor of the cooldown, from 0.8 up to but not including 1.2. */
  datatype Policy = Policy(ratePressure: bool, reduceRate: bool, retryAfter: Option<Instant>, jitter: real)

  const MINUTE := 60000.0
  const LEASE_MS := 120000.0

  function RateOf(c: Config, row: Row): nat {
    if row.rate.Some? then row.rate.value else c.max
  }

  // ---------------------------------------------------------------------------------------------
  // The transactions on one row

  function Ensured(c: Config, row: Option<Row>, now: Instant): Row {
    match row
    case None => Row(now, 0, None, None, Some(c.max), 0)
    case Some(r) => r.(rate := Some(Lesser(RateOf(c, r), c.max)))
  }

  predicate Ready(row: Row, now: Instant) {
    && row.nextRequestAt <= now && (row.cooldownUntil.Some? ==> row.cooldownUntil.value <= now)
    && (row.lease.None? || row.lease.value.expiresAt < now)
  }

  function EffectiveRate(c: Config, row: Row): nat {
    if c.adaptive then RateOf(c, row) else c.max
  }

  function Gap(rate: nat): Instant
    requires rate > 0
  {
    MINUTE / rate as real
  }

  function Acquired(row: Row, token: nat, rate: nat, now: Instant): Row
    requires rate > 0
  {
    row.(nextRequestAt := now + Gap(rate), lease := Some(Lease(token, now + LEASE_MS)))
  }

  predicate Owns(row: Option<Row>, token: nat) {
    row.Some? && row.value.lease.Some? && row.value.lease.value.token == token
  }

  function Extended(row: Row, now: Instant): Row
    requires row.lease.Some?
  {
    row.(lease := Some(row.lease.value.(expiresAt := now + LEASE_MS)))
  }

  /** Rate and streak after one success. */
  function Rewarded(c: Config, rate: nat, streak: nat): (nat, nat) {
    if !c.adaptive then (rate, 0)
    else if streak + 1 >= c.recovery then (Lesser(c.max, rate + 1), 0)
    else (rate, streak + 1)
  }

  function Succeeded(c: Config, row: Row): Row {
    var (rate, streak) := Rewarded(c, RateOf(c, row), row.streak);
    row.(failures := 0, cooldownUntil := None, rate := Some(rate), streak := streak, lease := None)
  }

  function Backoff(failures: nat): Instant {
    if failures == 1 then 5000.0 else if failures == 2 then 15000.0 else if failures == 3 then 30000.0 else 60000.0
  }

  function Failed(c: Config, row: Row, policy: Policy, now: Instant): Row {
    var reduced := if policy.reduceRate && c.adaptive then Greater(c.min, RateOf(c, row) / 2) else RateOf(c, row);
    var r := row.(rate := Some(reduced), lease := None);
    if policy.ratePressure
    then r.(failures := row.failures + 1, streak := 0,
            cooldownUntil := Some(now + if policy.retryAfter.Some? then policy.retryAfter.value
                                        else Backoff(Lesser(row.failures + 1, 4)) * policy.jitter))
    else r
  }

  // ---------------------------------------------------------------------------------------------
  // Runs of one session

  datatype Acquisition = Acquisition(at: Instant, rate: nat)
  datatype State = State(now: Instant, row: Option<Row>, log: seq<Acquisition>)

  /** `Touch` is the unconditional renewal made by a fenced write. */
  datatype Step =
    | Reserve(token: nat)
    | Renew(token: nat)
    | Touch(token: nat)
    | Success(token: nat)
    | Failure(token: nat, policy: Policy)
    | Release(token: nat)

  function After(c: Config, s: State, step: Step, at: Instant): State
    requires c.Valid()
  {
    var t := s.(now := at);
    match step
    case Reserve(token) =>
      var row := Ensured(c, s.row, at);
      if Ready(row, at) && EffectiveRate(c, row) > 0
      then t.(row := Some(Acquired(row, token, EffectiveRate(c, row), at)), log := s.log + [Acquisition(at, EffectiveRate(c, row))])
      else t.(row := Some(row))
    case Renew(token) =>
      if Owns(s.row, token) && s.row.value.lease.value.expiresAt > at then t.(row := Some(Extended(s.row.value, at))) else t
    case Touch(token) => if Owns(s.row, token) then t.(row := Some(Extended(s.row.value, at))) else t
    case Success(token) => if Owns(s.row, token) then t.(row := Some(Succeeded(c, s.row.value))) else t
    case Failure(token, policy) => if Owns(s.row, token) then t.(row := Some(Failed(c, s.row.value, policy, at))) else t
    case Release(token) => if Owns(s.row, token) then t.(row := Some(s.row.value.(lease := None))) else t
  }

  /** No row yet, or one from before the adaptive columns existed. */
  predicate IsStart(s: State) {
    s.log == [] && (s.row.Some? ==> s.row.value.rate.None? && s.row.value.streak == 0)
  }

  ghost predicate IsRun(c: Config, states: seq<State>, steps: seq<(Step, Instant)>)
    requires c.Valid()
  {
    && |states| == |steps| + 1 && IsStart(states[0])
    && forall i :: 0 <= i < |steps| ==>
         states[i].now <= steps[i].1 && states[i + 1] == After(c, states[i], steps[i].0, steps[i].1)
  }

  /** The rate stays within its bounds and the streak below the recovery threshold. */
  predicate RowOk(c: Config, row: Row) {
    (row.rate.Some? ==> c.min <= row.rate.value <= c.max) && row.streak < c.recovery
  }

  /** Each acquisition waits out the gap of the one before, and the row remembers the last gap. */
  predicate LogOk(c: Config, s: State) {
    && (forall i :: 0 <= i < |s.log| ==> 1 <= s.log[i].rate <= c.max)
    && (forall i :: 0 <= i < |s.log| - 1 ==> s.log[i].at + Gap(s.log[i].rate) <= s.log[i + 1].at)
    && (s.log != [] ==> var last := s.log[|s.log| - 1];
                        s.row.Some? && s.row.value.nextRequestAt == last.at + Gap(last.rate))
  }

  predicate Inv(c: Config, s: State) {
    (s.row.Some? ==> RowOk(c, s.row.value)) && LogOk(c, s)
  }

  lemma ReserveKeeps(c: Config, s: State, token: nat, at: Instant)
    requires c.Valid() && Inv(c, s)
    ensures Inv(c, After(c, s, Reserve(token), at))
  {
    var row, t := Ensured(c, s.row, at), After(c, s, Reserve(token), at);
    assert RowOk(c, row) && 1 <= EffectiveRate(c, row) <= c.max;
    forall i | 0 <= i < |t.log| - 1 ensures t.log[i].at + Gap(t.log[i].rate) <= t.log[i + 1].at {
      if i < |s.log| - 1 { assert t.log[i] == s.log[i] && t.log[i + 1] == s.log[i + 1]; }
    }
  }

  lemma StepKeeps(c: Config, s: State, step: Step, at: Instant)
    requires c.Valid() && Inv(c, s)
    ensures Inv(c, After(c, s, step, at))
  {
    if step.Reserve? {
      ReserveKeeps(c, s, step.token, at);
    } else {
      assert After(c, s, step, at).log == s.log;
    }
  }

  lemma {:induction false} RunKeepsInv(c: Config, states: seq<State>, steps: seq<(Step, Instant)>, n: nat)
    requires c.Valid() && IsRun(c, states, steps) && n <= |steps|
    ensures Inv(c, states[n])
  {
    if n > 0 {
      RunKeepsInv(c, states, steps, n - 1);
      StepKeeps(c, states[n - 1], steps[n - 1].0, steps[n - 1].1);
      assert states[n - 1 + 1] == After(c, states[n - 1], steps[n - 1].0, steps[n - 1].1);
    }
  }

  /** In every run the effective rate stays within its bounds, the streak below the threshold, and each
      acquisition waits out the gap its predecessor announced. */
  lemma RateStaysWithinBounds(c: Config, states: seq<State>, steps: seq<(Step, Instant)>, n: nat)
    requires c.Valid() && IsRun(c, states, steps) && n <= |steps|
    ensures states[n].row.Some? ==>
      c.min <= EffectiveRate(c, states[n].row.value) <= c.max && states[n].row.value.streak < c.recovery
    ensures forall i :: 0 <= i < |states[n].log| - 1 ==>
      states[n].log[i].rate > 0 && states[n].log[i].at + Gap(states[n].log[i].rate) <= states[n].log[i + 1].at
  {
    RunKeepsInv(c, states, steps, n);
  }

  // ---------------------------------------------------------------------------------------------
  // No minute holds more acquisitions than the configured maximum

  lemma SlowerIsLonger(rate: nat, max: nat)
    requires 1 <= rate <= max
    ensures Gap(max) <= Gap(rate)
  {
    var r, m := rate as real, max as real;
    assert 1.0 <= r <= m && Gap(rate) == MINUTE / r && Gap(max) == MINUTE / m;
    QuotientOrder(MINUTE, r, m);
  }

  lemma QuotientOrder(x: real, r: real, m: real)
    requires 0.0 <= x && 0.0 < r <= m
    ensures x / m <= x / r
  {
    var a, b := x / r, x / m;
    assert a * r == x && b * m == x && b >= 0.0;
    assert b * (m - r) >= 0.0;
    assert (a - b) * r >= 0.0;
  }

  lemma {:induction false} Spread(c: Config, s: State, i: nat, k: nat)
    requires c.Valid() && LogOk(c, s) && i + k < |s.log|
    ensures s.log[i].at + k as real * Gap(c.max) <= s.log[i + k].at
  {
    if k > 0 {
      Spread(c, s, i, k - 1);
      SlowerIsLonger(s.log[i + k - 1].rate, c.max);
      assert s.log[i + k - 1].at + Gap(s.log[i + k - 1].rate) <= s.log[i + k - 1 + 1].at;
      assert k as real * Gap(c.max) == (k - 1) as real * Gap(c.max) + Gap(c.max);
    }
  }

  function Within(log: seq<Acquisition>, from: Instant): set<nat> {
    set i: nat | i < |log| && from <= log[i].at < from + MINUTE
  }

  /** Any half-open minute holds at most `max` acquisitions, under every mix of outcomes and expiries. */
  lemma MinuteBound(c: Config, states: seq<State>, steps: seq<(Step, Instant)>, n: nat, from: Instant)
    requires c.Valid() && IsRun(c, states, steps) && n <= |steps|
    ensures |Within(states[n].log, from)| <= c.max
  {
    RunKeepsInv(c, states, steps, n);
    var within := Within(states[n].log, from);
    if within != {} {
      var lo := Min(within);
      forall i | i in within ensures i in Interval(lo, c.max) {
        if i >= lo + c.max { MinuteSpan(c, states[n], lo, i); }
      }
      SubsetCardinality(within, Interval(lo, c.max));
    }
  }

  /** `max` acquisitions after index `lo`, at least a minute has passed. */
  lemma MinuteSpan(c: Config, s: State, lo: nat, i: nat)
    requires c.Valid() && LogOk(c, s) && lo + c.max <= i < |s.log|
    ensures s.log[lo].at + MINUTE <= s.log[i].at
  {
    Spread(c, s, lo, c.max);
    Spread(c, s, lo + c.max, i - lo - c.max);
    GapFills(c.max);
    NotNegative((i - lo - c.max) as real, Gap(c.max));
  }

  lemma GapFills(rate: nat)
    requires rate > 0
    ensures rate as real * Gap(rate) == MINUTE && Gap(rate) > 0.0
  {
  }

  lemma NotNegative(a: real, b: real)
    requires a >= 0.0 && b >= 0.0
    ensures a * b >= 0.0
  {
  }

  function Interval(lo: nat, n: nat): (r: set<nat>)
    ensures |r| == n && forall i: nat :: i in r <==> lo <= i < lo + n
  {
    if n == 0 then {} else Interval(lo, n - 1) + {lo + n - 1}
  }

  // ---------------------------------------------------------------------------------------------
  // Recovery

  /** Where `k` successes take a rate and a streak: each full run of `recovery` successes gains one request
      per minute, up to the maximum, and what is left over is the streak. */
  ghost predicate Recovered(c: Config, from: Row, k: nat, to: Row) {
    exists gained: nat :: RecoveredBy(c, from, k, to, gained)
  }

  predicate RecoveredBy(c: Config, from: Row, k: nat, to: Row, gained: nat) {
    from.streak + k == gained * c.recovery + to.streak && RateOf(c, to) == Lesser(c.max, RateOf(c, from) + gained)
  }

  lemma RewardRecovers(c: Config, from: Row, k: nat, row: Row)
    requires c.Valid() && c.adaptive && RowOk(c, row) && Recovered(c, from, k, row)
    ensures Recovered(c, from, k + 1, Succeeded(c, row))
  {
    var gained: nat :| RecoveredBy(c, from, k, row, gained);
    if row.streak + 1 >= c.recovery {
      assert (gained + 1) * c.recovery == gained * c.recovery + c.recovery;
      assert RecoveredBy(c, from, k + 1, Succeeded(c, row), gained + 1);
    } else {
      assert RecoveredBy(c, from, k + 1, Succeeded(c, row), gained);
    }
  }

  function Counted(s: State, step: Step): nat {
    if step.Success? && Owns(s.row, step.token) then 1 else 0
  }

  predicate Harmless(step: Step) {
    step.Failure? ==> !step.policy.ratePressure && !step.policy.reduceRate
  }

  lemma StepRecovers(c: Config, from: Row, k: nat, s: State, step: Step, at: Instant)
    requires c.Valid() && c.adaptive && Inv(c, s) && Harmless(step)
    requires s.row.Some? && Recovered(c, from, k, s.row.value)
    ensures var t := After(c, s, step, at); t.row.Some? && Recovered(c, from, k + Counted(s, step), t.row.value)
  {
    var t := After(c, s, step, at);
    if Counted(s, step) == 1 {
      RewardRecovers(c, from, k, s.row.value);
    } else {
      assert RateOf(c, t.row.value) == RateOf(c, s.row.value) && t.row.value.streak == s.row.value.streak;
      var gained: nat :| RecoveredBy(c, from, k, s.row.value, gained);
      assert RecoveredBy(c, from, k, t.row.value, gained);
    }
  }

  /** Successes recorded between the steps `from` and `n`. */
  function Successes(states: seq<State>, steps: seq<(Step, Instant)>, from: nat, n: nat): (count: nat)
    requires |states| == |steps| + 1 && from <= n <= |steps|
    decreases n
  {
    if n == from then 0
    else Successes(states, steps, from, n - 1) + Counted(states[n - 1], steps[n - 1].0)
  }

  /** As long as no failure signals rate pressure, adaptive pacing recovers exactly by its successes. */
  lemma {:induction false} PacingRecovers(c: Config, states: seq<State>, steps: seq<(Step, Instant)>, from: nat, n: nat)
    requires c.Valid() && c.adaptive && IsRun(c, states, steps) && from <= n <= |steps|
    requires forall i :: from <= i < n ==> Harmless(steps[i].0)
    requires states[from].row.Some?
    ensures states[n].row.Some? && states[n].row.value.streak < c.recovery
    ensures Recovered(c, states[from].row.value, Successes(states, steps, from, n), states[n].row.value)
    decreases n
  {
    RunKeepsInv(c, states, steps, n);
    if n == from {
      assert RecoveredBy(c, states[n].row.value, 0, states[n].row.value, 0);
    } else {
      PacingRecovers(c, states, steps, from, n - 1);
      RunKeepsInv(c, states, steps, n - 1);
      StepRecovers(c, states[from].row.value, Successes(states, steps, from, n - 1), states[n - 1], steps[n - 1].0, steps[n - 1].1);
      assert states[n - 1 + 1] == After(c, states[n - 1], steps[n - 1].0, steps[n - 1].1);
    }
  }

  // ---------------------------------------------------------------------------------------------
  // The table

  type Session = nat

  class SyncRateLimits {
    const config: Config
    var rows: map<Session, Row>

    constructor (config: Config)
      ensures this.config == config && rows == map[]
    {
      this.config := config;
      rows := map[];
    }

    function RowOf(session: Session): Option<Row>
      reads this
    {
      if session in rows then Some(rows[session]) else None
    }

    method Ensure(session: Session, now: Instant)
      modifies this
      ensures rows == old(rows)[session := Ensured(config, old(RowOf(session)), now)]
    {
      if session in rows {
        var row := rows[session];
        var rate := if row.rate.Some? then row.rate.value else config.max;
        rows := rows[session := row.(rate := Some(if rate <= config.max then rate else config.max))];
      } else {
        rows := rows[session := Row(now, 0, None, None, Some(config.max), 0)];
      }
    }

    method ReadyAndRate(session: Session, now: Instant) returns (rate: Option<nat>)
      ensures rate == if session in rows && Ready(rows[session], now) then Some(EffectiveRate(config, rows[session])) else None
    {
      if session !in rows {
        return None;
      }
      var row := rows[session];
      var from := row.nextRequestAt;
      if row.cooldownUntil.Some? && row.cooldownUntil.value > from {
        from := row.cooldownUntil.value;
      }
      if from <= now && (row.lease.None? || row.lease.value.expiresAt < now) {
        return Some(if config.adaptive && row.rate.Some? then row.rate.value else config.max);
      }
      rate := None;
    }

    method Acquire(session: Session, token: nat, rate: nat, now: Instant)
      requires rate > 0
      modifies this
      ensures rows == if session in old(rows) then old(rows)[session := Acquired(old(rows)[session], token, rate, now)] else old(rows)
    {
      if session in rows {
        rows := rows[session := rows[session].(nextRequestAt := now + MINUTE / rate as real)];
        rows := rows[session := rows[session].(lease := Some(Lease(token, now + LEASE_MS)))];
      }
    }

    /** `ensure`, `readyAndRate` and `acquire` in one transaction: the reservation step of the runs above. */
    method Reserve(session: Session, token: nat, now: Instant) returns (reserved: bool)
      requires config.Valid() && (session in rows ==> RowOk(config, rows[session]))
      modifies this
      ensures var before := State(now, old(RowOf(session)), []);
              && rows == old(rows)[session := After(config, before, Step.Reserve(token), now).row.value]
              && (reserved <==> After(config, before, Step.Reserve(token), now).log != [])
    {
      Ensure(session, now);
      var rate := ReadyAndRate(session, now);
      reserved := rate.Some?;
      if rate.Some? {
        Acquire(session, token, rate.value, now);
      }
    }

    method Renew(session: Session, token: nat, now: Instant) returns (renewed: bool)
      modifies this
      ensures renewed <==> Owns(old(RowOf(session)), token) && old(rows)[session].lease.value.expiresAt > now
      ensures rows == if renewed then old(rows)[session := Extended(old(rows)[session], now)] else old(rows)
    {
      renewed := session in rows && rows[session].lease.Some?
                 && rows[session].lease.value.token == token && rows[session].lease.value.expiresAt > now;
      if renewed {
        rows := rows[session := rows[session].(lease := Some(Lease(token, now + LEASE_MS)))];
      }
    }

    /** Two updates: the second resets a streak that reached the threshold. */
    method Success(session: Session, token: nat)
      requires config.Valid() && (session in rows ==> RowOk(config, rows[session]))
      modifies this
      ensures rows == if Owns(old(RowOf(session)), token)
                      then old(rows)[session := Succeeded(config, old(rows)[session])] else old(rows)
    {
      if session in rows && rows[session].lease.Some? && rows[session].lease.value.token == token {
        var row := rows[session];
        var rate := if row.rate.Some? then row.rate.value else config.max;
        if config.adaptive && row.streak + 1 >= config.recovery {
          rate := if rate + 1 < config.max then rate + 1 else config.max;
        }
        rows := rows[session := row.(failures := 0, cooldownUntil := None, rate := Some(rate), lease := None,
                                     streak := if config.adaptive then row.streak + 1 else 0)];
      }
      if config.adaptive && session in rows && rows[session].lease.None? && rows[session].streak >= config.recovery {
        rows := rows[session := rows[session].(streak := 0)];
      }
    }

    method Failure(session: Session, token: nat, policy: Policy, now: Instant)
      modifies this
      ensures rows == if Owns(old(RowOf(session)), token)
                      then old(rows)[session := Failed(config, old(rows)[session], policy, now)] else old(rows)
    {
      if session in rows && rows[session].lease.Some? && rows[session].lease.value.token == token {
        var row := rows[session];
        var rate := if row.rate.Some? then row.rate.value else config.max;
        if policy.reduceRate && config.adaptive {
          rate := if rate / 2 > config.min then rate / 2 else config.min;
        }
        row := row.(rate := Some(rate), lease := None);
        if policy.ratePressure {
          var count := if row.failures + 1 < 4 then row.failures + 1 else 4;
          var wait := Backoff(count) * policy.jitter;
          if policy.retryAfter.Some? {
            wait := policy.retryAfter.value;
          }
          row := row.(failures := row.failures + 1, streak := 0, cooldownUntil := Some(now + wait));
        }
        rows := rows[session := row];
      }
    }

    method Release(session: Session, token: nat)
      modifies this
      ensures rows == if Owns(old(RowOf(session)), token)
                      then old(rows)[session := old(rows)[session].(lease := None)] else old(rows)
    {
      if session in rows && rows[session].lease.Some? && rows[session].lease.value.token == token {
        rows := rows[session := rows[session].(lease := None)];
      }
    }
  }
}
