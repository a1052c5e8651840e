/** Why items and runs of a sync end as they do, told from the transactions that took effect before. */
module SyncHistory {
  import opened Options
  import opened Orders
  import opened SyncLedger

  // ---------------------------------------------------------------------------------------------
  // One result

  /** The result of a group's read ends its item: a read completes it, a missing group skips it, and a failure sets
      it back for a retry exactly if it may be retried and attempts are left. No other item changes. */
  lemma ResultEndsItem(s: State, r: RunId, g: Group, token: nat, outcome: Outcome, maxAttempts: nat, at: Instant)
    requires TakesEffect(s, EndItem(r, g, token, outcome), maxAttempts, at)
    ensures var t := After(s, EndItem(r, g, token, outcome), maxAttempts, at);
      && r in s.runs && g in s.runs[r].items && r in t.runs && t.runs[r].items.Keys == s.runs[r].items.Keys
      && (forall o :: o in s.runs[r].items && o != g ==> t.runs[r].items[o] == s.runs[r].items[o])
      && var before, after := s.runs[r].items[g], t.runs[r].items[g];
      && after.attempts == before.attempts && after.lease.None?
      && (after.status == COMPLETED <==> outcome.Read?) && (outcome.Read? ==> after.members == outcome.members)
      && (after.status == SKIPPED <==> outcome.Missing?)
      && (after.status == RETRY <==> outcome.Failure? && outcome.retryable && before.attempts < maxAttempts)
      && (after.status == RETRY ==> after.nextAttemptAt == outcome.retryAt)
      && (after.status == FAILED <==> outcome.Failure? && (!outcome.retryable || before.attempts >= maxAttempts))
  {
  }

  /** An item is claimed exactly if its run is running, it waits, its time has come and attempts are left. */
  lemma ClaimsExactlyWhenDue(s: State, r: RunId, g: Group, token: nat, maxAttempts: nat, at: Instant)
    ensures TakesEffect(s, ClaimItem(r, g, token), maxAttempts, at) <==>
      && r in s.runs && s.runs[r].run.status == RUN_RUNNING && g in s.runs[r].items
      && (s.runs[r].items[g].status == PENDING || s.runs[r].items[g].status == RETRY)
      && s.runs[r].items[g].nextAttemptAt <= at && s.runs[r].items[g].attempts < maxAttempts
  {
  }

  // ---------------------------------------------------------------------------------------------
  // Whole runs

  /** Step `k` took effect as the end of the item's read with `outcome`. */
  predicate EndsWith(states: seq<State>, steps: seq<(Step, Instant)>, maxAttempts: nat, k: nat, r: RunId, g: Group, outcome: Outcome)
    requires |states| == |steps| + 1 && k < |steps|
  {
    && steps[k].0.EndItem? && steps[k].0.r == r && steps[k].0.g == g && steps[k].0.outcome == outcome
    && TakesEffect(states[k], steps[k].0, maxAttempts, steps[k].1)
  }

  predicate IsClaim(states: seq<State>, steps: seq<(Step, Instant)>, maxAttempts: nat, k: nat, r: RunId, g: Group)
    requires |states| == |steps| + 1 && k < |steps|
  {
    steps[k].0.ClaimItem? && steps[k].0.r == r && steps[k].0.g == g && TakesEffect(states[k], steps[k].0, maxAttempts, steps[k].1)
  }

  /** How often the item was claimed in the first `n` steps. */
  function Claims(states: seq<State>, steps: seq<(Step, Instant)>, maxAttempts: nat, n: nat, r: RunId, g: Group): nat
    requires |states| == |steps| + 1 && n <= |steps|
  {
    if n == 0 then 0
    else Claims(states, steps, maxAttempts, n - 1, r, g) + if IsClaim(states, steps, maxAttempts, n - 1, r, g) then 1 else 0
  }

  ghost predicate WasRead(states: seq<State>, steps: seq<(Step, Instant)>, maxAttempts: nat, n: nat, r: RunId, g: Group, members: nat)
    requires |states| == |steps| + 1 && n <= |steps|
  {
    exists k :: 0 <= k < n && EndsWith(states, steps, maxAttempts, k, r, g, Read(members))
  }

  ghost predicate WasMissing(states: seq<State>, steps: seq<(Step, Instant)>, maxAttempts: nat, n: nat, r: RunId, g: Group)
    requires |states| == |steps| + 1 && n <= |steps|
  {
    exists k :: 0 <= k < n && EndsWith(states, steps, maxAttempts, k, r, g, Missing)
  }

  ghost predicate FailedForGood(states: seq<State>, steps: seq<(Step, Instant)>, maxAttempts: nat, n: nat, r: RunId, g: Group)
    requires |states| == |steps| + 1 && n <= |steps|
  {
    exists k, retryAt :: 0 <= k < n && EndsWith(states, steps, maxAttempts, k, r, g, Failure(false, retryAt))
  }

  /** The item's history explains its status and its attempts. */
  ghost predicate Explained(states: seq<State>, steps: seq<(Step, Instant)>, maxAttempts: nat, n: nat, r: RunId, g: Group)
    requires |states| == |steps| + 1 && n <= |steps| && r in states[n].runs && g in states[n].runs[r].items
  {
    var item := states[n].runs[r].items[g];
    && item.attempts == Claims(states, steps, maxAttempts, n, r, g) <= maxAttempts
    && (item.status == COMPLETED ==> WasRead(states, steps, maxAttempts, n, r, g, item.members))
    && (item.status == SKIPPED ==> WasMissing(states, steps, maxAttempts, n, r, g))
    && (item.status == FAILED ==> item.attempts == maxAttempts || FailedForGood(states, steps, maxAttempts, n, r, g))
    && (item.status == PENDING || item.status == RETRY ==> item.attempts < maxAttempts)
  }

  /** Nothing happened to an item that is not there yet. */
  lemma {:induction false} NoItemNoClaims(states: seq<State>, steps: seq<(Step, Instant)>, maxAttempts: nat, n: nat, r: RunId, g: Group)
    requires IsRun(states, steps, maxAttempts) && n <= |steps| && !(r in states[n].runs && g in states[n].runs[r].items)
    ensures Claims(states, steps, maxAttempts, n, r, g) == 0
  {
    if n > 0 {
      ItemsStay(states[n - 1], steps[n - 1].0, maxAttempts, steps[n - 1].1, r, g);
      assert states[n - 1 + 1] == After(states[n - 1], steps[n - 1].0, maxAttempts, steps[n - 1].1);
      NoItemNoClaims(states, steps, maxAttempts, n - 1, r, g);
    }
  }

  lemma ItemsStay(s: State, step: Step, maxAttempts: nat, at: Instant, r: RunId, g: Group)
    ensures r in s.runs && g in s.runs[r].items ==>
      var t := After(s, step, maxAttempts, at); r in t.runs && g in t.runs[r].items
  {
  }

  /** What one transaction may make of an item. */
  predicate MayMove(step: Step, r: RunId, g: Group, maxAttempts: nat, a: Item, b: Item) {
    && b.attempts == a.attempts + (if step.ClaimItem? && step.r == r && step.g == g then 1 else 0)
    && (b.status == COMPLETED ==>
          (a.status == COMPLETED && b.members == a.members)
          || (step.EndItem? && step.r == r && step.g == g && step.outcome == Read(b.members)))
    && (b.status == SKIPPED ==> a.status == SKIPPED || (step.EndItem? && step.r == r && step.g == g && step.outcome == Missing))
    && (b.status == FAILED ==>
          || a.status == FAILED || b.attempts >= maxAttempts
          || (step.EndItem? && step.r == r && step.g == g && step.outcome.Failure? && !step.outcome.retryable))
  }

  lemma ItemMoves(s: State, step: Step, maxAttempts: nat, at: Instant, r: RunId, g: Group)
    requires TakesEffect(s, step, maxAttempts, at) && r in s.runs && g in s.runs[r].items
    ensures var t := After(s, step, maxAttempts, at);
      r in t.runs && g in t.runs[r].items && MayMove(step, r, g, maxAttempts, s.runs[r].items[g], t.runs[r].items[g])
  {
    ItemsStay(s, step, maxAttempts, at, r, g);
    if step.EndItem? {
      ResultEndsItem(s, step.r, step.g, step.token, step.outcome, maxAttempts, at);
      if step.r != r { assert After(s, step, maxAttempts, at).runs[r] == s.runs[r]; }
    }
  }

  /** Items appear untried, when their run is published. */
  lemma NewItemIsUntried(s: State, step: Step, maxAttempts: nat, at: Instant, r: RunId, g: Group)
    requires !(r in s.runs && g in s.runs[r].items)
    requires r in After(s, step, maxAttempts, at).runs && g in After(s, step, maxAttempts, at).runs[r].items
    ensures var item := After(s, step, maxAttempts, at).runs[r].items[g]; item.attempts == 0 && item.status == PENDING
    ensures !step.ClaimItem?
  {
  }

  lemma {:induction false} WhyItemsEnd(states: seq<State>, steps: seq<(Step, Instant)>, maxAttempts: nat, n: nat, r: RunId, g: Group)
    requires IsRun(states, steps, maxAttempts) && n <= |steps| && r in states[n].runs && g in states[n].runs[r].items
    ensures Explained(states, steps, maxAttempts, n, r, g)
    decreases n
  {
    RunKeepsInv(states, steps, maxAttempts, n);
    assert ItemOk(states[n].runs[r].items[g], maxAttempts);
    if n > 0 {
      var s, step, at := states[n - 1], steps[n - 1].0, steps[n - 1].1;
      assert states[n - 1 + 1] == After(s, step, maxAttempts, at);
      if r in s.runs && g in s.runs[r].items {
        WhyItemsEnd(states, steps, maxAttempts, n - 1, r, g);
        if TakesEffect(s, step, maxAttempts, at) { ItemMoves(s, step, maxAttempts, at, r, g); }
        StaysExplained(states, steps, maxAttempts, n, r, g);
      } else {
        StartsExplained(states, steps, maxAttempts, n, r, g);
      }
    }
  }

  lemma StartsExplained(states: seq<State>, steps: seq<(Step, Instant)>, maxAttempts: nat, n: nat, r: RunId, g: Group)
    requires IsRun(states, steps, maxAttempts) && 0 < n <= |steps| && r in states[n].runs && g in states[n].runs[r].items
    requires !(r in states[n - 1].runs && g in states[n - 1].runs[r].items)
    ensures Explained(states, steps, maxAttempts, n, r, g)
  {
    assert states[n - 1 + 1] == After(states[n - 1], steps[n - 1].0, maxAttempts, steps[n - 1].1);
    NewItemIsUntried(states[n - 1], steps[n - 1].0, maxAttempts, steps[n - 1].1, r, g);
    NoItemNoClaims(states, steps, maxAttempts, n - 1, r, g);
  }

  lemma StaysExplained(states: seq<State>, steps: seq<(Step, Instant)>, maxAttempts: nat, n: nat, r: RunId, g: Group)
    requires IsRun(states, steps, maxAttempts) && 0 < n <= |steps|
    requires r in states[n - 1].runs && g in states[n - 1].runs[r].items && Explained(states, steps, maxAttempts, n - 1, r, g)
    requires r in states[n].runs && g in states[n].runs[r].items && ItemOk(states[n].runs[r].items[g], maxAttempts)
    requires var a, b := states[n - 1].runs[r].items[g], states[n].runs[r].items[g];
             if TakesEffect(states[n - 1], steps[n - 1].0, maxAttempts, steps[n - 1].1)
             then MayMove(steps[n - 1].0, r, g, maxAttempts, a, b) else b == a
    ensures Explained(states, steps, maxAttempts, n, r, g)
  {
    var a, b, step := states[n - 1].runs[r].items[g], states[n].runs[r].items[g], steps[n - 1].0;
    if b.status == COMPLETED {
      if a.status == COMPLETED && b.members == a.members {
        var k :| 0 <= k < n - 1 && EndsWith(states, steps, maxAttempts, k, r, g, Read(a.members));
        assert EndsWith(states, steps, maxAttempts, k, r, g, Read(b.members));
      } else {
        assert EndsWith(states, steps, maxAttempts, n - 1, r, g, Read(b.members));
      }
    } else if b.status == SKIPPED {
      if a.status == SKIPPED {
        var k :| 0 <= k < n - 1 && EndsWith(states, steps, maxAttempts, k, r, g, Missing);
      } else {
        assert EndsWith(states, steps, maxAttempts, n - 1, r, g, Missing);
      }
    } else if b.status == FAILED && b.attempts < maxAttempts {
      if a.status == FAILED {
        var k, retryAt :| 0 <= k < n - 1 && EndsWith(states, steps, maxAttempts, k, r, g, Failure(false, retryAt));
      } else {
        assert EndsWith(states, steps, maxAttempts, n - 1, r, g, Failure(false, step.outcome.retryAt));
      }
    }
  }

  /** Whatever happens, an item was claimed as often as it has attempts; it is completed by a read with the members it
      has, skipped by a read that found no group, and failed by a failure for good or after its last attempt. */
  lemma ItemsEndForTheirReasons(states: seq<State>, steps: seq<(Step, Instant)>, maxAttempts: nat, n: nat, r: RunId, g: Group)
    requires IsRun(states, steps, maxAttempts) && n <= |steps| && r in states[n].runs && g in states[n].runs[r].items
    ensures var item := states[n].runs[r].items[g];
      && item.attempts == Claims(states, steps, maxAttempts, n, r, g) <= maxAttempts
      && (item.status == COMPLETED ==> WasRead(states, steps, maxAttempts, n, r, g, item.members))
      && (item.status == SKIPPED ==> WasMissing(states, steps, maxAttempts, n, r, g))
      && (item.status == FAILED ==> item.attempts == maxAttempts || FailedForGood(states, steps, maxAttempts, n, r, g))
      && (item.status == PENDING || item.status == RETRY ==> item.attempts < maxAttempts)
  {
    WhyItemsEnd(states, steps, maxAttempts, n, r, g);
  }

  // ---------------------------------------------------------------------------------------------
  // Runs before they are published

  /** A run is tried three times, and fails before it is published exactly with its third attempt. */
  predicate AttemptsOk(run: Run) {
    && run.attempts <= 3
    && (run.status == RUN_PENDING ==> run.attempts < 3)
    && (run.status == RUN_FAILED && run.phase == DISCOVERING ==> run.attempts == 3)
  }

  lemma StepKeepsAttempts(s: State, step: Step, maxAttempts: nat, at: Instant, r: RunId)
    requires Inv(s, maxAttempts) && (forall o :: o in s.runs ==> AttemptsOk(s.runs[o].run))
    requires TakesEffect(s, step, maxAttempts, at) && r in After(s, step, maxAttempts, at).runs
    ensures AttemptsOk(After(s, step, maxAttempts, at).runs[r].run)
  {
    if r in s.runs { assert LedgerOk(s.runs[r], maxAttempts) && AttemptsOk(s.runs[r].run); }
  }

  lemma {:induction false} RunsAreTriedThrice(states: seq<State>, steps: seq<(Step, Instant)>, maxAttempts: nat, n: nat, r: RunId)
    requires IsRun(states, steps, maxAttempts) && n <= |steps| && r in states[n].runs
    ensures AttemptsOk(states[n].runs[r].run)
    decreases n
  {
    if n > 0 {
      var s, step, at := states[n - 1], steps[n - 1].0, steps[n - 1].1;
      RunKeepsInv(states, steps, maxAttempts, n - 1);
      assert states[n - 1 + 1] == After(s, step, maxAttempts, at);
      forall o | o in s.runs ensures AttemptsOk(s.runs[o].run) { RunsAreTriedThrice(states, steps, maxAttempts, n - 1, o); }
      if TakesEffect(s, step, maxAttempts, at) { StepKeepsAttempts(s, step, maxAttempts, at, r); }
    }
  }

  // ---------------------------------------------------------------------------------------------
  // Leases

  /** A claim of an item stands: only its holder ends or renews it, before the lease runs out, and only after that
      anybody else takes it away. */
  lemma ItemClaimStands(s: State, step: Step, maxAttempts: nat, at: Instant, r: RunId, g: Group)
    requires TakesEffect(s, step, maxAttempts, at) && r in s.runs && g in s.runs[r].items
    requires s.runs[r].items[g].status == RUNNING && s.runs[r].items[g].lease.Some?
    ensures var t, lease := After(s, step, maxAttempts, at), s.runs[r].items[g].lease.value;
      && r in t.runs && g in t.runs[r].items
      && (t.runs[r].items[g] != s.runs[r].items[g] ==>
            || ((step.EndItem? || step.RenewItem?) && step.r == r && step.g == g && step.token == lease.token && at < lease.expiresAt)
            || lease.expiresAt < at)
  {
    ItemsStay(s, step, maxAttempts, at, r, g);
  }

  /** ... and so for a run that is being discovered. */
  lemma RunClaimStands(s: State, step: Step, maxAttempts: nat, at: Instant, r: RunId)
    requires TakesEffect(s, step, maxAttempts, at) && r in s.runs && LedgerOk(s.runs[r], maxAttempts)
    requires s.runs[r].run.status == RUN_RUNNING && s.runs[r].run.phase == DISCOVERING && s.runs[r].run.lease.Some?
    ensures var t, lease := After(s, step, maxAttempts, at), s.runs[r].run.lease.value;
      && r in t.runs
      && (t.runs[r].run != s.runs[r].run ==>
            || ((step.RenewRun? || step.FailRun? || step.Defer? || step.Publish?) && step.r == r && step.token == lease.token && at < lease.expiresAt)
            || lease.expiresAt < at)
  {
  }

  /** 5, 10, 20, 40, 80, 160 and from then on 300 seconds. */
  lemma {:induction false} RetriesBackOff(attempts: nat)
    ensures Backoff(1) == 5000.0 && Backoff(2) == 10000.0 && Backoff(3) == 20000.0 && Backoff(4) == 40000.0
    ensures Backoff(5) == 80000.0 && Backoff(6) == 160000.0 && (attempts >= 7 ==> Backoff(attempts) == 300000.0)
  {
    assert Backoff(3) == 20000.0;
    assert Backoff(5) == 80000.0;
    if attempts > 7 { RetriesBackOff(attempts - 1); }
  }
}
