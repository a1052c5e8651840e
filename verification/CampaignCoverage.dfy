/** Every target of a run that has started gets a delivery, and a completed run has settled all of them. */
module CampaignCoverage {
  import opened Options
  import opened Campaigns
  import opened CampaignSafety
  import opened CampaignPipeline

  /** The run got past its preflight. */
  predicate HasStarted(st: RunStatus) {
    !st.PREPARING? && !st.BLOCKED? && !st.FAILED?
  }

  predicate IsCovered(s: State, r: RunId)
    requires r in s.runs
  {
    forall g :: g in s.runs[r].targets ==> (r, g) in s.deliveries
  }

  ghost predicate Covered(s: State) {
    forall r :: r in s.runs && HasStarted(s.runs[r].status) ==> IsCovered(s, r)
  }

  /** Deliveries go only with their run. */
  predicate DeliveriesPersist(s: State, t: State) {
    forall k :: k in s.deliveries && k.0 in t.runs ==> k in t.deliveries
  }

  /** A run that has started had started before, or is covered now. */
  predicate StartsCovered(s: State, t: State, r: RunId)
    requires r in t.runs
  {
    HasStarted(t.runs[r].status) ==>
      || (r in s.runs && HasStarted(s.runs[r].status) && t.runs[r].targets == s.runs[r].targets)
      || IsCovered(t, r)
  }

  lemma StartedKeeps(s: State, t: State)
    requires Covered(s) && DeliveriesPersist(s, t) && forall r :: r in t.runs ==> StartsCovered(s, t, r)
    ensures Covered(t)
  {
    forall r | r in t.runs && HasStarted(t.runs[r].status) ensures IsCovered(t, r) {
      assert StartsCovered(s, t, r);
    }
  }

  lemma InsertCovers(s: State, r: RunId)
    requires r in s.runs
    ensures IsCovered(WithDeliveries(s, r), r) && DeliveriesPersist(s, WithDeliveries(s, r))
  {
  }

  /** One run becomes covered, or keeps its standing, and the others are untouched. */
  lemma OneRunCovers(s: State, t: State, r: RunId)
    requires Covered(s) && DeliveriesPersist(s, t) && r in s.runs && r in t.runs && StartsCovered(s, t, r)
    requires forall o :: o in t.runs && o != r ==> o in s.runs && t.runs[o] == s.runs[o]
    ensures Covered(t)
  {
    forall o | o in t.runs ensures StartsCovered(s, t, o) {}
    StartedKeeps(s, t);
  }

  lemma CancelCovers(s: State, r: RunId)
    requires Covered(s) && r in s.runs
    ensures Covered(Cancelled(s, r))
  {
    var u := WithDeliveries(s, r);
    InsertCovers(s, r);
    assert Cancelled(s, r).deliveries.Keys == u.deliveries.Keys;
    OneRunCovers(s, Cancelled(s, r), r);
  }

  lemma PreflightCovers(s: State, r: RunId, token: nat, blocked: bool, at: Instant)
    requires Covered(s) && TakesEffect(s, ApplyPreflight(r, token, blocked), at)
    ensures Covered(After(s, ApplyPreflight(r, token, blocked), at))
  {
    InsertCovers(SetPreparation(s, r, s.runs[r].attempts, s.runs[r].nextAttemptAt, None), r);
    OneRunCovers(s, After(s, ApplyPreflight(r, token, blocked), at), r);
  }

  lemma ResumeCovers(s: State, r: RunId, at: Instant)
    requires Covered(s) && TakesEffect(s, Resume(r), at)
    ensures Covered(After(s, Resume(r), at))
  {
    InsertCovers(s, r);
    OneRunCovers(s, After(s, Resume(r), at), r);
  }

  lemma PlainStepCovers(s: State, step: Step, at: Instant)
    requires Covered(s) && TakesEffect(s, step, at) && IsPlainRunStep(step)
    ensures Covered(After(s, step, at))
  {
    var t := After(s, step, at);
    if IsRunStep(step) {
      PlainStepStarts(s, step, at);
      OneRunCovers(s, t, step.r);
    } else {
      forall r | r in t.runs ensures StartsCovered(s, t, r) {}
      StartedKeeps(s, t);
    }
  }

  predicate IsPreparationStep(step: Step) {
    step.ClaimPreparation? || step.StalePreflight? || step.FailPreparation? || step.RecoverPreparation?
  }

  /** Only run `r` changes, and it has not started unless it had before. */
  predicate KeepsStanding(s: State, t: State, r: RunId) {
    && t.deliveries == s.deliveries && r in s.runs && r in t.runs && StartsCovered(s, t, r)
    && forall o :: o in t.runs && o != r ==> o in s.runs && t.runs[o] == s.runs[o]
  }

  lemma PlainStepStarts(s: State, step: Step, at: Instant)
    requires TakesEffect(s, step, at) && IsPlainRunStep(step) && IsRunStep(step)
    ensures KeepsStanding(s, After(s, step, at), step.r)
  {
    if IsPreparationStep(step) { PreparationStarts(s, step, at); } else { StatusStarts(s, step, at); }
  }

  lemma PreparationStarts(s: State, step: Step, at: Instant)
    requires TakesEffect(s, step, at) && IsPreparationStep(step)
    ensures KeepsStanding(s, After(s, step, at), step.r)
  {
  }

  lemma StatusStarts(s: State, step: Step, at: Instant)
    requires TakesEffect(s, step, at)
    requires step.Activate? || step.Finalize? || step.Pause? || step.Suspend? || step.BlockResume?
    ensures KeepsStanding(s, After(s, step, at), step.r)
  {
  }

  lemma SameKeysCover(s: State, t: State)
    requires Covered(s) && t.runs == s.runs && t.deliveries.Keys == s.deliveries.Keys
    ensures Covered(t)
  {
    forall r | r in t.runs ensures StartsCovered(s, t, r) {}
    StartedKeeps(s, t);
  }

  lemma WorkerStepCovers(s: State, step: Step, at: Instant)
    requires Covered(s) && TakesEffect(s, step, at) && IsWorkerStep(step)
    ensures Covered(After(s, step, at))
  {
    SameKeysCover(s, After(s, step, at));
  }

  lemma JobStepCovers(s: State, step: Step, at: Instant)
    requires Covered(s) && TakesEffect(s, step, at) && (IsJobStep(step) || step.RetireJob?)
    ensures Covered(After(s, step, at))
  {
    match step
    case ClaimDue(k) => SameKeysCover(s, SetJob(s, k, JobStatus.QUEUED));
    case ResetQueued(k) => SameKeysCover(s, SetJob(s, k, JobStatus.SCHEDULED));
    case Webhook(k, status) => SameKeysCover(s, SetJob(s, k, status));
    case _ => SameKeysCover(s, After(s, step, at));
  }

  lemma DeliveryStepCovers(s: State, step: Step, at: Instant)
    requires Covered(s) && TakesEffect(s, step, at) && (step.Materialize? || step.Reconcile?)
    ensures Covered(After(s, step, at))
  {
    match step
    case Materialize(r, g, changed) => MaterializedCovers(s, (r, g), changed);
    case Reconcile(k) => SameKeysCover(s, Shown(s, k));
  }

  lemma MaterializedCovers(s: State, k: Key, changed: bool)
    requires Covered(s) && k in s.deliveries && k.0 in s.runs
    ensures Covered(Materialized(s, k, changed))
  {
    assert Materialized(s, k, changed).deliveries.Keys == s.deliveries.Keys;
    SameKeysCover(s, Materialized(s, k, changed));
  }

  lemma RetireCovers(s: State, r: RunId)
    requires Covered(s)
    ensures Covered(WithoutRun(s, r))
  {
    var t := WithoutRun(s, r);
    forall o | o in t.runs ensures StartsCovered(s, t, o) {}
    StartedKeeps(s, t);
  }

  lemma StepCovers(s: State, step: Step, at: Instant)
    requires Covered(s) && TakesEffect(s, step, at)
    ensures Covered(After(s, step, at))
  {
    if IsPlainRunStep(step) {
      PlainStepCovers(s, step, at);
    } else if IsWorkerStep(step) {
      WorkerStepCovers(s, step, at);
    } else if IsJobStep(step) || step.RetireJob? {
      JobStepCovers(s, step, at);
    } else if step.Materialize? || step.Reconcile? {
      DeliveryStepCovers(s, step, at);
    } else {
      match step
      case ApplyPreflight(r, token, blocked) => PreflightCovers(s, r, token, blocked, at);
      case Resume(r) => ResumeCovers(s, r, at);
      case Cancel(r) => CancelCovers(s, r);
      case RetireRun(r) => RetireCovers(s, r);
    }
  }

  lemma {:induction false} ReachedIsCovered(steps: seq<(Step, Instant)>)
    ensures Covered(Reached(steps))
  {
    if steps != [] {
      var s, step, at := Reached(steps[..|steps| - 1]), steps[|steps| - 1].0, steps[|steps| - 1].1;
      ReachedIsCovered(steps[..|steps| - 1]);
      if TakesEffect(s, step, at) { StepCovers(s, step, at); }
    }
  }

  /** When a run is completed, every group it was launched for has a settled delivery. */
  lemma CompletedRunsReachedEveryTarget(steps: seq<(Step, Instant)>, r: RunId, g: Group)
    requires r in Reached(steps).runs && IsDone(Reached(steps).runs[r].status)
    requires r in Reached(steps).launched && g in Reached(steps).launched[r].targets
    ensures (r, g) in Reached(steps).deliveries && IsSettled(Reached(steps).deliveries[(r, g)].status)
  {
    ReachedIsCovered(steps);
    RunKeepsInv(steps);
    assert RunOk(Reached(steps), r) && IsCovered(Reached(steps), r);
    assert DeliveryOk(Reached(steps), (r, g));
  }
}
