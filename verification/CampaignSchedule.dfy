/** Runs wait for their schedule: whatever is sent for a campaign is sent after the time it is scheduled for. */
module CampaignSchedule {
  import opened Options
  import opened Campaigns
  import opened CampaignSafety
  import opened CampaignPipeline

  /** The instants of a list of transactions do not decrease. */
  predicate InOrder(steps: seq<(Step, Instant)>) {
    forall i, j :: 0 <= i <= j < |steps| ==> steps[i].1 <= steps[j].1
  }

  function LastAt(steps: seq<(Step, Instant)>): Instant {
    if steps == [] then 0 else steps[|steps| - 1].1
  }

  /** The campaign's schedule, if it has one, has passed, and so has that of the run while it is there. */
  predicate IsDue(s: State, r: RunId, at: Instant) {
    && r in s.launched && s.launched[r].campaign in s.campaigns
    && (s.campaigns[s.launched[r].campaign].scheduledAt.Some? ==> s.campaigns[s.launched[r].campaign].scheduledAt.value <= at)
    && (r in s.runs ==> s.runs[r].scheduledAt <= at)
  }

  /** A run has its campaign's schedule, if there is one. */
  predicate HasSchedule(s: State, r: RunId)
    requires r in s.runs
  {
    && r in s.launched && s.launched[r].campaign in s.campaigns
    && (s.campaigns[s.launched[r].campaign].scheduledAt.Some? ==>
          s.runs[r].scheduledAt == s.campaigns[s.launched[r].campaign].scheduledAt.value)
  }

  predicate RunsWaitUntil(s: State, at: Instant) {
    forall r :: r in s.runs ==> HasSchedule(s, r) && (s.runs[r].status.RUNNING? ==> s.runs[r].scheduledAt <= at)
  }

  ghost predicate WaitsOk(s: State, at: Instant) {
    && RunsWaitUntil(s, at)
    && (forall k :: k in s.jobs ==> IsDue(s, k.0, at))
    && (forall w :: w in s.workers ==> IsDue(s, s.workers[w].job.0, at))
    && (forall i :: 0 <= i < |s.posts| ==> IsDue(s, s.posts[i].run, at))
  }

  /** Schedules are set when a campaign or a run is created, and stay. */
  predicate SchedulesStay(s: State, t: State) {
    && (forall r :: r in s.launched ==> r in t.launched && t.launched[r] == s.launched[r])
    && (forall c :: c in s.campaigns ==> c in t.campaigns && t.campaigns[c].scheduledAt == s.campaigns[c].scheduledAt)
    && (forall r :: r in t.runs ==> (r in s.runs && t.runs[r].scheduledAt == s.runs[r].scheduledAt) || r !in s.launched)
  }

  lemma StaysDue(s: State, t: State, r: RunId, at: Instant, now: Instant)
    requires IsDue(s, r, at) && SchedulesStay(s, t) && at <= now
    ensures IsDue(t, r, now)
  {
  }

  /** Only run `r` moves, keeping its schedule, no campaign is deleted, and the run does not start running before it is due. */
  predicate MovesWhenDue(s: State, t: State, r: RunId, at: Instant)
    requires r in s.runs
  {
    && t.launched == s.launched && t.runs.Keys == s.runs.Keys && t.campaigns.Keys == s.campaigns.Keys
    && (forall o :: o in s.runs && o != r ==> t.runs[o] == s.runs[o])
    && (forall c :: c in s.campaigns ==>
          t.campaigns[c].scheduledAt == s.campaigns[c].scheduledAt && t.campaigns[c].deleted == s.campaigns[c].deleted)
    && t.runs[r].scheduledAt == s.runs[r].scheduledAt
    && (t.runs[r].status.RUNNING? ==> s.runs[r].status.RUNNING? || s.runs[r].scheduledAt <= at)
  }

  lemma RunStepMovesWhenDue(s: State, step: Step, at: Instant)
    requires TakesEffect(s, step, at) && IsRunStep(step)
    ensures step.r in s.runs && MovesWhenDue(s, After(s, step, at), step.r, at)
  {
    if step.ClaimPreparation? || step.StalePreflight? || step.ApplyPreflight? || step.FailPreparation? || step.RecoverPreparation? {
      PreparationMovesWhenDue(s, step, at);
    } else {
      OperationMovesWhenDue(s, step, at);
    }
  }

  lemma PreparationMovesWhenDue(s: State, step: Step, at: Instant)
    requires TakesEffect(s, step, at)
    requires step.ClaimPreparation? || step.StalePreflight? || step.ApplyPreflight? || step.FailPreparation? || step.RecoverPreparation?
    ensures step.r in s.runs && MovesWhenDue(s, After(s, step, at), step.r, at)
  {
    if step.ApplyPreflight? || step.ClaimPreparation? || step.StalePreflight? {
      assert After(s, step, at).campaigns == s.campaigns;
    } else {
      FailureMoves(s, step, at);
    }
  }

  lemma FailureMoves(s: State, step: Step, at: Instant)
    requires TakesEffect(s, step, at) && (step.FailPreparation? || step.RecoverPreparation?)
    ensures step.r in s.runs && MovesWhenDue(s, After(s, step, at), step.r, at)
  {
  }

  lemma OperationMovesWhenDue(s: State, step: Step, at: Instant)
    requires TakesEffect(s, step, at)
    requires step.Activate? || step.Finalize? || step.Pause? || step.Suspend? || step.BlockResume? || step.Resume? || step.Cancel?
    ensures step.r in s.runs && MovesWhenDue(s, After(s, step, at), step.r, at)
  {
    match step
    case Cancel(r) => CancelMovesWhenDue(s, r, at);
    case Resume(r) => ResumeMovesWhenDue(s, r, at);
    case _ => StatusMovesWhenDue(s, step, at);
  }

  lemma CancelMovesWhenDue(s: State, r: RunId, at: Instant)
    requires r in s.runs
    ensures MovesWhenDue(s, Cancelled(s, r), r, at)
  {
  }

  lemma ResumeMovesWhenDue(s: State, r: RunId, at: Instant)
    requires TakesEffect(s, Resume(r), at)
    ensures MovesWhenDue(s, After(s, Resume(r), at), r, at)
  {
  }

  lemma StatusMovesWhenDue(s: State, step: Step, at: Instant)
    requires TakesEffect(s, step, at)
    requires step.Activate? || step.Finalize? || step.Pause? || step.Suspend? || step.BlockResume?
    ensures step.r in s.runs && MovesWhenDue(s, After(s, step, at), step.r, at)
  {
    match step
    case Activate(r) => MovedMovesWhenDue(s, r, RUNNING, {}, ARCHIVED, at);
    case BlockResume(r) => MovedMovesWhenDue(s, r, BLOCKED, {}, ARCHIVED, at);
    case Pause(r) => MovedMovesWhenDue(s, r, RunStatus.PAUSED, {CampaignStatus.ACTIVE}, CampaignStatus.PAUSED, at);
    case Suspend(r) => MovedMovesWhenDue(s, r, RunStatus.PAUSED, {CampaignStatus.ACTIVE}, CampaignStatus.PAUSED, at);
    case Finalize(r) =>
      MovedMovesWhenDue(s, r, PARTIAL_FAILED, {CampaignStatus.ACTIVE, CampaignStatus.PAUSED}, ARCHIVED, at);
      MovedMovesWhenDue(s, r, COMPLETED, {CampaignStatus.ACTIVE, CampaignStatus.PAUSED}, ARCHIVED, at);
  }

  lemma MovedMovesWhenDue(s: State, r: RunId, status: RunStatus, from: set<CampaignStatus>, to: CampaignStatus, at: Instant)
    requires r in s.runs && (status.RUNNING? ==> s.runs[r].scheduledAt <= at)
    ensures MovesWhenDue(s, Moved(s, r, status, from, to), r, at) && MovesWhenDue(s, Kept(s, r, status), r, at)
  {
  }

  predicate IsCampaignStep(step: Step) {
    step.AddCampaign? || step.ReplaceTargets? || step.DeleteCampaign? || step.Launch? || step.RetireRun?
  }

  /** The steps below the runs. */
  lemma RowStepKeepsRuns(s: State, step: Step, at: Instant)
    requires TakesEffect(s, step, at) && !IsRunStep(step) && !IsCampaignStep(step)
    ensures var t := After(s, step, at); t.runs == s.runs && t.campaigns == s.campaigns && t.launched == s.launched
  {
  }

  lemma StepKeepsSchedules(s: State, step: Step, at: Instant)
    requires TakesEffect(s, step, at)
    ensures SchedulesStay(s, After(s, step, at))
  {
    if IsRunStep(step) {
      RunStepMovesWhenDue(s, step, at);
    } else if !IsCampaignStep(step) {
      RowStepKeepsRuns(s, step, at);
    }
  }

  lemma RunsWait(s: State, step: Step, at: Instant, now: Instant)
    requires LifecycleOk(s) && WaitsOk(s, at) && TakesEffect(s, step, now) && at <= now
    ensures RunsWaitUntil(After(s, step, now), now)
  {
    if IsCampaignStep(step) {
      CampaignStepWaits(s, step, at, now);
    } else {
      StepKeepsSchedules(s, step, now);
      RunsStartWhenDue(s, step, now);
      KnownRunsWait(s, After(s, step, now), at, now);
    }
  }

  lemma RunsStartWhenDue(s: State, step: Step, now: Instant)
    requires TakesEffect(s, step, now) && !IsCampaignStep(step)
    ensures var t := After(s, step, now);
      && t.runs.Keys == s.runs.Keys
      && forall r :: r in s.runs ==> t.runs[r].status.RUNNING? ==> s.runs[r].status.RUNNING? || s.runs[r].scheduledAt <= now
  {
    if IsRunStep(step) { RunStepMovesWhenDue(s, step, now); } else { RowStepKeepsRuns(s, step, now); }
  }

  lemma KnownRunsWait(s: State, t: State, at: Instant, now: Instant)
    requires WaitsOk(s, at) && at <= now && SchedulesStay(s, t) && t.runs.Keys == s.runs.Keys
    requires forall r :: r in s.runs ==> t.runs[r].status.RUNNING? ==> s.runs[r].status.RUNNING? || s.runs[r].scheduledAt <= now
    ensures RunsWaitUntil(t, now)
  {
    forall r | r in t.runs ensures HasSchedule(t, r) && (t.runs[r].status.RUNNING? ==> t.runs[r].scheduledAt <= now) {
      assert HasSchedule(s, r);
    }
  }

  lemma CampaignStepWaits(s: State, step: Step, at: Instant, now: Instant)
    requires LifecycleOk(s) && WaitsOk(s, at) && TakesEffect(s, step, now) && at <= now && IsCampaignStep(step)
    ensures RunsWaitUntil(After(s, step, now), now)
  {
    if step.Launch? {
      LaunchWaits(s, step.c, step.r, step.mode, step.key, at, now);
    } else {
      var t := After(s, step, now);
      forall r | r in t.runs ensures HasSchedule(t, r) && (t.runs[r].status.RUNNING? ==> t.runs[r].scheduledAt <= now) {
        assert HasSchedule(s, r);
      }
    }
  }

  lemma LaunchWaits(s: State, c: CampaignId, r: RunId, mode: Mode, key: nat, at: Instant, now: Instant)
    requires LifecycleOk(s) && WaitsOk(s, at) && TakesEffect(s, Launch(c, r, mode, key), now) && at <= now
    ensures RunsWaitUntil(After(s, Launch(c, r, mode, key), now), now)
  {
    var t := After(s, Launch(c, r, mode, key), now);
    forall o | o in t.runs ensures HasSchedule(t, o) && (t.runs[o].status.RUNNING? ==> t.runs[o].scheduledAt <= now) {
      if o in s.runs { assert HasSchedule(s, o) && RunOk(s, o); }
    }
  }

  /** Jobs come from running runs, workers from jobs and POSTs from workers. */
  lemma RowsAreDue(s: State, step: Step, at: Instant, now: Instant)
    requires LifecycleOk(s) && WaitsOk(s, at) && TakesEffect(s, step, now) && at <= now
    ensures var t := After(s, step, now);
      && (forall k :: k in t.jobs ==> IsDue(t, k.0, now))
      && (forall w :: w in t.workers ==> IsDue(t, t.workers[w].job.0, now))
      && (forall i :: 0 <= i < |t.posts| ==> IsDue(t, t.posts[i].run, now))
  {
    var t := After(s, step, now);
    StepKeepsSchedules(s, step, now);
    NewRowsBelong(s, step, now);
    forall r | r in s.launched && IsDue(s, r, at) ensures IsDue(t, r, now) { StaysDue(s, t, r, at, now); }
    forall k | k in t.jobs ensures IsDue(t, k.0, now) {
      if k !in s.jobs { NewJobIsDue(s, step, at, now); }
    }
  }

  lemma NewJobIsDue(s: State, step: Step, at: Instant, now: Instant)
    requires LifecycleOk(s) && WaitsOk(s, at) && TakesEffect(s, step, now) && at <= now && step.Materialize?
    ensures IsDue(After(s, step, now), step.r, now)
  {
    assert HasSchedule(s, step.r) && RunOk(s, step.r);
    StepKeepsSchedules(s, step, now);
    StaysDue(s, After(s, step, now), step.r, now, now);
  }

  /** Rows of `t` are rows of `s`, or come from the step as stated. */
  predicate RowsBelong(s: State, t: State, step: Step) {
    && (forall k :: k in t.jobs ==> k in s.jobs || (step.Materialize? && k.0 == step.r))
    && (forall w :: w in t.workers ==> (w in s.workers && t.workers[w].job == s.workers[w].job) || t.workers[w].job in s.jobs)
    && (forall i :: 0 <= i < |t.posts| ==>
          (i < |s.posts| && t.posts[i] == s.posts[i]) || (step.SendPost? && step.w in s.workers && t.posts[i].run == s.workers[step.w].job.0))
  }

  lemma NewRowsBelong(s: State, step: Step, now: Instant)
    requires LifecycleOk(s) && TakesEffect(s, step, now)
    ensures RowsBelong(s, After(s, step, now), step)
  {
    var t := After(s, step, now);
    if IsRunStep(step) || IsCampaignStep(step) {
      RunStepAddsNoRows(s, step, now);
    } else if IsWorkerStep(step) {
      WorkerRowsBelong(s, step, now);
    } else {
      assert t.workers == s.workers && t.posts == s.posts;
    }
  }

  lemma RunStepAddsNoRows(s: State, step: Step, now: Instant)
    requires LifecycleOk(s) && TakesEffect(s, step, now) && (IsRunStep(step) || IsCampaignStep(step))
    ensures var t := After(s, step, now); t.jobs.Keys == s.jobs.Keys && t.workers == s.workers && t.posts == s.posts
  {
    if IsPlainRunStep(step) {
      PlainRunStepMoves(s, step, now);
    } else {
      StartOrEndAddsNoRows(s, step, now);
    }
  }

  lemma StartOrEndAddsNoRows(s: State, step: Step, now: Instant)
    requires TakesEffect(s, step, now) && (step.ApplyPreflight? || step.Resume? || step.Cancel? || step.RetireRun?)
    ensures var t := After(s, step, now); t.jobs.Keys == s.jobs.Keys && t.workers == s.workers && t.posts == s.posts
  {
    match step
    case Cancel(r) =>
      assert Cancelled(s, r).jobs == CancelledJobs(WithDeliveries(s, r), r);
    case _ =>
  }

  lemma WorkerRowsBelong(s: State, step: Step, now: Instant)
    requires TakesEffect(s, step, now) && IsWorkerStep(step)
    ensures RowsBelong(s, After(s, step, now), step)
  {
  }

  lemma {:induction false} ReachedWaits(steps: seq<(Step, Instant)>)
    requires InOrder(steps)
    ensures WaitsOk(Reached(steps), LastAt(steps))
  {
    if steps != [] {
      var front, step, at := steps[..|steps| - 1], steps[|steps| - 1].0, steps[|steps| - 1].1;
      var s := Reached(front);
      ReachedWaits(front);
      RunKeepsInv(front);
      assert LastAt(front) <= at;
      if TakesEffect(s, step, at) {
        RunsWait(s, step, LastAt(front), at);
        RowsAreDue(s, step, LastAt(front), at);
      } else {
        LaterIsFine(s, LastAt(front), at);
      }
    }
  }

  lemma LaterIsFine(s: State, at: Instant, now: Instant)
    requires WaitsOk(s, at) && at <= now
    ensures WaitsOk(s, now)
  {
  }

  // ---------------------------------------------------------------------------------------------
  // Results

  /** A run that is running is due, and has the schedule of its campaign if there is one. */
  lemma RunningRunsAreDue(steps: seq<(Step, Instant)>, r: RunId)
    requires InOrder(steps) && r in Reached(steps).runs
    ensures var s := Reached(steps); var run := s.runs[r];
      && run.campaign in s.campaigns
      && (s.campaigns[run.campaign].scheduledAt.Some? ==> run.scheduledAt == s.campaigns[run.campaign].scheduledAt.value)
      && (run.status.RUNNING? ==> run.scheduledAt <= LastAt(steps))
  {
    ReachedWaits(steps);
    RunKeepsInv(steps);
    assert RunOk(Reached(steps), r) && HasSchedule(Reached(steps), r);
  }

  /** Nothing is POSTed for a campaign before the time it is scheduled for, nor for a run before its own; that the
      run was deleted in the meantime makes no difference. */
  lemma PostsWaitForSchedule(steps: seq<(Step, Instant)>, i: nat)
    requires InOrder(steps) && i < |Reached(steps).posts|
    ensures var s := Reached(steps); var r := s.posts[i].run;
      && r in s.launched && s.launched[r].campaign in s.campaigns
      && (s.campaigns[s.launched[r].campaign].scheduledAt.Some? ==> s.campaigns[s.launched[r].campaign].scheduledAt.value <= LastAt(steps))
      && (r in s.runs ==> s.runs[r].scheduledAt <= LastAt(steps))
  {
    ReachedWaits(steps);
    assert IsDue(Reached(steps), Reached(steps).posts[i].run, LastAt(steps));
  }

  /** A passing preflight and a resumption start a run that is due, and schedule any other. */
  lemma StartsExactlyWhenDue(s: State, step: Step, at: Instant)
    requires TakesEffect(s, step, at) && (step.Resume? || (step.ApplyPreflight? && !step.blocked))
    ensures var t := After(s, step, at);
      && step.r in s.runs && step.r in t.runs
      && (t.runs[step.r].status.RUNNING? <==> s.runs[step.r].scheduledAt <= at)
      && (t.runs[step.r].status.SCHEDULED? <==> s.runs[step.r].scheduledAt > at)
  {
    if step.Resume? { ResumeStarts(s, step.r, at); }
  }

  lemma ResumeStarts(s: State, r: RunId, at: Instant)
    requires TakesEffect(s, Resume(r), at)
    ensures var t := After(s, Resume(r), at);
      && (t.runs[r].status.RUNNING? <==> s.runs[r].scheduledAt <= at)
      && (t.runs[r].status.SCHEDULED? <==> s.runs[r].scheduledAt > at)
  {
  }
}
