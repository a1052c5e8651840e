/** How runs, deliveries and jobs end: what finalization decides, what cancellation stops, which way statuses go,
    and what is left of campaigns and preparations that are over. */
module CampaignOutcomes {
  import opened Options
  import opened Campaigns
  import opened CampaignSafety
  import opened CampaignPipeline
  import opened CampaignSchedule

  // ---------------------------------------------------------------------------------------------
  // Finalization

  /** The delivery waits for its job, or for the end of it. */
  predicate IsUnderWay(st: DeliveryStatus) {
    || st == PENDING || st == MATERIALIZED
    || st == Shows(JobStatus.SCHEDULED) || st == Shows(QUEUED) || st == Shows(PROCESSING)
  }

  /** The delivery counts against its run. */
  predicate HasFailed(st: DeliveryStatus) {
    || st == BLOCKED_CAPABILITY_CHANGED
    || st == Shows(JobStatus.FAILED) || st == Shows(UNKNOWN) || st == Shows(JobStatus.CANCELLED)
  }

  predicate IsFinalizable(deliveries: map<Key, Delivery>, r: RunId) {
    (exists k :: k in deliveries && k.0 == r) && forall k :: k in deliveries && k.0 == r ==> !IsUnderWay(deliveries[k].status)
  }

  predicate HasFailedDelivery(deliveries: map<Key, Delivery>, r: RunId) {
    exists k :: k in deliveries && k.0 == r && HasFailed(deliveries[k].status)
  }

  /** A finalized run has partly failed if a delivery was blocked, failed, cancelled or is of unknown outcome, and is
      completed otherwise. */
  function EndOf(deliveries: map<Key, Delivery>, r: RunId): RunStatus {
    if HasFailedDelivery(deliveries, r) then PARTIAL_FAILED else COMPLETED
  }

  /** The end of a live run archives its campaign if that is active or paused. */
  predicate EndsWith(c: CampaignId, campaign: Campaign, run: Run) {
    run.mode == LIVE && run.campaign == c && (campaign.status == CampaignStatus.ACTIVE || campaign.status == CampaignStatus.PAUSED)
  }

  lemma SettledIsNotUnderWay(st: DeliveryStatus)
    ensures IsSettled(st) <==> !IsUnderWay(st)
    ensures IsFailure(st) <==> HasFailed(st)
  {
  }

  lemma FinalizableExactly(s: State, r: RunId)
    ensures AllSettled(s, r) <==> IsFinalizable(s.deliveries, r)
    ensures (exists k :: k in DeliveriesOf(s, r) && IsFailure(s.deliveries[k].status)) <==> HasFailedDelivery(s.deliveries, r)
  {
    forall k | k in s.deliveries && k.0 == r ensures k in DeliveriesOf(s, r) {}
    forall k | k in s.deliveries ensures IsSettled(s.deliveries[k].status) <==> !IsUnderWay(s.deliveries[k].status) {
      SettledIsNotUnderWay(s.deliveries[k].status);
    }
    forall k | k in s.deliveries ensures IsFailure(s.deliveries[k].status) <==> HasFailed(s.deliveries[k].status) {
      SettledIsNotUnderWay(s.deliveries[k].status);
    }
    if IsFinalizable(s.deliveries, r) {
      var k :| k in s.deliveries && k.0 == r;
      assert k in DeliveriesOf(s, r);
    }
  }

  /** A running run can be finalized exactly if it has deliveries and none is under way; then it is completed or has
      partly failed, its live campaign is archived, and nothing else changes. */
  lemma FinalizationDecides(s: State, r: RunId, at: Instant)
    requires r in s.runs
    ensures TakesEffect(s, Finalize(r), at) <==> s.runs[r].status == RUNNING && IsFinalizable(s.deliveries, r)
    ensures TakesEffect(s, Finalize(r), at) ==>
      var t := After(s, Finalize(r), at);
      && t.runs == s.runs[r := s.runs[r].(status := EndOf(s.deliveries, r))]
      && t.campaigns.Keys == s.campaigns.Keys
      && (forall c :: c in s.campaigns ==>
            t.campaigns[c] == if EndsWith(c, s.campaigns[c], s.runs[r]) then s.campaigns[c].(status := ARCHIVED) else s.campaigns[c])
      && t == s.(runs := t.runs, campaigns := t.campaigns)
    ensures TakesEffect(s, Finalize(r), at) ==>
      && After(s, Finalize(r), at).runs[r].status in {PARTIAL_FAILED, COMPLETED}
      && (After(s, Finalize(r), at).runs[r].status == PARTIAL_FAILED <==>
            exists k :: k in s.deliveries && k.0 == r && s.deliveries[k].status in
              {BLOCKED_CAPABILITY_CHANGED, Shows(JobStatus.FAILED), Shows(UNKNOWN), Shows(JobStatus.CANCELLED)})
  {
    FinalizableExactly(s, r);
  }

  // ---------------------------------------------------------------------------------------------
  // A run step changes one run

  /** What a run step makes of its run. */
  function RowAfter(s: State, step: Step, at: Instant): Run
    requires IsRunStep(step) && step.r in s.runs
  {
    var run := s.runs[step.r];
    match step
    case ClaimPreparation(_, token) => run.(attempts := run.attempts + 1, lease := Some(Lease(token, at + LEASE_MS)))
    case StalePreflight(_, _) => run.(attempts := if run.attempts > 0 then run.attempts - 1 else 0, nextAttemptAt := at, lease := None)
    case ApplyPreflight(_, _, blocked) => run.(status := if blocked then BLOCKED else StartStatus(run, at), lease := None)
    case FailPreparation(_, _, retryAt) =>
      if run.attempts >= PREPARATION_ATTEMPTS then run.(status := RunStatus.FAILED, lease := None)
      else run.(nextAttemptAt := retryAt, lease := None)
    case RecoverPreparation(_) =>
      var back := run.(nextAttemptAt := at, lease := None);
      if run.attempts >= PREPARATION_ATTEMPTS then back.(status := RunStatus.FAILED) else back
    case Activate(_) => run.(status := RUNNING)
    case Finalize(r) => run.(status := EndOf(s.deliveries, r))
    case Pause(_) => run.(status := RunStatus.PAUSED)
    case Suspend(_) => run.(status := RunStatus.PAUSED)
    case BlockResume(_) => run.(status := BLOCKED)
    case Resume(_) => run.(status := StartStatus(run, at))
    case Cancel(_) => run.(status := RunStatus.CANCELLED)
  }

  lemma RunStepRow(s: State, step: Step, at: Instant)
    requires IsRunStep(step) && TakesEffect(s, step, at)
    ensures step.r in s.runs && After(s, step, at).runs == s.runs[step.r := RowAfter(s, step, at)]
    ensures After(s, step, at).launched == s.launched
  {
    if step.ClaimPreparation? || step.StalePreflight? || step.ApplyPreflight? || step.FailPreparation? || step.RecoverPreparation? {
      PreparationRow(s, step, at);
    } else if step.Finalize? {
      FinalizationDecides(s, step.r, at);
    } else if step.Cancel? || step.Resume? {
      EndOrResumeRow(s, step, at);
    } else {
      PauseOrStartRow(s, step, at);
    }
  }

  lemma PreparationRow(s: State, step: Step, at: Instant)
    requires step.ClaimPreparation? || step.StalePreflight? || step.ApplyPreflight? || step.FailPreparation? || step.RecoverPreparation?
    requires TakesEffect(s, step, at)
    ensures step.r in s.runs && After(s, step, at).runs == s.runs[step.r := RowAfter(s, step, at)]
  {
  }

  lemma EndOrResumeRow(s: State, step: Step, at: Instant)
    requires (step.Cancel? || step.Resume?) && TakesEffect(s, step, at)
    ensures step.r in s.runs && After(s, step, at).runs == s.runs[step.r := RowAfter(s, step, at)]
    ensures After(s, step, at).launched == s.launched
  {
  }

  lemma PauseOrStartRow(s: State, step: Step, at: Instant)
    requires (step.Activate? || step.Pause? || step.Suspend? || step.BlockResume?) && TakesEffect(s, step, at)
    ensures step.r in s.runs && After(s, step, at).runs == s.runs[step.r := RowAfter(s, step, at)]
  {
  }

  // ---------------------------------------------------------------------------------------------
  // Which way the status of a job goes

  /** What one transaction may make of a job's status. */
  predicate MayFollow(a: JobStatus, b: JobStatus) {
    || b == a
    || match a
       case SCHEDULED => b == QUEUED || b == JobStatus.CANCELLED
       case QUEUED => b == JobStatus.SCHEDULED || b == PROCESSING || b == JobStatus.CANCELLED
       case PROCESSING => b == DRY_RUN_COMPLETED || b == ACCEPTED || b == JobStatus.FAILED || b == UNKNOWN
       case ACCEPTED => b == SENT || b == DELIVERED || b == READ || b == JobStatus.FAILED
       case SENT => b == DELIVERED || b == READ
       case DELIVERED => b == READ
       case UNKNOWN => b == ACCEPTED || b == SENT || b == DELIVERED || b == READ || b == JobStatus.FAILED
       case _ => false
  }

  /** A job is created for a pending delivery of a running run. */
  predicate IsNewJob(s: State, k: Key, job: Job) {
    && k in s.deliveries && s.deliveries[k].status == PENDING && k.0 in s.runs && s.runs[k.0].status == RUNNING
    && job.status == JobStatus.SCHEDULED
  }

  ghost predicate JobsMayFollow(s: State, t: State, step: Step) {
    forall k :: k in t.jobs ==>
      if k in s.jobs then MayFollow(s.jobs[k].status, t.jobs[k].status)
      else step.Materialize? && k == (step.r, step.g) && IsNewJob(s, k, t.jobs[k])
  }

  lemma JobsFollow(s: State, step: Step, at: Instant)
    requires Inv(s) && TakesEffect(s, step, at)
    ensures JobsMayFollow(s, After(s, step, at), step)
  {
    if IsPlainRunStep(step) {
      PlainRunStepMoves(s, step, at);
    } else if step.Webhook? {
      assert JobOk(s, step.k);
      WebhookFollows(s, step.k, step.status, at);
    } else if step.Cancel? {
      CancelFollows(s, step.r);
    } else if IsWorkerStep(step) {
      WorkerStepFollows(s, step, at);
    } else {
      OtherStepFollows(s, step, at);
    }
  }

  lemma WebhookFollows(s: State, k: Key, status: JobStatus, at: Instant)
    requires TakesEffect(s, Webhook(k, status), at) && !IsActiveJob(s.jobs[k].status)
    ensures JobsMayFollow(s, After(s, Webhook(k, status), at), Webhook(k, status))
  {
    var present := s.jobs[k].status;
    assert status == JobStatus.FAILED || Rank(status) > Rank(present);
  }

  lemma CancelFollows(s: State, r: RunId)
    requires r in s.runs
    ensures JobsMayFollow(s, Cancelled(s, r), Cancel(r))
  {
    assert Cancelled(s, r).jobs == CancelledJobs(WithDeliveries(s, r), r);
  }

  lemma WorkerStepFollows(s: State, step: Step, at: Instant)
    requires TakesEffect(s, step, at) && IsWorkerStep(step)
    ensures JobsMayFollow(s, After(s, step, at), step)
  {
    match step
    case MarkProcessing(k, w) =>
    case Verify(w, last) =>
    case SendPost(w) =>
    case Settle(w, result) =>
  }

  lemma OtherStepFollows(s: State, step: Step, at: Instant)
    requires TakesEffect(s, step, at)
    requires step.ApplyPreflight? || step.Resume? || step.RetireRun? || step.RetireJob? || step.Materialize? || step.Reconcile?
             || step.ClaimDue? || step.ResetQueued? || step.Expire?
    ensures JobsMayFollow(s, After(s, step, at), step)
  {
    if step.Materialize? {
      MaterializedFollows(s, (step.r, step.g), step.changed, step);
    } else if step.ApplyPreflight? || step.Resume? || step.RetireRun? || step.Reconcile? {
      UntouchedJobs(s, step, at);
    } else {
      JobStepFollows(s, step, at);
    }
  }

  lemma UntouchedJobs(s: State, step: Step, at: Instant)
    requires TakesEffect(s, step, at) && (step.ApplyPreflight? || step.Resume? || step.RetireRun? || step.Reconcile?)
    ensures After(s, step, at).jobs == s.jobs
  {
    match step
    case ApplyPreflight(r, token, blocked) =>
    case Resume(r) =>
    case RetireRun(r) => assert WithoutRun(s, r).jobs == s.jobs;
    case Reconcile(k) => assert Shown(s, k).jobs == s.jobs;
  }

  lemma JobStepFollows(s: State, step: Step, at: Instant)
    requires TakesEffect(s, step, at) && (step.RetireJob? || step.ClaimDue? || step.ResetQueued? || step.Expire?)
    ensures JobsMayFollow(s, After(s, step, at), step)
  {
  }

  lemma MaterializedFollows(s: State, k: Key, changed: bool, step: Step)
    requires k.0 in s.runs && s.runs[k.0].status == RUNNING && k in s.deliveries && s.deliveries[k].status == PENDING
    requires step.Materialize? && k == (step.r, step.g)
    ensures JobsMayFollow(s, Materialized(s, k, changed), step)
  {
  }

  /** What a webhook reports supersedes what is known. */
  predicate Supersedes(present: JobStatus, status: JobStatus) {
    var open := present in {JobStatus.SCHEDULED, QUEUED, PROCESSING, UNKNOWN};
    match status
    case FAILED => open || present == ACCEPTED
    case ACCEPTED => open
    case SENT => open || present == ACCEPTED
    case DELIVERED => open || present == ACCEPTED || present == SENT
    case READ => open || present == ACCEPTED || present == SENT || present == DELIVERED
    case _ => false
  }

  lemma WebhooksSupersede(job: Job, status: JobStatus)
    ensures WebhookApplies(job, status) <==> job.messageId && Supersedes(job.status, status)
  {
    assert Rank(status) > Rank(job.status) ==> Rank(status) in {10, 20, 30, 40};
  }

  /** Where any number of transactions may take a job's status. */
  predicate LeadsTo(a: JobStatus, b: JobStatus) {
    match a
    case SCHEDULED => true
    case QUEUED => true
    case PROCESSING => b != JobStatus.SCHEDULED && b != QUEUED && b != JobStatus.CANCELLED
    case UNKNOWN => b == UNKNOWN || b == ACCEPTED || b == SENT || b == DELIVERED || b == READ || b == JobStatus.FAILED
    case ACCEPTED => b == ACCEPTED || b == SENT || b == DELIVERED || b == READ || b == JobStatus.FAILED
    case SENT => b == SENT || b == DELIVERED || b == READ
    case DELIVERED => b == DELIVERED || b == READ
    case _ => b == a
  }

  /** A job leaves only with its run. */
  lemma JobStaysWithRun(s: State, step: Step, at: Instant, k: Key)
    requires Inv(s) && Inv(After(s, step, at)) && k.0 in s.launched && (k in s.jobs || k.0 !in s.runs)
    ensures k in After(s, step, at).jobs || k.0 !in After(s, step, at).runs
  {
    var t := After(s, step, at);
    if TakesEffect(s, step, at) && k.0 in t.runs {
      StepKeepsSchedules(s, step, at);
      assert k.0 in s.runs && JobOk(s, k);
      HasJobStays(s, step, at, k);
      assert DeliveryOk(t, k);
    }
  }

  lemma HasJobStays(s: State, step: Step, at: Instant, k: Key)
    requires Inv(s) && TakesEffect(s, step, at) && k in s.deliveries && s.deliveries[k].hasJob && k.0 in After(s, step, at).runs
    ensures k in After(s, step, at).deliveries && After(s, step, at).deliveries[k].hasJob
  {
    if IsPlainRunStep(step) {
      PlainRunStepMoves(s, step, at);
    } else if IsWorkerStep(step) || IsJobStep(step) || step.RetireJob? {
      UntouchedDeliveries(s, step, at);
    } else {
      DeliveryStepKeepsJob(s, step, at, k);
    }
  }

  lemma UntouchedDeliveries(s: State, step: Step, at: Instant)
    requires TakesEffect(s, step, at) && (IsWorkerStep(step) || IsJobStep(step) || step.RetireJob?)
    ensures After(s, step, at).deliveries == s.deliveries
  {
    if IsWorkerStep(step) { UntouchedByWorker(s, step, at); }
  }

  lemma UntouchedByWorker(s: State, step: Step, at: Instant)
    requires TakesEffect(s, step, at) && IsWorkerStep(step)
    ensures After(s, step, at).deliveries == s.deliveries
  {
  }

  lemma DeliveryStepKeepsJob(s: State, step: Step, at: Instant, k: Key)
    requires TakesEffect(s, step, at) && k in s.deliveries && s.deliveries[k].hasJob && k.0 in After(s, step, at).runs
    requires step.Materialize? || step.Reconcile? || step.ApplyPreflight? || step.Resume? || step.Cancel? || step.RetireRun?
    ensures k in After(s, step, at).deliveries && After(s, step, at).deliveries[k].hasJob
  {
    if step.Cancel? {
      CancelKeepsJob(s, step.r, k);
    } else if step.Materialize? || step.Reconcile? {
      RowKeepsJob(s, step, at, k);
    } else {
      StartOrRetireKeepsJob(s, step, at, k);
    }
  }

  lemma StartOrRetireKeepsJob(s: State, step: Step, at: Instant, k: Key)
    requires TakesEffect(s, step, at) && k in s.deliveries && s.deliveries[k].hasJob && k.0 in After(s, step, at).runs
    requires step.ApplyPreflight? || step.Resume? || step.RetireRun?
    ensures k in After(s, step, at).deliveries && After(s, step, at).deliveries[k].hasJob
  {
    if step.RetireRun? { assert k !in DeliveriesOf(s, step.r); }
  }

  lemma RowKeepsJob(s: State, step: Step, at: Instant, k: Key)
    requires TakesEffect(s, step, at) && k in s.deliveries && s.deliveries[k].hasJob && (step.Materialize? || step.Reconcile?)
    ensures k in After(s, step, at).deliveries && After(s, step, at).deliveries[k].hasJob
  {
  }

  lemma CancelKeepsJob(s: State, r: RunId, k: Key)
    requires r in s.runs && k in s.deliveries && s.deliveries[k].hasJob
    ensures k in Cancelled(s, r).deliveries && Cancelled(s, r).deliveries[k].hasJob
  {
  }

  lemma {:induction false} FollowedFrom(steps: seq<(Step, Instant)>, n: nat, k: Key)
    requires n <= |steps| && k in Reached(steps[..n]).jobs
    ensures k.0 in Reached(steps).launched && (k in Reached(steps).jobs || k.0 !in Reached(steps).runs)
    ensures k in Reached(steps).jobs ==> LeadsTo(Reached(steps[..n]).jobs[k].status, Reached(steps).jobs[k].status)
    decreases |steps|
  {
    RunKeepsInv(steps);
    if n == |steps| {
      assert steps[..n] == steps && JobOk(Reached(steps), k);
    } else {
      var front, step, at := steps[..|steps| - 1], steps[|steps| - 1].0, steps[|steps| - 1].1;
      var s := Reached(front);
      assert front[..n] == steps[..n];
      FollowedFrom(front, n, k);
      RunKeepsInv(front);
      JobStaysWithRun(s, step, at, k);
      FollowedStep(s, step, at, k, Reached(steps[..n]).jobs[k].status);
    }
  }

  lemma FollowedStep(s: State, step: Step, at: Instant, k: Key, from: JobStatus)
    requires Inv(s) && k.0 in s.launched && (k in s.jobs || k.0 !in s.runs)
    requires k in s.jobs ==> LeadsTo(from, s.jobs[k].status)
    ensures k.0 in After(s, step, at).launched
    ensures k in After(s, step, at).jobs ==> LeadsTo(from, After(s, step, at).jobs[k].status)
  {
    if TakesEffect(s, step, at) {
      StepKeepsSchedules(s, step, at);
      JobsFollow(s, step, at);
      FollowedJob(s, After(s, step, at), step, k, from);
    }
  }

  lemma FollowedJob(s: State, t: State, step: Step, k: Key, from: JobStatus)
    requires JobsMayFollow(s, t, step) && (k in s.jobs || k.0 !in s.runs) && (k in s.jobs ==> LeadsTo(from, s.jobs[k].status))
    ensures k in t.jobs ==> LeadsTo(from, t.jobs[k].status)
  {
  }

  /** Over any stretch of any run, the status of a job only goes forward: past the queue it never returns to it or is
      cancelled, a message goes from accepted over sent and delivered to read, and only one that is not beyond
      acceptance fails; a dry run, a failure, a cancellation and a read message are final. */
  lemma StatusesOnlyAdvance(steps: seq<(Step, Instant)>, n: nat, k: Key)
    requires n <= |steps| && k in Reached(steps[..n]).jobs && k in Reached(steps).jobs
    ensures LeadsTo(Reached(steps[..n]).jobs[k].status, Reached(steps).jobs[k].status)
  {
    FollowedFrom(steps, n, k);
  }

  // ---------------------------------------------------------------------------------------------
  // Cancellation

  /** The run is over or gone, none of its jobs can be taken up any more, and only the workers of `known` have any. */
  ghost predicate IsStopped(s: State, r: RunId, known: set<WorkerId>) {
    && r in s.launched && (r in s.runs ==> IsTerminal(s.runs[r].status))
    && (forall k :: k in s.jobs && k.0 == r ==> !s.jobs[k].status.SCHEDULED? && !s.jobs[k].status.QUEUED?)
    && (forall w :: w in s.workers && w !in known ==> s.workers[w].job.0 != r)
  }

  lemma CancelStops(s: State, r: RunId, at: Instant)
    requires Inv(s) && TakesEffect(s, Cancel(r), at)
    ensures IsStopped(After(s, Cancel(r), at), r, s.workers.Keys)
  {
    var t := After(s, Cancel(r), at);
    assert RunOk(s, r);
    forall k | k in t.jobs && k.0 == r ensures !t.jobs[k].status.SCHEDULED? && !t.jobs[k].status.QUEUED? {
      assert JobOk(s, k);
      assert t.jobs[k] == CancelledJobs(WithDeliveries(s, r), r)[k];
    }
  }

  /** A delivery whose job goes on is left alone; any other is cancelled now or was, unless it was blocked. */
  predicate CancelledDelivery(s: State, t: State, k: Key) {
    && k in t.deliveries
    && if k in s.deliveries && s.deliveries[k].hasJob && k in t.jobs && t.jobs[k].status != JobStatus.CANCELLED
       then t.deliveries[k] == s.deliveries[k]
       else t.deliveries[k].status == Shows(JobStatus.CANCELLED) || t.deliveries[k].status == BLOCKED_CAPABILITY_CHANGED
  }

  /** The jobs of the run that were not taken up are cancelled, and no other. */
  ghost predicate JobsCancelled(s: State, t: State, r: RunId) {
    t.jobs.Keys == s.jobs.Keys && forall k :: k in s.jobs ==>
      t.jobs[k] == if k.0 == r && (s.jobs[k].status == JobStatus.SCHEDULED || s.jobs[k].status == QUEUED)
                   then s.jobs[k].(status := JobStatus.CANCELLED) else s.jobs[k]
  }

  /** Every target of the run has a delivery, and none waits any more; those of other runs stay. */
  ghost predicate DeliveriesCancelled(s: State, t: State, r: RunId)
    requires r in s.runs
  {
    && (forall k :: k in t.deliveries <==> k in s.deliveries || (k.0 == r && k.1 in s.runs[r].targets))
    && (forall k :: k in s.deliveries && k.0 != r ==> t.deliveries[k] == s.deliveries[k])
    && (forall k :: k in t.deliveries && k.0 == r ==> CancelledDelivery(s, t, k))
  }

  lemma CancellationDecides(s: State, r: RunId, at: Instant)
    requires Inv(s) && r in s.runs
    ensures TakesEffect(s, Cancel(r), at) <==> s.runs[r].status !in {COMPLETED, PARTIAL_FAILED, RunStatus.CANCELLED, RunStatus.FAILED}
    ensures TakesEffect(s, Cancel(r), at) ==>
      var t := After(s, Cancel(r), at);
      && JobsCancelled(s, t, r) && DeliveriesCancelled(s, t, r)
      && t.runs == s.runs[r := s.runs[r].(status := RunStatus.CANCELLED)] && t.campaigns.Keys == s.campaigns.Keys
      && forall c :: c in s.campaigns ==>
           t.campaigns[c] == if EndsWith(c, s.campaigns[c], s.runs[r]) then s.campaigns[c].(status := ARCHIVED) else s.campaigns[c]
  {
    if TakesEffect(s, Cancel(r), at) {
      JobsAreCancelled(s, r);
      DeliveriesAreCancelled(s, r);
      RunStepRow(s, Cancel(r), at);
    }
  }

  lemma JobsAreCancelled(s: State, r: RunId)
    requires Inv(s) && r in s.runs
    ensures JobsCancelled(s, Cancelled(s, r), r)
  {
    var t := Cancelled(s, r);
    assert t.jobs == CancelledJobs(WithDeliveries(s, r), r);
    forall k | k in s.jobs && k.0 == r ensures k in s.deliveries && s.deliveries[k].hasJob { assert JobOk(s, k); }
  }

  lemma DeliveriesAreCancelled(s: State, r: RunId)
    requires Inv(s) && r in s.runs
    ensures DeliveriesCancelled(s, Cancelled(s, r), r)
  {
    var u, t := WithDeliveries(s, r), Cancelled(s, r);
    JobsAreCancelled(s, r);
    assert t.deliveries == CancelledDeliveries(u, t.jobs, r);
    assert t.deliveries.Keys == u.deliveries.Keys;
    forall k ensures k in u.deliveries <==> k in s.deliveries || (k.0 == r && k.1 in s.runs[r].targets) { assert k == (k.0, k.1); }
    forall k | k in t.deliveries && k.0 == r ensures CancelledDelivery(s, t, k) { DeliveryIsCancelled(s, r, k); }
  }

  lemma DeliveryIsCancelled(s: State, r: RunId, k: Key)
    requires PipelineOk(s) && r in s.runs && k in Cancelled(s, r).deliveries && k.0 == r
    requires Cancelled(s, r).jobs.Keys == s.jobs.Keys
    ensures CancelledDelivery(s, Cancelled(s, r), k)
  {
    var u, t := WithDeliveries(s, r), Cancelled(s, r);
    assert t.deliveries == CancelledDeliveries(u, t.jobs, r);
    CancelledRow(u, t.jobs, r, k);
    if k in s.deliveries { WaitingHasNoJob(s, k); }
  }

  lemma WaitingHasNoJob(s: State, k: Key)
    requires PipelineOk(s) && k in s.deliveries
    ensures s.deliveries[k].hasJob ==> k in s.jobs && s.deliveries[k].status != PENDING
    ensures !s.deliveries[k].hasJob ==> s.deliveries[k].status in {PENDING, BLOCKED_CAPABILITY_CHANGED, Shows(JobStatus.CANCELLED)}
  {
    assert DeliveryOk(s, k);
  }

  lemma CancelledRow(u: State, jobs: map<Key, Job>, r: RunId, k: Key)
    requires k in u.deliveries && k.0 == r
    ensures k in CancelledDeliveries(u, jobs, r)
    ensures CancelledDeliveries(u, jobs, r)[k] ==
      if u.deliveries[k].status == PENDING || (u.deliveries[k].hasJob && k in jobs && jobs[k].status == JobStatus.CANCELLED)
      then u.deliveries[k].(status := Shows(JobStatus.CANCELLED)) else u.deliveries[k]
  {
  }

  lemma StopRuns(s: State, step: Step, at: Instant, r: RunId, known: set<WorkerId>)
    requires Inv(s) && IsStopped(s, r, known) && TakesEffect(s, step, at)
    ensures var t := After(s, step, at); r in t.launched && (r in t.runs ==> IsTerminal(t.runs[r].status))
  {
    if IsRunStep(step) {
      StepsNeedOpenRuns(s, step, at);
      RunStepMoves(s, step, at);
    } else if IsCampaignStep(step) {
      EndedRunsStayEnded(s, step, at, r);
    } else {
      RowStepKeepsRuns(s, step, at);
    }
  }

  lemma EndedRunsStayEnded(s: State, step: Step, at: Instant, r: RunId)
    requires TakesEffect(s, step, at) && IsCampaignStep(step) && r in s.launched && (r in s.runs ==> IsTerminal(s.runs[r].status))
    ensures var t := After(s, step, at); r in t.launched && (r in t.runs ==> IsTerminal(t.runs[r].status))
  {
  }

  lemma StopStays(s: State, step: Step, at: Instant, r: RunId, known: set<WorkerId>)
    requires Inv(s) && IsStopped(s, r, known) && TakesEffect(s, step, at)
    ensures IsStopped(After(s, step, at), r, known)
  {
    var t := After(s, step, at);
    StopRuns(s, step, at, r, known);
    StopJobs(s, step, at, r, known);
    forall w | w in t.workers && w !in known ensures t.workers[w].job.0 != r {
      NewWorkersTakeQueued(s, step, at, w);
    }
  }

  /** No step puts a job of the stopped run back on the schedule or into the queue. */
  lemma StopJobs(s: State, step: Step, at: Instant, r: RunId, known: set<WorkerId>)
    requires Inv(s) && IsStopped(s, r, known) && TakesEffect(s, step, at)
    ensures var t := After(s, step, at);
      forall k :: k in t.jobs && k.0 == r ==> !t.jobs[k].status.SCHEDULED? && !t.jobs[k].status.QUEUED?
  {
    JobsFollow(s, step, at);
    StoppedJobs(s, After(s, step, at), step, r, known);
  }

  lemma StoppedJobs(s: State, t: State, step: Step, r: RunId, known: set<WorkerId>)
    requires IsStopped(s, r, known) && JobsMayFollow(s, t, step)
    ensures forall k :: k in t.jobs && k.0 == r ==> !t.jobs[k].status.SCHEDULED? && !t.jobs[k].status.QUEUED?
  {
  }

  lemma NewWorkersTakeQueued(s: State, step: Step, at: Instant, w: WorkerId)
    requires LifecycleOk(s) && TakesEffect(s, step, at) && w in After(s, step, at).workers
    ensures var job := After(s, step, at).workers[w].job;
      (w in s.workers && s.workers[w].job == job) || (job in s.jobs && s.jobs[job].status.QUEUED?)
  {
    if !IsWorkerStep(step) { NewRowsBelong(s, step, at); OnlyWorkersStepWorkers(s, step, at); }
  }

  lemma OnlyWorkersStepWorkers(s: State, step: Step, at: Instant)
    requires LifecycleOk(s) && TakesEffect(s, step, at) && !IsWorkerStep(step)
    ensures After(s, step, at).workers == s.workers
  {
    if IsRunStep(step) || IsCampaignStep(step) { RunStepAddsNoRows(s, step, at); }
  }

  lemma {:induction false} StoppedFrom(steps: seq<(Step, Instant)>, n: nat, r: RunId)
    requires 0 < n <= |steps| && steps[n - 1].0 == Cancel(r) && TakesEffect(Reached(steps[..n - 1]), Cancel(r), steps[n - 1].1)
    ensures IsStopped(Reached(steps), r, Reached(steps[..n - 1]).workers.Keys)
    decreases |steps|
  {
    var front, s := steps[..|steps| - 1], Reached(steps[..|steps| - 1]);
    RunKeepsInv(front);
    if n == |steps| {
      CancelStops(s, r, steps[n - 1].1);
    } else {
      assert front[..n - 1] == steps[..n - 1];
      StoppedFrom(front, n, r);
      if TakesEffect(s, steps[|steps| - 1].0, steps[|steps| - 1].1) {
        StopStays(s, steps[|steps| - 1].0, steps[|steps| - 1].1, r, Reached(steps[..n - 1]).workers.Keys);
      }
    }
  }

  /** Once a run is cancelled, whatever happens afterwards, it never runs again and its jobs are not taken up any more:
      each of its POSTs is by a worker that had taken up its job before. */
  lemma CancelStopsPosts(steps: seq<(Step, Instant)>, n: nat, r: RunId, i: nat)
    requires 0 < n <= |steps| && steps[n - 1].0 == Cancel(r) && TakesEffect(Reached(steps[..n - 1]), Cancel(r), steps[n - 1].1)
    requires i < |Reached(steps).posts|
    ensures r in Reached(steps).runs ==> IsTerminal(Reached(steps).runs[r].status)
    ensures Reached(steps).posts[i].run == r ==> Reached(steps).posts[i].worker in Reached(steps[..n - 1]).workers
  {
    StoppedFrom(steps, n, r);
    RunKeepsInv(steps);
    assert PostOk(Reached(steps), Reached(steps).posts[i]);
  }

  // ---------------------------------------------------------------------------------------------
  // Preparations and deleted campaigns

  /** A preparation is tried three times, and one that failed was. */
  predicate PreparationOk(run: Run) {
    && run.attempts <= 3
    && (run.status == PREPARING && run.lease.None? ==> run.attempts < 3)
    && (run.status == RunStatus.FAILED ==> run.attempts == 3)
  }

  lemma StepKeepsPreparations(s: State, step: Step, at: Instant, r: RunId)
    requires (forall o :: o in s.runs ==> PreparationOk(s.runs[o])) && TakesEffect(s, step, at) && r in After(s, step, at).runs
    ensures PreparationOk(After(s, step, at).runs[r])
  {
    if IsRunStep(step) {
      RunStepRow(s, step, at);
      RowKeepsPreparation(s, step, at);
    } else if !IsCampaignStep(step) {
      RowStepKeepsRuns(s, step, at);
    }
  }

  lemma RowKeepsPreparation(s: State, step: Step, at: Instant)
    requires IsRunStep(step) && TakesEffect(s, step, at) && step.r in s.runs && PreparationOk(s.runs[step.r])
    ensures PreparationOk(RowAfter(s, step, at))
  {
  }

  /** Over every run a preparation without a claim has attempts left, and one fails exactly with its third attempt. */
  lemma {:induction false} PreparationsAreTriedThrice(steps: seq<(Step, Instant)>, r: RunId)
    requires r in Reached(steps).runs
    ensures PreparationOk(Reached(steps).runs[r])
  {
    if steps != [] {
      var front, step, at := steps[..|steps| - 1], steps[|steps| - 1].0, steps[|steps| - 1].1;
      forall o | o in Reached(front).runs ensures PreparationOk(Reached(front).runs[o]) { PreparationsAreTriedThrice(front, o); }
      if TakesEffect(Reached(front), step, at) { StepKeepsPreparations(Reached(front), step, at, r); }
    }
  }

  /** A deleted campaign was not under way: it is a draft or archived, and all its runs are over. */
  predicate DeletionOk(s: State, c: CampaignId)
    requires c in s.campaigns
  {
    s.campaigns[c].deleted ==>
      && (s.campaigns[c].status == DRAFT || s.campaigns[c].status == ARCHIVED)
      && forall r :: r in s.runs && s.runs[r].campaign == c ==> s.runs[r].status in {COMPLETED, PARTIAL_FAILED, RunStatus.CANCELLED, RunStatus.FAILED}
  }

  lemma RunStepKeepsDeletion(s: State, step: Step, at: Instant, c: CampaignId)
    requires LifecycleOk(s) && c in s.campaigns && DeletionOk(s, c) && TakesEffect(s, step, at) && IsRunStep(step)
    ensures c in After(s, step, at).campaigns && DeletionOk(After(s, step, at), c)
  {
    RunStepMoves(s, step, at);
    RunStepMovesWhenDue(s, step, at);
    StepsNeedOpenRuns(s, step, at);
    MovingKeepsDeletion(s, After(s, step, at), step.r, at, c);
  }

  lemma MovingKeepsDeletion(s: State, t: State, r: RunId, at: Instant, c: CampaignId)
    requires r in s.runs && r in t.runs && MovesRun(s, t, r) && MovesWhenDue(s, t, r, at) && !IsTerminal(s.runs[r].status)
    requires c in s.campaigns && DeletionOk(s, c)
    ensures c in t.campaigns && DeletionOk(t, c)
  {
  }

  lemma StepsNeedOpenRuns(s: State, step: Step, at: Instant)
    requires TakesEffect(s, step, at) && IsRunStep(step)
    ensures step.r in s.runs && !IsTerminal(s.runs[step.r].status)
  {
  }

  lemma StepKeepsDeletion(s: State, step: Step, at: Instant, c: CampaignId)
    requires LifecycleOk(s) && TakesEffect(s, step, at) && c in After(s, step, at).campaigns
    requires c in s.campaigns ==> DeletionOk(s, c)
    ensures DeletionOk(After(s, step, at), c)
  {
    if IsRunStep(step) {
      RunStepMoves(s, step, at);
      RunStepKeepsDeletion(s, step, at, c);
    } else if IsCampaignStep(step) {
      CampaignStepKeepsDeletion(s, step, at, c);
    } else {
      RowStepKeepsRuns(s, step, at);
    }
  }

  lemma CampaignStepKeepsDeletion(s: State, step: Step, at: Instant, c: CampaignId)
    requires LifecycleOk(s) && TakesEffect(s, step, at) && IsCampaignStep(step) && c in After(s, step, at).campaigns
    requires c in s.campaigns ==> DeletionOk(s, c)
    ensures DeletionOk(After(s, step, at), c)
  {
    if step.DeleteCampaign? {
      assert !HasActiveRun(s, step.c);
    }
  }

  /** In every reachable state deleted campaigns are quiet. */
  lemma {:induction false} DeletedCampaignsAreQuiet(steps: seq<(Step, Instant)>, c: CampaignId)
    requires c in Reached(steps).campaigns
    ensures DeletionOk(Reached(steps), c)
  {
    if steps != [] {
      var front, step, at := steps[..|steps| - 1], steps[|steps| - 1].0, steps[|steps| - 1].1;
      RunKeepsInv(front);
      if c in Reached(front).campaigns { DeletedCampaignsAreQuiet(front, c); }
      if TakesEffect(Reached(front), step, at) { StepKeepsDeletion(Reached(front), step, at, c); }
    }
  }

  // ---------------------------------------------------------------------------------------------
  // Leases

  /** A job in processing is settled by a worker that took it up, or becomes unknown once its lease has run out. */
  lemma ProcessingStands(s: State, step: Step, at: Instant, k: Key)
    requires Inv(s) && TakesEffect(s, step, at) && k in s.jobs && s.jobs[k].status == PROCESSING
    requires k in After(s, step, at).jobs && After(s, step, at).jobs[k].status != PROCESSING
    ensures || (step.Settle? && step.w in s.workers && s.workers[step.w].job == k)
            || (step.Expire? && s.jobs[k].leaseExpiresAt.Some? && s.jobs[k].leaseExpiresAt.value < at && After(s, step, at).jobs[k].status == UNKNOWN)
  {
    if IsRunStep(step) || IsCampaignStep(step) {
      ProcessingOutlivesRuns(s, step, at, k);
    } else if IsWorkerStep(step) {
      WorkersSettleTheirOwn(s, step, at, k);
    } else {
      assert JobOk(s, k);
      OnlyExpiryEndsProcessing(s, step, at, k);
    }
  }

  lemma OnlyExpiryEndsProcessing(s: State, step: Step, at: Instant, k: Key)
    requires TakesEffect(s, step, at) && !IsRunStep(step) && !IsCampaignStep(step) && !IsWorkerStep(step)
    requires k in s.jobs && s.jobs[k].status == PROCESSING && !s.jobs[k].messageId
    requires k in After(s, step, at).jobs && After(s, step, at).jobs[k].status != PROCESSING
    ensures step.Expire? && s.jobs[k].leaseExpiresAt.Some? && s.jobs[k].leaseExpiresAt.value < at && After(s, step, at).jobs[k].status == UNKNOWN
  {
  }

  lemma WorkersSettleTheirOwn(s: State, step: Step, at: Instant, k: Key)
    requires IsWorkerStep(step) && TakesEffect(s, step, at) && k in s.jobs && s.jobs[k].status == PROCESSING
    requires k in After(s, step, at).jobs && After(s, step, at).jobs[k].status != PROCESSING
    ensures step.Settle? && step.w in s.workers && s.workers[step.w].job == k
  {
  }

  lemma ProcessingOutlivesRuns(s: State, step: Step, at: Instant, k: Key)
    requires LifecycleOk(s) && TakesEffect(s, step, at) && (IsRunStep(step) || IsCampaignStep(step)) && k in s.jobs && s.jobs[k].status == PROCESSING
    ensures k in After(s, step, at).jobs && After(s, step, at).jobs[k].status == PROCESSING
  {
    if IsPlainRunStep(step) {
      PlainRunStepMoves(s, step, at);
    } else if step.Cancel? {
      assert Cancelled(s, step.r).jobs == CancelledJobs(WithDeliveries(s, step.r), step.r);
    } else {
      UntouchedJobs(s, step, at);
    }
  }

  /** A claimed preparation stands: while its run is not paused or cancelled, only the holder reports on it, before the
      lease runs out, and only after that anybody else claims it or gives it up. */
  lemma PreparationStands(s: State, step: Step, at: Instant, r: RunId)
    requires LifecycleOk(s) && TakesEffect(s, step, at) && r in s.runs && s.runs[r].status == PREPARING && s.runs[r].lease.Some?
    requires r in After(s, step, at).runs && After(s, step, at).runs[r] != s.runs[r]
    ensures || (step.Cancel? && step.r == r)
            || s.runs[r].lease.value.expiresAt < at
            || ((step.StalePreflight? || step.ApplyPreflight? || step.FailPreparation?) && step.r == r
                && step.token == s.runs[r].lease.value.token && at < s.runs[r].lease.value.expiresAt)
  {
    assert RunOk(s, r);
    if IsRunStep(step) {
      RunStepRow(s, step, at);
    } else if !IsCampaignStep(step) {
      RowStepKeepsRuns(s, step, at);
    }
  }
}
