/** Deliveries, jobs, workers and POSTs over every interleaving of the campaign transactions. */
module CampaignPipeline {
  import opened Options
  import opened Orders
  import opened Campaigns
  import opened CampaignSafety

  // ---------------------------------------------------------------------------------------------
  // Invariant

  predicate IsDone(st: RunStatus) { st.COMPLETED? || st.PARTIAL_FAILED? }

  /** A delivery without a job waits, is blocked or was cancelled; one with a job settles only after it. */
  predicate DeliveryOk(s: State, k: Key)
    requires k in s.deliveries
  {
    var d := s.deliveries[k];
    && k.0 in s.runs && k.1 in s.runs[k.0].targets
    && (d.hasJob ==> k in s.jobs && (d.status.MATERIALIZED? || d.status.Shows?)
                     && (IsSettled(d.status) ==> !IsActiveJob(s.jobs[k].status)))
    && (!d.hasJob ==> d.status.PENDING? || d.status.BLOCKED_CAPABILITY_CHANGED? || d.status == Shows(JobStatus.CANCELLED))
    && (IsDone(s.runs[k.0].status) ==> IsSettled(d.status))
  }

  /** As long as its run exists, a job or worker belongs to a delivery that was materialized. */
  predicate BelongsToDelivery(s: State, k: Key) {
    k.0 in s.launched && (k.0 in s.runs ==> k in s.deliveries && s.deliveries[k].hasJob)
  }

  predicate JobOk(s: State, k: Key)
    requires k in s.jobs
  {
    BelongsToDelivery(s, k) && s.jobs[k].dryRun == s.launched[k.0].mode.DRY_RUN?
    && (s.jobs[k].messageId ==> !IsActiveJob(s.jobs[k].status))
  }

  /** A job that was ever processed is never scheduled or queued again. */
  predicate WorkerOk(s: State, w: WorkerId)
    requires w in s.workers
  {
    var x := s.workers[w];
    && BelongsToDelivery(s, x.job) && x.dryRun == s.launched[x.job.0].mode.DRY_RUN?
    && (x.job in s.jobs ==> !s.jobs[x.job].status.SCHEDULED? && !s.jobs[x.job].status.QUEUED?)
    && (x.phase.Verified? || x.posted ==> !x.dryRun)
    && (x.phase.Posted? ==> x.posted) && (x.phase.Started? || x.phase.Verified? ==> !x.posted)
  }

  predicate PostOk(s: State, p: Post) {
    p.worker in s.workers && s.workers[p.worker].posted && s.workers[p.worker].job == (p.run, p.group)
  }

  predicate OneWorker(s: State, w: WorkerId, x: WorkerId)
    requires w in s.workers && x in s.workers
  {
    s.workers[w].job == s.workers[x].job ==> w == x
  }

  ghost predicate RowsOk(s: State) {
    && (forall k :: k in s.deliveries ==> DeliveryOk(s, k))
    && (forall k :: k in s.jobs ==> JobOk(s, k))
    && (forall w :: w in s.workers ==> WorkerOk(s, w))
  }

  /** One worker a job, and one POST a worker. */
  ghost predicate PostsOk(s: State) {
    && (forall w, x :: w in s.workers && x in s.workers ==> OneWorker(s, w, x))
    && (forall i :: 0 <= i < |s.posts| ==> PostOk(s, s.posts[i]))
    && (forall i, j :: 0 <= i < j < |s.posts| ==> s.posts[i].worker != s.posts[j].worker)
  }

  ghost predicate BuffersOk(s: State) {
    forall r :: r in s.runs ==> |Buffered(s, r)| <= MAX_BUFFERED
  }

  ghost predicate PipelineOk(s: State) {
    RowsOk(s) && PostsOk(s) && BuffersOk(s)
  }

  lemma PostsFrame(s: State, t: State)
    requires PostsOk(s) && t.workers == s.workers && t.posts == s.posts
    ensures PostsOk(t)
  {
    forall w, x | w in t.workers && x in t.workers ensures OneWorker(t, w, x) { assert OneWorker(s, w, x); }
    forall i | 0 <= i < |t.posts| ensures PostOk(t, t.posts[i]) { assert PostOk(s, s.posts[i]); }
  }

  // ---------------------------------------------------------------------------------------------
  // Steps on runs and campaigns

  /** Rows below the runs stay; runs may come, under fresh ids, or change status. */
  predicate OnlyRunsMove(s: State, t: State) {
    && t.deliveries == s.deliveries && t.jobs == s.jobs && t.workers == s.workers && t.posts == s.posts
    && (forall r :: r in s.launched ==> r in t.launched && t.launched[r] == s.launched[r])
    && (forall r :: r in t.runs && r !in s.runs ==> r !in s.launched)
    && (forall r :: r in s.runs ==> r in t.runs && t.runs[r].targets == s.runs[r].targets)
    && (forall k :: k in s.deliveries && k.0 in s.runs && k.0 in t.runs && IsDone(t.runs[k.0].status) ==>
          IsDone(s.runs[k.0].status) || IsSettled(s.deliveries[k].status))
  }

  lemma OnlyRunsMoveKeeps(s: State, t: State)
    requires PipelineOk(s) && OnlyRunsMove(s, t)
    ensures PipelineOk(t)
  {
    forall k | k in t.deliveries ensures DeliveryOk(t, k) { assert DeliveryOk(s, k); }
    forall k | k in t.jobs ensures JobOk(t, k) { assert JobOk(s, k); }
    forall w | w in t.workers ensures WorkerOk(t, w) { assert WorkerOk(s, w); }
    PostsFrame(s, t);
    forall r | r in t.runs ensures |Buffered(t, r)| <= MAX_BUFFERED { OnlyRunsMoveBuffer(s, t, r); }
  }

  lemma OnlyRunsMoveBuffer(s: State, t: State, r: RunId)
    requires PipelineOk(s) && OnlyRunsMove(s, t) && r in t.runs
    ensures |Buffered(t, r)| <= MAX_BUFFERED
  {
    assert Buffered(t, r) == Buffered(s, r);
    if r !in s.runs {
      assert Buffered(s, r) == {} by {
        forall k | k in s.deliveries ensures k.0 != r { assert DeliveryOk(s, k); }
      }
    }
  }

  predicate IsPlainRunStep(step: Step) {
    step.AddCampaign? || step.ReplaceTargets? || step.DeleteCampaign? || step.Launch?
    || step.ClaimPreparation? || step.StalePreflight? || step.FailPreparation? || step.RecoverPreparation?
    || step.Activate? || step.Finalize? || step.Pause? || step.Suspend? || step.BlockResume?
  }

  /** Moving a run is plain, unless it completes a run with unsettled deliveries. */
  lemma MoveIsPlain(s: State, u: State, r: RunId, status: RunStatus, from: set<CampaignStatus>, to: CampaignStatus)
    requires r in s.runs && OnlyRunsMove(s, u) && r in u.runs
    requires IsDone(status) ==> forall k :: k in s.deliveries && k.0 == r ==> IsSettled(s.deliveries[k].status)
    ensures OnlyRunsMove(s, Moved(u, r, status, from, to)) && OnlyRunsMove(s, Kept(u, r, status))
  {
  }

  lemma PreparationIsPlain(s: State, r: RunId, attempts: nat, next: Instant, lease: Option<Lease>)
    requires r in s.runs
    ensures OnlyRunsMove(s, SetPreparation(s, r, attempts, next, lease))
  {
  }

  lemma LaunchIsPlain(s: State, step: Step, at: Instant)
    requires LifecycleOk(s) && step.Launch? && TakesEffect(s, step, at)
    ensures OnlyRunsMove(s, After(s, step, at))
  {
    forall o | o in s.runs ensures o in s.launched { assert RunOk(s, o); }
  }

  lemma FinalizeIsPlain(s: State, r: RunId, at: Instant)
    requires TakesEffect(s, Finalize(r), at)
    ensures OnlyRunsMove(s, After(s, Finalize(r), at))
  {
    forall k | k in s.deliveries && k.0 == r ensures IsSettled(s.deliveries[k].status) {
      assert k in DeliveriesOf(s, r);
    }
    MoveIsPlain(s, s, r, After(s, Finalize(r), at).runs[r].status, {CampaignStatus.ACTIVE, CampaignStatus.PAUSED}, ARCHIVED);
  }

  lemma PlainRunStepMoves(s: State, step: Step, at: Instant)
    requires LifecycleOk(s) && IsPlainRunStep(step) && TakesEffect(s, step, at)
    ensures OnlyRunsMove(s, After(s, step, at))
  {
    if step.Launch? {
      LaunchIsPlain(s, step, at);
    } else if step.ClaimPreparation? || step.StalePreflight? || step.FailPreparation? || step.RecoverPreparation? {
      PreparationStepIsPlain(s, step, at);
    } else if step.Finalize? {
      FinalizeIsPlain(s, step.r, at);
    } else if step.Activate? || step.BlockResume? || step.Pause? || step.Suspend? {
      StatusStepIsPlain(s, step, at);
    }
  }

  lemma StatusStepIsPlain(s: State, step: Step, at: Instant)
    requires step.Activate? || step.BlockResume? || step.Pause? || step.Suspend?
    requires TakesEffect(s, step, at)
    ensures OnlyRunsMove(s, After(s, step, at))
  {
    match step
    case Activate(r) => MoveIsPlain(s, s, r, RUNNING, {}, ARCHIVED);
    case BlockResume(r) => MoveIsPlain(s, s, r, BLOCKED, {}, ARCHIVED);
    case Pause(r) => MoveIsPlain(s, s, r, RunStatus.PAUSED, {CampaignStatus.ACTIVE}, CampaignStatus.PAUSED);
    case Suspend(r) => MoveIsPlain(s, s, r, RunStatus.PAUSED, {CampaignStatus.ACTIVE}, CampaignStatus.PAUSED);
  }

  lemma PreparationStepIsPlain(s: State, step: Step, at: Instant)
    requires step.ClaimPreparation? || step.StalePreflight? || step.FailPreparation? || step.RecoverPreparation?
    requires TakesEffect(s, step, at)
    ensures OnlyRunsMove(s, After(s, step, at))
  {
    var run := s.runs[step.r];
    match step
    case ClaimPreparation(r, token) =>
      PreparationIsPlain(s, r, run.attempts + 1, run.nextAttemptAt, Some(Lease(token, at + LEASE_MS)));
    case StalePreflight(r, _) => PreparationIsPlain(s, r, if run.attempts > 0 then run.attempts - 1 else 0, at, None);
    case FailPreparation(r, _, retryAt) =>
      PreparationIsPlain(s, r, run.attempts, retryAt, None);
      FailedPreparationIsPlain(s, r, run.nextAttemptAt);
    case RecoverPreparation(r) => FailedPreparationIsPlain(s, r, at);
  }

  lemma FailedPreparationIsPlain(s: State, r: RunId, next: Instant)
    requires r in s.runs
    ensures var u := SetPreparation(s, r, s.runs[r].attempts, next, None);
            OnlyRunsMove(s, u) && OnlyRunsMove(s, Archived(u, r, RunStatus.FAILED))
  {
    var u := SetPreparation(s, r, s.runs[r].attempts, next, None);
    PreparationIsPlain(s, r, s.runs[r].attempts, next, None);
    MoveIsPlain(s, u, r, RunStatus.FAILED, {CampaignStatus.ACTIVE, CampaignStatus.PAUSED}, ARCHIVED);
  }

  // ---------------------------------------------------------------------------------------------
  // Deliveries are inserted

  lemma AddDeliveriesKeeps(s: State, r: RunId)
    requires PipelineOk(s) && r in s.runs && !IsDone(s.runs[r].status)
    ensures PipelineOk(WithDeliveries(s, r))
  {
    var t := WithDeliveries(s, r);
    forall k | k in t.deliveries ensures DeliveryOk(t, k) { AddedDeliveryOk(s, r, k); }
    forall k | k in t.jobs ensures JobOk(t, k) { assert JobOk(s, k); }
    forall w | w in t.workers ensures WorkerOk(t, w) { assert WorkerOk(s, w); }
    PostsFrame(s, t);
    forall o | o in t.runs ensures |Buffered(t, o)| <= MAX_BUFFERED { assert Buffered(t, o) == Buffered(s, o); }
  }

  lemma AddedDeliveryOk(s: State, r: RunId, k: Key)
    requires PipelineOk(s) && r in s.runs && !IsDone(s.runs[r].status) && k in WithDeliveries(s, r).deliveries
    ensures DeliveryOk(WithDeliveries(s, r), k)
  {
    if k in s.deliveries { assert DeliveryOk(s, k); }
  }

  // ---------------------------------------------------------------------------------------------
  // One job changes

  /** Job `k` changes without being revived, and the rest stays. */
  predicate JobAdvances(s: State, t: State, k: Key) {
    && t == s.(jobs := t.jobs) && t.jobs.Keys == s.jobs.Keys && k in s.jobs
    && (forall o :: o in s.jobs && o != k ==> t.jobs[o] == s.jobs[o])
    && t.jobs[k].dryRun == s.jobs[k].dryRun && (t.jobs[k].messageId ==> !IsActiveJob(t.jobs[k].status))
    && (IsActiveJob(t.jobs[k].status) ==> IsActiveJob(s.jobs[k].status))
    && (t.jobs[k].status.SCHEDULED? || t.jobs[k].status.QUEUED? ==> s.jobs[k].status.SCHEDULED? || s.jobs[k].status.QUEUED?)
  }

  lemma JobAdvanceKeeps(s: State, t: State, k: Key)
    requires PipelineOk(s) && JobAdvances(s, t, k)
    ensures PipelineOk(t)
  {
    forall o | o in t.deliveries ensures DeliveryOk(t, o) { assert DeliveryOk(s, o); }
    forall o | o in t.jobs ensures JobOk(t, o) { assert JobOk(s, o); }
    forall w | w in t.workers ensures WorkerOk(t, w) { assert WorkerOk(s, w); }
    PostsFrame(s, t);
    forall o | o in t.runs ensures |Buffered(t, o)| <= MAX_BUFFERED {
      assert Buffered(t, o) <= Buffered(s, o);
      SubsetCardinality(Buffered(t, o), Buffered(s, o));
    }
  }

  /** A job may change this way. */
  predicate MayBecome(a: Job, b: Job) {
    && b.dryRun == a.dryRun && (b.messageId ==> !IsActiveJob(b.status)) && (IsActiveJob(b.status) ==> IsActiveJob(a.status))
    && (b.status.SCHEDULED? || b.status.QUEUED? ==> a.status.SCHEDULED? || a.status.QUEUED?)
  }

  lemma JobChangeKeeps(s: State, k: Key, job: Job)
    requires PipelineOk(s) && k in s.jobs && MayBecome(s.jobs[k], job)
    ensures PipelineOk(s.(jobs := s.jobs[k := job]))
  {
    JobAdvanceKeeps(s, s.(jobs := s.jobs[k := job]), k);
  }

  lemma JobStepKeeps(s: State, step: Step, at: Instant)
    requires PipelineOk(s) && TakesEffect(s, step, at) && (step.ClaimDue? || step.ResetQueued? || step.Expire? || step.Webhook?)
    ensures PipelineOk(After(s, step, at))
  {
    var job := s.jobs[step.k];
    assert JobOk(s, step.k);
    match step
    case ClaimDue(k) => JobChangeKeeps(s, k, job.(status := JobStatus.QUEUED));
    case ResetQueued(k) => JobChangeKeeps(s, k, job.(status := JobStatus.SCHEDULED));
    case Expire(k) => JobChangeKeeps(s, k, job.(status := JobStatus.UNKNOWN, leaseExpiresAt := None));
    case Webhook(k, status) => JobChangeKeeps(s, k, job.(status := status));
  }

  // ---------------------------------------------------------------------------------------------
  // Workers

  /** Worker `w` moves on without changing its job. */
  predicate WorkerAdvances(s: State, t: State, w: WorkerId) {
    && t == s.(workers := t.workers) && w in s.workers && t.workers.Keys == s.workers.Keys
    && (forall x :: x in s.workers && x != w ==> t.workers[x] == s.workers[x])
    && t.workers[w].job == s.workers[w].job && (s.workers[w].posted ==> t.workers[w].posted)
  }

  lemma WorkerAdvanceKeeps(s: State, t: State, w: WorkerId)
    requires PipelineOk(s) && WorkerAdvances(s, t, w) && WorkerOk(t, w)
    ensures PipelineOk(t)
  {
    forall o | o in t.deliveries ensures DeliveryOk(t, o) { assert DeliveryOk(s, o); }
    forall o | o in t.jobs ensures JobOk(t, o) { assert JobOk(s, o); }
    forall x | x in t.workers ensures WorkerOk(t, x) { if x != w { assert WorkerOk(s, x); } }
    forall y, x | y in t.workers && x in t.workers ensures OneWorker(t, y, x) { assert OneWorker(s, y, x); }
    forall i | 0 <= i < |t.posts| ensures PostOk(t, t.posts[i]) { assert PostOk(s, s.posts[i]); }
    forall o | o in t.runs ensures |Buffered(t, o)| <= MAX_BUFFERED { assert Buffered(t, o) == Buffered(s, o); }
  }

  lemma CheckKeeps(s: State, w: WorkerId, last: bool, at: Instant)
    requires PipelineOk(s) && w in s.workers && s.workers[w].phase.Started? && !s.workers[w].dryRun
    requires s.workers[w].job in s.jobs && s.jobs[s.workers[w].job].status.PROCESSING?
    ensures PipelineOk(Checked(s, w, last, at))
  {
    var k := s.workers[w].job;
    assert WorkerOk(s, w) && JobOk(s, k);
    var job := s.jobs[k].(leaseExpiresAt := Some(at + LEASE_MS));
    JobChangeKeeps(s, k, job);
    if last { PhaseKeeps(s.(jobs := s.jobs[k := job]), w, s.workers[w].(phase := Verified)); }
  }

  lemma PhaseKeeps(s: State, w: WorkerId, x: Worker)
    requires PipelineOk(s) && w in s.workers && x.job == s.workers[w].job && (s.workers[w].posted ==> x.posted)
    requires WorkerOk(s.(workers := s.workers[w := x]), w)
    ensures PipelineOk(s.(workers := s.workers[w := x]))
  {
    WorkerAdvanceKeeps(s, s.(workers := s.workers[w := x]), w);
  }

  lemma RecordKeeps(s: State, w: WorkerId, result: JobStatus)
    requires PipelineOk(s) && w in s.workers && MayRecord(s.workers[w], result)
    ensures PipelineOk(Recorded(s, w, result))
  {
    var k := s.workers[w].job;
    assert WorkerOk(s, w);
    if k in s.jobs && s.jobs[k].status.PROCESSING? {
      var job := s.jobs[k].(status := result, leaseExpiresAt := None, messageId := s.jobs[k].messageId || result.ACCEPTED?);
      JobChangeKeeps(s, k, job);
      PhaseKeeps(s.(jobs := s.jobs[k := job]), w, s.workers[w].(phase := Left));
    } else {
      PhaseKeeps(s, w, s.workers[w].(phase := Left));
    }
  }

  /** A queued job has no worker: it was never processed. */
  lemma TakeUpKeeps(s: State, k: Key, w: WorkerId, at: Instant)
    requires PipelineOk(s) && k in s.jobs && s.jobs[k].status.QUEUED? && w !in s.workers
    ensures PipelineOk(TakenUp(s, k, w, at))
  {
    assert JobOk(s, k);
    var job := s.jobs[k].(status := JobStatus.PROCESSING, attempts := s.jobs[k].attempts + 1, leaseExpiresAt := Some(at + LEASE_MS));
    JobChangeKeeps(s, k, job);
    forall x | x in s.workers ensures s.workers[x].job != k { assert WorkerOk(s, x); }
    NewWorkerKeeps(s.(jobs := s.jobs[k := job]), TakenUp(s, k, w, at), k, w);
  }

  lemma NewWorkerKeeps(s: State, t: State, k: Key, w: WorkerId)
    requires PipelineOk(s) && k in s.jobs && s.jobs[k].status.PROCESSING? && w !in s.workers
    requires forall x :: x in s.workers ==> s.workers[x].job != k
    requires t == s.(workers := s.workers[w := Worker(k, s.jobs[k].dryRun, Started, false)])
    ensures PipelineOk(t)
  {
    assert JobOk(s, k);
    forall o | o in t.deliveries ensures DeliveryOk(t, o) { assert DeliveryOk(s, o); }
    forall o | o in t.jobs ensures JobOk(t, o) { assert JobOk(s, o); }
    forall x | x in t.workers ensures WorkerOk(t, x) { if x != w { assert WorkerOk(s, x); } }
    forall y, x | y in t.workers && x in t.workers ensures OneWorker(t, y, x) {
      if y != w && x != w { assert OneWorker(s, y, x); }
    }
    forall i | 0 <= i < |t.posts| ensures PostOk(t, t.posts[i]) { assert PostOk(s, s.posts[i]); }
    forall o | o in t.runs ensures |Buffered(t, o)| <= MAX_BUFFERED { assert Buffered(t, o) == Buffered(s, o); }
  }

  lemma PostKeeps(s: State, w: WorkerId)
    requires PipelineOk(s) && w in s.workers && s.workers[w].phase.Verified?
    ensures PipelineOk(PostMade(s, w))
  {
    assert WorkerOk(s, w);
    var x := s.workers[w].(phase := Posted, posted := true);
    PhaseKeeps(s, w, x);
    forall i | 0 <= i < |s.posts| ensures s.posts[i].worker != w { assert PostOk(s, s.posts[i]); }
    LoggedPostKeeps(s.(workers := s.workers[w := x]), PostMade(s, w), w);
  }

  lemma LoggedPostKeeps(s: State, t: State, w: WorkerId)
    requires PipelineOk(s) && w in s.workers && s.workers[w].posted
    requires forall i :: 0 <= i < |s.posts| ==> s.posts[i].worker != w
    requires t == s.(posts := s.posts + [Post(w, s.workers[w].job.0, s.workers[w].job.1)])
    ensures PipelineOk(t)
  {
    forall o | o in t.deliveries ensures DeliveryOk(t, o) { assert DeliveryOk(s, o); }
    forall o | o in t.jobs ensures JobOk(t, o) { assert JobOk(s, o); }
    forall x | x in t.workers ensures WorkerOk(t, x) { assert WorkerOk(s, x); }
    forall y, x | y in t.workers && x in t.workers ensures OneWorker(t, y, x) { assert OneWorker(s, y, x); }
    forall i | 0 <= i < |t.posts| ensures PostOk(t, t.posts[i]) { if i < |s.posts| { assert PostOk(s, s.posts[i]); } }
    forall o | o in t.runs ensures |Buffered(t, o)| <= MAX_BUFFERED { assert Buffered(t, o) == Buffered(s, o); }
  }

  // ---------------------------------------------------------------------------------------------
  // Deliveries change

  lemma ShowKeeps(s: State, k: Key)
    requires PipelineOk(s) && k in s.deliveries && s.deliveries[k].hasJob && k in s.jobs
    ensures PipelineOk(Shown(s, k))
  {
    assert DeliveryOk(s, k);
    DeliveryChangeKeeps(s, k, s.deliveries[k].(status := Shows(s.jobs[k].status)));
  }

  /** A pending delivery has no job in its scope, so materializing it creates one. */
  lemma PendingHasNoJob(s: State, k: Key)
    requires PipelineOk(s) && k in s.deliveries && s.deliveries[k].status.PENDING?
    ensures k !in s.jobs && forall w :: w in s.workers ==> s.workers[w].job != k
  {
    assert DeliveryOk(s, k);
    assert k in s.jobs ==> JobOk(s, k);
    forall w | w in s.workers ensures s.workers[w].job != k { assert WorkerOk(s, w); }
  }

  lemma MaterializeKeeps(s: State, k: Key, changed: bool)
    requires PipelineOk(s) && k in s.deliveries && s.deliveries[k].status.PENDING?
    requires k.0 in s.runs && RunOk(s, k.0) && s.runs[k.0].status.RUNNING? && |Buffered(s, k.0)| < MAX_BUFFERED
    ensures PipelineOk(Materialized(s, k, changed))
  {
    PendingHasNoJob(s, k);
    if s.runs[k.0].mode.LIVE? && changed { BlockKeeps(s, k); } else { CreateJobKeeps(s, k); }
  }

  lemma BlockKeeps(s: State, k: Key)
    requires PipelineOk(s) && k in s.deliveries && s.deliveries[k].status.PENDING?
    ensures PipelineOk(s.(deliveries := s.deliveries[k := s.deliveries[k].(status := BLOCKED_CAPABILITY_CHANGED)]))
  {
    var d := s.deliveries[k].(status := BLOCKED_CAPABILITY_CHANGED);
    assert DeliveryOk(s, k);
    DeliveryChangeKeeps(s, k, d);
  }

  /** A delivery changes status, and keeps its job if it has one. */
  lemma DeliveryChangeKeeps(s: State, k: Key, d: Delivery)
    requires PipelineOk(s) && k in s.deliveries && d.hasJob == s.deliveries[k].hasJob
    requires DeliveryOk(s.(deliveries := s.deliveries[k := d]), k)
    ensures PipelineOk(s.(deliveries := s.deliveries[k := d]))
  {
    var t := s.(deliveries := s.deliveries[k := d]);
    DeliveryChangeRows(s, t, k);
    PostsFrame(s, t);
    forall o | o in t.runs ensures |Buffered(t, o)| <= MAX_BUFFERED { assert Buffered(t, o) == Buffered(s, o); }
  }

  lemma DeliveryChangeRows(s: State, t: State, k: Key)
    requires RowsOk(s) && k in s.deliveries && k in t.deliveries && t == s.(deliveries := s.deliveries[k := t.deliveries[k]])
    requires t.deliveries[k].hasJob == s.deliveries[k].hasJob && DeliveryOk(t, k)
    ensures RowsOk(t)
  {
    forall o | o in t.deliveries ensures DeliveryOk(t, o) { if o != k { assert DeliveryOk(s, o); } }
    forall o | o in t.jobs ensures JobOk(t, o) { assert JobOk(s, o); }
    forall x | x in t.workers ensures WorkerOk(t, x) { assert WorkerOk(s, x); }
  }

  /** Delivery `k` gets a new job. */
  function WithJob(s: State, k: Key): State
    requires k.0 in s.runs
  {
    s.(deliveries := s.deliveries[k := Delivery(MATERIALIZED, true)],
       jobs := s.jobs[k := Job(JobStatus.SCHEDULED, s.runs[k.0].mode.DRY_RUN?, 0, None, false)])
  }

  lemma CreateJobKeeps(s: State, k: Key)
    requires PipelineOk(s) && k in s.deliveries && k !in s.jobs
    requires k.0 in s.runs && RunOk(s, k.0) && !IsDone(s.runs[k.0].status) && |Buffered(s, k.0)| < MAX_BUFFERED
    requires forall w :: w in s.workers ==> s.workers[w].job != k
    ensures PipelineOk(WithJob(s, k))
  {
    CreatedJobRows(s, k);
    CreatedJobWorkers(s, k);
    PostsFrame(s, WithJob(s, k));
    CreatedBuffers(s, k);
  }

  lemma CreatedJobRows(s: State, k: Key)
    requires RowsOk(s) && k in s.deliveries && k !in s.jobs && k.0 in s.runs && RunOk(s, k.0) && !IsDone(s.runs[k.0].status)
    ensures forall o :: o in WithJob(s, k).deliveries ==> DeliveryOk(WithJob(s, k), o)
    ensures forall o :: o in WithJob(s, k).jobs ==> JobOk(WithJob(s, k), o)
  {
    var t := WithJob(s, k);
    forall o | o in t.deliveries ensures DeliveryOk(t, o) { assert DeliveryOk(s, o); }
    forall o | o in t.jobs ensures JobOk(t, o) { if o != k { assert JobOk(s, o); } }
  }

  lemma CreatedJobWorkers(s: State, k: Key)
    requires RowsOk(s) && k.0 in s.runs && forall w :: w in s.workers ==> s.workers[w].job != k
    ensures forall x :: x in WithJob(s, k).workers ==> WorkerOk(WithJob(s, k), x)
  {
    var t := WithJob(s, k);
    forall x | x in t.workers ensures WorkerOk(t, x) { assert WorkerOk(s, x); }
  }

  lemma CreatedBuffers(s: State, k: Key)
    requires BuffersOk(s) && k.0 in s.runs && |Buffered(s, k.0)| < MAX_BUFFERED
    ensures BuffersOk(WithJob(s, k))
  {
    var t := WithJob(s, k);
    forall o | o in t.runs ensures |Buffered(t, o)| <= MAX_BUFFERED { CreatedJobBuffer(s, t, k, o); }
  }

  lemma CreatedJobBuffer(s: State, t: State, k: Key, r: RunId)
    requires |Buffered(s, r)| <= MAX_BUFFERED && (k.0 == r ==> |Buffered(s, r)| < MAX_BUFFERED)
    requires forall o :: o in t.deliveries && o != k ==> o in s.deliveries && t.deliveries[o] == s.deliveries[o]
    requires forall o :: o in t.jobs && o != k ==> o in s.jobs && t.jobs[o] == s.jobs[o]
    ensures |Buffered(t, r)| <= MAX_BUFFERED
  {
    if k.0 == r {
      assert Buffered(t, r) <= Buffered(s, r) + {k};
      SubsetCardinality(Buffered(t, r), Buffered(s, r) + {k});
    } else {
      assert Buffered(t, r) <= Buffered(s, r);
      SubsetCardinality(Buffered(t, r), Buffered(s, r));
    }
  }

  lemma CancelledRowsKeep(s: State, r: RunId)
    requires PipelineOk(s) && r in s.runs && !IsDone(s.runs[r].status)
    ensures var jobs := CancelledJobs(s, r); PipelineOk(s.(jobs := jobs, deliveries := CancelledDeliveries(s, jobs, r)))
  {
    var jobs := CancelledJobs(s, r);
    var t := s.(jobs := jobs, deliveries := CancelledDeliveries(s, jobs, r));
    CancelledRowsOk(s, r);
    PostsFrame(s, t);
    forall o | o in t.runs ensures |Buffered(t, o)| <= MAX_BUFFERED {
      assert Buffered(t, o) <= Buffered(s, o);
      SubsetCardinality(Buffered(t, o), Buffered(s, o));
    }
  }

  lemma CancelledRowsOk(s: State, r: RunId)
    requires RowsOk(s) && r in s.runs && !IsDone(s.runs[r].status)
    ensures var jobs := CancelledJobs(s, r); RowsOk(s.(jobs := jobs, deliveries := CancelledDeliveries(s, jobs, r)))
  {
    var jobs := CancelledJobs(s, r);
    var t := s.(jobs := jobs, deliveries := CancelledDeliveries(s, jobs, r));
    forall o | o in t.deliveries ensures DeliveryOk(t, o) { assert DeliveryOk(s, o); }
    forall o | o in t.jobs ensures JobOk(t, o) { assert JobOk(s, o); }
    forall x | x in t.workers ensures WorkerOk(t, x) { assert WorkerOk(s, x); }
  }

  lemma CancelKeeps(s: State, r: RunId)
    requires PipelineOk(s) && r in s.runs && !IsTerminal(s.runs[r].status)
    ensures PipelineOk(Cancelled(s, r))
  {
    AddDeliveriesKeeps(s, r);
    var u := WithDeliveries(s, r);
    CancelledRowsKeep(u, r);
    var jobs := CancelledJobs(u, r);
    MovedKeeps(u.(jobs := jobs, deliveries := CancelledDeliveries(u, jobs, r)), r, RunStatus.CANCELLED,
               {CampaignStatus.ACTIVE, CampaignStatus.PAUSED}, ARCHIVED);
  }

  lemma MovedKeeps(s: State, r: RunId, status: RunStatus, from: set<CampaignStatus>, to: CampaignStatus)
    requires PipelineOk(s) && r in s.runs && !IsDone(status)
    ensures PipelineOk(Moved(s, r, status, from, to))
  {
    MoveIsPlain(s, s, r, status, from, to);
    OnlyRunsMoveKeeps(s, Moved(s, r, status, from, to));
  }

  lemma PreflightKeeps(s: State, r: RunId, token: nat, blocked: bool, at: Instant)
    requires PipelineOk(s) && TakesEffect(s, ApplyPreflight(r, token, blocked), at)
    ensures PipelineOk(After(s, ApplyPreflight(r, token, blocked), at))
  {
    var u := SetPreparation(s, r, s.runs[r].attempts, s.runs[r].nextAttemptAt, None);
    PreparationIsPlain(s, r, s.runs[r].attempts, s.runs[r].nextAttemptAt, None);
    OnlyRunsMoveKeeps(s, u);
    if blocked {
      KeptKeeps(u, r, BLOCKED);
    } else {
      AddDeliveriesKeeps(u, r);
      KeptKeeps(WithDeliveries(u, r), r, StartStatus(s.runs[r], at));
    }
  }

  lemma KeptKeeps(s: State, r: RunId, status: RunStatus)
    requires PipelineOk(s) && r in s.runs && !IsDone(status)
    ensures PipelineOk(Kept(s, r, status))
  {
    MoveIsPlain(s, s, r, status, {}, ARCHIVED);
    OnlyRunsMoveKeeps(s, Kept(s, r, status));
  }

  lemma ResumeKeeps(s: State, r: RunId, at: Instant)
    requires PipelineOk(s) && TakesEffect(s, Resume(r), at)
    ensures PipelineOk(After(s, Resume(r), at))
  {
    AddDeliveriesKeeps(s, r);
    MovedKeeps(WithDeliveries(s, r), r, StartStatus(s.runs[r], at), {CampaignStatus.PAUSED}, CampaignStatus.ACTIVE);
  }

  // ---------------------------------------------------------------------------------------------
  // Retention

  lemma RetireRunKeeps(s: State, r: RunId)
    requires PipelineOk(s) && r in s.runs
    ensures PipelineOk(WithoutRun(s, r))
  {
    var t := WithoutRun(s, r);
    forall o | o in t.deliveries ensures DeliveryOk(t, o) { assert DeliveryOk(s, o) && o !in DeliveriesOf(s, r); }
    forall o | o in t.jobs ensures JobOk(t, o) { assert JobOk(s, o); }
    forall x | x in t.workers ensures WorkerOk(t, x) { assert WorkerOk(s, x); }
    PostsFrame(s, t);
    forall o | o in t.runs ensures |Buffered(t, o)| <= MAX_BUFFERED {
      assert Buffered(t, o) <= Buffered(s, o);
      SubsetCardinality(Buffered(t, o), Buffered(s, o));
    }
  }

  lemma RetireJobKeeps(s: State, k: Key)
    requires PipelineOk(s) && k in s.jobs && !(k in s.deliveries && s.deliveries[k].hasJob)
    ensures PipelineOk(s.(jobs := s.jobs - {k}))
  {
    var t := s.(jobs := s.jobs - {k});
    forall o | o in t.deliveries ensures DeliveryOk(t, o) { assert DeliveryOk(s, o); }
    forall o | o in t.jobs ensures JobOk(t, o) { assert JobOk(s, o); }
    forall x | x in t.workers ensures WorkerOk(t, x) { assert WorkerOk(s, x); }
    PostsFrame(s, t);
    forall o | o in t.runs ensures |Buffered(t, o)| <= MAX_BUFFERED {
      assert Buffered(t, o) <= Buffered(s, o);
      SubsetCardinality(Buffered(t, o), Buffered(s, o));
    }
  }

  // ---------------------------------------------------------------------------------------------
  // Every reachable state

  ghost predicate Inv(s: State) {
    LifecycleOk(s) && PipelineOk(s)
  }

  predicate IsJobStep(step: Step) {
    step.ClaimDue? || step.ResetQueued? || step.Expire? || step.Webhook?
  }

  predicate IsWorkerStep(step: Step) {
    step.MarkProcessing? || step.Verify? || step.SendPost? || step.Settle?
  }

  lemma PipelineKeeps(s: State, step: Step, at: Instant)
    requires Inv(s) && TakesEffect(s, step, at)
    ensures PipelineOk(After(s, step, at))
  {
    if IsPlainRunStep(step) {
      PlainRunStepMoves(s, step, at);
      OnlyRunsMoveKeeps(s, After(s, step, at));
    } else if IsJobStep(step) {
      JobStepKeeps(s, step, at);
    } else if step.Materialize? {
      assert RunOk(s, step.r);
      MaterializeKeeps(s, (step.r, step.g), step.changed);
    } else if step.Reconcile? {
      ShowKeeps(s, step.k);
    } else if IsWorkerStep(step) {
      WorkerStepKeeps(s, step, at);
    } else {
      LastStepKeeps(s, step, at);
    }
  }

  lemma LastStepKeeps(s: State, step: Step, at: Instant)
    requires PipelineOk(s) && TakesEffect(s, step, at)
    requires step.ApplyPreflight? || step.Resume? || step.Cancel? || step.RetireRun? || step.RetireJob?
    ensures PipelineOk(After(s, step, at))
  {
    match step
    case ApplyPreflight(r, token, blocked) => PreflightKeeps(s, r, token, blocked, at);
    case Resume(r) => ResumeKeeps(s, r, at);
    case Cancel(r) => CancelKeeps(s, r);
    case RetireRun(r) => RetireRunKeeps(s, r);
    case RetireJob(k) => RetireJobKeeps(s, k);
  }

  lemma WorkerStepKeeps(s: State, step: Step, at: Instant)
    requires PipelineOk(s) && TakesEffect(s, step, at) && IsWorkerStep(step)
    ensures PipelineOk(After(s, step, at))
  {
    match step
    case MarkProcessing(k, w) => TakeUpKeeps(s, k, w, at);
    case Verify(w, last) => CheckKeeps(s, w, last, at);
    case SendPost(w) => PostKeeps(s, w);
    case Settle(w, result) => RecordKeeps(s, w, result);
  }

  /** The state after a list of transactions, each at its instant. */
  function Reached(steps: seq<(Step, Instant)>): State {
    if steps == [] then INITIAL
    else After(Reached(steps[..|steps| - 1]), steps[|steps| - 1].0, steps[|steps| - 1].1)
  }

  lemma {:induction false} RunKeepsInv(steps: seq<(Step, Instant)>)
    ensures Inv(Reached(steps))
  {
    if steps != [] {
      var s := Reached(steps[..|steps| - 1]);
      RunKeepsInv(steps[..|steps| - 1]);
      LifecycleKeeps(s, steps[|steps| - 1].0, steps[|steps| - 1].1);
      if TakesEffect(s, steps[|steps| - 1].0, steps[|steps| - 1].1) {
        PipelineKeeps(s, steps[|steps| - 1].0, steps[|steps| - 1].1);
      }
    }
  }

  // ---------------------------------------------------------------------------------------------
  // Results

  /** A group receives at most one POST per campaign, through pause, resume, cancellation, crashes, expiry,
      requeueing, duplicate queue deliveries and retention. */
  lemma AtMostOnePost(steps: seq<(Step, Instant)>, i: nat, j: nat)
    requires i < |Reached(steps).posts| && j < |Reached(steps).posts|
    ensures var s := Reached(steps);
            var p, q := s.posts[i], s.posts[j];
      && p.run in s.launched && q.run in s.launched
      && (p.group == q.group && s.launched[p.run].campaign == s.launched[q.run].campaign ==> i == j)
  {
    var s := Reached(steps);
    NoDryRunPosts(steps, i);
    NoDryRunPosts(steps, j);
    RunKeepsInv(steps);
    var p, q := s.posts[i], s.posts[j];
    if p.group == q.group && s.launched[p.run].campaign == s.launched[q.run].campaign {
      var c := s.launched[p.run].campaign;
      assert IsLiveRunOf(s, p.run, c) && IsLiveRunOf(s, q.run, c);
      assert PostOk(s, p) && PostOk(s, q);
      assert OneWorker(s, p.worker, q.worker);
    }
  }

  /** Every POST belongs to a launched live run. */
  lemma NoDryRunPosts(steps: seq<(Step, Instant)>, i: nat)
    requires i < |Reached(steps).posts|
    ensures Reached(steps).posts[i].run in Reached(steps).launched && Reached(steps).launched[Reached(steps).posts[i].run].mode.LIVE?
  {
    RunKeepsInv(steps);
    assert PostOk(Reached(steps), Reached(steps).posts[i]);
    assert WorkerOk(Reached(steps), Reached(steps).posts[i].worker);
  }

  /** In every reachable state a campaign's status corresponds to its one live run. */
  lemma StatusFollowsLiveRun(steps: seq<(Step, Instant)>, r: RunId)
    requires r in Reached(steps).runs && Reached(steps).runs[r].mode.LIVE?
    ensures var s := Reached(steps);
      && s.runs[r].campaign in s.campaigns && Matches(s.runs[r].status, s.campaigns[s.runs[r].campaign].status)
      && forall o :: o in s.runs && s.runs[o].mode.LIVE? && s.runs[o].campaign == s.runs[r].campaign ==> o == r
  {
    RunKeepsInv(steps);
    var s := Reached(steps);
    assert RunOk(s, r) && LaunchOk(s, r);
    forall o | o in s.runs && s.runs[o].mode.LIVE? && s.runs[o].campaign == s.runs[r].campaign ensures o == r {
      assert RunOk(s, o);
      assert IsLiveRunOf(s, o, s.runs[r].campaign) && IsLiveRunOf(s, r, s.runs[r].campaign);
    }
  }

  /** Active and paused campaigns have their live run, drafts never had one. */
  lemma LiveRunExists(steps: seq<(Step, Instant)>, c: CampaignId)
    requires c in Reached(steps).campaigns
    ensures var s := Reached(steps);
      && (s.campaigns[c].status.DRAFT? <==> !exists r :: IsLiveRunOf(s, r, c))
      && (s.campaigns[c].status.ACTIVE? || s.campaigns[c].status.PAUSED? ==> exists r :: r in s.runs && IsLiveRunOf(s, r, c))
  {
    RunKeepsInv(steps);
    var s := Reached(steps);
    if s.campaigns[c].status.DRAFT? {
      NoLiveRunWhileDraft(s, c);
    } else {
      var r :| IsLiveRunOf(s, r, c);
      assert LaunchOk(s, r);
    }
  }

  /** A pending delivery has no job, a settled one no active job, a run at most five active jobs, and every
      delivery of a completed run stays settled. */
  lemma DeliveriesAndJobsCohere(steps: seq<(Step, Instant)>, k: Key)
    requires k in Reached(steps).deliveries
    ensures var s := Reached(steps);
      && k.0 in s.runs
      && |set o | o in s.jobs && o in s.deliveries && o.0 == k.0 && s.deliveries[o].hasJob
                  && s.jobs[o].status in {JobStatus.SCHEDULED, QUEUED, PROCESSING}| <= 5
      && (s.deliveries[k].status.PENDING? ==> k !in s.jobs)
      && (IsSettled(s.deliveries[k].status) && s.deliveries[k].hasJob ==> k in s.jobs && !IsActiveJob(s.jobs[k].status))
      && (IsDone(s.runs[k.0].status) ==> IsSettled(s.deliveries[k].status))
  {
    RunKeepsInv(steps);
    assert DeliveryOk(Reached(steps), k);
    assert Buffered(Reached(steps), k.0)
           == set o | o in Reached(steps).jobs && o in Reached(steps).deliveries && o.0 == k.0 && Reached(steps).deliveries[o].hasJob
                      && Reached(steps).jobs[o].status in {JobStatus.SCHEDULED, QUEUED, PROCESSING};
    if Reached(steps).deliveries[k].status.PENDING? { PendingHasNoJob(Reached(steps), k); }
  }
}
