/** Campaigns, their runs, the deliveries of a run, the message jobs that carry them out and the workers that
    POST. Each transaction is one step; bulk updates are taken row by row. Times are in milliseconds. */
module Campaigns {
  import opened Options

  type Instant = nat
  type CampaignId = nat
  type RunId = nat
  type Group = nat
  type WorkerId = nat

  /** A job's idempotency scope names its run and its key names the group. */
  type Key = (RunId, Group)

  datatype Mode = LIVE | DRY_RUN
  datatype CampaignStatus = DRAFT | ACTIVE | PAUSED | ARCHIVED
  datatype RunStatus = PREPARING | BLOCKED | SCHEDULED | RUNNING | PAUSED | COMPLETED | PARTIAL_FAILED | CANCELLED | FAILED
  datatype JobStatus = SCHEDULED | QUEUED | PROCESSING | DRY_RUN_COMPLETED | ACCEPTED | SENT | DELIVERED | READ | FAILED | UNKNOWN | CANCELLED

  /** A delivery waits, is blocked, or shows its job's status; a cancelled one may have had no job. */
  datatype DeliveryStatus = PENDING | MATERIALIZED | BLOCKED_CAPABILITY_CHANGED | Shows(job: JobStatus)

  datatype Lease = Lease(token: nat, expiresAt: Instant)
  datatype Campaign = Campaign(status: CampaignStatus, deleted: bool, targets: set<Group>, revision: nat, targetsRevision: nat,
                               scheduledAt: Option<Instant>)
  datatype Run = Run(campaign: CampaignId, mode: Mode, status: RunStatus, targets: set<Group>, key: nat, scheduledAt: Instant,
                     attempts: nat, nextAttemptAt: Instant, lease: Option<Lease>)
  datatype Delivery = Delivery(status: DeliveryStatus, hasJob: bool)
  datatype Job = Job(status: JobStatus, dryRun: bool, attempts: nat, leaseExpiresAt: Option<Instant>, messageId: bool)

  /** One `process` call that got past `markProcessing`. */
  datatype Phase = Started | Verified | Posted | Left
  datatype Worker = Worker(job: Key, dryRun: bool, phase: Phase, posted: bool)
  datatype Post = Post(worker: WorkerId, run: RunId, group: Group)

  /** `launched` remembers every run there ever was, `posts` every POST. */
  datatype Launched = Launched(campaign: CampaignId, mode: Mode, targets: set<Group>)
  datatype State = State(campaigns: map<CampaignId, Campaign>, runs: map<RunId, Run>, deliveries: map<Key, Delivery>,
                         jobs: map<Key, Job>, workers: map<WorkerId, Worker>, launched: map<RunId, Launched>, posts: seq<Post>)

  const INITIAL := State(map[], map[], map[], map[], map[], map[], [])
  const PREPARATION_ATTEMPTS := 3
  const MAX_BUFFERED := 5
  const LEASE_MS := 120000

  predicate IsTerminal(st: RunStatus) { st.COMPLETED? || st.PARTIAL_FAILED? || st.CANCELLED? || st.FAILED? }
  predicate IsActiveJob(st: JobStatus) { st.SCHEDULED? || st.QUEUED? || st.PROCESSING? }
  predicate IsSettled(st: DeliveryStatus) { st.BLOCKED_CAPABILITY_CHANGED? || (st.Shows? && !IsActiveJob(st.job)) }

  /** What counts as a failure when a run is finalized. */
  predicate IsFailure(st: DeliveryStatus) {
    st.BLOCKED_CAPABILITY_CHANGED? || (st.Shows? && (st.job.FAILED? || st.job.UNKNOWN? || st.job.CANCELLED?))
  }

  function DeliveriesOf(s: State, r: RunId): set<Key> {
    set k | k in s.deliveries && k.0 == r
  }

  /** The run's jobs that are scheduled, queued or processing. */
  function Buffered(s: State, r: RunId): set<Key> {
    set k | k in s.deliveries && k.0 == r && s.deliveries[k].hasJob && k in s.jobs && IsActiveJob(s.jobs[k].status)
  }

  function Rank(st: JobStatus): nat {
    match st
    case ACCEPTED => 10
    case SENT => 20
    case DELIVERED => 30
    case READ => 40
    case _ => 0
  }

  // ---------------------------------------------------------------------------------------------
  // Transactions

  datatype Step =
    | AddCampaign(c: CampaignId, targets: set<Group>, scheduledAt: Option<Instant>)
    | ReplaceTargets(c: CampaignId, targets: set<Group>)
    | DeleteCampaign(c: CampaignId)
    | Launch(c: CampaignId, r: RunId, mode: Mode, key: nat)
    | ClaimPreparation(r: RunId, token: nat)
    | StalePreflight(r: RunId, token: nat)
    | ApplyPreflight(r: RunId, token: nat, blocked: bool)
    | FailPreparation(r: RunId, token: nat, retryAt: Instant)
    | RecoverPreparation(r: RunId)
    | Activate(r: RunId)
    | Finalize(r: RunId)
    | Pause(r: RunId)
    | Suspend(r: RunId)
    | BlockResume(r: RunId)
    | Resume(r: RunId)
    | Cancel(r: RunId)
    | Materialize(r: RunId, g: Group, changed: bool)
    | Reconcile(k: Key)
    | ClaimDue(k: Key)
    | ResetQueued(k: Key)
    | MarkProcessing(k: Key, w: WorkerId)
    | Verify(w: WorkerId, last: bool)
    | SendPost(w: WorkerId)
    | Settle(w: WorkerId, result: JobStatus)
    | Expire(k: Key)
    | Webhook(k: Key, status: JobStatus)
    | RetireRun(r: RunId)
    | RetireJob(k: Key)

  predicate OwnsPreparation(s: State, r: RunId, token: nat, at: Instant) {
    r in s.runs && s.runs[r].status.PREPARING? && s.runs[r].lease.Some?
    && s.runs[r].lease.value.token == token && s.runs[r].lease.value.expiresAt > at
  }

  predicate PreparationExpired(run: Run, at: Instant) {
    run.status.PREPARING? && if run.lease.Some? then run.lease.value.expiresAt < at else run.attempts >= PREPARATION_ATTEMPTS
  }

  predicate HasActiveRun(s: State, c: CampaignId) {
    exists r :: r in s.runs && s.runs[r].campaign == c && !IsTerminal(s.runs[r].status)
  }

  predicate AllSettled(s: State, r: RunId) {
    DeliveriesOf(s, r) != {} && forall k :: k in DeliveriesOf(s, r) ==> IsSettled(s.deliveries[k].status)
  }

  /** A worker may record what its phase allows: a dry run its completion, a send only after its POST. */
  predicate MayRecord(w: Worker, result: JobStatus) {
    match w.phase
    case Started => result.FAILED? || (w.dryRun && result.DRY_RUN_COMPLETED?)
    case Posted => result.ACCEPTED? || result.FAILED? || result.UNKNOWN?
    case _ => false
  }

  predicate WebhookApplies(job: Job, status: JobStatus) {
    && job.messageId && !job.status.FAILED? && !job.status.CANCELLED? && !job.status.DRY_RUN_COMPLETED?
    && if status.FAILED? then IsActiveJob(job.status) || job.status.ACCEPTED? || job.status.UNKNOWN?
       else Rank(status) > Rank(job.status)
  }

  /** Whether the transaction's guards hold; otherwise it changes nothing. */
  predicate TakesEffect(s: State, step: Step, at: Instant) {
    match step
    case AddCampaign(c, _, _) => c !in s.campaigns
    case ReplaceTargets(c, _) => c in s.campaigns && !s.campaigns[c].deleted && s.campaigns[c].status.DRAFT?
    case DeleteCampaign(c) =>
      c in s.campaigns && !s.campaigns[c].deleted && (s.campaigns[c].status.DRAFT? || s.campaigns[c].status.ARCHIVED?)
      && !HasActiveRun(s, c)
    case Launch(c, r, mode, key) =>
      && c in s.campaigns && !s.campaigns[c].deleted && s.campaigns[c].status.DRAFT? && r !in s.launched
      && (forall o :: o in s.runs && s.runs[o].campaign == c ==> s.runs[o].key != key && s.runs[o].mode.DRY_RUN?)
      && (mode.LIVE? && s.campaigns[c].scheduledAt.Some? ==> s.campaigns[c].scheduledAt.value > at)
    case ClaimPreparation(r, _) =>
      r in s.runs && s.runs[r].status.PREPARING? && s.runs[r].nextAttemptAt <= at && s.runs[r].attempts < PREPARATION_ATTEMPTS
      && (s.runs[r].lease.Some? ==> s.runs[r].lease.value.expiresAt < at)
    case StalePreflight(r, token) => OwnsPreparation(s, r, token, at)
    case ApplyPreflight(r, token, _) => OwnsPreparation(s, r, token, at)
    case FailPreparation(r, token, _) => OwnsPreparation(s, r, token, at)
    case RecoverPreparation(r) => r in s.runs && PreparationExpired(s.runs[r], at)
    case Activate(r) => r in s.runs && s.runs[r].status.SCHEDULED? && s.runs[r].scheduledAt <= at
    case Finalize(r) => r in s.runs && s.runs[r].status.RUNNING? && AllSettled(s, r)
    case Pause(r) => r in s.runs && (s.runs[r].status.SCHEDULED? || s.runs[r].status.RUNNING?)
    case Suspend(r) => r in s.runs && s.runs[r].status.RUNNING? && s.runs[r].mode.LIVE?
    case BlockResume(r) => r in s.runs && (s.runs[r].status.PAUSED? || s.runs[r].status.BLOCKED?)
    case Resume(r) => r in s.runs && (s.runs[r].status.PAUSED? || s.runs[r].status.BLOCKED?)
    case Cancel(r) => r in s.runs && !IsTerminal(s.runs[r].status)
    case Materialize(r, g, _) =>
      r in s.runs && s.runs[r].status.RUNNING? && (r, g) in s.deliveries && s.deliveries[(r, g)].status.PENDING?
      && |Buffered(s, r)| < MAX_BUFFERED
    case Reconcile(k) =>
      k in s.deliveries && s.deliveries[k].hasJob && k in s.jobs && !s.jobs[k].status.SCHEDULED? && !s.jobs[k].status.QUEUED?
    case ClaimDue(k) => k in s.jobs && s.jobs[k].status.SCHEDULED?
    case ResetQueued(k) => k in s.jobs && s.jobs[k].status.QUEUED?
    case MarkProcessing(k, w) => k in s.jobs && s.jobs[k].status.QUEUED? && w !in s.workers
    case Verify(w, _) =>
      w in s.workers && s.workers[w].phase.Started? && !s.workers[w].dryRun && s.workers[w].job in s.jobs
      && s.jobs[s.workers[w].job].status.PROCESSING? && s.jobs[s.workers[w].job].leaseExpiresAt.Some?
      && s.jobs[s.workers[w].job].leaseExpiresAt.value > at
    case SendPost(w) => w in s.workers && s.workers[w].phase.Verified?
    case Settle(w, result) => w in s.workers && MayRecord(s.workers[w], result)
    case Expire(k) =>
      k in s.jobs && s.jobs[k].status.PROCESSING? && s.jobs[k].leaseExpiresAt.Some? && s.jobs[k].leaseExpiresAt.value < at
    case Webhook(k, status) => k in s.jobs && WebhookApplies(s.jobs[k], status)
    case RetireRun(r) => r in s.runs && IsTerminal(s.runs[r].status)
    case RetireJob(k) => k in s.jobs && !IsActiveJob(s.jobs[k].status) && !(k in s.deliveries && s.deliveries[k].hasJob)
  }

  /** A run moves to `status`, and if it is live its campaign, unless its status is not in `from`, to `to`. */
  function Moved(s: State, r: RunId, status: RunStatus, from: set<CampaignStatus>, to: CampaignStatus): State
    requires r in s.runs
  {
    var run := s.runs[r];
    s.(runs := s.runs[r := run.(status := status)],
       campaigns := if run.mode.LIVE? && run.campaign in s.campaigns && s.campaigns[run.campaign].status in from
                    then s.campaigns[run.campaign := s.campaigns[run.campaign].(status := to)] else s.campaigns)
  }

  function Archived(s: State, r: RunId, status: RunStatus): State
    requires r in s.runs
  {
    Moved(s, r, status, {CampaignStatus.ACTIVE, CampaignStatus.PAUSED}, ARCHIVED)
  }

  /** A run changes status and its campaign does not. */
  function Kept(s: State, r: RunId, status: RunStatus): State
    requires r in s.runs
  {
    s.(runs := s.runs[r := s.runs[r].(status := status)])
  }

  /** Deliveries are inserted for the targets that have none. */
  function WithDeliveries(s: State, r: RunId): State
    requires r in s.runs
  {
    s.(deliveries := s.deliveries + map g | g in s.runs[r].targets && (r, g) !in s.deliveries :: (r, g) := Delivery(PENDING, false))
  }

  function SetPreparation(s: State, r: RunId, attempts: nat, next: Instant, lease: Option<Lease>): State
    requires r in s.runs
  {
    s.(runs := s.runs[r := s.runs[r].(attempts := attempts, nextAttemptAt := next, lease := lease)])
  }

  function StartStatus(run: Run, at: Instant): RunStatus {
    if run.scheduledAt <= at then RunStatus.RUNNING else RunStatus.SCHEDULED
  }

  function CancelledJobs(s: State, r: RunId): map<Key, Job> {
    map k | k in s.jobs ::
      if k.0 == r && k in s.deliveries && s.deliveries[k].hasJob && (s.jobs[k].status.SCHEDULED? || s.jobs[k].status.QUEUED?)
      then s.jobs[k].(status := JobStatus.CANCELLED) else s.jobs[k]
  }

  function CancelledDeliveries(s: State, jobs: map<Key, Job>, r: RunId): map<Key, Delivery> {
    map k | k in s.deliveries ::
      if k.0 == r && (s.deliveries[k].status.PENDING? || (s.deliveries[k].hasJob && k in jobs && jobs[k].status.CANCELLED?))
      then s.deliveries[k].(status := Shows(JobStatus.CANCELLED)) else s.deliveries[k]
  }

  function Cancelled(s: State, r: RunId): State
    requires r in s.runs
  {
    var t := WithDeliveries(s, r);
    var jobs := CancelledJobs(t, r);
    Archived(t.(jobs := jobs, deliveries := CancelledDeliveries(t, jobs, r)), r, RunStatus.CANCELLED)
  }

  function Materialized(s: State, k: Key, changed: bool): State
    requires k in s.deliveries && k.0 in s.runs
  {
    if s.runs[k.0].mode.LIVE? && changed
    then s.(deliveries := s.deliveries[k := s.deliveries[k].(status := BLOCKED_CAPABILITY_CHANGED)])
    else s.(deliveries := s.deliveries[k := Delivery(MATERIALIZED, true)],
            jobs := if k in s.jobs then s.jobs
                    else s.jobs[k := Job(JobStatus.SCHEDULED, s.runs[k.0].mode.DRY_RUN?, 0, None, false)])
  }

  function Shown(s: State, k: Key): State
    requires k in s.deliveries && k in s.jobs
  {
    s.(deliveries := s.deliveries[k := s.deliveries[k].(status := Shows(s.jobs[k].status))])
  }

  function SetJob(s: State, k: Key, status: JobStatus): State
    requires k in s.jobs
  {
    s.(jobs := s.jobs[k := s.jobs[k].(status := status)])
  }

  /** A queued job is taken up by a new worker. */
  function TakenUp(s: State, k: Key, w: WorkerId, at: Instant): State
    requires k in s.jobs
  {
    s.(jobs := s.jobs[k := s.jobs[k].(status := JobStatus.PROCESSING, attempts := s.jobs[k].attempts + 1,
                                      leaseExpiresAt := Some(at + LEASE_MS))],
       workers := s.workers[w := Worker(k, s.jobs[k].dryRun, Started, false)])
  }

  /** A worker checks that its job is still in processing, which extends the job's lease: now and then while it
      waits for the session, and a last time before the POST. */
  function Checked(s: State, w: WorkerId, last: bool, at: Instant): State
    requires w in s.workers && s.workers[w].job in s.jobs
  {
    var k := s.workers[w].job;
    s.(jobs := s.jobs[k := s.jobs[k].(leaseExpiresAt := Some(at + LEASE_MS))],
       workers := if last then s.workers[w := s.workers[w].(phase := Verified)] else s.workers)
  }

  function PostMade(s: State, w: WorkerId): State
    requires w in s.workers
  {
    s.(workers := s.workers[w := s.workers[w].(phase := Posted, posted := true)],
       posts := s.posts + [Post(w, s.workers[w].job.0, s.workers[w].job.1)])
  }

  function Recorded(s: State, w: WorkerId, result: JobStatus): State
    requires w in s.workers
  {
    var k := s.workers[w].job;
    s.(workers := s.workers[w := s.workers[w].(phase := Left)],
       jobs := if k in s.jobs && s.jobs[k].status.PROCESSING?
               then s.jobs[k := s.jobs[k].(status := result, leaseExpiresAt := None,
                                           messageId := s.jobs[k].messageId || result.ACCEPTED?)]
               else s.jobs)
  }

  /** Deleting a run deletes its deliveries. */
  function WithoutRun(s: State, r: RunId): State {
    s.(runs := s.runs - {r}, deliveries := s.deliveries - DeliveriesOf(s, r))
  }

  function Effect(s: State, step: Step, at: Instant): State
    requires TakesEffect(s, step, at)
  {
    match step
    case AddCampaign(c, targets, scheduledAt) => s.(campaigns := s.campaigns[c := Campaign(DRAFT, false, targets, 1, 1, scheduledAt)])
    case ReplaceTargets(c, targets) =>
      s.(campaigns := s.campaigns[c := s.campaigns[c].(targets := targets, targetsRevision := s.campaigns[c].targetsRevision + 1)])
    case DeleteCampaign(c) =>
      s.(campaigns := s.campaigns[c := s.campaigns[c].(deleted := true, revision := s.campaigns[c].revision + 1)])
    case Launch(c, r, mode, key) =>
      var campaign := s.campaigns[c];
      var scheduledAt := if campaign.scheduledAt.Some? then campaign.scheduledAt.value else at;
      s.(runs := s.runs[r := Run(c, mode, PREPARING, campaign.targets, key, scheduledAt, 0, at, None)],
         launched := s.launched[r := Launched(c, mode, campaign.targets)],
         campaigns := if mode.LIVE? then s.campaigns[c := campaign.(status := ACTIVE)] else s.campaigns)
    case ClaimPreparation(r, token) =>
      SetPreparation(s, r, s.runs[r].attempts + 1, s.runs[r].nextAttemptAt, Some(Lease(token, at + LEASE_MS)))
    case StalePreflight(r, _) => SetPreparation(s, r, if s.runs[r].attempts > 0 then s.runs[r].attempts - 1 else 0, at, None)
    case ApplyPreflight(r, _, blocked) =>
      var t := SetPreparation(s, r, s.runs[r].attempts, s.runs[r].nextAttemptAt, None);
      if blocked then Kept(t, r, BLOCKED) else Kept(WithDeliveries(t, r), r, StartStatus(s.runs[r], at))
    case FailPreparation(r, _, retryAt) =>
      if s.runs[r].attempts >= PREPARATION_ATTEMPTS
      then Archived(SetPreparation(s, r, s.runs[r].attempts, s.runs[r].nextAttemptAt, None), r, RunStatus.FAILED)
      else SetPreparation(s, r, s.runs[r].attempts, retryAt, None)
    case RecoverPreparation(r) =>
      var t := SetPreparation(s, r, s.runs[r].attempts, at, None);
      if s.runs[r].attempts >= PREPARATION_ATTEMPTS then Archived(t, r, RunStatus.FAILED) else t
    case Activate(r) => Kept(s, r, RUNNING)
    case Finalize(r) =>
      Archived(s, r, if exists k :: k in DeliveriesOf(s, r) && IsFailure(s.deliveries[k].status) then PARTIAL_FAILED else COMPLETED)
    case Pause(r) => Moved(s, r, RunStatus.PAUSED, {CampaignStatus.ACTIVE}, CampaignStatus.PAUSED)
    case Suspend(r) => Moved(s, r, RunStatus.PAUSED, {CampaignStatus.ACTIVE}, CampaignStatus.PAUSED)
    case BlockResume(r) => Kept(s, r, BLOCKED)
    case Resume(r) => Moved(WithDeliveries(s, r), r, StartStatus(s.runs[r], at), {CampaignStatus.PAUSED}, CampaignStatus.ACTIVE)
    case Cancel(r) => Cancelled(s, r)
    case Materialize(r, g, changed) => Materialized(s, (r, g), changed)
    case Reconcile(k) => Shown(s, k)
    case ClaimDue(k) => SetJob(s, k, JobStatus.QUEUED)
    case ResetQueued(k) => SetJob(s, k, JobStatus.SCHEDULED)
    case MarkProcessing(k, w) => TakenUp(s, k, w, at)
    case Verify(w, last) => Checked(s, w, last, at)
    case SendPost(w) => PostMade(s, w)
    case Settle(w, result) => Recorded(s, w, result)
    case Expire(k) => s.(jobs := s.jobs[k := s.jobs[k].(status := JobStatus.UNKNOWN, leaseExpiresAt := None)])
    case Webhook(k, status) => SetJob(s, k, status)
    case RetireRun(r) => WithoutRun(s, r)
    case RetireJob(k) => s.(jobs := s.jobs - {k})
  }

  function After(s: State, step: Step, at: Instant): State {
    if TakesEffect(s, step, at) then Effect(s, step, at) else s
  }
}
