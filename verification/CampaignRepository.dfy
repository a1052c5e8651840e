/** The campaign tables as mutable fields. Each transaction is proved to take the step the model gives it; a
    bulk update is proved to be a list of such steps, one row each. */
module CampaignRepository {
  import opened Options
  import opened Orders
  import opened Campaigns
  import O = CampaignOutcomes
  import R = CampaignReconciliation

  datatype LaunchResult =
    | NotFound
    | Replayed(id: RunId, conflict: bool)
    | NotLaunchable
    | RevisionConflict(revision: nat, targetsRevision: nat)
    | ScheduleExpired
    | Created(id: RunId)

  datatype PreflightResult = Applied | StaleInput | LostOwnership

  /** What the gateway answers to a POST: success, an explicit 4xx other than 408, or anything else. */
  datatype Upstream = Success | Rejection | Ambiguous

  /** What one call of the worker meets: whether sending is allowed, whether the session's lease is still its own
      before the POST, the answer, and when it takes the job, has acquired the session and is about to POST. */
  datatype Environment = Environment(allowed: bool, kept: bool, answer: Upstream, takenAt: Instant, readyAt: Instant, sendAt: Instant)

  function RunFrom(s: State, steps: seq<(Step, Instant)>): State {
    if steps == [] then s else After(RunFrom(s, steps[..|steps| - 1]), steps[|steps| - 1].0, steps[|steps| - 1].1)
  }

  /** Some list of steps leads from `s` to `t`. */
  ghost predicate Leads(s: State, t: State) {
    exists steps :: RunFrom(s, steps) == t
  }

  lemma LeadsNowhere(s: State)
    ensures Leads(s, s)
  {
    assert RunFrom(s, []) == s;
  }

  lemma LeadsByStep(s: State, step: Step, at: Instant)
    ensures Leads(s, After(s, step, at))
  {
    assert [(step, at)][..0] == [];
    assert RunFrom(s, [(step, at)]) == After(RunFrom(s, []), step, at);
  }

  lemma {:induction false} RunFromAppend(s: State, first: seq<(Step, Instant)>, second: seq<(Step, Instant)>)
    ensures RunFrom(s, first + second) == RunFrom(RunFrom(s, first), second)
  {
    if second == [] {
      assert first + second == first;
    } else {
      var all, front := first + second, second[..|second| - 1];
      RunFromAppend(s, first, front);
      assert all[..|all| - 1] == first + front && all[|all| - 1] == second[|second| - 1];
    }
  }

  lemma LeadsOn(s: State, t: State, u: State)
    requires Leads(s, t) && Leads(t, u)
    ensures Leads(s, u)
  {
    var first :| RunFrom(s, first) == t;
    var second :| RunFrom(t, second) == u;
    RunFromAppend(s, first, second);
  }

  /** `min(300, 5 * 2 ** (attempts - 1))` seconds. */
  function Backoff(attempts: nat): Instant {
    if attempts <= 1 then 5000 else var d := 2 * Backoff(attempts - 1); if d < 300000 then d else 300000
  }

  /** 5, 10, 20, 40, 80, 160 and from then on 300 seconds. */
  lemma {:induction false} RetriesBackOff(attempts: nat)
    ensures Backoff(1) == 5000 && Backoff(2) == 10000 && Backoff(3) == 20000 && Backoff(4) == 40000
    ensures Backoff(5) == 80000 && Backoff(6) == 160000 && (attempts >= 7 ==> Backoff(attempts) == 300000)
  {
    assert Backoff(3) == 20000;
    assert Backoff(5) == 80000;
    if attempts > 7 { RetriesBackOff(attempts - 1); }
  }

  /** `LIMIT`: at most `limit` of the candidates, all of them if there are fewer. */
  method Choose<T(==)>(candidates: set<T>, limit: nat) returns (chosen: set<T>)
    ensures chosen <= candidates && |chosen| <= limit && (|chosen| < limit ==> chosen == candidates)
  {
    chosen := {};
    var rest := candidates;
    while rest != {} && |chosen| < limit
      invariant rest !! chosen && rest + chosen == candidates && |chosen| <= limit
    {
      var x :| x in rest;
      chosen := chosen + {x};
      rest := rest - {x};
    }
  }

  predicate IsPresent(s: State, c: CampaignId) {
    c in s.campaigns && !s.campaigns[c].deleted
  }

  predicate IsRunOf(s: State, c: CampaignId, key: nat, r: RunId) {
    r in s.runs && s.runs[r].campaign == c && s.runs[r].key == key
  }

  predicate HasRun(s: State, c: CampaignId, key: nat) {
    exists r :: r in s.runs && IsRunOf(s, c, key, r)
  }

  predicate HasLiveRun(s: State, c: CampaignId) {
    exists r :: r in s.runs && s.runs[r].campaign == c && s.runs[r].mode.LIVE?
  }

  /** The caller's expected revisions, where it states any, are the current ones. */
  predicate Expects(campaign: Campaign, revision: Option<nat>, targetsRevision: Option<nat>) {
    && (revision.Some? ==> revision.value == campaign.revision)
    && (targetsRevision.Some? ==> targetsRevision.value == campaign.targetsRevision)
  }

  predicate HasExpired(campaign: Campaign, mode: Mode, now: Instant) {
    mode.LIVE? && campaign.scheduledAt.Some? && campaign.scheduledAt.value <= now
  }

  /** What a launch is answered, from the state it finds: a campaign that is gone, a replay, a live run, other
      revisions than expected, a status other than draft, an expired schedule, or a new run. */
  predicate Answers(s: State, result: LaunchResult, c: CampaignId, key: nat, mode: Mode, revision: Option<nat>,
                    targetsRevision: Option<nat>, now: Instant)
  {
    && (result.NotFound? <==> !IsPresent(s, c))
    && (result.Replayed? <==> IsPresent(s, c) && HasRun(s, c, key))
    && (result.Replayed? ==> IsRunOf(s, c, key, result.id) && (result.conflict <==> s.runs[result.id].mode != mode))
    && (result.RevisionConflict? ==> c in s.campaigns
                                     && result == RevisionConflict(s.campaigns[c].revision, s.campaigns[c].targetsRevision))
    && (IsPresent(s, c) && !HasRun(s, c, key) ==>
          var expected, draft := Expects(s.campaigns[c], revision, targetsRevision), s.campaigns[c].status.DRAFT?;
          && (result.NotLaunchable? <==> HasLiveRun(s, c) || (expected && !draft))
          && (result.RevisionConflict? <==> !HasLiveRun(s, c) && !expected)
          && (result.ScheduleExpired? <==> !HasLiveRun(s, c) && expected && draft && HasExpired(s.campaigns[c], mode, now)))
  }

  lemma AnsweredMayLaunch(s: State, c: CampaignId, key: nat, mode: Mode, revision: Option<nat>, targetsRevision: Option<nat>,
                          id: RunId, now: Instant)
    requires Answers(s, Created(id), c, key, mode, revision, targetsRevision, now) && id !in s.launched
    ensures TakesEffect(s, Launch(c, id, mode, key), now)
  {
    forall o | o in s.runs && s.runs[o].campaign == c ensures s.runs[o].key != key && s.runs[o].mode.DRY_RUN? {
      assert !IsRunOf(s, c, key, o);
    }
  }

  /** An expired preparation is set back, or fails when it has used its attempts. */
  function GivenUp(run: Run, now: Instant): Run {
    var back := run.(lease := None, nextAttemptAt := now);
    if run.attempts >= PREPARATION_ATTEMPTS then back.(status := RunStatus.FAILED) else back
  }

  /** The failure of `run` archives the campaign. */
  predicate Exhausts(run: Run, c: CampaignId, campaign: Campaign) {
    run.attempts >= PREPARATION_ATTEMPTS && run.mode.LIVE? && run.campaign == c && (campaign.status.ACTIVE? || campaign.status.PAUSED?)
  }

  predicate LosesOneOf(s: State, c: CampaignId, lost: set<RunId>) {
    c in s.campaigns && exists r :: r in lost && r in s.runs && Exhausts(s.runs[r], c, s.campaigns[c])
  }

  lemma RecoveredCampaigns(s: State, r: RunId, now: Instant)
    requires r in s.runs && PreparationExpired(s.runs[r], now)
    ensures var t := After(s, RecoverPreparation(r), now);
      && t.runs == s.runs[r := GivenUp(s.runs[r], now)] && t.campaigns.Keys == s.campaigns.Keys
      && forall c :: c in s.campaigns ==>
           t.campaigns[c] == if Exhausts(s.runs[r], c, s.campaigns[c]) then s.campaigns[c].(status := ARCHIVED) else s.campaigns[c]
  {
    assert TakesEffect(s, RecoverPreparation(r), now);
    var back := SetPreparation(s, r, s.runs[r].attempts, now, None);
    assert After(s, RecoverPreparation(r), now)
           == if s.runs[r].attempts >= PREPARATION_ATTEMPTS then Archived(back, r, RunStatus.FAILED) else back;
  }

  function ExpiredPreparations(s: State, now: Instant): set<RunId> {
    set r | r in s.runs && PreparationExpired(s.runs[r], now)
  }

  /** The runs of `s` after the preparations of `lost` were given up. */
  predicate HasGivenUp(s: State, runs: map<RunId, Run>, lost: set<RunId>, now: Instant) {
    runs.Keys == s.runs.Keys && forall r :: r in runs ==> runs[r] == if r in lost then GivenUp(s.runs[r], now) else s.runs[r]
  }

  /** The campaigns of `s` after the runs `lost` were given up. */
  predicate HasLost(s: State, campaigns: map<CampaignId, Campaign>, lost: set<RunId>) {
    campaigns.Keys == s.campaigns.Keys && forall c :: c in campaigns ==>
      campaigns[c] == if LosesOneOf(s, c, lost) then s.campaigns[c].(status := ARCHIVED) else s.campaigns[c]
  }

  lemma LosesOneMore(s: State, before: map<CampaignId, Campaign>, after: map<CampaignId, Campaign>, lost: set<RunId>, r: RunId)
    requires r in s.runs && HasLost(s, before, lost) && after.Keys == before.Keys
    requires forall c :: c in after ==>
      after[c] == if Exhausts(s.runs[r], c, before[c]) then before[c].(status := ARCHIVED) else before[c]
    ensures HasLost(s, after, lost + {r})
  {
    forall c | c in after ensures LosesOneOf(s, c, lost + {r}) <==> LosesOneOf(s, c, lost) || Exhausts(s.runs[r], c, s.campaigns[c]) {}
  }

  /** The runs `ended` are over, each as its deliveries decide, and no other changed. */
  predicate HasEnded(before: map<RunId, Run>, runs: map<RunId, Run>, deliveries: map<Key, Delivery>, ended: set<RunId>) {
    runs.Keys == before.Keys && forall r :: r in runs ==>
      runs[r] == if r in ended then before[r].(status := O.EndOf(deliveries, r)) else before[r]
  }

  predicate EndsOneOf(runs: map<RunId, Run>, c: CampaignId, campaign: Campaign, ended: set<RunId>) {
    exists r :: r in ended && r in runs && O.EndsWith(c, campaign, runs[r])
  }

  /** Of `before`, the campaigns of the live runs `ended` are archived, and no other changed. */
  predicate HasArchived(runs: map<RunId, Run>, before: map<CampaignId, Campaign>, campaigns: map<CampaignId, Campaign>, ended: set<RunId>) {
    campaigns.Keys == before.Keys && forall c :: c in campaigns ==>
      campaigns[c] == if EndsOneOf(runs, c, before[c], ended) then before[c].(status := ARCHIVED) else before[c]
  }

  lemma ArchivesOneMore(runs: map<RunId, Run>, start: map<CampaignId, Campaign>, before: map<CampaignId, Campaign>,
                        after: map<CampaignId, Campaign>, ended: set<RunId>, r: RunId)
    requires r in runs && HasArchived(runs, start, before, ended) && after.Keys == before.Keys
    requires forall c :: c in after ==>
      after[c] == if O.EndsWith(c, before[c], runs[r]) then before[c].(status := ARCHIVED) else before[c]
    ensures HasArchived(runs, start, after, ended + {r})
  {
    forall c | c in after
      ensures EndsOneOf(runs, c, start[c], ended + {r}) <==> EndsOneOf(runs, c, start[c], ended) || O.EndsWith(c, start[c], runs[r])
    {}
  }

  lemma FinalizedLeads(s: State, r: RunId, at: Instant)
    requires r in s.runs && s.runs[r].status == RUNNING && O.IsFinalizable(s.deliveries, r)
    ensures var t := Archived(s, r, O.EndOf(s.deliveries, r));
      && Leads(s, t) && t.campaigns.Keys == s.campaigns.Keys
      && forall c :: c in s.campaigns ==>
           t.campaigns[c] == if O.EndsWith(c, s.campaigns[c], s.runs[r]) then s.campaigns[c].(status := ARCHIVED) else s.campaigns[c]
  {
    O.FinalizableExactly(s, r);
    LeadsByStep(s, Finalize(r), at);
  }

  lemma EndsOneMore(start: map<RunId, Run>, before: map<RunId, Run>, deliveries: map<Key, Delivery>, ended: set<RunId>, r: RunId)
    requires r in start && r !in ended && HasEnded(start, before, deliveries, ended)
    ensures r in before && HasEnded(start, before[r := before[r].(status := O.EndOf(deliveries, r))], deliveries, ended + {r})
  {
  }

  lemma SameFailures(deliveries: map<Key, Delivery>, r: RunId)
    ensures (exists k :: k in deliveries && k.0 == r && IsFailure(deliveries[k].status)) <==> O.HasFailedDelivery(deliveries, r)
  {
    forall k | k in deliveries ensures IsFailure(deliveries[k].status) <==> O.HasFailed(deliveries[k].status) {
      O.SettledIsNotUnderWay(deliveries[k].status);
    }
  }

  class CampaignTables {
    var campaigns: map<CampaignId, Campaign>
    var runs: map<RunId, Run>
    var deliveries: map<Key, Delivery>
    var jobs: map<Key, Job>
    ghost var launched: map<RunId, Launched>
    ghost var workers: map<WorkerId, Worker>
    ghost var posts: seq<Post>

    ghost function Now(): State
      reads this
    {
      State(campaigns, runs, deliveries, jobs, workers, launched, posts)
    }

    constructor ()
      ensures Now() == INITIAL
    {
      campaigns, runs, deliveries, jobs, launched, workers, posts := map[], map[], map[], map[], map[], map[], [];
    }

    // ---------------------------------------------------------------------------------------------
    // Launch

    /** Replays win over every refusal; then live runs, revisions, status and schedule are checked in turn. */
    method Create(c: CampaignId, key: nat, mode: Mode, revision: Option<nat>, targetsRevision: Option<nat>, id: RunId, now: Instant)
      returns (result: LaunchResult)
      requires id !in launched && id !in runs
      modifies this
      ensures Answers(old(Now()), result, c, key, mode, revision, targetsRevision, now)
      ensures result.Created? ==> TakesEffect(old(Now()), Launch(c, id, mode, key), now) && result.id == id
      ensures result.ScheduleExpired? ==>
        mode == LIVE && c in old(campaigns) && old(campaigns)[c].scheduledAt.Some? && old(campaigns)[c].scheduledAt.value <= now
      ensures result.Created? ==>
        && c in old(campaigns) && id in runs && runs[id].scheduledAt == (if old(campaigns)[c].scheduledAt.Some? then old(campaigns)[c].scheduledAt.value else now)
        && (mode == LIVE && old(campaigns)[c].scheduledAt.Some? ==> now < runs[id].scheduledAt)
      ensures Now() == if result.Created? then After(old(Now()), Launch(c, id, mode, key), now) else old(Now())
    {
      var refusal := Refuse(c, key, mode, revision, targetsRevision, now);
      if refusal.Some? {
        return refusal.value;
      }
      AnsweredMayLaunch(Now(), c, key, mode, revision, targetsRevision, id, now);
      InsertRun(c, key, mode, id, now);
      result := Created(id);
    }

    /** The checks before a run is inserted. */
    method Refuse(c: CampaignId, key: nat, mode: Mode, revision: Option<nat>, targetsRevision: Option<nat>, now: Instant)
      returns (refusal: Option<LaunchResult>)
      ensures refusal.Some? ==> !refusal.value.Created? && Answers(Now(), refusal.value, c, key, mode, revision, targetsRevision, now)
      ensures refusal.None? ==> forall id :: Answers(Now(), Created(id), c, key, mode, revision, targetsRevision, now)
    {
      if c !in campaigns || campaigns[c].deleted {
        return Some(NotFound);
      }
      var campaign := campaigns[c];
      var existing := set r | r in runs && runs[r].campaign == c && runs[r].key == key;
      assert forall r :: r in existing <==> IsRunOf(Now(), c, key, r);
      if existing != {} {
        var r :| r in existing;
        return Some(Replayed(r, runs[r].mode != mode));
      }
      if exists r :: r in runs && runs[r].campaign == c && runs[r].mode.LIVE? {
        return Some(NotLaunchable);
      }
      if (revision.Some? && revision.value != campaign.revision)
         || (targetsRevision.Some? && targetsRevision.value != campaign.targetsRevision)
      {
        return Some(RevisionConflict(campaign.revision, campaign.targetsRevision));
      }
      if campaign.status != DRAFT {
        return Some(NotLaunchable);
      }
      if mode == LIVE && campaign.scheduledAt.Some? && campaign.scheduledAt.value <= now {
        return Some(ScheduleExpired);
      }
      refusal := None;
    }

    method InsertRun(c: CampaignId, key: nat, mode: Mode, id: RunId, now: Instant)
      requires TakesEffect(Now(), Launch(c, id, mode, key), now)
      modifies this
      ensures Now() == After(old(Now()), Launch(c, id, mode, key), now)
    {
      var campaign := campaigns[c];
      var scheduledAt := if campaign.scheduledAt.Some? then campaign.scheduledAt.value else now;
      runs := runs[id := Run(c, mode, PREPARING, campaign.targets, key, scheduledAt, 0, now, None)];
      launched := launched[id := Launched(c, mode, campaign.targets)];
      if mode == LIVE {
        campaigns := campaigns[c := campaign.(status := ACTIVE)];
      }
    }

    /** A tombstone, for drafts and archived campaigns without an active run. */
    method Delete(c: CampaignId, revision: nat, targetsRevision: nat, now: Instant) returns (deleted: bool)
      modifies this`campaigns
      ensures deleted <==>
        && c in old(campaigns) && !old(campaigns)[c].deleted && (old(campaigns)[c].status == DRAFT || old(campaigns)[c].status == ARCHIVED)
        && (forall r :: r in runs && runs[r].campaign == c ==> runs[r].status in {COMPLETED, PARTIAL_FAILED, RunStatus.CANCELLED, RunStatus.FAILED})
        && old(campaigns)[c].revision == revision && old(campaigns)[c].targetsRevision == targetsRevision
      ensures Now() == if deleted then After(old(Now()), DeleteCampaign(c), now) else old(Now())
    {
      if c !in campaigns || campaigns[c].deleted || campaigns[c].revision != revision || campaigns[c].targetsRevision != targetsRevision {
        return false;
      }
      if campaigns[c].status != DRAFT && campaigns[c].status != ARCHIVED {
        return false;
      }
      var active := set r | r in runs && runs[r].campaign == c && !IsTerminal(runs[r].status);
      assert HasActiveRun(Now(), c) <==> active != {} by {
        if HasActiveRun(Now(), c) {
          var r :| r in runs && runs[r].campaign == c && !IsTerminal(runs[r].status);
          assert r in active;
        }
      }
      if active != {} {
        return false;
      }
      campaigns := campaigns[c := campaigns[c].(deleted := true, revision := campaigns[c].revision + 1)];
      deleted := true;
    }

    // ---------------------------------------------------------------------------------------------
    // Preparation

    method ClaimPrep(r: RunId, token: nat, now: Instant) returns (claimed: bool)
      modifies this`runs
      ensures claimed <==> TakesEffect(old(Now()), ClaimPreparation(r, token), now)
      ensures Now() == After(old(Now()), ClaimPreparation(r, token), now)
    {
      claimed := r in runs && runs[r].status == PREPARING && runs[r].nextAttemptAt <= now
                 && runs[r].attempts < PREPARATION_ATTEMPTS && (runs[r].lease.None? || runs[r].lease.value.expiresAt < now);
      if claimed {
        runs := runs[r := runs[r].(attempts := runs[r].attempts + 1, lease := Some(Lease(token, now + LEASE_MS)))];
      }
    }

    /** `stale` tells whether a target's capability changed since the report was made. */
    method ApplyReport(r: RunId, token: nat, stale: bool, blocked: bool, now: Instant) returns (result: PreflightResult)
      modifies this`runs, this`deliveries
      ensures result.LostOwnership? <==> !OwnsPreparation(old(Now()), r, token, now)
      ensures Leads(old(Now()), Now()) && (result.LostOwnership? ==> Now() == old(Now()))
      ensures result.StaleInput? ==> stale && Now() == SetBack(old(Now()), r, now)
      ensures result.Applied? ==> !stale && Now() == Reported(old(Now()), r, blocked, now)
      ensures result.Applied? ==>
        && r in old(runs) && r in runs
        && runs[r].status == (if blocked then BLOCKED else if old(runs)[r].scheduledAt <= now then RUNNING else RunStatus.SCHEDULED)
    {
      LeadsNowhere(Now());
      if r !in runs || runs[r].status != PREPARING || runs[r].lease.None?
         || runs[r].lease.value.token != token || runs[r].lease.value.expiresAt <= now
      {
        return LostOwnership;
      }
      ReportLeads(Now(), r, token, blocked, now);
      if stale {
        GiveBack(r, now);
        return StaleInput;
      }
      if blocked {
        BlockRun(r, now);
      } else {
        StartRun(r, now);
      }
      result := Applied;
    }

    method GiveBack(r: RunId, now: Instant)
      requires r in runs
      modifies this`runs
      ensures Now() == SetBack(old(Now()), r, now)
    {
      var attempts := if runs[r].attempts > 0 then runs[r].attempts - 1 else 0;
      runs := runs[r := runs[r].(lease := None, nextAttemptAt := now, attempts := attempts)];
    }

    method BlockRun(r: RunId, now: Instant)
      requires r in runs
      modifies this`runs
      ensures Now() == Reported(old(Now()), r, true, now)
    {
      runs := runs[r := runs[r].(status := BLOCKED, lease := None)];
    }

    /** Deliveries for every target, then the run is scheduled or starts at once. */
    method StartRun(r: RunId, now: Instant)
      requires r in runs
      modifies this`runs, this`deliveries
      ensures Now() == Reported(old(Now()), r, false, now)
    {
      runs := runs[r := runs[r].(lease := None)];
      InsertDeliveries(r);
      var status := if runs[r].scheduledAt <= now then RUNNING else RunStatus.SCHEDULED;
      runs := runs[r := runs[r].(status := status)];
    }

    /** One delivery per target, on conflict do nothing. */
    method InsertDeliveries(r: RunId)
      requires r in runs
      modifies this`deliveries
      ensures Now() == WithDeliveries(old(Now()), r)
    {
      ghost var before := deliveries;
      var targets := runs[r].targets;
      var todo := targets;
      while todo != {}
        invariant todo <= targets && before.Keys <= deliveries.Keys
        invariant forall k :: k in deliveries ==> k in before || (k.0 == r && k.1 in targets - todo)
        invariant forall g :: g in targets - todo ==> (r, g) in deliveries
        invariant forall k :: k in deliveries ==> deliveries[k] == if k in before then before[k] else Delivery(PENDING, false)
      {
        var g :| g in todo;
        if (r, g) !in deliveries {
          deliveries := deliveries[(r, g) := Delivery(PENDING, false)];
        }
        todo := todo - {g};
      }
      SameInsertion(old(Now()), r, deliveries);
    }

    method FailPrep(r: RunId, token: nat, now: Instant) returns (owned: bool)
      modifies this`runs, this`campaigns
      ensures owned <==> OwnsPreparation(old(Now()), r, token, now)
      ensures owned ==> Now() == After(old(Now()), FailPreparation(r, token, now + Backoff(old(runs)[r].attempts)), now)
      ensures !owned ==> Now() == old(Now())
    {
      owned := r in runs && runs[r].status == PREPARING && runs[r].lease.Some?
               && runs[r].lease.value.token == token && runs[r].lease.value.expiresAt > now;
      if owned {
        var run := runs[r].(lease := None);
        if run.attempts >= PREPARATION_ATTEMPTS {
          runs := runs[r := run.(status := RunStatus.FAILED)];
          Archive(r);
        } else {
          runs := runs[r := run.(nextAttemptAt := now + Backoff(run.attempts))];
        }
      }
    }

    /** A live run that ended archives its campaign. */
    method Archive(r: RunId)
      requires r in runs
      modifies this`campaigns
      ensures campaigns == Archived(old(Now()), r, runs[r].status).campaigns
    {
      var c := runs[r].campaign;
      if runs[r].mode == LIVE && c in campaigns
         && (campaigns[c].status == CampaignStatus.ACTIVE || campaigns[c].status == CampaignStatus.PAUSED)
      {
        campaigns := campaigns[c := campaigns[c].(status := ARCHIVED)];
      }
    }

    /** Every expired preparation is given back or, out of attempts, failed, and no other; the campaigns of live
        runs that failed are archived. */
    method RecoverPreparations(now: Instant) returns (count: nat)
      modifies this`runs, this`campaigns
      ensures Leads(old(Now()), Now())
      ensures var expired := ExpiredPreparations(old(Now()), now);
        HasGivenUp(old(Now()), runs, expired, now) && HasLost(old(Now()), campaigns, expired) && count == |expired|
    {
      LeadsNowhere(Now());
      ghost var start := Now();
      var expired := set r | r in runs && PreparationExpired(runs[r], now);
      assert expired == ExpiredPreparations(start, now);
      count := |expired|;
      var todo := expired;
      while todo != {}
        invariant todo <= expired && Leads(start, Now())
        invariant HasGivenUp(start, runs, expired - todo, now) && HasLost(start, campaigns, expired - todo)
      {
        var r :| r in todo;
        ghost var before := Now();
        RecoverOne(r, now);
        LeadsOn(start, before, Now());
        LosesOneMore(start, before.campaigns, campaigns, expired - todo, r);
        assert expired - (todo - {r}) == expired - todo + {r};
        todo := todo - {r};
      }
      assert expired - todo == expired;
    }

    method RecoverOne(r: RunId, now: Instant)
      requires r in runs && PreparationExpired(runs[r], now)
      modifies this`runs, this`campaigns
      ensures Leads(old(Now()), Now())
      ensures runs == old(runs)[r := GivenUp(old(runs)[r], now)] && campaigns.Keys == old(campaigns.Keys)
      ensures forall c :: c in campaigns ==>
        campaigns[c] == if Exhausts(old(runs)[r], c, old(campaigns)[c]) then old(campaigns)[c].(status := ARCHIVED) else old(campaigns)[c]
    {
      var run := runs[r].(lease := None, nextAttemptAt := now);
      if run.attempts >= PREPARATION_ATTEMPTS {
        runs := runs[r := run.(status := RunStatus.FAILED)];
        Archive(r);
      } else {
        runs := runs[r := run];
      }
      LeadsByStep(old(Now()), RecoverPreparation(r), now);
      assert Now() == After(old(Now()), RecoverPreparation(r), now);
      RecoveredCampaigns(old(Now()), r, now);
    }

    // ---------------------------------------------------------------------------------------------
    // Lifecycle

    method ActivateDue(now: Instant) returns (count: nat)
      modifies this`runs
      ensures Leads(old(Now()), Now())
      ensures runs == map r | r in old(runs) ::
        if old(runs)[r].status.SCHEDULED? && old(runs)[r].scheduledAt <= now then old(runs)[r].(status := RUNNING) else old(runs)[r]
    {
      LeadsNowhere(Now());
      count := 0;
      var due := set r | r in runs && runs[r].status == RunStatus.SCHEDULED && runs[r].scheduledAt <= now;
      var todo := due;
      while todo != {}
        invariant todo <= due && Leads(old(Now()), Now()) && runs.Keys == old(runs.Keys)
        invariant forall r :: r in runs ==> runs[r] == if r in due - todo then old(runs)[r].(status := RUNNING) else old(runs)[r]
      {
        var r :| r in todo;
        ghost var before := Now();
        ActivateOne(r, now);
        LeadsOn(old(Now()), before, Now());
        count := count + 1;
        todo := todo - {r};
      }
    }

    method ActivateOne(r: RunId, now: Instant)
      requires r in runs && runs[r].status.SCHEDULED? && runs[r].scheduledAt <= now
      modifies this`runs
      ensures Leads(old(Now()), Now()) && runs == old(runs)[r := old(runs)[r].(status := RUNNING)]
    {
      runs := runs[r := runs[r].(status := RUNNING)];
      LeadsByStep(old(Now()), Activate(r), now);
      assert Now() == After(old(Now()), Activate(r), now);
    }

    /** Running runs that can be finalized, at most `limit` of them. Each is completed, or has partly failed if one of
        its deliveries did; campaigns of live ones are archived. */
    method FinalizeRuns(limit: nat, now: Instant) returns (finalized: set<RunId>)
      modifies this`runs, this`campaigns
      ensures Leads(old(Now()), Now()) && |finalized| <= limit
      ensures forall r :: r in finalized ==> r in old(runs) && old(runs)[r].status == RUNNING && O.IsFinalizable(deliveries, r)
      ensures HasEnded(old(runs), runs, deliveries, finalized) && HasArchived(old(runs), old(campaigns), campaigns, finalized)
      ensures forall r :: r in finalized ==>
        && (runs[r].status == PARTIAL_FAILED || runs[r].status == COMPLETED)
        && (runs[r].status == PARTIAL_FAILED <==>
              exists k :: k in deliveries && k.0 == r
                          && deliveries[k].status in {BLOCKED_CAPABILITY_CHANGED, Shows(JobStatus.FAILED), Shows(UNKNOWN), Shows(JobStatus.CANCELLED)})
      ensures |finalized| < limit ==> forall r :: r in runs && runs[r].status == RUNNING ==> !O.IsFinalizable(deliveries, r)
    {
      var due := set r | r in runs && runs[r].status == RUNNING && O.IsFinalizable(deliveries, r);
      finalized := Choose(due, limit);
      label BeforeFinalize:
      FinalizeAll(finalized, now);
      forall r | r in runs && runs[r].status == RUNNING && |finalized| < limit ensures !O.IsFinalizable(deliveries, r) {
        assert r !in due && runs[r] == old@BeforeFinalize(runs)[r];
      }
    }

    method FinalizeAll(chosen: set<RunId>, now: Instant)
      requires forall r :: r in chosen ==> r in runs && runs[r].status == RUNNING && O.IsFinalizable(deliveries, r)
      modifies this`runs, this`campaigns
      ensures Leads(old(Now()), Now())
      ensures HasEnded(old(runs), runs, deliveries, chosen) && HasArchived(old(runs), old(campaigns), campaigns, chosen)
    {
      LeadsNowhere(Now());
      var todo := chosen;
      while todo != {}
        invariant todo <= chosen && Leads(old(Now()), Now())
        invariant HasEnded(old(runs), runs, deliveries, chosen - todo)
        invariant HasArchived(old(runs), old(campaigns), campaigns, chosen - todo)
      {
        var r :| r in todo;
        ghost var before := Now();
        EndsOneMore(old(runs), runs, deliveries, chosen - todo, r);
        FinalizeOne(r, now);
        LeadsOn(old(Now()), before, Now());
        ArchivesOneMore(old(runs), old(campaigns), before.campaigns, campaigns, chosen - todo, r);
        assert chosen - (todo - {r}) == chosen - todo + {r};
        todo := todo - {r};
      }
      assert chosen - todo == chosen;
    }

    method FinalizeOne(r: RunId, now: Instant)
      requires r in runs && runs[r].status == RUNNING && O.IsFinalizable(deliveries, r)
      modifies this`runs, this`campaigns
      ensures Leads(old(Now()), Now())
      ensures runs == old(runs)[r := old(runs)[r].(status := O.EndOf(deliveries, r))] && campaigns.Keys == old(campaigns.Keys)
      ensures forall c :: c in campaigns ==>
        campaigns[c] == if O.EndsWith(c, old(campaigns)[c], old(runs)[r]) then old(campaigns)[c].(status := ARCHIVED) else old(campaigns)[c]
    {
      var failed := exists k :: k in deliveries && k.0 == r && IsFailure(deliveries[k].status);
      SameFailures(deliveries, r);
      FinalizedLeads(Now(), r, now);
      runs := runs[r := runs[r].(status := if failed then PARTIAL_FAILED else COMPLETED)];
      Archive(r);
    }

    method PauseRun(r: RunId, now: Instant) returns (paused: bool)
      modifies this`runs, this`campaigns
      ensures paused <==> r in old(runs) && (old(runs)[r].status == RunStatus.SCHEDULED || old(runs)[r].status == RUNNING)
      ensures Now() == After(old(Now()), Pause(r), now)
    {
      paused := r in runs && (runs[r].status == RunStatus.SCHEDULED || runs[r].status == RUNNING);
      if paused {
        SetPaused(r);
      }
    }

    method SetPaused(r: RunId)
      requires r in runs
      modifies this`runs, this`campaigns
      ensures Now() == Moved(old(Now()), r, RunStatus.PAUSED, {CampaignStatus.ACTIVE}, CampaignStatus.PAUSED)
    {
      var c := runs[r].campaign;
      runs := runs[r := runs[r].(status := RunStatus.PAUSED)];
      if runs[r].mode == LIVE && c in campaigns && campaigns[c].status == CampaignStatus.ACTIVE {
        campaigns := campaigns[c := campaigns[c].(status := CampaignStatus.PAUSED)];
      }
    }

    method RecordBlockedResume(r: RunId, now: Instant)
      modifies this`runs
      ensures Now() == After(old(Now()), BlockResume(r), now)
    {
      if r in runs && (runs[r].status == RunStatus.PAUSED || runs[r].status == BLOCKED) {
        runs := runs[r := runs[r].(status := BLOCKED)];
      }
    }

    method ResumeRun(r: RunId, stale: bool, now: Instant) returns (resumed: bool)
      modifies this`runs, this`deliveries, this`campaigns
      ensures resumed <==> !stale && r in old(runs) && (old(runs)[r].status == RunStatus.PAUSED || old(runs)[r].status == BLOCKED)
      ensures Now() == if resumed then After(old(Now()), Resume(r), now) else old(Now())
      ensures resumed ==>
        && r in old(runs) && r in runs
        && runs[r].status == (if old(runs)[r].scheduledAt <= now then RUNNING else RunStatus.SCHEDULED)
    {
      if r !in runs || (runs[r].status != RunStatus.PAUSED && runs[r].status != BLOCKED) || stale {
        return false;
      }
      InsertDeliveries(r);
      var c := runs[r].campaign;
      runs := runs[r := runs[r].(status := if runs[r].scheduledAt > now then RunStatus.SCHEDULED else RUNNING)];
      if runs[r].mode == LIVE && c in campaigns && campaigns[c].status == CampaignStatus.PAUSED {
        campaigns := campaigns[c := campaigns[c].(status := CampaignStatus.ACTIVE)];
      }
      resumed := true;
    }

    /** Jobs not yet taken up are cancelled with their deliveries; a job in processing is left to end. */
    method CancelRun(r: RunId, now: Instant) returns (cancelled: bool)
      modifies this`runs, this`deliveries, this`jobs, this`campaigns
      ensures Leads(old(Now()), Now())
      ensures cancelled <==> r in old(runs) && old(runs)[r].status !in {COMPLETED, PARTIAL_FAILED, RunStatus.CANCELLED, RunStatus.FAILED}
      ensures Now() == if cancelled then Cancelled(old(Now()), r) else old(Now())
    {
      LeadsNowhere(Now());
      cancelled := r in runs && !IsTerminal(runs[r].status);
      if cancelled {
        CancelLeads(Now(), r, now);
        InsertDeliveries(r);
        CancelJobs(r);
        CancelDeliveries(r);
        runs := runs[r := runs[r].(status := RunStatus.CANCELLED)];
        Archive(r);
      }
    }

    method CancelJobs(r: RunId)
      modifies this`jobs
      ensures jobs == CancelledJobs(old(Now()), r)
    {
      jobs := map k | k in jobs ::
        if k.0 == r && k in deliveries && deliveries[k].hasJob
           && (jobs[k].status == JobStatus.SCHEDULED || jobs[k].status == QUEUED)
        then jobs[k].(status := JobStatus.CANCELLED) else jobs[k];
    }

    method CancelDeliveries(r: RunId)
      modifies this`deliveries
      ensures deliveries == CancelledDeliveries(old(Now()), jobs, r)
    {
      deliveries := map k | k in deliveries ::
        if k.0 == r && (deliveries[k].status == PENDING
                        || (deliveries[k].hasJob && k in jobs && jobs[k].status == JobStatus.CANCELLED))
        then deliveries[k].(status := Shows(JobStatus.CANCELLED)) else deliveries[k];
    }

    // ---------------------------------------------------------------------------------------------
    // Deliveries and jobs

    /** As many pending deliveries as there are free slots, or all of them, get a job each; a changed capability
        blocks a live one instead, which uses its slot up. A live run whose session cannot send is paused. */
    method MaterializePending(r: RunId, sendable: bool, changed: set<Group>, now: Instant)
      returns (materialized: nat, ghost handled: set<Group>)
      modifies this
      ensures Leads(old(Now()), Now())
      ensures !(r in old(runs) && old(runs)[r].status.RUNNING?) ==> Now() == old(Now()) && materialized == 0
      ensures r in old(runs) && old(runs)[r].status.RUNNING? && old(runs)[r].mode.LIVE? && !sendable ==>
        materialized == 0 && Now() == Moved(old(Now()), r, RunStatus.PAUSED, {CampaignStatus.ACTIVE}, CampaignStatus.PAUSED)
      ensures r in old(runs) && old(runs)[r].status.RUNNING? && (old(runs)[r].mode.LIVE? ==> sendable) ==>
        && handled <= PendingOf(old(Now()), r) && |handled| == Lesser(FreeSlots(old(Now()), r), |PendingOf(old(Now()), r)|)
        && Now() == Filled(old(Now()), r, handled, changed)
        && materialized == |handled - BlockedOf(old(Now()), r, changed)|
    {
      LeadsNowhere(Now());
      materialized := 0;
      handled := {};
      if r !in runs || runs[r].status != RUNNING {
        return;
      }
      if runs[r].mode == LIVE && !sendable {
        SuspendOne(r, now);
        return;
      }
      var active := |set k | k in deliveries && k.0 == r && deliveries[k].hasJob && k in jobs && IsActiveJob(jobs[k].status)|;
      assert active == |Buffered(Now(), r)|;
      FilledByNone(Now(), r, changed);
      if active < MAX_BUFFERED {
        materialized, handled := FillSlots(r, MAX_BUFFERED - active, changed, now);
      }
    }

    /** `LIMIT slots`: that many pending deliveries, one at a time. */
    method FillSlots(r: RunId, slots: nat, changed: set<Group>, now: Instant) returns (materialized: nat, ghost handled: set<Group>)
      requires r in runs && runs[r].status.RUNNING? && |Buffered(Now(), r)| + slots <= MAX_BUFFERED
      modifies this`deliveries, this`jobs
      ensures Leads(old(Now()), Now())
      ensures handled <= PendingOf(old(Now()), r) && |handled| == Lesser(slots, |PendingOf(old(Now()), r)|)
      ensures Now() == Filled(old(Now()), r, handled, changed)
      ensures materialized == |handled - BlockedOf(old(Now()), r, changed)|
    {
      var pending := set k | k in deliveries && k.0 == r && deliveries[k].status == PENDING :: k.1;
      SamePending(Now(), r, pending);
      var chosen := Choose(pending, slots);
      ChosenExactly(pending, chosen, slots);
      handled := chosen;
      materialized := FillChosen(r, chosen, slots, changed, now);
      assert chosen - {} == chosen;
    }

    method FillChosen(r: RunId, chosen: set<Group>, slots: nat, changed: set<Group>, now: Instant) returns (materialized: nat)
      requires r in runs && runs[r].status.RUNNING? && |Buffered(Now(), r)| + slots <= MAX_BUFFERED
      requires chosen <= PendingOf(Now(), r) && |chosen| <= slots
      modifies this`deliveries, this`jobs
      ensures HasFilled(old(Now()), Now(), r, chosen, {}, changed, materialized)
    {
      ghost var start := Now();
      NothingFilled(start, r, chosen, changed);
      var todo := chosen;
      materialized := 0;
      while todo != {}
        invariant HasFilled(start, Now(), r, chosen, todo, changed, materialized)
      {
        var g :| g in todo;
        materialized := FillNext(start, r, chosen, todo, g, changed, materialized, now);
        todo := todo - {g};
      }
    }

    /** The next of the chosen deliveries. */
    method FillNext(ghost start: State, r: RunId, ghost chosen: set<Group>, ghost todo: set<Group>, g: Group, changed: set<Group>,
                    count: nat, now: Instant)
      returns (materialized: nat)
      requires HasFilled(start, Now(), r, chosen, todo, changed, count) && g in todo
      modifies this`deliveries, this`jobs
      ensures HasFilled(start, Now(), r, chosen, todo - {g}, changed, materialized)
    {
      ghost var before := Now();
      NextIsPending(start, before, r, chosen, todo, g, changed, count);
      var created := MaterializeOne(r, g, g in changed, now);
      materialized := if created then count + 1 else count;
      NextIsFilled(start, before, Now(), r, chosen, todo, g, changed, count);
    }

    method SuspendOne(r: RunId, now: Instant)
      requires r in runs && runs[r].status.RUNNING? && runs[r].mode.LIVE?
      modifies this`runs, this`campaigns
      ensures Leads(old(Now()), Now())
      ensures Now() == Moved(old(Now()), r, RunStatus.PAUSED, {CampaignStatus.ACTIVE}, CampaignStatus.PAUSED)
    {
      SetPaused(r);
      LeadsByStep(old(Now()), Suspend(r), now);
    }

    method MaterializeOne(r: RunId, g: Group, changed: bool, now: Instant) returns (created: bool)
      requires r in runs && runs[r].status.RUNNING? && (r, g) in deliveries && deliveries[(r, g)].status.PENDING?
      requires |Buffered(Now(), r)| < MAX_BUFFERED
      modifies this`deliveries, this`jobs
      ensures Leads(old(Now()), Now()) && Now() == Materialized(old(Now()), (r, g), changed)
      ensures forall k :: k in old(deliveries) && k != (r, g) ==> k in deliveries && deliveries[k] == old(deliveries)[k]
      ensures created <==> !(runs[r].mode.LIVE? && changed)
      ensures |Buffered(Now(), r)| <= |Buffered(old(Now()), r)| + (if created then 1 else 0)
    {
      var k := (r, g);
      MaterializeLeads(Now(), k, changed, now);
      MaterializedBuffer(Now(), k, changed);
      created := !(runs[r].mode == LIVE && changed);
      if created {
        if k !in jobs {
          jobs := jobs[k := Job(JobStatus.SCHEDULED, runs[r].mode == DRY_RUN, 0, None, false)];
        }
        deliveries := deliveries[k := Delivery(MATERIALIZED, true)];
      } else {
        deliveries := deliveries[k := deliveries[k].(status := BLOCKED_CAPABILITY_CHANGED)];
      }
    }

    /** Deliveries catch up with their jobs, and no other changes. */
    method ReconcileDeliveries(now: Instant) returns (count: nat)
      modifies this`deliveries
      ensures Leads(old(Now()), Now())
      ensures deliveries == map k | k in old(deliveries) ::
        if MustShow(old(deliveries), jobs, k) then old(deliveries)[k].(status := Shows(jobs[k].status)) else old(deliveries)[k]
      ensures count == |set k | k in old(deliveries) && deliveries[k] != old(deliveries)[k]|
    {
      LeadsNowhere(Now());
      var behind := set k | k in deliveries && MustShow(deliveries, jobs, k) && deliveries[k].status != Shows(jobs[k].status);
      count := |behind|;
      var todo := behind;
      while todo != {}
        invariant Leads(old(Now()), Now()) && todo <= behind && deliveries.Keys == old(deliveries.Keys)
        invariant forall k :: k in deliveries ==>
          deliveries[k] == if k in behind - todo then old(deliveries)[k].(status := Shows(jobs[k].status)) else old(deliveries)[k]
      {
        var k :| k in todo;
        ghost var before := Now();
        ReconcileOne(k, now);
        LeadsOn(old(Now()), before, Now());
        todo := todo - {k};
      }
      forall k | k in deliveries
        ensures deliveries[k] == if MustShow(old(deliveries), jobs, k) then old(deliveries)[k].(status := Shows(jobs[k].status))
                                 else old(deliveries)[k]
      {
        assert k in behind <==> MustShow(old(deliveries), jobs, k) && old(deliveries)[k].status != Shows(jobs[k].status);
      }
      assert behind == set k | k in old(deliveries) && deliveries[k] != old(deliveries)[k];
    }

    method ReconcileOne(k: Key, now: Instant)
      requires k in deliveries && MustShow(deliveries, jobs, k)
      modifies this`deliveries
      ensures Leads(old(Now()), Now()) && deliveries == old(deliveries)[k := old(deliveries)[k].(status := Shows(jobs[k].status))]
    {
      deliveries := deliveries[k := deliveries[k].(status := Shows(jobs[k].status))];
      LeadsByStep(old(Now()), Reconcile(k), now);
      assert Now() == After(old(Now()), Reconcile(k), now);
    }

    /** At most `limit` scheduled jobs are queued; all of them if there are fewer. */
    method ClaimDueJobs(limit: nat, now: Instant) returns (claimed: set<Key>)
      modifies this`jobs
      ensures Leads(old(Now()), Now()) && |claimed| <= limit
      ensures forall k :: k in claimed ==> k in old(jobs) && old(jobs)[k].status.SCHEDULED?
      ensures jobs.Keys == old(jobs.Keys)
      ensures forall k :: k in jobs ==> jobs[k] == if k in claimed then old(jobs)[k].(status := QUEUED) else old(jobs)[k]
      ensures |claimed| < limit ==> forall k :: k in jobs ==> !jobs[k].status.SCHEDULED?
    {
      var due := set k | k in jobs && jobs[k].status == JobStatus.SCHEDULED;
      claimed := Choose(due, limit);
      QueueAll(claimed, now);
      assert forall k :: k in jobs && jobs[k].status.SCHEDULED? ==> k in due;
    }

    method QueueAll(claimed: set<Key>, now: Instant)
      requires forall k :: k in claimed ==> k in jobs && jobs[k].status.SCHEDULED?
      modifies this`jobs
      ensures Leads(old(Now()), Now()) && jobs.Keys == old(jobs.Keys)
      ensures forall k :: k in jobs ==> jobs[k] == if k in claimed then old(jobs)[k].(status := QUEUED) else old(jobs)[k]
    {
      LeadsNowhere(Now());
      var todo := claimed;
      while todo != {}
        invariant todo <= claimed && Leads(old(Now()), Now()) && jobs.Keys == old(jobs.Keys)
        invariant forall k :: k in jobs ==> jobs[k] == if k in claimed - todo then old(jobs)[k].(status := QUEUED) else old(jobs)[k]
      {
        var k :| k in todo;
        ghost var before := Now();
        QueueOne(k, now);
        LeadsOn(old(Now()), before, Now());
        todo := todo - {k};
      }
    }

    method QueueOne(k: Key, now: Instant)
      requires k in jobs && jobs[k].status.SCHEDULED?
      modifies this`jobs
      ensures Leads(old(Now()), Now()) && jobs == old(jobs)[k := old(jobs)[k].(status := QUEUED)]
    {
      jobs := jobs[k := jobs[k].(status := QUEUED)];
      LeadsByStep(old(Now()), ClaimDue(k), now);
      assert Now() == After(old(Now()), ClaimDue(k), now);
    }

    /** A job whose publication failed goes back to the schedule. */
    method ResetQueuedJob(k: Key, now: Instant)
      modifies this`jobs
      ensures Now() == After(old(Now()), ResetQueued(k), now)
    {
      if k in jobs && jobs[k].status == QUEUED {
        jobs := jobs[k := jobs[k].(status := JobStatus.SCHEDULED)];
      }
    }

    method MarkJobProcessing(k: Key, ghost w: WorkerId, now: Instant) returns (job: Option<Job>)
      requires w !in workers
      modifies this`jobs, this`workers
      ensures Leads(old(Now()), Now())
      ensures job.Some? <==> k in old(jobs) && old(jobs)[k].status.QUEUED?
      ensures job.Some? ==> Now() == TakenUp(old(Now()), k, w, now) && job.value == jobs[k]
      ensures job.None? ==> Now() == old(Now())
    {
      LeadsNowhere(Now());
      if k !in jobs || jobs[k].status != QUEUED {
        return None;
      }
      var row := jobs[k].(status := PROCESSING, attempts := jobs[k].attempts + 1, leaseExpiresAt := Some(now + LEASE_MS));
      jobs := jobs[k := row];
      workers := workers[w := Worker(k, row.dryRun, Started, false)];
      job := Some(row);
      LeadsByStep(old(Now()), MarkProcessing(k, w), now);
    }

    /** The check that the job is still processing and its lease unexpired; the last one comes before the POST. */
    method RefreshLease(k: Key, ghost w: WorkerId, ghost last: bool, now: Instant) returns (alive: bool)
      requires w in workers && workers[w].job == k && workers[w].phase.Started? && !workers[w].dryRun
      modifies this`jobs, this`workers
      ensures Leads(old(Now()), Now())
      ensures alive <==> k in old(jobs) && old(jobs)[k].status.PROCESSING? && old(jobs)[k].leaseExpiresAt.Some?
                         && old(jobs)[k].leaseExpiresAt.value > now
      ensures Now() == if alive then Checked(old(Now()), w, last, now) else old(Now())
    {
      LeadsNowhere(Now());
      alive := k in jobs && jobs[k].status == PROCESSING && jobs[k].leaseExpiresAt.Some? && jobs[k].leaseExpiresAt.value > now;
      if alive {
        jobs := jobs[k := jobs[k].(leaseExpiresAt := Some(now + LEASE_MS))];
        workers := if last then workers[w := workers[w].(phase := Verified)] else workers;
        LeadsByStep(old(Now()), Verify(w, last), now);
      }
    }

    /** Only a job still in processing takes the result. */
    method UpdateResult(k: Key, ghost w: WorkerId, result: JobStatus, now: Instant)
      requires w in workers && workers[w].job == k && MayRecord(workers[w], result)
      modifies this`jobs, this`workers
      ensures Leads(old(Now()), Now()) && Now() == Recorded(old(Now()), w, result)
    {
      SettleLeads(Now(), w, result, now);
      if k in jobs && jobs[k].status == PROCESSING {
        jobs := jobs[k := jobs[k].(status := result, leaseExpiresAt := None, messageId := jobs[k].messageId || result == ACCEPTED)];
      }
      workers := workers[w := workers[w].(phase := Left)];
    }

    ghost method RememberPost(w: WorkerId, now: Instant)
      requires w in workers && workers[w].phase.Verified?
      modifies this`workers, this`posts
      ensures Leads(old(Now()), Now()) && Now() == PostMade(old(Now()), w)
    {
      var k := workers[w].job;
      workers := workers[w := workers[w].(phase := Posted, posted := true)];
      posts := posts + [Post(w, k.0, k.1)];
      LeadsByStep(old(Now()), SendPost(w), now);
    }

    /** One queue delivery that no other transaction interrupts. There is no POST for a dry run, for a job that was
        already taken up, when sending is not allowed, when the session's lease was lost, or when the job's own
        lease ran out before either check; and only an explicit rejection of a started POST is a failure. */
    method Process(k: Key, ghost w: WorkerId, e: Environment)
      requires w !in workers
      modifies this`jobs, this`workers, this`posts
      ensures Leads(old(Now()), Now())
      ensures k in old(jobs) && old(jobs)[k].status.QUEUED? ==>
        && k in jobs && jobs[k].status == Outcome(old(jobs)[k].dryRun, e)
        && posts == if Sends(old(jobs)[k].dryRun, e) then old(posts) + [Post(w, k.0, k.1)] else old(posts)
      ensures k in old(jobs) && old(jobs)[k].status.QUEUED? && posts != old(posts) ==>
        && !old(jobs)[k].dryRun && e.allowed && e.kept && e.readyAt < e.takenAt + LEASE_MS && e.sendAt < e.readyAt + LEASE_MS
        && k in jobs && jobs[k].status == match e.answer case Success => ACCEPTED case Rejection => JobStatus.FAILED case Ambiguous => UNKNOWN
      ensures k in old(jobs) && old(jobs)[k].status.QUEUED? && posts == old(posts) ==>
        && k in jobs && jobs[k].status in {DRY_RUN_COMPLETED, JobStatus.FAILED, PROCESSING}
        && (jobs[k].status == DRY_RUN_COMPLETED <==> old(jobs)[k].dryRun)
        && (jobs[k].status == PROCESSING ==> e.readyAt >= e.takenAt + LEASE_MS || e.sendAt >= e.readyAt + LEASE_MS)
      ensures !(k in old(jobs) && old(jobs)[k].status.QUEUED?) ==> Now() == old(Now())
    {
      var job := MarkJobProcessing(k, w, e.takenAt);
      if job.None? {
        return;
      }
      ghost var taken := Now();
      if job.value.dryRun {
        UpdateResult(k, w, DRY_RUN_COMPLETED, e.takenAt);
      } else if !e.allowed {
        UpdateResult(k, w, JobStatus.FAILED, e.takenAt);
      } else {
        SendUnderLease(k, w, e);
      }
      LeadsOn(old(Now()), taken, Now());
    }

    /** The check on acquiring the session, its renewal before the POST, and the last check. */
    method SendUnderLease(k: Key, ghost w: WorkerId, e: Environment)
      requires w in workers && workers[w] == Worker(k, false, Started, false) && e.allowed
      requires k in jobs && jobs[k].status.PROCESSING? && jobs[k].leaseExpiresAt == Some(e.takenAt + LEASE_MS)
      modifies this`jobs, this`workers, this`posts
      ensures Leads(old(Now()), Now())
      ensures k in jobs && jobs[k].status == Outcome(false, e)
      ensures posts == if Sends(false, e) then old(posts) + [Post(w, k.0, k.1)] else old(posts)
    {
      var ready := RefreshLease(k, w, false, e.readyAt);
      if !ready {
        return;
      }
      ghost var acquired := Now();
      if !e.kept {
        UpdateResult(k, w, JobStatus.FAILED, e.sendAt);
      } else {
        Send(k, w, e);
      }
      LeadsOn(old(Now()), acquired, Now());
    }

    /** The last check, the POST and its classification. */
    method Send(k: Key, ghost w: WorkerId, e: Environment)
      requires w in workers && workers[w] == Worker(k, false, Started, false) && e.allowed && e.kept
      requires k in jobs && jobs[k].status.PROCESSING? && jobs[k].leaseExpiresAt == Some(e.readyAt + LEASE_MS)
      requires e.takenAt + LEASE_MS > e.readyAt
      modifies this`jobs, this`workers, this`posts
      ensures Leads(old(Now()), Now())
      ensures k in jobs && jobs[k].status == Outcome(false, e)
      ensures posts == if Sends(false, e) then old(posts) + [Post(w, k.0, k.1)] else old(posts)
    {
      var alive := RefreshLease(k, w, true, e.sendAt);
      if !alive {
        return;
      }
      ghost var checked := Now();
      RememberPost(w, e.sendAt);
      LeadsOn(old(Now()), checked, Now());
      ghost var posted := Now();
      UpdateResult(k, w, AnswerStatus(e.answer), e.sendAt);
      LeadsOn(old(Now()), posted, Now());
    }

    /** Every job whose lease ran out in processing is unknown from now on, and no other changes. */
    method MarkExpiredUnknown(now: Instant) returns (count: nat)
      modifies this`jobs
      ensures Leads(old(Now()), Now())
      ensures jobs == map k | k in old(jobs) ::
        if LeaseExpired(old(jobs)[k], now) then old(jobs)[k].(status := UNKNOWN, leaseExpiresAt := None) else old(jobs)[k]
      ensures count == |set k | k in old(jobs) && LeaseExpired(old(jobs)[k], now)|
    {
      LeadsNowhere(Now());
      var expired := set k | k in jobs && LeaseExpired(jobs[k], now);
      assert expired == set k | k in old(jobs) && LeaseExpired(old(jobs)[k], now);
      count := |expired|;
      var todo := expired;
      while todo != {}
        invariant Leads(old(Now()), Now()) && todo <= expired && jobs.Keys == old(jobs.Keys)
        invariant forall k :: k in jobs ==>
          jobs[k] == if k in expired - todo then old(jobs)[k].(status := UNKNOWN, leaseExpiresAt := None) else old(jobs)[k]
      {
        var k :| k in todo;
        ghost var before := Now();
        ExpireOne(k, now);
        LeadsOn(old(Now()), before, Now());
        todo := todo - {k};
      }
    }

    method ExpireOne(k: Key, now: Instant)
      requires k in jobs && LeaseExpired(jobs[k], now)
      modifies this`jobs
      ensures Leads(old(Now()), Now())
      ensures jobs == old(jobs)[k := old(jobs)[k].(status := UNKNOWN, leaseExpiresAt := None)]
    {
      jobs := jobs[k := jobs[k].(status := UNKNOWN, leaseExpiresAt := None)];
      LeadsByStep(old(Now()), Expire(k), now);
      assert Now() == After(old(Now()), Expire(k), now);
    }

    /** A webhook may only raise the rank of an accepted message, or fail one that is not beyond acceptance. */
    method UpdateStatusByMessageId(k: Key, status: JobStatus, now: Instant)
      modifies this`jobs
      ensures Leads(old(Now()), Now())
      ensures jobs == if k in old(jobs) && old(jobs)[k].messageId && O.Supersedes(old(jobs)[k].status, status)
                      then old(jobs)[k := old(jobs)[k].(status := status)] else old(jobs)
    {
      LeadsNowhere(Now());
      if k in jobs { O.WebhooksSupersede(jobs[k], status); }
      if k in jobs && jobs[k].messageId {
        var present := jobs[k].status;
        if present != JobStatus.FAILED && present != JobStatus.CANCELLED && present != DRY_RUN_COMPLETED {
          var applies := if status == JobStatus.FAILED then IsActiveJob(present) || present == ACCEPTED || present == UNKNOWN
                         else Rank(status) > Rank(present);
          if applies {
            WebhookLeads(Now(), k, status, now);
            jobs := jobs[k := jobs[k].(status := status)];
          }
        }
      }
    }

    // ---------------------------------------------------------------------------------------------
    // Retention

    method DeleteCampaignRun(r: RunId, now: Instant)
      requires r in runs && runs[r].status in {COMPLETED, PARTIAL_FAILED, RunStatus.CANCELLED, RunStatus.FAILED}
      modifies this`runs, this`deliveries
      ensures Now() == After(old(Now()), RetireRun(r), now)
    {
      runs := runs - {r};
      deliveries := deliveries - set k | k in deliveries && k.0 == r;
      assert deliveries == old(deliveries) - DeliveriesOf(old(Now()), r);
    }

    method DeleteMessageJob(k: Key, now: Instant) returns (deleted: bool)
      modifies this`jobs
      ensures deleted <==>
        && k in old(jobs) && old(jobs)[k].status !in {JobStatus.SCHEDULED, QUEUED, PROCESSING}
        && !(k in deliveries && deliveries[k].hasJob)
      ensures Now() == After(old(Now()), RetireJob(k), now)
    {
      deleted := k in jobs && !IsActiveJob(jobs[k].status) && !(k in deliveries && deliveries[k].hasJob);
      if deleted {
        jobs := jobs - {k};
      }
    }

    // ---------------------------------------------------------------------------------------------
    // The reconciliation script

    /** Refuses when a campaign has several live runs; otherwise sets every campaign to what its single live
        run implies. */
    method ApplyReconciliation() returns (applied: bool, updated: nat)
      modifies this`campaigns
      ensures applied <==> R.Duplicated(old(Now())) == {}
      ensures Now() == if applied then R.Reconciled(old(Now())) else old(Now())
      ensures updated == |Changed(old(campaigns), campaigns)|
    {
      var duplicated := set c | c in campaigns && |LiveRunsOf(c)| > 1;
      assert duplicated == R.Duplicated(Now());
      if duplicated != {} {
        assert Changed(old(campaigns), campaigns) == {};
        return false, 0;
      }
      updated := ReconcileAll();
      applied := true;
    }

    method ReconcileAll() returns (updated: nat)
      modifies this`campaigns
      ensures campaigns == R.Reconciled(old(Now())).campaigns
      ensures updated == |Changed(old(campaigns), campaigns)|
    {
      updated := 0;
      var todo := campaigns.Keys;
      assert Changed(old(campaigns), campaigns) == {};
      while todo != {}
        invariant todo <= campaigns.Keys == old(campaigns.Keys)
        invariant forall c :: c in campaigns ==>
          campaigns[c] == if c in todo then old(campaigns)[c] else R.Reconciled(old(Now())).campaigns[c]
        invariant updated == |Changed(old(campaigns), campaigns)|
      {
        var c :| c in todo;
        ghost var before := campaigns;
        SameDesired(old(Now()), Now(), c);
        var changed := ReconcileCampaign(c);
        ChangedByOne(old(campaigns), before, campaigns, c);
        updated := if changed then updated + 1 else updated;
        todo := todo - {c};
      }
    }

    method ReconcileCampaign(c: CampaignId) returns (changed: bool)
      requires c in campaigns
      modifies this`campaigns
      ensures campaigns == old(campaigns)[c := old(campaigns)[c].(status := R.DesiredStatus(old(Now()), c))]
      ensures changed <==> campaigns[c] != old(campaigns)[c]
    {
      var live := LiveRunsOf(c);
      changed := false;
      if |live| == 1 {
        var r :| r in live;
        assert live == {r} by { assert |live - {r}| == 0; }
        R.SingleIsOnly(Now(), c, r);
        var status := R.Desired(runs[r].status, campaigns[c].status);
        changed := status != campaigns[c].status;
        campaigns := campaigns[c := campaigns[c].(status := status)];
      } else {
        NotSingle(Now(), c);
      }
    }

    function LiveRunsOf(c: CampaignId): set<RunId>
      reads this
      ensures LiveRunsOf(c) == R.LiveRuns(Now(), c)
    {
      set r | r in runs && runs[r].mode == LIVE && runs[r].campaign == c
    }
  }

  /** The job's lease still holds at each check. */
  predicate StaysAlive(e: Environment) {
    e.readyAt < e.takenAt + LEASE_MS && e.sendAt < e.readyAt + LEASE_MS
  }

  predicate Sends(dryRun: bool, e: Environment) {
    !dryRun && e.allowed && e.kept && StaysAlive(e)
  }

  /** Whether the call gives up because its job is no longer its own; the expiry of the lease settles it then. */
  predicate IsSkipped(e: Environment) {
    e.readyAt >= e.takenAt + LEASE_MS || (e.kept && e.sendAt >= e.readyAt + LEASE_MS)
  }

  /** What a processed job ends as. */
  function Outcome(dryRun: bool, e: Environment): JobStatus {
    if dryRun then DRY_RUN_COMPLETED
    else if !e.allowed then JobStatus.FAILED
    else if IsSkipped(e) then PROCESSING
    else if !e.kept then JobStatus.FAILED
    else AnswerStatus(e.answer)
  }

  function AnswerStatus(answer: Upstream): JobStatus {
    match answer
    case Success => ACCEPTED
    case Rejection => JobStatus.FAILED
    case Ambiguous => UNKNOWN
  }

  predicate LeaseExpired(job: Job, now: Instant) {
    job.status.PROCESSING? && job.leaseExpiresAt.Some? && job.leaseExpiresAt.value < now
  }

  /** The delivery's job has got past the queue. */
  predicate MustShow(deliveries: map<Key, Delivery>, jobs: map<Key, Job>, k: Key)
    requires k in deliveries
  {
    deliveries[k].hasJob && k in jobs && !jobs[k].status.SCHEDULED? && !jobs[k].status.QUEUED?
  }

  lemma WebhookLeads(s: State, k: Key, status: JobStatus, at: Instant)
    requires k in s.jobs && WebhookApplies(s.jobs[k], status)
    ensures Leads(s, SetJob(s, k, status))
  {
    LeadsByStep(s, Webhook(k, status), at);
  }

  lemma CancelLeads(s: State, r: RunId, at: Instant)
    requires r in s.runs && !IsTerminal(s.runs[r].status)
    ensures Leads(s, Cancelled(s, r))
  {
    LeadsByStep(s, Cancel(r), at);
  }

  /** A report on stale input gives the claim back. */
  function SetBack(s: State, r: RunId, at: Instant): State
    requires r in s.runs
  {
    SetPreparation(s, r, if s.runs[r].attempts > 0 then s.runs[r].attempts - 1 else 0, at, None)
  }

  /** A blocking report blocks the run, any other starts it with a delivery per target. */
  function Reported(s: State, r: RunId, blocked: bool, at: Instant): State
    requires r in s.runs
  {
    var t := SetPreparation(s, r, s.runs[r].attempts, s.runs[r].nextAttemptAt, None);
    if blocked then Kept(t, r, BLOCKED) else Kept(WithDeliveries(t, r), r, StartStatus(s.runs[r], at))
  }

  lemma ReportLeads(s: State, r: RunId, token: nat, blocked: bool, at: Instant)
    requires OwnsPreparation(s, r, token, at)
    ensures Leads(s, SetBack(s, r, at)) && Leads(s, Reported(s, r, blocked, at))
  {
    LeadsByStep(s, StalePreflight(r, token), at);
    LeadsByStep(s, ApplyPreflight(r, token, blocked), at);
  }

  lemma SettleLeads(s: State, w: WorkerId, result: JobStatus, at: Instant)
    requires w in s.workers && MayRecord(s.workers[w], result)
    ensures Leads(s, Recorded(s, w, result))
  {
    LeadsByStep(s, Settle(w, result), at);
  }

  lemma SameInsertion(s: State, r: RunId, deliveries: map<Key, Delivery>)
    requires r in s.runs && s.deliveries.Keys <= deliveries.Keys
    requires forall k :: k in deliveries ==> k in s.deliveries || (k.0 == r && k.1 in s.runs[r].targets)
    requires forall g :: g in s.runs[r].targets ==> (r, g) in deliveries
    requires forall k :: k in deliveries ==> deliveries[k] == if k in s.deliveries then s.deliveries[k] else Delivery(PENDING, false)
    ensures deliveries == WithDeliveries(s, r).deliveries
  {
    var expected := WithDeliveries(s, r).deliveries;
    forall k ensures k in deliveries <==> k in expected {
      if k in deliveries && k !in s.deliveries { assert k == (r, k.1); }
    }
  }

  lemma MaterializeLeads(s: State, k: Key, changed: bool, at: Instant)
    requires k.0 in s.runs && s.runs[k.0].status.RUNNING? && k in s.deliveries && s.deliveries[k].status.PENDING?
    requires |Buffered(s, k.0)| < MAX_BUFFERED
    ensures Leads(s, Materialized(s, k, changed))
  {
    LeadsByStep(s, Materialize(k.0, k.1, changed), at);
  }

  lemma MaterializedBuffer(s: State, k: Key, changed: bool)
    requires k in s.deliveries && k.0 in s.runs
    ensures |Buffered(Materialized(s, k, changed), k.0)|
            <= |Buffered(s, k.0)| + (if s.runs[k.0].mode.LIVE? && changed then 0 else 1)
  {
    var t := Materialized(s, k, changed);
    if s.runs[k.0].mode.LIVE? && changed {
      SubsetCardinality(Buffered(t, k.0), Buffered(s, k.0));
    } else {
      SubsetCardinality(Buffered(t, k.0), Buffered(s, k.0) + {k});
    }
  }

  /** The groups whose deliveries of the run still wait. */
  function PendingOf(s: State, r: RunId): set<Group> {
    set k | k in s.deliveries && k.0 == r && s.deliveries[k].status.PENDING? :: k.1
  }

  function FreeSlots(s: State, r: RunId): nat {
    if |Buffered(s, r)| < MAX_BUFFERED then MAX_BUFFERED - |Buffered(s, r)| else 0
  }

  /** A changed capability blocks a delivery of a live run. */
  function BlockedOf(s: State, r: RunId, changed: set<Group>): set<Group>
    requires r in s.runs
  {
    if s.runs[r].mode.LIVE? then changed else {}
  }

  /** The deliveries of `handled` are blocked or get a job, and nothing else changes. */
  function Filled(s: State, r: RunId, handled: set<Group>, changed: set<Group>): State
    requires r in s.runs
  {
    s.(deliveries := map k | k in s.deliveries :: FilledDelivery(s, r, k, handled, changed),
       jobs := s.jobs + NewJobs(s, r, handled - BlockedOf(s, r, changed)))
  }

  lemma FilledByNone(s: State, r: RunId, changed: set<Group>)
    requires r in s.runs
    ensures Filled(s, r, {}, changed) == s && |{} - BlockedOf(s, r, changed)| == 0
  {
    assert {} - BlockedOf(s, r, changed) == {};
    assert Filled(s, r, {}, changed).deliveries == s.deliveries && Filled(s, r, {}, changed).jobs == s.jobs;
  }

  function FilledDelivery(s: State, r: RunId, k: Key, handled: set<Group>, changed: set<Group>): Delivery
    requires r in s.runs && k in s.deliveries
  {
    if k.0 != r || k.1 !in handled then s.deliveries[k]
    else if k.1 in BlockedOf(s, r, changed) then s.deliveries[k].(status := BLOCKED_CAPABILITY_CHANGED)
    else Delivery(MATERIALIZED, true)
  }

  lemma FilledByOne(s: State, r: RunId, done: set<Group>, g: Group, changed: set<Group>)
    requires r in s.runs && g !in done && g in PendingOf(s, r)
    ensures (r, g) in s.deliveries && Filled(s, r, done, changed).deliveries[(r, g)].status.PENDING?
    ensures Materialized(Filled(s, r, done, changed), (r, g), g in changed) == Filled(s, r, done + {g}, changed)
  {
    DeliveriesByOne(s, r, done, g, changed);
    JobsByOne(s, r, done, g, changed);
  }

  lemma DeliveriesByOne(s: State, r: RunId, done: set<Group>, g: Group, changed: set<Group>)
    requires r in s.runs && g !in done && g in PendingOf(s, r)
    ensures (r, g) in s.deliveries && Filled(s, r, done, changed).deliveries[(r, g)].status.PENDING?
    ensures Materialized(Filled(s, r, done, changed), (r, g), g in changed).deliveries == Filled(s, r, done + {g}, changed).deliveries
  {
    assert (r, g) in s.deliveries && s.deliveries[(r, g)].status.PENDING?;
    forall k | k in s.deliveries
      ensures FilledDelivery(s, r, k, done + {g}, changed)
              == if k == (r, g) then FilledDelivery(s, r, k, {g}, changed) else FilledDelivery(s, r, k, done, changed)
    {
      OneMoreFilled(s, r, k, done, g, changed);
    }
    assert FilledDelivery(s, r, (r, g), {g}, changed)
           == if g in BlockedOf(s, r, changed) then s.deliveries[(r, g)].(status := BLOCKED_CAPABILITY_CHANGED) else Delivery(MATERIALIZED, true);
  }

  lemma OneMoreFilled(s: State, r: RunId, k: Key, done: set<Group>, g: Group, changed: set<Group>)
    requires r in s.runs && k in s.deliveries && g !in done
    ensures FilledDelivery(s, r, k, done + {g}, changed)
            == if k == (r, g) then FilledDelivery(s, r, k, {g}, changed) else FilledDelivery(s, r, k, done, changed)
  {
    assert k == (k.0, k.1);
  }

  /** The jobs that `handled` adds. */
  function NewJobs(s: State, r: RunId, added: set<Group>): map<Key, Job>
    requires r in s.runs
  {
    map g | g in added && (r, g) !in s.jobs :: (r, g) := Job(JobStatus.SCHEDULED, s.runs[r].mode.DRY_RUN?, 0, None, false)
  }

  lemma JobsByOne(s: State, r: RunId, done: set<Group>, g: Group, changed: set<Group>)
    requires r in s.runs && g !in done && g in PendingOf(s, r)
    ensures (r, g) in s.deliveries
    ensures Materialized(Filled(s, r, done, changed), (r, g), g in changed).jobs == Filled(s, r, done + {g}, changed).jobs
  {
    var blocked := BlockedOf(s, r, changed);
    assert (r, g) in s.deliveries;
    if g in blocked {
      assert done + {g} - blocked == done - blocked;
    } else {
      assert done + {g} - blocked == (done - blocked) + {g};
      NewJobsByOne(s, r, done - blocked, g);
    }
  }

  lemma NewJobsByOne(s: State, r: RunId, added: set<Group>, g: Group)
    requires r in s.runs && g !in added
    ensures var row := Job(JobStatus.SCHEDULED, s.runs[r].mode.DRY_RUN?, 0, None, false);
      s.jobs + NewJobs(s, r, added + {g})
      == if (r, g) in s.jobs then s.jobs + NewJobs(s, r, added) else (s.jobs + NewJobs(s, r, added))[(r, g) := row]
    ensures (r, g) in s.jobs + NewJobs(s, r, added) <==> (r, g) in s.jobs
  {
    if (r, g) in s.jobs {
      assert NewJobs(s, r, added + {g}) == NewJobs(s, r, added);
    } else {
      var row := Job(JobStatus.SCHEDULED, s.runs[r].mode.DRY_RUN?, 0, None, false);
      assert NewJobs(s, r, added + {g}) == NewJobs(s, r, added)[(r, g) := row];
    }
  }

  function KeysOf(r: RunId, groups: set<Group>): set<Key> {
    set g | g in groups :: (r, g)
  }

  lemma {:induction false} KeysCount(r: RunId, groups: set<Group>)
    ensures |KeysOf(r, groups)| == |groups|
  {
    if g :| g in groups {
      KeysCount(r, groups - {g});
      assert KeysOf(r, groups) == KeysOf(r, groups - {g}) + {(r, g)} && (r, g) !in KeysOf(r, groups - {g});
    }
  }

  /** Where pending deliveries have no job yet, as in every reachable state, filling leaves the buffer full or no
      delivery pending, unless a blocked one used up a slot. */
  lemma FillingIsComplete(s: State, r: RunId, handled: set<Group>, changed: set<Group>)
    requires r in s.runs && |Buffered(s, r)| <= MAX_BUFFERED && forall g :: g in PendingOf(s, r) ==> (r, g) !in s.jobs
    requires handled <= PendingOf(s, r) && |handled| == Lesser(FreeSlots(s, r), |PendingOf(s, r)|)
    ensures var t := Filled(s, r, handled, changed);
            |Buffered(t, r)| == MAX_BUFFERED || PendingOf(t, r) == {} || handled * BlockedOf(s, r, changed) != {}
  {
    if handled * BlockedOf(s, r, changed) == {} {
      NothingShared(handled, BlockedOf(s, r, changed));
      var t := Filled(s, r, handled, changed);
      FilledBuffer(s, r, handled, changed);
      KeysCount(r, handled);
      assert |Buffered(s, r) + KeysOf(r, handled)| == |Buffered(s, r)| + |KeysOf(r, handled)|;
      if |handled| == |PendingOf(s, r)| {
        SameSize(handled, PendingOf(s, r));
        NoneLeft(s, r, changed);
      }
    }
  }

  lemma NothingShared(a: set<Group>, b: set<Group>)
    requires a * b == {}
    ensures a !! b
  {
    assert forall g :: g in a && g in b ==> g in a * b;
  }

  lemma NoneLeft(s: State, r: RunId, changed: set<Group>)
    requires r in s.runs
    ensures PendingOf(Filled(s, r, PendingOf(s, r), changed), r) == {}
  {
    var t := Filled(s, r, PendingOf(s, r), changed);
    forall k | k in t.deliveries && k.0 == r ensures !t.deliveries[k].status.PENDING? {
      if s.deliveries[k].status.PENDING? { assert k.1 in PendingOf(s, r); }
    }
  }

  lemma FilledBuffer(s: State, r: RunId, handled: set<Group>, changed: set<Group>)
    requires r in s.runs && handled <= PendingOf(s, r) && handled !! BlockedOf(s, r, changed)
    requires forall g :: g in PendingOf(s, r) ==> (r, g) !in s.jobs
    ensures Buffered(Filled(s, r, handled, changed), r) == Buffered(s, r) + KeysOf(r, handled)
    ensures Buffered(s, r) !! KeysOf(r, handled)
  {
    var t := Filled(s, r, handled, changed);
    forall k ensures k in Buffered(t, r) <==> k in Buffered(s, r) || k in KeysOf(r, handled) {
      assert k == (k.0, k.1);
      if k.0 == r && k.1 in handled { assert k in KeysOf(r, handled) && k in s.deliveries; }
    }
  }

  lemma SamePending(s: State, r: RunId, pending: set<Group>)
    requires pending == set k | k in s.deliveries && k.0 == r && s.deliveries[k].status == PENDING :: k.1
    ensures pending == PendingOf(s, r)
  {
  }

  lemma ChosenExactly(candidates: set<Group>, chosen: set<Group>, limit: nat)
    requires chosen <= candidates && |chosen| <= limit && (|chosen| < limit ==> chosen == candidates)
    ensures |chosen| == Lesser(limit, |candidates|)
  {
    SubsetCardinality(chosen, candidates);
  }

  /** Of the `chosen` deliveries all but `todo` have been handled since `start`, and so many of them materialized. */
  ghost predicate HasFilled(start: State, s: State, r: RunId, chosen: set<Group>, todo: set<Group>, changed: set<Group>, materialized: nat) {
    && r in start.runs && start.runs[r].status.RUNNING? && |Buffered(start, r)| + |chosen| <= MAX_BUFFERED
    && todo <= chosen <= PendingOf(start, r)
    && Leads(start, s) && s == Filled(start, r, chosen - todo, changed)
    && |Buffered(s, r)| <= |Buffered(start, r)| + |chosen - todo| && materialized == |chosen - todo - BlockedOf(start, r, changed)|
  }

  lemma NothingFilled(s: State, r: RunId, chosen: set<Group>, changed: set<Group>)
    requires r in s.runs && s.runs[r].status.RUNNING? && |Buffered(s, r)| + |chosen| <= MAX_BUFFERED && chosen <= PendingOf(s, r)
    ensures HasFilled(s, s, r, chosen, chosen, changed, 0)
  {
    LeadsNowhere(s);
    FilledByNone(s, r, changed);
    assert chosen - chosen == {};
  }

  lemma NextIsPending(start: State, s: State, r: RunId, chosen: set<Group>, todo: set<Group>, g: Group, changed: set<Group>, count: nat)
    requires HasFilled(start, s, r, chosen, todo, changed, count) && g in todo
    ensures r in s.runs && s.runs[r] == start.runs[r] && |Buffered(s, r)| < MAX_BUFFERED
    ensures (r, g) in s.deliveries && s.deliveries[(r, g)].status.PENDING?
  {
    RoomLeft(chosen, chosen - todo, g);
    FilledByOne(start, r, chosen - todo, g, changed);
  }

  lemma NextIsFilled(start: State, s: State, t: State, r: RunId, chosen: set<Group>, todo: set<Group>, g: Group,
                     changed: set<Group>, count: nat)
    requires HasFilled(start, s, r, chosen, todo, changed, count) && g in todo
    requires r in s.runs && (r, g) in s.deliveries && t == Materialized(s, (r, g), g in changed) && Leads(s, t)
    requires |Buffered(t, r)| <= |Buffered(s, r)| + 1
    ensures HasFilled(start, t, r, chosen, todo - {g}, changed, if g in BlockedOf(start, r, changed) then count else count + 1)
  {
    LeadsOn(start, s, t);
    FilledByOne(start, r, chosen - todo, g, changed);
    NextIsCounted(chosen, todo, g, BlockedOf(start, r, changed));
  }

  lemma NextIsCounted(chosen: set<Group>, todo: set<Group>, g: Group, blocked: set<Group>)
    requires g in todo && todo <= chosen
    ensures chosen - (todo - {g}) == chosen - todo + {g} && |chosen - todo + {g}| == |chosen - todo| + 1
    ensures |chosen - (todo - {g}) - blocked| == |chosen - todo - blocked| + (if g in blocked then 0 else 1)
  {
    assert chosen - (todo - {g}) == chosen - todo + {g};
    CountOneMore(chosen - todo, g, blocked);
  }

  lemma RoomLeft(chosen: set<Group>, done: set<Group>, g: Group)
    requires done <= chosen && g in chosen && g !in done
    ensures |done| < |chosen|
  {
    SubsetCardinality(done + {g}, chosen);
  }

  lemma CountOneMore(done: set<Group>, g: Group, blocked: set<Group>)
    requires g !in done
    ensures |done + {g}| == |done| + 1 && |done + {g} - blocked| == |done - blocked| + (if g in blocked then 0 else 1)
  {
    if g in blocked {
      assert done + {g} - blocked == done - blocked;
    } else {
      assert done + {g} - blocked == (done - blocked) + {g};
    }
  }

  function Changed(a: map<CampaignId, Campaign>, b: map<CampaignId, Campaign>): set<CampaignId> {
    set c | c in a && c in b && a[c] != b[c]
  }

  lemma ChangedByOne(start: map<CampaignId, Campaign>, a: map<CampaignId, Campaign>, b: map<CampaignId, Campaign>, c: CampaignId)
    requires c in start && c in b && a.Keys == start.Keys && a[c] == start[c] && b == a[c := b[c]]
    ensures |Changed(start, b)| == |Changed(start, a)| + if b[c] != a[c] then 1 else 0
  {
    if b[c] != a[c] {
      assert Changed(start, b) == Changed(start, a) + {c};
    } else {
      assert b == a;
    }
  }

  /** What a campaign should be depends on its runs and its own status only. */
  lemma SameDesired(s: State, t: State, c: CampaignId)
    requires c in s.campaigns && c in t.campaigns && s.campaigns[c] == t.campaigns[c] && s.runs == t.runs
    ensures R.DesiredStatus(s, c) == R.DesiredStatus(t, c)
  {
    assert R.LiveRuns(s, c) == R.LiveRuns(t, c);
    if R.SingleLive(s, c).Some? {
      R.SingleIsOnly(t, c, R.SingleLive(s, c).value);
    }
  }

  lemma NotSingle(s: State, c: CampaignId)
    requires |R.LiveRuns(s, c)| != 1
    ensures R.SingleLive(s, c) == None
  {
    forall r ensures R.LiveRuns(s, c) != {r} { assert |{r}| == 1; }
  }
}
