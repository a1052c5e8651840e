/** What every reachable state of the campaign pipeline keeps, and what follows: at most one POST per campaign
    and group, and a campaign status that always matches its live run. */
module CampaignSafety {
  import opened Options
  import opened Campaigns

  // ---------------------------------------------------------------------------------------------
  // Campaigns and runs

  /** The correspondence between a live run and its campaign. */
  predicate Matches(run: RunStatus, campaign: CampaignStatus) {
    match run
    case PREPARING => campaign.ACTIVE?
    case SCHEDULED => campaign.ACTIVE?
    case RUNNING => campaign.ACTIVE?
    case PAUSED => campaign.PAUSED?
    case BLOCKED => campaign.ACTIVE? || campaign.PAUSED?
    case _ => campaign.ARCHIVED?
  }

  predicate RunOk(s: State, r: RunId)
    requires r in s.runs
  {
    && r in s.launched && s.launched[r] == Launched(s.runs[r].campaign, s.runs[r].mode, s.runs[r].targets)
    && (s.runs[r].mode.LIVE? && s.runs[r].campaign in s.campaigns ==> Matches(s.runs[r].status, s.campaigns[s.runs[r].campaign].status))
  }

  /** A launched campaign never returns to draft, and is archived once its live run is gone. */
  predicate LaunchOk(s: State, r: RunId)
    requires r in s.launched
  {
    && s.launched[r].campaign in s.campaigns
    && (s.launched[r].mode.LIVE? ==>
          && !s.campaigns[s.launched[r].campaign].status.DRAFT?
          && (r !in s.runs ==> s.campaigns[s.launched[r].campaign].status.ARCHIVED?))
  }

  predicate IsLiveRunOf(s: State, r: RunId, c: CampaignId) {
    r in s.launched && s.launched[r].mode.LIVE? && s.launched[r].campaign == c
  }

  ghost predicate LifecycleOk(s: State) {
    && (forall r :: r in s.runs ==> RunOk(s, r))
    && (forall r :: r in s.launched ==> LaunchOk(s, r))
    && (forall r, o, c :: IsLiveRunOf(s, r, c) && IsLiveRunOf(s, o, c) ==> r == o)
    && (forall c :: c in s.campaigns && !s.campaigns[c].status.DRAFT? ==> exists r :: IsLiveRunOf(s, r, c))
  }

  /** A step that moves run `r` and at most its own campaign, keeping the two in correspondence. */
  predicate MovesRun(s: State, t: State, r: RunId)
    requires r in s.runs && r in t.runs
  {
    var c := s.runs[r].campaign;
    && t.launched == s.launched && t.runs.Keys == s.runs.Keys && t.campaigns.Keys == s.campaigns.Keys
    && (forall o :: o in s.runs && o != r ==> t.runs[o] == s.runs[o])
    && t.runs[r].campaign == c && t.runs[r].mode == s.runs[r].mode && t.runs[r].targets == s.runs[r].targets
    && (forall x :: x in s.campaigns && x != c ==> t.campaigns[x] == s.campaigns[x])
    && (s.runs[r].mode.DRY_RUN? ==> t.campaigns == s.campaigns)
    && (s.runs[r].mode.LIVE? && c in s.campaigns ==>
          !t.campaigns[c].status.DRAFT? && Matches(t.runs[r].status, t.campaigns[c].status))
  }

  lemma MoveKeeps(s: State, t: State, r: RunId)
    requires LifecycleOk(s) && r in s.runs && r in t.runs && MovesRun(s, t, r)
    ensures LifecycleOk(t)
  {
    assert RunOk(s, r) && LaunchOk(s, r);
    forall o | o in t.runs ensures RunOk(t, o) { MoveKeepsRun(s, t, r, o); }
    forall o | o in t.launched ensures LaunchOk(t, o) { MoveKeepsLaunch(s, t, r, o); }
    forall o, x, c | IsLiveRunOf(t, o, c) && IsLiveRunOf(t, x, c) ensures o == x {
      assert IsLiveRunOf(s, o, c) && IsLiveRunOf(s, x, c);
    }
    forall c | c in t.campaigns && !t.campaigns[c].status.DRAFT? ensures exists o :: IsLiveRunOf(t, o, c) {
      if c == s.runs[r].campaign && s.runs[r].mode.LIVE? {
        assert IsLiveRunOf(t, r, c);
      } else {
        var o :| IsLiveRunOf(s, o, c);
        assert IsLiveRunOf(t, o, c);
      }
    }
  }

  lemma MoveKeepsRun(s: State, t: State, r: RunId, o: RunId)
    requires LifecycleOk(s) && r in s.runs && r in t.runs && MovesRun(s, t, r) && o in t.runs
    ensures RunOk(t, o)
  {
    assert RunOk(s, o) && RunOk(s, r);
    if o != r && s.runs[o].mode.LIVE? && s.runs[o].campaign == s.runs[r].campaign && s.runs[r].mode.LIVE? {
      assert IsLiveRunOf(s, o, s.runs[r].campaign) && IsLiveRunOf(s, r, s.runs[r].campaign);
      assert false;
    }
  }

  lemma MoveKeepsLaunch(s: State, t: State, r: RunId, o: RunId)
    requires LifecycleOk(s) && r in s.runs && r in t.runs && MovesRun(s, t, r) && o in t.launched
    ensures LaunchOk(t, o)
  {
    assert LaunchOk(s, o) && RunOk(s, r) && LaunchOk(s, r);
    var c := s.runs[r].campaign;
    if s.launched[o].mode.LIVE? && s.launched[o].campaign == c && s.runs[r].mode.LIVE? {
      assert IsLiveRunOf(s, o, c) && IsLiveRunOf(s, r, c);
    }
  }

  lemma LaunchKeeps(s: State, c: CampaignId, r: RunId, mode: Mode, key: nat, at: Instant)
    requires LifecycleOk(s) && TakesEffect(s, Launch(c, r, mode, key), at)
    ensures LifecycleOk(After(s, Launch(c, r, mode, key), at))
  {
    var t := After(s, Launch(c, r, mode, key), at);
    NoLiveRunWhileDraft(s, c);
    forall o | o in t.runs ensures RunOk(t, o) { if o != r { assert RunOk(s, o) && LaunchOk(s, o); } }
    forall o | o in t.launched ensures LaunchOk(t, o) { if o != r { assert LaunchOk(s, o); } }
    forall o, x, d | IsLiveRunOf(t, o, d) && IsLiveRunOf(t, x, d) ensures o == x {
      if o != r { assert IsLiveRunOf(s, o, d); }
      if x != r { assert IsLiveRunOf(s, x, d); }
    }
    forall d | d in t.campaigns && !t.campaigns[d].status.DRAFT? ensures exists o :: IsLiveRunOf(t, o, d) {
      if d == c {
        assert IsLiveRunOf(t, r, c);
      } else {
        var o :| IsLiveRunOf(s, o, d);
        assert IsLiveRunOf(t, o, d);
      }
    }
  }

  lemma NoLiveRunWhileDraft(s: State, c: CampaignId)
    requires LifecycleOk(s) && c in s.campaigns && s.campaigns[c].status.DRAFT?
    ensures forall r :: !IsLiveRunOf(s, r, c)
  {
    forall r ensures !IsLiveRunOf(s, r, c) { assert r in s.launched ==> LaunchOk(s, r); }
  }

  /** Steps that edit campaign rows without touching their status, or add one. */
  lemma CampaignStepKeeps(s: State, step: Step, at: Instant)
    requires LifecycleOk(s) && (step.AddCampaign? || step.ReplaceTargets? || step.DeleteCampaign?) && TakesEffect(s, step, at)
    ensures LifecycleOk(After(s, step, at))
  {
    var t := After(s, step, at);
    forall o | o in t.runs ensures RunOk(t, o) { assert RunOk(s, o) && LaunchOk(s, o); }
    forall o | o in t.launched ensures LaunchOk(t, o) { assert LaunchOk(s, o); }
    forall o, x, c | IsLiveRunOf(t, o, c) && IsLiveRunOf(t, x, c) ensures o == x {
      assert IsLiveRunOf(s, o, c) && IsLiveRunOf(s, x, c);
    }
    forall c | c in t.campaigns && !t.campaigns[c].status.DRAFT? ensures exists o :: IsLiveRunOf(t, o, c) {
      var o :| IsLiveRunOf(s, o, c);
      assert IsLiveRunOf(t, o, c);
    }
  }

  lemma RetireRunKeeps(s: State, r: RunId, at: Instant)
    requires LifecycleOk(s) && TakesEffect(s, RetireRun(r), at)
    ensures LifecycleOk(After(s, RetireRun(r), at))
  {
    var t := After(s, RetireRun(r), at);
    assert RunOk(s, r) && LaunchOk(s, r);
    forall o | o in t.runs ensures RunOk(t, o) { assert RunOk(s, o); }
    forall o | o in t.launched ensures LaunchOk(t, o) { assert LaunchOk(s, o); }
    forall o, x, c | IsLiveRunOf(t, o, c) && IsLiveRunOf(t, x, c) ensures o == x {
      assert IsLiveRunOf(s, o, c) && IsLiveRunOf(s, x, c);
    }
    forall c | c in t.campaigns && !t.campaigns[c].status.DRAFT? ensures exists o :: IsLiveRunOf(t, o, c) {
      var o :| IsLiveRunOf(s, o, c);
      assert IsLiveRunOf(t, o, c);
    }
  }

  /** The steps that act on one run's status. */
  predicate IsRunStep(step: Step) {
    step.ClaimPreparation? || step.StalePreflight? || step.ApplyPreflight? || step.FailPreparation? || step.RecoverPreparation?
    || step.Activate? || step.Finalize? || step.Pause? || step.Suspend? || step.BlockResume? || step.Resume? || step.Cancel?
  }

  /** `u` differs from `s` in rows below the runs, and in the preparation columns of run `r`. */
  predicate SameLifecycle(s: State, u: State, r: RunId)
    requires r in s.runs
  {
    && r in u.runs && u.campaigns == s.campaigns && u.launched == s.launched && u.runs.Keys == s.runs.Keys
    && (forall o :: o in s.runs && o != r ==> u.runs[o] == s.runs[o])
    && u.runs[r].campaign == s.runs[r].campaign && u.runs[r].mode == s.runs[r].mode && u.runs[r].targets == s.runs[r].targets
    && u.runs[r].status == s.runs[r].status
  }

  /** Moving both run and campaign keeps them in correspondence if the new pair does. */
  lemma MovedMoves(s: State, u: State, r: RunId, status: RunStatus, from: set<CampaignStatus>, to: CampaignStatus)
    requires r in s.runs && RunOk(s, r) && r in s.launched && LaunchOk(s, r) && SameLifecycle(s, u, r)
    requires !to.DRAFT? && Matches(status, to)
    requires forall c: CampaignStatus :: Matches(s.runs[r].status, c) && c !in from ==> Matches(status, c)
    ensures r in Moved(u, r, status, from, to).runs && MovesRun(s, Moved(u, r, status, from, to), r)
  {
  }

  lemma KeptMoves(s: State, u: State, r: RunId, status: RunStatus)
    requires r in s.runs && RunOk(s, r) && r in s.launched && LaunchOk(s, r) && SameLifecycle(s, u, r)
    requires forall c: CampaignStatus :: Matches(s.runs[r].status, c) ==> Matches(status, c)
    ensures r in Kept(u, r, status).runs && MovesRun(s, Kept(u, r, status), r)
  {
  }

  lemma RunStepMoves(s: State, step: Step, at: Instant)
    requires LifecycleOk(s) && IsRunStep(step) && TakesEffect(s, step, at)
    ensures step.r in s.runs && step.r in After(s, step, at).runs && MovesRun(s, After(s, step, at), step.r)
  {
    assert RunOk(s, step.r) && LaunchOk(s, step.r);
    if step.ClaimPreparation? || step.StalePreflight? || step.ApplyPreflight? || step.FailPreparation? || step.RecoverPreparation? {
      PreparationMoves(s, step, at);
    } else {
      OperationMoves(s, step, at);
    }
  }

  lemma PreparationMoves(s: State, step: Step, at: Instant)
    requires step.ClaimPreparation? || step.StalePreflight? || step.ApplyPreflight? || step.FailPreparation? || step.RecoverPreparation?
    requires TakesEffect(s, step, at) && RunOk(s, step.r) && step.r in s.launched && LaunchOk(s, step.r)
    ensures step.r in After(s, step, at).runs && MovesRun(s, After(s, step, at), step.r)
  {
    var r, both := step.r, {CampaignStatus.ACTIVE, CampaignStatus.PAUSED};
    match step
    case ApplyPreflight(_, _, blocked) =>
      var u := SetPreparation(s, r, s.runs[r].attempts, s.runs[r].nextAttemptAt, None);
      if blocked { KeptMoves(s, u, r, BLOCKED); } else { KeptMoves(s, WithDeliveries(u, r), r, StartStatus(s.runs[r], at)); }
    case FailPreparation(_, _, _) =>
      MovedMoves(s, SetPreparation(s, r, s.runs[r].attempts, s.runs[r].nextAttemptAt, None), r, RunStatus.FAILED, both, ARCHIVED);
    case RecoverPreparation(_) =>
      MovedMoves(s, SetPreparation(s, r, s.runs[r].attempts, at, None), r, RunStatus.FAILED, both, ARCHIVED);
    case _ =>
  }

  lemma OperationMoves(s: State, step: Step, at: Instant)
    requires step.Activate? || step.Finalize? || step.Pause? || step.Suspend? || step.BlockResume? || step.Resume? || step.Cancel?
    requires TakesEffect(s, step, at) && RunOk(s, step.r) && step.r in s.launched && LaunchOk(s, step.r)
    ensures step.r in After(s, step, at).runs && MovesRun(s, After(s, step, at), step.r)
  {
    if step.Finalize? || step.Cancel? || step.Resume? { EndOrResumeMoves(s, step, at); } else { PauseOrStartMoves(s, step, at); }
  }

  lemma PauseOrStartMoves(s: State, step: Step, at: Instant)
    requires step.Activate? || step.Pause? || step.Suspend? || step.BlockResume?
    requires TakesEffect(s, step, at) && RunOk(s, step.r) && step.r in s.launched && LaunchOk(s, step.r)
    ensures step.r in After(s, step, at).runs && MovesRun(s, After(s, step, at), step.r)
  {
    match step
    case Activate(r) => KeptMoves(s, s, r, RUNNING);
    case BlockResume(r) => KeptMoves(s, s, r, BLOCKED);
    case Pause(r) => MovedMoves(s, s, r, RunStatus.PAUSED, {CampaignStatus.ACTIVE}, CampaignStatus.PAUSED);
    case Suspend(r) => MovedMoves(s, s, r, RunStatus.PAUSED, {CampaignStatus.ACTIVE}, CampaignStatus.PAUSED);
  }

  lemma EndOrResumeMoves(s: State, step: Step, at: Instant)
    requires step.Finalize? || step.Resume? || step.Cancel?
    requires TakesEffect(s, step, at) && RunOk(s, step.r) && step.r in s.launched && LaunchOk(s, step.r)
    ensures step.r in After(s, step, at).runs && MovesRun(s, After(s, step, at), step.r)
  {
    var both := {CampaignStatus.ACTIVE, CampaignStatus.PAUSED};
    match step
    case Finalize(r) => MovedMoves(s, s, r, After(s, step, at).runs[r].status, both, ARCHIVED);
    case Resume(r) =>
      MovedMoves(s, WithDeliveries(s, r), r, StartStatus(s.runs[r], at), {CampaignStatus.PAUSED}, CampaignStatus.ACTIVE);
    case Cancel(r) =>
      var u := WithDeliveries(s, r);
      var jobs := CancelledJobs(u, r);
      MovedMoves(s, u.(jobs := jobs, deliveries := CancelledDeliveries(u, jobs, r)), r, RunStatus.CANCELLED, both, ARCHIVED);
  }

  lemma LifecycleKeeps(s: State, step: Step, at: Instant)
    requires LifecycleOk(s)
    ensures LifecycleOk(After(s, step, at))
  {
    var t := After(s, step, at);
    if TakesEffect(s, step, at) {
      if IsRunStep(step) {
        RunStepMoves(s, step, at);
        MoveKeeps(s, t, step.r);
      } else if step.Launch? {
        LaunchKeeps(s, step.c, step.r, step.mode, step.key, at);
      } else if step.AddCampaign? || step.ReplaceTargets? || step.DeleteCampaign? {
        CampaignStepKeeps(s, step, at);
      } else if step.RetireRun? {
        RetireRunKeeps(s, step.r, at);
      } else {
        UnchangedLifecycle(s, t);
      }
    }
  }

  lemma UnchangedLifecycle(s: State, t: State)
    requires LifecycleOk(s) && t.runs == s.runs && t.campaigns == s.campaigns && t.launched == s.launched
    ensures LifecycleOk(t)
  {
    forall o | o in t.runs ensures RunOk(t, o) { assert RunOk(s, o); }
    forall o | o in t.launched ensures LaunchOk(t, o) { assert LaunchOk(s, o); }
    forall o, x, c | IsLiveRunOf(t, o, c) && IsLiveRunOf(t, x, c) ensures o == x {
      assert IsLiveRunOf(s, o, c) && IsLiveRunOf(s, x, c);
    }
    forall c | c in t.campaigns && !t.campaigns[c].status.DRAFT? ensures exists o :: IsLiveRunOf(t, o, c) {
      var o :| IsLiveRunOf(s, o, c);
      assert IsLiveRunOf(t, o, c);
    }
  }
}
