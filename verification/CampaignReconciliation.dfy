/** The lifecycle audit and the offline script that repairs campaign statuses from live runs. */
module CampaignReconciliation {
  import opened Options
  import opened Campaigns
  import opened CampaignSafety
  import opened CampaignPipeline

  function LiveRuns(s: State, c: CampaignId): set<RunId> {
    set r | r in s.runs && s.runs[r].mode.LIVE? && s.runs[r].campaign == c
  }

  predicate HasNonTerminal(s: State, c: CampaignId) {
    exists r :: r in LiveRuns(s, c) && !IsTerminal(s.runs[r].status)
  }

  predicate HasPausedOrBlocked(s: State, c: CampaignId) {
    exists r :: r in LiveRuns(s, c) && (s.runs[r].status.PAUSED? || s.runs[r].status.BLOCKED?)
  }

  /** The four ways in which a campaign's status can contradict its live runs. */
  predicate Drifts(s: State, c: CampaignId)
    requires c in s.campaigns
  {
    match s.campaigns[c].status
    case DRAFT => LiveRuns(s, c) != {}
    case ACTIVE => !HasNonTerminal(s, c)
    case PAUSED => !HasPausedOrBlocked(s, c)
    case ARCHIVED => HasNonTerminal(s, c)
  }

  predicate HasDuplicates(s: State, c: CampaignId) {
    |LiveRuns(s, c)| > 1
  }

  function Drifting(s: State): set<CampaignId> {
    set c | c in s.campaigns && Drifts(s, c)
  }

  function Duplicated(s: State): set<CampaignId> {
    set c | c in s.campaigns && HasDuplicates(s, c)
  }

  /** What the script sets, given the campaign's single live run. */
  function Desired(run: RunStatus, campaign: CampaignStatus): CampaignStatus {
    if run.PAUSED? then CampaignStatus.PAUSED
    else if run.BLOCKED? && (campaign.ACTIVE? || campaign.PAUSED?) then campaign
    else if IsTerminal(run) then ARCHIVED
    else ACTIVE
  }

  /** The live run, if there is exactly one. */
  ghost function SingleLive(s: State, c: CampaignId): Option<RunId> {
    if exists r :: LiveRuns(s, c) == {r} then (var r :| LiveRuns(s, c) == {r}; Some(r)) else None
  }

  ghost function DesiredStatus(s: State, c: CampaignId): CampaignStatus
    requires c in s.campaigns
  {
    if SingleLive(s, c).Some? then Desired(s.runs[SingleLive(s, c).value].status, s.campaigns[c].status) else s.campaigns[c].status
  }

  /** The whole update. */
  ghost function Reconciled(s: State): State {
    s.(campaigns := map c | c in s.campaigns :: s.campaigns[c].(status := DesiredStatus(s, c)))
  }

  lemma SingleIsOnly(s: State, c: CampaignId, r: RunId)
    requires LiveRuns(s, c) == {r}
    ensures SingleLive(s, c) == Some(r)
  {
    var x := SingleLive(s, c).value;
    assert LiveRuns(s, c) == {x};
    assert r in {x};
  }

  lemma SameLiveRuns(s: State, c: CampaignId)
    ensures LiveRuns(Reconciled(s), c) == LiveRuns(s, c) && SingleLive(Reconciled(s), c) == SingleLive(s, c)
  {
    if SingleLive(s, c).Some? {
      SingleIsOnly(Reconciled(s), c, SingleLive(s, c).value);
      SingleIsOnly(s, c, SingleLive(s, c).value);
    }
  }

  /** Reconciling twice is reconciling once, from any state. */
  lemma ReconcileIsIdempotent(s: State)
    ensures Reconciled(Reconciled(s)) == Reconciled(s)
  {
    var t := Reconciled(s);
    forall c | c in t.campaigns ensures DesiredStatus(t, c) == t.campaigns[c].status { SameLiveRuns(s, c); }
    assert Reconciled(t).campaigns == t.campaigns;
  }

  lemma NoLiveRun(s: State, c: CampaignId)
    requires LiveRuns(s, c) == {}
    ensures SingleLive(s, c) == None && !HasNonTerminal(s, c) && !HasPausedOrBlocked(s, c)
  {
    forall r ensures LiveRuns(s, c) != {r} { assert r !in LiveRuns(s, c); }
  }

  /** What is left to repair by hand: active or paused campaigns whose live run is gone, and campaigns with
      several live runs that already drifted. */
  lemma DriftAfterReconcile(s: State, c: CampaignId)
    requires c in s.campaigns
    ensures Drifts(Reconciled(s), c) <==>
      || (LiveRuns(s, c) == {} && (s.campaigns[c].status.ACTIVE? || s.campaigns[c].status.PAUSED?))
      || (HasDuplicates(s, c) && Drifts(s, c))
  {
    SameLiveRuns(s, c);
    if LiveRuns(s, c) == {} {
      NoLiveRun(s, c);
    } else if r :| r in LiveRuns(s, c) && LiveRuns(s, c) == {r} {
      OneLiveRun(s, c, r);
    } else {
      SeveralLiveRuns(s, c);
    }
  }

  lemma OneLiveRun(s: State, c: CampaignId, r: RunId)
    requires c in s.campaigns && LiveRuns(s, c) == {r}
    ensures !Drifts(Reconciled(s), c) && !HasDuplicates(s, c)
  {
    SingleIsOnly(s, c, r);
    SameLiveRuns(s, c);
    var t := Reconciled(s);
    assert r in LiveRuns(t, c) && forall x :: x in LiveRuns(t, c) ==> x == r;
  }

  lemma SeveralLiveRuns(s: State, c: CampaignId)
    requires c in s.campaigns && LiveRuns(s, c) != {} && forall r :: r in LiveRuns(s, c) ==> LiveRuns(s, c) != {r}
    ensures HasDuplicates(s, c) && (Drifts(Reconciled(s), c) <==> Drifts(s, c))
  {
    var r :| r in LiveRuns(s, c);
    assert LiveRuns(s, c) - {r} != {};
    assert |LiveRuns(s, c)| == |LiveRuns(s, c) - {r}| + 1;
    forall x ensures LiveRuns(s, c) != {x} { assert x in LiveRuns(s, c) || x !in LiveRuns(s, c); }
    SameLiveRuns(s, c);
  }

  /** With at most one live run a campaign, the script leaves drift exactly where an active or paused
      campaign has none. */
  lemma ReconcileRepairs(s: State, c: CampaignId)
    requires c in s.campaigns && Duplicated(s) == {}
    ensures c in Drifting(Reconciled(s)) <==>
      LiveRuns(s, c) == {} && (s.campaigns[c].status.ACTIVE? || s.campaigns[c].status.PAUSED?)
  {
    assert c !in Duplicated(s);
    DriftAfterReconcile(s, c);
  }

  /** In every reachable state the audit counts nothing and the script changes nothing. */
  lemma ReachableStatesAreClean(steps: seq<(Step, Instant)>)
    ensures Drifting(Reached(steps)) == {} && Duplicated(Reached(steps)) == {} && Reconciled(Reached(steps)) == Reached(steps)
  {
    var s := Reached(steps);
    forall c | c in s.campaigns ensures !Drifts(s, c) && !HasDuplicates(s, c) && DesiredStatus(s, c) == s.campaigns[c].status {
      CampaignIsClean(steps, c);
    }
    assert Reconciled(s).campaigns == s.campaigns;
  }

  lemma CampaignIsClean(steps: seq<(Step, Instant)>, c: CampaignId)
    requires c in Reached(steps).campaigns
    ensures var s := Reached(steps); !Drifts(s, c) && !HasDuplicates(s, c) && DesiredStatus(s, c) == s.campaigns[c].status
  {
    var s := Reached(steps);
    LiveRunExists(steps, c);
    if r :| r in LiveRuns(s, c) {
      StatusFollowsLiveRun(steps, r);
      assert LiveRuns(s, c) == {r};
      SingleIsOnly(s, c, r);
      RunIsLaunched(steps, r);
    } else {
      assert LiveRuns(s, c) == {};
      NoLiveRun(s, c);
      NoneLaunched(steps, c);
    }
  }

  lemma RunIsLaunched(steps: seq<(Step, Instant)>, r: RunId)
    requires r in Reached(steps).runs && Reached(steps).runs[r].mode.LIVE?
    ensures IsLiveRunOf(Reached(steps), r, Reached(steps).runs[r].campaign)
  {
    RunKeepsInv(steps);
    assert RunOk(Reached(steps), r);
  }

  lemma NoneLaunched(steps: seq<(Step, Instant)>, c: CampaignId)
    requires c in Reached(steps).campaigns && LiveRuns(Reached(steps), c) == {}
    ensures Reached(steps).campaigns[c].status.DRAFT? || Reached(steps).campaigns[c].status.ARCHIVED?
  {
    RunKeepsInv(steps);
    var s := Reached(steps);
    LiveRunExists(steps, c);
    forall r ensures r in s.runs ==> !IsLiveRunOf(s, r, c) {
      if r in s.runs { assert RunOk(s, r) && r !in LiveRuns(s, c); }
    }
  }
}
