/** Sync runs of every session and the group items they schedule. A run is claimed under a fresh epoch,
    publishes its items in one transaction, and ends when its last item ends. Times are in milliseconds. */
module SyncLedger {
  import opened Options
  import opened Orders

  type Instant = real
  type Session = nat
  type RunId = nat
  type Group = nat

  datatype Mode = FULL | INCREMENTAL
  datatype RunStatus = RUN_PENDING | RUN_RUNNING | RUN_COMPLETED | RUN_FAILED
  datatype Phase = DISCOVERING | RECONCILING | RECONCILED
  datatype ItemStatus = PENDING | RUNNING | RETRY | COMPLETED | FAILED | SKIPPED
  datatype Lease = Lease(token: nat, expiresAt: Instant)

  datatype Item = Item(status: ItemStatus, attempts: nat, nextAttemptAt: Instant, lease: Option<Lease>, members: nat)

  datatype Run = Run(session: Session, mode: Mode, status: RunStatus, phase: Phase, epoch: Option<nat>, attempts: nat,
                     nextAttemptAt: Instant, lease: Option<Lease>, scheduled: nat, completed: nat, failed: nat, skipped: nat)

  /** A run with its items, one per group. */
  datatype Ledger = Ledger(run: Run, items: map<Group, Item>)

  datatype State = State(runs: map<RunId, Ledger>, fences: map<Session, nat>)

  const LEASE_MS := 120000.0
  const RUN_ATTEMPTS := 3

  // ---------------------------------------------------------------------------------------------
  // Items of one run

  predicate IsOpen(status: ItemStatus) { status == PENDING || status == RUNNING || status == RETRY }

  function With(items: map<Group, Item>, status: ItemStatus): set<Group> {
    set g | g in items && items[g].status == status
  }

  function Remaining(items: map<Group, Item>): set<Group> {
    set g | g in items && IsOpen(items[g].status)
  }

  /** The parent's counters are recounted from the items; the last item ends the run. */
  function Refreshed(l: Ledger): Ledger {
    var over := Remaining(l.items) == {};
    l.(run := l.run.(completed := |With(l.items, COMPLETED)|, failed := |With(l.items, FAILED)|,
                     skipped := |With(l.items, SKIPPED)|, phase := if over then RECONCILED else RECONCILING,
                     status := if !over then l.run.status else if With(l.items, FAILED) != {} then RUN_FAILED else RUN_COMPLETED))
  }

  predicate ItemClaimable(l: Ledger, g: Group, maxAttempts: nat, now: Instant) {
    l.run.status == RUN_RUNNING && g in l.items && (l.items[g].status == PENDING || l.items[g].status == RETRY)
    && l.items[g].nextAttemptAt <= now && l.items[g].attempts < maxAttempts
  }

  predicate OwnsItem(l: Ledger, g: Group, token: nat, now: Instant) {
    g in l.items && l.items[g].status == RUNNING && l.items[g].lease.Some?
    && l.items[g].lease.value.token == token && l.items[g].lease.value.expiresAt > now
  }

  function ItemClaimed(l: Ledger, g: Group, token: nat, now: Instant): Ledger
    requires g in l.items
  {
    l.(items := l.items[g := l.items[g].(status := RUNNING, attempts := l.items[g].attempts + 1,
                                         lease := Some(Lease(token, now + LEASE_MS)))])
  }

  function ItemRenewed(l: Ledger, g: Group, now: Instant): Ledger
    requires g in l.items && l.items[g].lease.Some?
  {
    l.(items := l.items[g := l.items[g].(lease := Some(l.items[g].lease.value.(expiresAt := now + LEASE_MS)))])
  }

  /** How a read of a group ends. */
  datatype Outcome = Read(members: nat) | Missing | Failure(retryable: bool, retryAt: Instant)

  function Ended(item: Item, outcome: Outcome, maxAttempts: nat): Item {
    match outcome
    case Read(members) => item.(status := COMPLETED, members := members, lease := None)
    case Missing => item.(status := SKIPPED, lease := None)
    case Failure(retryable, retryAt) =>
      if retryable && item.attempts < maxAttempts then item.(status := RETRY, nextAttemptAt := retryAt, lease := None)
      else item.(status := FAILED, lease := None)
  }

  function ItemEnded(l: Ledger, g: Group, outcome: Outcome, maxAttempts: nat): Ledger
    requires g in l.items
  {
    Refreshed(l.(items := l.items[g := Ended(l.items[g], outcome, maxAttempts)]))
  }

  predicate ItemExpired(item: Item, now: Instant) {
    item.status == RUNNING && item.lease.Some? && item.lease.value.expiresAt < now
  }

  function ItemRecovered(item: Item, maxAttempts: nat, now: Instant): Item {
    item.(status := if item.attempts >= maxAttempts then FAILED else RETRY, nextAttemptAt := now, lease := None)
  }

  function RecoveredItems(items: map<Group, Item>, maxAttempts: nat, now: Instant): map<Group, Item> {
    map g | g in items :: if ItemExpired(items[g], now) then ItemRecovered(items[g], maxAttempts, now) else items[g]
  }

  /** `min(300, 5 * 2 ** (attempts - 1))` seconds. */
  function Backoff(attempts: nat): Instant {
    if attempts <= 1 then 5000.0 else var d := 2.0 * Backoff(attempts - 1); if d < 300000.0 then d else 300000.0
  }

  /** Only runs that lost an item to expiry are recounted. */
  function ItemsRecovered(l: Ledger, maxAttempts: nat, now: Instant): Ledger {
    if exists g :: g in l.items && ItemExpired(l.items[g], now)
    then Refreshed(l.(items := RecoveredItems(l.items, maxAttempts, now)))
    else l
  }

  // ---------------------------------------------------------------------------------------------
  // The run itself

  predicate RunClaimable(s: State, r: RunId, now: Instant) {
    && r in s.runs && s.runs[r].run.status == RUN_PENDING && s.runs[r].run.attempts < RUN_ATTEMPTS
    && s.runs[r].run.nextAttemptAt <= now
    && !exists o :: o in s.runs && s.runs[o].run.session == s.runs[r].run.session && s.runs[o].run.status == RUN_RUNNING
  }

  function EpochOf(s: State, session: Session): nat {
    if session in s.fences then s.fences[session] else 0
  }

  predicate OwnsRun(s: State, r: RunId, token: nat, now: Instant) {
    r in s.runs && s.runs[r].run.status == RUN_RUNNING && s.runs[r].run.lease.Some?
    && s.runs[r].run.lease.value.token == token && s.runs[r].run.lease.value.expiresAt > now
  }

  /** The check a discovery write must pass. */
  predicate PassesFence(s: State, r: RunId, token: nat, epoch: nat, now: Instant) {
    OwnsRun(s, r, token, now) && s.runs[r].run.epoch == Some(epoch)
    && s.runs[r].run.session in s.fences && s.fences[s.runs[r].run.session] == epoch
  }

  function RunClaimed(run: Run, epoch: nat, token: nat, now: Instant): Run {
    run.(status := RUN_RUNNING, attempts := run.attempts + 1, epoch := Some(epoch), lease := Some(Lease(token, now + LEASE_MS)),
         phase := DISCOVERING, scheduled := 0, completed := 0, failed := 0, skipped := 0)
  }

  function NewItems(items: map<Group, Item>, selected: seq<Group>, now: Instant): map<Group, Item> {
    items + map g | g in selected && g !in items :: Item(PENDING, 0, now, None, 0)
  }

  function Published(l: Ledger, selected: seq<Group>, now: Instant): Ledger {
    var over := selected == [];
    Ledger(l.run.(phase := if over then RECONCILED else RECONCILING, scheduled := |selected|,
                  status := if over then RUN_COMPLETED else l.run.status, lease := None),
           NewItems(l.items, selected, now))
  }

  /** A suspicious snapshot gives the claim back without using up an attempt. */
  function Deferred(run: Run, now: Instant): Run {
    run.(status := RUN_PENDING, epoch := None, attempts := if run.attempts > 0 then run.attempts - 1 else 0,
         nextAttemptAt := now + 5000.0, lease := None)
  }

  function RunSetBack(run: Run, retryAt: Instant): Run {
    var over := run.attempts >= RUN_ATTEMPTS;
    run.(status := if over then RUN_FAILED else RUN_PENDING, epoch := if over then run.epoch else None,
         nextAttemptAt := if over then run.nextAttemptAt else retryAt, lease := None)
  }

  predicate RunExpired(run: Run, now: Instant) {
    run.status == RUN_RUNNING && run.lease.Some? && run.lease.value.expiresAt < now
  }

  // ---------------------------------------------------------------------------------------------
  // Transactions

  datatype Step =
    | Create(session: Session, mode: Mode, id: RunId)
    | OpenFence(session: Session)
    | ClaimRun(r: RunId, token: nat)
    | RenewRun(r: RunId, token: nat)
    | FailRun(r: RunId, token: nat, retryAt: Instant)
    | RecoverRuns
    | Defer(r: RunId, token: nat, epoch: nat)
    | Publish(r: RunId, token: nat, epoch: nat, selected: seq<Group>)
    | ClaimItem(r: RunId, g: Group, token: nat)
    | RenewItem(r: RunId, g: Group, token: nat)
    | EndItem(r: RunId, g: Group, token: nat, outcome: Outcome)
    | RecoverItems

  predicate IsActive(s: State, r: RunId, session: Session) {
    r in s.runs && s.runs[r].run.session == session && (s.runs[r].run.status == RUN_PENDING || s.runs[r].run.status == RUN_RUNNING)
  }

  predicate Distinct(groups: seq<Group>) {
    forall i, j :: 0 <= i < j < |groups| ==> groups[i] != groups[j]
  }

  /** Creating reuses an active run, so it takes effect only without one. Discovered groups are distinct. */
  predicate TakesEffect(s: State, step: Step, maxAttempts: nat, at: Instant) {
    match step
    case Create(session, _, id) => id !in s.runs && forall r :: r in s.runs ==> !IsActive(s, r, session)
    case OpenFence(session) => session !in s.fences
    case ClaimRun(r, _) => RunClaimable(s, r, at)
    case RenewRun(r, token) => OwnsRun(s, r, token, at)
    case FailRun(r, token, _) => OwnsRun(s, r, token, at)
    case RecoverRuns => true
    case Defer(r, token, epoch) => PassesFence(s, r, token, epoch, at)
    case Publish(r, token, epoch, selected) => PassesFence(s, r, token, epoch, at) && Distinct(selected)
    case ClaimItem(r, g, _) => r in s.runs && ItemClaimable(s.runs[r], g, maxAttempts, at)
    case RenewItem(r, g, token) => r in s.runs && OwnsItem(s.runs[r], g, token, at)
    case EndItem(r, g, token, _) => r in s.runs && OwnsItem(s.runs[r], g, token, at)
    case RecoverItems => true
  }

  function SetRun(s: State, r: RunId, run: Run): State
    requires r in s.runs
  {
    s.(runs := s.runs[r := s.runs[r].(run := run)])
  }

  function After(s: State, step: Step, maxAttempts: nat, at: Instant): State {
    if !TakesEffect(s, step, maxAttempts, at) then s else
    match step
    case Create(session, mode, id) =>
      s.(runs := s.runs[id := Ledger(Run(session, mode, RUN_PENDING, DISCOVERING, None, 0, at, None, 0, 0, 0, 0), map[])])
    case OpenFence(session) => s.(fences := s.fences[session := 0])
    case ClaimRun(r, token) =>
      var session := s.runs[r].run.session;
      var epoch := EpochOf(s, session) + 1;
      SetRun(s, r, RunClaimed(s.runs[r].run, epoch, token, at)).(fences := s.fences[session := epoch])
    case RenewRun(r, _) => SetRun(s, r, s.runs[r].run.(lease := Some(s.runs[r].run.lease.value.(expiresAt := at + LEASE_MS))))
    case FailRun(r, _, retryAt) => SetRun(s, r, RunSetBack(s.runs[r].run, retryAt))
    case RecoverRuns =>
      s.(runs := map r | r in s.runs ::
        if RunExpired(s.runs[r].run, at) then s.runs[r].(run := RunSetBack(s.runs[r].run, at)) else s.runs[r])
    case Defer(r, _, _) => SetRun(s, r, Deferred(s.runs[r].run, at))
    case Publish(r, _, _, selected) => s.(runs := s.runs[r := Published(s.runs[r], selected, at)])
    case ClaimItem(r, g, token) => s.(runs := s.runs[r := ItemClaimed(s.runs[r], g, token, at)])
    case RenewItem(r, g, _) => s.(runs := s.runs[r := ItemRenewed(s.runs[r], g, at)])
    case EndItem(r, g, _, outcome) => s.(runs := s.runs[r := ItemEnded(s.runs[r], g, outcome, maxAttempts)])
    case RecoverItems => s.(runs := map r | r in s.runs :: ItemsRecovered(s.runs[r], maxAttempts, at))
  }

  const INITIAL := State(map[], map[])

  // ---------------------------------------------------------------------------------------------
  // The ledger balances

  predicate ItemOk(item: Item, maxAttempts: nat) {
    && item.attempts <= maxAttempts
    && ((item.status == PENDING || item.status == RETRY) ==> item.attempts < maxAttempts)
    && (item.status == RUNNING ==> item.lease.Some? && 0 < item.attempts)
  }

  /** Nothing is scheduled before publication; afterwards the counters account for every scheduled group. */
  predicate LedgerOk(l: Ledger, maxAttempts: nat) {
    && (forall g :: g in l.items ==> ItemOk(l.items[g], maxAttempts))
    && (l.run.phase == DISCOVERING ==>
          && l.items == map[] && l.run.completed == 0 && l.run.failed == 0 && l.run.skipped == 0
          && (l.run.status == RUN_RUNNING ==> l.run.lease.Some?))
    && (l.run.status == RUN_PENDING ==> l.run.phase == DISCOVERING)
    && (l.run.status == RUN_COMPLETED ==> l.run.phase == RECONCILED)
    && (l.run.phase != DISCOVERING ==>
          && l.run.lease.None? && l.run.scheduled == |l.items| && l.run.completed == |With(l.items, COMPLETED)|
          && l.run.failed == |With(l.items, FAILED)| && l.run.skipped == |With(l.items, SKIPPED)|)
    && (l.run.phase == RECONCILING <==> Remaining(l.items) != {})
    && (l.run.phase == RECONCILING ==> l.run.status == RUN_RUNNING)
    && (l.run.phase == RECONCILED ==> l.run.status == if With(l.items, FAILED) != {} then RUN_FAILED else RUN_COMPLETED)
  }

  /** At most one active run a session, and the running one carries the session's current epoch. */
  ghost predicate FencesOk(s: State) {
    && (forall r :: r in s.runs && s.runs[r].run.status == RUN_RUNNING ==>
          s.runs[r].run.session in s.fences && s.runs[r].run.epoch == Some(s.fences[s.runs[r].run.session]))
    && (forall r, o, session :: IsActive(s, r, session) && IsActive(s, o, session) ==> r == o)
  }

  ghost predicate Inv(s: State, maxAttempts: nat) {
    (forall r :: r in s.runs ==> LedgerOk(s.runs[r], maxAttempts)) && FencesOk(s)
  }

  lemma Partition(items: map<Group, Item>)
    ensures |With(items, COMPLETED)| + |With(items, FAILED)| + |With(items, SKIPPED)| + |Remaining(items)| == |items|
  {
    var a, b, c, d := With(items, COMPLETED), With(items, FAILED), With(items, SKIPPED), Remaining(items);
    assert items.Keys == a + b + c + d;
    assert |items| == |items.Keys|;
    DisjointSum(a, b, c, d);
  }

  lemma DisjointSum(a: set<Group>, b: set<Group>, c: set<Group>, d: set<Group>)
    requires a !! b && a !! c && a !! d && b !! c && b !! d && c !! d
    ensures |a + b + c + d| == |a| + |b| + |c| + |d|
  {
    assert (a + b) !! c && (a + b + c) !! d;
  }

  lemma RefreshedOk(l: Ledger, maxAttempts: nat)
    requires forall g :: g in l.items ==> ItemOk(l.items[g], maxAttempts)
    requires l.run.status == RUN_RUNNING && l.run.lease.None? && l.run.scheduled == |l.items| && l.items != map[]
    ensures LedgerOk(Refreshed(l), maxAttempts)
  {
  }

  function Elements(groups: seq<Group>): set<Group> {
    set g | g in groups
  }

  lemma {:induction false} SetOfDistinct(groups: seq<Group>)
    requires Distinct(groups)
    ensures |Elements(groups)| == |groups|
  {
    if groups == [] {
      assert Elements(groups) == {};
    } else {
      var front, last := groups[..|groups| - 1], groups[|groups| - 1];
      SetOfDistinct(front);
      assert groups == front + [last] && last !in front;
      assert Elements(groups) == Elements(front) + {last};
    }
  }

  lemma PublishedOk(l: Ledger, selected: seq<Group>, maxAttempts: nat, now: Instant)
    requires LedgerOk(l, maxAttempts) && l.run.phase == DISCOVERING && l.run.status == RUN_RUNNING
    requires Distinct(selected) && maxAttempts > 0
    ensures LedgerOk(Published(l, selected, now), maxAttempts)
  {
    var t := Published(l, selected, now);
    SetOfDistinct(selected);
    assert t.items.Keys == Elements(selected);
    assert |t.items| == |t.items.Keys|;
    assert With(t.items, COMPLETED) == {} && With(t.items, FAILED) == {} && With(t.items, SKIPPED) == {};
    if selected != [] {
      assert selected[0] in Remaining(t.items);
    }
  }

  lemma ItemClaimedOk(l: Ledger, g: Group, token: nat, maxAttempts: nat, now: Instant)
    requires LedgerOk(l, maxAttempts) && ItemClaimable(l, g, maxAttempts, now)
    ensures LedgerOk(ItemClaimed(l, g, token, now), maxAttempts)
  {
    var t := ItemClaimed(l, g, token, now);
    assert t.items.Keys == l.items.Keys && |t.items| == |t.items.Keys| && |l.items| == |l.items.Keys|;
    assert g in Remaining(l.items) && Remaining(t.items) == Remaining(l.items);
    assert forall st: ItemStatus :: !IsOpen(st) ==> With(t.items, st) == With(l.items, st);
  }

  lemma ItemRenewedOk(l: Ledger, g: Group, token: nat, maxAttempts: nat, now: Instant)
    requires LedgerOk(l, maxAttempts) && OwnsItem(l, g, token, now)
    ensures LedgerOk(ItemRenewed(l, g, now), maxAttempts)
  {
    var t := ItemRenewed(l, g, now);
    assert t.items.Keys == l.items.Keys && |t.items| == |t.items.Keys| && |l.items| == |l.items.Keys|;
    assert Remaining(t.items) == Remaining(l.items);
    assert forall st: ItemStatus :: With(t.items, st) == With(l.items, st);
  }

  lemma ItemEndedOk(l: Ledger, g: Group, token: nat, outcome: Outcome, maxAttempts: nat, now: Instant)
    requires LedgerOk(l, maxAttempts) && OwnsItem(l, g, token, now)
    ensures LedgerOk(ItemEnded(l, g, outcome, maxAttempts), maxAttempts)
  {
    var t := l.(items := l.items[g := Ended(l.items[g], outcome, maxAttempts)]);
    assert g in Remaining(l.items);
    assert t.items.Keys == l.items.Keys && |t.items| == |t.items.Keys| && |l.items| == |l.items.Keys|;
    RefreshedOk(t, maxAttempts);
  }

  lemma ItemsRecoveredOk(l: Ledger, maxAttempts: nat, now: Instant)
    requires LedgerOk(l, maxAttempts)
    ensures LedgerOk(ItemsRecovered(l, maxAttempts, now), maxAttempts)
  {
    if g :| g in l.items && ItemExpired(l.items[g], now) {
      var t := l.(items := RecoveredItems(l.items, maxAttempts, now));
      assert g in Remaining(l.items);
      assert t.items.Keys == l.items.Keys && |t.items| == |t.items.Keys| && |l.items| == |l.items.Keys|;
      RefreshedOk(t, maxAttempts);
    }
  }

  /** A transaction that starts no run may only keep, end or hand back those there are. */
  predicate Follows(a: Run, b: Run) {
    && b.session == a.session
    && (b.status == RUN_RUNNING ==> a.status == RUN_RUNNING && b.epoch == a.epoch)
    && (b.status == RUN_PENDING ==> a.status == RUN_PENDING || a.status == RUN_RUNNING)
  }

  lemma FollowersKeepFences(s: State, t: State)
    requires FencesOk(s) && t.fences == s.fences
    requires forall r :: r in t.runs ==> r in s.runs && Follows(s.runs[r].run, t.runs[r].run)
    ensures FencesOk(t)
  {
    forall r, session | IsActive(t, r, session) ensures IsActive(s, r, session) {
      assert Follows(s.runs[r].run, t.runs[r].run);
    }
    forall r | r in t.runs && t.runs[r].run.status == RUN_RUNNING
      ensures t.runs[r].run.session in t.fences && t.runs[r].run.epoch == Some(t.fences[t.runs[r].run.session])
    {
      assert Follows(s.runs[r].run, t.runs[r].run);
    }
  }

  lemma ReplaceKeeps(s: State, r: RunId, l: Ledger, maxAttempts: nat)
    requires Inv(s, maxAttempts) && r in s.runs && LedgerOk(l, maxAttempts) && Follows(s.runs[r].run, l.run)
    ensures Inv(s.(runs := s.runs[r := l]), maxAttempts)
  {
    var t := s.(runs := s.runs[r := l]);
    FollowersKeepFences(s, t);
    forall o | o in t.runs ensures LedgerOk(t.runs[o], maxAttempts) { assert o != r ==> LedgerOk(s.runs[o], maxAttempts); }
  }

  lemma OpenFenceKeeps(s: State, session: Session, maxAttempts: nat)
    requires Inv(s, maxAttempts) && session !in s.fences
    ensures Inv(s.(fences := s.fences[session := 0]), maxAttempts)
  {
    var t := s.(fences := s.fences[session := 0]);
    forall o, x | IsActive(t, o, x) ensures IsActive(s, o, x) {}
  }

  lemma ClaimRunKeeps(s: State, r: RunId, token: nat, maxAttempts: nat, at: Instant)
    requires Inv(s, maxAttempts) && RunClaimable(s, r, at)
    ensures Inv(After(s, ClaimRun(r, token), maxAttempts, at), maxAttempts)
  {
    var t := After(s, ClaimRun(r, token), maxAttempts, at);
    var session := s.runs[r].run.session;
    forall o | o in t.runs ensures LedgerOk(t.runs[o], maxAttempts) {
      assert LedgerOk(s.runs[o], maxAttempts);
    }
    forall o | o in t.runs && t.runs[o].run.status == RUN_RUNNING
      ensures t.runs[o].run.session in t.fences && t.runs[o].run.epoch == Some(t.fences[t.runs[o].run.session])
    {
      if o != r { assert s.runs[o].run.session != session; }
    }
    forall o, x | IsActive(t, o, x) ensures IsActive(s, o, x) {}
  }

  lemma RunRecoveredOk(l: Ledger, maxAttempts: nat, at: Instant)
    requires LedgerOk(l, maxAttempts) && RunExpired(l.run, at)
    ensures LedgerOk(l.(run := RunSetBack(l.run, at)), maxAttempts) && Follows(l.run, RunSetBack(l.run, at))
  {
  }

  lemma RecoverRunsKeeps(s: State, maxAttempts: nat, at: Instant)
    requires Inv(s, maxAttempts)
    ensures Inv(After(s, RecoverRuns, maxAttempts, at), maxAttempts)
  {
    var t := After(s, RecoverRuns, maxAttempts, at);
    forall o | o in t.runs ensures LedgerOk(t.runs[o], maxAttempts) && Follows(s.runs[o].run, t.runs[o].run) {
      if RunExpired(s.runs[o].run, at) { RunRecoveredOk(s.runs[o], maxAttempts, at); }
    }
    FollowersKeepFences(s, t);
  }

  lemma RecoverItemsKeeps(s: State, maxAttempts: nat, at: Instant)
    requires Inv(s, maxAttempts)
    ensures Inv(After(s, RecoverItems, maxAttempts, at), maxAttempts)
  {
    var t := After(s, RecoverItems, maxAttempts, at);
    forall o | o in t.runs ensures LedgerOk(t.runs[o], maxAttempts) && Follows(s.runs[o].run, t.runs[o].run) {
      ItemsRecoveredOk(s.runs[o], maxAttempts, at);
      RecoveryFollows(s.runs[o], maxAttempts, at);
    }
    FollowersKeepFences(s, t);
  }

  lemma RecoveryFollows(l: Ledger, maxAttempts: nat, now: Instant)
    ensures Follows(l.run, ItemsRecovered(l, maxAttempts, now).run)
  {
  }

  lemma CreateKeeps(s: State, session: Session, mode: Mode, id: RunId, maxAttempts: nat, at: Instant)
    requires Inv(s, maxAttempts) && TakesEffect(s, Create(session, mode, id), maxAttempts, at)
    ensures Inv(After(s, Create(session, mode, id), maxAttempts, at), maxAttempts)
  {
    var t := After(s, Create(session, mode, id), maxAttempts, at);
    forall o, x | IsActive(t, o, x) && o != id ensures IsActive(s, o, x) {}
  }

  lemma RunStepKeeps(s: State, step: Step, maxAttempts: nat, at: Instant)
    requires Inv(s, maxAttempts) && TakesEffect(s, step, maxAttempts, at) && maxAttempts > 0
    requires step.RenewRun? || step.FailRun? || step.Defer? || step.Publish?
    ensures Inv(After(s, step, maxAttempts, at), maxAttempts)
  {
    assert LedgerOk(s.runs[step.r], maxAttempts);
    assert s.runs[step.r].run.phase == DISCOVERING;
    if step.Publish? { PublishedOk(s.runs[step.r], step.selected, maxAttempts, at); }
    ReplaceKeeps(s, step.r, After(s, step, maxAttempts, at).runs[step.r], maxAttempts);
  }

  lemma ItemStepKeeps(s: State, step: Step, maxAttempts: nat, at: Instant)
    requires Inv(s, maxAttempts) && TakesEffect(s, step, maxAttempts, at)
    requires step.ClaimItem? || step.RenewItem? || step.EndItem?
    ensures Inv(After(s, step, maxAttempts, at), maxAttempts)
  {
    var l := s.runs[step.r];
    assert step.g in Remaining(l.items) && l.run.phase == RECONCILING;
    match step {
      case ClaimItem(r, g, token) => ItemClaimedOk(l, g, token, maxAttempts, at);
      case RenewItem(r, g, token) => ItemRenewedOk(l, g, token, maxAttempts, at);
      case EndItem(r, g, token, outcome) => ItemEndedOk(l, g, token, outcome, maxAttempts, at);
    }
    ReplaceKeeps(s, step.r, After(s, step, maxAttempts, at).runs[step.r], maxAttempts);
  }

  lemma StepKeeps(s: State, step: Step, maxAttempts: nat, at: Instant)
    requires Inv(s, maxAttempts) && maxAttempts > 0
    ensures Inv(After(s, step, maxAttempts, at), maxAttempts)
  {
    if TakesEffect(s, step, maxAttempts, at) {
      match step
      case Create(session, mode, id) => CreateKeeps(s, session, mode, id, maxAttempts, at);
      case OpenFence(session) => OpenFenceKeeps(s, session, maxAttempts);
      case ClaimRun(r, token) => ClaimRunKeeps(s, r, token, maxAttempts, at);
      case RecoverRuns => RecoverRunsKeeps(s, maxAttempts, at);
      case RecoverItems => RecoverItemsKeeps(s, maxAttempts, at);
      case ClaimItem(_, _, _) => ItemStepKeeps(s, step, maxAttempts, at);
      case RenewItem(_, _, _) => ItemStepKeeps(s, step, maxAttempts, at);
      case EndItem(_, _, _, _) => ItemStepKeeps(s, step, maxAttempts, at);
      case _ => RunStepKeeps(s, step, maxAttempts, at);
    }
  }

  ghost predicate IsRun(states: seq<State>, steps: seq<(Step, Instant)>, maxAttempts: nat) {
    && |states| == |steps| + 1 && states[0] == INITIAL && maxAttempts > 0
    && forall i :: 0 <= i < |steps| ==> states[i + 1] == After(states[i], steps[i].0, maxAttempts, steps[i].1)
  }

  lemma {:induction false} RunKeepsInv(states: seq<State>, steps: seq<(Step, Instant)>, maxAttempts: nat, n: nat)
    requires IsRun(states, steps, maxAttempts) && n <= |steps|
    ensures Inv(states[n], maxAttempts)
  {
    if n > 0 {
      RunKeepsInv(states, steps, maxAttempts, n - 1);
      StepKeeps(states[n - 1], steps[n - 1].0, maxAttempts, steps[n - 1].1);
      assert states[n - 1 + 1] == After(states[n - 1], steps[n - 1].0, maxAttempts, steps[n - 1].1);
    }
  }

  /** Every published run accounts for every group it scheduled, and is running exactly while items remain. */
  lemma LedgerBalances(states: seq<State>, steps: seq<(Step, Instant)>, maxAttempts: nat, n: nat, r: RunId)
    requires IsRun(states, steps, maxAttempts) && n <= |steps| && r in states[n].runs
    ensures var l := states[n].runs[r];
      && (l.run.phase != DISCOVERING ==>
            l.run.completed + l.run.failed + l.run.skipped + |Remaining(l.items)| == l.run.scheduled)
      && (l.run.status == RUN_RUNNING && l.run.phase == RECONCILING <==> Remaining(l.items) != {})
      && (l.run.phase == DISCOVERING ==> l.items == map[])
      && forall g :: g in l.items && (l.items[g].status == PENDING || l.items[g].status == RETRY) ==>
           l.items[g].attempts < maxAttempts
  {
    RunKeepsInv(states, steps, maxAttempts, n);
    Partition(states[n].runs[r].items);
  }

  // ---------------------------------------------------------------------------------------------
  // Epochs

  lemma EpochsGrow(s: State, step: Step, maxAttempts: nat, at: Instant, session: Session)
    ensures EpochOf(s, session) <= EpochOf(After(s, step, maxAttempts, at), session)
  {
  }

  lemma {:induction false} EpochsOnlyGrow(states: seq<State>, steps: seq<(Step, Instant)>, maxAttempts: nat, i: nat, n: nat,
                                          session: Session)
    requires IsRun(states, steps, maxAttempts) && i <= n <= |steps|
    ensures EpochOf(states[i], session) <= EpochOf(states[n], session)
    decreases n - i
  {
    if i < n {
      EpochsGrow(states[i], steps[i].0, maxAttempts, steps[i].1, session);
      EpochsOnlyGrow(states, steps, maxAttempts, i + 1, n, session);
    }
  }

  /** Once a run of the session is claimed again, no check with an earlier claim's epoch passes any more. */
  lemma StaleEpochsAreFenced(states: seq<State>, steps: seq<(Step, Instant)>, maxAttempts: nat, k: nat, n: nat,
                             r: RunId, token: nat, epoch: nat, at: Instant)
    requires IsRun(states, steps, maxAttempts) && k < n <= |steps| && steps[k].0.ClaimRun?
    requires TakesEffect(states[k], steps[k].0, maxAttempts, steps[k].1)
    requires r in states[n].runs && states[n].runs[r].run.session == states[k].runs[steps[k].0.r].run.session
    requires epoch <= EpochOf(states[k], states[n].runs[r].run.session)
    ensures !PassesFence(states[n], r, token, epoch, at)
  {
    var session := states[n].runs[r].run.session;
    assert states[k + 1] == After(states[k], steps[k].0, maxAttempts, steps[k].1);
    assert EpochOf(states[k + 1], session) == EpochOf(states[k], session) + 1;
    EpochsOnlyGrow(states, steps, maxAttempts, k + 1, n, session);
  }

  /** At most one run of a session is pending or running, and a running one carries the current epoch. */
  lemma OneActiveRun(states: seq<State>, steps: seq<(Step, Instant)>, maxAttempts: nat, n: nat, r: RunId, o: RunId,
                     session: Session)
    requires IsRun(states, steps, maxAttempts) && n <= |steps|
    requires IsActive(states[n], r, session) && IsActive(states[n], o, session)
    ensures r == o
    ensures states[n].runs[r].run.status == RUN_RUNNING ==>
              session in states[n].fences && states[n].runs[r].run.epoch == Some(states[n].fences[session])
  {
    RunKeepsInv(states, steps, maxAttempts, n);
  }

  // ---------------------------------------------------------------------------------------------
  // Every published run ends

  function Weight(item: Item, maxAttempts: nat): int {
    match item.status
    case PENDING => 2 * (maxAttempts - item.attempts)
    case RETRY => 2 * (maxAttempts - item.attempts)
    case RUNNING => 2 * (maxAttempts - item.attempts) + 1
    case _ => 0
  }

  ghost function Total(items: map<Group, Item>, maxAttempts: nat): int
    decreases items.Keys
  {
    if items.Keys == {} then 0
    else var g := Min(items.Keys); Weight(items[g], maxAttempts) + Total(items - {g}, maxAttempts)
  }

  lemma {:induction false} TotalWithout(items: map<Group, Item>, maxAttempts: nat, g: Group)
    requires g in items
    ensures Total(items, maxAttempts) == Weight(items[g], maxAttempts) + Total(items - {g}, maxAttempts)
    decreases items.Keys
  {
    var least := Min(items.Keys);
    if g != least {
      TotalWithout(items - {least}, maxAttempts, g);
      var rest := items - {g};
      LeastIsMin(rest.Keys, least);
      assert rest - {least} == items - {least} - {g};
    }
  }

  lemma TotalUpdate(items: map<Group, Item>, maxAttempts: nat, g: Group, item: Item)
    requires g in items
    ensures Total(items[g := item], maxAttempts)
            == Total(items, maxAttempts) - Weight(items[g], maxAttempts) + Weight(item, maxAttempts)
  {
    TotalWithout(items, maxAttempts, g);
    TotalWithout(items[g := item], maxAttempts, g);
    assert items[g := item] - {g} == items - {g};
  }

  lemma WeightBounds(item: Item, maxAttempts: nat)
    requires ItemOk(item, maxAttempts)
    ensures 0 <= Weight(item, maxAttempts) <= 2 * maxAttempts
    ensures Weight(item, maxAttempts) == 0 <==> !IsOpen(item.status)
  {
  }

  lemma {:induction false} TotalZero(items: map<Group, Item>, maxAttempts: nat)
    requires forall g :: g in items ==> ItemOk(items[g], maxAttempts)
    ensures 0 <= Total(items, maxAttempts)
    ensures Total(items, maxAttempts) == 0 <==> Remaining(items) == {}
    decreases items.Keys
  {
    if items.Keys == {} {
      assert Remaining(items) == {};
    } else {
      var g := Min(items.Keys);
      var rest := items - {g};
      TotalZero(rest, maxAttempts);
      WeightBounds(items[g], maxAttempts);
      assert Remaining(items) == Remaining(rest) + (if IsOpen(items[g].status) then {g} else {});
      assert Total(items, maxAttempts) == Weight(items[g], maxAttempts) + Total(rest, maxAttempts);
    }
  }

  lemma OneMore(weight: nat, count: nat)
    ensures weight * (count + 1) == weight * count + weight
  {
  }

  lemma {:induction false} TotalBound(items: map<Group, Item>, maxAttempts: nat)
    requires forall g :: g in items ==> ItemOk(items[g], maxAttempts)
    ensures Total(items, maxAttempts) <= 2 * maxAttempts * |items.Keys|
    decreases items.Keys
  {
    if items.Keys != {} {
      var g := Min(items.Keys);
      var rest := items - {g};
      TotalBound(rest, maxAttempts);
      WeightBounds(items[g], maxAttempts);
      assert items.Keys == rest.Keys + {g};
      OneMore(2 * maxAttempts, |rest.Keys|);
    }
  }

  /** Recovery lowers the total as soon as one item had expired. */
  lemma {:induction false} TotalRecovered(items: map<Group, Item>, maxAttempts: nat, now: Instant)
    requires forall g :: g in items ==> ItemOk(items[g], maxAttempts)
    ensures var t := RecoveredItems(items, maxAttempts, now);
      && Total(t, maxAttempts) <= Total(items, maxAttempts)
      && ((exists g :: g in items && ItemExpired(items[g], now)) ==> Total(t, maxAttempts) < Total(items, maxAttempts))
    decreases items.Keys
  {
    var t := RecoveredItems(items, maxAttempts, now);
    assert t.Keys == items.Keys;
    if items.Keys != {} {
      var g := Min(items.Keys);
      var rest := items - {g};
      TotalRecovered(rest, maxAttempts, now);
      assert RecoveredItems(rest, maxAttempts, now) == t - {g};
      assert Weight(t[g], maxAttempts) <= Weight(items[g], maxAttempts);
      if e :| e in items && ItemExpired(items[e], now) {
        assert e != g ==> e in rest && rest[e] == items[e];
      }
    }
  }

  /** The work left in a published run. */
  ghost function Work(l: Ledger, maxAttempts: nat): int {
    Total(l.items, maxAttempts)
  }

  /** A step that touches an item of run `r`, other than a lease renewal. */
  predicate AdvancesItem(s: State, step: Step, maxAttempts: nat, at: Instant, r: RunId)
    requires r in s.runs
  {
    || ((step.ClaimItem? || step.EndItem?) && step.r == r && TakesEffect(s, step, maxAttempts, at))
    || (step.RecoverItems? && exists g :: g in s.runs[r].items && ItemExpired(s.runs[r].items[g], at))
  }

  lemma ClaimLowers(items: map<Group, Item>, g: Group, item: Item, maxAttempts: nat)
    requires g in items && Weight(item, maxAttempts) < Weight(items[g], maxAttempts)
    ensures Total(items[g := item], maxAttempts) < Total(items, maxAttempts)
  {
    TotalUpdate(items, maxAttempts, g, item);
  }

  /** Only an item step, or publication, touches items, and a published run is not published again. */
  lemma ItemsUntouched(s: State, step: Step, maxAttempts: nat, at: Instant, r: RunId)
    requires r in s.runs && LedgerOk(s.runs[r], maxAttempts) && s.runs[r].run.phase != DISCOVERING && !step.RecoverItems?
    requires (step.ClaimItem? || step.EndItem? || step.RenewItem?) && TakesEffect(s, step, maxAttempts, at) ==> step.r != r
    ensures var t := After(s, step, maxAttempts, at);
            r in t.runs && t.runs[r].items == s.runs[r].items && t.runs[r].run.phase == s.runs[r].run.phase
  {
    if TakesEffect(s, step, maxAttempts, at) {
      match step
      case RecoverRuns => assert !RunExpired(s.runs[r].run, at);
      case _ =>
    }
  }

  lemma ItemStepShrinks(s: State, step: Step, maxAttempts: nat, at: Instant)
    requires step.ClaimItem? || step.EndItem? || step.RenewItem?
    requires TakesEffect(s, step, maxAttempts, at) && LedgerOk(s.runs[step.r], maxAttempts)
    ensures var t := After(s, step, maxAttempts, at);
      && step.r in t.runs && (s.runs[step.r].run.phase != DISCOVERING ==> t.runs[step.r].run.phase != DISCOVERING)
      && Work(t.runs[step.r], maxAttempts) <= Work(s.runs[step.r], maxAttempts) - (if step.RenewItem? then 0 else 1)
  {
    var l := s.runs[step.r];
    match step
    case ClaimItem(_, g, token) => ClaimLowers(l.items, g, ItemClaimed(l, g, token, at).items[g], maxAttempts);
    case EndItem(_, g, _, outcome) => ClaimLowers(l.items, g, Ended(l.items[g], outcome, maxAttempts), maxAttempts);
    case RenewItem(_, g, _) => TotalUpdate(l.items, maxAttempts, g, ItemRenewed(l, g, at).items[g]);
  }

  /** Claims, results, failures and expiries use up work; once items are published nothing adds any. */
  lemma WorkShrinks(s: State, step: Step, maxAttempts: nat, at: Instant, r: RunId)
    requires Inv(s, maxAttempts) && r in s.runs && s.runs[r].run.phase != DISCOVERING
    ensures var t := After(s, step, maxAttempts, at);
      && r in t.runs && t.runs[r].run.phase != DISCOVERING
      && Work(t.runs[r], maxAttempts) <= Work(s.runs[r], maxAttempts) - (if AdvancesItem(s, step, maxAttempts, at, r) then 1 else 0)
  {
    assert LedgerOk(s.runs[r], maxAttempts);
    if step.RecoverItems? {
      TotalRecovered(s.runs[r].items, maxAttempts, at);
    } else if (step.ClaimItem? || step.EndItem? || step.RenewItem?) && TakesEffect(s, step, maxAttempts, at) && step.r == r {
      ItemStepShrinks(s, step, maxAttempts, at);
    } else {
      ItemsUntouched(s, step, maxAttempts, at, r);
    }
  }

  /** 1 if step `i` advances an item of run `r`. */
  function AdvanceAt(states: seq<State>, steps: seq<(Step, Instant)>, maxAttempts: nat, i: nat, r: RunId): nat
    requires |states| == |steps| + 1 && i < |steps|
  {
    if r in states[i].runs && AdvancesItem(states[i], steps[i].0, maxAttempts, steps[i].1, r) then 1 else 0
  }

  /** Item steps of run `r` between `from` and `n`. */
  function Advances(states: seq<State>, steps: seq<(Step, Instant)>, maxAttempts: nat, from: nat, n: nat, r: RunId): nat
    requires |states| == |steps| + 1 && from <= n <= |steps|
    decreases n
  {
    if n == from then 0
    else Advances(states, steps, maxAttempts, from, n - 1, r) + AdvanceAt(states, steps, maxAttempts, n - 1, r)
  }

  lemma WorkShrinksAlong(states: seq<State>, steps: seq<(Step, Instant)>, maxAttempts: nat, i: nat, r: RunId)
    requires IsRun(states, steps, maxAttempts) && i < |steps|
    requires r in states[i].runs && states[i].runs[r].run.phase != DISCOVERING
    ensures r in states[i + 1].runs && states[i + 1].runs[r].run.phase != DISCOVERING
    ensures Work(states[i + 1].runs[r], maxAttempts)
            <= Work(states[i].runs[r], maxAttempts) - AdvanceAt(states, steps, maxAttempts, i, r)
  {
    RunKeepsInv(states, steps, maxAttempts, i);
    WorkShrinks(states[i], steps[i].0, maxAttempts, steps[i].1, r);
  }

  lemma {:induction false} WorkBudget(states: seq<State>, steps: seq<(Step, Instant)>, maxAttempts: nat, from: nat, n: nat, r: RunId)
    requires IsRun(states, steps, maxAttempts) && from <= n <= |steps|
    requires r in states[from].runs && states[from].runs[r].run.phase != DISCOVERING
    ensures r in states[n].runs && states[n].runs[r].run.phase != DISCOVERING
    ensures Advances(states, steps, maxAttempts, from, n, r) + Work(states[n].runs[r], maxAttempts)
            <= Work(states[from].runs[r], maxAttempts)
    decreases n
  {
    if n > from {
      WorkBudget(states, steps, maxAttempts, from, n - 1, r);
      WorkShrinksAlong(states, steps, maxAttempts, n - 1, r);
    }
  }

  /** A published run ends: at most as many item steps can follow as there is work, which is at most two for each
      attempt at each group scheduled, and it is over exactly when no work is left. */
  lemma PublishedRunsEnd(states: seq<State>, steps: seq<(Step, Instant)>, maxAttempts: nat, from: nat, n: nat, r: RunId)
    requires IsRun(states, steps, maxAttempts) && from <= n <= |steps|
    requires r in states[from].runs && states[from].runs[r].run.phase != DISCOVERING
    ensures r in states[n].runs
    ensures 0 <= Work(states[n].runs[r], maxAttempts)
            <= Work(states[from].runs[r], maxAttempts) - Advances(states, steps, maxAttempts, from, n, r)
    ensures Advances(states, steps, maxAttempts, from, n, r) <= 2 * maxAttempts * states[from].runs[r].run.scheduled
    ensures Work(states[n].runs[r], maxAttempts) == 0 <==>
              states[n].runs[r].run.status == RUN_COMPLETED || states[n].runs[r].run.status == RUN_FAILED
  {
    WorkBudget(states, steps, maxAttempts, from, n, r);
    RunKeepsInv(states, steps, maxAttempts, n);
    RunKeepsInv(states, steps, maxAttempts, from);
    OverWhenDone(states[n].runs[r], maxAttempts);
    OverWhenDone(states[from].runs[r], maxAttempts);
  }

  lemma OverWhenDone(l: Ledger, maxAttempts: nat)
    requires LedgerOk(l, maxAttempts) && l.run.phase != DISCOVERING
    ensures 0 <= Work(l, maxAttempts) <= 2 * maxAttempts * l.run.scheduled
    ensures Work(l, maxAttempts) == 0 <==> l.run.status == RUN_COMPLETED || l.run.status == RUN_FAILED
  {
    TotalZero(l.items, maxAttempts);
    TotalBound(l.items, maxAttempts);
    assert |l.items| == |l.items.Keys|;
  }
}
