/** The sync tables with their transactions: runs, items, epoch fences, snapshot guards, group sets and the
    pacing row of each session. */
module GatewaySyncRepository {
  import opened Options
  import opened SyncLedger
  import G = SnapshotGuard
  import P = PacingLimit

  datatype Created = Fresh(id: RunId) | Reused(id: RunId) | Conflict(id: RunId, mode: Mode)
  datatype Discovery = Discovery(discovered: nat, scheduled: nat, completed: bool, deferred: bool)

  /** The groups a discovery schedules, in the order found: all of them, or those `due` for a read. */
  function Selected(mode: Mode, found: seq<Group>, due: set<Group>): (selected: seq<Group>)
    ensures forall g :: g in selected <==> g in found && (mode == FULL || g in due)
  {
    if found == [] then []
    else
      var front, last := found[..|found| - 1], found[|found| - 1];
      assert found == front + [last];
      Selected(mode, front, due) + if mode == FULL || last in due then [last] else []
  }

  lemma {:induction false} SelectedDistinct(mode: Mode, found: seq<Group>, due: set<Group>)
    requires Distinct(found)
    ensures Distinct(Selected(mode, found, due))
  {
    if found != [] {
      var front, last := found[..|found| - 1], found[|found| - 1];
      SelectedDistinct(mode, front, due);
      var kept := Selected(mode, front, due);
      assert found == front + [last] && last !in front && last !in kept;
      AppendDistinct(kept, last);
    }
  }

  lemma AppendDistinct(groups: seq<Group>, last: Group)
    requires Distinct(groups) && last !in groups
    ensures Distinct(groups + [last])
  {
    forall i, j | 0 <= i < j < |groups + [last]| ensures (groups + [last])[i] != (groups + [last])[j] {
      assert groups[i] in groups;
    }
  }

  function ExpiredItems(items: map<Group, Item>, now: Instant): (expired: set<Group>)
    ensures expired != {} <==> exists g :: g in items && ItemExpired(items[g], now)
  {
    var expired := set g | g in items && ItemExpired(items[g], now);
    assert forall g :: g in items && ItemExpired(items[g], now) <==> g in expired;
    expired
  }

  /** A discovery of `count` groups is too small a share of the last applied set, or of the `rows` there are, and not
      yet confirmed often enough. */
  predicate MustWait(c: G.Config, guard: G.Guard, rows: nat, count: nat, groups: set<Group>) {
    var baseline := if guard.count.Some? then guard.count.value else rows;
    && c.minBaseline <= baseline && count as real < baseline as real * c.dropRatio
    && (if guard.suspect == Some(groups) then guard.confirmations + 1 else 1) < c.confirmations
  }

  class SyncTables {
    const maxAttempts: nat
    const guardConfig: G.Config
    const limits: P.SyncRateLimits
    var runs: map<RunId, Ledger>
    var fences: map<Session, nat>
    var guards: map<Session, G.Guard>
    /** The group rows of each session, and those of them that are active. */
    var known: map<Session, set<Group>>
    var active: map<Session, set<Group>>

    constructor (maxAttempts: nat, guardConfig: G.Config, limits: P.SyncRateLimits)
      ensures this.maxAttempts == maxAttempts && this.guardConfig == guardConfig && this.limits == limits
      ensures State() == INITIAL && guards == map[] && known == map[] && active == map[]
    {
      this.maxAttempts, this.guardConfig, this.limits := maxAttempts, guardConfig, limits;
      runs, fences, guards, known, active := map[], map[], map[], map[], map[];
    }

    function State(): State
      reads this
    {
      SyncLedger.State(runs, fences)
    }

    function GuardOf(session: Session): G.Guard
      reads this
    {
      if session in guards then guards[session] else G.FRESH
    }

    function KnownOf(session: Session): set<Group>
      reads this
    {
      if session in known then known[session] else {}
    }

    /** An active run is reused if its mode agrees, and refused otherwise. */
    method Create(session: Session, mode: Mode, id: RunId, now: Instant) returns (result: Created)
      requires id !in runs
      modifies this`runs
      ensures result.Fresh? ==>
        && result.id == id && (forall r :: r in old(runs) ==> !IsActive(old(State()), r, session))
        && State() == After(old(State()), Step.Create(session, mode, id), maxAttempts, now)
      ensures !result.Fresh? ==>
        && State() == old(State()) && IsActive(State(), result.id, session)
        && (result.Reused? <==> runs[result.id].run.mode == mode)
        && (result.Conflict? ==> result.mode == runs[result.id].run.mode)
    {
      var present := set r | r in runs && runs[r].run.session == session
                             && (runs[r].run.status == RUN_PENDING || runs[r].run.status == RUN_RUNNING);
      if present != {} {
        var r :| r in present;
        return if runs[r].run.mode == mode then Reused(r) else Conflict(r, runs[r].run.mode);
      }
      assert forall r :: r in runs && IsActive(State(), r, session) ==> r in present;
      runs := runs[id := Ledger(Run(session, mode, RUN_PENDING, DISCOVERING, None, 0, now, None, 0, 0, 0, 0), map[])];
      result := Fresh(id);
    }

    /** The claim moves the session's epoch and the run's together. */
    method ClaimRun(r: RunId, token: nat, now: Instant) returns (epoch: Option<nat>)
      modifies this`runs, this`fences
      ensures r !in old(runs) ==> State() == old(State()) && epoch == None
      ensures r in old(runs) ==>
        var fenced := After(old(State()), OpenFence(old(runs)[r].run.session), maxAttempts, now);
        && State() == After(fenced, Step.ClaimRun(r, token), maxAttempts, now)
        && (epoch.Some? <==>
              && old(runs)[r].run.status == RUN_PENDING && old(runs)[r].run.attempts < 3 && old(runs)[r].run.nextAttemptAt <= now
              && forall o :: o in old(runs) && old(runs)[o].run.session == old(runs)[r].run.session ==> old(runs)[o].run.status != RUN_RUNNING)
      ensures epoch.Some? ==> PassesFence(State(), r, token, epoch.value, now)
    {
      if r !in runs {
        return None;
      }
      var session := runs[r].run.session;
      if session !in fences {
        fences := fences[session := 0];
      }
      var next := fences[session] + 1;
      if RunClaimable(State(), r, now) {
        var run := runs[r].run.(status := RUN_RUNNING, attempts := runs[r].run.attempts + 1, epoch := Some(next));
        run := run.(lease := Some(Lease(token, now + LEASE_MS)), phase := DISCOVERING);
        run := run.(scheduled := 0, completed := 0, failed := 0, skipped := 0);
        runs := runs[r := runs[r].(run := run)];
        fences := fences[session := next];
        return Some(next);
      }
      epoch := None;
    }

    method RenewRun(r: RunId, token: nat, now: Instant) returns (renewed: bool)
      modifies this`runs
      ensures renewed <==> OwnsRun(old(State()), r, token, now)
      ensures State() == After(old(State()), Step.RenewRun(r, token), maxAttempts, now)
    {
      renewed := OwnsRun(State(), r, token, now);
      if renewed {
        runs := runs[r := runs[r].(run := runs[r].run.(lease := Some(Lease(token, now + LEASE_MS))))];
      }
    }

    method FailRun(r: RunId, token: nat, now: Instant) returns (owned: bool)
      modifies this`runs
      ensures owned <==> OwnsRun(old(State()), r, token, now)
      ensures owned ==> State() == After(old(State()), Step.FailRun(r, token, now + Backoff(old(runs)[r].run.attempts)), maxAttempts, now)
      ensures !owned ==> State() == old(State())
    {
      owned := OwnsRun(State(), r, token, now);
      if owned {
        var run := runs[r].run;
        if run.attempts >= RUN_ATTEMPTS {
          run := run.(status := RUN_FAILED);
        } else {
          run := run.(status := RUN_PENDING, epoch := None, nextAttemptAt := now + Backoff(run.attempts));
        }
        runs := runs[r := runs[r].(run := run.(lease := None))];
      }
    }

    method RecoverRuns(now: Instant) returns (count: nat)
      modifies this`runs
      ensures State() == After(old(State()), Step.RecoverRuns, maxAttempts, now)
      ensures count == |set r | r in old(runs) && RunExpired(old(runs)[r].run, now)|
    {
      var expired := set r | r in runs && RunExpired(runs[r].run, now);
      count := |expired|;
      var todo := expired;
      while todo != {}
        invariant todo <= expired && runs.Keys == old(runs.Keys)
        invariant forall r :: r in runs ==>
          runs[r] == if r in expired - todo then old(runs)[r].(run := RunSetBack(old(runs)[r].run, now)) else old(runs)[r]
      {
        var r :| r in todo;
        runs := runs[r := runs[r].(run := RunSetBack(runs[r].run, now))];
        todo := todo - {r};
      }
      ghost var expected := After(old(State()), Step.RecoverRuns, maxAttempts, now).runs;
      assert expected.Keys == runs.Keys;
      assert forall r :: r in runs ==> (r in expired <==> RunExpired(old(runs)[r].run, now));
      assert forall r :: r in runs ==> runs[r] == expected[r];
      assert runs == expected;
    }

    /** One discovery: set aside by the guard, or applied, with its items published in the same transaction. */
    method PublishDiscovery(r: RunId, token: nat, epoch: nat, found: seq<Group>, due: set<Group>, now: Instant)
      returns (result: Option<Discovery>)
      requires Distinct(found)
      modifies this`runs, this`guards, this`known, this`active
      ensures result.Some? <==> PassesFence(old(State()), r, token, epoch, now)
      ensures result.None? ==> State() == old(State()) && guards == old(guards) && known == old(known) && active == old(active)
      ensures result.Some? ==>
        var session := old(runs)[r].run.session;
        var guard, d := old(GuardOf(session)), G.Discovery(Elements(found), |old(KnownOf(session))|);
        && guards == old(guards)[session := G.After(guardConfig, guard, d)]
        && (result.value.deferred <==> G.IsDeferred(guardConfig, guard, d))
        && (result.value.deferred <==> MustWait(guardConfig, guard, |old(KnownOf(session))|, |found|, Elements(found)))
        && (result.value.deferred ==>
              known == old(known) && active == old(active)
              && State() == After(old(State()), Defer(r, token, epoch), maxAttempts, now))
        && (!result.value.deferred ==>
              var selected := Selected(old(runs)[r].run.mode, found, due);
              && known == old(known)[session := old(KnownOf(session)) + Elements(found)]
              && active == old(active)[session := Elements(found)]
              && State() == After(old(State()), Publish(r, token, epoch, selected), maxAttempts, now)
              && result.value == Discovery(|found|, |selected|, selected == [], false))
    {
      if !PassesFence(State(), r, token, epoch, now) {
        return None;
      }
      var session := runs[r].run.session;
      var deferred := Judge(session, found);
      if deferred {
        SetAside(r, token, epoch, now);
        return Some(Discovery(|found|, 0, false, true));
      }
      var scheduled := Apply(r, token, epoch, found, due, now);
      result := Some(Discovery(|found|, scheduled, scheduled == 0, false));
    }

    /** The guard's verdict on a discovery, recorded with the session. */
    method Judge(session: Session, found: seq<Group>) returns (deferred: bool)
      requires Distinct(found)
      modifies this`guards
      ensures var guard, d := old(GuardOf(session)), G.Discovery(Elements(found), |KnownOf(session)|);
              guards == old(guards)[session := G.After(guardConfig, guard, d)] && (deferred <==> G.IsDeferred(guardConfig, guard, d))
      ensures deferred <==> MustWait(guardConfig, old(GuardOf(session)), |KnownOf(session)|, |found|, Elements(found))
    {
      var guard := GuardOf(session);
      var baseline := if guard.count.Some? then guard.count.value else |KnownOf(session)|;
      SetOfDistinct(found);
      var suspicious := baseline >= guardConfig.minBaseline && |found| as real < baseline as real * guardConfig.dropRatio;
      var matching := suspicious && guard.suspect == Some(Elements(found));
      var confirmations := if matching then guard.confirmations + 1 else 1;
      deferred := suspicious && confirmations < guardConfig.confirmations;
      guards := guards[session := if deferred then G.Guard(guard.count, Some(Elements(found)), confirmations)
                                  else G.Guard(Some(|found|), None, 0)];
    }

    method SetAside(r: RunId, token: nat, epoch: nat, now: Instant)
      requires PassesFence(State(), r, token, epoch, now)
      modifies this`runs
      ensures State() == After(old(State()), Defer(r, token, epoch), maxAttempts, now)
    {
      var run := runs[r].run;
      runs := runs[r := runs[r].(run := run.(status := RUN_PENDING, epoch := None, nextAttemptAt := now + 5000.0,
                                             attempts := if run.attempts > 0 then run.attempts - 1 else 0, lease := None))];
    }

    /** The group set is replaced and the selected groups become items of the run. */
    method Apply(r: RunId, token: nat, epoch: nat, found: seq<Group>, due: set<Group>, now: Instant) returns (scheduled: nat)
      requires PassesFence(State(), r, token, epoch, now) && Distinct(found)
      modifies this`runs, this`known, this`active
      ensures var session, selected := old(runs)[r].run.session, Selected(old(runs)[r].run.mode, found, due);
        && scheduled == |selected|
        && known == old(known)[session := old(KnownOf(session)) + Elements(found)]
        && active == old(active)[session := Elements(found)]
        && State() == After(old(State()), Publish(r, token, epoch, selected), maxAttempts, now)
    {
      var session, mode := runs[r].run.session, runs[r].run.mode;
      known := known[session := KnownOf(session) + Elements(found)];
      active := active[session := Elements(found)];
      var selected := Select(mode, found, due);
      SelectedDistinct(mode, found, due);
      PublishItems(r, selected, now);
      scheduled := |selected|;
    }

    method PublishItems(r: RunId, selected: seq<Group>, now: Instant)
      requires r in runs
      modifies this`runs
      ensures runs == old(runs)[r := Published(old(runs)[r], selected, now)]
    {
      var run := runs[r].run;
      var items := runs[r].items + map g | g in selected && g !in runs[r].items :: Item(PENDING, 0, now, None, 0);
      run := run.(phase := if |selected| == 0 then RECONCILED else RECONCILING, scheduled := |selected|, lease := None);
      if |selected| == 0 {
        run := run.(status := RUN_COMPLETED);
      }
      runs := runs[r := Ledger(run, items)];
    }

    method Select(mode: Mode, found: seq<Group>, due: set<Group>) returns (selected: seq<Group>)
      ensures selected == Selected(mode, found, due)
    {
      selected := [];
      var i := 0;
      while i < |found|
        invariant 0 <= i <= |found| && selected == Selected(mode, found[..i], due)
      {
        assert found[..i + 1][..i] == found[..i];
        if mode == FULL || found[i] in due {
          selected := selected + [found[i]];
        }
        i := i + 1;
      }
      assert found[..i] == found;
    }

    /** Pacing first, then the guarded update. */
    method ClaimItem(r: RunId, g: Group, token: nat, now: Instant) returns (attempt: Option<nat>)
      requires limits.config.Valid()
      requires forall session :: session in limits.rows ==> P.RowOk(limits.config, limits.rows[session])
      modifies this`runs, limits
      ensures attempt.Some? <==>
        && r in old(runs) && old(runs)[r].run.status == RUN_RUNNING && g in old(runs)[r].items
        && (old(runs)[r].items[g].status == PENDING || old(runs)[r].items[g].status == RETRY)
        && old(runs)[r].items[g].nextAttemptAt <= now && old(runs)[r].items[g].attempts < maxAttempts
        && P.Ready(P.Ensured(limits.config, old(limits.RowOf(runs[r].run.session)), now), now)
      ensures State() == if attempt.Some? then After(old(State()), Step.ClaimItem(r, g, token), maxAttempts, now) else old(State())
      ensures attempt.Some? ==>
        var session := old(runs)[r].run.session;
        var before := P.State(now, old(limits.RowOf(runs[r].run.session)), []);
        && attempt.value == old(runs)[r].items[g].attempts + 1
        && limits.rows == old(limits.rows)[session := P.After(limits.config, before, P.Reserve(token), now).row.value]
      ensures attempt.None? ==>
        limits.rows == if r in old(runs) && old(runs)[r].run.status == RUN_RUNNING && g in old(runs)[r].items
                       then var session := old(runs)[r].run.session;
                            old(limits.rows)[session := P.Ensured(limits.config, old(limits.RowOf(runs[r].run.session)), now)]
                       else old(limits.rows)
    {
      if r !in runs || runs[r].run.status != RUN_RUNNING || g !in runs[r].items {
        return None;
      }
      var session := runs[r].run.session;
      limits.Ensure(session, now);
      var rate := limits.ReadyAndRate(session, now);
      if rate.None? {
        return None;
      }
      var item := runs[r].items[g];
      if (item.status == PENDING || item.status == RETRY) && item.nextAttemptAt <= now && item.attempts < maxAttempts {
        item := item.(status := RUNNING, attempts := item.attempts + 1, lease := Some(Lease(token, now + LEASE_MS)));
        runs := runs[r := runs[r].(items := runs[r].items[g := item])];
        limits.Acquire(session, token, rate.value, now);
        return Some(item.attempts);
      }
      attempt := None;
    }

    /** Both leases are renewed, or neither. */
    method RenewItem(r: RunId, g: Group, token: nat, now: Instant) returns (renewed: bool)
      modifies this`runs, limits
      ensures renewed <==>
        r in old(runs) && OwnsItem(old(runs)[r], g, token, now)
        && P.Owns(old(limits.RowOf(runs[r].run.session)), token)
        && old(limits.rows)[old(runs)[r].run.session].lease.value.expiresAt > now
      ensures State() == if renewed then After(old(State()), Step.RenewItem(r, g, token), maxAttempts, now) else old(State())
      ensures !renewed ==> limits.rows == old(limits.rows)
    {
      if r !in runs || !OwnsItem(runs[r], g, token, now) {
        return false;
      }
      renewed := limits.Renew(runs[r].run.session, token, now);
      if renewed {
        var item := runs[r].items[g].(lease := Some(Lease(token, now + LEASE_MS)));
        runs := runs[r := runs[r].(items := runs[r].items[g := item])];
      }
    }

    /** Recounts the items of a run into the run, and ends it with the last of them. */
    method RefreshParent(r: RunId)
      requires r in runs
      modifies this`runs
      ensures runs == old(runs)[r := Refreshed(old(runs)[r])]
    {
      var completed, failed, skipped, remaining := Count(runs[r].items);
      var run := runs[r].run.(completed := completed, failed := failed, skipped := skipped,
                              phase := if remaining == 0 then RECONCILED else RECONCILING);
      if remaining == 0 {
        run := run.(status := if failed > 0 then RUN_FAILED else RUN_COMPLETED);
      }
      runs := runs[r := runs[r].(run := run)];
    }

    /** The aggregate over one run's items. */
    method Count(items: map<Group, Item>) returns (completed: nat, failed: nat, skipped: nat, remaining: nat)
      ensures completed == |With(items, COMPLETED)| && failed == |With(items, FAILED)| && skipped == |With(items, SKIPPED)|
      ensures remaining == |Remaining(items)|
    {
      completed, failed, skipped, remaining := 0, 0, 0, 0;
      var todo := items.Keys;
      var seen: map<Group, Item> := map[];
      assert With(seen, COMPLETED) == {} && With(seen, FAILED) == {} && With(seen, SKIPPED) == {} && Remaining(seen) == {};
      while todo != {}
        invariant todo <= items.Keys && seen.Keys == items.Keys - todo && forall g :: g in seen ==> seen[g] == items[g]
        invariant completed == |With(seen, COMPLETED)| && failed == |With(seen, FAILED)|
        invariant skipped == |With(seen, SKIPPED)| && remaining == |Remaining(seen)|
      {
        var g :| g in todo;
        CountOne(seen, g, items[g]);
        match items[g].status {
          case COMPLETED => completed := completed + 1;
          case FAILED => failed := failed + 1;
          case SKIPPED => skipped := skipped + 1;
          case _ => remaining := remaining + 1;
        }
        seen := seen[g := items[g]];
        todo := todo - {g};
      }
      assert seen == items;
    }

    /** The end of an item's read moves the item, its parent and the pacing row together. */
    method EndItem(r: RunId, g: Group, token: nat, outcome: Outcome, policy: P.Policy, now: Instant) returns (owned: bool)
      requires limits.config.Valid()
      requires forall session :: session in limits.rows ==> P.RowOk(limits.config, limits.rows[session])
      modifies this`runs, limits
      ensures owned <==> r in old(runs) && OwnsItem(old(runs)[r], g, token, now)
      ensures State() == After(old(State()), Step.EndItem(r, g, token, outcome), maxAttempts, now)
      ensures !owned ==> limits.rows == old(limits.rows)
      ensures owned ==>
        var session := old(runs)[r].run.session;
        limits.rows ==
          if P.Owns(old(limits.RowOf(runs[r].run.session)), token)
          then old(limits.rows)[session := match outcome
                                           case Read(_) => P.Succeeded(limits.config, old(limits.rows)[session])
                                           case Missing => old(limits.rows)[session].(lease := None)
                                           case Failure(_, _) => P.Failed(limits.config, old(limits.rows)[session], policy, now)]
          else old(limits.rows)
    {
      owned := r in runs && OwnsItem(runs[r], g, token, now);
      if !owned {
        return;
      }
      var session, item := runs[r].run.session, runs[r].items[g];
      match outcome {
        case Read(members) =>
          item := item.(status := COMPLETED, members := members);
          limits.Success(session, token);
        case Missing =>
          item := item.(status := SKIPPED);
          limits.Release(session, token);
        case Failure(retryable, retryAt) =>
          if retryable && item.attempts < maxAttempts {
            item := item.(status := RETRY, nextAttemptAt := retryAt);
          } else {
            item := item.(status := FAILED);
          }
          limits.Failure(session, token, policy, now);
      }
      runs := runs[r := runs[r].(items := runs[r].items[g := item.(lease := None)])];
      RefreshParent(r);
    }

    /** Expired items go back to the queue or fail; their runs are recounted and expired pacing leases freed. */
    method RecoverItems(now: Instant)
      modifies this`runs, limits
      ensures State() == After(old(State()), Step.RecoverItems, maxAttempts, now)
      ensures limits.rows == map session | session in old(limits.rows) ::
        if old(limits.rows)[session].lease.Some? && old(limits.rows)[session].lease.value.expiresAt < now
        then old(limits.rows)[session].(lease := None) else old(limits.rows)[session]
    {
      var todo := runs.Keys;
      while todo != {}
        invariant todo <= old(runs.Keys) && runs.Keys == old(runs.Keys) && limits.rows == old(limits.rows)
        invariant forall r :: r in runs ==> runs[r] == if r in todo then old(runs)[r] else ItemsRecovered(old(runs)[r], maxAttempts, now)
      {
        var r :| r in todo;
        var expired := ExpiredItems(runs[r].items, now);
        if expired != {} {
          runs := runs[r := runs[r].(items := RecoveredItems(runs[r].items, maxAttempts, now))];
          RefreshParent(r);
        }
        todo := todo - {r};
      }
      assert runs == After(old(State()), Step.RecoverItems, maxAttempts, now).runs;
      limits.rows := map session | session in limits.rows ::
        if limits.rows[session].lease.Some? && limits.rows[session].lease.value.expiresAt < now
        then limits.rows[session].(lease := None) else limits.rows[session];
    }
  }

  /** What one more item adds to the counts. */
  lemma CountOne(seen: map<Group, Item>, g: Group, item: Item)
    requires g !in seen
    ensures var more := seen[g := item];
      && (forall st: ItemStatus :: |With(more, st)| == |With(seen, st)| + if item.status == st then 1 else 0)
      && |Remaining(more)| == |Remaining(seen)| + if IsOpen(item.status) then 1 else 0
  {
    forall st: ItemStatus ensures |With(seen[g := item], st)| == |With(seen, st)| + if item.status == st then 1 else 0 {
      CountStatus(seen, g, item, st);
    }
    CountRemaining(seen, g, item);
  }

  lemma CountStatus(seen: map<Group, Item>, g: Group, item: Item, st: ItemStatus)
    requires g !in seen
    ensures |With(seen[g := item], st)| == |With(seen, st)| + if item.status == st then 1 else 0
  {
    if item.status == st {
      assert With(seen[g := item], st) == With(seen, st) + {g};
    } else {
      assert With(seen[g := item], st) == With(seen, st);
    }
  }

  lemma CountRemaining(seen: map<Group, Item>, g: Group, item: Item)
    requires g !in seen
    ensures |Remaining(seen[g := item])| == |Remaining(seen)| + if IsOpen(item.status) then 1 else 0
  {
    if IsOpen(item.status) {
      assert Remaining(seen[g := item]) == Remaining(seen) + {g};
    } else {
      assert Remaining(seen[g := item]) == Remaining(seen);
    }
  }
}
