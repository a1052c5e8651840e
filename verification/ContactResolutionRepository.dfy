/** The resolution tables of one session, with `claim`, `resolve` and `fail` as transactions on them. */
module ContactResolutionRepository {
  import opened Delays
  import opened Options
  import opened Reachability
  import opened ContactResolution
  import C = ContactClusters

  type RunId = nat
  datatype RunStatus = PENDING | RUNNING | RETRY | COMPLETED | FAILED
  datatype Lease = Lease(token: nat, expiresAt: nat)

  /** Times are in seconds. */
  datatype Run = Run(generation: nat, cutoff: nat, status: RunStatus, attempts: nat, nextAttemptAt: nat,
                     lease: Option<Lease>, completedAt: nat)

  datatype Outcome = Outcome(identities: nat, clusters: nat, linked: nat, conflicts: nat, affected: set<Id>)

  const LEASE_SECONDS := 300
  const MAX_ATTEMPTS := 5

  predicate Claimable(run: Run, now: nat) {
    || (run.status in {PENDING, RETRY} && run.nextAttemptAt <= now)
    || (run.status == RUNNING && run.lease.Some? && run.lease.value.expiresAt < now)
  }

  predicate Owns(runs: map<RunId, Run>, id: RunId, token: nat, now: nat) {
    id in runs && runs[id].status == RUNNING
    && runs[id].lease.Some? && runs[id].lease.value.token == token && runs[id].lease.value.expiresAt > now
  }

  /** `a` comes before `b` in `ORDER BY completed_at DESC, id DESC`. */
  predicate CompletedLater(runs: map<RunId, Run>, a: RunId, b: RunId)
    requires a in runs && b in runs
  {
    runs[a].completedAt > runs[b].completedAt || (runs[a].completedAt == runs[b].completedAt && a >= b)
  }

  /** The latest completed run other than `except`, if there is one. */
  predicate IsLatestCompleted(runs: map<RunId, Run>, except: RunId, latest: Option<RunId>) {
    match latest
    case None => forall id :: id in runs && id != except ==> runs[id].status != COMPLETED
    case Some(best) =>
      && best in runs && best != except && runs[best].status == COMPLETED
      && forall id :: id in runs && id != except && runs[id].status == COMPLETED ==>
           && runs[id].completedAt <= runs[best].completedAt
           && (runs[id].completedAt == runs[best].completedAt ==> id <= best)
  }

  function ConflictRows(q: Input, r: Resolution): set<(Id, ConflictCode)>
    requires q.Valid()
  {
    (set id | id in r.assignments && HasManyTargets(q.Edges(), id) :: (id, MULTIPLE_PHONE_TARGETS))
    + (set id | id in r.assignments && ClaimsSharedPhone(q.ids, q.Edges(), id)
       :: (id, PHONE_SHARED_BY_MULTIPLE_NON_PHONE_IDENTITIES))
  }

  /** An assigned identity is recorded for each reason that evidence gives to quarantine it. */
  lemma ConflictRowsExactly(q: Input, r: Resolution, a: Id)
    requires q.Valid()
    ensures (a, MULTIPLE_PHONE_TARGETS) in ConflictRows(q, r) <==> a in r.assignments && C.HasTwoPhones(q, a)
    ensures (a, PHONE_SHARED_BY_MULTIPLE_NON_PHONE_IDENTITIES) in ConflictRows(q, r) <==> a in r.assignments && C.HasDisputedPhone(q, a)
  {
    assert HasManyTargets(q.Edges(), a) <==> C.HasTwoPhones(q, a);
    if ClaimsSharedPhone(q.ids, q.Edges(), a) { C.SharedIsDisputed(q, a); }
    if C.HasDisputedPhone(q, a) { C.DisputedIsShared(q, a); }
  }

  /** The members of clusters of more than one identity. */
  ghost function Linked(r: Resolution): set<Id> {
    set id | id in r.assignments && |Members(r, r.assignments[id].cluster)| > 1
  }

  function Quarantined(r: Resolution): set<Id> {
    set id | id in r.assignments && r.assignments[id].status == QUARANTINED
  }

  ghost predicate IsOutcome(previous: Resolution, r: Resolution, outcome: Outcome) {
    && outcome.identities == |r.assignments| && outcome.clusters == |r.clusters|
    && outcome.linked == |Linked(r)| && outcome.conflicts == |Quarantined(r)|
    && outcome.affected == Affected(previous, r)
  }

  class Repository {
    var ids: map<Id, Identity>
    var evidence: seq<Evidence>
    var names: map<ObservationId, NameObservation>
    var runs: map<RunId, Run>
    var resolutions: map<RunId, Resolution>
    var conflicts: map<RunId, set<(Id, ConflictCode)>>

    /** Foreign keys: evidence ends are identities, completed runs have their tables. */
    ghost predicate Valid()
      reads this
    {
      && (forall e :: e in evidence ==> e.left in ids && e.right in ids)
      && (forall id :: id in runs && runs[id].status == COMPLETED ==> id in resolutions)
    }

    function InputOf(id: RunId): (q: Input)
      requires id in runs
      reads this
      ensures Valid() ==> q.Valid()
    {
      Input(ids, evidence, names, runs[id].generation, runs[id].cutoff)
    }

    function ResolutionOf(run: Option<RunId>): Resolution
      reads this
    {
      if run.Some? && run.value in resolutions then resolutions[run.value] else NO_RESOLUTION
    }

    method Claim(token: nat, now: nat) returns (claimed: Option<RunId>)
      modifies this`runs
      ensures claimed.None? ==> runs == old(runs) && forall id :: id in runs ==>
        !(runs[id].status in {PENDING, RETRY} && runs[id].nextAttemptAt <= now)
        && !(runs[id].status == RUNNING && runs[id].lease.Some? && runs[id].lease.value.expiresAt < now)
      ensures claimed.Some? ==>
        var id := claimed.value;
        && id in old(runs)
        && (var run := old(runs)[id];
            (run.status in {PENDING, RETRY} && run.nextAttemptAt <= now)
            || (run.status == RUNNING && run.lease.Some? && run.lease.value.expiresAt < now))
        && runs == old(runs)[id := old(runs)[id].(status := RUNNING, attempts := old(runs)[id].attempts + 1,
                                                  lease := Some(Lease(token, now + LEASE_SECONDS)))]
        && Owns(runs, id, token, now)
    {
      var candidates := set id | id in runs && Claimable(runs[id], now);
      if candidates == {} {
        assert forall id :: id in runs ==> id !in candidates;
        return None;
      }
      var id :| id in candidates;
      var run := runs[id];
      run := run.(status := RUNNING);
      run := run.(attempts := run.attempts + 1);
      run := run.(lease := Some(Lease(token, now + LEASE_SECONDS)));
      runs := runs[id := run];
      claimed := Some(id);
    }

    method Fail(id: RunId, token: nat, now: nat)
      modifies this`runs
      ensures if id in old(runs) && old(runs)[id].status == RUNNING
                 && old(runs)[id].lease.Some? && old(runs)[id].lease.value.token == token
              then runs == old(runs)[id := old(runs)[id].(
                             status := if old(runs)[id].attempts >= MAX_ATTEMPTS then FAILED else RETRY,
                             nextAttemptAt := now + RetryDelay(old(runs)[id].attempts), lease := None)]
              else runs == old(runs)
    {
      if id in runs && runs[id].status == RUNNING && runs[id].lease.Some? && runs[id].lease.value.token == token {
        var run := runs[id];
        var status := if run.attempts >= MAX_ATTEMPTS then FAILED else RETRY;
        runs := runs[id := run.(status := status, nextAttemptAt := now + RetryDelay(run.attempts), lease := None)];
      }
    }

    /** One resolution transaction. Losing the lease changes nothing. */
    method Resolve(id: RunId, token: nat, now: nat) returns (outcome: Option<Outcome>)
      requires Valid()
      modifies this`runs, this`resolutions, this`conflicts
      ensures Valid()
      ensures outcome.Some? <==> Owns(old(runs), id, token, now)
      ensures outcome.None? ==> runs == old(runs) && resolutions == old(resolutions) && conflicts == old(conflicts)
      ensures outcome.Some? ==>
        && id in resolutions && Resolves(old(InputOf(id)), resolutions[id])
        && resolutions == old(resolutions)[id := resolutions[id]]
        && conflicts == old(conflicts)[id := ConflictRows(old(InputOf(id)), resolutions[id])]
        && runs == old(runs)[id := old(runs)[id].(status := COMPLETED, lease := None, completedAt := now)]
      ensures outcome.Some? ==>
        exists previous :: IsLatestCompleted(old(runs), id, previous)
                           && IsOutcome(old(ResolutionOf(previous)), resolutions[id], outcome.value)
    {
      if !Owns(runs, id, token, now) {
        return None;
      }
      var input := InputOf(id);
      var resolution, rows := Build(input);
      var previous := LatestCompleted(id);
      var summary := Summarize(ResolutionOf(previous), resolution);
      conflicts := conflicts[id := rows];
      resolutions := resolutions[id := resolution];
      runs := runs[id := runs[id].(status := COMPLETED, lease := None, completedAt := now)];
      outcome := Some(summary);
    }

    /** `ORDER BY completed_at DESC, id DESC LIMIT 1` over the other completed runs. */
    method LatestCompleted(except: RunId) returns (latest: Option<RunId>)
      ensures IsLatestCompleted(runs, except, latest)
    {
      latest := None;
      var todo := set id | id in runs && id != except && runs[id].status == COMPLETED;
      ghost var all := todo;
      while todo != {}
        invariant todo <= all
        invariant latest.Some? ==> latest.value in all && forall id :: id in all - todo ==> CompletedLater(runs, latest.value, id)
        invariant latest.None? ==> todo == all
      {
        var id :| id in todo;
        assert forall x :: x in all - (todo - {id}) <==> x in all - todo || x == id;
        if latest.None? || CompletedLater(runs, id, latest.value) {
          latest := Some(id);
        }
        todo := todo - {id};
      }
      forall id | id in runs && id != except && runs[id].status == COMPLETED
        ensures latest.Some? && CompletedLater(runs, latest.value, id)
      {
        assert id in all - todo;
      }
    }
  }

  function Group(component: map<Id, Id>, c: Id): set<Id> {
    set x | x in component && component[x] == c
  }

  ghost predicate IsClusterRow(ids: map<Id, Identity>, names: map<ObservationId, NameObservation>, members: set<Id>,
                               generation: nat, cutoff: nat, row: Cluster)
  {
    && row.size == |members|
    && (forall v :: row.phone == Some(v) <==> PhoneValues(ids, members) == {v})
    && IsClusterName(names, members, generation, cutoff, row.name, row.nameFrom)
  }

  lemma ConflictTable(ids: map<Id, Identity>, edges: set<Evidence>, many: set<Id>, sharing: set<Id>)
    requires References(ids, edges)
    requires many == set e | e in edges && HasManyTargets(edges, e.left) :: e.left
    requires sharing == set e | e in edges && ClaimsSharedPhone(ids, edges, e.left) :: e.left
    ensures forall id :: id in many <==> HasManyTargets(edges, id)
    ensures forall id :: id in sharing <==> ClaimsSharedPhone(ids, edges, id)
  {
  }

  method Summarize(previous: Resolution, r: Resolution) returns (outcome: Outcome)
    requires forall id :: id in r.assignments ==>
      r.assignments[id].cluster in r.clusters
      && r.clusters[r.assignments[id].cluster].size == |Members(r, r.assignments[id].cluster)|
    ensures IsOutcome(previous, r, outcome)
  {
    var linked := set id | id in r.assignments && r.clusters[r.assignments[id].cluster].size > 1;
    assert linked == Linked(r);
    outcome := Outcome(|r.assignments|, |r.clusters|, |linked|, |Quarantined(r)|, Affected(previous, r));
  }

  lemma EligibleTable(ids: map<Id, Identity>, edges: set<Evidence>, conflicted: set<Id>, eligible: set<Link>)
    requires References(ids, edges)
    requires forall id :: id in conflicted <==> IsConflicted(ids, edges, id)
    requires eligible == set e | e in edges && (e.source == PHONE_JID_DERIVATION || e.left !in conflicted) :: (e.left, e.right)
    ensures eligible == EligibleEdges(ids, edges)
  {
    forall e | e in edges
      ensures (e.source == PHONE_JID_DERIVATION || e.left !in conflicted) <==> IsEligible(ids, edges, e) {}
  }

  lemma ConflictRowTable(q: Input, r: Resolution, many: set<Id>, sharing: set<Id>)
    requires q.Valid()
    requires forall id :: id in many <==> HasManyTargets(q.Edges(), id)
    requires forall id :: id in sharing <==> ClaimsSharedPhone(q.ids, q.Edges(), id)
    ensures (set x | x in r.assignments && x in many :: (x, MULTIPLE_PHONE_TARGETS))
            + (set x | x in r.assignments && x in sharing :: (x, PHONE_SHARED_BY_MULTIPLE_NON_PHONE_IDENTITIES))
            == ConflictRows(q, r)
  {
  }

  /** The conflict table, and the distinct edges that survive it. */
  method SiftEvidence(q: Input) returns (many: set<Id>, sharing: set<Id>, eligible: set<Link>)
    requires q.Valid()
    ensures forall id :: id in many <==> HasManyTargets(q.Edges(), id)
    ensures forall id :: id in sharing <==> ClaimsSharedPhone(q.ids, q.Edges(), id)
    ensures eligible == EligibleEdges(q.ids, q.Edges())
  {
    var edges := q.Edges();
    many := set e | e in edges && HasManyTargets(edges, e.left) :: e.left;
    sharing := set e | e in edges && ClaimsSharedPhone(q.ids, edges, e.left) :: e.left;
    ConflictTable(q.ids, edges, many, sharing);
    var conflicted := many + sharing;
    eligible := set e | e in edges && (e.source == PHONE_JID_DERIVATION || e.left !in conflicted) :: (e.left, e.right);
    EligibleTable(q.ids, edges, conflicted, eligible);
  }

  /** Evidence to conflicts, eligible edges, components, clusters and assignments, in that order. */
  method Build(q: Input) returns (resolution: Resolution, rows: set<(Id, ConflictCode)>)
    requires q.Valid()
    ensures Resolves(q, resolution)
    ensures rows == ConflictRows(q, resolution)
  {
    var many, sharing, eligible := SiftEvidence(q);
    var component := Components(Nodes(q.ids, q.cutoff), eligible);
    resolution := Assemble(q, component, many + sharing);
    ConflictRowTable(q, resolution, many, sharing);
    rows := (set x | x in resolution.assignments && x in many :: (x, MULTIPLE_PHONE_TARGETS))
            + (set x | x in resolution.assignments && x in sharing :: (x, PHONE_SHARED_BY_MULTIPLE_NON_PHONE_IDENTITIES));
  }

  method Assemble(q: Input, component: map<Id, Id>, conflicted: set<Id>) returns (resolution: Resolution)
    requires q.Valid()
    requires forall id :: id in component <==> q.Grouped(id)
    requires forall id :: id in component ==> component[id] == q.ClusterOf(id)
    requires forall id :: id in conflicted <==> IsConflicted(q.ids, q.Edges(), id)
    ensures Resolves(q, resolution)
  {
    var clusters := BuildClusters(q, component);
    var assignments := map x | x in component ::
      Assignment(component[x], if x in conflicted then QUARANTINED else RESOLVED,
                 if x in conflicted then None else clusters[component[x]].phone);
    resolution := Resolution(assignments, clusters);
    AssembledResolves(q, component, resolution);
  }

  lemma AssembledResolves(q: Input, component: map<Id, Id>, r: Resolution)
    requires q.Valid()
    requires forall id :: id in component <==> q.Grouped(id)
    requires forall id :: id in component ==> component[id] == q.ClusterOf(id)
    requires r.clusters.Keys == component.Values && r.assignments.Keys == component.Keys
    requires forall c :: c in r.clusters ==>
      Group(component, c) != {} && IsClusterRow(q.ids, q.names, Group(component, c), q.generation, q.cutoff, r.clusters[c])
    requires forall id :: id in component ==>
      var hidden := IsConflicted(q.ids, q.Edges(), id);
      r.assignments[id] == Assignment(component[id], if hidden then QUARANTINED else RESOLVED,
                                      if hidden then None else r.clusters[component[id]].phone)
    ensures Resolves(q, r)
  {
    forall c ensures Members(r, c) == Group(component, c) {}
    assert forall id :: id in component ==> component[id] in component.Values;
  }

  method BuildClusters(q: Input, component: map<Id, Id>) returns (clusters: map<Id, Cluster>)
    ensures clusters.Keys == component.Values
    ensures forall c :: c in clusters ==>
      Group(component, c) != {} && IsClusterRow(q.ids, q.names, Group(component, c), q.generation, q.cutoff, clusters[c])
  {
    clusters := map[];
    var todo := component.Values;
    while todo != {}
      invariant todo <= component.Values && clusters.Keys == component.Values - todo
      invariant forall c :: c in clusters ==>
        Group(component, c) != {} && IsClusterRow(q.ids, q.names, Group(component, c), q.generation, q.cutoff, clusters[c])
    {
      var c :| c in todo;
      ghost var x :| x in component && component[x] == c;
      assert x in Group(component, c);
      var row := BuildCluster(q.ids, q.names, Group(component, c), q.generation, q.cutoff);
      clusters := clusters[c := row];
      todo := todo - {c};
    }
  }

  method BuildCluster(ids: map<Id, Identity>, names: map<ObservationId, NameObservation>, members: set<Id>,
                      generation: nat, cutoff: nat) returns (row: Cluster)
    ensures IsClusterRow(ids, names, members, generation, cutoff, row)
  {
    var phones := PhoneValues(ids, members);
    var phone: Option<string> := None;
    if |phones| == 1 {
      var v :| v in phones;
      assert phones == {v} by { assert |phones - {v}| == 0; }
      phone := Some(v);
    } else {
      assert forall v :: phones != {v};
    }
    var best: Option<ObservationId> := None;
    var todo := set o | o in names && NameApplies(names[o], members, generation, cutoff);
    ghost var all := todo;
    while todo != {}
      invariant todo <= all
      invariant best.Some? ==> best.value in all && forall o :: o in all - todo ==> ListedFirst(names, best.value, o)
      invariant best.None? ==> todo == all
    {
      var o :| o in todo;
      assert forall x :: x in all - (todo - {o}) <==> x in all - todo || x == o;
      if best.None? || ListedFirst(names, o, best.value) {
        best := Some(o);
      }
      todo := todo - {o};
    }
    assert forall o :: o in names && NameApplies(names[o], members, generation, cutoff) ==> o in all;
    row := Cluster(phone, |members|, if best.Some? then Some(names[best.value].name) else None, best);
  }
}
