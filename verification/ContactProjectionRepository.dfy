/** The projection tables of one session as mutable fields, with each transaction proved to take the step
    the projection model gives it. */
module ContactProjectionRepository {
  import opened Delays
  import opened Options
  import opened Orders
  import opened Reachability
  import opened ContactResolution
  import opened ContactNames
  import opened ContactPushNames
  import opened ContactRanking
  import P = ContactProjection

  class ProjectionQueue {
    const ids: Directory
    var members: map<P.Key, P.Member>
    var work: map<Id, P.Work>
    var runs: seq<Resolution>
    var heard: seq<Heard>
    var gone: set<nat>
    var issued: seq<P.Cutoff>

    function State(): P.State
      reads this
    {
      P.State(members, work, runs, heard, gone, issued)
    }

    ghost predicate Valid()
      reads this
    {
      DistinctHeard(heard) && P.Known(ids, State())
    }

    /** The upsert of one row. */
    method Request(c: Id, now: nat)
      modifies this`work, this`issued
      ensures State() == P.Upsert(old(State()), c, now)
    {
      var row := P.Work(P.PENDING, |issued|, P.Cutoff(|runs|, |heard|), 0, None, None, 0, now, None);
      if c in work {
        var present := work[c];
        row := row.(completed := present.completed, lease := present.lease);
        if (present.status == P.RUNNING || present.status == P.RETRY) && present.active.Some? {
          row := row.(status := present.status, active := present.active, cursor := present.cursor,
                      attempts := present.attempts);
        }
      }
      work := work[c := row];
      issued := issued + [P.Cutoff(|runs|, |heard|)];
    }

    method RequestAll(targets: set<Id>, now: nat) returns (ghost order: seq<Id>)
      modifies this`work, this`issued
      ensures P.Lists(order, targets) && State() == P.UpsertAll(old(State()), order, now)
    {
      ghost var start := State();
      var todo := targets;
      order := [];
      while todo != {}
        invariant todo <= targets && members == start.members && runs == start.runs && heard == start.heard && gone == start.gone
        invariant forall c :: c in targets <==> c in todo || c in order
        invariant forall i :: 0 <= i < |order| ==> order[i] !in todo
        invariant forall i, j :: 0 <= i < j < |order| ==> order[i] != order[j]
        invariant |order| + |todo| == |targets|
        invariant State() == P.UpsertAll(start, order, now)
      {
        var c :| c in todo;
        Request(c, now);
        assert (order + [c])[..|order|] == order;
        order := order + [c];
        todo := todo - {c};
      }
    }

    /** Canonicalize, upsert each canonical identity once, then retire the rows of superseded aliases. */
    method Enqueue(requested: set<Id>, now: nat) returns (ghost order: seq<Id>)
      modifies this`work, this`issued
      ensures P.Lists(order, P.Targets(ids, old(State()), requested))
      ensures State() == P.Enqueue(ids, old(State()), requested, order, now)
    {
      var latest := if runs == [] then NO_RESOLUTION else runs[|runs| - 1];
      var sources := requested * ids.Keys;
      var targets := set id | id in sources :: Canonical(latest, id);
      assert targets == P.Targets(ids, State(), requested);
      order := RequestAll(targets, now);
      RetireAliases(latest, sources);
    }

    method RetireAliases(latest: Resolution, sources: set<Id>)
      requires latest == P.Latest(State())
      modifies this`work
      ensures State() == P.Retire(old(State()), sources)
    {
      ghost var start := State();
      var todo := sources;
      while todo != {}
        invariant todo <= sources && work.Keys == start.work.Keys
        invariant forall id :: id in work ==>
          work[id] == (if id !in todo && P.IsRetired(start, sources, id)
                       then start.work[id].(status := P.IDLE, active := None, cursor := None, lease := None)
                       else start.work[id])
      {
        var id :| id in todo;
        if Canonical(latest, id) != id && id in work {
          var row := work[id];
          if row.status == P.PENDING || row.status == P.RETRY || row.status == P.FAILED {
            work := work[id := row.(status := P.IDLE, active := None, cursor := None, lease := None)];
          }
        }
        todo := todo - {id};
      }
      assert work == P.Retire(start, sources).work;
    }

    /** Any claimable row may be taken: locked rows are skipped. */
    method Claim(token: nat, now: nat) returns (claimed: Option<Id>)
      modifies this`work
      ensures claimed.None? ==> State() == old(State()) && forall c :: c in work ==>
        !(work[c].status in {P.PENDING, P.RETRY} && work[c].nextAttemptAt <= now)
        && !(work[c].status == P.RUNNING && work[c].lease.Some? && work[c].lease.value.expiresAt < now)
      ensures claimed.Some? ==>
        && claimed.value in old(work)
        && (var w := old(work)[claimed.value];
            (w.status in {P.PENDING, P.RETRY} && w.nextAttemptAt <= now)
            || (w.status == P.RUNNING && w.lease.Some? && w.lease.value.expiresAt < now))
        && State() == P.Claim(old(State()), claimed.value, token, now)
    {
      var candidates := set c | c in work && P.Claimable(work[c], now);
      if candidates == {} {
        assert forall c :: c in work ==> c !in candidates;
        return None;
      }
      var c :| c in candidates;
      var row := work[c];
      if row.active.None? {
        row := row.(active := Some(P.Active(row.requested, row.cutoff, row.cutoff.runs)));
      } else if row.active.value.run == 0 {
        row := row.(active := Some(row.active.value.(run := row.active.value.cutoff.runs)));
      }
      row := row.(status := P.RUNNING, attempts := row.attempts + 1, lease := Some(P.Lease(token, now + P.LEASE_SECONDS)));
      work := work[c := row];
      claimed := Some(c);
    }

    /** The newest push name of each identity, of those inserted first. */
    method FindNewest(count: nat) returns (pushes: map<Id, Push>)
      ensures pushes == P.PushesAt(State(), count)
    {
      pushes := map[];
      ghost var table := if count <= |heard| then heard[..count] else heard;
      var i := 0;
      while i < count && i < |heard|
        invariant 0 <= i <= |table| && i <= count && pushes == Newest(table[..i], gone)
      {
        var row := heard[i];
        assert table[..i + 1][..i] == table[..i] && table[..i + 1][i] == row;
        if i !in gone && (row.id !in pushes || StrictlyNewer(row.push, pushes[row.id])) {
          pushes := pushes[row.id := row.push];
        }
        i := i + 1;
      }
      assert table[..i] == table;
    }

    /** The newest push name among `among`. */
    method FindNewestPush(pushes: map<Id, Push>, among: set<Id>) returns (name: Option<string>)
      requires DistinctPushes(pushes)
      ensures name == NewestPush(pushes, among)
    {
      var candidates := set id | id in among && id in pushes;
      if candidates == {} {
        assert forall id :: id in among && id in pushes ==> id in candidates;
        return None;
      }
      var best :| best in candidates;
      var todo := candidates - {best};
      while todo != {}
        invariant todo <= candidates && best in candidates - todo
        invariant forall o :: o in candidates - todo ==> NewerPush(pushes[best], pushes[o])
      {
        var id :| id in todo;
        assert forall o :: o in candidates - (todo - {id}) <==> o in candidates - todo || o == id;
        if !NewerPush(pushes[best], pushes[id]) {
          best := id;
        }
        todo := todo - {id};
      }
      assert forall o :: o in among && o in pushes ==> o in candidates;
      assert IsNewest(pushes, among, best);
      NewestIsUnique(pushes, among, best);
      name := Some(pushes[best].name);
    }

    /** The columns one member gets. */
    method ProjectMember(pushes: map<Id, Push>, r: Resolution, m: P.Member) returns (shown: Shown)
      requires m.identity in ids && DistinctPushes(pushes)
      ensures shown == Projected(ids, pushes, r, m.identity, m.participantName)
    {
      var id := m.identity;
      var kind := ids[id].kind;
      var phone, contactName, aliasName := Unresolved(ids[id]), None, None;
      if IsResolved(r, id) {
        var assignment := r.assignments[id];
        phone := assignment.phone;
        contactName := ClusterName(r, assignment.cluster);
        aliasName := FindNewestPush(pushes, Aliases(r, assignment.cluster) - {id});
      }
      if contactName.Some? {
        return Shown(kind, phone, contactName, Some(OPENWA_CONTACT_NAME));
      } else if m.participantName.Some? {
        return Shown(kind, phone, m.participantName, Some(GROUP_PARTICIPANT_NAME));
      } else if id in pushes {
        return Shown(kind, phone, Some(pushes[id].name), Some(OPENWA_PUSH_NAME));
      } else if aliasName.Some? {
        return Shown(kind, phone, aliasName, Some(RESOLVED_ALIAS_PUSH_NAME));
      }
      shown := Shown(kind, phone, None, None);
    }

    /** `ORDER BY ... LIMIT batch` over the members ahead of the cursor. */
    method SelectPage(ahead: set<P.Key>, batch: nat) returns (page: seq<P.Key>)
      ensures page == FirstN(ahead, batch)
    {
      page := [];
      var rest := ahead;
      while |page| < batch && rest != {}
        invariant |page| <= batch
        invariant FirstN(ahead, batch) == page + FirstN(rest, batch - |page|)
        decreases rest
      {
        LeastExists(rest);
        var k :| IsLeast(rest, k);
        assert k == Min(rest);
        ghost var tail := FirstN(rest - {k}, batch - |page| - 1);
        assert page + ([k] + tail) == (page + [k]) + tail;
        page := page + [k];
        rest := rest - {k};
      }
      assert page + [] == page;
    }

    /** One page of the claimed identity: `(updated, completed)`, or nothing if ownership was lost. */
    method Project(c: Id, token: nat, batch: nat, now: nat) returns (result: Option<(nat, bool)>)
      requires Valid() && batch > 0
      modifies this`members, this`work
      ensures Valid()
      ensures result.Some? <==> P.Owns(old(State()), c, token, now)
      ensures result.None? ==> State() == old(State())
      ensures result.Some? ==>
        && State() == P.ProjectPage(ids, old(State()), c, batch, now)
        && result.value.0 == |P.Page(old(State()), c, batch)| && (result.value.1 <==> result.value.0 < batch)
    {
      if !P.Owns(State(), c, token, now) {
        return None;
      }
      ghost var start := State();
      var row := work[c];
      var active := row.active.value;
      var page := SelectPage(P.Ahead(State(), c), batch);
      WritePage(page, active);
      if |page| < batch {
        row := row.(completed := active.revision, status := if row.requested > active.revision then P.PENDING else P.IDLE,
                    active := None, cursor := None, attempts := 0, nextAttemptAt := now, lease := None);
      } else {
        row := row.(cursor := Some(page[|page| - 1]), lease := Some(row.lease.value.(expiresAt := now + P.LEASE_SECONDS)));
      }
      work := work[c := row];
      result := Some((|page|, |page| < batch));
    }

    /** The guarded update of the page's members. */
    method WritePage(page: seq<P.Key>, active: P.Active)
      requires Valid()
      modifies this`members
      ensures Valid()
      ensures members == map k | k in old(members) ::
        if k in page then P.Written(ids, old(State()), active, old(members)[k]) else old(members)[k]
    {
      ghost var start := State();
      var r := P.RunAt(State(), active.run);
      var pushes := FindNewest(active.cutoff.heard);
      NewestAreDistinct(if active.cutoff.heard <= |heard| then heard[..active.cutoff.heard] else heard, gone);
      var i := 0;
      while i < |page|
        invariant 0 <= i <= |page| && members.Keys == start.members.Keys && Valid()
        invariant forall k :: k in members ==>
          members[k] == (if k in page[..i] then P.Written(ids, start, active, start.members[k]) else start.members[k])
      {
        var k := page[i];
        if k in members && members[k].revision <= active.revision {
          var shown := ProjectMember(pushes, r, members[k]);
          members := members[k := members[k].(revision := active.revision, run := active.run, seen := pushes, shown := shown)];
        }
        assert page[..i + 1] == page[..i] + [k];
        i := i + 1;
      }
      assert page[..i] == page;
    }

    /** Gives the claim back without counting a failure. */
    method Release(c: Id, token: nat, now: nat)
      modifies this`work
      ensures State() == if P.Holds(old(State()), c, token) then P.Release(old(State()), c, now) else old(State())
    {
      if P.Holds(State(), c, token) {
        work := work[c := work[c].(status := P.PENDING, nextAttemptAt := now, lease := None)];
      }
    }

    method Fail(c: Id, token: nat, now: nat)
      modifies this`work
      ensures State() == if P.Holds(old(State()), c, token) then P.Fail(old(State()), c, now) else old(State())
      ensures P.Holds(old(State()), c, token) ==>
        && c in old(work) && c in work && work[c].lease.None?
        && (work[c].status == P.FAILED <==> old(work)[c].attempts >= 5) && (work[c].status == P.RETRY <==> old(work)[c].attempts < 5)
        && work[c].active == old(work)[c].active && work[c].cursor == old(work)[c].cursor
    {
      if P.Holds(State(), c, token) {
        var row := work[c];
        var status := if row.attempts >= P.MAX_ATTEMPTS then P.FAILED else P.RETRY;
        work := work[c := row.(status := status, nextAttemptAt := now + RetryDelay(row.attempts), lease := None)];
      }
    }

    /** A resolution run completes and queues what it changed. */
    method Complete(r: Resolution, now: nat) returns (ghost order: seq<Id>)
      modifies this`runs, this`work, this`issued
      ensures P.Lists(order, P.Targets(ids, old(State()).(runs := old(runs) + [r]), Affected(P.Latest(old(State())), r)))
      ensures State() == P.Complete(ids, old(State()), r, order, now)
    {
      var previous := if runs == [] then NO_RESOLUTION else runs[|runs| - 1];
      runs := runs + [r];
      order := Enqueue(Affected(previous, r), now);
    }

    /** A member row is written and its identity queued. */
    method Observe(k: P.Key, id: Id, name: Option<string>, now: nat) returns (ghost order: seq<Id>)
      requires id in ids
      modifies this`members, this`work, this`issued
      ensures P.Lists(order, P.Targets(ids, old(State()), {id}))
      ensures State() == P.Observe(ids, old(State()), k, id, name, order, now)
    {
      order := Enqueue({id}, now);
      var since := if issued == [] then 0 else |issued| - 1;
      if k in members {
        members := members[k := members[k].(identity := id, participantName := name, since := since)];
      } else {
        members := members[k := P.Member(id, name, 0, 0, Unprojected, since, map[])];
      }
    }

    /** A sender's push name: its newest one so far is looked up, the new one inserted, and the identity queued
        if it had none or the new one is newer and reads differently. */
    method HearSender(id: Id, push: Push, now: nat) returns (ghost order: seq<Id>)
      requires id in ids && IsNew(heard, push)
      modifies this`heard, this`work, this`issued
      ensures var pushes, t := P.Pushes(old(State())), old(State()).(heard := old(heard) + [Heard(id, push)]);
        && State() == P.HearSender(ids, old(State()), id, push, order, now)
        && if id !in pushes || (IsNoOlder(push, pushes[id]) && push.observation != pushes[id].observation && push.name != pushes[id].name)
           then P.Lists(order, P.Targets(ids, old(State()), {id})) && State() == P.Enqueue(ids, t, {id}, order, now)
           else State() == t
    {
      var pushes := FindNewest(|heard|);
      heard := heard + [Heard(id, push)];
      order := [];
      if id !in pushes || (StrictlyNewer(push, pushes[id]) && push.name != pushes[id].name) {
        assert P.Targets(ids, State(), {id}) == P.Targets(ids, old(State()), {id});
        order := Enqueue({id}, now);
      }
    }

    /** A published snapshot brings push names and queues nothing. */
    method PublishSnapshot(found: seq<Heard>)
      modifies this`heard
      ensures State() == old(State()).(heard := old(heard) + found)
    {
      var i := 0;
      while i < |found|
        invariant 0 <= i <= |found| && heard == old(heard) + found[..i]
      {
        heard := heard + [found[i]];
        assert found[..i + 1] == found[..i] + [found[i]];
        i := i + 1;
      }
      assert found[..i] == found;
    }
  }
}
