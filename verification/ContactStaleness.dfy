/** How a member that was current becomes stale under an idle work row: a snapshot brings push names, old
    snapshots are deleted with theirs, or a sender is heard without being queued. For each the exact condition,
    and a run of the queue in which it happens. */
module ContactStaleness {
  import opened Options
  import opened Orders
  import opened Reachability
  import opened ContactResolution
  import opened ContactEvidence
  import opened ContactBackfill
  import opened ContactNames
  import opened ContactPushNames
  import opened ContactProjection
  import opened ContactFreshness

  /** The newest push name of an identity's own differs, or, if it had none, that of its aliases. */
  ghost predicate ReadsOtherwise(before: map<Id, Push>, after: map<Id, Push>, r: Resolution, id: Id) {
    || OwnPush(after, id) != OwnPush(before, id)
    || (OwnPush(before, id).None? && AliasPush(after, r, id) != AliasPush(before, r, id))
  }

  /** A transaction that only changes which push names there are leaves a member stale that was current exactly
      if nothing ranks before push names and the member's reads otherwise. */
  lemma OnlyNamesChange(ids: Directory, s: State, t: State, m: Member)
    requires t == s.(heard := t.heard, gone := t.gone) && m.identity in ids && IsCurrent(ids, s, m)
    ensures !IsCurrent(ids, t, m) <==>
      ShowsPush(Latest(s), m.identity, m.participantName) && ReadsOtherwise(Pushes(s), Pushes(t), Latest(s), m.identity)
  {
    assert Latest(t) == Latest(s);
    PushesShow(ids, Pushes(t), Pushes(s), Latest(s), m.identity, m.participantName);
  }

  // ---------------------------------------------------------------------------------------------
  // A snapshot is published

  /** The newest push names once those of a snapshot are added. */
  function Merged(before: map<Id, Push>, found: map<Id, Push>): map<Id, Push> {
    map x | x in before.Keys + found.Keys ::
      if x in found && (x !in before || StrictlyNewer(found[x], before[x])) then found[x] else before[x]
  }

  lemma MergedThenObserved(before: map<Id, Push>, found: map<Id, Push>, x: Id, push: Push)
    requires x in before ==> before[x].observation != push.observation
    requires x in found ==> found[x].observation != push.observation
    requires x in before && x in found ==> before[x].observation != found[x].observation
    ensures Observed(Merged(before, found), x, push) == Merged(before, Observed(found, x, push))
  {
    var a, b := Observed(Merged(before, found), x, push), Merged(before, Observed(found, x, push));
    forall y ensures (y in a <==> y in b) && (y in a ==> a[y] == b[y]) {}
  }

  /** Observations of two disjoint ranges of the table are different ones. */
  lemma ApartInTable(heard: seq<Heard>, gone: set<nat>, found: seq<Heard>, push: Push, x: Id)
    requires DistinctHeard(heard + found + [Heard(x, push)])
    ensures x in Newest(heard, gone) ==> Newest(heard, gone)[x].observation != push.observation
    ensures x in Newest(found, {}) ==> Newest(found, {})[x].observation != push.observation
    ensures x in Newest(heard, gone) && x in Newest(found, {}) ==>
      Newest(heard, gone)[x].observation != Newest(found, {})[x].observation
  {
    var all := heard + found + [Heard(x, push)];
    assert all[|heard| + |found|] == Heard(x, push);
    assert forall i :: 0 <= i < |heard| ==> all[i] == heard[i];
    assert forall i :: 0 <= i < |found| ==> all[|heard| + i] == found[i];
    assert DistinctHeard(heard) && DistinctHeard(found);
    NewestIsListedFirst(heard, gone, x);
    NewestIsListedFirst(found, {}, x);
  }

  lemma {:induction false} SnapshotPushes(heard: seq<Heard>, gone: set<nat>, found: seq<Heard>)
    requires DistinctHeard(heard + found) && forall i :: i in gone ==> i < |heard|
    ensures Newest(heard + found, gone) == Merged(Newest(heard, gone), Newest(found, {}))
  {
    if found == [] {
      assert heard + found == heard && Merged(Newest(heard, gone), map[]) == Newest(heard, gone);
    } else {
      var front, last := found[..|found| - 1], found[|found| - 1];
      assert heard + found == heard + front + [last] && (heard + found)[..|heard + found| - 1] == heard + front;
      assert forall i :: 0 <= i < |heard + front| ==> (heard + front)[i] == (heard + found)[i];
      SnapshotPushes(heard, gone, front);
      ApartInTable(heard, gone, front, last.push, last.id);
      MergedThenObserved(Newest(heard, gone), Newest(front, {}), last.id, last.push);
    }
  }

  /** A published snapshot leaves a member stale that was current, under an idle work row that stays idle,
      exactly if nothing ranks before push names and the snapshot changes the identity's own newest one, or,
      if it has none before and after, the newest of its aliases. */
  lemma SnapshotLeavesStale(ids: Directory, states: seq<State>, steps: seq<(Step, nat)>, n: nat, k: Key)
    requires IsRun(ids, states, steps) && n < |steps| && steps[n].0.SnapshotStep? && k in states[n].members
    requires states[n].members[k].identity in ids && IsCurrent(ids, states[n], states[n].members[k])
    ensures var s, t, m := states[n], states[n + 1], states[n].members[k];
            var before, after := Pushes(s), Merged(Pushes(s), Newest(steps[n].0.found, {}));
            && t.work == s.work && t.members == s.members && Latest(t) == Latest(s)
            && (!IsCurrent(ids, t, m) <==>
                  ShowsPush(Latest(s), m.identity, m.participantName) && ReadsOtherwise(before, after, Latest(s), m.identity))
  {
    var s, t, found := states[n], states[n + 1], steps[n].0.found;
    RunsKeepInv(ids, states, steps, n);
    assert t == After(ids, s, steps[n].0, steps[n].1);
    SnapshotPushes(s.heard, s.gone, found);
    assert t.heard[..|t.heard|] == t.heard && s.heard[..|s.heard|] == s.heard;
    OnlyNamesChange(ids, s, t, s.members[k]);
  }

  // ---------------------------------------------------------------------------------------------
  // Old snapshots are deleted, and their push names with them

  /** Deleting observations leaves a member stale that was current, under an idle work row that stays idle,
      exactly if nothing ranks before push names and the newest observation left of the identity has another
      name or there is none any more, or, if it had none, so for its aliases. */
  lemma DeletionLeavesStale(ids: Directory, states: seq<State>, steps: seq<(Step, nat)>, n: nat, k: Key)
    requires IsRun(ids, states, steps) && n < |steps| && steps[n].0.ExpireStep? && k in states[n].members
    requires states[n].members[k].identity in ids && IsCurrent(ids, states[n], states[n].members[k])
    ensures var s, t, m := states[n], states[n + 1], states[n].members[k];
            var before, after := Pushes(s), Newest(s.heard, s.gone + steps[n].0.dropped);
            && t.work == s.work && t.members == s.members && Latest(t) == Latest(s)
            && (!IsCurrent(ids, t, m) <==>
                  ShowsPush(Latest(s), m.identity, m.participantName) && ReadsOtherwise(before, after, Latest(s), m.identity))
  {
    var s, t := states[n], states[n + 1];
    assert t == After(ids, s, steps[n].0, steps[n].1);
    assert s.heard[..|s.heard|] == s.heard;
    OnlyNamesChange(ids, s, t, s.members[k]);
  }

  // ---------------------------------------------------------------------------------------------
  // A sender is heard

  /** A sender whose push name queues nothing leaves a member stale that was current, under an idle work row
      that stays idle, exactly if nothing ranks before push names, the member's identity has none of its own,
      and the new observation overtakes the newest of its aliases with another name. */
  lemma SenderLeavesStale(ids: Directory, states: seq<State>, steps: seq<(Step, nat)>, n: nat, k: Key)
    requires IsRun(ids, states, steps) && n < |steps| && steps[n].0.SenderStep? && k in states[n].members
    requires !IsQueued(Pushes(states[n]), steps[n].0.id, steps[n].0.push)
    requires states[n].members[k].identity in ids && IsCurrent(ids, states[n], states[n].members[k])
    ensures var s, t, m := states[n], states[n + 1], states[n].members[k];
            var r, y := Latest(s), m.identity;
            && t.work == s.work && t.members == s.members && Latest(t) == r
            && (!IsCurrent(ids, t, m) <==>
                  && ShowsPush(r, y, m.participantName) && y !in Pushes(s) && IsResolved(r, y)
                  && Overtakes(Pushes(s), OtherAliases(r, y), steps[n].0.id, steps[n].0.push))
  {
    var s, t, m, id, push := states[n], states[n + 1], states[n].members[k], steps[n].0.id, steps[n].0.push;
    RunsKeepHeard(ids, states, steps, n);
    assert t == After(ids, s, steps[n].0, steps[n].1);
    HeardPushes(ids, s, id, push);
    PushesShow(ids, Pushes(t), Pushes(s), Latest(s), m.identity, m.participantName);
    UnqueuedPushEffect(Pushes(s), Latest(s), id, push, m.identity);
  }

  // ---------------------------------------------------------------------------------------------
  // Runs of a single work row

  ghost predicate Occurs(ids: Directory, s: State) {
    exists states, steps :: IsRun(ids, states, steps) && states[|steps|] == s
  }

  lemma OccursNext(ids: Directory, s: State, step: Step) returns (t: State)
    requires Occurs(ids, s) && Known(ids, s) && Enabled(ids, s, step, 0)
    ensures t == After(ids, s, step, 0) && Occurs(ids, t)
  {
    var states, steps :| IsRun(ids, states, steps) && states[|steps|] == s;
    t := After(ids, s, step, 0);
    var longer, more := states + [t], steps + [(step, 0)];
    forall i | 0 <= i < |more|
      ensures Known(ids, longer[i]) && Enabled(ids, longer[i], more[i].0, more[i].1)
              && longer[i + 1] == After(ids, longer[i], more[i].0, more[i].1)
    {
      if i < |steps| { assert longer[i] == states[i] && longer[i + 1] == states[i + 1] && more[i] == steps[i]; }
    }
    assert IsRun(ids, longer, more) && longer[|more|] == t;
  }

  lemma OccursInitially(ids: Directory)
    ensures Occurs(ids, INITIAL)
  {
    assert IsRun(ids, [INITIAL], []) && [INITIAL][0] == INITIAL;
  }

  /** No work yet, or only row 1, waiting for its first page. */
  predicate HasOneRow(s: State) {
    && s.work.Keys <= {1}
    && (1 in s.work ==> s.work[1] == Work(PENDING, s.work[1].requested, s.work[1].cutoff, 0, None, None, 0, 0, None))
  }

  /** Row 1 is asked for the revision issued last. */
  function Asked(s: State): State {
    s.(work := map[1 := Work(PENDING, |s.issued|, Current(s), 0, None, None, 0, 0, None)], issued := s.issued + [Current(s)])
  }

  lemma OneRowIsUpserted(s: State)
    requires HasOneRow(s)
    ensures UpsertAll(s, [1], 0) == Asked(s)
  {
    assert [1][..0] == [] && UpsertAll(s, [], 0) == s && UpsertAll(s, [1], 0) == Upsert(s, 1, 0);
    assert Upsert(s, 1, 0).work == Asked(s).work;
  }

  lemma OneRowIsAsked(ids: Directory, s: State, id: Id)
    requires HasOneRow(s) && id in ids && Canonical(Latest(s), id) == 1 && (id == 1 || id !in s.work)
    ensures Lists([1], Targets(ids, s, {id})) && Enqueue(ids, s, {id}, [1], 0) == Asked(s)
  {
    assert Targets(ids, s, {id}) == {1};
    OneRowIsUpserted(s);
    assert Retire(Asked(s), {id} * ids.Keys).work == Asked(s).work;
  }

  /** A sender without a name so far is heard. */
  lemma SenderAsks(ids: Directory, s: State, id: Id, push: Push) returns (t: State)
    requires Occurs(ids, s) && Known(ids, s) && HasOneRow(s) && CanInsert(ids, s, [Heard(id, push)]) && id !in Pushes(s)
    requires Canonical(Latest(s), id) == 1 && (id == 1 || id !in s.work)
    ensures t == Asked(s.(heard := s.heard + [Heard(id, push)])) && Occurs(ids, t) && HasOneRow(t)
  {
    var u := s.(heard := s.heard + [Heard(id, push)]);
    assert [Heard(id, push)][0].id == id && Latest(u) == Latest(s);
    OneRowIsAsked(ids, s, id);
    OneRowIsAsked(ids, u, id);
    t := OccursNext(ids, s, SenderStep(id, push, [1]));
  }

  /** A member without a name of its own appears. */
  function WithMember(s: State, id: Id): State {
    Asked(s).(members := map[0 := Member(id, None, 0, 0, Unprojected, |s.issued|, map[])])
  }

  lemma MemberAsks(ids: Directory, s: State, id: Id)
    requires Occurs(ids, s) && HasOneRow(s) && s.members == map[] && Speaks(ids, id) && s.issued != []
    requires Canonical(Latest(s), id) == 1 && (id == 1 || id !in s.work)
    ensures Occurs(ids, WithMember(s, id))
  {
    OneRowIsAsked(ids, s, id);
    var t := OccursNext(ids, s, ObserveStep(0, id, None, [1]));
    assert t == WithMember(s, id);
  }

  /** ... and is projected by a single page. */
  ghost function Served(ids: Directory, s: State, id: Id): State
    requires id in ids
  {
    var t, v, pushes := WithMember(s, id), |s.issued|, Pushes(s);
    t.(members := map[0 := Member(id, None, v, |s.runs|, Projected(ids, pushes, Latest(s), id, None), v, pushes)],
       work := map[1 := Work(IDLE, v, Current(s), v, None, None, 0, 0, None)])
  }

  function Claimed(s: State, id: Id): State {
    WithMember(s, id).(work := map[1 := Work(RUNNING, |s.issued|, Current(s), 0, Some(Active(|s.issued|, Current(s), |s.runs|)),
                                            None, 1, 0, Some(Lease(1, LEASE_SECONDS)))])
  }

  lemma MemberIsServed(ids: Directory, s: State, id: Id)
    requires Occurs(ids, s) && HasOneRow(s) && s.members == map[] && Speaks(ids, id) && s.issued != []
    requires Canonical(Latest(s), id) == 1 && (id == 1 || id !in s.work) && id in Covered(Latest(s), 1)
    ensures Occurs(ids, Served(ids, s, id))
  {
    MemberAsks(ids, s, id);
    var t := OccursNext(ids, WithMember(s, id), ClaimStep(1, 1));
    assert t == Claimed(s, id);
    OnePage(s, id);
    ServedByPage(ids, s, id);
    var u := OccursNext(ids, Claimed(s, id), PageStep(1, 1, 2));
  }

  lemma OnePage(s: State, id: Id)
    requires id in Covered(Latest(s), 1)
    ensures Page(Claimed(s, id), 1, 2) == [0]
  {
    var t := Claimed(s, id);
    assert RunAt(t, |s.runs|) == Latest(s);
    assert Ahead(t, 1) == {0};
    assert Min({0}) == 0 && {0} - {0} == {};
    assert FirstN({0} - {0}, 1) == [];
    assert FirstN({0}, 2) == [0] + FirstN({0} - {0}, 1);
  }

  lemma ServedByPage(ids: Directory, s: State, id: Id)
    requires Speaks(ids, id) && id in Covered(Latest(s), 1)
    ensures Known(ids, Claimed(s, id)) && ProjectPage(ids, Claimed(s, id), 1, 2, 0) == Served(ids, s, id)
  {
    var t, u := Claimed(s, id), ProjectPage(ids, Claimed(s, id), 1, 2, 0);
    OnePage(s, id);
    assert RunAt(t, |s.runs|) == Latest(s) && PushesAt(t, |s.heard|) == Pushes(s);
    assert u.members == Served(ids, s, id).members;
    assert u.work == Served(ids, s, id).work;
  }

  // ---------------------------------------------------------------------------------------------
  // ... in which a member becomes stale

  const NAMELESS: Directory := map[1 := Identity(LID, "1@lid", None, 0)]
  const FIRST := Push("a", 1, 1, 1)
  const SECOND := Push("b", 2, 2, 2)

  lemma OneIsNewest(heard: seq<Heard>)
    requires |heard| == 1
    ensures Newest(heard, {}) == map[heard[0].id := heard[0].push] && Newest(heard, {0}) == map[]
  {
    assert heard[..0] == [] && Newest([], {}) == map[] && Newest([], {0}) == map[];
  }

  lemma TwoAreNewest(heard: seq<Heard>)
    requires |heard| == 2
    ensures Newest(heard, {}) == Observed(map[heard[0].id := heard[0].push], heard[1].id, heard[1].push)
  {
    OneIsNewest(heard[..1]);
  }

  const SAID := INITIAL.(heard := [Heard(1, FIRST)])
  const SHOWN := Shown(LID, None, Some("a"), Some(OPENWA_PUSH_NAME))

  /** A state with the member shown under row 1, idle. */
  ghost predicate IdleShowing(s: State, id: Id, shown: Shown) {
    && s.members.Keys == {0} && s.members[0].identity == id && s.members[0].participantName == None && s.members[0].shown == shown
    && s.work.Keys == {1} && s.work[1].status == IDLE && Canonical(Latest(s), id) == 1
  }

  lemma ServedShows(ids: Directory, s: State, id: Id)
    requires id in ids && Canonical(Latest(s), id) == 1
    ensures var t := Served(ids, s, id);
      && IdleShowing(t, id, Projected(ids, Pushes(s), Latest(s), id, None))
      && t.heard == s.heard && t.runs == s.runs && t.gone == s.gone && Known(ids, t)
  {
    assert Latest(Served(ids, s, id)) == Latest(s);
  }

  lemma NameIsShown(s: State, push: Push)
    requires s.runs == [] && Pushes(s) == map[1 := push]
    ensures Projected(NAMELESS, Pushes(s), Latest(s), 1, None) == Shown(LID, None, Some(push.name), Some(OPENWA_PUSH_NAME))
  {
  }

  lemma SenderIsServed()
    ensures Occurs(NAMELESS, Served(NAMELESS, Asked(SAID), 1))
  {
    OccursInitially(NAMELESS);
    assert INITIAL.heard + [Heard(1, FIRST)] == SAID.heard;
    var a := SenderAsks(NAMELESS, INITIAL, 1, FIRST);
    MemberIsServed(NAMELESS, a, 1);
  }

  /** The name observed first is shown. */
  lemma FirstIsServed(s: State)
    requires s.runs == [] && s.heard == SAID.heard && s.gone == {}
    ensures var t := Served(NAMELESS, s, 1);
      IdleShowing(t, 1, SHOWN) && t.runs == [] && t.heard == SAID.heard && t.gone == {} && Known(NAMELESS, t)
  {
    ServedShows(NAMELESS, s, 1);
    OneIsNewest(s.heard);
    assert s.heard[..1] == s.heard;
    NameIsShown(s, FIRST);
  }

  lemma SecondIsNewest(s: State)
    requires s.heard == SAID.heard + [Heard(1, SECOND)] && s.gone == {}
    ensures Pushes(s) == map[1 := SECOND]
  {
    TwoAreNewest(s.heard);
    assert s.heard[..2] == s.heard;
  }

  /** A member shows the push name heard from its sender; a snapshot brings a newer one of the same identity,
      nothing is queued, and the member goes on showing the old one. */
  lemma SnapshotCanLeaveStale() returns (s: State)
    ensures Occurs(NAMELESS, s) && IdleShowing(s, 1, SHOWN)
    ensures Projected(NAMELESS, Pushes(s), Latest(s), 1, None) == SHOWN.(name := Some("b"))
  {
    SenderIsServed();
    FirstIsServed(Asked(SAID));
    BothAreDistinct();
    s := OccursNext(NAMELESS, Served(NAMELESS, Asked(SAID), 1), SnapshotStep([Heard(1, SECOND)]));
    SecondIsNewest(s);
    NameIsShown(s, SECOND);
  }

  lemma BothAreDistinct()
    ensures DistinctHeard(SAID.heard + [Heard(1, SECOND)]) && [Heard(1, SECOND)][0].id == 1
  {
  }

  lemma SnapshotIsServed()
    ensures Occurs(NAMELESS, Served(NAMELESS, SAID, 1))
  {
    OccursInitially(NAMELESS);
    assert INITIAL.heard + [Heard(1, FIRST)] == SAID.heard;
    var a := OccursNext(NAMELESS, INITIAL, SnapshotStep([Heard(1, FIRST)]));
    assert a == SAID;
    MemberIsServed(NAMELESS, SAID, 1);
  }

  /** A member shows the push name a snapshot brought; the identity is not in the next snapshot, the old one is
      deleted, and the member goes on showing the name. */
  lemma DeletionCanLeaveStale() returns (s: State)
    ensures Occurs(NAMELESS, s) && IdleShowing(s, 1, SHOWN)
    ensures Projected(NAMELESS, Pushes(s), Latest(s), 1, None) == SHOWN.(name := None, source := None)
  {
    SnapshotIsServed();
    FirstIsServed(SAID);
    OneIsNewest(SAID.heard);
    assert SAID.heard[..1] == SAID.heard && SAID.heard + [] == SAID.heard;
    var b := OccursNext(NAMELESS, Served(NAMELESS, SAID, 1), SnapshotStep([]));
    s := OccursNext(NAMELESS, b, ExpireStep({0}));
    assert {} + {0} == {0} && Pushes(s) == map[];
  }

  const RESOLVED_ONCE := INITIAL.(runs := [ONE_CLUSTER])

  lemma BackfilledRunIsResolved()
    ensures IsResolverRun(THREE_VOICES, ONE_CLUSTER)
  {
    TheyResolve();
    WhereLinksComeFrom();
    assert KnownIn(TOGETHER.ids, THREE_VOICES);
  }

  lemma BackfilledRunMayComplete()
    ensures Enabled(THREE_VOICES, INITIAL, CompleteStep(ONE_CLUSTER, [1]), 0)
    ensures Complete(THREE_VOICES, INITIAL, ONE_CLUSTER, [1], 0) == Asked(RESOLVED_ONCE)
  {
    BackfilledRunIsResolved();
    OneClusterIsAffected();
    assert INITIAL.runs + [ONE_CLUSTER] == RESOLVED_ONCE.runs;
    assert Latest(RESOLVED_ONCE) == ONE_CLUSTER && Latest(INITIAL) == NO_RESOLUTION;
    OneRowIsAsked(THREE_VOICES, RESOLVED_ONCE, 1);
  }

  /** The run over the evidence with a member stored under a device name. */
  lemma BackfilledRunCompletes()
    ensures Occurs(THREE_VOICES, Asked(RESOLVED_ONCE))
  {
    OccursInitially(THREE_VOICES);
    BackfilledRunMayComplete();
    var s := OccursNext(THREE_VOICES, INITIAL, CompleteStep(ONE_CLUSTER, [1]));
  }

  const OWN := Heard(2, Push("a", 1, 1, 1))
  const ALIASED := Heard(3, Push("b", 2, 2, 2))

  /** The phone JID is heard, and after it the alias. */
  function OwnHeard(): State {
    Asked(Asked(RESOLVED_ONCE).(heard := [OWN]))
  }

  function BothHeard(): State {
    Asked(OwnHeard().(heard := [OWN, ALIASED]))
  }

  lemma OwnIsHeard()
    ensures Occurs(THREE_VOICES, OwnHeard())
  {
    BackfilledRunCompletes();
    var a := Asked(RESOLVED_ONCE);
    assert Latest(a) == ONE_CLUSTER && a.heard + [OWN] == [OWN];
    var b := SenderAsks(THREE_VOICES, a, 2, OWN.push);
  }

  lemma OwnIsNewest()
    ensures Pushes(OwnHeard()) == map[2 := OWN.push]
  {
    var b := OwnHeard();
    OneIsNewest(b.heard);
    assert b.heard[..1] == b.heard;
  }

  lemma BothAreHeard()
    ensures Occurs(THREE_VOICES, BothHeard())
  {
    OwnIsHeard();
    OwnIsNewest();
    var b := OwnHeard();
    assert Latest(b) == ONE_CLUSTER && b.heard + [ALIASED] == [OWN, ALIASED] && [ALIASED][0].id == 3;
    var c := SenderAsks(THREE_VOICES, b, 3, ALIASED.push);
  }

  lemma ThirdVoiceIsServed()
    ensures Occurs(THREE_VOICES, Served(THREE_VOICES, BothHeard(), 1))
  {
    BothAreHeard();
    assert Latest(BothHeard()) == ONE_CLUSTER;
    MemberIsServed(THREE_VOICES, BothHeard(), 1);
  }

  lemma BothAreBefore(s: State)
    requires s.heard == [OWN, ALIASED] && s.gone == {}
    ensures Pushes(s) == BEFORE
  {
    TwoAreNewest(s.heard);
    assert s.heard[..2] == s.heard;
  }

  lemma AliasIsShown()
    ensures PushName(BEFORE, ONE_CLUSTER, 1) == Some(("b", RESOLVED_ALIAS_PUSH_NAME))
    ensures PushName(Observed(BEFORE, 2, AGAIN), ONE_CLUSTER, 1) == Some(("a", RESOLVED_ALIAS_PUSH_NAME))
  {
    assert OtherAliases(ONE_CLUSTER, 1) == {2, 3, 4};
    assert IsNewest(BEFORE, {2, 3, 4}, 3);
    NewestIsUnique(BEFORE, {2, 3, 4}, 3);
    assert IsNewest(Observed(BEFORE, 2, AGAIN), {2, 3, 4}, 2);
    NewestIsUnique(Observed(BEFORE, 2, AGAIN), {2, 3, 4}, 2);
  }

  const ALIAS_SHOWN := Shown(PHONE_JID, Some("49"), Some("b"), Some(RESOLVED_ALIAS_PUSH_NAME))

  /** A member stored under a device name shows the newest name of its aliases; the phone JID repeats its own
      name, nothing is queued, and the member goes on showing the other alias's. */
  lemma SenderCanLeaveStale() returns (s: State)
    ensures Occurs(THREE_VOICES, s) && IdleShowing(s, 1, ALIAS_SHOWN)
    ensures Projected(THREE_VOICES, Pushes(s), Latest(s), 1, None) == ALIAS_SHOWN.(name := Some("a"))
  {
    ThirdVoiceIsServed();
    AliasIsServed();
    AliasIsShown();
    var b := Served(THREE_VOICES, BothHeard(), 1);
    AgainQueuesNothing(b);
    s := OccursNext(THREE_VOICES, b, SenderStep(2, AGAIN, []));
    AgainIsHeard(b, s);
  }

  lemma AgainQueuesNothing(b: State)
    requires b.heard == [OWN, ALIASED] && b.gone == {} && Known(THREE_VOICES, b)
    ensures Enabled(THREE_VOICES, b, SenderStep(2, AGAIN, []), 0)
    ensures After(THREE_VOICES, b, SenderStep(2, AGAIN, []), 0) == b.(heard := b.heard + [Heard(2, AGAIN)])
  {
    BothAreBefore(b);
    assert [Heard(2, AGAIN)][0].id == 2;
  }

  lemma AliasIsServed()
    ensures var t := Served(THREE_VOICES, BothHeard(), 1);
      && IdleShowing(t, 1, ALIAS_SHOWN) && Known(THREE_VOICES, t)
      && t.heard == [OWN, ALIASED] && t.gone == {} && t.runs == [ONE_CLUSTER]
  {
    var a := BothHeard();
    assert Latest(a) == ONE_CLUSTER;
    ServedShows(THREE_VOICES, a, 1);
    BothAreBefore(a);
    AliasIsShown();
  }

  lemma AgainIsHeard(b: State, s: State)
    requires b.heard == [OWN, ALIASED] && b.gone == {} && s.heard == b.heard + [Heard(2, AGAIN)] && s.gone == {}
    ensures Pushes(s) == Observed(BEFORE, 2, AGAIN)
  {
    BothAreBefore(b);
    assert s.heard[..3] == s.heard && s.heard[..2] == b.heard == b.heard[..2];
  }

  lemma OneClusterIsAffected()
    ensures Affected(NO_RESOLUTION, ONE_CLUSTER) == {1}
  {
    forall id | id in Affected(NO_RESOLUTION, ONE_CLUSTER) ensures id == 1 {}
    assert 1 in ONE_CLUSTER.clusters && ClusterRowChanged(NO_RESOLUTION, ONE_CLUSTER, 1);
  }
}
