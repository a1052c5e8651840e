/** The projection queue of one session. Members show names and phones taken from the latest completed
    resolution; a revisioned work row per canonical identity re-projects its members page by page while
    requests, members and new resolutions keep arriving. */
module ContactProjection {
  import opened Delays
  import opened Options
  import opened Orders
  import opened Reachability
  import opened ContactResolution
  import opened ContactEvidence
  import opened ContactNames
  import opened ContactPushNames

  /** A member's place in `(group_id, participant_id)` order. */
  type Key = nat

  /** A member row. `since` is the revision that requested the current identity and participant name, `run`
      counts completed resolutions, 0 standing for a null run, and `seen` are the push names its page read. */
  datatype Member = Member(identity: Id, participantName: Option<string>, revision: nat, run: nat, shown: Shown, since: nat,
                           seen: map<Id, Push>)

  datatype WorkStatus = IDLE | PENDING | RUNNING | RETRY | FAILED
  datatype Lease = Lease(token: nat, expiresAt: nat)
  /** A cutoff timestamp is only compared with the times at which resolutions completed and observations were
      inserted, so it is kept as the number of either by then. */
  datatype Cutoff = Cutoff(runs: nat, heard: nat)
  datatype Active = Active(revision: nat, cutoff: Cutoff, run: nat)
  datatype Work = Work(status: WorkStatus, requested: nat, cutoff: Cutoff, completed: nat, active: Option<Active>,
                       cursor: Option<Key>, attempts: nat, nextAttemptAt: nat, lease: Option<Lease>)

  /** `runs` holds the completed resolutions in completion order and `heard` the push names in insertion order,
      of which those `gone` have been deleted again. `issued[v]` is the cutoff at which the sequence handed out
      revision `v`; revision 0 is never handed out. */
  datatype State = State(members: map<Key, Member>, work: map<Id, Work>, runs: seq<Resolution>, heard: seq<Heard>,
                         gone: set<nat>, issued: seq<Cutoff>)

  const LEASE_SECONDS := 300
  const MAX_ATTEMPTS := 5

  function RunAt(s: State, count: nat): Resolution {
    if 0 < count <= |s.runs| then s.runs[count - 1] else NO_RESOLUTION
  }

  function Latest(s: State): Resolution {
    RunAt(s, |s.runs|)
  }

  /** The newest push names, of those inserted first. */
  function PushesAt(s: State, count: nat): map<Id, Push> {
    Newest(if count <= |s.heard| then s.heard[..count] else s.heard, s.gone)
  }

  function Pushes(s: State): map<Id, Push> {
    PushesAt(s, |s.heard|)
  }

  function Current(s: State): Cutoff {
    Cutoff(|s.runs|, |s.heard|)
  }

  // ---------------------------------------------------------------------------------------------
  // Transactions

  /** The upsert of one canonical identity. Work that is running or waiting to retry keeps its active
      revision and cursor; anything else starts over. */
  function Requested(w: Work, revision: nat, cutoff: Cutoff, now: nat): Work {
    var keep := w.status in {RUNNING, RETRY} && w.active.Some?;
    Work(if keep then w.status else PENDING, revision, cutoff, w.completed,
         if keep then w.active else None, if keep then w.cursor else None,
         if keep then w.attempts else 0, now, w.lease)
  }

  function RequestRow(s: State, c: Id, revision: nat, now: nat): Work {
    if c in s.work then Requested(s.work[c], revision, Current(s), now)
    else Work(PENDING, revision, Current(s), 0, None, None, 0, now, None)
  }

  function Upsert(s: State, c: Id, now: nat): State {
    s.(work := s.work[c := RequestRow(s, c, |s.issued|, now)], issued := s.issued + [Current(s)])
  }

  function UpsertAll(s: State, order: seq<Id>, now: nat): State {
    if order == [] then s else Upsert(UpsertAll(s, order[..|order| - 1], now), order[|order| - 1], now)
  }

  predicate IsRetired(s: State, requested: set<Id>, id: Id) {
    && id in requested && Canonical(Latest(s), id) != id
    && id in s.work && s.work[id].status in {PENDING, RETRY, FAILED}
  }

  /** Work of an identity that is now covered by its cluster's row goes idle. */
  function Retire(s: State, requested: set<Id>): State {
    s.(work := map id | id in s.work ::
         if IsRetired(s, requested, id)
         then s.work[id].(status := IDLE, active := None, cursor := None, lease := None)
         else s.work[id])
  }

  function Targets(ids: Directory, s: State, requested: set<Id>): set<Id> {
    set id | id in requested && id in ids :: Canonical(Latest(s), id)
  }

  /** `order` lists every target once, in the order the sequence served them. */
  predicate Lists(order: seq<Id>, targets: set<Id>) {
    && |order| == |targets|
    && (forall i :: 0 <= i < |order| ==> order[i] in targets)
    && (forall c :: c in targets ==> c in order)
    && (forall i, j :: 0 <= i < j < |order| ==> order[i] != order[j])
  }

  function Enqueue(ids: Directory, s: State, requested: set<Id>, order: seq<Id>, now: nat): State {
    Retire(UpsertAll(s, order, now), requested * ids.Keys)
  }

  predicate Claimable(w: Work, now: nat) {
    || (w.status in {PENDING, RETRY} && w.nextAttemptAt <= now)
    || (w.status == RUNNING && w.lease.Some? && w.lease.value.expiresAt < now)
  }

  /** Claiming resumes the active revision if there is one, and otherwise starts the requested one. */
  function Claim(s: State, c: Id, token: nat, now: nat): State
    requires c in s.work
  {
    var w := s.work[c];
    var active := if w.active.Some?
                  then w.active.value.(run := if w.active.value.run != 0 then w.active.value.run else w.active.value.cutoff.runs)
                  else Active(w.requested, w.cutoff, w.cutoff.runs);
    s.(work := s.work[c := w.(status := RUNNING, active := Some(active), attempts := w.attempts + 1,
                              lease := Some(Lease(token, now + LEASE_SECONDS)))])
  }

  predicate Owns(s: State, c: Id, token: nat, now: nat) {
    c in s.work && s.work[c].status == RUNNING && s.work[c].active.Some?
    && s.work[c].lease.Some? && s.work[c].lease.value.token == token && s.work[c].lease.value.expiresAt > now
  }

  /** The identities a page of `c` covers under resolution `r`. */
  function Covered(r: Resolution, c: Id): set<Id> {
    {c} + (if IsResolved(r, c) then Aliases(r, r.assignments[c].cluster) else {})
  }

  predicate Beyond(cursor: Option<Key>, k: Key) {
    cursor == None || cursor.value < k
  }

  /** The members a page may still have to visit. */
  function Ahead(s: State, c: Id): set<Key>
    requires c in s.work && s.work[c].active.Some?
  {
    set k | k in s.members && s.members[k].identity in Covered(RunAt(s, s.work[c].active.value.run), c)
            && Beyond(s.work[c].cursor, k)
  }

  ghost function Page(s: State, c: Id, batch: nat): seq<Key>
    requires c in s.work && s.work[c].active.Some?
  {
    FirstN(Ahead(s, c), batch)
  }

  /** The new cursor, or none if the page was short. */
  function LastOf(page: seq<Key>, batch: nat): Option<Key>
    requires batch > 0
  {
    if |page| < batch then None else Some(page[|page| - 1])
  }

  /** A page never overwrites a member that already carries a later revision. */
  ghost function Written(ids: Directory, s: State, a: Active, m: Member): Member
    requires m.identity in ids
  {
    if m.revision <= a.revision
    then
      var pushes := PushesAt(s, a.cutoff.heard);
      m.(revision := a.revision, run := a.run, seen := pushes,
         shown := Projected(ids, pushes, RunAt(s, a.run), m.identity, m.participantName))
    else m
  }

  /** Every member's identity is in the directory (a foreign key). */
  predicate Known(ids: Directory, s: State) {
    forall k :: k in s.members ==> s.members[k].identity in ids
  }

  function Finished(w: Work, a: Active, now: nat): Work {
    var again := w.requested > a.revision;
    w.(completed := a.revision, status := if again then PENDING else IDLE, active := None, cursor := None,
       attempts := 0, nextAttemptAt := now, lease := None)
  }

  /** The work row after a page whose last key, if the page was full, is `last`. */
  function Advanced(w: Work, a: Active, last: Option<Key>, now: nat): Work {
    if last.None? then Finished(w, a, now)
    else w.(cursor := last, lease := if w.lease.Some? then Some(w.lease.value.(expiresAt := now + LEASE_SECONDS)) else None)
  }

  /** One page: write it, then finish the revision if the page was short or else move the cursor past it. */
  ghost function ProjectPage(ids: Directory, s: State, c: Id, batch: nat, now: nat): State
    requires Known(ids, s) && c in s.work && s.work[c].active.Some? && batch > 0
  {
    var w, a, page := s.work[c], s.work[c].active.value, Page(s, c, batch);
    var members := map k | k in s.members :: if k in page then Written(ids, s, a, s.members[k]) else s.members[k];
    var row := Advanced(w, a, LastOf(page, batch), now);
    s.(members := members, work := s.work[c := row])
  }

  predicate Holds(s: State, c: Id, token: nat) {
    c in s.work && s.work[c].status == RUNNING && s.work[c].lease.Some? && s.work[c].lease.value.token == token
  }

  function Release(s: State, c: Id, now: nat): State
    requires c in s.work
  {
    s.(work := s.work[c := s.work[c].(status := PENDING, nextAttemptAt := now, lease := None)])
  }

  function Fail(s: State, c: Id, now: nat): State
    requires c in s.work
  {
    var w := s.work[c];
    s.(work := s.work[c := w.(status := if w.attempts >= MAX_ATTEMPTS then FAILED else RETRY,
                              nextAttemptAt := now + RetryDelay(w.attempts), lease := None)])
  }

  function LastIssued(s: State): nat {
    if s.issued == [] then 0 else |s.issued| - 1
  }

  /** A member appears, or its identity or participant name changes; its identity is queued in the same
      transaction. */
  function Observe(ids: Directory, s: State, k: Key, id: Id, name: Option<string>, order: seq<Id>, now: nat): State {
    var queued := Enqueue(ids, s, {id}, order, now);
    var since := LastIssued(queued);
    var row := if k in s.members then s.members[k].(identity := id, participantName := name, since := since)
               else Member(id, name, 0, 0, Unprojected, since, map[]);
    queued.(members := queued.members[k := row])
  }

  /** A resolution completes and queues what it changed, in one transaction. */
  function Complete(ids: Directory, s: State, r: Resolution, order: seq<Id>, now: nat): State {
    Enqueue(ids, s.(runs := s.runs + [r]), Affected(Latest(s), r), order, now)
  }

  /** A message sender's push name is inserted; its identity is queued if that changes its own newest name. */
  function HearSender(ids: Directory, s: State, id: Id, push: Push, order: seq<Id>, now: nat): State {
    var t := s.(heard := s.heard + [Heard(id, push)]);
    if IsQueued(Pushes(s), id, push) then Enqueue(ids, t, {id}, order, now) else t
  }

  // ---------------------------------------------------------------------------------------------
  // Reachable states

  /** What the queue relies on in a completed run. */
  ghost predicate Sane(ids: Directory, r: Resolution) {
    WellFormed(r) && Isolated(r) && r.assignments.Keys <= ids.Keys
  }

  /** Identities known at some time, under the names they always have. */
  predicate KnownIn(earlier: map<Id, Identity>, ids: Directory) {
    forall id :: id in earlier ==> id in ids && ids[id].kind == earlier[id].kind && ids[id].value == earlier[id].value
  }

  /** What the resolver makes of evidence as the tables hold it, whatever they held when it read them. */
  ghost predicate IsResolverRun(ids: Directory, r: Resolution) {
    exists q: Input :: KnownIn(q.ids, ids) && EvidenceOk(q.ids, q.evidence) && q.Valid() && Resolves(q, r)
  }

  datatype Step =
    | EnqueueStep(requested: set<Id>, order: seq<Id>)
    | ClaimStep(c: Id, token: nat)
    | PageStep(c: Id, token: nat, batch: nat)
    | ReleaseStep(c: Id, token: nat)
    | FailStep(c: Id, token: nat)
    | ObserveStep(k: Key, id: Id, name: Option<string>, order: seq<Id>)
    | DeleteStep(k: Key)
    | CompleteStep(r: Resolution, order: seq<Id>)
    | SenderStep(id: Id, push: Push, order: seq<Id>)
    | SnapshotStep(found: seq<Heard>)
    | ExpireStep(dropped: set<nat>)

  /** Inserted with observation identifiers of their own, under identities that can be heard. */
  ghost predicate CanInsert(ids: Directory, s: State, found: seq<Heard>) {
    DistinctHeard(s.heard + found) && forall i :: 0 <= i < |found| ==> Speaks(ids, found[i].id)
  }

  ghost predicate Enabled(ids: Directory, s: State, step: Step, now: nat) {
    match step
    case EnqueueStep(requested, order) => Lists(order, Targets(ids, s, requested))
    case ClaimStep(c, _) => c in s.work && Claimable(s.work[c], now)
    case PageStep(c, token, batch) => Owns(s, c, token, now) && batch > 0
    case ReleaseStep(c, token) => Holds(s, c, token)
    case FailStep(c, token) => Holds(s, c, token)
    case ObserveStep(_, id, _, order) => Speaks(ids, id) && Lists(order, Targets(ids, s, {id}))
    case DeleteStep(_) => true
    case CompleteStep(r, order) =>
      IsResolverRun(ids, r) && Lists(order, Targets(ids, s.(runs := s.runs + [r]), Affected(Latest(s), r)))
    case SenderStep(id, push, order) =>
      CanInsert(ids, s, [Heard(id, push)]) && (IsQueued(Pushes(s), id, push) ==> Lists(order, Targets(ids, s, {id})))
    case SnapshotStep(found) => CanInsert(ids, s, found)
    case ExpireStep(dropped) => forall i :: i in dropped ==> i < |s.heard|
  }

  ghost function After(ids: Directory, s: State, step: Step, now: nat): State
    requires Known(ids, s) && Enabled(ids, s, step, now)
  {
    match step
    case EnqueueStep(requested, order) => Enqueue(ids, s, requested, order, now)
    case ClaimStep(c, token) => Claim(s, c, token, now)
    case PageStep(c, _, batch) => ProjectPage(ids, s, c, batch, now)
    case ReleaseStep(c, _) => Release(s, c, now)
    case FailStep(c, _) => Fail(s, c, now)
    case ObserveStep(k, id, name, order) => Observe(ids, s, k, id, name, order, now)
    case DeleteStep(k) => s.(members := s.members - {k})
    case CompleteStep(r, order) => Complete(ids, s, r, order, now)
    case SenderStep(id, push, order) => HearSender(ids, s, id, push, order, now)
    case SnapshotStep(found) => s.(heard := s.heard + found)
    case ExpireStep(dropped) => s.(gone := s.gone + dropped)
  }

  const INITIAL := State(map[], map[], [], [], {}, [Cutoff(0, 0)])

  // ---------------------------------------------------------------------------------------------
  // Invariants

  /** Revisions are handed out against a growing run history. */
  ghost predicate HistoryOk(ids: Directory, s: State) {
    && |s.issued| > 0
    && (forall i :: 0 <= i < |s.issued| ==> s.issued[i].runs <= |s.runs| && s.issued[i].heard <= |s.heard|)
    && (forall i, j :: 0 <= i <= j < |s.issued| ==> s.issued[i].runs <= s.issued[j].runs && s.issued[i].heard <= s.issued[j].heard)
    && (forall i :: 0 <= i < |s.runs| ==> Sane(ids, s.runs[i]))
    && (forall i :: i in s.gone ==> i < |s.heard|)
  }

  ghost predicate RowOk(s: State, w: Work) {
    && w.completed <= w.requested && 0 < w.requested < |s.issued| && w.cutoff == s.issued[w.requested]
    && (w.status != IDLE ==> w.completed < w.requested)
    && (w.active.None? ==> w.cursor.None?)
    && (w.status == IDLE ==> w.active.None?)
    && (w.status == RUNNING ==> w.active.Some?)
    && (w.active.Some? ==>
          var a := w.active.value;
          w.completed < a.revision <= w.requested && a.cutoff == s.issued[a.revision] && a.run == a.cutoff.runs)
  }

  ghost predicate RowsOk(s: State)
    requires |s.issued| > 0
  {
    forall c :: c in s.work ==> RowOk(s, s.work[c])
  }

  /** A member carries the projection of the run its revision was issued against. */
  ghost predicate MemberOk(ids: Directory, s: State, m: Member) {
    && Speaks(ids, m.identity) && m.revision < |s.issued| && 0 < m.since < |s.issued|
    && m.run == (if m.revision == 0 then 0 else s.issued[m.revision].runs)
    && (m.revision >= m.since ==> m.shown == Projected(ids, m.seen, RunAt(s, m.run), m.identity, m.participantName))
  }

  /** ... and has a work row that was asked for its current data. */
  ghost predicate Queued(s: State, m: Member) {
    var c := Canonical(Latest(s), m.identity);
    c in s.work && s.work[c].requested >= m.since
  }

  ghost predicate MembersOk(ids: Directory, s: State)
    requires |s.issued| > 0
  {
    forall k :: k in s.members ==> MemberOk(ids, s, s.members[k]) && Queued(s, s.members[k])
  }

  /** No run completed since the last request of `c` changed anything for the identities it covers. */
  ghost predicate Settled(ids: Directory, s: State, c: Id)
    requires c in s.work
  {
    forall x, j :: x in ids && Canonical(Latest(s), x) == c && s.work[c].cutoff.runs <= j <= |s.runs| ==>
      Contributes(RunAt(s, j), x) == Contributes(Latest(s), x)
  }

  /** All members of `c` that satisfy `k <= bound` carry the requested revision. */
  ghost predicate Reached(s: State, c: Id, bound: Option<Key>)
    requires c in s.work
  {
    forall k :: k in s.members && (bound == None || k <= bound.value) && Canonical(Latest(s), s.members[k].identity) == c
      ==> s.members[k].revision >= s.work[c].requested
  }

  ghost predicate Progressed(ids: Directory, s: State, c: Id)
    requires c in s.work
  {
    var w := s.work[c];
    && (w.status == IDLE && w.completed == w.requested ==> Reached(s, c, None))
    && (w.active.Some? && w.active.value.revision == w.requested && w.cursor.Some? ==> Reached(s, c, w.cursor))
    && (w.status == IDLE && w.completed < w.requested ==>
          forall x :: x in ids ==> Canonical(Latest(s), x) != c)
  }

  ghost predicate Inv(ids: Directory, s: State) {
    && HistoryOk(ids, s) && RowsOk(s) && MembersOk(ids, s)
    && forall c :: c in s.work ==> Settled(ids, s, c) && Progressed(ids, s, c)
  }

  /** If the work row covering a member is idle, the member shows exactly what projecting everything
      afresh under the latest resolution would show. */
  lemma IdleMeansCurrent(ids: Directory, s: State, k: Key)
    requires Inv(ids, s) && k in s.members
    ensures var m := s.members[k];
            var c := Canonical(Latest(s), m.identity);
            && c in s.work
            && (s.work[c].status == IDLE ==>
                  && s.work[c].completed == s.work[c].requested <= m.revision
                  && m.shown == Projected(ids, m.seen, Latest(s), m.identity, m.participantName))
  {
    var m := s.members[k];
    var c := Canonical(Latest(s), m.identity);
    assert Queued(s, m) && MemberOk(ids, s, m);
    if s.work[c].status == IDLE {
      assert Reached(s, c, None);
      assert s.issued[s.work[c].requested].runs <= s.issued[m.revision].runs;
      assert Settled(ids, s, c);
      SaneRunAt(ids, s, m.run);
      SaneRunAt(ids, s, |s.runs|);
      ProjectionFollowsContribution(ids, m.seen, RunAt(s, m.run), Latest(s), m.identity, m.participantName);
    }
  }

  lemma SaneRunAt(ids: Directory, s: State, j: nat)
    requires forall i :: 0 <= i < |s.runs| ==> Sane(ids, s.runs[i])
    ensures Sane(ids, RunAt(s, j))
  {
  }

  // ---------------------------------------------------------------------------------------------
  // Preservation: requests

  lemma CanonicalIsRoot(ids: Directory, r: Resolution, x: Id)
    requires Sane(ids, r)
    ensures Canonical(r, Canonical(r, x)) == Canonical(r, x)
    ensures Canonical(r, QueueKey(r, x)) == Canonical(r, x)
    ensures x in ids ==> QueueKey(r, x) in ids && Canonical(r, x) in ids
    ensures x in Covered(r, Canonical(r, x))
  {
    if x in r.assignments {
      var root := r.assignments[x].cluster;
      assert root in Members(r, root) && x in Members(r, root);
      if r.assignments[x].status == RESOLVED {
        assert x in Aliases(r, root);
        assert Alone(r, root) ==> Members(r, root) == {root};
      }
    }
  }

  /** What serving a list of distinct identities does to the tables. */
  lemma {:induction false} UpsertAllRows(s: State, order: seq<Id>, now: nat)
    requires forall i, j :: 0 <= i < j < |order| ==> order[i] != order[j]
    ensures var t := UpsertAll(s, order, now);
      && t.members == s.members && t.runs == s.runs && t.heard == s.heard && t.gone == s.gone
      && |t.issued| == |s.issued| + |order|
      && (forall i :: 0 <= i < |t.issued| ==> t.issued[i] == if i < |s.issued| then s.issued[i] else Current(s))
      && (forall c :: c in t.work <==> c in s.work || c in order)
      && (forall c :: c in s.work && c !in order ==> t.work[c] == s.work[c])
      && (forall c :: c in order ==> |s.issued| <= t.work[c].requested < |t.issued|
                                     && t.work[c] == RequestRow(s, c, t.work[c].requested, now))
  {
    if order != [] {
      var front, last := order[..|order| - 1], order[|order| - 1];
      UpsertAllRows(s, front, now);
      assert last !in front;
      assert forall c :: c in order <==> c in front || c == last;
    }
  }

  /** The part of the invariant a request does not depend on. */
  ghost predicate TablesOk(ids: Directory, s: State) {
    && HistoryOk(ids, s) && RowsOk(s)
    && forall k :: k in s.members ==> MemberOk(ids, s, s.members[k])
  }

  /** Everything not in `order` is already in step with the latest run. */
  ghost predicate InStepExcept(ids: Directory, s: State, order: seq<Id>) {
    && (forall c :: c in s.work && c !in order ==> Settled(ids, s, c) && Progressed(ids, s, c))
    && (forall k :: k in s.members ==> Canonical(Latest(s), s.members[k].identity) in order || Queued(s, s.members[k]))
  }

  /** Nothing that a row's standing depends on got worse. */
  ghost predicate MembersAdvance(s: State, t: State, c: Id) {
    forall k :: k in t.members && Canonical(Latest(s), t.members[k].identity) == c ==>
      k in s.members && s.members[k].identity == t.members[k].identity && s.members[k].revision <= t.members[k].revision
  }

  lemma RowFrame(ids: Directory, s: State, t: State, c: Id)
    requires t.runs == s.runs && s.issued <= t.issued && MembersAdvance(s, t, c)
    requires c in s.work && c in t.work && t.work[c] == s.work[c]
    requires RowOk(s, s.work[c]) && Settled(ids, s, c) && Progressed(ids, s, c)
    ensures RowOk(t, t.work[c]) && Settled(ids, t, c) && Progressed(ids, t, c)
  {
    assert forall j :: RunAt(t, j) == RunAt(s, j);
    forall bound: Option<Key> ensures Reached(s, c, bound) ==> Reached(t, c, bound) {}
  }

  lemma MemberFrame(ids: Directory, s: State, t: State, k: Key)
    requires t.runs == s.runs && s.issued <= t.issued && k in s.members && k in t.members && t.members[k] == s.members[k]
    requires MemberOk(ids, s, s.members[k])
    ensures MemberOk(ids, t, t.members[k])
  {
    assert forall j :: RunAt(t, j) == RunAt(s, j);
  }

  lemma HistoryFrame(ids: Directory, s: State, t: State)
    requires HistoryOk(ids, s) && t.runs == s.runs && t.heard == s.heard && t.gone == s.gone && t.issued == s.issued
    ensures HistoryOk(ids, t)
  {
  }

  /** Rows in step and members in order make the invariant. */
  lemma InvFromParts(ids: Directory, t: State)
    requires HistoryOk(ids, t)
    requires forall c :: c in t.work ==> RowOk(t, t.work[c]) && Settled(ids, t, c) && Progressed(ids, t, c)
    requires forall k :: k in t.members ==> MemberOk(ids, t, t.members[k]) && Queued(t, t.members[k])
    ensures Inv(ids, t)
  {
  }

  lemma UpsertAllTables(ids: Directory, s: State, order: seq<Id>, now: nat)
    requires TablesOk(ids, s)
    requires forall i, j :: 0 <= i < j < |order| ==> order[i] != order[j]
    ensures TablesOk(ids, UpsertAll(s, order, now)) && s.issued <= UpsertAll(s, order, now).issued
  {
    var t := UpsertAll(s, order, now);
    UpsertAllRows(s, order, now);
    assert s.issued <= t.issued;
    assert HistoryOk(ids, t);
    forall c | c in t.work ensures RowOk(t, t.work[c]) { UpsertedRowOk(s, t, order, now, c); }
    forall k | k in t.members ensures MemberOk(ids, t, t.members[k]) { MemberFrame(ids, s, t, k); }
  }

  lemma UpsertedRowOk(s: State, t: State, order: seq<Id>, now: nat, c: Id)
    requires |s.issued| > 0 && RowsOk(s) && s.issued <= t.issued && c in t.work
    requires forall i :: |s.issued| <= i < |t.issued| ==> t.issued[i] == Current(s)
    requires c !in order ==> c in s.work && t.work[c] == s.work[c]
    requires c in order ==> |s.issued| <= t.work[c].requested < |t.issued|
                            && t.work[c] == RequestRow(s, c, t.work[c].requested, now)
    ensures RowOk(t, t.work[c])
  {
    if c in s.work { assert RowOk(s, s.work[c]); }
  }

  /** A served row is in step by construction. */
  lemma ServedRowInStep(ids: Directory, s: State, order: seq<Id>, now: nat, c: Id)
    requires TablesOk(ids, s) && c in order
    requires forall i, j :: 0 <= i < j < |order| ==> order[i] != order[j]
    ensures var t := UpsertAll(s, order, now);
            c in t.work && Settled(ids, t, c) && Progressed(ids, t, c) && t.work[c].status != IDLE
  {
    UpsertAllRows(s, order, now);
    if c in s.work { assert RowOk(s, s.work[c]); }
  }

  lemma RetiredRowInStep(ids: Directory, s: State, requested: set<Id>, c: Id)
    requires Inv(ids, s) && requested <= ids.Keys && c in s.work && IsRetired(s, requested, c)
    ensures var t := Retire(s, requested);
            RowOk(t, t.work[c]) && Settled(ids, t, c) && Progressed(ids, t, c)
  {
    assert RowOk(s, s.work[c]);
    SaneRunAt(ids, s, |s.runs|);
    forall x | x in ids ensures Canonical(Latest(s), x) != c {
      CanonicalIsRoot(ids, Latest(s), x);
    }
  }

  lemma RetireKeeps(ids: Directory, s: State, requested: set<Id>)
    requires Inv(ids, s) && requested <= ids.Keys
    ensures Inv(ids, Retire(s, requested))
  {
    var t := Retire(s, requested);
    forall c | c in t.work ensures RowOk(t, t.work[c]) && Settled(ids, t, c) && Progressed(ids, t, c) {
      if IsRetired(s, requested, c) { RetiredRowInStep(ids, s, requested, c); } else { RowFrame(ids, s, t, c); }
    }
    forall k | k in t.members ensures MemberOk(ids, t, t.members[k]) && Queued(t, t.members[k]) {
      assert Queued(s, s.members[k]);
      MemberFrame(ids, s, t, k);
    }
    HistoryFrame(ids, s, t);
    InvFromParts(ids, t);
  }

  /** Requests leave every row in step, provided the rows they skip already were. */
  lemma EnqueueEstablishes(ids: Directory, s: State, requested: set<Id>, order: seq<Id>, now: nat)
    requires TablesOk(ids, s) && Lists(order, Targets(ids, s, requested)) && InStepExcept(ids, s, order)
    ensures Inv(ids, Enqueue(ids, s, requested, order, now))
  {
    var t := UpsertAll(s, order, now);
    UpsertAllRows(s, order, now);
    UpsertAllTables(ids, s, order, now);
    forall c | c in t.work ensures Settled(ids, t, c) && Progressed(ids, t, c) {
      if c in order { ServedRowInStep(ids, s, order, now, c); } else { RowFrame(ids, s, t, c); }
    }
    forall k | k in t.members ensures Queued(t, t.members[k]) {
      StillQueued(ids, s, t, order, k);
    }
    RetireKeeps(ids, t, requested * ids.Keys);
  }

  lemma StillQueued(ids: Directory, s: State, t: State, order: seq<Id>, k: Key)
    requires InStepExcept(ids, s, order) && k in s.members && MemberOk(ids, s, s.members[k]) && t.runs == s.runs
    requires forall c :: c in order ==> c in t.work && |s.issued| <= t.work[c].requested
    requires forall c :: c in s.work && c !in order ==> c in t.work && t.work[c] == s.work[c]
    ensures Queued(t, s.members[k])
  {
    assert Latest(t) == Latest(s);
  }

  lemma EnqueueKeeps(ids: Directory, s: State, requested: set<Id>, order: seq<Id>, now: nat)
    requires Inv(ids, s) && Lists(order, Targets(ids, s, requested))
    ensures Inv(ids, Enqueue(ids, s, requested, order, now))
  {
    EnqueueEstablishes(ids, s, requested, order, now);
  }

  // ---------------------------------------------------------------------------------------------
  // Preservation: the other transactions

  /** A step that rewrites one work row and nothing else. */
  lemma RowRewriteKeeps(ids: Directory, s: State, c: Id, w: Work)
    requires Inv(ids, s) && c in s.work
    requires var t := s.(work := s.work[c := w]); RowOk(t, w) && Progressed(ids, t, c)
    requires w.requested == s.work[c].requested && w.cutoff == s.work[c].cutoff
    ensures Inv(ids, s.(work := s.work[c := w]))
  {
    var t := s.(work := s.work[c := w]);
    forall o | o in t.work ensures RowOk(t, t.work[o]) && Settled(ids, t, o) && Progressed(ids, t, o) {
      assert Settled(ids, s, o);
      if o != c { RowFrame(ids, s, t, o); } else { SettledFrame(ids, s, t, c); }
    }
    forall k | k in t.members ensures MemberOk(ids, t, t.members[k]) && Queued(t, t.members[k]) {
      assert Queued(s, s.members[k]);
      MemberFrame(ids, s, t, k);
    }
    HistoryFrame(ids, s, t);
    InvFromParts(ids, t);
  }

  lemma SettledFrame(ids: Directory, s: State, t: State, c: Id)
    requires t.runs == s.runs && c in s.work && c in t.work && t.work[c].cutoff == s.work[c].cutoff && Settled(ids, s, c)
    ensures Settled(ids, t, c)
  {
    assert forall j :: RunAt(t, j) == RunAt(s, j);
  }

  lemma LeaseStepsKeep(ids: Directory, s: State, c: Id, token: nat, now: nat)
    requires Inv(ids, s) && c in s.work
    ensures Claimable(s.work[c], now) ==> Inv(ids, Claim(s, c, token, now))
    ensures Holds(s, c, token) ==> Inv(ids, Release(s, c, now)) && Inv(ids, Fail(s, c, now))
  {
    assert RowOk(s, s.work[c]) && Progressed(ids, s, c);
    forall w: Work, bound: Option<Key> | w.requested == s.work[c].requested
      ensures Reached(s, c, bound) ==> Reached(s.(work := s.work[c := w]), c, bound) {}
    if Claimable(s.work[c], now) {
      RowRewriteKeeps(ids, s, c, Claim(s, c, token, now).work[c]);
    }
    if Holds(s, c, token) {
      RowRewriteKeeps(ids, s, c, Release(s, c, now).work[c]);
      RowRewriteKeeps(ids, s, c, Fail(s, c, now).work[c]);
    }
  }

  lemma DeleteKeeps(ids: Directory, s: State, k: Key)
    requires Inv(ids, s)
    ensures Inv(ids, s.(members := s.members - {k}))
  {
    var t := s.(members := s.members - {k});
    forall c | c in t.work ensures RowOk(t, t.work[c]) && Settled(ids, t, c) && Progressed(ids, t, c) {
      RowFrame(ids, s, t, c);
    }
    forall m | m in t.members ensures MemberOk(ids, t, t.members[m]) && Queued(t, t.members[m]) {
      assert Queued(s, s.members[m]);
      MemberFrame(ids, s, t, m);
    }
    HistoryFrame(ids, s, t);
    InvFromParts(ids, t);
  }

  /** A completed run leaves in step every row it does not queue. */
  lemma UnqueuedRowInStep(ids: Directory, s: State, r: Resolution, order: seq<Id>, c: Id)
    requires Inv(ids, s) && Sane(ids, r) && c in s.work && c !in order
    requires var t := s.(runs := s.runs + [r]); Lists(order, Targets(ids, t, Affected(Latest(s), r)))
    ensures var t := s.(runs := s.runs + [r]); Settled(ids, t, c) && Progressed(ids, t, c)
  {
    var t := s.(runs := s.runs + [r]);
    assert Latest(t) == r && forall j: nat :: j <= |s.runs| ==> RunAt(t, j) == RunAt(s, j);
    assert Settled(ids, s, c) && Progressed(ids, s, c);
    forall x | x in ids && Canonical(r, x) == c
      ensures Contributes(Latest(s), x) == Contributes(r, x) && Canonical(Latest(s), x) == c
    {
      UnqueuedIdentity(ids, s, r, order, x);
    }
    UnqueuedReached(ids, s, r, c);
  }

  lemma UnqueuedIdentity(ids: Directory, s: State, r: Resolution, order: seq<Id>, x: Id)
    requires forall i :: 0 <= i < |s.runs| ==> Sane(ids, s.runs[i])
    requires Sane(ids, r) && x in ids && Canonical(r, x) !in order
    requires Lists(order, Targets(ids, s.(runs := s.runs + [r]), Affected(Latest(s), r)))
    ensures Contributes(Latest(s), x) == Contributes(r, x) && Canonical(Latest(s), x) == Canonical(r, x)
  {
    assert Latest(s.(runs := s.runs + [r])) == r;
    SaneRunAt(ids, s, |s.runs|);
    CanonicalIsRoot(ids, r, x);
    assert QueueKey(r, x) !in Affected(Latest(s), r);
    DiffIsComplete(Latest(s), r, x);
    ProjectionFollowsContribution(ids, map[], Latest(s), r, x, None);
  }

  lemma UnqueuedReached(ids: Directory, s: State, r: Resolution, c: Id)
    requires c in s.work && forall k :: k in s.members ==> MemberOk(ids, s, s.members[k])
    requires forall x :: x in ids && Canonical(r, x) == c ==> Canonical(Latest(s), x) == c
    ensures var t := s.(runs := s.runs + [r]);
            Latest(t) == r && forall bound: Option<Key> :: Reached(s, c, bound) ==> Reached(t, c, bound)
  {
    var t := s.(runs := s.runs + [r]);
    assert Latest(t) == r;
    forall k | k in t.members && Canonical(r, t.members[k].identity) == c ensures Canonical(Latest(s), s.members[k].identity) == c {
      assert MemberOk(ids, s, s.members[k]);
    }
  }

  lemma CompleteKeeps(ids: Directory, s: State, r: Resolution, order: seq<Id>, now: nat)
    requires Inv(ids, s) && Sane(ids, r)
    requires Lists(order, Targets(ids, s.(runs := s.runs + [r]), Affected(Latest(s), r)))
    ensures Inv(ids, Complete(ids, s, r, order, now))
  {
    var t := s.(runs := s.runs + [r]);
    CompletedTables(ids, s, r);
    forall k | k in t.members ensures Canonical(r, t.members[k].identity) in order || Queued(t, t.members[k]) {
      assert MemberOk(ids, s, s.members[k]) && Queued(s, s.members[k]);
      UnlessQueuedSame(ids, s, r, order, s.members[k].identity);
    }
    forall c | c in t.work && c !in order ensures Settled(ids, t, c) && Progressed(ids, t, c) {
      UnqueuedRowInStep(ids, s, r, order, c);
    }
    EnqueueEstablishes(ids, t, Affected(Latest(s), r), order, now);
  }

  lemma CompletedTables(ids: Directory, s: State, r: Resolution)
    requires TablesOk(ids, s) && Sane(ids, r)
    ensures TablesOk(ids, s.(runs := s.runs + [r]))
  {
    var t := s.(runs := s.runs + [r]);
    assert forall j: nat :: j <= |s.runs| ==> RunAt(t, j) == RunAt(s, j);
    forall c | c in t.work ensures RowOk(t, t.work[c]) { assert RowOk(s, s.work[c]); }
    forall k | k in t.members ensures MemberOk(ids, t, t.members[k]) { assert MemberOk(ids, s, s.members[k]); }
  }

  lemma UnlessQueuedSame(ids: Directory, s: State, r: Resolution, order: seq<Id>, x: Id)
    requires Inv(ids, s) && Sane(ids, r) && x in ids
    requires Lists(order, Targets(ids, s.(runs := s.runs + [r]), Affected(Latest(s), r)))
    ensures Canonical(r, x) in order || Canonical(r, x) == Canonical(Latest(s), x)
  {
    var t := s.(runs := s.runs + [r]);
    assert Latest(t) == r;
    SaneRunAt(ids, s, |s.runs|);
    CanonicalIsRoot(ids, r, x);
    if QueueKey(r, x) in Affected(Latest(s), r) {
      assert Canonical(r, QueueKey(r, x)) in Targets(ids, t, Affected(Latest(s), r));
    } else {
      DiffIsComplete(Latest(s), r, x);
    }
  }

  lemma ObserveKeeps(ids: Directory, s: State, k: Key, id: Id, name: Option<string>, order: seq<Id>, now: nat)
    requires Inv(ids, s) && Speaks(ids, id) && Lists(order, Targets(ids, s, {id}))
    ensures Inv(ids, Observe(ids, s, k, id, name, order, now))
  {
    var queued := Enqueue(ids, s, {id}, order, now);
    EnqueueKeeps(ids, s, {id}, order, now);
    FreshRequest(ids, s, id, order, now);
    if k in s.members { assert MemberOk(ids, s, s.members[k]); }
    MemberRewriteKeeps(ids, queued, k, Observe(ids, s, k, id, name, order, now).members[k]);
  }

  /** More push names, or fewer. */
  lemma PushesMoveKeeps(ids: Directory, s: State, heard: seq<Heard>, gone: set<nat>)
    requires Inv(ids, s) && s.heard <= heard && forall i :: i in gone ==> i < |heard|
    ensures Inv(ids, s.(heard := heard, gone := gone))
  {
    var t := s.(heard := heard, gone := gone);
    forall c | c in t.work ensures RowOk(t, t.work[c]) && Settled(ids, t, c) && Progressed(ids, t, c) {
      RowFrame(ids, s, t, c);
    }
    forall m | m in t.members ensures MemberOk(ids, t, t.members[m]) && Queued(t, t.members[m]) {
      assert Queued(s, s.members[m]);
      MemberFrame(ids, s, t, m);
    }
    assert HistoryOk(ids, t);
  }

  lemma SenderKeeps(ids: Directory, s: State, id: Id, push: Push, order: seq<Id>, now: nat)
    requires Inv(ids, s) && CanInsert(ids, s, [Heard(id, push)])
    requires (IsQueued(Pushes(s), id, push) ==> Lists(order, Targets(ids, s, {id})))
    ensures Inv(ids, HearSender(ids, s, id, push, order, now))
  {
    var t := s.(heard := s.heard + [Heard(id, push)]);
    PushesMoveKeeps(ids, s, t.heard, s.gone);
    if IsQueued(Pushes(s), id, push) {
      assert Latest(t) == Latest(s) && Targets(ids, t, {id}) == Targets(ids, s, {id});
      EnqueueKeeps(ids, t, {id}, order, now);
    }
  }

  /** The work row of `m` has been asked for it and has not yet started on that request. */
  ghost predicate JustAsked(s: State, m: Member) {
    var c := Canonical(Latest(s), m.identity);
    c in s.work && s.work[c].status != IDLE
    && (s.work[c].active.Some? ==> s.work[c].active.value.revision < s.work[c].requested)
  }

  lemma RewrittenMemberRow(ids: Directory, s: State, k: Key, m: Member, o: Id)
    requires o in s.work && RowOk(s, s.work[o]) && Settled(ids, s, o) && Progressed(ids, s, o) && JustAsked(s, m)
    ensures var t := s.(members := s.members[k := m]);
            o in t.work && RowOk(t, t.work[o]) && Settled(ids, t, o) && Progressed(ids, t, o)
  {
    var t := s.(members := s.members[k := m]);
    SettledFrame(ids, s, t, o);
    if o != Canonical(Latest(s), m.identity) { RowFrame(ids, s, t, o); }
  }

  /** Rewriting a member whose work row was just asked for it. */
  lemma MemberRewriteKeeps(ids: Directory, s: State, k: Key, m: Member)
    requires Inv(ids, s) && MemberOk(ids, s, m) && Queued(s, m) && JustAsked(s, m)
    ensures Inv(ids, s.(members := s.members[k := m]))
  {
    var t := s.(members := s.members[k := m]);
    forall o | o in t.work ensures RowOk(t, t.work[o]) && Settled(ids, t, o) && Progressed(ids, t, o) {
      RewrittenMemberRow(ids, s, k, m, o);
    }
    forall j | j in t.members ensures MemberOk(ids, t, t.members[j]) && Queued(t, t.members[j]) {
      RewrittenMember(ids, s, k, m, j);
    }
    HistoryFrame(ids, s, t);
    InvFromParts(ids, t);
  }

  lemma RewrittenMember(ids: Directory, s: State, k: Key, m: Member, j: Key)
    requires MemberOk(ids, s, m) && Queued(s, m)
    requires j == k || (j in s.members && MemberOk(ids, s, s.members[j]) && Queued(s, s.members[j]))
    ensures var t := s.(members := s.members[k := m]);
            MemberOk(ids, t, t.members[j]) && Queued(t, t.members[j])
  {
    var t := s.(members := s.members[k := m]);
    assert forall i :: RunAt(t, i) == RunAt(s, i);
  }

  lemma OneTarget(ids: Directory, s: State, id: Id, order: seq<Id>)
    requires id in ids && Lists(order, Targets(ids, s, {id}))
    ensures order == [Canonical(Latest(s), id)]
  {
    assert Targets(ids, s, {id}) == {Canonical(Latest(s), id)};
  }

  /** Queueing one identity issues one revision, for a row that is then neither idle nor already at it. */
  lemma FreshRequest(ids: Directory, s: State, id: Id, order: seq<Id>, now: nat)
    requires Inv(ids, s) && Speaks(ids, id) && Lists(order, Targets(ids, s, {id}))
    ensures var t, c := Enqueue(ids, s, {id}, order, now), Canonical(Latest(s), id);
      && |t.issued| == |s.issued| + 1 && t.runs == s.runs && t.members == s.members
      && c in t.work && t.work[c].requested == |s.issued| && t.work[c].status != IDLE
      && (t.work[c].active.Some? ==> t.work[c].active.value.revision < t.work[c].requested)
  {
    var c := Canonical(Latest(s), id);
    OneTarget(ids, s, id, order);
    var t := UpsertAll(s, order, now);
    assert order[..|order| - 1] == [] && UpsertAll(s, [], now) == s;
    assert t == Upsert(s, c, now);
    if c in s.work { assert RowOk(s, s.work[c]); }
    assert !IsRetired(t, {id}, c) by {
      SaneRunAt(ids, s, |s.runs|);
      CanonicalIsRoot(ids, Latest(s), id);
      assert Latest(t) == Latest(s);
    }
  }

  /** Members of `c` under the latest run are exactly among those its page visits, when the active
      revision is the requested one. */
  lemma PageSeesMembers(ids: Directory, s: State, c: Id, k: Key)
    requires Inv(ids, s) && c in s.work && s.work[c].active.Some?
    requires s.work[c].active.value.revision == s.work[c].requested
    requires k in s.members && Canonical(Latest(s), s.members[k].identity) == c
    ensures s.members[k].identity in Covered(RunAt(s, s.work[c].active.value.run), c)
  {
    var x, r := s.members[k].identity, RunAt(s, s.work[c].active.value.run);
    assert RowOk(s, s.work[c]) && Settled(ids, s, c) && MemberOk(ids, s, s.members[k]);
    assert Contributes(r, x) == Contributes(Latest(s), x);
    ProjectionFollowsContribution(ids, map[], r, Latest(s), x, None);
    SaneRunAt(ids, s, s.work[c].active.value.run);
    CanonicalIsRoot(ids, r, x);
  }

  /** After a page, the members of `c` up to the new cursor carry the requested revision, and after a
      short page all of them do. */
  lemma PageReaches(ids: Directory, s: State, c: Id, batch: nat, now: nat, k: Key)
    requires Inv(ids, s) && Known(ids, s) && c in s.work && s.work[c].active.Some? && batch > 0
    requires s.work[c].active.value.revision == s.work[c].requested
    requires k in s.members && Canonical(Latest(s), s.members[k].identity) == c
    requires var page := Page(s, c, batch); |page| == batch ==> k <= page[|page| - 1]
    ensures ProjectPage(ids, s, c, batch, now).members[k].revision >= s.work[c].requested
  {
    PageSeesMembers(ids, s, c, k);
    assert Progressed(ids, s, c);
    if Beyond(s.work[c].cursor, k) {
      assert k in Ahead(s, c);
      PageTakesPrefix(Ahead(s, c), batch, k);
    }
  }

  lemma PageTakesPrefix(ahead: set<Key>, batch: nat, k: Key)
    requires k in ahead && batch > 0
    requires var page := FirstN(ahead, batch); |page| == batch ==> k <= page[|page| - 1]
    ensures k in FirstN(ahead, batch)
  {
    var page := FirstN(ahead, batch);
    PageCoversPrefix(ahead, batch);
    assert |page| > 0 ==> page[|page| - 1] in page;
  }

  lemma PagedRowProgress(ids: Directory, s: State, c: Id, batch: nat, now: nat)
    requires Inv(ids, s) && Known(ids, s) && c in s.work && s.work[c].active.Some? && batch > 0
    requires s.work[c].active.value.revision == s.work[c].requested
    ensures Reached(ProjectPage(ids, s, c, batch, now), c, LastOf(Page(s, c, batch), batch))
  {
    var t, page := ProjectPage(ids, s, c, batch, now), Page(s, c, batch);
    forall k | k in t.members && Canonical(Latest(s), t.members[k].identity) == c && (|page| == batch ==> k <= page[|page| - 1])
      ensures t.members[k].revision >= s.work[c].requested
    {
      PageReaches(ids, s, c, batch, now, k);
    }
  }

  lemma AdvancedOk(s: State, w: Work, last: Option<Key>, now: nat)
    requires RowOk(s, w) && w.status == RUNNING && w.active.Some?
    ensures RowOk(s, Advanced(w, w.active.value, last, now))
  {
  }

  lemma PagedRowInStep(ids: Directory, s: State, c: Id, batch: nat, now: nat)
    requires Inv(ids, s) && Known(ids, s) && c in s.work && s.work[c].status == RUNNING && batch > 0
    requires s.work[c].active.Some?
    ensures var t := ProjectPage(ids, s, c, batch, now);
            RowOk(t, t.work[c]) && Settled(ids, t, c) && Progressed(ids, t, c)
  {
    var w, t, last := s.work[c], ProjectPage(ids, s, c, batch, now), LastOf(Page(s, c, batch), batch);
    assert RowOk(s, w) && Settled(ids, s, c);
    AdvancedOk(s, w, last, now);
    SettledFrame(ids, s, t, c);
    if w.active.value.revision == w.requested { PagedRowProgress(ids, s, c, batch, now); }
    AdvancedProgress(ids, s, t, c, last, now);
  }

  lemma AdvancedProgress(ids: Directory, s: State, t: State, c: Id, last: Option<Key>, now: nat)
    requires c in s.work && RowOk(s, s.work[c]) && s.work[c].status == RUNNING && s.work[c].active.Some?
    requires c in t.work && t.work[c] == Advanced(s.work[c], s.work[c].active.value, last, now)
    requires s.work[c].active.value.revision == s.work[c].requested ==> Reached(t, c, last)
    ensures Progressed(ids, t, c)
  {
  }

  lemma WrittenOk(ids: Directory, s: State, a: Active, m: Member)
    requires MemberOk(ids, s, m) && 0 < a.revision < |s.issued| && a.cutoff == s.issued[a.revision] && a.run == a.cutoff.runs
    ensures MemberOk(ids, s, Written(ids, s, a, m)) && Written(ids, s, a, m).identity == m.identity
    ensures Written(ids, s, a, m).since == m.since && Written(ids, s, a, m).revision >= m.revision
  {
  }

  lemma PagedMemberOk(ids: Directory, s: State, c: Id, batch: nat, now: nat, k: Key)
    requires |s.issued| > 0 && RowsOk(s) && Known(ids, s) && c in s.work && s.work[c].active.Some? && batch > 0
    requires k in s.members && MemberOk(ids, s, s.members[k]) && Queued(s, s.members[k])
    ensures var t := ProjectPage(ids, s, c, batch, now);
            k in t.members && MemberOk(ids, t, t.members[k]) && Queued(t, t.members[k])
  {
    var t := ProjectPage(ids, s, c, batch, now);
    assert RowOk(s, s.work[c]);
    WrittenOk(ids, s, s.work[c].active.value, s.members[k]);
    assert MemberOk(ids, s, t.members[k]);
    assert forall j :: RunAt(t, j) == RunAt(s, j);
  }

  lemma OtherRowInStep(ids: Directory, s: State, c: Id, batch: nat, now: nat, o: Id)
    requires Known(ids, s) && c in s.work && s.work[c].active.Some? && batch > 0
    requires o in s.work && o != c && RowOk(s, s.work[o]) && Settled(ids, s, o) && Progressed(ids, s, o)
    ensures var t := ProjectPage(ids, s, c, batch, now);
            o in t.work && RowOk(t, t.work[o]) && Settled(ids, t, o) && Progressed(ids, t, o)
  {
    RowFrame(ids, s, ProjectPage(ids, s, c, batch, now), o);
  }

  lemma PageKeeps(ids: Directory, s: State, c: Id, batch: nat, now: nat)
    requires Inv(ids, s) && Known(ids, s) && c in s.work && s.work[c].status == RUNNING && batch > 0
    requires s.work[c].active.Some?
    ensures Inv(ids, ProjectPage(ids, s, c, batch, now))
  {
    var t := ProjectPage(ids, s, c, batch, now);
    forall o | o in t.work ensures RowOk(t, t.work[o]) && Settled(ids, t, o) && Progressed(ids, t, o) {
      if o != c { OtherRowInStep(ids, s, c, batch, now, o); } else { PagedRowInStep(ids, s, c, batch, now); }
    }
    forall k | k in t.members ensures MemberOk(ids, t, t.members[k]) && Queued(t, t.members[k]) {
      PagedMemberOk(ids, s, c, batch, now, k);
    }
    HistoryFrame(ids, s, t);
    InvFromParts(ids, t);
  }

  /** Every transaction keeps the invariant. */
  lemma StepKeeps(ids: Directory, s: State, step: Step, now: nat)
    requires Inv(ids, s) && Enabled(ids, s, step, now)
    ensures Known(ids, s) && Inv(ids, After(ids, s, step, now))
  {
    forall k | k in s.members ensures s.members[k].identity in ids { assert MemberOk(ids, s, s.members[k]); }
    match step
    case EnqueueStep(requested, order) => EnqueueKeeps(ids, s, requested, order, now);
    case ClaimStep(c, token) => LeaseStepsKeep(ids, s, c, token, now);
    case PageStep(c, _, batch) => PageKeeps(ids, s, c, batch, now);
    case ReleaseStep(c, token) => LeaseStepsKeep(ids, s, c, token, now);
    case FailStep(c, token) => LeaseStepsKeep(ids, s, c, token, now);
    case ObserveStep(k, id, name, order) => ObserveKeeps(ids, s, k, id, name, order, now);
    case DeleteStep(k) => DeleteKeeps(ids, s, k);
    case CompleteStep(r, order) => ResolverRunsAreSane(ids, r); CompleteKeeps(ids, s, r, order, now);
    case SenderStep(id, push, order) => SenderKeeps(ids, s, id, push, order, now);
    case SnapshotStep(found) => PushesMoveKeeps(ids, s, s.heard + found, s.gone);
    case ExpireStep(dropped) => PushesMoveKeeps(ids, s, s.heard, s.gone + dropped);
  }

  /** A run of the queue: any interleaving of transactions at any times. */
  ghost predicate IsRun(ids: Directory, states: seq<State>, steps: seq<(Step, nat)>) {
    && |states| == |steps| + 1 && states[0] == INITIAL
    && forall i :: 0 <= i < |steps| ==>
         Known(ids, states[i]) && Enabled(ids, states[i], steps[i].0, steps[i].1)
         && states[i + 1] == After(ids, states[i], steps[i].0, steps[i].1)
  }

  lemma {:induction false} RunsKeepInv(ids: Directory, states: seq<State>, steps: seq<(Step, nat)>, n: nat)
    requires IsRun(ids, states, steps) && n <= |steps|
    ensures Inv(ids, states[n])
  {
    if n > 0 {
      RunsKeepInv(ids, states, steps, n - 1);
      StepKeeps(ids, states[n - 1], steps[n - 1].0, steps[n - 1].1);
      assert states[n - 1 + 1] == After(ids, states[n - 1], steps[n - 1].0, steps[n - 1].1);
    }
  }

  /** In every state of every run, a member whose work row is idle shows what projecting it afresh under the
      latest resolution would show with the push names its page read. It is stale, if at all, in its push
      name: exactly if nothing ranks before that and those names have changed for it since. */
  lemma IdleMembersAreStaleOnlyInPushNames(ids: Directory, states: seq<State>, steps: seq<(Step, nat)>, n: nat, k: Key)
    requires IsRun(ids, states, steps) && n <= |steps| && k in states[n].members
    ensures var s, m := states[n], states[n].members[k];
            var c := Canonical(Latest(s), m.identity);
            && c in s.work && m.identity in ids
            && (s.work[c].status == IDLE ==>
                  && s.work[c].completed == s.work[c].requested <= m.revision
                  && m.shown == Projected(ids, m.seen, Latest(s), m.identity, m.participantName)
                  && (!IsCurrent(ids, s, m) <==>
                        ShowsPush(Latest(s), m.identity, m.participantName)
                        && PushName(m.seen, Latest(s), m.identity) != PushName(Pushes(s), Latest(s), m.identity)))
  {
    var s, m := states[n], states[n].members[k];
    RunsKeepInv(ids, states, steps, n);
    IdleMeansCurrent(ids, s, k);
    assert MemberOk(ids, s, m);
    PushesShow(ids, m.seen, Pushes(s), Latest(s), m.identity, m.participantName);
  }

  /** The member shows what projecting it now would show. */
  ghost predicate IsCurrent(ids: Directory, s: State, m: Member)
    requires m.identity in ids
  {
    m.shown == Projected(ids, Pushes(s), Latest(s), m.identity, m.participantName)
  }

  // ---------------------------------------------------------------------------------------------
  // What makes a run safe to project

  /** The resolver's runs are what the queue relies on. */
  lemma ResolverRunsAreSane(ids: Directory, r: Resolution)
    requires IsResolverRun(ids, r)
    ensures Sane(ids, r)
  {
    var q: Input :| KnownIn(q.ids, ids) && EvidenceOk(q.ids, q.evidence) && q.Valid() && Resolves(q, r);
    StoredEvidenceHasShape(q.ids, q.evidence, q.generation, q.cutoff);
    ResolutionWellFormed(q, r);
    WriterShapeIsolates(q, r);
    forall id | id in r.assignments ensures id in ids { AssignedIsKnown(q, id); }
  }

  /** Where no phone JID is stored under the name of a device, they leave at most two voices in a cluster. */
  lemma ResolverRunsHaveFewVoices(ids: Directory, r: Resolution)
    requires IsResolverRun(ids, r) && NoDeviceNames(ids)
    ensures FewVoices(ids, r)
  {
    var q: Input :| KnownIn(q.ids, ids) && EvidenceOk(q.ids, q.evidence) && q.Valid() && Resolves(q, r);
    assert NoDeviceNames(q.ids);
    StoredEvidenceHasShape(q.ids, q.evidence, q.generation, q.cutoff);
    WrittenEvidenceHasFewVoices(q, r);
    forall x | x in r.assignments ensures x in q.ids { AssignedIsKnown(q, x); }
    VoicesStay(q.ids, ids, r);
  }

  lemma VoicesStay(earlier: map<Id, Identity>, ids: Directory, r: Resolution)
    requires KnownIn(earlier, ids) && FewVoices(earlier, r) && r.assignments.Keys <= earlier.Keys
    ensures FewVoices(ids, r)
  {
    forall a, b, c | InOneCluster(r, a, b) && InOneCluster(r, b, c) && Speaks(ids, a) && Speaks(ids, b) && Speaks(ids, c)
      ensures a == b || b == c || a == c
    {
      assert Speaks(earlier, a) && Speaks(earlier, b) && Speaks(earlier, c);
    }
  }

  /** A page of the identity's work row visits it, and a change of it queues that row. */
  predicate IsServed(r: Resolution, x: Id) {
    x in Covered(r, Canonical(r, x)) && Canonical(r, QueueKey(r, x)) == Canonical(r, x)
  }

  /** Every assigned identity is served by its own work row exactly if quarantine isolates. */
  lemma AllServedIffIsolated(r: Resolution)
    requires WellFormed(r)
    requires forall id :: id in r.assignments && r.assignments[id].status == QUARANTINED ==> r.assignments[id].phone == None
    ensures (forall x :: x in r.assignments ==> IsServed(r, x)) <==> Isolated(r)
  {
    if forall x :: x in r.assignments ==> IsServed(r, x) {
      forall id | id in r.assignments && r.assignments[id].status == QUARANTINED ensures Alone(r, id) {
        ServedQuarantineIsAlone(r, id);
      }
    }
    if Isolated(r) {
      forall x | x in r.assignments ensures IsServed(r, x) { IsolatedIsServed(r, x); }
    }
  }

  lemma ServedQuarantineIsAlone(r: Resolution, id: Id)
    requires WellFormed(r) && id in r.assignments && r.assignments[id].status == QUARANTINED && r.assignments[id].phone == None
    requires forall x :: x in r.assignments ==> IsServed(r, x)
    ensures Alone(r, id)
  {
    assert IsServed(r, id);
    forall x | x in Members(r, r.assignments[id].cluster) ensures x == id {
      assert IsServed(r, x);
    }
    assert id in Members(r, r.assignments[id].cluster);
  }

  lemma IsolatedIsServed(r: Resolution, x: Id)
    requires WellFormed(r) && Isolated(r) && x in r.assignments
    ensures IsServed(r, x)
  {
    var root := r.assignments[x].cluster;
    assert root in Members(r, root) && x in Members(r, root);
    if r.assignments[x].status == RESOLVED {
      assert x in Aliases(r, root);
      assert Alone(r, root) ==> Members(r, root) == {root};
    }
  }

  /** ... which, for links that only lead to phones, is a condition on the evidence a run reads. */
  lemma AllServedIffUnderived(q: Input, r: Resolution)
    requires q.Valid() && Resolves(q, r) && Bipartite(q.ids, q.Edges())
    ensures (forall x :: x in r.assignments ==> IsServed(r, x))
            <==> forall a :: q.Grouped(a) && IsConflicted(q.ids, q.Edges(), a) ==> !HasDerivedEdge(q.Edges(), a)
  {
    ResolutionWellFormed(q, r);
    AllServedIffIsolated(r);
    IsolationCondition(q, r);
  }

  // ---------------------------------------------------------------------------------------------
  // Claims

  /** The claim of row `c` is still the one it was. */
  predicate SameClaim(s: State, t: State, c: Id)
    requires c in s.work && s.work[c].status == RUNNING && s.work[c].lease.Some?
  {
    c in t.work && t.work[c].status == RUNNING && t.work[c].lease.Some? && t.work[c].lease.value.token == s.work[c].lease.value.token
  }

  lemma RequestsLeaveClaims(ids: Directory, s: State, requested: set<Id>, order: seq<Id>, now: nat, c: Id)
    requires Lists(order, Targets(ids, s, requested)) && c in s.work && s.work[c].status == RUNNING && s.work[c].lease.Some?
    requires s.work[c].active.Some?
    ensures SameClaim(s, Enqueue(ids, s, requested, order, now), c)
  {
    UpsertAllRows(s, order, now);
  }

  /** After a request no requested identity that another row covers has work of its own waiting, retrying or failed. */
  lemma RequestsRetireAliases(ids: Directory, s: State, requested: set<Id>, order: seq<Id>, now: nat, id: Id)
    requires Lists(order, Targets(ids, s, requested)) && id in requested && id in ids && Canonical(Latest(s), id) != id
    ensures var t := Enqueue(ids, s, requested, order, now);
      id in t.work ==> t.work[id].status == IDLE || t.work[id].status == RUNNING
  {
    UpsertAllRows(s, order, now);
  }

  /** Pages make progress: a full one moves the cursor forward, and a short one completes the revision. */
  lemma PagesAdvance(ids: Directory, s: State, c: Id, batch: nat, now: nat)
    requires Known(ids, s) && c in s.work && s.work[c].active.Some? && batch > 0
    ensures var t := ProjectPage(ids, s, c, batch, now);
      && c in t.work
      && (|Page(s, c, batch)| == batch ==>
            t.work[c].cursor.Some? && (s.work[c].cursor.Some? ==> s.work[c].cursor.value < t.work[c].cursor.value))
      && (|Page(s, c, batch)| < batch ==>
            && t.work[c].completed == s.work[c].active.value.revision && t.work[c].active.None? && t.work[c].lease.None?
            && (t.work[c].status == IDLE <==> s.work[c].requested <= s.work[c].active.value.revision)
            && (t.work[c].status == PENDING <==> s.work[c].requested > s.work[c].active.value.revision))
  {
    var page := Page(s, c, batch);
    if |page| == batch { assert page[|page| - 1] in Ahead(s, c); }
  }

  /** A request of a row that is running or waiting to retry keeps what is under way: the revision, the place it has
      reached and the attempts; it starts anything else over. */
  lemma RequestsKeepProgress(ids: Directory, s: State, requested: set<Id>, order: seq<Id>, now: nat, c: Id)
    requires Lists(order, Targets(ids, s, requested)) && c in order && c in s.work
    ensures c in Enqueue(ids, s, requested, order, now).work
    ensures var w, v := s.work[c], Enqueue(ids, s, requested, order, now).work[c];
      && v.requested >= |s.issued| && v.cutoff == Cutoff(|s.runs|, |s.heard|) && v.completed == w.completed
      && ((w.status == RUNNING || w.status == RETRY) && w.active.Some? && Canonical(Latest(s), c) == c ==>
            v.status == w.status && v.active == w.active && v.cursor == w.cursor && v.attempts == w.attempts && v.lease == w.lease)
      && (!((w.status == RUNNING || w.status == RETRY) && w.active.Some?) && Canonical(Latest(s), c) == c ==>
            v.status == PENDING && v.active.None? && v.cursor.None? && v.attempts == 0)
  {
    UpsertAllRows(s, order, now);
  }

  /** A claim stands: a page, a release or a failure of its holder ends it, requests leave it alone, and only after its
      lease has run out anybody else takes the row. */
  lemma ClaimStands(ids: Directory, s: State, step: Step, now: nat, c: Id)
    requires Inv(ids, s) && Known(ids, s) && Enabled(ids, s, step, now)
    requires c in s.work && s.work[c].status == RUNNING && s.work[c].lease.Some?
    ensures || SameClaim(s, After(ids, s, step, now), c)
            || s.work[c].lease.value.expiresAt < now
            || (step.PageStep? && step.c == c && step.token == s.work[c].lease.value.token && now < s.work[c].lease.value.expiresAt)
            || ((step.ReleaseStep? || step.FailStep?) && step.c == c && step.token == s.work[c].lease.value.token)
  {
    assert RowOk(s, s.work[c]);
    match step
    case EnqueueStep(requested, order) => RequestsLeaveClaims(ids, s, requested, order, now, c);
    case ObserveStep(_, id, _, order) => RequestsLeaveClaims(ids, s, {id}, order, now, c);
    case CompleteStep(r, order) =>
      RequestsLeaveClaims(ids, s.(runs := s.runs + [r]), Affected(Latest(s), r), order, now, c);
    case SenderStep(id, push, order) =>
      if IsQueued(Pushes(s), id, push) {
        var t := s.(heard := s.heard + [Heard(id, push)]);
        assert Latest(t) == Latest(s) && Targets(ids, t, {id}) == Targets(ids, s, {id});
        RequestsLeaveClaims(ids, t, {id}, order, now, c);
      }
    case _ =>
  }
}
