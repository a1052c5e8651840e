/** When projected members are current. If push names came from message senders since a work row was last
    requested, and clusters had at most two identities to hear them from, the row being idle means that its
    members show what a full re-projection would show; pruning superseded names does not change that. */
module ContactFreshness {
  import opened Options
  import opened Orders
  import opened Reachability
  import opened ContactResolution
  import opened ContactNames
  import opened ContactPushNames
  import opened ContactProjection

  /** A work row, the revision last requested of it, and the observations that were deleted by then. */
  datatype Base = Base(row: Id, revision: nat, gone: set<nat>)

  /** The newest push names of those inserted first, deleted since the base or not. */
  function History(s: State, b: Base, count: nat): map<Id, Push> {
    Newest(if count <= |s.heard| then s.heard[..count] else s.heard, b.gone)
  }

  /** The push name of `x` under the latest resolution, as of the first `count` observations. */
  ghost function NameAt(s: State, b: Base, count: nat, x: Id): Option<(string, NameSource)> {
    PushName(History(s, b, count), Latest(s), x)
  }

  /** No observation inserted since the last request of the row changed a push name of those it covers. */
  ghost predicate Quiet(ids: Directory, s: State, b: Base)
    requires b.row in s.work
  {
    forall x, j :: Speaks(ids, x) && Canonical(Latest(s), x) == b.row && s.work[b.row].cutoff.heard <= j <= |s.heard| ==>
      NameAt(s, b, j, x) == NameAt(s, b, |s.heard|, x)
  }

  /** A page reads the push names as of the cutoff of its revision. */
  ghost predicate SawItsCutoff(s: State, b: Base, m: Member) {
    b.revision <= m.revision ==> m.revision < |s.issued| && m.seen == History(s, b, s.issued[m.revision].heard)
  }

  ghost predicate HeardOk(ids: Directory, s: State) {
    && DistinctHeard(s.heard) && (forall i :: 0 <= i < |s.heard| ==> Speaks(ids, s.heard[i].id))
    && (forall i :: i in s.gone ==> i < |s.heard|)
  }

  /** Work that is queued, running or waiting to retry; only such work will still read push names. */
  predicate IsWaiting(w: Work) {
    w.status in {PENDING, RUNNING, RETRY}
  }

  predicate ReadsFrom(w: Work, p: nat) {
    p <= w.cutoff.heard && (w.active.Some? ==> p <= w.active.value.cutoff.heard)
  }

  /** Nothing that a page can still read has been deleted since the base. */
  ghost predicate PrunedBefore(s: State, b: Base, p: nat) {
    && p <= |s.heard| && (forall j :: p <= j <= |s.heard| ==> PushesAt(s, j) == History(s, b, j))
    && (forall c :: c in s.work && IsWaiting(s.work[c]) ==> ReadsFrom(s.work[c], p))
  }

  ghost predicate IsRequested(s: State, b: Base) {
    b.row in s.work && s.work[b.row].requested == b.revision
  }

  ghost predicate PushInv(ids: Directory, s: State, b: Base, p: nat) {
    && HeardOk(ids, s) && PrunedBefore(s, b, p) && IsRequested(s, b) && Quiet(ids, s, b)
    && (forall k :: k in s.members ==> SawItsCutoff(s, b, s.members[k]))
  }

  /** Retention: with no work waiting, observations are deleted that a newer one of the same identity outlives. */
  ghost predicate Prunes(s: State, dropped: set<nat>) {
    && (forall c :: c in s.work ==> !IsWaiting(s.work[c]))
    && (forall i :: i in dropped ==> i < |s.heard| && exists m :: 0 <= m < |s.heard| && Outlives(s.heard, s.gone + dropped, i, m))
  }

  predicate Outlives(heard: seq<Heard>, gone: set<nat>, i: nat, m: nat)
    requires i < |heard| && m < |heard|
  {
    m !in gone && heard[m].id == heard[i].id && StrictlyNewer(heard[m].push, heard[i].push)
  }

  /** Push names come from senders alone, of clusters with at most two voices unless they queue their row, and
      are only pruned. */
  ghost predicate SendersOnly(ids: Directory, s: State, step: Step) {
    && !step.SnapshotStep? && (step.ExpireStep? ==> Prunes(s, step.dropped))
    && (step.SenderStep? && !IsQueued(Pushes(s), step.id, step.push) ==> FewVoices(ids, Latest(s)))
  }

  // ---------------------------------------------------------------------------------------------
  // Preservation

  /** The base row keeps its cutoff, and members their push names or those of their cutoff. */
  ghost predicate Follows(s: State, t: State, b: Base) {
    && t.runs == s.runs && t.heard == s.heard && t.gone == s.gone && s.issued <= t.issued
    && (forall k :: k in t.members ==> SawItsCutoff(t, b, t.members[k]))
    && (forall c :: c in t.work && IsWaiting(t.work[c]) ==> ReadsNothingOlder(s, t, c))
  }

  /** What the row will read was current or already to be read before. */
  predicate ReadsNothingOlder(s: State, t: State, c: Id)
    requires c in t.work
  {
    var w, kept := t.work[c], c in s.work && IsWaiting(s.work[c]);
    && (w.cutoff.heard == |t.heard| || (kept && w.cutoff == s.work[c].cutoff))
    && (w.active.Some? ==>
          || w.active.value.cutoff == w.cutoff
          || (kept && s.work[c].active.Some? && w.active.value.cutoff == s.work[c].active.value.cutoff))
  }

  /** A row that was not requested again has its cutoff. */
  lemma CutoffStays(s: State, t: State, b: Base)
    requires IsRequested(s, b) && IsRequested(t, b) && RowOk(s, s.work[b.row]) && RowOk(t, t.work[b.row]) && s.issued <= t.issued
    ensures t.work[b.row].cutoff == s.work[b.row].cutoff
  {
  }

  lemma QuietFrame(ids: Directory, s: State, t: State, b: Base)
    requires t.runs == s.runs && t.heard == s.heard && b.row in s.work && b.row in t.work
    requires t.work[b.row].cutoff.heard == s.work[b.row].cutoff.heard && Quiet(ids, s, b)
    ensures Quiet(ids, t, b)
  {
    assert Latest(t) == Latest(s);
    forall x, j | Speaks(ids, x) && Canonical(Latest(t), x) == b.row && t.work[b.row].cutoff.heard <= j <= |t.heard|
      ensures NameAt(t, b, j, x) == NameAt(t, b, |t.heard|, x)
    {
      assert NameAt(s, b, j, x) == NameAt(s, b, |s.heard|, x);
    }
  }

  lemma PrunedFrame(s: State, t: State, b: Base, p: nat)
    requires PrunedBefore(s, b, p) && t.heard == s.heard && t.gone == s.gone
    requires forall c :: c in t.work && IsWaiting(t.work[c]) ==> ReadsNothingOlder(s, t, c)
    ensures PrunedBefore(t, b, p)
  {
    assert forall j :: PushesAt(t, j) == PushesAt(s, j) && History(t, b, j) == History(s, b, j);
    forall c | c in t.work && IsWaiting(t.work[c]) ensures ReadsFrom(t.work[c], p) { assert ReadsNothingOlder(s, t, c); }
  }

  lemma FollowingKeeps(ids: Directory, s: State, t: State, b: Base, p: nat)
    requires Inv(ids, s) && Inv(ids, t) && PushInv(ids, s, b, p) && Follows(s, t, b) && IsRequested(t, b)
    ensures PushInv(ids, t, b, p)
  {
    PrunedFrame(s, t, b, p);
    CutoffStays(s, t, b);
    QuietFrame(ids, s, t, b);
  }

  lemma SeenStays(s: State, t: State, b: Base, k: Key)
    requires k in s.members && SawItsCutoff(s, b, s.members[k]) && s.issued <= t.issued && t.heard == s.heard
    requires k in t.members && t.members[k].revision == s.members[k].revision && t.members[k].seen == s.members[k].seen
    ensures SawItsCutoff(t, b, t.members[k])
  {
  }

  ghost predicate AllSaw(s: State, b: Base) {
    forall k :: k in s.members ==> SawItsCutoff(s, b, s.members[k])
  }

  lemma EnqueueFollows(ids: Directory, s: State, requested: set<Id>, order: seq<Id>, now: nat, b: Base)
    requires Lists(order, Targets(ids, s, requested)) && AllSaw(s, b)
    ensures Follows(s, Enqueue(ids, s, requested, order, now), b)
  {
    var u := Enqueue(ids, s, requested, order, now);
    UpsertAllRows(s, order, now);
    forall c | c in u.work && IsWaiting(u.work[c]) ensures ReadsNothingOlder(s, u, c) { UpsertedReads(s, order, now, c); }
    forall k | k in u.members ensures SawItsCutoff(u, b, u.members[k]) { SeenStays(s, u, b, k); }
  }

  lemma UpsertedReads(s: State, order: seq<Id>, now: nat, c: Id)
    requires forall i, j :: 0 <= i < j < |order| ==> order[i] != order[j]
    requires c in UpsertAll(s, order, now).work && IsWaiting(UpsertAll(s, order, now).work[c])
    ensures ReadsNothingOlder(s, UpsertAll(s, order, now), c)
  {
    UpsertAllRows(s, order, now);
  }

  lemma PageFollows(ids: Directory, s: State, c: Id, batch: nat, now: nat, b: Base, p: nat)
    requires Known(ids, s) && c in s.work && s.work[c].status == RUNNING && s.work[c].active.Some? && RowOk(s, s.work[c]) && batch > 0
    requires PrunedBefore(s, b, p) && s.work[c].active.value.cutoff.heard <= |s.heard| && AllSaw(s, b)
    ensures Follows(s, ProjectPage(ids, s, c, batch, now), b)
  {
    var t := ProjectPage(ids, s, c, batch, now);
    forall k | k in t.members ensures SawItsCutoff(t, b, t.members[k]) {
      if t.members[k] == s.members[k] { SeenStays(s, t, b, k); }
    }
  }

  lemma ObserveFollows(ids: Directory, s: State, k: Key, id: Id, name: Option<string>, order: seq<Id>, now: nat, b: Base)
    requires Lists(order, Targets(ids, s, {id})) && 0 < b.revision && AllSaw(s, b)
    ensures Follows(s, Observe(ids, s, k, id, name, order, now), b)
  {
    var t := Enqueue(ids, s, {id}, order, now);
    EnqueueFollows(ids, s, {id}, order, now, b);
    UpsertAllRows(s, order, now);
    var u := Observe(ids, s, k, id, name, order, now);
    forall j | j in u.members ensures SawItsCutoff(u, b, u.members[j]) {
      if j in t.members { SeenStays(t, u, b, j); }
    }
  }

  /** A row that keeps its revision was not served. */
  lemma NotServed(ids: Directory, s: State, requested: set<Id>, order: seq<Id>, now: nat, b: Base)
    requires Lists(order, Targets(ids, s, requested)) && b.row in s.work && RowOk(s, s.work[b.row]) && s.work[b.row].requested == b.revision
    requires IsRequested(Enqueue(ids, s, requested, order, now), b)
    ensures b.row !in order
  {
    UpsertAllRows(s, order, now);
  }

  lemma CompleteKeepsQuiet(ids: Directory, s: State, r: Resolution, order: seq<Id>, now: nat, b: Base, p: nat)
    requires Inv(ids, s) && PushInv(ids, s, b, p) && Sane(ids, r) && Inv(ids, Complete(ids, s, r, order, now))
    requires Lists(order, Targets(ids, s.(runs := s.runs + [r]), Affected(Latest(s), r)))
    requires IsRequested(Complete(ids, s, r, order, now), b)
    ensures PushInv(ids, Complete(ids, s, r, order, now), b, p)
  {
    var t, u := s.(runs := s.runs + [r]), Complete(ids, s, r, order, now);
    assert RowOk(s, s.work[b.row]) && RowOk(u, u.work[b.row]);
    NotServed(ids, t, Affected(Latest(s), r), order, now, b);
    forall k | k in t.members ensures SawItsCutoff(t, b, t.members[k]) { SeenStays(s, t, b, k); }
    UnqueuedStaysQuiet(ids, s, r, order, b);
    PrunedFrame(s, t, b, p);
    RequestKeepsQuiet(ids, t, Affected(Latest(s), r), order, now, b, p);
  }

  /** Requests of other rows. */
  lemma RequestKeepsQuiet(ids: Directory, t: State, requested: set<Id>, order: seq<Id>, now: nat, b: Base, p: nat)
    requires HeardOk(ids, t) && PrunedBefore(t, b, p) && Lists(order, Targets(ids, t, requested)) && AllSaw(t, b)
    requires IsRequested(t, b) && Quiet(ids, t, b) && b.row !in order
    ensures PushInv(ids, Enqueue(ids, t, requested, order, now), b, p)
  {
    var u := Enqueue(ids, t, requested, order, now);
    EnqueueFollows(ids, t, requested, order, now, b);
    UpsertAllRows(t, order, now);
    PrunedFrame(t, u, b, p);
    QuietFrame(ids, t, u, b);
  }

  /** A completed run changes no push name of a row it does not queue. */
  lemma UnqueuedStaysQuiet(ids: Directory, s: State, r: Resolution, order: seq<Id>, b: Base)
    requires Inv(ids, s) && Sane(ids, r) && b.row in s.work && b.row !in order && Quiet(ids, s, b)
    requires Lists(order, Targets(ids, s.(runs := s.runs + [r]), Affected(Latest(s), r)))
    ensures Quiet(ids, s.(runs := s.runs + [r]), b)
  {
    var t := s.(runs := s.runs + [r]);
    assert Latest(t) == r && forall j :: History(t, b, j) == History(s, b, j);
    forall x, j | Speaks(ids, x) && Canonical(r, x) == b.row && s.work[b.row].cutoff.heard <= j <= |s.heard|
      ensures NameAt(t, b, j, x) == NameAt(t, b, |t.heard|, x)
    {
      UnqueuedIdentity(ids, s, r, order, x);
      ProjectionFollowsContribution(ids, History(s, b, j), Latest(s), r, x, None);
      ProjectionFollowsContribution(ids, History(s, b, |s.heard|), Latest(s), r, x, None);
      assert NameAt(s, b, j, x) == NameAt(s, b, |s.heard|, x);
    }
  }

  // ---------------------------------------------------------------------------------------------
  // Preservation: a sender is heard

  /** What one more observation does to the newest push names. */
  lemma HeardPushes(ids: Directory, s: State, id: Id, push: Push)
    requires HeardOk(ids, s) && CanInsert(ids, s, [Heard(id, push)])
    ensures var t := s.(heard := s.heard + [Heard(id, push)]);
      && HeardOk(ids, t) && IsFresh(Pushes(s), push) && Pushes(t) == Observed(Pushes(s), id, push)
      && (forall j: nat :: j <= |s.heard| ==> PushesAt(t, j) == PushesAt(s, j))
      && (forall z :: z in Pushes(s) ==> Speaks(ids, z))
  {
    var t := s.(heard := s.heard + [Heard(id, push)]);
    assert t.heard[..|t.heard|] == t.heard && t.heard[..|t.heard| - 1] == s.heard == s.heard[..|s.heard|];
    assert forall j: nat :: j <= |s.heard| ==> t.heard[..j] == s.heard[..j];
    assert forall i :: 0 <= i < |s.heard| ==> t.heard[i] == s.heard[i];
    forall i | 0 <= i < |t.heard| ensures Speaks(ids, t.heard[i].id) { assert [Heard(id, push)][0].id == id; }
    NewestAreDistinct(s.heard, s.gone);
    forall z | z in Pushes(s) ensures Speaks(ids, z) && Pushes(s)[z].observation != push.observation {
      NewestIsListedFirst(s.heard, s.gone, z);
      var i :| 0 <= i < |s.heard| && s.heard[i] == Heard(z, Pushes(s)[z]);
      assert t.heard[i].push.observation != t.heard[|s.heard|].push.observation;
    }
  }

  lemma HeardHistory(ids: Directory, s: State, id: Id, push: Push, b: Base, p: nat)
    requires HeardOk(ids, s) && PrunedBefore(s, b, p) && CanInsert(ids, s, [Heard(id, push)]) && b.gone <= s.gone
    ensures var t := s.(heard := s.heard + [Heard(id, push)]);
      && Pushes(s) == History(s, b, |s.heard|) && Pushes(t) == History(t, b, |t.heard|)
      && (forall j: nat :: j <= |s.heard| ==> History(t, b, j) == History(s, b, j))
  {
    var t := s.(heard := s.heard + [Heard(id, push)]);
    HeardPushes(ids, s, id, push);
    assert t.heard[..|t.heard|] == t.heard && t.heard[..|t.heard| - 1] == s.heard == s.heard[..|s.heard|];
    assert forall j: nat :: j <= |s.heard| ==> t.heard[..j] == s.heard[..j];
    assert Pushes(s) == History(s, b, |s.heard|);
    assert |s.heard| !in b.gone;
  }

  /** Hearing a sender changes no push name outside the row it queues. */
  lemma OthersKeepTheirName(ids: Directory, s: State, id: Id, push: Push, x: Id)
    requires HeardOk(ids, s) && CanInsert(ids, s, [Heard(id, push)]) && Speaks(ids, x)
    requires if IsQueued(Pushes(s), id, push) then Canonical(Latest(s), x) != Canonical(Latest(s), id) else FewVoices(ids, Latest(s))
    ensures PushName(Observed(Pushes(s), id, push), Latest(s), x) == PushName(Pushes(s), Latest(s), x)
  {
    HeardPushes(ids, s, id, push);
    if IsQueued(Pushes(s), id, push) {
      var pushes, after := Pushes(s), Observed(Pushes(s), id, push);
      assert forall z :: z != id ==> (z in after <==> z in pushes) && (z in after ==> after[z] == pushes[z]);
      if IsResolved(Latest(s), x) { SameNewest(pushes, after, OtherAliases(Latest(s), x), id); }
    } else {
      UnqueuedPushIsHarmless(ids, Pushes(s), Latest(s), id, push, x);
    }
  }

  lemma SameNewest(pushes: map<Id, Push>, after: map<Id, Push>, among: set<Id>, id: Id)
    requires id !in among && DistinctPushes(pushes)
    requires forall z :: z != id ==> (z in after <==> z in pushes) && (z in after ==> after[z] == pushes[z])
    ensures NewestPush(after, among) == NewestPush(pushes, among)
  {
    if z :| IsNewest(pushes, among, z) {
      NewestIsUnique(pushes, among, z);
      assert IsNewest(after, among, z);
      var w :| IsNewest(after, among, w) && NewestPush(after, among) == Some(after[w].name);
      assert IsNewest(after, among, w);
      assert IsNewest(pushes, among, w);
      assert NewerPush(pushes[w], pushes[z]) && NewerPush(pushes[z], pushes[w]);
    } else if z :| IsNewest(after, among, z) {
      assert IsNewest(pushes, among, z);
    }
  }

  lemma SenderKeepsQuiet(ids: Directory, s: State, id: Id, push: Push, order: seq<Id>, now: nat, b: Base, p: nat)
    requires Inv(ids, s) && PushInv(ids, s, b, p) && b.gone <= s.gone && CanInsert(ids, s, [Heard(id, push)])
    requires if IsQueued(Pushes(s), id, push) then Lists(order, Targets(ids, s, {id})) else FewVoices(ids, Latest(s))
    requires IsRequested(HearSender(ids, s, id, push, order, now), b)
    ensures PushInv(ids, HearSender(ids, s, id, push, order, now), b, p)
  {
    var t := s.(heard := s.heard + [Heard(id, push)]);
    HeardPushes(ids, s, id, push);
    HeardStaysSeen(ids, s, id, push, b, p);
    if IsQueued(Pushes(s), id, push) {
      assert [Heard(id, push)][0].id == id;
      assert Latest(t) == Latest(s) && Targets(ids, t, {id}) == Targets(ids, s, {id});
      OneTarget(ids, t, id, order);
      assert RowOk(s, s.work[b.row]);
      NotServed(ids, t, {id}, order, now, b);
      SenderLeavesQuiet(ids, s, id, push, b, p);
      RequestKeepsQuiet(ids, t, {id}, order, now, b, p);
    } else {
      SenderLeavesQuiet(ids, s, id, push, b, p);
    }
  }

  lemma HeardStaysSeen(ids: Directory, s: State, id: Id, push: Push, b: Base, p: nat)
    requires HistoryOk(ids, s) && PushInv(ids, s, b, p) && b.gone <= s.gone && CanInsert(ids, s, [Heard(id, push)])
    ensures var t := s.(heard := s.heard + [Heard(id, push)]); PrunedBefore(t, b, p) && AllSaw(t, b)
  {
    var t := s.(heard := s.heard + [Heard(id, push)]);
    HeardPushes(ids, s, id, push);
    HeardHistory(ids, s, id, push, b, p);
    forall k | k in t.members ensures SawItsCutoff(t, b, t.members[k]) { assert SawItsCutoff(s, b, s.members[k]); }
  }

  lemma SenderLeavesQuiet(ids: Directory, s: State, id: Id, push: Push, b: Base, p: nat)
    requires Inv(ids, s) && PushInv(ids, s, b, p) && b.gone <= s.gone && CanInsert(ids, s, [Heard(id, push)])
    requires if IsQueued(Pushes(s), id, push) then b.row != Canonical(Latest(s), id) else FewVoices(ids, Latest(s))
    ensures Quiet(ids, s.(heard := s.heard + [Heard(id, push)]), b)
  {
    var t := s.(heard := s.heard + [Heard(id, push)]);
    HeardPushes(ids, s, id, push);
    HeardHistory(ids, s, id, push, b, p);
    assert Latest(t) == Latest(s);
    forall x, j | Speaks(ids, x) && Canonical(Latest(t), x) == b.row && t.work[b.row].cutoff.heard <= j <= |t.heard|
      ensures NameAt(t, b, j, x) == NameAt(t, b, |t.heard|, x)
    {
      OthersKeepTheirName(ids, s, id, push, x);
      if j <= |s.heard| { assert NameAt(s, b, j, x) == NameAt(s, b, |s.heard|, x); }
    }
  }

  // ---------------------------------------------------------------------------------------------
  // Preservation: names are pruned

  lemma PruningKeeps(ids: Directory, s: State, dropped: set<nat>, b: Base, p: nat)
    requires PushInv(ids, s, b, p) && Prunes(s, dropped)
    ensures PushInv(ids, s.(gone := s.gone + dropped), b, |s.heard|)
  {
    var t := s.(gone := s.gone + dropped);
    PrunedTable(s, dropped, b, p);
    QuietFrame(ids, s, t, b);
    forall k | k in t.members ensures SawItsCutoff(t, b, t.members[k]) { SeenStays(s, t, b, k); }
  }

  lemma PrunedTable(s: State, dropped: set<nat>, b: Base, p: nat)
    requires PrunedBefore(s, b, p) && Prunes(s, dropped) && DistinctHeard(s.heard)
    ensures PrunedBefore(s.(gone := s.gone + dropped), b, |s.heard|)
  {
    assert s.heard[..|s.heard|] == s.heard && Pushes(s) == History(s, b, |s.heard|);
    PruningIsInvisible(s.heard, s.gone, s.gone + dropped);
  }

  /** Deleting what a newer observation of the same identity outlives does not change the newest ones. */
  lemma PruningIsInvisible(heard: seq<Heard>, gone: set<nat>, more: set<nat>)
    requires DistinctHeard(heard) && gone <= more
    requires forall i :: i in more - gone ==> i < |heard| && exists m :: 0 <= m < |heard| && Outlives(heard, more, i, m)
    ensures Newest(heard, more) == Newest(heard, gone)
  {
    var all, left := Newest(heard, gone), Newest(heard, more);
    forall x ensures (x in left <==> x in all) && (x in all ==> left[x] == all[x]) {
      NewestIsListedFirst(heard, more, x);
      NewestIsListedFirst(heard, gone, x);
      if x in all {
        var i :| 0 <= i < |heard| && i !in gone && heard[i] == Heard(x, all[x]);
        forall m | 0 <= m < |heard| ensures !Outlives(heard, more, i, m) {
          assert m !in more && heard[m].id == x ==> NewerPush(heard[i].push, heard[m].push);
        }
        assert i in more ==> i in more - gone;
        NewestIs(heard, more, i);
      }
    }
  }

  // ---------------------------------------------------------------------------------------------
  // Runs

  /** Where deletions have reached after a step. */
  function PrunedBy(s: State, step: Step, p: nat): nat {
    if step.ExpireStep? then |s.heard| else p
  }

  lemma StepKeepsPushes(ids: Directory, s: State, step: Step, now: nat, b: Base, p: nat)
    requires Inv(ids, s) && PushInv(ids, s, b, p) && b.gone <= s.gone
    requires Known(ids, s) && Enabled(ids, s, step, now) && SendersOnly(ids, s, step)
    requires IsRequested(After(ids, s, step, now), b)
    ensures PushInv(ids, After(ids, s, step, now), b, PrunedBy(s, step, p)) && b.gone <= After(ids, s, step, now).gone
  {
    StepKeeps(ids, s, step, now);
    DeletionsStay(ids, s, step, now);
    if step.CompleteStep? {
      ResolverRunsAreSane(ids, step.r);
      CompleteKeepsQuiet(ids, s, step.r, step.order, now, b, p);
    } else if step.SenderStep? {
      SenderKeepsQuiet(ids, s, step.id, step.push, step.order, now, b, p);
    } else if step.ExpireStep? {
      PruningKeeps(ids, s, step.dropped, b, p);
    } else {
      StepFollows(ids, s, step, now, b, p);
      FollowingKeeps(ids, s, After(ids, s, step, now), b, p);
    }
  }

  lemma DeletionsStay(ids: Directory, s: State, step: Step, now: nat)
    requires Known(ids, s) && Enabled(ids, s, step, now)
    ensures s.gone <= After(ids, s, step, now).gone
  {
    if step.EnqueueStep? || step.ObserveStep? {
      UpsertAllRows(s, step.order, now);
    } else if step.CompleteStep? {
      UpsertAllRows(s.(runs := s.runs + [step.r]), step.order, now);
    } else if step.SenderStep? && IsQueued(Pushes(s), step.id, step.push) {
      UpsertAllRows(s.(heard := s.heard + [Heard(step.id, step.push)]), step.order, now);
    }
  }

  /** The transactions that neither bring push names nor complete a run. */
  lemma StepFollows(ids: Directory, s: State, step: Step, now: nat, b: Base, p: nat)
    requires Inv(ids, s) && PushInv(ids, s, b, p) && Known(ids, s) && Enabled(ids, s, step, now)
    requires !step.CompleteStep? && !step.SenderStep? && !step.SnapshotStep? && !step.ExpireStep?
    ensures Follows(s, After(ids, s, step, now), b)
  {
    assert RowOk(s, s.work[b.row]);
    if step.EnqueueStep? {
      EnqueueFollows(ids, s, step.requested, step.order, now, b);
    } else if step.PageStep? {
      assert RowOk(s, s.work[step.c]);
      PageFollows(ids, s, step.c, step.batch, now, b, p);
    } else if step.ObserveStep? {
      ObserveFollows(ids, s, step.k, step.id, step.name, step.order, now, b);
    } else {
      RowStepFollows(ids, s, step, now, b);
    }
  }

  lemma RowStepFollows(ids: Directory, s: State, step: Step, now: nat, b: Base)
    requires AllSaw(s, b)
    requires Known(ids, s) && Enabled(ids, s, step, now) && (step.ClaimStep? || step.ReleaseStep? || step.FailStep? || step.DeleteStep?)
    ensures Follows(s, After(ids, s, step, now), b)
  {
    var t := After(ids, s, step, now);
    forall c | c in t.work && IsWaiting(t.work[c]) ensures ReadsNothingOlder(s, t, c) {}
    forall k | k in t.members ensures SawItsCutoff(t, b, t.members[k]) { SeenStays(s, t, b, k); }
  }

  /** Every observation there ever was is distinct and of somebody who can be heard. */
  lemma {:induction false} RunsKeepHeard(ids: Directory, states: seq<State>, steps: seq<(Step, nat)>, n: nat)
    requires IsRun(ids, states, steps) && n <= |steps|
    ensures HeardOk(ids, states[n])
  {
    if n > 0 {
      RunsKeepHeard(ids, states, steps, n - 1);
      assert states[n - 1 + 1] == After(ids, states[n - 1], steps[n - 1].0, steps[n - 1].1);
      StepKeepsHeard(ids, states[n - 1], steps[n - 1].0, steps[n - 1].1);
    }
  }

  lemma StepKeepsHeard(ids: Directory, s: State, step: Step, now: nat)
    requires HeardOk(ids, s) && Known(ids, s) && Enabled(ids, s, step, now)
    ensures HeardOk(ids, After(ids, s, step, now))
  {
    if step.EnqueueStep? || step.ObserveStep? || step.CompleteStep? || step.SenderStep? {
      RequestStepKeepsHeard(ids, s, step, now);
    } else if step.SnapshotStep? {
      InsertKeepsHeard(ids, s, step.found);
    }
  }

  lemma InsertKeepsHeard(ids: Directory, s: State, found: seq<Heard>)
    requires HeardOk(ids, s) && CanInsert(ids, s, found)
    ensures HeardOk(ids, s.(heard := s.heard + found))
  {
    forall i | 0 <= i < |s.heard + found| ensures Speaks(ids, (s.heard + found)[i].id) {
      if i >= |s.heard| { assert (s.heard + found)[i] == found[i - |s.heard|]; }
    }
  }

  lemma RequestStepKeepsHeard(ids: Directory, s: State, step: Step, now: nat)
    requires HeardOk(ids, s) && Known(ids, s) && Enabled(ids, s, step, now)
    requires step.EnqueueStep? || step.ObserveStep? || step.CompleteStep? || step.SenderStep?
    ensures HeardOk(ids, After(ids, s, step, now))
  {
    match step
    case EnqueueStep(requested, order) => UpsertAllRows(s, order, now);
    case ObserveStep(_, _, _, order) => UpsertAllRows(s, order, now);
    case CompleteStep(r, order) => UpsertAllRows(s.(runs := s.runs + [r]), order, now);
    case SenderStep(id, push, order) =>
      InsertKeepsHeard(ids, s, [Heard(id, push)]);
      if IsQueued(Pushes(s), id, push) { UpsertAllRows(s.(heard := s.heard + [Heard(id, push)]), order, now); }
  }

  // ---------------------------------------------------------------------------------------------
  // Since the last request

  /** The number of steps by the end of which the row of `c` got the request it has after `n` steps. */
  function LastRequest(states: seq<State>, n: nat, c: Id): (f: nat)
    requires n < |states|
    ensures f <= n
  {
    if n > 0 && c in states[n].work && c in states[n - 1].work && states[n - 1].work[c].requested == states[n].work[c].requested
    then LastRequest(states, n - 1, c) else n
  }

  lemma {:induction false} SameRequestSince(states: seq<State>, n: nat, c: Id, i: nat)
    requires n < |states| && c in states[n].work && LastRequest(states, n, c) <= i <= n
    ensures c in states[i].work && states[i].work[c].requested == states[n].work[c].requested
    ensures LastRequest(states, i, c) == LastRequest(states, n, c)
  {
    if i < n { SameRequestSince(states, n - 1, c, i); }
  }

  /** Serving a row gives it the current cutoff and a revision that was not issued before. */
  lemma ServedIsCurrent(ids: Directory, s: State, requested: set<Id>, order: seq<Id>, now: nat, c: Id)
    requires Lists(order, Targets(ids, s, requested))
    requires var t := Enqueue(ids, s, requested, order, now);
             c in t.work && (c in s.work ==> s.work[c].requested != t.work[c].requested)
    ensures var t := Enqueue(ids, s, requested, order, now);
            t.work[c].cutoff == Current(t) && |s.issued| <= t.work[c].requested && t.members == s.members
  {
    UpsertAllRows(s, order, now);
  }

  /** A request takes the current cutoff and a revision that no member carries yet. */
  lemma RequestIsCurrent(ids: Directory, s: State, step: Step, now: nat, c: Id)
    requires Inv(ids, s) && Known(ids, s) && Enabled(ids, s, step, now)
    requires var t := After(ids, s, step, now); c in t.work && (c in s.work ==> s.work[c].requested != t.work[c].requested)
    ensures var t := After(ids, s, step, now);
      && t.work[c].cutoff == Current(t) && forall k :: k in t.members ==> t.members[k].revision < t.work[c].requested
  {
    forall k | k in s.members ensures s.members[k].revision < |s.issued| { assert MemberOk(ids, s, s.members[k]); }
    if step.EnqueueStep? {
      ServedIsCurrent(ids, s, step.requested, step.order, now, c);
    } else if step.ObserveStep? {
      ServedIsCurrent(ids, s, {step.id}, step.order, now, c);
    } else if step.CompleteStep? {
      ServedIsCurrent(ids, s.(runs := s.runs + [step.r]), Affected(Latest(s), step.r), step.order, now, c);
    } else if step.SenderStep? && IsQueued(Pushes(s), step.id, step.push) {
      var t := s.(heard := s.heard + [Heard(step.id, step.push)]);
      assert Latest(t) == Latest(s) && Targets(ids, t, {step.id}) == Targets(ids, s, {step.id});
      ServedIsCurrent(ids, t, {step.id}, step.order, now, c);
    }
  }

  lemma FreshIsQuiet(ids: Directory, s: State, c: Id)
    requires HeardOk(ids, s) && c in s.work && s.work[c].cutoff == Current(s)
    requires forall k :: k in s.members ==> s.members[k].revision < s.work[c].requested
    ensures PushInv(ids, s, Base(c, s.work[c].requested, s.gone), 0)
  {
  }

  /** What holds when the row was just requested. */
  lemma FreshlyRequested(ids: Directory, states: seq<State>, steps: seq<(Step, nat)>, f: nat, c: Id)
    requires IsRun(ids, states, steps) && f <= |steps| && c in states[f].work && LastRequest(states, f, c) == f
    ensures PushInv(ids, states[f], Base(c, states[f].work[c].requested, states[f].gone), 0)
  {
    assert f > 0;
    RunsKeepInv(ids, states, steps, f - 1);
    RunsKeepHeard(ids, states, steps, f);
    assert states[f - 1 + 1] == After(ids, states[f - 1], steps[f - 1].0, steps[f - 1].1);
    RequestIsCurrent(ids, states[f - 1], steps[f - 1].0, steps[f - 1].1, c);
    FreshIsQuiet(ids, states[f], c);
  }

  ghost predicate HearsSendersOnly(ids: Directory, states: seq<State>, steps: seq<(Step, nat)>, from: nat, n: nat) {
    |states| == |steps| + 1 && n <= |steps| && forall i :: from <= i < n ==> SendersOnly(ids, states[i], steps[i].0)
  }

  lemma {:induction false} RunsKeepPushInv(ids: Directory, states: seq<State>, steps: seq<(Step, nat)>, n: nat, c: Id)
    returns (b: Base, p: nat)
    requires IsRun(ids, states, steps) && n <= |steps| && c in states[n].work
    requires HearsSendersOnly(ids, states, steps, LastRequest(states, n, c), n)
    ensures b.row == c && PushInv(ids, states[n], b, p) && b.gone <= states[n].gone
    decreases n
  {
    var f := LastRequest(states, n, c);
    if f == n {
      FreshlyRequested(ids, states, steps, n, c);
      b, p := Base(c, states[n].work[c].requested, states[n].gone), 0;
    } else {
      SameRequestSince(states, n, c, n - 1);
      var q;
      b, q := RunsKeepPushInv(ids, states, steps, n - 1, c);
      RunsKeepInv(ids, states, steps, n - 1);
      assert states[n - 1 + 1] == After(ids, states[n - 1], steps[n - 1].0, steps[n - 1].1);
      StepKeepsPushes(ids, states[n - 1], steps[n - 1].0, steps[n - 1].1, b, q);
      p := PrunedBy(states[n - 1], steps[n - 1].0, q);
    }
  }

  /** Incremental maintenance agrees with full re-projection: in every state of every run, a member whose work
      row is idle shows what projecting it afresh under the latest resolution would show, if since the row was
      last requested no snapshot was published, names were only pruned, and senders that queued nothing were
      heard under resolutions with at most two voices in a cluster. */
  lemma IncrementalAgreesWithFull(ids: Directory, states: seq<State>, steps: seq<(Step, nat)>, n: nat, k: Key)
    requires IsRun(ids, states, steps) && n <= |steps| && k in states[n].members
    requires var c := Canonical(Latest(states[n]), states[n].members[k].identity);
             HearsSendersOnly(ids, states, steps, LastRequest(states, n, c), n)
    ensures var s, m := states[n], states[n].members[k];
            var c := Canonical(Latest(s), m.identity);
            && c in s.work && m.identity in ids
            && (s.work[c].status == IDLE ==> s.work[c].completed == s.work[c].requested <= m.revision && IsCurrent(ids, s, m))
  {
    var s, m := states[n], states[n].members[k];
    var c := Canonical(Latest(s), m.identity);
    IdleMembersAreStaleOnlyInPushNames(ids, states, steps, n, k);
    RunsKeepInv(ids, states, steps, n);
    var b, p := RunsKeepPushInv(ids, states, steps, n, c);
    assert Pushes(s) == History(s, b, |s.heard|);
    assert MemberOk(ids, s, m) && RowOk(s, s.work[c]) && Quiet(ids, s, b) && SawItsCutoff(s, b, m);
    if s.work[c].status == IDLE {
      assert s.work[c].cutoff.heard <= s.issued[m.revision].heard <= |s.heard|;
      assert NameAt(s, b, s.issued[m.revision].heard, m.identity) == NameAt(s, b, |s.heard|, m.identity);
    }
  }
}
