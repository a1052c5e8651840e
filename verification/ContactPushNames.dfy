/** Push names of message senders. An observation queues its identity only if it changes the identity's own
    newest name; what that leaves out for the other identities of its cluster is stated here exactly, and is
    nothing where evidence ties one phone JID to each phone. */
module ContactPushNames {
  import opened Options
  import opened Reachability
  import opened ContactResolution
  import opened ContactNames

  /** Observation identifiers are unique, and `push` is a new one. */
  predicate IsFresh(pushes: map<Id, Push>, push: Push) {
    DistinctPushes(pushes) && forall a :: a in pushes ==> pushes[a].observation != push.observation
  }

  /** Whether the sender's identity is queued for projection. */
  predicate IsQueued(pushes: map<Id, Push>, x: Id, push: Push) {
    x !in pushes || (StrictlyNewer(push, pushes[x]) && push.name != pushes[x].name)
  }

  lemma NewestIsUnique(pushes: map<Id, Push>, among: set<Id>, z: Id)
    requires IsNewest(pushes, among, z) && DistinctPushes(pushes)
    ensures NewestPush(pushes, among) == Some(pushes[z].name)
  {
    var w :| IsNewest(pushes, among, w) && NewestPush(pushes, among) == Some(pushes[w].name);
    assert IsNewest(pushes, among, w);
    assert NewerPush(pushes[w], pushes[z]) && NewerPush(pushes[z], pushes[w]);
  }

  /** The new observation overtakes the newest one among `among`, which belongs to another identity and has
      another name. */
  ghost predicate Overtakes(pushes: map<Id, Push>, among: set<Id>, x: Id, push: Push) {
    x in among && exists z :: IsNewest(pushes, among, z) && StrictlyNewer(push, pushes[z]) && pushes[z].name != push.name
  }

  lemma {:induction false} NewestExists(pushes: map<Id, Push>, among: set<Id>)
    requires exists z :: z in among && z in pushes
    ensures exists z :: IsNewest(pushes, among, z)
    decreases among
  {
    var z :| z in among && z in pushes;
    var rest := among - {z};
    if exists o :: o in rest && o in pushes {
      NewestExists(pushes, rest);
      var w :| IsNewest(pushes, rest, w);
      if NewerPush(pushes[z], pushes[w]) {
        assert IsNewest(pushes, among, z);
      } else {
        assert IsNewest(pushes, among, w);
      }
    } else {
      assert IsNewest(pushes, among, z);
    }
  }

  lemma NewestAfter(pushes: map<Id, Push>, among: set<Id>, x: Id, push: Push)
    requires IsFresh(pushes, push) && !IsQueued(pushes, x, push)
    ensures NewestPush(Observed(pushes, x, push), among) != NewestPush(pushes, among) <==> Overtakes(pushes, among, x, push)
  {
    var after := Observed(pushes, x, push);
    if exists z :: z in among && z in pushes {
      NewestExists(pushes, among);
      var z :| IsNewest(pushes, among, z);
      NewestIsUnique(pushes, among, z);
      OneNewest(pushes, among, z, x, push);
      if x in among && StrictlyNewer(push, pushes[z]) {
        assert after[x] == push;
        assert IsNewest(after, among, x);
        NewestIsUnique(after, among, x);
      } else {
        assert IsNewest(after, among, z);
        NewestIsUnique(after, among, z);
        assert after[z].name == pushes[z].name;
      }
    } else {
      assert forall z :: z in among ==> z !in after;
    }
  }

  lemma OneNewest(pushes: map<Id, Push>, among: set<Id>, z: Id, x: Id, push: Push)
    requires IsFresh(pushes, push) && IsNewest(pushes, among, z)
    ensures Overtakes(pushes, among, x, push) <==> x in among && StrictlyNewer(push, pushes[z]) && pushes[z].name != push.name
  {
    forall w | IsNewest(pushes, among, w) ensures w == z {
      assert NewerPush(pushes[w], pushes[z]) && NewerPush(pushes[z], pushes[w]);
    }
  }

  /** An observation that queues nothing changes the push name of identity `y` exactly if `y` has none of its
      own, shows the newest name of its aliases, and the observation overtakes that name with another. */
  lemma UnqueuedPushEffect(pushes: map<Id, Push>, r: Resolution, x: Id, push: Push, y: Id)
    requires IsFresh(pushes, push) && !IsQueued(pushes, x, push)
    ensures PushName(Observed(pushes, x, push), r, y) != PushName(pushes, r, y)
            <==> y !in pushes && IsResolved(r, y) && Overtakes(pushes, OtherAliases(r, y), x, push)
  {
    assert y in Observed(pushes, x, push) <==> y in pushes;
    assert y in pushes ==> Observed(pushes, x, push)[y].name == pushes[y].name;
    if IsResolved(r, y) {
      NewestAfter(pushes, OtherAliases(r, y), x, push);
      if !(exists z :: z in OtherAliases(r, y) && z in pushes) {
        assert NewestPush(pushes, OtherAliases(r, y)).None?;
      }
    }
  }

  // ---------------------------------------------------------------------------------------------
  // Where that never happens

  /** At most two identities of a cluster can be heard: one phone JID and one other. */
  ghost predicate FewVoices(ids: Directory, r: Resolution) {
    forall a, b, c :: InOneCluster(r, a, b) && InOneCluster(r, b, c) && Speaks(ids, a) && Speaks(ids, b) && Speaks(ids, c)
                      ==> a == b || b == c || a == c
  }

  predicate InOneCluster(r: Resolution, a: Id, b: Id) {
    IsResolved(r, a) && IsResolved(r, b) && r.assignments[a].cluster == r.assignments[b].cluster
  }

  /** With at most two voices in each cluster, an observation that queues nothing changes no push name. */
  lemma UnqueuedPushIsHarmless(ids: Directory, pushes: map<Id, Push>, r: Resolution, x: Id, push: Push, y: Id)
    requires IsFresh(pushes, push) && !IsQueued(pushes, x, push) && FewVoices(ids, r) && Speaks(ids, y)
    requires forall z :: z in pushes ==> Speaks(ids, z)
    ensures PushName(Observed(pushes, x, push), r, y) == PushName(pushes, r, y)
  {
    UnqueuedPushEffect(pushes, r, x, push, y);
    if y !in pushes && IsResolved(r, y) {
      forall z | IsNewest(pushes, OtherAliases(r, y), z) && x in OtherAliases(r, y) ensures z == x {
        assert InOneCluster(r, x, y) && InOneCluster(r, y, z);
      }
    }
  }

  /** Two phone JIDs that stand for the same phone are the same. */
  lemma OneJidPerHub(ids: Directory, edges: set<Evidence>, a: Id, b: Id)
    requires WriterShape(ids, edges) && OneJidPerPhone(edges) && Speaks(ids, a) && Speaks(ids, b)
    requires Hub(ids, edges, a) == Hub(ids, edges, b) && ids[a].kind == PHONE_JID && ids[b].kind == PHONE_JID
    ensures a == b
  {
    HubIsSelfOrPhone(ids, edges, a);
    HubIsSelfOrPhone(ids, edges, b);
    forall e, f | IsEligible(ids, edges, e) && IsEligible(ids, edges, f) && e.left == a && f.left == b && e.right == f.right
      ensures a == b
    {
      assert e.source == PHONE_JID_DERIVATION && f.source == PHONE_JID_DERIVATION;
    }
  }

  /** Two identities of one cluster that can both be heard are a phone JID and something else. */
  lemma VoicesDiffer(q: Input, r: Resolution, a: Id, b: Id)
    requires q.Valid() && Resolves(q, r) && WriterShape(q.ids, q.Edges()) && OneJidPerPhone(q.Edges())
    requires a in r.assignments && b in r.assignments && a != b && InOneCluster(r, a, b)
    requires Speaks(q.ids, a) && Speaks(q.ids, b)
    ensures (q.ids[a].kind == PHONE_JID) != (q.ids[b].kind == PHONE_JID)
  {
    PhonesAreUnambiguous(q, r, a, b);
    ClustersAreHubs(q, r, a, b);
    if q.ids[a].kind == PHONE_JID && q.ids[b].kind == PHONE_JID { OneJidPerHub(q.ids, q.Edges(), a, b); }
  }

  /** Runs on written evidence have at most two voices in each cluster. */
  lemma WrittenEvidenceHasFewVoices(q: Input, r: Resolution)
    requires q.Valid() && Resolves(q, r) && WriterShape(q.ids, q.Edges()) && OneJidPerPhone(q.Edges())
    ensures FewVoices(q.ids, r)
  {
    forall a, b, c | InOneCluster(r, a, b) && InOneCluster(r, b, c) && Speaks(q.ids, a) && Speaks(q.ids, b) && Speaks(q.ids, c)
      ensures a == b || b == c || a == c
    {
      if a != b && b != c && a != c {
        VoicesDiffer(q, r, a, b);
        VoicesDiffer(q, r, b, c);
        VoicesDiffer(q, r, a, c);
      }
    }
  }
}
