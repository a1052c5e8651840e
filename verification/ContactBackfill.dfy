/** Evidence backfilled from member rows written before evidence was kept. It takes participants under their
    stored names, device suffix included, and links a phone JID to the phone stored with the member before the
    digits of its own name. The stored phone never differs from those, so the shape of evidence survives; but a
    device name can make two phone JIDs stand for one phone. */
module ContactBackfill {
  import opened Options
  import opened Orders
  import opened Reachability
  import opened ContactResolution
  import opened ContactEvidence
  import opened ContactNames
  import opened ContactPushNames

  /** What the projection mirrors into the stored phone of a phone JID's members passes the column's check for
      digits only if it is the JID's own number. With the observation and the member backfill, which store the
      digits outright, no statement stores another one. */
  lemma MirrorKeepsStoredPhone(q: Input, r: Resolution, a: Id)
    requires q.Valid() && EvidenceOk(q.ids, q.evidence) && Resolves(q, r)
    requires a in q.ids && q.ids[a].kind == PHONE_JID
    ensures var shown := PhoneOf(q.ids, r, a);
            shown.Some? && IsDigits(shown.value) ==> StoredPhoneOk(PHONE_JID, q.ids[a].value, shown)
  {
    var edges := q.Edges();
    StoredEvidenceHasShape(q.ids, q.evidence, q.generation, q.cutoff);
    if IsResolved(r, a) {
      ResolutionIsOneHop(q, r);
      HubIsSelfOrPhone(q.ids, edges, a);
      forall e | IsEligible(q.ids, edges, e) && e.left == a ensures q.ids[e.right].value == Stem(q.ids[a].value) {
        assert IsStored(q.ids, e);
      }
    } else if IsDigits(q.ids[a].phone.value) {
      StemOfDigits(q.ids[a].phone.value, SUFFIX);
    }
  }

  /** All identities of `q` are observed and joined to the least of them. */
  ghost predicate OneComponent(q: Input, least: Id)
    requires q.Valid()
  {
    && Nodes(q.ids, q.cutoff) == q.ids.Keys && least in q.ids && (forall id :: id in q.ids ==> least <= id)
    && (forall id :: id in q.ids ==> Joined(Links(q.ids, q.Edges()), least, id))
  }

  lemma OneComponentGroups(q: Input, least: Id, id: Id)
    requires q.Valid() && OneComponent(q, least)
    ensures q.Grouped(id) <==> id in q.ids
    ensures id in q.ids ==> q.ClusterOf(id) == least
  {
    var nodes, links := Nodes(q.ids, q.cutoff), Links(q.ids, q.Edges());
    if id in q.ids {
      assert least in Roots(nodes, links, id);
      LeastIsMin(Roots(nodes, links, id), least);
    }
    if q.Grouped(id) { AssignedIsKnown(q, id); }
  }

  /** A run over a single component. */
  lemma OneComponentResolves(q: Input, r: Resolution, least: Id)
    requires q.Valid() && OneComponent(q, least) && r.assignments.Keys == q.ids.Keys && r.clusters.Keys == {least}
    requires forall id :: id in r.assignments ==>
      r.assignments[id] == if IsConflicted(q.ids, q.Edges(), id) then Assignment(least, QUARANTINED, None)
                           else Assignment(least, RESOLVED, r.clusters[least].phone)
    requires r.clusters[least].size == |q.ids.Keys| && q.names == map[]
    requires r.clusters[least].name == None && r.clusters[least].nameFrom == None
    requires forall v :: r.clusters[least].phone == Some(v) <==> PhoneValues(q.ids, q.ids.Keys) == {v}
    ensures Resolves(q, r)
  {
    assert Members(r, least) == q.ids.Keys;
    forall id ensures id in r.assignments <==> q.Grouped(id) { OneComponentGroups(q, least, id); }
    forall id | id in r.assignments ensures q.ClusterOf(id) == least { OneComponentGroups(q, least, id); }
    ResolvesFromParts(q, r, least);
  }

  lemma ResolvesFromParts(q: Input, r: Resolution, c: Id)
    requires q.Valid() && (forall id :: id in r.assignments <==> q.Grouped(id)) && r.clusters.Keys == {c}
    requires forall id :: id in r.assignments ==>
      q.ClusterOf(id) == c && r.assignments[id] == if IsConflicted(q.ids, q.Edges(), id) then Assignment(c, QUARANTINED, None)
                                                   else Assignment(c, RESOLVED, r.clusters[c].phone)
    requires Members(r, c) != {} && r.clusters[c].size == |Members(r, c)|
    requires forall v :: r.clusters[c].phone == Some(v) <==> PhoneValues(q.ids, Members(r, c)) == {v}
    requires IsClusterName(q.names, Members(r, c), q.generation, q.cutoff, r.clusters[c].name, r.clusters[c].nameFrom)
    ensures Resolves(q, r)
  {
  }

  // ---------------------------------------------------------------------------------------------
  // A member stored under a device name

  const DEVICE := Identity(PHONE_JID, "49:4@c.us", Some("49:4"), 0)
  const OWNER := Identity(PHONE_JID, "49@c.us", Some("49"), 0)
  const ALIAS := Identity(LID, "7@lid", None, 0)
  const NUMBER := Identity(PHONE, "49", None, 0)
  const THREE_VOICES: Directory := map[1 := DEVICE, 2 := OWNER, 3 := ALIAS, 4 := NUMBER]

  const STORED := Evidence(1, 4, PHONE_JID_DERIVATION, None, 0)
  const DERIVED := Evidence(2, 4, PHONE_JID_DERIVATION, None, 0)
  const CLAIMED := Evidence(3, 4, OPENWA_CONTACT_PHONE, Some(1), 0)
  const TOGETHER := Input(THREE_VOICES, [STORED, DERIVED, CLAIMED], map[], 1, 0)

  const SAME := Assignment(1, RESOLVED, Some("49"))
  const ONE_CLUSTER := Resolution(map[1 := SAME, 2 := SAME, 3 := SAME, 4 := SAME], map[1 := Cluster(Some("49"), 4, None, None)])

  /** The first link is backfilled from a member that carries its phone, the others are the writer's. */
  lemma WhereLinksComeFrom()
    ensures BackfilledPhone(PHONE_JID, DEVICE.value, Some("49")) == Some(NUMBER.value)
    ensures StoredPhoneOk(PHONE_JID, DEVICE.value, Some("49"))
    ensures EvidenceOk(THREE_VOICES, TOGETHER.evidence) && !NoDeviceNames(THREE_VOICES)
  {
    NamesGiveOneNumber();
    assert 1 in THREE_VOICES && THREE_VOICES[1] == DEVICE;
  }

  lemma TogetherEdges()
    ensures TOGETHER.Edges() == {STORED, DERIVED, CLAIMED} && WriterShape(THREE_VOICES, TOGETHER.Edges()) && TOGETHER.Valid()
  {
    WhereLinksComeFrom();
    StoredEvidenceHasShape(THREE_VOICES, TOGETHER.evidence, 1, 0);
    assert forall e :: e in TOGETHER.evidence <==> e == STORED || e == DERIVED || e == CLAIMED;
  }

  lemma NamesGiveOneNumber()
    ensures Stem(DEVICE.value) == "49" && Stem(OWNER.value) == "49" && DEVICE.value != "49" + SUFFIX
    ensures DEVICE.value == "49:4" + SUFFIX && OWNER.value == "49" + SUFFIX
  {
    StemOfDigits("49", ":4@c.us");
    StemOfDigits("49", SUFFIX);
    assert "49" + ":4@c.us" == DEVICE.value && "49" + SUFFIX == OWNER.value && "49:4" + SUFFIX == DEVICE.value;
    assert |DEVICE.value| != |OWNER.value|;
  }

  lemma NothingConflicts(id: Id)
    requires TOGETHER.Valid()
    ensures !IsConflicted(THREE_VOICES, TOGETHER.Edges(), id)
  {
    TogetherEdges();
  }

  lemma AllTogether()
    ensures TOGETHER.Valid() && OneComponent(TOGETHER, 1)
  {
    var ids, edges := THREE_VOICES, TOGETHER.Edges();
    TogetherEdges();
    NothingConflicts(3);
    HubOfEdge(ids, edges, STORED);
    HubOfEdge(ids, edges, DERIVED);
    HubOfEdge(ids, edges, CLAIMED);
    forall id | id in ids ensures Joined(Links(ids, edges), 1, id) {
      assert id in {1, 2, 3, 4};
      ClosureIsOneHop(ids, edges, 1, id);
    }
    assert Nodes(ids, 0) == ids.Keys;
  }

  lemma OnePhone()
    ensures PhoneValues(THREE_VOICES, THREE_VOICES.Keys) == {"49"} && |THREE_VOICES.Keys| == 4
  {
    assert forall v :: v in PhoneValues(THREE_VOICES, THREE_VOICES.Keys) ==> v == "49";
    assert 4 in THREE_VOICES.Keys && THREE_VOICES[4].value in PhoneValues(THREE_VOICES, THREE_VOICES.Keys);
    assert THREE_VOICES.Keys == {1, 2, 3, 4};
  }

  lemma TheyResolve()
    ensures TOGETHER.Valid() && Resolves(TOGETHER, ONE_CLUSTER)
  {
    AllTogether();
    OnePhone();
    forall id | id in ONE_CLUSTER.assignments ensures ONE_CLUSTER.assignments[id] == SAME && !IsConflicted(THREE_VOICES, TOGETHER.Edges(), id) {
      NothingConflicts(id);
    }
    assert forall v :: {"49"} == {v} <==> v == "49";
    OneComponentResolves(TOGETHER, ONE_CLUSTER, 1);
  }

  const BEFORE: map<Id, Push> := map[2 := Push("a", 1, 1, 1), 3 := Push("b", 2, 2, 2)]
  const AGAIN := Push("a", 3, 3, 3)

  lemma AliasIsOvertaken()
    ensures IsFresh(BEFORE, AGAIN) && !IsQueued(BEFORE, 2, AGAIN)
    ensures PushName(Observed(BEFORE, 2, AGAIN), ONE_CLUSTER, 1) != PushName(BEFORE, ONE_CLUSTER, 1)
  {
    UnqueuedPushEffect(BEFORE, ONE_CLUSTER, 2, AGAIN, 1);
    assert OtherAliases(ONE_CLUSTER, 1) == {2, 3, 4};
    assert IsNewest(BEFORE, {2, 3, 4}, 3);
  }

  /** A member stored under a device name makes a third voice of its cluster. Then a sender who repeats its own
      name after the alias was heard queues nothing, yet the member shown under the device name would change. */
  lemma UnqueuedPushCanMatter()
    ensures TOGETHER.Valid() && Resolves(TOGETHER, ONE_CLUSTER) && EvidenceOk(THREE_VOICES, TOGETHER.evidence)
    ensures IsFresh(BEFORE, AGAIN) && !IsQueued(BEFORE, 2, AGAIN)
    ensures PushName(Observed(BEFORE, 2, AGAIN), ONE_CLUSTER, 1) != PushName(BEFORE, ONE_CLUSTER, 1)
  {
    TheyResolve();
    WhereLinksComeFrom();
    AliasIsOvertaken();
  }
}
