/** The outcome of a resolution run, told from the rows it reads: which identities share a cluster, which are
    quarantined, which name a cluster shows, and that rows outside the run's generation and cutoff change
    nothing. */
module ContactClusters {
  import opened Options
  import opened Reachability
  import opened ContactResolution

  /** A row of the run's own generation, or one of none that was there by the cutoff. */
  predicate Reads(q: Input, generation: Option<nat>, createdAt: nat) {
    if generation.Some? then generation.value == q.generation else createdAt <= q.cutoff
  }

  predicate ReadsEvidence(q: Input, e: Evidence) {
    e in q.evidence && Reads(q, e.generation, e.createdAt)
  }

  lemma EdgesAreRead(q: Input, e: Evidence)
    ensures e in q.Edges() <==> ReadsEvidence(q, e)
  {
  }

  // ---------------------------------------------------------------------------------------------
  // Names

  /** A contact name of one of the cluster's identities. */
  predicate NamesCluster(q: Input, r: Resolution, c: Id, o: ObservationId) {
    && o in q.names && Reads(q, q.names[o].generation, q.names[o].createdAt)
    && q.names[o].identity in r.assignments && r.assignments[q.names[o].identity].cluster == c
  }

  lemma NamesAreCandidates(q: Input, r: Resolution, c: Id, o: ObservationId)
    ensures NamesCluster(q, r, c, o) <==> o in q.names && NameApplies(q.names[o], Members(r, c), q.generation, q.cutoff)
  {
  }

  /** A cluster shows the contact name observed last of those of its identities; of names observed at the same
      time the one with the greatest key, and of those the least row. It shows none exactly if there is none. */
  lemma ClusterShowsLatestName(q: Input, r: Resolution, c: Id)
    requires q.Valid() && Resolves(q, r) && c in r.clusters
    ensures r.clusters[c].name.Some? <==> exists o :: NamesCluster(q, r, c, o)
    ensures r.clusters[c].nameFrom.Some? <==> r.clusters[c].name.Some?
    ensures r.clusters[c].nameFrom.Some? ==>
      var best := r.clusters[c].nameFrom.value;
      && NamesCluster(q, r, c, best) && r.clusters[c].name == Some(q.names[best].name)
      && forall o :: NamesCluster(q, r, c, o) ==>
           && q.names[o].observedAt <= q.names[best].observedAt
           && (q.names[o].observedAt == q.names[best].observedAt ==> q.names[o].key <= q.names[best].key)
           && (q.names[o].observedAt == q.names[best].observedAt && q.names[o].key == q.names[best].key ==> best <= o)
  {
    forall o ensures NamesCluster(q, r, c, o) <==> o in q.names && NameApplies(q.names[o], Members(r, c), q.generation, q.cutoff) {
      NamesAreCandidates(q, r, c, o);
    }
  }

  // ---------------------------------------------------------------------------------------------
  // Quarantine

  /** Evidence ties the identity to two phones. */
  ghost predicate HasTwoPhones(q: Input, a: Id) {
    exists e, f :: ReadsEvidence(q, e) && ReadsEvidence(q, f) && e.left == a && f.left == a && e.right != f.right
  }

  /** The row names `phone` as the contact phone of an identity that is no phone JID. */
  predicate NamesPhone(q: Input, e: Evidence, phone: Id) {
    && ReadsEvidence(q, e) && e.right == phone && e.source == OPENWA_CONTACT_PHONE
    && e.left in q.ids && q.ids[e.left].kind != PHONE_JID
  }

  /** The identity's contact phone is that of two identities that are no phone JIDs. */
  ghost predicate HasDisputedPhone(q: Input, a: Id) {
    exists e, f, g :: ReadsEvidence(q, e) && e.left == a && e.source == OPENWA_CONTACT_PHONE
                      && NamesPhone(q, f, e.right) && NamesPhone(q, g, e.right) && f.left != g.left
  }

  /** An identity is quarantined, without a phone, exactly if evidence ties it to two phones or its contact phone
      is disputed; any other shows its cluster's phone. */
  lemma QuarantinedExactly(q: Input, r: Resolution, a: Id)
    requires q.Valid() && Resolves(q, r) && a in r.assignments
    ensures r.assignments[a].status == QUARANTINED <==> HasTwoPhones(q, a) || HasDisputedPhone(q, a)
    ensures r.assignments[a].cluster in r.clusters
    ensures r.assignments[a].phone == if HasTwoPhones(q, a) || HasDisputedPhone(q, a) then None
                                      else r.clusters[r.assignments[a].cluster].phone
  {
    assert HasManyTargets(q.Edges(), a) <==> HasTwoPhones(q, a);
    if ClaimsSharedPhone(q.ids, q.Edges(), a) { SharedIsDisputed(q, a); }
    if HasDisputedPhone(q, a) { DisputedIsShared(q, a); }
  }

  lemma SharedIsDisputed(q: Input, a: Id)
    requires q.Valid() && ClaimsSharedPhone(q.ids, q.Edges(), a)
    ensures HasDisputedPhone(q, a)
  {
    var edges := q.Edges();
    var e :| e in edges && e.left == a && e.source == OPENWA_CONTACT_PHONE && IsSharedPhone(q.ids, edges, e.right);
    var f, g :| f in edges && g in edges && f.right == e.right && g.right == e.right && f.left != g.left
                && NonJidContact(q.ids, f) && NonJidContact(q.ids, g);
    assert NamesPhone(q, f, e.right) && NamesPhone(q, g, e.right) && ReadsEvidence(q, e);
  }

  lemma DisputedIsShared(q: Input, a: Id)
    requires q.Valid() && HasDisputedPhone(q, a)
    ensures ClaimsSharedPhone(q.ids, q.Edges(), a)
  {
    var edges := q.Edges();
    var e, f, g :| ReadsEvidence(q, e) && e.left == a && e.source == OPENWA_CONTACT_PHONE
                   && NamesPhone(q, f, e.right) && NamesPhone(q, g, e.right) && f.left != g.left;
    assert f in edges && g in edges && NonJidContact(q.ids, f) && NonJidContact(q.ids, g);
    assert IsSharedPhone(q.ids, edges, e.right);
    assert e in edges;
  }

  // ---------------------------------------------------------------------------------------------
  // Clusters

  /** A derived row ties its ends, and so does any other of an identity that is not quarantined. */
  predicate Ties(q: Input, r: Resolution, x: Id, y: Id, e: Evidence) {
    && ReadsEvidence(q, e) && ((e.left == x && e.right == y) || (e.left == y && e.right == x))
    && (e.source == PHONE_JID_DERIVATION || (e.left in r.assignments && r.assignments[e.left].status == RESOLVED))
  }

  predicate AreTied(q: Input, r: Resolution, x: Id, y: Id) {
    exists e :: e in q.evidence && Ties(q, r, x, y, e)
  }

  /** A chain of identities, each tied to the next. */
  predicate IsChain(q: Input, r: Resolution, chain: seq<Id>) {
    |chain| > 0 && forall i :: 0 <= i < |chain| - 1 ==> AreTied(q, r, chain[i], chain[i + 1])
  }

  /** Two identities share a cluster exactly if a chain of rows ties them. */
  lemma SameClusterIffTied(q: Input, r: Resolution, a: Id, b: Id)
    requires q.Valid() && Resolves(q, r) && a in r.assignments && b in r.assignments
    ensures r.assignments[a].cluster == r.assignments[b].cluster
            <==> exists chain :: IsChain(q, r, chain) && chain[0] == a && chain[|chain| - 1] == b
  {
    var links := Links(q.ids, q.Edges());
    SameClusterIffJoined(q, r, a, b);
    if Joined(links, a, b) {
      var walk :| WalkBetween(links, a, b, walk);
      WalkIsChain(q, r, walk);
    }
    if chain :| IsChain(q, r, chain) && chain[0] == a && chain[|chain| - 1] == b {
      ChainJoins(q, r, chain);
    }
  }

  lemma WalkIsChain(q: Input, r: Resolution, walk: seq<Id>)
    requires q.Valid() && Resolves(q, r) && Walk(Links(q.ids, q.Edges()), walk) && walk[0] in r.assignments
    ensures IsChain(q, r, walk)
  {
    var links := Links(q.ids, q.Edges());
    forall i | 0 <= i < |walk| - 1 ensures AreTied(q, r, walk[i], walk[i + 1]) {
      assert WalkBetween(links, walk[0], walk[i], walk[..i + 1]);
      GroupedAlong(q, walk[0], walk[i]);
      LinksAreTies(q, r, walk[i], walk[i + 1]);
    }
  }

  lemma LinksAreTies(q: Input, r: Resolution, x: Id, y: Id)
    requires q.Valid() && Resolves(q, r) && x in r.assignments && (x, y) in Links(q.ids, q.Edges())
    ensures AreTied(q, r, x, y)
  {
    var edges := q.Edges();
    JoinedLink(Links(q.ids, edges), x, y);
    GroupedAlong(q, x, y);
    if (x, y) in EligibleEdges(q.ids, edges) {
      var e :| e in edges && IsEligible(q.ids, edges, e) && (e.left, e.right) == (x, y);
      assert Ties(q, r, x, y, e);
    } else {
      var e :| e in edges && IsEligible(q.ids, edges, e) && (e.left, e.right) == (y, x);
      assert Ties(q, r, x, y, e);
    }
  }

  lemma TiesAreLinks(q: Input, r: Resolution, x: Id, y: Id)
    requires q.Valid() && Resolves(q, r) && AreTied(q, r, x, y)
    ensures Joined(Links(q.ids, q.Edges()), x, y)
  {
    var e :| e in q.evidence && Ties(q, r, x, y, e);
    assert e in q.Edges() && IsEligible(q.ids, q.Edges(), e);
    assert (e.left, e.right) in EligibleEdges(q.ids, q.Edges());
    JoinedLink(Links(q.ids, q.Edges()), x, y);
  }

  lemma {:induction false} ChainJoins(q: Input, r: Resolution, chain: seq<Id>)
    requires q.Valid() && Resolves(q, r) && IsChain(q, r, chain)
    ensures Joined(Links(q.ids, q.Edges()), chain[0], chain[|chain| - 1])
    decreases |chain|
  {
    var links := Links(q.ids, q.Edges());
    if |chain| == 1 {
      JoinedSelf(links, chain[0]);
    } else {
      var front, n := chain[..|chain| - 1], |chain| - 2;
      ChainJoins(q, r, front);
      assert AreTied(q, r, chain[n], chain[n + 1]);
      TiesAreLinks(q, r, chain[n], chain[n + 1]);
      JoinedTransitive(links, chain[0], chain[n], chain[n + 1]);
    }
  }

  // ---------------------------------------------------------------------------------------------
  // The cutoff

  /** `p` holds all that `q` does, and besides it identities first observed after the cutoff and rows that the
      run does not read. */
  ghost predicate OnlyAddsUnread(q: Input, p: Input) {
    && p.generation == q.generation && p.cutoff == q.cutoff
    && (forall id :: id in q.ids ==> id in p.ids && p.ids[id] == q.ids[id])
    && (forall id :: id in p.ids && id !in q.ids ==> p.ids[id].firstObservedAt > q.cutoff)
    && (forall e: Evidence :: Reads(q, e.generation, e.createdAt) ==> (e in p.evidence <==> e in q.evidence))
    && (forall o :: o in q.names ==> o in p.names && p.names[o] == q.names[o])
    && (forall o :: o in p.names && o !in q.names ==> !Reads(q, p.names[o].generation, p.names[o].createdAt))
  }

  lemma SameTables(q: Input, p: Input)
    requires q.Valid() && OnlyAddsUnread(q, p)
    ensures p.Valid() && p.Edges() == q.Edges() && Nodes(p.ids, p.cutoff) == Nodes(q.ids, q.cutoff)
    ensures Links(p.ids, p.Edges()) == Links(q.ids, q.Edges())
    ensures forall id :: IsConflicted(p.ids, p.Edges(), id) <==> IsConflicted(q.ids, q.Edges(), id)
  {
    forall e ensures e in p.Edges() <==> e in q.Edges() {
      EdgesAreRead(q, e);
      EdgesAreRead(p, e);
    }
    var edges := q.Edges();
    assert p.Edges() == edges;
    assert forall e :: e in edges ==> (NonJidContact(p.ids, e) <==> NonJidContact(q.ids, e));
    forall phone ensures IsSharedPhone(p.ids, edges, phone) <==> IsSharedPhone(q.ids, edges, phone) {}
    forall id ensures IsConflicted(p.ids, edges, id) <==> IsConflicted(q.ids, edges, id) {}
    forall e ensures IsEligible(p.ids, edges, e) <==> IsEligible(q.ids, edges, e) {}
    assert EligibleEdges(p.ids, edges) == EligibleEdges(q.ids, edges);
  }

  /** Rows inserted after a run's cutoff, or by another generation, do not change what it resolves to. */
  lemma UnreadRowsAreInvisible(q: Input, p: Input, r: Resolution)
    requires q.Valid() && OnlyAddsUnread(q, p) && Resolves(q, r)
    ensures p.Valid() && Resolves(p, r)
  {
    SameTables(q, p);
    forall id ensures (q.Grouped(id) <==> p.Grouped(id)) && (q.Grouped(id) ==> q.ClusterOf(id) == p.ClusterOf(id)) {}
    forall c | c in r.clusters
      ensures PhoneValues(p.ids, Members(r, c)) == PhoneValues(q.ids, Members(r, c))
      ensures IsClusterName(p.names, Members(r, c), p.generation, p.cutoff, r.clusters[c].name, r.clusters[c].nameFrom)
    {
      forall id | id in Members(r, c) ensures id in q.ids { AssignedIsKnown(q, id); }
      SameNames(q, p, r, c);
    }
  }

  lemma SameNames(q: Input, p: Input, r: Resolution, c: Id)
    requires q.Valid() && OnlyAddsUnread(q, p) && Resolves(q, r) && c in r.clusters
    ensures IsClusterName(p.names, Members(r, c), p.generation, p.cutoff, r.clusters[c].name, r.clusters[c].nameFrom)
  {
    var members := Members(r, c);
    assert IsClusterName(q.names, members, q.generation, q.cutoff, r.clusters[c].name, r.clusters[c].nameFrom);
    forall o | o in p.names && NameApplies(p.names[o], members, p.generation, p.cutoff)
      ensures o in q.names && p.names[o] == q.names[o]
    {
      assert Reads(q, p.names[o].generation, p.names[o].createdAt);
    }
    SameBest(q, p, members, r.clusters[c].name, r.clusters[c].nameFrom);
  }

  lemma SameBest(q: Input, p: Input, members: set<Id>, name: Option<string>, from: Option<ObservationId>)
    requires p.generation == q.generation && p.cutoff == q.cutoff
    requires forall o :: o in q.names ==> o in p.names && p.names[o] == q.names[o]
    requires forall o :: o in p.names && NameApplies(p.names[o], members, p.generation, p.cutoff) ==> o in q.names
    requires IsClusterName(q.names, members, q.generation, q.cutoff, name, from)
    ensures IsClusterName(p.names, members, p.generation, p.cutoff, name, from)
  {
  }
}
