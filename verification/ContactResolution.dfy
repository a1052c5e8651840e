/** One resolution run of a session's contact evidence: conflicts are quarantined, the remaining edges
    are closed into clusters, and the clusters are compared with the previous run's. */
module ContactResolution {
  import opened Options
  import opened Orders
  import opened Reachability

  datatype Kind = LID | PHONE_JID | PHONE | OTHER_JID
  datatype Identity = Identity(kind: Kind, value: string, phone: Option<string>, firstObservedAt: nat)

  datatype EvidenceSource = PHONE_JID_DERIVATION | OPENWA_CONTACT_PHONE
  datatype Evidence = Evidence(left: Id, right: Id, source: EvidenceSource, generation: Option<nat>, createdAt: nat)

  /** A contact-name observation; `key` stands for the textual observation key. */
  datatype NameObservation = NameObservation(identity: Id, name: string, observedAt: nat, key: nat,
                                             generation: Option<nat>, createdAt: nat)
  type ObservationId = nat

  datatype Status = RESOLVED | QUARANTINED
  datatype ConflictCode = MULTIPLE_PHONE_TARGETS | PHONE_SHARED_BY_MULTIPLE_NON_PHONE_IDENTITIES
  datatype Assignment = Assignment(cluster: Id, status: Status, phone: Option<string>)
  datatype Cluster = Cluster(phone: Option<string>, size: nat, name: Option<string>, nameFrom: Option<ObservationId>)
  datatype Resolution = Resolution(assignments: map<Id, Assignment>, clusters: map<Id, Cluster>)

  const NO_RESOLUTION := Resolution(map[], map[])

  // ---------------------------------------------------------------------------------------------
  // What a run means

  predicate InScope(generation: Option<nat>, createdAt: nat, run: nat, cutoff: nat) {
    generation == Some(run) || (generation == None && createdAt <= cutoff)
  }

  function Candidates(evidence: seq<Evidence>, run: nat, cutoff: nat): set<Evidence> {
    set e | e in evidence && InScope(e.generation, e.createdAt, run, cutoff)
  }

  predicate References(ids: map<Id, Identity>, edges: set<Evidence>) {
    forall e :: e in edges ==> e.left in ids && e.right in ids
  }

  /** `count(DISTINCT right) > 1` for one left identity. */
  predicate HasManyTargets(edges: set<Evidence>, id: Id) {
    exists e, f :: e in edges && f in edges && e.left == id && f.left == id && e.right != f.right
  }

  predicate NonJidContact(ids: map<Id, Identity>, e: Evidence)
    requires e.left in ids
  {
    e.source == OPENWA_CONTACT_PHONE && ids[e.left].kind != PHONE_JID
  }

  /** More than one identity that is not a phone JID claims `phone` as its contact phone. */
  predicate IsSharedPhone(ids: map<Id, Identity>, edges: set<Evidence>, phone: Id)
    requires References(ids, edges)
  {
    exists e, f :: e in edges && f in edges && e.right == phone && f.right == phone && e.left != f.left
                   && NonJidContact(ids, e) && NonJidContact(ids, f)
  }

  predicate ClaimsSharedPhone(ids: map<Id, Identity>, edges: set<Evidence>, id: Id)
    requires References(ids, edges)
  {
    exists e :: e in edges && e.left == id && e.source == OPENWA_CONTACT_PHONE && IsSharedPhone(ids, edges, e.right)
  }

  predicate IsConflicted(ids: map<Id, Identity>, edges: set<Evidence>, id: Id)
    requires References(ids, edges)
  {
    HasManyTargets(edges, id) || ClaimsSharedPhone(ids, edges, id)
  }

  predicate IsEligible(ids: map<Id, Identity>, edges: set<Evidence>, e: Evidence)
    requires References(ids, edges)
  {
    e in edges && (e.source == PHONE_JID_DERIVATION || !IsConflicted(ids, edges, e.left))
  }

  function EligibleEdges(ids: map<Id, Identity>, edges: set<Evidence>): set<Link>
    requires References(ids, edges)
  {
    set e | e in edges && IsEligible(ids, edges, e) :: (e.left, e.right)
  }

  function Links(ids: map<Id, Identity>, edges: set<Evidence>): set<Link>
    requires References(ids, edges)
  {
    Undirected(EligibleEdges(ids, edges))
  }

  function Nodes(ids: map<Id, Identity>, cutoff: nat): set<Id> {
    set id | id in ids && ids[id].firstObservedAt <= cutoff
  }

  function Members(r: Resolution, cluster: Id): set<Id> {
    set id | id in r.assignments && r.assignments[id].cluster == cluster
  }

  function PhoneValues(ids: map<Id, Identity>, members: set<Id>): set<string> {
    set id | id in members && id in ids && ids[id].kind == PHONE :: ids[id].value
  }

  predicate NameApplies(o: NameObservation, members: set<Id>, run: nat, cutoff: nat) {
    o.identity in members && InScope(o.generation, o.createdAt, run, cutoff)
  }

  /** `ORDER BY source_observed_at DESC, source_observation_key DESC, id`: `a` is listed no later than `b`. */
  predicate ListedFirst(obs: map<ObservationId, NameObservation>, a: ObservationId, b: ObservationId)
    requires a in obs && b in obs
  {
    || obs[a].observedAt > obs[b].observedAt
    || (obs[a].observedAt == obs[b].observedAt
        && (obs[a].key > obs[b].key || (obs[a].key == obs[b].key && a <= b)))
  }

  predicate IsClusterName(obs: map<ObservationId, NameObservation>, members: set<Id>, run: nat, cutoff: nat,
                          name: Option<string>, from: Option<ObservationId>)
  {
    match from
    case None => name == None && forall o :: o in obs ==> !NameApplies(obs[o], members, run, cutoff)
    case Some(best) =>
      && best in obs && NameApplies(obs[best], members, run, cutoff) && name == Some(obs[best].name)
      && forall o :: o in obs && NameApplies(obs[o], members, run, cutoff) ==> ListedFirst(obs, best, o)
  }

  /** The evidence tables a run reads. */
  datatype Input = Input(ids: map<Id, Identity>, evidence: seq<Evidence>,
                         names: map<ObservationId, NameObservation>, generation: nat, cutoff: nat)
  {
    function Edges(): set<Evidence> { Candidates(evidence, generation, cutoff) }

    predicate Valid() { References(ids, Edges()) }

    ghost predicate Grouped(id: Id)
      requires Valid()
    {
      Roots(Nodes(ids, cutoff), Links(ids, Edges()), id) != {}
    }

    ghost function ClusterOf(id: Id): Id
      requires Valid() && Grouped(id)
    {
      ComponentOf(Nodes(ids, cutoff), Links(ids, Edges()), id)
    }
  }

  /** `r` is the resolution of `q`, column by column. */
  ghost predicate Resolves(q: Input, r: Resolution)
    requires q.Valid()
  {
    && (forall id :: id in r.assignments <==> q.Grouped(id))
    && (forall id :: id in r.assignments ==>
          && r.assignments[id].cluster == q.ClusterOf(id)
          && r.assignments[id].cluster in r.clusters
          && r.assignments[id].status == (if IsConflicted(q.ids, q.Edges(), id) then QUARANTINED else RESOLVED)
          && r.assignments[id].phone == (if IsConflicted(q.ids, q.Edges(), id) then None
                                         else r.clusters[q.ClusterOf(id)].phone))
    && (forall c :: c in r.clusters ==>
          && Members(r, c) != {}
          && r.clusters[c].size == |Members(r, c)|
          && (forall v :: r.clusters[c].phone == Some(v) <==> PhoneValues(q.ids, Members(r, c)) == {v})
          && IsClusterName(q.names, Members(r, c), q.generation, q.cutoff, r.clusters[c].name, r.clusters[c].nameFrom))
  }

  /** The run's outcome depends only on which evidence rows exist, not on their order or repetition. */
  lemma EvidenceOrderIrrelevant(q: Input, p: Input, r: Resolution, s: Resolution)
    requires q.Valid() && p.Valid() && Resolves(q, r) && Resolves(p, s)
    requires p == q.(evidence := p.evidence)
    requires forall e :: e in q.evidence <==> e in p.evidence
    ensures r == s
  {
    assert q.Edges() == p.Edges();
    SameGroups(q, p, r, s);
    forall c | c in r.clusters || c in s.clusters
      ensures c in r.clusters && c in s.clusters && r.clusters[c] == s.clusters[c]
    {
      if c in r.clusters { SameCluster(q, p, r, s, c); } else { SameCluster(p, q, s, r, c); }
    }
    assert r.clusters == s.clusters;
    forall id | id in r.assignments ensures r.assignments[id] == s.assignments[id] {
      SameAssignment(q, p, r, s, id);
    }
    assert r.assignments == s.assignments;
  }

  lemma SameGroups(q: Input, p: Input, r: Resolution, s: Resolution)
    requires q.Valid() && p.Valid() && Resolves(q, r) && Resolves(p, s)
    requires p == q.(evidence := p.evidence) && q.Edges() == p.Edges()
    ensures r.assignments.Keys == s.assignments.Keys
    ensures forall id :: id in r.assignments ==> r.assignments[id].cluster == s.assignments[id].cluster
  {
    forall id ensures id in r.assignments <==> id in s.assignments {
      assert q.Grouped(id) <==> p.Grouped(id);
    }
    forall id | id in r.assignments ensures r.assignments[id].cluster == s.assignments[id].cluster {
      assert q.ClusterOf(id) == p.ClusterOf(id);
    }
  }

  lemma SameAssignment(q: Input, p: Input, r: Resolution, s: Resolution, id: Id)
    requires q.Valid() && p.Valid() && Resolves(q, r) && Resolves(p, s)
    requires p == q.(evidence := p.evidence) && q.Edges() == p.Edges() && r.clusters == s.clusters
    requires id in r.assignments && id in s.assignments && r.assignments[id].cluster == s.assignments[id].cluster
    ensures r.assignments[id] == s.assignments[id]
  {
    assert r.assignments[id].cluster in r.clusters;
  }

  lemma SameCluster(q: Input, p: Input, r: Resolution, s: Resolution, c: Id)
    requires q.Valid() && p.Valid() && Resolves(q, r) && Resolves(p, s) && c in r.clusters
    requires q.names == p.names && q.ids == p.ids && q.generation == p.generation && q.cutoff == p.cutoff
    requires r.assignments.Keys == s.assignments.Keys
    requires forall id :: id in r.assignments ==> r.assignments[id].cluster == s.assignments[id].cluster
    ensures c in s.clusters && r.clusters[c] == s.clusters[c]
  {
    assert Members(r, c) == Members(s, c);
    var id :| id in Members(r, c);
    assert s.assignments[id].cluster in s.clusters;
    SameClusterRow(q, Members(r, c), r.clusters[c], s.clusters[c]);
  }

  lemma SameClusterRow(q: Input, members: set<Id>, a: Cluster, b: Cluster)
    requires a.size == b.size
    requires forall v :: a.phone == Some(v) <==> PhoneValues(q.ids, members) == {v}
    requires forall v :: b.phone == Some(v) <==> PhoneValues(q.ids, members) == {v}
    requires IsClusterName(q.names, members, q.generation, q.cutoff, a.name, a.nameFrom)
    requires IsClusterName(q.names, members, q.generation, q.cutoff, b.name, b.nameFrom)
    ensures a == b
  {
    assert a.phone == b.phone by {
      if a.phone.Some? { assert b.phone == Some(a.phone.value); }
      if b.phone.Some? { assert a.phone == Some(b.phone.value); }
    }
  }

  /** Two identities share a cluster exactly when a walk of eligible edges joins them. */
  lemma SameClusterIffJoined(q: Input, r: Resolution, a: Id, b: Id)
    requires q.Valid() && Resolves(q, r) && a in r.assignments && b in r.assignments
    ensures r.assignments[a].cluster == r.assignments[b].cluster <==> Joined(Links(q.ids, q.Edges()), a, b)
  {
    SameComponentIffJoined(Nodes(q.ids, q.cutoff), Links(q.ids, q.Edges()), a, b);
  }

  /** What the projection relies on: a cluster row counts its members and its identifier is one of them. */
  ghost predicate WellFormed(r: Resolution) {
    && (forall id :: id in r.assignments ==> r.assignments[id].cluster in r.clusters)
    && (forall c :: c in r.clusters ==> c in r.assignments && r.assignments[c].cluster == c
                                        && r.clusters[c].size == |Members(r, c)|)
  }

  /** The cluster identifier is the least observed identity of its cluster. */
  lemma ResolutionWellFormed(q: Input, r: Resolution)
    requires q.Valid() && Resolves(q, r)
    ensures WellFormed(r)
    ensures forall c, id :: c in r.clusters && id in Members(r, c) && id in Nodes(q.ids, q.cutoff) ==> c <= id
  {
    var nodes, links := Nodes(q.ids, q.cutoff), Links(q.ids, q.Edges());
    forall c | c in r.clusters ensures c in r.assignments && r.assignments[c].cluster == c {
      var id :| id in Members(r, c);
      RootNamesItself(nodes, links, id);
      assert q.Grouped(c);
    }
    forall c, id | c in r.clusters && id in Members(r, c) && id in nodes ensures c <= id {
      JoinedSelf(links, id);
      assert id in Roots(nodes, links, id);
    }
  }

  // ---------------------------------------------------------------------------------------------
  // The shape of evidence the writer produces, and what it buys

  /** Every edge leads from a non-phone identity to a phone. */
  predicate Bipartite(ids: map<Id, Identity>, edges: set<Evidence>) {
    forall e :: e in edges ==>
      e.left in ids && e.right in ids && ids[e.left].kind != PHONE && ids[e.right].kind == PHONE
  }

  /** Derived edges are exactly those of phone JIDs, and a phone JID derives a single phone. */
  predicate WriterShape(ids: map<Id, Identity>, edges: set<Evidence>) {
    && Bipartite(ids, edges)
    && (forall e :: e in edges ==> (e.source == PHONE_JID_DERIVATION <==> ids[e.left].kind == PHONE_JID))
    && (forall e, f :: e in edges && f in edges && e.left == f.left && ids[e.left].kind == PHONE_JID ==> e.right == f.right)
  }

  /** Each phone is derived from one phone JID only. */
  predicate OneJidPerPhone(edges: set<Evidence>) {
    forall e, f :: e in edges && f in edges && e.source == f.source == PHONE_JID_DERIVATION && e.right == f.right
      ==> e.left == f.left
  }

  /** The phone an identity stands for: itself, or the target of its eligible edge, if it has one. */
  ghost function Hub(ids: map<Id, Identity>, edges: set<Evidence>, id: Id): Id
    requires References(ids, edges)
  {
    if exists e :: IsEligible(ids, edges, e) && e.left == id
    then var e :| IsEligible(ids, edges, e) && e.left == id; e.right
    else id
  }

  lemma OneEligibleTarget(ids: map<Id, Identity>, edges: set<Evidence>, e: Evidence, f: Evidence)
    requires WriterShape(ids, edges)
    requires IsEligible(ids, edges, e) && IsEligible(ids, edges, f) && e.left == f.left
    ensures e.right == f.right
  {
    if e.right != f.right {
      assert HasManyTargets(edges, e.left);
    }
  }

  lemma HubOfEdge(ids: map<Id, Identity>, edges: set<Evidence>, e: Evidence)
    requires WriterShape(ids, edges) && IsEligible(ids, edges, e)
    ensures Hub(ids, edges, e.left) == e.right && Hub(ids, edges, e.right) == e.right
  {
    var f :| IsEligible(ids, edges, f) && f.left == e.left && Hub(ids, edges, e.left) == f.right;
    OneEligibleTarget(ids, edges, e, f);
  }

  lemma HubJoined(ids: map<Id, Identity>, edges: set<Evidence>, id: Id)
    requires References(ids, edges)
    ensures Joined(Links(ids, edges), id, Hub(ids, edges, id))
  {
    if e :| IsEligible(ids, edges, e) && e.left == id {
      var f :| IsEligible(ids, edges, f) && f.left == id && Hub(ids, edges, id) == f.right;
      assert (f.left, f.right) in EligibleEdges(ids, edges);
      JoinedLink(Links(ids, edges), id, f.right);
    } else {
      JoinedSelf(Links(ids, edges), id);
    }
  }

  /** The recursive closure groups exactly the identities that stand for the same phone. */
  lemma ClosureIsOneHop(ids: map<Id, Identity>, edges: set<Evidence>, a: Id, b: Id)
    requires WriterShape(ids, edges)
    ensures Joined(Links(ids, edges), a, b) <==> Hub(ids, edges, a) == Hub(ids, edges, b)
  {
    var links := Links(ids, edges);
    if Joined(links, a, b) {
      var hub := (id: Id) => Hub(ids, edges, id);
      forall x, y | (x, y) in links ensures hub(x) == hub(y) {
        if (x, y) in EligibleEdges(ids, edges) {
          var e :| e in edges && IsEligible(ids, edges, e) && (e.left, e.right) == (x, y);
          HubOfEdge(ids, edges, e);
        } else {
          var e :| e in edges && IsEligible(ids, edges, e) && (e.left, e.right) == (y, x);
          HubOfEdge(ids, edges, e);
        }
      }
      var walk :| WalkBetween(links, a, b, walk);
      ConstantAlongWalk(links, hub, walk);
    }
    if Hub(ids, edges, a) == Hub(ids, edges, b) {
      HubJoined(ids, edges, a);
      HubJoined(ids, edges, b);
      JoinedSymmetric(links, b, Hub(ids, edges, b));
      JoinedTransitive(links, a, Hub(ids, edges, a), b);
    }
  }

  /** Conflicts never touch phone JIDs or phones when evidence has the writer's shape. */
  lemma OnlyContactsConflict(ids: map<Id, Identity>, edges: set<Evidence>, id: Id)
    requires WriterShape(ids, edges) && IsConflicted(ids, edges, id)
    ensures id in ids && ids[id].kind != PHONE && ids[id].kind != PHONE_JID
  {
  }

  /** Either an identity has no eligible edge, or its hub is a phone. */
  lemma HubIsSelfOrPhone(ids: map<Id, Identity>, edges: set<Evidence>, id: Id)
    requires Bipartite(ids, edges)
    ensures Hub(ids, edges, id) == id
            || exists e :: IsEligible(ids, edges, e) && e.left == id && e.right == Hub(ids, edges, id)
  {
  }

  /** Under the writer's shape clusters are hubs. */
  lemma ClustersAreHubs(q: Input, r: Resolution, a: Id, b: Id)
    requires q.Valid() && Resolves(q, r) && WriterShape(q.ids, q.Edges())
    requires a in r.assignments && b in r.assignments
    ensures r.assignments[a].cluster == r.assignments[b].cluster
            <==> Hub(q.ids, q.Edges(), a) == Hub(q.ids, q.Edges(), b)
  {
    SameClusterIffJoined(q, r, a, b);
    ClosureIsOneHop(q.ids, q.Edges(), a, b);
  }

  lemma QuarantinedIsAlone(q: Input, r: Resolution, a: Id)
    requires q.Valid() && Resolves(q, r) && WriterShape(q.ids, q.Edges())
    requires a in r.assignments && r.assignments[a].status == QUARANTINED
    ensures Hub(q.ids, q.Edges(), a) == a && Members(r, r.assignments[a].cluster) == {a}
  {
    var edges := q.Edges();
    OnlyContactsConflict(q.ids, edges, a);
    HubIsSelfOrPhone(q.ids, edges, a);
    forall b | b in Members(r, r.assignments[a].cluster) ensures b == a {
      ClustersAreHubs(q, r, a, b);
      HubIsSelfOrPhone(q.ids, edges, b);
    }
    assert a in Members(r, r.assignments[a].cluster);
  }

  /** Under the writer's shape the whole resolution has a one-hop description: clusters are hubs, a
      conflicted identity is its own hub, and a resolved one carries its hub's phone. */
  lemma ResolutionIsOneHop(q: Input, r: Resolution)
    requires q.Valid() && Resolves(q, r) && WriterShape(q.ids, q.Edges())
    ensures forall a, b :: a in r.assignments && b in r.assignments ==>
              (r.assignments[a].cluster == r.assignments[b].cluster
               <==> Hub(q.ids, q.Edges(), a) == Hub(q.ids, q.Edges(), b))
    ensures forall a :: a in r.assignments && r.assignments[a].status == QUARANTINED ==>
              Hub(q.ids, q.Edges(), a) == a && r.assignments[a].phone == None && Members(r, r.assignments[a].cluster) == {a}
    ensures forall a :: a in r.assignments && r.assignments[a].status == RESOLVED ==>
              r.assignments[a].phone == PhoneNumber(q.ids, Hub(q.ids, q.Edges(), a))
  {
    forall a, b | a in r.assignments && b in r.assignments
      ensures r.assignments[a].cluster == r.assignments[b].cluster <==> Hub(q.ids, q.Edges(), a) == Hub(q.ids, q.Edges(), b)
    {
      ClustersAreHubs(q, r, a, b);
    }
    forall a | a in r.assignments && r.assignments[a].status == QUARANTINED
      ensures Hub(q.ids, q.Edges(), a) == a && Members(r, r.assignments[a].cluster) == {a}
    {
      QuarantinedIsAlone(q, r, a);
    }
    forall a | a in r.assignments && r.assignments[a].status == RESOLVED
      ensures r.assignments[a].phone == PhoneNumber(q.ids, Hub(q.ids, q.Edges(), a))
    {
      PhoneOfCluster(q, r, a);
    }
  }

  function PhoneNumber(ids: map<Id, Identity>, id: Id): Option<string> {
    if id in ids && ids[id].kind == PHONE then Some(ids[id].value) else None
  }

  lemma PhoneOfCluster(q: Input, r: Resolution, a: Id)
    requires q.Valid() && Resolves(q, r) && WriterShape(q.ids, q.Edges()) && a in r.assignments
    ensures r.clusters[r.assignments[a].cluster].phone == PhoneNumber(q.ids, Hub(q.ids, q.Edges(), a))
  {
    var edges, c := q.Edges(), r.assignments[a].cluster;
    var hub := Hub(q.ids, edges, a);
    forall b | b in Members(r, c) && b in q.ids && q.ids[b].kind == PHONE ensures b == hub {
      SameClusterIffJoined(q, r, a, b);
      ClosureIsOneHop(q.ids, edges, a, b);
      assert Hub(q.ids, edges, b) == b;
    }
    if hub in q.ids && q.ids[hub].kind == PHONE {
      HubJoined(q.ids, edges, a);
      GroupedAlong(q, a, hub);
      SameClusterIffJoined(q, r, a, hub);
      assert hub in Members(r, c);
      assert PhoneValues(q.ids, Members(r, c)) == {q.ids[hub].value};
    } else {
      assert PhoneValues(q.ids, Members(r, c)) == {};
    }
  }

  lemma GroupedAlong(q: Input, a: Id, b: Id)
    requires q.Valid() && q.Grouped(a) && Joined(Links(q.ids, q.Edges()), a, b)
    ensures q.Grouped(b)
  {
    var links := Links(q.ids, q.Edges());
    var root :| root in Roots(Nodes(q.ids, q.cutoff), links, a);
    JoinedTransitive(links, root, a, b);
    assert root in Roots(Nodes(q.ids, q.cutoff), links, b);
  }

  /** Runs group only identities that exist. */
  lemma AssignedIsKnown(q: Input, id: Id)
    requires q.Valid() && q.Grouped(id)
    ensures id in q.ids
  {
    var root :| root in Roots(Nodes(q.ids, q.cutoff), Links(q.ids, q.Edges()), id);
    var walk :| WalkBetween(Links(q.ids, q.Edges()), root, id, walk);
    ConstantAlongWalk(Links(q.ids, q.Edges()), (x: Id) => x in q.ids, walk);
  }

  lemma ContactsKeepApart(ids: map<Id, Identity>, edges: set<Evidence>, a: Id, b: Id)
    requires WriterShape(ids, edges) && a in ids && b in ids && a != b
    ensures ids[a].kind in {PHONE, PHONE_JID} || ids[b].kind in {PHONE, PHONE_JID}
            || Hub(ids, edges, a) != Hub(ids, edges, b)
  {
    HubIsSelfOrPhone(ids, edges, a);
    HubIsSelfOrPhone(ids, edges, b);
    forall e, f | IsEligible(ids, edges, e) && IsEligible(ids, edges, f) && e.left == a && f.left == b
                  && ids[a].kind !in {PHONE, PHONE_JID} && ids[b].kind !in {PHONE, PHONE_JID}
      ensures e.right != f.right
    {
      assert NonJidContact(ids, e) && NonJidContact(ids, f);
      assert !IsSharedPhone(ids, edges, e.right);
    }
  }

  /** No phone keeps two identities of the ambiguous kinds, and no cluster holds two phones. */
  lemma PhonesAreUnambiguous(q: Input, r: Resolution, a: Id, b: Id)
    requires q.Valid() && Resolves(q, r) && WriterShape(q.ids, q.Edges())
    requires a in r.assignments && b in r.assignments && a in q.ids && b in q.ids
    requires a != b && r.assignments[a].cluster == r.assignments[b].cluster
    ensures !(q.ids[a].kind == PHONE && q.ids[b].kind == PHONE)
    ensures q.ids[a].kind in {PHONE, PHONE_JID} || q.ids[b].kind in {PHONE, PHONE_JID}
  {
    ClustersAreHubs(q, r, a, b);
    HubIsSelfOrPhone(q.ids, q.Edges(), a);
    HubIsSelfOrPhone(q.ids, q.Edges(), b);
    ContactsKeepApart(q.ids, q.Edges(), a, b);
  }

  /** `id` is the only member of its cluster and shows no phone. */
  ghost predicate Alone(r: Resolution, id: Id)
    requires id in r.assignments
  {
    r.assignments[id].phone == None && Members(r, r.assignments[id].cluster) == {id}
  }

  /** Quarantine isolates. */
  ghost predicate Isolated(r: Resolution) {
    forall id :: id in r.assignments && r.assignments[id].status == QUARANTINED ==> Alone(r, id)
  }

  /** `a` is the left end of a derived edge, the one kind a conflict does not remove. */
  predicate HasDerivedEdge(edges: set<Evidence>, a: Id) {
    exists e :: e in edges && e.left == a && e.source == PHONE_JID_DERIVATION
  }

  /** For edges that only lead to phones, quarantine isolates exactly when the evidence gives no conflicted
      identity a derived edge. */
  lemma IsolationCondition(q: Input, r: Resolution)
    requires q.Valid() && Resolves(q, r) && Bipartite(q.ids, q.Edges())
    ensures Isolated(r) <==> forall a :: q.Grouped(a) && IsConflicted(q.ids, q.Edges(), a) ==> !HasDerivedEdge(q.Edges(), a)
  {
    forall a | a in r.assignments && r.assignments[a].status == QUARANTINED
      ensures Alone(r, a) <==> !HasDerivedEdge(q.Edges(), a)
    {
      AloneIffUnderived(q, r, a);
    }
  }

  lemma AloneIffUnderived(q: Input, r: Resolution, a: Id)
    requires q.Valid() && Resolves(q, r) && Bipartite(q.ids, q.Edges())
    requires a in r.assignments && r.assignments[a].status == QUARANTINED
    ensures Alone(r, a) <==> !HasDerivedEdge(q.Edges(), a)
  {
    assert a in Members(r, r.assignments[a].cluster);
    if HasDerivedEdge(q.Edges(), a) {
      var e :| e in q.Edges() && e.left == a && e.source == PHONE_JID_DERIVATION;
      DerivedEdgeStays(q, r, e);
      assert e.right != a;
    } else {
      forall b | b in Members(r, r.assignments[a].cluster) ensures b == a {
        SameClusterIffJoined(q, r, a, b);
        NoLinksNoNeighbours(q.ids, q.Edges(), a, b);
      }
    }
  }

  lemma DerivedEdgeStays(q: Input, r: Resolution, e: Evidence)
    requires q.Valid() && Resolves(q, r) && e in q.Edges() && e.source == PHONE_JID_DERIVATION && e.left in r.assignments
    ensures e.right in Members(r, r.assignments[e.left].cluster)
  {
    assert (e.left, e.right) in EligibleEdges(q.ids, q.Edges());
    JoinedLink(Links(q.ids, q.Edges()), e.left, e.right);
    GroupedAlong(q, e.left, e.right);
    SameClusterIffJoined(q, r, e.left, e.right);
  }

  lemma NoLinksNoNeighbours(ids: map<Id, Identity>, edges: set<Evidence>, a: Id, b: Id)
    requires Bipartite(ids, edges) && IsConflicted(ids, edges, a)
    requires !HasDerivedEdge(edges, a)
    requires Joined(Links(ids, edges), a, b)
    ensures a == b
  {
    assert forall x, y :: (x, y) in EligibleEdges(ids, edges) ==> x != a && y != a;
    var walk :| WalkBetween(Links(ids, edges), a, b, walk);
    ConstantAlongWalk(Links(ids, edges), (x: Id) => x == a, walk);
  }

  /** The writer's shape is enough for isolation. */
  lemma WriterShapeIsolates(q: Input, r: Resolution)
    requires q.Valid() && Resolves(q, r) && WriterShape(q.ids, q.Edges())
    ensures Isolated(r)
  {
    ResolutionIsOneHop(q, r);
  }

  // ---------------------------------------------------------------------------------------------
  // The difference from the previous run

  function Changed(prev: Resolution, cur: Resolution): set<Id> {
    (set id | id in cur.assignments && (id !in prev.assignments || prev.assignments[id] != cur.assignments[id]))
    + (set id | id in prev.assignments && id !in cur.assignments)
  }

  predicate ClusterRowChanged(prev: Resolution, cur: Resolution, c: Id)
    requires c in cur.clusters
  {
    || c !in prev.clusters
    || prev.clusters[c].phone != cur.clusters[c].phone
    || prev.clusters[c].size != cur.clusters[c].size
    || prev.clusters[c].name != cur.clusters[c].name
  }

  function QueueKey(r: Resolution, id: Id): Id {
    if id in r.assignments then r.assignments[id].cluster else id
  }

  /** The identities handed to the projection queue after `cur` completes. */
  function Affected(prev: Resolution, cur: Resolution): set<Id> {
    (set id | id in Changed(prev, cur) :: QueueKey(cur, id))
    + (set c | c in cur.clusters && ClusterRowChanged(prev, cur, c))
  }

  /** The resolved members of a cluster. */
  function Aliases(r: Resolution, cluster: Id): set<Id> {
    set id | id in r.assignments && r.assignments[id].cluster == cluster && r.assignments[id].status == RESOLVED
  }

  /** All that a run contributes to the projection of one identity. */
  datatype Contribution = Absent | Present(assignment: Assignment, name: Option<string>, aliases: set<Id>)

  function ClusterName(r: Resolution, c: Id): Option<string> {
    if c in r.clusters then r.clusters[c].name else None
  }

  function Contributes(r: Resolution, id: Id): Contribution {
    if id !in r.assignments then Absent
    else
      var a := r.assignments[id];
      Present(a, ClusterName(r, a.cluster), Aliases(r, a.cluster))
  }

  /** An identity whose cluster is not queued keeps everything the previous run gave it. */
  lemma DiffIsComplete(prev: Resolution, cur: Resolution, id: Id)
    requires WellFormed(prev) && WellFormed(cur)
    requires QueueKey(cur, id) !in Affected(prev, cur)
    ensures Contributes(prev, id) == Contributes(cur, id)
  {
    forall x ensures x in Changed(prev, cur) ==> QueueKey(cur, x) in Affected(prev, cur) {}
    if id in cur.assignments {
      var c := cur.assignments[id].cluster;
      assert !ClusterRowChanged(prev, cur, c);
      forall x | x in Members(cur, c) ensures x in Members(prev, c) && prev.assignments[x] == cur.assignments[x] {
        assert x !in Changed(prev, cur);
      }
      SameSize(Members(cur, c), Members(prev, c));
      assert Members(cur, c) == Members(prev, c);
      assert Aliases(prev, c) == Aliases(cur, c) by {
        forall x ensures x in Aliases(prev, c) <==> x in Aliases(cur, c) {
          assert x in Aliases(prev, c) ==> x in Members(prev, c);
          assert x in Aliases(cur, c) ==> x in Members(cur, c);
        }
      }
    }
  }
}
