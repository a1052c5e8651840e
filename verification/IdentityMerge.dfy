/** The legacy merge of observed contacts: contacts that unambiguous evidence ties to one phone are merged into
    the oldest of them, with their identifiers, names and group members. */
module IdentityMerge {
  import opened Options
  import opened Orders
  import opened Reachability

  type MemberKey = nat

  /** An identifier is a phone number or any other observed identity. */
  datatype Identifier = Phone(number: nat) | Exact(identity: nat)
  datatype Evidence = Evidence(identity: Identifier, phone: nat)

  datatype Source = OPENWA_CONTACT_NAME | OPENWA_PUSH_NAME
  datatype Contact = Contact(createdAt: nat, first: nat, last: nat)
  datatype Name = Name(value: string, first: nat, last: nat, observedAt: nat, key: nat)
  type NameKey = (Id, Source)

  datatype Tables = Tables(contacts: map<Id, Contact>, identifiers: map<Identifier, Id>, names: map<NameKey, Name>,
                           members: map<MemberKey, Id>)
  {
    /** Everything points to a contact that exists. */
    ghost predicate Valid() {
      && (forall i :: i in identifiers ==> identifiers[i] in contacts)
      && (forall n :: n in names ==> n.0 in contacts)
      && (forall m :: m in members ==> members[m] in contacts)
    }
  }

  // ---------------------------------------------------------------------------------------------
  // The plan

  /** The phone is claimed by this identity only. */
  predicate IsUnambiguous(evidence: set<Evidence>, e: Evidence) {
    forall o :: o in evidence && o.phone == e.phone ==> o.identity == e.identity
  }

  /** Evidence that would tie two contacts. */
  predicate Ties(t: Tables, evidence: set<Evidence>, e: Evidence) {
    e in evidence && IsUnambiguous(evidence, e) && e.identity in t.identifiers && Phone(e.phone) in t.identifiers
    && t.identifiers[e.identity] != t.identifiers[Phone(e.phone)]
  }

  function Edges(t: Tables, evidence: set<Evidence>): set<Link> {
    set e | e in evidence && Ties(t, evidence, e) :: (t.identifiers[e.identity], t.identifiers[Phone(e.phone)])
  }

  function Ends(edges: set<Link>): set<Id> {
    (set e | e in edges :: e.0) + (set e | e in edges :: e.1)
  }

  /** The contacts merged with `id`: itself, and all that a walk of edges joins to it. */
  ghost function GroupOf(t: Tables, evidence: set<Evidence>, id: Id): set<Id> {
    set x | x in Ends(Edges(t, evidence)) + {id} && Joined(Undirected(Edges(t, evidence)), id, x)
  }

  /** Listed first by `ORDER BY created_at, id`. */
  predicate IsOldest(contacts: map<Id, Contact>, group: set<Id>, w: Id) {
    w in group && w in contacts && forall o :: o in group && o in contacts ==>
      contacts[w].createdAt < contacts[o].createdAt || (contacts[w].createdAt == contacts[o].createdAt && w <= o)
  }

  lemma {:induction false} OldestExists(contacts: map<Id, Contact>, group: set<Id>)
    requires group != {} && group <= contacts.Keys
    ensures exists w :: IsOldest(contacts, group, w)
  {
    var x :| x in group;
    if group == {x} {
      assert IsOldest(contacts, group, x);
    } else {
      var rest := group - {x};
      assert group == rest + {x} && rest != {};
      OldestExists(contacts, rest);
      var w :| IsOldest(contacts, rest, w);
      var older := contacts[x].createdAt < contacts[w].createdAt || (contacts[x].createdAt == contacts[w].createdAt && x <= w);
      assert IsOldest(contacts, group, if older then x else w);
    }
  }

  /** The contact that `id` is merged into. */
  ghost function WinnerOf(t: Tables, evidence: set<Evidence>, id: Id): (w: Id)
    requires t.Valid() && id in t.contacts
    ensures IsOldest(t.contacts, GroupOf(t, evidence, id), w)
  {
    EndsExist(t, evidence);
    JoinedSelf(Undirected(Edges(t, evidence)), id);
    assert id in GroupOf(t, evidence, id);
    OldestExists(t.contacts, GroupOf(t, evidence, id));
    var w :| IsOldest(t.contacts, GroupOf(t, evidence, id), w);
    w
  }

  lemma EndsExist(t: Tables, evidence: set<Evidence>)
    requires t.Valid()
    ensures Ends(Edges(t, evidence)) <= t.contacts.Keys
  {
  }

  lemma EndsCoverWalks(edges: set<Link>, a: Id, b: Id)
    requires Joined(Undirected(edges), a, b) && a != b
    ensures a in Ends(edges) && b in Ends(edges)
  {
    var walk :| WalkBetween(Undirected(edges), a, b, walk);
    assert (walk[0], walk[0 + 1]) in Undirected(edges);
    assert (walk[|walk| - 2], walk[|walk| - 2 + 1]) in Undirected(edges);
    forall x, y | (x, y) in Undirected(edges) ensures x in Ends(edges) && y in Ends(edges) {
      assert (x, y) in edges || (y, x) in edges;
      if (x, y) in edges { assert (x, y).0 == x && (x, y).1 == y; } else { assert (y, x).0 == y && (y, x).1 == x; }
    }
  }

  /** Joined contacts have the same group, hence the same winner. */
  lemma SameGroup(t: Tables, evidence: set<Evidence>, a: Id, b: Id)
    requires Joined(Undirected(Edges(t, evidence)), a, b)
    ensures GroupOf(t, evidence, a) == GroupOf(t, evidence, b)
  {
    var links := Undirected(Edges(t, evidence));
    JoinedSymmetric(links, a, b);
    forall x ensures x in GroupOf(t, evidence, a) <==> x in GroupOf(t, evidence, b) {
      if Joined(links, a, x) { JoinedTransitive(links, b, a, x); }
      if Joined(links, b, x) { JoinedTransitive(links, a, b, x); }
      if a != b && Joined(links, a, x) && x == a { EndsCoverWalks(Edges(t, evidence), a, b); }
      if a != b { EndsCoverWalks(Edges(t, evidence), a, b); }
    }
  }

  lemma JoinedHaveOneWinner(t: Tables, evidence: set<Evidence>, a: Id, b: Id)
    requires t.Valid() && a in t.contacts && b in t.contacts
    ensures Joined(Undirected(Edges(t, evidence)), a, b) <==> WinnerOf(t, evidence, a) == WinnerOf(t, evidence, b)
  {
    var links := Undirected(Edges(t, evidence));
    var w := WinnerOf(t, evidence, a);
    if Joined(links, a, b) {
      SameGroup(t, evidence, a, b);
    }
    if w == WinnerOf(t, evidence, b) {
      assert w in GroupOf(t, evidence, a) && w in GroupOf(t, evidence, b);
      JoinedSymmetric(links, b, w);
      JoinedTransitive(links, a, w, b);
    }
  }

  lemma WinnerStays(t: Tables, evidence: set<Evidence>, a: Id)
    requires t.Valid() && a in t.contacts
    ensures var w := WinnerOf(t, evidence, a); w in t.contacts && WinnerOf(t, evidence, w) == w
  {
    var w := WinnerOf(t, evidence, a);
    assert w in GroupOf(t, evidence, a);
    JoinedHaveOneWinner(t, evidence, a, w);
  }

  /** Who loses to whom. */
  ghost predicate IsPlan(t: Tables, evidence: set<Evidence>, plan: map<Id, Id>)
    requires t.Valid()
  {
    && (forall l :: l in plan <==> l in t.contacts && WinnerOf(t, evidence, l) != l)
    && (forall l :: l in plan ==> plan[l] == WinnerOf(t, evidence, l))
  }

  // ---------------------------------------------------------------------------------------------
  // The merge

  function To(plan: map<Id, Id>, id: Id): Id {
    if id in plan then plan[id] else id
  }

  /** The names of one source that end up with contact `w`. */
  function Candidates(names: map<NameKey, Name>, plan: map<Id, Id>, w: Id, source: Source): set<NameKey> {
    set n | n in names && n.1 == source && To(plan, n.0) == w
  }

  /** `ORDER BY source_observed_at DESC, source_observation_key DESC, contact_id`. */
  predicate RanksBefore(names: map<NameKey, Name>, a: NameKey, b: NameKey)
    requires a in names && b in names
  {
    || names[a].observedAt > names[b].observedAt
    || (names[a].observedAt == names[b].observedAt
        && (names[a].key > names[b].key || (names[a].key == names[b].key && a.0 <= b.0)))
  }

  ghost predicate IsLatest(names: map<NameKey, Name>, among: set<NameKey>, best: NameKey) {
    best in among && best in names && forall o :: o in among && o in names ==> RanksBefore(names, best, o)
  }

  /** The winner's row for a source: the latest name, over the span of that name and the winner's own. */
  function Combined(names: map<NameKey, Name>, w: Id, best: NameKey): Name
    requires best in names
  {
    var name := names[best];
    if (w, best.1) in names
    then name.(first := Lesser(names[(w, best.1)].first, name.first), last := Greater(names[(w, best.1)].last, name.last))
    else name
  }

  /** `after` holds, for each surviving contact and source, the combined name of those merged into it. */
  ghost predicate NamesMerged(names: map<NameKey, Name>, plan: map<Id, Id>, after: map<NameKey, Name>) {
    && (forall n :: n in after <==> n.0 !in plan && Candidates(names, plan, n.0, n.1) != {})
    && (forall n :: n in after ==>
          if n.0 in plan.Values
          then exists best :: IsLatest(names, Candidates(names, plan, n.0, n.1), best) && after[n] == Combined(names, n.0, best)
          else n in names && after[n] == names[n])
  }

  /** The span of all contacts merged into `w`. */
  predicate SpanMerged(t: Tables, plan: map<Id, Id>, w: Id, after: Contact)
    requires w in t.contacts
  {
    && after.createdAt == t.contacts[w].createdAt
    && (forall o :: o in t.contacts && To(plan, o) == w ==> after.first <= t.contacts[o].first && t.contacts[o].last <= after.last)
    && (exists o :: o in t.contacts && To(plan, o) == w && after.first == t.contacts[o].first)
    && (exists o :: o in t.contacts && To(plan, o) == w && after.last == t.contacts[o].last)
  }

  ghost predicate Merges(t: Tables, evidence: set<Evidence>, u: Tables)
    requires t.Valid()
  {
    exists plan :: IsPlan(t, evidence, plan) && MergesBy(t, plan, u)
  }

  ghost predicate MergesBy(t: Tables, plan: map<Id, Id>, u: Tables) {
    && u.identifiers == (map i | i in t.identifiers :: To(plan, t.identifiers[i]))
    && u.members == (map m | m in t.members :: To(plan, t.members[m]))
    && u.contacts.Keys == t.contacts.Keys - plan.Keys
    && (forall w :: w in u.contacts ==> w in t.contacts && SpanMerged(t, plan, w, u.contacts[w]))
    && NamesMerged(t.names, plan, u.names)
  }

  // ---------------------------------------------------------------------------------------------
  // What a merge achieves

  lemma PlanLeadsToSurvivors(t: Tables, evidence: set<Evidence>, plan: map<Id, Id>, id: Id)
    requires t.Valid() && IsPlan(t, evidence, plan) && id in t.contacts
    ensures To(plan, id) == WinnerOf(t, evidence, id) && To(plan, id) in t.contacts && To(plan, id) !in plan
  {
    WinnerStays(t, evidence, id);
  }

  /** Identifiers, names and members point to surviving contacts, and no identifier is lost. */
  lemma NothingDangles(t: Tables, evidence: set<Evidence>, u: Tables)
    requires t.Valid() && Merges(t, evidence, u)
    ensures u.Valid() && u.identifiers.Keys == t.identifiers.Keys && u.members.Keys == t.members.Keys
  {
    var plan :| IsPlan(t, evidence, plan) && MergesBy(t, plan, u);
    Survivors(t, evidence, plan, u);
    RowsSurvive(t, plan, u);
  }

  lemma Survivors(t: Tables, evidence: set<Evidence>, plan: map<Id, Id>, u: Tables)
    requires t.Valid() && IsPlan(t, evidence, plan) && u.contacts.Keys == t.contacts.Keys - plan.Keys
    ensures forall id :: id in t.contacts ==> To(plan, id) in u.contacts
  {
    forall id | id in t.contacts ensures To(plan, id) in u.contacts { PlanLeadsToSurvivors(t, evidence, plan, id); }
  }

  lemma RowsSurvive(t: Tables, plan: map<Id, Id>, u: Tables)
    requires t.Valid() && u.identifiers == (map i | i in t.identifiers :: To(plan, t.identifiers[i]))
    requires u.members == (map m | m in t.members :: To(plan, t.members[m])) && NamesMerged(t.names, plan, u.names)
    requires forall id :: id in t.contacts ==> To(plan, id) in u.contacts
    ensures u.Valid() && u.identifiers.Keys == t.identifiers.Keys && u.members.Keys == t.members.Keys
  {
    NamesSurvive(t, plan, u);
    assert forall i :: i in u.identifiers ==> i in t.identifiers && u.identifiers[i] == To(plan, t.identifiers[i]);
    assert forall m :: m in u.members ==> m in t.members && u.members[m] == To(plan, t.members[m]);
  }

  lemma NamesSurvive(t: Tables, plan: map<Id, Id>, u: Tables)
    requires t.Valid() && NamesMerged(t.names, plan, u.names)
    requires forall id :: id in t.contacts ==> To(plan, id) in u.contacts
    ensures forall n :: n in u.names ==> n.0 in u.contacts
  {
    forall n | n in u.names ensures n.0 in u.contacts { NameSurvives(t, plan, u, n); }
  }

  lemma NameSurvives(t: Tables, plan: map<Id, Id>, u: Tables, n: NameKey)
    requires t.Valid() && NamesMerged(t.names, plan, u.names) && n in u.names
    requires forall id :: id in t.contacts ==> To(plan, id) in u.contacts
    ensures n.0 in u.contacts
  {
    var c :| c in Candidates(t.names, plan, n.0, n.1);
    assert To(plan, c.0) in u.contacts;
  }

  /** Contacts of an identity and a phone that no other identity claims. */
  function Claims(t: Tables, evidence: set<Evidence>): set<Link> {
    set e | e in evidence && e.identity in t.identifiers && Phone(e.phone) in t.identifiers
            && (forall o :: o in evidence && o.phone == e.phone ==> o.identity == e.identity)
      :: (t.identifiers[e.identity], t.identifiers[Phone(e.phone)])
  }

  /** Evidence within one contact ties nothing. */
  lemma ClaimsJoin(t: Tables, evidence: set<Evidence>, a: Id, b: Id)
    ensures Joined(Undirected(Claims(t, evidence)), a, b) <==> Joined(Undirected(Edges(t, evidence)), a, b)
  {
    var claims, edges := Undirected(Claims(t, evidence)), Undirected(Edges(t, evidence));
    forall x, y | (x, y) in Edges(t, evidence) ensures (x, y) in Claims(t, evidence) {
      var e :| e in evidence && Ties(t, evidence, e) && (x, y) == (t.identifiers[e.identity], t.identifiers[Phone(e.phone)]);
    }
    forall x, y | (x, y) in Claims(t, evidence) && x != y ensures (x, y) in Edges(t, evidence) {
      var e :| e in evidence && e.identity in t.identifiers && Phone(e.phone) in t.identifiers
               && (forall o :: o in evidence && o.phone == e.phone ==> o.identity == e.identity)
               && (x, y) == (t.identifiers[e.identity], t.identifiers[Phone(e.phone)]);
      assert Ties(t, evidence, e);
    }
    if walk :| WalkBetween(edges, a, b, walk) {
      assert WalkBetween(claims, a, b, walk);
    }
    if walk :| WalkBetween(claims, a, b, walk) {
      WalkJoins(claims, edges, walk);
    }
  }

  lemma {:induction false} WalkJoins(links: set<Link>, others: set<Link>, walk: seq<Id>)
    requires Walk(links, walk) && forall x, y :: (x, y) in links && x != y ==> (x, y) in others
    ensures Joined(others, walk[0], walk[|walk| - 1])
    decreases |walk|
  {
    if |walk| == 1 {
      JoinedSelf(others, walk[0]);
    } else {
      var n := |walk| - 2;
      WalkJoins(links, others, walk[..n + 1]);
      assert (walk[n], walk[n + 1]) in links;
      if walk[n] == walk[n + 1] { JoinedSelf(others, walk[n]); } else { JoinedLink(others, walk[n], walk[n + 1]); }
      JoinedTransitive(others, walk[0], walk[n], walk[n + 1]);
    }
  }

  /** Two contacts end as one exactly when a walk of evidence joins them whose phones no other identity claims, and
      the survivor is the oldest of those joined, the one with the least identifier if several are. */
  lemma ComponentsBecomeOne(t: Tables, evidence: set<Evidence>, u: Tables, i: Identifier, j: Identifier)
    requires t.Valid() && Merges(t, evidence, u) && i in t.identifiers && j in t.identifiers
    ensures i in u.identifiers && j in u.identifiers && u.identifiers[i] in t.contacts
    ensures u.identifiers[i] == u.identifiers[j] <==> Joined(Undirected(Claims(t, evidence)), t.identifiers[i], t.identifiers[j])
    ensures Joined(Undirected(Claims(t, evidence)), t.identifiers[i], u.identifiers[i])
    ensures forall x :: x in t.contacts && Joined(Undirected(Claims(t, evidence)), t.identifiers[i], x) ==>
      && t.contacts[u.identifiers[i]].createdAt <= t.contacts[x].createdAt
      && (t.contacts[u.identifiers[i]].createdAt == t.contacts[x].createdAt ==> u.identifiers[i] <= x)
  {
    var plan :| IsPlan(t, evidence, plan) && MergesBy(t, plan, u);
    var a, edges := t.identifiers[i], Edges(t, evidence);
    PlanLeadsToSurvivors(t, evidence, plan, a);
    PlanLeadsToSurvivors(t, evidence, plan, t.identifiers[j]);
    JoinedHaveOneWinner(t, evidence, a, t.identifiers[j]);
    ClaimsJoin(t, evidence, a, t.identifiers[j]);
    ClaimsJoin(t, evidence, a, u.identifiers[i]);
    assert u.identifiers[i] in GroupOf(t, evidence, a);
    forall x | x in t.contacts && Joined(Undirected(Claims(t, evidence)), a, x) ensures x in GroupOf(t, evidence, a) {
      ClaimsJoin(t, evidence, a, x);
      if x != a { EndsCoverWalks(edges, a, x); }
    }
  }

  /** The survivor keeps its creation time and spans every contact that was joined to it. */
  lemma SurvivorSpansAll(t: Tables, evidence: set<Evidence>, u: Tables, i: Identifier, x: Id)
    requires t.Valid() && Merges(t, evidence, u) && i in t.identifiers && x in t.contacts
    requires Joined(Undirected(Claims(t, evidence)), t.identifiers[i], x)
    ensures i in u.identifiers && u.identifiers[i] in u.contacts && u.identifiers[i] in t.contacts
    ensures var w := u.identifiers[i];
      && u.contacts[w].createdAt == t.contacts[w].createdAt
      && u.contacts[w].first <= t.contacts[x].first && t.contacts[x].last <= u.contacts[w].last
  {
    var plan :| IsPlan(t, evidence, plan) && MergesBy(t, plan, u);
    JoinedGoToOne(t, evidence, plan, t.identifiers[i], x);
    SpanCovers(t, plan, u, x);
  }

  lemma SpanCovers(t: Tables, plan: map<Id, Id>, u: Tables, x: Id)
    requires MergesBy(t, plan, u) && x in t.contacts && To(plan, x) in t.contacts && To(plan, x) !in plan
    ensures var w := To(plan, x);
      && w in u.contacts && u.contacts[w].createdAt == t.contacts[w].createdAt
      && u.contacts[w].first <= t.contacts[x].first && t.contacts[x].last <= u.contacts[w].last
  {
    assert SpanMerged(t, plan, To(plan, x), u.contacts[To(plan, x)]);
  }

  lemma JoinedGoToOne(t: Tables, evidence: set<Evidence>, plan: map<Id, Id>, a: Id, x: Id)
    requires t.Valid() && IsPlan(t, evidence, plan) && a in t.contacts && x in t.contacts
    requires Joined(Undirected(Claims(t, evidence)), a, x)
    ensures To(plan, a) == To(plan, x) && To(plan, a) in t.contacts && To(plan, a) !in plan
  {
    PlanLeadsToSurvivors(t, evidence, plan, a);
    PlanLeadsToSurvivors(t, evidence, plan, x);
    ClaimsJoin(t, evidence, a, x);
    JoinedHaveOneWinner(t, evidence, a, x);
  }

  predicate NoLater(a: Name, b: Name) {
    b.observedAt > a.observedAt || (b.observedAt == a.observedAt && b.key >= a.key)
  }

  predicate SameObservation(a: Name, b: Name) {
    a.value == b.value && a.observedAt == b.observedAt && a.key == b.key
  }

  /** No name of the component is later than the one its survivor keeps, and that one was a name of the component,
      with its value, its time and its key. */
  lemma LatestNameWins(t: Tables, evidence: set<Evidence>, u: Tables, n: NameKey)
    requires t.Valid() && Merges(t, evidence, u) && n in t.names
    ensures var kept := (WinnerOf(t, evidence, n.0), n.1);
      && kept in u.names && NoLater(t.names[n], u.names[kept])
      && exists o :: o in t.names && o.1 == n.1 && WinnerOf(t, evidence, o.0) == kept.0 && SameObservation(t.names[o], u.names[kept])
  {
    var plan :| IsPlan(t, evidence, plan) && MergesBy(t, plan, u);
    PlanLeadsToSurvivors(t, evidence, plan, n.0);
    var o := KeptName(t.names, plan, u.names, n);
    PlanLeadsToSurvivors(t, evidence, plan, o.0);
  }

  /** The name a survivor keeps spans the one it had. */
  lemma KeptNameSpansOwn(t: Tables, evidence: set<Evidence>, u: Tables, n: NameKey)
    requires t.Valid() && Merges(t, evidence, u) && n in t.names && WinnerOf(t, evidence, n.0) == n.0
    ensures n in u.names && u.names[n].first <= t.names[n].first && t.names[n].last <= u.names[n].last
  {
    var plan :| IsPlan(t, evidence, plan) && MergesBy(t, plan, u);
    OwnSpan(t.names, plan, u.names, n);
  }

  lemma OwnSpan(names: map<NameKey, Name>, plan: map<Id, Id>, after: map<NameKey, Name>, n: NameKey)
    requires NamesMerged(names, plan, after) && n in names && n.0 !in plan
    ensures n in after && after[n].first <= names[n].first && names[n].last <= after[n].last
  {
    assert n in Candidates(names, plan, n.0, n.1);
    if n.0 in plan.Values {
      var best :| IsLatest(names, Candidates(names, plan, n.0, n.1), best) && after[n] == Combined(names, n.0, best);
      assert n == (n.0, best.1);
    }
  }

  lemma KeptName(names: map<NameKey, Name>, plan: map<Id, Id>, after: map<NameKey, Name>, n: NameKey) returns (o: NameKey)
    requires NamesMerged(names, plan, after) && n in names && To(plan, n.0) !in plan
    ensures var kept := (To(plan, n.0), n.1);
      && kept in after && NoLater(names[n], after[kept])
      && o in names && o.1 == n.1 && To(plan, o.0) == kept.0 && SameObservation(names[o], after[kept])
  {
    var w := To(plan, n.0);
    var among := Candidates(names, plan, w, n.1);
    assert n in among;
    assert (w, n.1) in after;
    if w in plan.Values {
      var best :| IsLatest(names, among, best) && after[(w, n.1)] == Combined(names, w, best);
      assert RanksBefore(names, best, n);
      o := best;
    } else {
      assert n.0 == w;
      o := n;
    }
  }

  /** Planning again on the same evidence finds nothing left to merge. */
  lemma MergeIsComplete(t: Tables, evidence: set<Evidence>, u: Tables)
    requires t.Valid() && Merges(t, evidence, u)
    ensures u.Valid() && Edges(u, evidence) == {} && IsPlan(u, evidence, map[])
  {
    NothingDangles(t, evidence, u);
    forall e | e in evidence ensures !Ties(u, evidence, e) {
      if IsUnambiguous(evidence, e) && e.identity in t.identifiers && Phone(e.phone) in t.identifiers {
        EvidenceIsSatisfied(t, evidence, u, e);
      }
    }
    assert Edges(u, evidence) == {};
    NoEdgesNoPlan(u, evidence);
  }

  lemma NoEdgesNoPlan(u: Tables, evidence: set<Evidence>)
    requires u.Valid() && Edges(u, evidence) == {}
    ensures IsPlan(u, evidence, map[])
  {
    forall id | id in u.contacts ensures WinnerOf(u, evidence, id) == id {
      var w := WinnerOf(u, evidence, id);
      assert w in GroupOf(u, evidence, id);
      assert w != id ==> Ends(Edges(u, evidence)) == {};
    }
  }

  lemma EvidenceIsSatisfied(t: Tables, evidence: set<Evidence>, u: Tables, e: Evidence)
    requires t.Valid() && Merges(t, evidence, u) && e in evidence && IsUnambiguous(evidence, e)
    requires e.identity in t.identifiers && Phone(e.phone) in t.identifiers
    ensures e.identity in u.identifiers && Phone(e.phone) in u.identifiers
    ensures u.identifiers[e.identity] == u.identifiers[Phone(e.phone)]
  {
    ClaimIsJoined(t, evidence, e);
    ComponentsBecomeOne(t, evidence, u, e.identity, Phone(e.phone));
  }

  lemma ClaimIsJoined(t: Tables, evidence: set<Evidence>, e: Evidence)
    requires e in evidence && IsUnambiguous(evidence, e) && e.identity in t.identifiers && Phone(e.phone) in t.identifiers
    ensures Joined(Undirected(Claims(t, evidence)), t.identifiers[e.identity], t.identifiers[Phone(e.phone)])
  {
    var a, b := t.identifiers[e.identity], t.identifiers[Phone(e.phone)];
    assert (a, b) in Claims(t, evidence);
    JoinedLink(Undirected(Claims(t, evidence)), a, b);
  }
}
