/** The contact tables of one session, and the transaction that merges observed identities. */
module ContactRepository {
  import opened Options
  import opened Orders
  import opened Reachability
  import opened IdentityMerge

  lemma OldestIsWinner(t: Tables, evidence: set<Evidence>, id: Id, w: Id)
    requires t.Valid() && id in t.contacts && IsOldest(t.contacts, GroupOf(t, evidence, id), w)
    ensures WinnerOf(t, evidence, id) == w
  {
    var x := WinnerOf(t, evidence, id);
    assert x in GroupOf(t, evidence, id) && w in GroupOf(t, evidence, id);
  }

  /** The component table groups exactly the contacts that are merged with each other. */
  lemma GroupIsComponent(t: Tables, evidence: set<Evidence>, component: map<Id, Id>, id: Id)
    requires IsComponentTable(Edges(t, evidence), component) && id in component
    ensures GroupOf(t, evidence, id) == set x | x in component && component[x] == component[id]
  {
    var edges := Edges(t, evidence);
    var links := Undirected(edges);
    forall x ensures x in GroupOf(t, evidence, id) <==> x in component && component[x] == component[id] {
      if x in GroupOf(t, evidence, id) { JoinedIsGrouped(edges, id, x); }
      if x in component {
        SameComponentIffJoined(Ends(edges), links, id, x);
        if Joined(links, id, x) && x != id { EndsCoverWalks(edges, id, x); }
      }
    }
  }

  lemma JoinedIsGrouped(edges: set<Link>, a: Id, b: Id)
    requires Roots(Ends(edges), Undirected(edges), a) != {} && Joined(Undirected(edges), a, b)
    ensures Roots(Ends(edges), Undirected(edges), b) != {}
  {
    var r :| r in Roots(Ends(edges), Undirected(edges), a);
    JoinedTransitive(Undirected(edges), r, a, b);
    assert r in Roots(Ends(edges), Undirected(edges), b);
  }

  lemma UngroupedIsAlone(t: Tables, evidence: set<Evidence>, id: Id)
    requires Roots(Ends(Edges(t, evidence)), Undirected(Edges(t, evidence)), id) == {}
    ensures GroupOf(t, evidence, id) == {id}
  {
    var edges := Edges(t, evidence);
    JoinedSelf(Undirected(edges), id);
    assert id in Ends(edges) ==> id in Roots(Ends(edges), Undirected(edges), id);
    forall x | x in GroupOf(t, evidence, id) ensures x == id {
      if x != id { EndsCoverWalks(edges, id, x); }
    }
  }

  const LEASE_SECONDS := 600

  /** Who may write the contacts of a snapshot generation, and until when. */
  datatype Ownership = Ownership(generation: nat, token: nat, expiresAt: nat)

  /** Evidence rows are unique by generation and identity. */
  type EvidenceKey = (nat, Identifier)

  /** The evidence of one generation. */
  function Observed(rows: map<EvidenceKey, nat>, generation: nat): set<Evidence> {
    set k | k in rows && k.0 == generation :: Evidence(k.1, rows[k])
  }

  /** Evidence for a phone that another identity of the generation claims as well. */
  function Ambiguous(found: set<Evidence>): set<Evidence> {
    set e | e in found && !IsUnambiguous(found, e)
  }

  class ContactTables {
    var contacts: map<Id, Contact>
    var identifiers: map<Identifier, Id>
    var names: map<NameKey, Name>
    var members: map<MemberKey, Id>
    var evidence: map<EvidenceKey, nat>
    var sync: Option<Ownership>

    function Now(): Tables
      reads this
    {
      Tables(contacts, identifiers, names, members)
    }

    predicate Owns(generation: nat, token: nat, now: nat)
      reads this
    {
      sync.Some? && sync.value.generation == generation && sync.value.token == token && sync.value.expiresAt > now
    }

    /** Ownership, plan, names, identifiers, members, spans and deletions, in that order; then the counts of merged
        contacts and of ambiguous evidence, and the deletion of the evidence used. Without ownership nothing happens. */
    method ReconcileObservedIdentities(generation: nat, token: nat, now: nat) returns (counts: Option<(nat, nat)>)
      requires Now().Valid()
      modifies this
      ensures counts.Some? <==> old(Owns(generation, token, now))
      ensures counts.None? ==> Now() == old(Now()) && evidence == old(evidence) && sync == old(sync)
      ensures counts.Some? ==>
        && var found := set k | k in old(evidence) && k.0 == generation :: Evidence(k.1, old(evidence)[k]);
        && Merges(old(Now()), found, Now())
        && (exists plan :: IsPlan(old(Now()), found, plan) && counts.value.0 == |plan|)
        && counts.value.1 == |(set e | e in found && (exists o :: o in found && o.phone == e.phone && o.identity != e.identity))|
        && evidence == (map k | k in old(evidence) && k.0 > generation :: old(evidence)[k])
        && sync == Some(Ownership(generation, token, now + LEASE_SECONDS))
    {
      if !Owns(generation, token, now) {
        return None;
      }
      sync := Some(sync.value.(expiresAt := now + LEASE_SECONDS));
      var found := Observed(evidence, generation);
      var merged := Merge(found);
      counts := Some((merged, |Ambiguous(found)|));
      assert Ambiguous(found) == set e | e in found && (exists o :: o in found && o.phone == e.phone && o.identity != e.identity);
      evidence := map k | k in evidence && k.0 > generation :: evidence[k];
    }

    method Merge(found: set<Evidence>) returns (merged: nat)
      requires Now().Valid()
      modifies this`contacts, this`identifiers, this`names, this`members
      ensures Merges(old(Now()), found, Now())
      ensures exists plan :: IsPlan(old(Now()), found, plan) && merged == |plan|
    {
      var plan := Plan(found);
      PlanCoversSurvivors(Now(), found, plan);
      var mergedNames := MergeNames(names, plan);
      var spans := MergeContacts(contacts, plan);
      names := mergedNames;
      Repoint(plan);
      contacts := spans;
      merged := |plan|;
      assert MergesBy(old(Now()), plan, Now());
    }

    method Repoint(plan: map<Id, Id>)
      modifies this`identifiers, this`members
      ensures identifiers == (map i | i in old(identifiers) :: To(plan, old(identifiers)[i]))
      ensures members == (map m | m in old(members) :: To(plan, old(members)[m]))
    {
      identifiers := map i | i in identifiers :: To(plan, identifiers[i]);
      members := map m | m in members :: To(plan, members[m]);
    }

    method Plan(found: set<Evidence>) returns (plan: map<Id, Id>)
      requires Now().Valid()
      ensures IsPlan(Now(), found, plan)
    {
      var edges := Edges(Now(), found);
      var component := Components(Ends(edges), edges);
      EndsExist(Now(), found);
      plan := map[];
      var todo := component.Keys * contacts.Keys;
      while todo != {}
        invariant todo <= component.Keys * contacts.Keys
        invariant forall l :: l in plan <==> l in component && l in contacts && l !in todo && WinnerOf(Now(), found, l) != l
        invariant forall l :: l in plan ==> plan[l] == WinnerOf(Now(), found, l)
      {
        var id :| id in todo;
        var w := FindWinner(contacts, component, id, Now(), found);
        if w != id {
          plan := plan[id := w];
        }
        todo := todo - {id};
      }
      forall l | l in contacts && l !in component ensures WinnerOf(Now(), found, l) == l {
        UngroupedIsAlone(Now(), found, l);
      }
    }
  }

  ghost predicate IsComponentTable(edges: set<Link>, component: map<Id, Id>) {
    && (forall x :: x in component <==> Roots(Ends(edges), Undirected(edges), x) != {})
    && (forall x :: x in component ==> component[x] == ComponentOf(Ends(edges), Undirected(edges), x))
  }

  method FindWinner(contacts: map<Id, Contact>, component: map<Id, Id>, id: Id, ghost t: Tables, ghost evidence: set<Evidence>)
    returns (w: Id)
    requires t.Valid() && t.contacts == contacts && id in contacts && id in component
    requires IsComponentTable(Edges(t, evidence), component)
    ensures w == WinnerOf(t, evidence, id)
  {
    GroupIsComponent(t, evidence, component, id);
    GroupExists(t, evidence, id);
    var group := set x | x in component && component[x] == component[id];
    w := Oldest(contacts, group, id);
    OldestIsWinner(t, evidence, id, w);
  }

  lemma GroupExists(t: Tables, evidence: set<Evidence>, id: Id)
    requires t.Valid() && id in t.contacts
    ensures GroupOf(t, evidence, id) <= t.contacts.Keys && id in GroupOf(t, evidence, id)
  {
    EndsExist(t, evidence);
    JoinedSelf(Undirected(Edges(t, evidence)), id);
  }

  /** `first_value(...) OVER (ORDER BY created_at, id)`. */
  method Oldest(contacts: map<Id, Contact>, group: set<Id>, start: Id) returns (w: Id)
    requires start in group && group <= contacts.Keys
    ensures IsOldest(contacts, group, w)
  {
    w := start;
    var todo := group - {start};
    while todo != {}
      invariant todo <= group && w in group - todo
      invariant IsOldest(contacts, group - todo, w)
    {
      var o :| o in todo;
      assert group - (todo - {o}) == group - todo + {o};
      if contacts[o].createdAt < contacts[w].createdAt || (contacts[o].createdAt == contacts[w].createdAt && o < w) {
        w := o;
      }
      todo := todo - {o};
    }
    assert group - todo == group;
  }

  /** Each surviving contact keeps, per source, the latest of its names. */
  method MergeNames(names: map<NameKey, Name>, plan: map<Id, Id>) returns (after: map<NameKey, Name>)
    requires forall l :: l in plan ==> plan[l] !in plan
    ensures NamesMerged(names, plan, after)
  {
    after := map[];
    var targets := set n | n in names :: (To(plan, n.0), n.1);
    var todo := targets;
    while todo != {}
      invariant todo <= targets && after.Keys == targets - todo
      invariant forall n :: n in after ==> IsMergedName(names, plan, n, after[n])
    {
      var n :| n in todo;
      var row := MergeName(names, plan, n);
      after := after[n := row];
      todo := todo - {n};
    }
    forall n ensures n in targets <==> n.0 !in plan && Candidates(names, plan, n.0, n.1) != {} {
      TargetsAreCandidates(names, plan, targets, n);
    }
  }

  ghost predicate IsMergedName(names: map<NameKey, Name>, plan: map<Id, Id>, n: NameKey, row: Name) {
    if n.0 in plan.Values
    then exists best :: IsLatest(names, Candidates(names, plan, n.0, n.1), best) && row == Combined(names, n.0, best)
    else n in names && row == names[n]
  }

  lemma TargetsAreCandidates(names: map<NameKey, Name>, plan: map<Id, Id>, targets: set<NameKey>, n: NameKey)
    requires forall l :: l in plan ==> plan[l] !in plan
    requires targets == set x | x in names :: (To(plan, x.0), x.1)
    ensures n in targets <==> n.0 !in plan && Candidates(names, plan, n.0, n.1) != {}
  {
    if n in targets {
      var x :| x in names && (To(plan, x.0), x.1) == n;
      assert x in Candidates(names, plan, n.0, n.1);
    }
    if n.0 !in plan && Candidates(names, plan, n.0, n.1) != {} {
      var x :| x in Candidates(names, plan, n.0, n.1);
      assert (To(plan, x.0), x.1) == n;
    }
  }

  method MergeName(names: map<NameKey, Name>, plan: map<Id, Id>, n: NameKey) returns (row: Name)
    requires exists x :: x in names && (To(plan, x.0), x.1) == n
    ensures IsMergedName(names, plan, n, row)
  {
    var among := Candidates(names, plan, n.0, n.1);
    ghost var x :| x in names && (To(plan, x.0), x.1) == n;
    assert x in among;
    if n.0 !in plan.Values {
      assert x == n;
      return names[n];
    }
    var best :| best in among;
    var todo := among - {best};
    while todo != {}
      invariant todo <= among && best in among - todo && IsLatest(names, among - todo, best)
    {
      var o :| o in todo;
      assert among - (todo - {o}) == among - todo + {o};
      if !RanksBefore(names, best, o) {
        best := o;
      }
      todo := todo - {o};
    }
    assert among - todo == among;
    row := names[best];
    if (n.0, n.1) in names {
      var own := names[n];
      row := row.(first := if own.first < row.first then own.first else row.first,
                  last := if own.last > row.last then own.last else row.last);
    }
    assert row == Combined(names, n.0, best);
  }

  /** Losers are deleted; every survivor spans all that was merged into it. */
  method MergeContacts(contacts: map<Id, Contact>, plan: map<Id, Id>) returns (after: map<Id, Contact>)
    ensures after.Keys == contacts.Keys - plan.Keys
    ensures forall w, t: Tables :: w in after && t.contacts == contacts ==> SpanMerged(t, plan, w, after[w])
  {
    after := map[];
    var todo := contacts.Keys - plan.Keys;
    while todo != {}
      invariant todo <= contacts.Keys - plan.Keys && after.Keys == contacts.Keys - plan.Keys - todo
      invariant forall w, t: Tables :: w in after && t.contacts == contacts ==> SpanMerged(t, plan, w, after[w])
    {
      var w :| w in todo;
      var row := Span(contacts, plan, w);
      after := after[w := row];
      todo := todo - {w};
    }
  }

  method Span(contacts: map<Id, Contact>, plan: map<Id, Id>, w: Id) returns (row: Contact)
    requires w in contacts && w !in plan
    ensures forall t: Tables :: t.contacts == contacts ==> SpanMerged(t, plan, w, row)
  {
    var group := set o | o in contacts && To(plan, o) == w;
    row := contacts[w];
    ghost var from, to := w, w;
    var todo := group - {w};
    while todo != {}
      invariant todo <= group && from in group - todo && to in group - todo
      invariant row.createdAt == contacts[w].createdAt && row.first == contacts[from].first && row.last == contacts[to].last
      invariant forall o :: o in group - todo ==> row.first <= contacts[o].first && contacts[o].last <= row.last
    {
      var o :| o in todo;
      if contacts[o].first < row.first {
        row := row.(first := contacts[o].first);
        from := o;
      }
      if contacts[o].last > row.last {
        row := row.(last := contacts[o].last);
        to := o;
      }
      todo := todo - {o};
    }
    assert forall o :: o in contacts && To(plan, o) == w ==> o in group - todo;
  }

  lemma PlanCoversSurvivors(t: Tables, evidence: set<Evidence>, plan: map<Id, Id>)
    requires t.Valid() && IsPlan(t, evidence, plan)
    ensures forall l :: l in plan ==> plan[l] !in plan && plan[l] in t.contacts
  {
    forall l | l in plan ensures plan[l] !in plan && plan[l] in t.contacts { WinnerStays(t, evidence, l); }
  }
}
