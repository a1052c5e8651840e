/** Cycle detection over the feature dependency graph: a depth-first search with a visited set, the
    active path as a stack, and one reported cycle per back edge. */
module FeatureCycles {
  import opened Orders

  type Feature = nat
  type Graph = map<Feature, set<Feature>>

  function Dependencies(edges: Graph, f: Feature): set<Feature> {
    if f in edges then edges[f] else {}
  }

  function Features(edges: Graph): set<Feature> {
    edges.Keys + set f, d | f in edges && d in edges[f] :: d
  }

  ghost predicate IsWalk(edges: Graph, walk: seq<Feature>) {
    forall i :: 0 <= i < |walk| - 1 ==> walk[i + 1] in Dependencies(edges, walk[i])
  }

  ghost predicate IsClosedWalk(edges: Graph, walk: seq<Feature>) {
    |walk| >= 2 && walk[0] == walk[|walk| - 1] && IsWalk(edges, walk)
  }

  ghost predicate Acyclic(edges: Graph) {
    forall walk :: !IsClosedWalk(edges, walk)
  }

  ghost predicate Distinct(s: seq<Feature>) {
    forall i, j :: 0 <= i < j < |s| ==> s[i] != s[j]
  }

  lemma DistinctAppend(s: seq<Feature>, f: Feature)
    requires Distinct(s) && f !in s
    ensures Distinct(s + [f])
  {
    forall i, j | 0 <= i < j < |s + [f]| ensures (s + [f])[i] != (s + [f])[j] {
      assert s[i] in s;
    }
  }

  /** A closed walk that repeats nothing but its ends. */
  ghost predicate IsCycle(edges: Graph, cycle: seq<Feature>) {
    IsClosedWalk(edges, cycle) && Distinct(cycle[..|cycle| - 1])
  }

  /** The edge that closed a cycle. */
  function Closing(cycle: seq<Feature>): (Feature, Feature)
    requires |cycle| >= 2
  {
    (cycle[|cycle| - 2], cycle[|cycle| - 1])
  }

  ghost predicate Reports(cycles: seq<seq<Feature>>, from: Feature, to: Feature) {
    exists i :: 0 <= i < |cycles| && |cycles[i]| >= 2 && Closing(cycles[i]) == (from, to)
  }

  ghost predicate AllCycles(edges: Graph, cycles: seq<seq<Feature>>) {
    forall i :: 0 <= i < |cycles| ==> IsCycle(edges, cycles[i])
  }

  /** No edge closes two of the cycles. */
  ghost predicate ClosedOnce(cycles: seq<seq<Feature>>) {
    forall i, j :: 0 <= i < j < |cycles| && |cycles[i]| >= 2 && |cycles[j]| >= 2 ==> Closing(cycles[i]) != Closing(cycles[j])
  }

  ghost predicate FinishedBefore(finished: seq<Feature>, d: Feature, n: nat) {
    exists j :: 0 <= j < n && j < |finished| && finished[j] == d
  }

  /** Every edge out of a finished feature leads to one finished earlier or closes a reported cycle. */
  ghost predicate Explained(edges: Graph, finished: seq<Feature>, cycles: seq<seq<Feature>>) {
    forall i: nat, d :: i < |finished| && d in Dependencies(edges, finished[i]) ==>
      FinishedBefore(finished, d, i) || Reports(cycles, finished[i], d)
  }

  ghost predicate Prefix(a: seq<seq<Feature>>, b: seq<seq<Feature>>) {
    |a| <= |b| && forall i :: 0 <= i < |a| ==> a[i] == b[i]
  }

  ghost predicate Extends(a: seq<Feature>, b: seq<Feature>) {
    |a| <= |b| && forall i :: 0 <= i < |a| ==> a[i] == b[i]
  }

  lemma ExplainedGrows(edges: Graph, finished: seq<Feature>, cycles: seq<seq<Feature>>, more: seq<seq<Feature>>)
    requires Explained(edges, finished, cycles) && Prefix(cycles, more)
    ensures Explained(edges, finished, more)
  {
    forall from, to | Reports(cycles, from, to) ensures Reports(more, from, to) { ReportsGrows(cycles, more, from, to); }
  }

  lemma ReportsGrows(cycles: seq<seq<Feature>>, more: seq<seq<Feature>>, from: Feature, to: Feature)
    requires Reports(cycles, from, to) && Prefix(cycles, more)
    ensures Reports(more, from, to)
  {
    var i :| 0 <= i < |cycles| && |cycles[i]| >= 2 && Closing(cycles[i]) == (from, to);
    assert more[i] == cycles[i];
  }

  /** Finishing one more feature whose dependencies are all finished or reported. */
  lemma ExplainedFinish(edges: Graph, finished: seq<Feature>, cycles: seq<seq<Feature>>, f: Feature)
    requires Explained(edges, finished, cycles)
    requires forall d :: d in Dependencies(edges, f) ==> d in finished || Reports(cycles, f, d)
    ensures Explained(edges, finished + [f], cycles)
  {
    var more := finished + [f];
    forall i: nat, d | i < |more| && d in Dependencies(edges, more[i])
      ensures FinishedBefore(more, d, i) || Reports(cycles, more[i], d)
    {
      if i < |finished| {
        assert more[i] == finished[i];
        if FinishedBefore(finished, d, i) {
          var j :| 0 <= j < i && j < |finished| && finished[j] == d;
          assert more[j] == d;
        }
      } else if d in finished {
        var j :| 0 <= j < |finished| && finished[j] == d;
        assert more[j] == d;
      }
    }
  }

  /** Along a walk that closes no reported cycle, features finish in reverse. */
  lemma {:induction false} WalkFinishesBackwards(edges: Graph, finished: seq<Feature>, cycles: seq<seq<Feature>>,
                                                 walk: seq<Feature>, n: nat, at: nat)
    requires Explained(edges, finished, cycles) && Distinct(finished) && IsWalk(edges, walk)
    requires 0 < n < |walk| && at < |finished| && finished[at] == walk[0]
    requires forall i :: 0 <= i < n ==> !Reports(cycles, walk[i], walk[i + 1])
    ensures FinishedBefore(finished, walk[n], at)
  {
    var from := at;
    if n > 1 {
      WalkFinishesBackwards(edges, finished, cycles, walk, n - 1, at);
      var j :| 0 <= j < at && j < |finished| && finished[j] == walk[n - 1];
      from := j;
    }
    assert walk[n - 1 + 1] in Dependencies(edges, walk[n - 1]);
    assert !Reports(cycles, walk[n - 1], walk[n - 1 + 1]);
    assert FinishedBefore(finished, walk[n], from);
  }

  /** The closing edges of the reported cycles meet every closed walk. */
  ghost predicate MeetsEveryClosedWalk(edges: Graph, cycles: seq<seq<Feature>>) {
    forall walk :: IsClosedWalk(edges, walk) ==> exists i :: 0 <= i < |walk| - 1 && Reports(cycles, walk[i], walk[i + 1])
  }

  lemma ClosedWalksAreMet(edges: Graph, finished: seq<Feature>, cycles: seq<seq<Feature>>)
    requires Explained(edges, finished, cycles) && Distinct(finished)
    requires forall f :: f in edges ==> f in finished
    ensures MeetsEveryClosedWalk(edges, cycles)
  {
    forall walk | IsClosedWalk(edges, walk) ensures exists i :: 0 <= i < |walk| - 1 && Reports(cycles, walk[i], walk[i + 1]) {
      if forall i :: 0 <= i < |walk| - 1 ==> !Reports(cycles, walk[i], walk[i + 1]) {
        assert walk[0 + 1] in Dependencies(edges, walk[0]);
        var at :| 0 <= at < |finished| && finished[at] == walk[0];
        WalkFinishesBackwards(edges, finished, cycles, walk, |walk| - 1, at);
        assert false;
      }
    }
  }

  /** With a real cycle for every report and a report on every closed walk, silence means acyclic. */
  lemma SilenceMeansAcyclic(edges: Graph, cycles: seq<seq<Feature>>)
    requires AllCycles(edges, cycles) && MeetsEveryClosedWalk(edges, cycles)
    ensures cycles == [] <==> Acyclic(edges)
  {
    if cycles != [] {
      assert IsCycle(edges, cycles[0]) && IsClosedWalk(edges, cycles[0]);
    }
    if cycles == [] {
      assert forall from, to :: !Reports(cycles, from, to);
    }
  }

  /** What the visit of one dependency leaves true of the other dependencies of `feature`. */
  lemma ExploredOne(known: seq<seq<Feature>>, cycles: seq<seq<Feature>>, before: seq<Feature>, finished: seq<Feature>,
                    feature: Feature, done: set<Feature>, dependency: Feature)
    requires Prefix(known, cycles) && Extends(before, finished)
    requires forall i :: |known| <= i < |cycles| && |cycles[i]| >= 2 && Closing(cycles[i]).0 == feature ==>
               Closing(cycles[i]).1 == dependency
    requires forall d :: d in done ==> d in before || Reports(known, feature, d)
    ensures forall d :: d in done ==> d in finished || Reports(cycles, feature, d)
    ensures forall d :: d != dependency && !Reports(known, feature, d) ==> !Reports(cycles, feature, d)
  {
    forall d | d in done ensures d in finished || Reports(cycles, feature, d) {
      if d in before {
        var j :| 0 <= j < |before| && before[j] == d;
        assert finished[j] == d;
      } else {
        ReportsGrows(known, cycles, feature, d);
      }
    }
    forall d | d != dependency && Reports(cycles, feature, d) ensures Reports(known, feature, d) {
      var i :| 0 <= i < |cycles| && |cycles[i]| >= 2 && Closing(cycles[i]) == (feature, d);
      assert known[i] == cycles[i];
    }
  }

  class Search {
    const edges: Graph
    var visited: set<Feature>
    var active: set<Feature>
    var stack: seq<Feature>
    var cycles: seq<seq<Feature>>
    /** The features whose visit has returned, in the order of return. */
    ghost var finished: seq<Feature>

    constructor (edges: Graph)
      ensures Valid() && this.edges == edges && stack == [] && cycles == []
    {
      this.edges := edges;
      visited, active, stack, cycles, finished := {}, {}, [], [], [];
    }

    ghost predicate Valid()
      reads this
    {
      && (forall f :: f in active <==> f in stack) && Distinct(stack) && IsWalk(edges, stack)
      && (forall f :: f in visited <==> f in active || f in finished)
      && (forall f :: f in finished ==> f !in active) && Distinct(finished)
      && AllCycles(edges, cycles) && ClosedOnce(cycles)
      && (forall i :: 0 <= i < |cycles| ==> |cycles[i]| >= 2 && Closing(cycles[i]).0 in visited)
      && Explained(edges, finished, cycles)
    }

    /** The cycles added since there were `known` close at a feature first visited since `seen`, or by `edge`. */
    ghost predicate NewCycles(known: nat, seen: set<Feature>, edge: (Feature, Feature))
      reads this
    {
      forall i :: known <= i < |cycles| ==>
        |cycles[i]| >= 2 && (Closing(cycles[i]).0 in visited - seen || Closing(cycles[i]) == edge)
    }

    method Report(feature: Feature)
      requires Valid() && feature in active && feature in Dependencies(edges, stack[|stack| - 1])
      requires !Reports(cycles, stack[|stack| - 1], feature)
      modifies this`cycles
      ensures Valid() && Prefix(old(cycles), cycles) && |cycles| == old(|cycles|) + 1
      ensures Closing(cycles[old(|cycles|)]) == (stack[|stack| - 1], feature)
    {
      var start := 0;
      while stack[start] != feature
        invariant 0 <= start < |stack| && feature in stack[start..]
        decreases |stack| - start
      {
        start := start + 1;
      }
      var cycle := stack[start..] + [feature];
      assert IsCycle(edges, cycle) by {
        forall i | 0 <= i < |cycle| - 1 ensures cycle[i + 1] in Dependencies(edges, cycle[i]) {
          if i < |cycle| - 2 { assert stack[start + i + 1] in Dependencies(edges, stack[start + i]); }
        }
        assert cycle[..|cycle| - 1] == stack[start..];
      }
      forall i | 0 <= i < |cycles| ensures Closing(cycles[i]) != Closing(cycle) {
        assert Closing(cycle) == (stack[|stack| - 1], feature);
      }
      ExplainedGrows(edges, finished, cycles, cycles + [cycle]);
      cycles := cycles + [cycle];
    }

    method Visit(feature: Feature)
      requires Valid() && feature in Features(edges)
      requires stack != [] ==> feature in Dependencies(edges, stack[|stack| - 1]) && !Reports(cycles, stack[|stack| - 1], feature)
      modifies this`visited, this`active, this`stack, this`cycles, this`finished
      ensures Valid() && stack == old(stack) && active == old(active)
      ensures old(visited) + {feature} <= visited
      ensures Prefix(old(cycles), cycles) && Extends(old(finished), finished)
      ensures feature in finished || (stack != [] && Reports(cycles, stack[|stack| - 1], feature))
      ensures stack != [] ==> NewCycles(old(|cycles|), old(visited), (stack[|stack| - 1], feature))
      decreases Features(edges) - visited, 0
    {
      if feature in active {
        Report(feature);
        return;
      }
      if feature in visited {
        return;
      }
      Enter(feature);
      Explore(feature);
      Leave(feature);
    }

    /** The loop over one feature's dependencies. */
    method Explore(feature: Feature)
      requires Valid() && feature in visited && stack != [] && stack[|stack| - 1] == feature
      requires forall d :: !Reports(cycles, feature, d)
      modifies this`visited, this`active, this`stack, this`cycles, this`finished
      ensures Valid() && stack == old(stack) && active == old(active)
      ensures old(visited) <= visited
      ensures Prefix(old(cycles), cycles) && Extends(old(finished), finished)
      ensures forall d :: d in Dependencies(edges, feature) ==> d in finished || Reports(cycles, feature, d)
      ensures forall i :: old(|cycles|) <= i < |cycles| ==>
                |cycles[i]| >= 2 && (Closing(cycles[i]).0 in visited - old(visited) || Closing(cycles[i]).0 == feature)
      decreases Features(edges) - visited, 1
    {
      var dependencies := Dependencies(edges, feature);
      var todo := dependencies;
      while todo != {}
        invariant todo <= dependencies && Valid() && stack == old(stack) && active == old(active)
        invariant old(visited) <= visited
        invariant Prefix(old(cycles), cycles) && Extends(old(finished), finished)
        invariant forall d :: d in dependencies - todo ==> d in finished || Reports(cycles, feature, d)
        invariant forall d :: d in todo ==> !Reports(cycles, feature, d)
        invariant forall i :: old(|cycles|) <= i < |cycles| ==>
                    |cycles[i]| >= 2 && (Closing(cycles[i]).0 in visited - old(visited) || Closing(cycles[i]).0 == feature)
      {
        var dependency :| dependency in todo;
        ghost var cyclesBefore, finishedBefore := cycles, finished;
        Visit(dependency);
        ExploredOne(cyclesBefore, cycles, finishedBefore, finished, feature, dependencies - todo, dependency);
        todo := todo - {dependency};
      }
    }

    method Enter(feature: Feature)
      requires Valid() && feature !in visited && feature !in active
      requires stack != [] ==> feature in Dependencies(edges, stack[|stack| - 1])
      modifies this`visited, this`active, this`stack
      ensures Valid() && visited == old(visited) + {feature} && active == old(active) + {feature} && stack == old(stack) + [feature]
      ensures forall d :: !Reports(cycles, feature, d)
    {
      visited := visited + {feature};
      active := active + {feature};
      stack := stack + [feature];
    }

    method Leave(feature: Feature)
      requires Valid() && stack != [] && stack[|stack| - 1] == feature
      requires forall d :: d in Dependencies(edges, feature) ==> d in finished || Reports(cycles, feature, d)
      modifies this`active, this`stack, this`finished
      ensures Valid() && active == old(active) - {feature} && stack == old(stack[..|stack| - 1])
      ensures finished == old(finished) + [feature]
    {
      ghost var path := stack;
      stack := stack[..|stack| - 1];
      active := active - {feature};
      assert IsWalk(edges, stack) by {
        forall i | 0 <= i < |stack| - 1 ensures stack[i + 1] in Dependencies(edges, stack[i]) {
          assert path[i + 1] in Dependencies(edges, path[i]);
        }
      }
      ExplainedFinish(edges, finished, cycles, feature);
      DistinctAppend(finished, feature);
      finished := finished + [feature];
    }
  }

  /** `findFeatureCycles`: visit the features in order. */
  method FindFeatureCycles(edges: Graph) returns (cycles: seq<seq<Feature>>)
    ensures AllCycles(edges, cycles)
    ensures ClosedOnce(cycles)
    ensures MeetsEveryClosedWalk(edges, cycles)
    ensures cycles == [] <==> Acyclic(edges)
  {
    var search := new Search(edges);
    var todo := edges.Keys;
    while todo != {}
      invariant todo <= edges.Keys && search.edges == edges && search.Valid() && search.stack == [] && fresh(search)
      invariant forall f :: f in edges && f !in todo ==> f in search.finished
    {
      LeastExists(todo);
      var feature :| IsLeast(todo, feature);
      ghost var before := search.finished;
      search.Visit(feature);
      forall f | f in before ensures f in search.finished {
        var j :| 0 <= j < |before| && before[j] == f;
        assert search.finished[j] == f;
      }
      todo := todo - {feature};
    }
    cycles := search.cycles;
    ClosedWalksAreMet(edges, search.finished, cycles);
    SilenceMeansAcyclic(edges, cycles);
  }
}
