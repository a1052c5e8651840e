/** Undirected reachability over a finite edge table, and the recursive query that computes it.
    Both identity resolution and the contact merge plan group rows this way. */
module Reachability {
  import opened Orders

  type Id = nat
  type Link = (Id, Id)

  /** Both directions of every edge. */
  function Undirected(edges: set<Link>): (links: set<Link>)
    ensures forall a, b :: (a, b) in links <==> (a, b) in edges || (b, a) in edges
  {
    var reversed := set e | e in edges :: (e.1, e.0);
    assert forall a, b :: (a, b) in reversed <==> (b, a) in edges by {
      forall a, b | (b, a) in edges ensures (a, b) in reversed {
        assert ((b, a).1, (b, a).0) == (a, b);
      }
    }
    edges + reversed
  }

  ghost predicate Symmetric(links: set<Link>) {
    forall a, b :: (a, b) in links ==> (b, a) in links
  }

  ghost predicate Walk(links: set<Link>, walk: seq<Id>) {
    && |walk| > 0
    && forall i :: 0 <= i < |walk| - 1 ==> (walk[i], walk[i + 1]) in links
  }

  ghost predicate WalkBetween(links: set<Link>, a: Id, b: Id, walk: seq<Id>) {
    Walk(links, walk) && walk[0] == a && walk[|walk| - 1] == b
  }

  /** `a` and `b` lie on a common walk. */
  ghost predicate Joined(links: set<Link>, a: Id, b: Id) {
    exists walk :: WalkBetween(links, a, b, walk)
  }

  lemma JoinedSelf(links: set<Link>, a: Id)
    ensures Joined(links, a, a)
  {
    assert WalkBetween(links, a, a, [a]);
  }

  lemma JoinedLink(links: set<Link>, a: Id, b: Id)
    requires (a, b) in links
    ensures Joined(links, a, b)
  {
    assert WalkBetween(links, a, b, [a, b]);
  }

  lemma JoinedTransitive(links: set<Link>, a: Id, b: Id, c: Id)
    requires Joined(links, a, b) && Joined(links, b, c)
    ensures Joined(links, a, c)
  {
    var first :| WalkBetween(links, a, b, first);
    var second :| WalkBetween(links, b, c, second);
    var walk := first + second[1..];
    forall i | 0 <= i < |walk| - 1 ensures (walk[i], walk[i + 1]) in links {
      if i < |first| - 1 {
        assert (first[i], first[i + 1]) in links;
      } else {
        var j := i - (|first| - 1);
        assert walk[i] == second[j] && walk[i + 1] == second[j + 1];
      }
    }
    assert WalkBetween(links, a, c, walk);
  }

  lemma {:induction false} JoinedSymmetric(links: set<Link>, a: Id, b: Id)
    requires Symmetric(links) && Joined(links, a, b)
    ensures Joined(links, b, a)
  {
    var walk :| WalkBetween(links, a, b, walk);
    var n := |walk|;
    var back := seq(n, i requires 0 <= i < n => walk[n - 1 - i]);
    forall i | 0 <= i < n - 1 ensures (back[i], back[i + 1]) in links {
      assert (walk[n - 2 - i], walk[n - 1 - i]) in links;
    }
    assert WalkBetween(links, b, a, back);
  }

  /** Whatever every link preserves is the same at both ends of a walk. */
  lemma {:induction false} ConstantAlongWalk<T>(links: set<Link>, f: Id -> T, walk: seq<Id>)
    requires Walk(links, walk)
    requires forall a, b :: (a, b) in links ==> f(a) == f(b)
    ensures f(walk[0]) == f(walk[|walk| - 1])
  {
    if |walk| > 1 {
      var tail := walk[1..];
      assert (walk[0], walk[0 + 1]) in links;
      forall i | 0 <= i < |tail| - 1 ensures (tail[i], tail[i + 1]) in links {
        assert (walk[i + 1], walk[i + 1 + 1]) in links;
      }
      ConstantAlongWalk(links, f, tail);
    }
  }

  /** A relation that holds of `(a, a)` and is kept by every link holds of everything joined to `a`. */
  lemma {:induction false} ClosedUnderWalk(links: set<Link>, reach: set<Link>, a: Id, walk: seq<Id>)
    requires Walk(links, walk) && walk[0] == a && (a, a) in reach
    requires forall n, t :: (a, n) in reach && (n, t) in links ==> (a, t) in reach
    ensures (a, walk[|walk| - 1]) in reach
  {
    if |walk| > 1 {
      var shorter := walk[..|walk| - 1];
      assert Walk(links, shorter) by {
        forall i | 0 <= i < |shorter| - 1 ensures (shorter[i], shorter[i + 1]) in links {
          assert (walk[i], walk[i + 1]) in links;
        }
      }
      ClosedUnderWalk(links, reach, a, shorter);
      assert (walk[|walk| - 2], walk[|walk| - 2 + 1]) in links;
    }
  }

  /** One round of the recursive term: extend every pair found last round by one link. */
  function Extend(working: set<Link>, links: set<Link>): (next: set<Link>)
    ensures forall r, n, t :: (r, n) in working && (n, t) in links ==> (r, t) in next
    ensures forall r, t :: (r, t) in next ==> exists n :: (r, n) in working && (n, t) in links
  {
    var next := set p, l | p in working && l in links && l.0 == p.1 :: (p.0, l.1);
    assert forall r, n, t :: (r, n) in working && (n, t) in links ==> (r, t) in next by {
      forall r, n, t | (r, n) in working && (n, t) in links ensures (r, t) in next {
        assert (n, t).0 == (r, n).1;
        assert (r, t) == ((r, n).0, (n, t).1);
      }
    }
    next
  }

  /** All the pairs the query could ever hold. */
  ghost function Universe(nodes: set<Id>, links: set<Link>): (u: set<Link>)
    ensures forall r, n :: (r, n) in u <==> r in nodes && (n in nodes || exists m :: (m, n) in links)
  {
    var ends := nodes + set l | l in links :: l.1;
    assert forall n :: n in ends <==> n in nodes || exists m :: (m, n) in links by {
      forall m, n | (m, n) in links ensures n in ends { assert (m, n).1 == n; }
    }
    set r, n | r in nodes && n in ends :: (r, n)
  }

  /** Every pair found so far is a root with something joined to it. */
  ghost predicate Sound(nodes: set<Id>, links: set<Link>, reach: set<Link>) {
    forall r, n :: (r, n) in reach ==> r in nodes && Joined(links, r, n)
  }

  /** Pairs outside the working table have had all their links followed. */
  ghost predicate Explored(links: set<Link>, reach: set<Link>, working: set<Link>) {
    forall r, n, t :: (r, n) in reach && (r, n) !in working && (n, t) in links ==> (r, t) in reach
  }

  lemma RoundKeeps(nodes: set<Id>, links: set<Link>, reach: set<Link>, working: set<Link>, found: set<Link>)
    requires working <= reach <= Universe(nodes, links) && found == Extend(working, links) - reach
    requires Sound(nodes, links, reach) && Explored(links, reach, working)
    ensures found <= Universe(nodes, links)
    ensures Sound(nodes, links, reach + found) && Explored(links, reach + found, found)
  {
    forall r, t | (r, t) in found ensures r in nodes && Joined(links, r, t) && (r, t) in Universe(nodes, links) {
      var n :| (r, n) in working && (n, t) in links;
      JoinedLink(links, n, t);
      JoinedTransitive(links, r, n, t);
    }
    forall p | p in found ensures p in Universe(nodes, links) { assert (p.0, p.1) in found; }
  }

  lemma ClosureComplete(nodes: set<Id>, links: set<Link>, reach: set<Link>)
    requires Sound(nodes, links, reach) && Explored(links, reach, {})
    requires forall id :: id in nodes ==> (id, id) in reach
    ensures forall r: Id, n: Id :: (r, n) in reach <==> r in nodes && Joined(links, r, n)
  {
    forall r: Id, n: Id | r in nodes && Joined(links, r, n) ensures (r, n) in reach {
      var walk :| WalkBetween(links, r, n, walk);
      ClosedUnderWalk(links, reach, r, walk);
    }
  }

  /** The recursive `reach(root, node)` query: start from `(id, id)` for each node, add what is new
      until a round adds nothing. */
  method Reach(nodes: set<Id>, links: set<Link>) returns (reach: set<Link>)
    ensures forall r: Id, n: Id :: (r, n) in reach <==> r in nodes && Joined(links, r, n)
  {
    var working := set id | id in nodes :: (id, id);
    reach := working;
    forall r, n | (r, n) in reach ensures r in nodes && Joined(links, r, n) {
      JoinedSelf(links, r);
    }
    while working != {}
      invariant working <= reach <= Universe(nodes, links)
      invariant forall id :: id in nodes ==> (id, id) in reach
      invariant Sound(nodes, links, reach) && Explored(links, reach, working)
      decreases Universe(nodes, links) - reach, working
    {
      var found := Extend(working, links) - reach;
      RoundKeeps(nodes, links, reach, working, found);
      reach := reach + found;
      working := found;
    }
    ClosureComplete(nodes, links, reach);
  }

  /** The roots that reach `id`. */
  ghost function Roots(nodes: set<Id>, links: set<Link>, id: Id): set<Id> {
    set r | r in nodes && Joined(links, r, id)
  }

  /** The component identifier of `id`: its least root, `min(root) ... GROUP BY node`. */
  ghost function ComponentOf(nodes: set<Id>, links: set<Link>, id: Id): (c: Id)
    requires Roots(nodes, links, id) != {}
    ensures c in Roots(nodes, links, id) && forall r :: r in Roots(nodes, links, id) ==> c <= r
  {
    Min(Roots(nodes, links, id))
  }

  /** Two grouped ids carry the same component identifier exactly when a walk joins them. */
  lemma SameComponentIffJoined(nodes: set<Id>, links: set<Link>, a: Id, b: Id)
    requires Symmetric(links)
    requires Roots(nodes, links, a) != {} && Roots(nodes, links, b) != {}
    ensures ComponentOf(nodes, links, a) == ComponentOf(nodes, links, b) <==> Joined(links, a, b)
  {
    var ca, cb := ComponentOf(nodes, links, a), ComponentOf(nodes, links, b);
    if Joined(links, a, b) {
      JoinedSymmetric(links, a, b);
      JoinedTransitive(links, ca, a, b);
      JoinedTransitive(links, cb, b, a);
      assert ca in Roots(nodes, links, b) && cb in Roots(nodes, links, a);
    }
    if ca == cb {
      assert ca in Roots(nodes, links, a) && ca in Roots(nodes, links, b);
      JoinedSymmetric(links, ca, a);
      JoinedTransitive(links, a, ca, b);
    }
  }

  /** A component identifier belongs to its own component. */
  lemma RootNamesItself(nodes: set<Id>, links: set<Link>, id: Id)
    requires Symmetric(links) && Roots(nodes, links, id) != {}
    ensures var c := ComponentOf(nodes, links, id);
            c in nodes && Roots(nodes, links, c) != {} && ComponentOf(nodes, links, c) == c
  {
    var c := ComponentOf(nodes, links, id);
    JoinedSelf(links, c);
    assert c in Roots(nodes, links, c);
    SameComponentIffJoined(nodes, links, c, id);
  }

  /** `SELECT node, min(root) FROM reach GROUP BY node`. */
  method Components(nodes: set<Id>, edges: set<Link>) returns (component: map<Id, Id>)
    ensures forall id :: id in component <==> Roots(nodes, Undirected(edges), id) != {}
    ensures forall id :: id in component ==> component[id] == ComponentOf(nodes, Undirected(edges), id)
  {
    ghost var links := Undirected(edges);
    var reach := Reach(nodes, Undirected(edges));
    component := map[];
    var todo := reach;
    while todo != {}
      invariant todo <= reach
      invariant forall id :: id in component ==> (component[id], id) in reach - todo
      invariant forall r, id :: (r, id) in reach - todo ==> id in component && component[id] <= r
    {
      var pair :| pair in todo;
      var (root, node) := pair;
      if node !in component || root < component[node] {
        component := component[node := root];
      }
      todo := todo - {pair};
    }
    forall id | id in component ensures Roots(nodes, links, id) != {} && component[id] == ComponentOf(nodes, links, id) {
      assert component[id] in Roots(nodes, links, id);
      var c := ComponentOf(nodes, links, id);
      assert (c, id) in reach;
    }
    forall id | Roots(nodes, links, id) != {} ensures id in component {
      var r :| r in Roots(nodes, links, id);
      assert (r, id) in reach;
    }
  }
}
