/** Finite sets of naturals under their usual order. Row identifiers, text keys and lease tokens are
    all modelled as naturals, so `ORDER BY ... LIMIT n` and `min(...)` are read off this module. */
module Orders {

  predicate IsLeast(s: set<nat>, m: nat) {
    m in s && forall x :: x in s ==> m <= x
  }

  lemma {:induction false} LeastExists(s: set<nat>)
    requires s != {}
    ensures exists m :: IsLeast(s, m)
  {
    var x :| x in s;
    if s == {x} {
      assert IsLeast(s, x);
    } else {
      var rest := s - {x};
      assert rest != {};
      LeastExists(rest);
      var m :| IsLeast(rest, m);
      assert s == rest + {x};
      assert IsLeast(s, if x < m then x else m);
    }
  }

  /** The least element of a nonempty set. */
  ghost function Min(s: set<nat>): (m: nat)
    requires s != {}
    ensures IsLeast(s, m)
  {
    LeastExists(s);
    var m :| IsLeast(s, m);
    m
  }

  lemma LeastIsMin(s: set<nat>, m: nat)
    requires IsLeast(s, m)
    ensures Min(s) == m
  {
  }

  /** The first `n` elements of `s` in ascending order: a keyset page. */
  ghost function FirstN(s: set<nat>, n: nat): (page: seq<nat>)
    ensures |page| <= n
    ensures forall k :: k in page ==> k in s
  {
    if n == 0 || s == {} then [] else [Min(s)] + FirstN(s - {Min(s)}, n - 1)
  }

  /** A page is ascending, and what it leaves out lies beyond it; a short page leaves nothing out. */
  lemma {:induction false} PageCoversPrefix(s: set<nat>, n: nat)
    ensures var page := FirstN(s, n);
            && (forall i, j :: 0 <= i < j < |page| ==> page[i] < page[j])
            && (forall x :: x in s && x !in page ==> |page| == n && forall k :: k in page ==> k < x)
  {
    if n != 0 && s != {} {
      var least, rest, page := Min(s), FirstN(s - {Min(s)}, n - 1), FirstN(s, n);
      PageCoversPrefix(s - {least}, n - 1);
      assert page == [least] + rest;
      assert forall k :: k in rest ==> k in s && least < k;
      forall i, j | 0 <= i < j < |page| ensures page[i] < page[j] {
        assert page[j] == rest[j - 1] && page[j] in rest;
        if i > 0 { assert page[i] == rest[i - 1]; }
      }
      forall x | x in s && x !in page ensures |page| == n && forall k :: k in page ==> k < x {
        assert least in page;
        assert x in s - {least} && x !in rest;
      }
    }
  }

  function Lesser(a: nat, b: nat): nat { if a <= b then a else b }
  function Greater(a: nat, b: nat): nat { if a >= b then a else b }

  lemma SubsetCardinality<T>(a: set<T>, b: set<T>)
    requires a <= b
    ensures |a| <= |b|
  {
    assert b == a + (b - a);
  }

  lemma SameSize<T>(a: set<T>, b: set<T>)
    requires a <= b && |a| == |b|
    ensures a == b
  {
    assert b == a + (b - a);
  }
}
