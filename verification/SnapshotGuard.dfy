/** The guard of one session's group set: a discovery that shrinks it suspiciously is set aside until enough
    consecutive discoveries have found exactly the same groups. */
module SnapshotGuard {
  import opened Options

  type Group = nat

  datatype Config = Config(minBaseline: nat, dropRatio: real, confirmations: nat)
  {
    predicate Valid() { 2 <= confirmations && 0.0 <= dropRatio <= 1.0 }
  }

  /** `count` is the size of the last applied set. The fingerprint of a suspicious discovery is taken to
      be its set of ids. */
  datatype Guard = Guard(count: Option<nat>, suspect: Option<set<Group>>, confirmations: nat)

  const FRESH := Guard(None, None, 0)

  /** What one discovery found, and how many group rows the session had by then. */
  datatype Discovery = Discovery(groups: set<Group>, rows: nat)

  predicate IsSuspicious(c: Config, g: Guard, d: Discovery) {
    var baseline := if g.count.Some? then g.count.value else d.rows;
    baseline >= c.minBaseline && |d.groups| as real < baseline as real * c.dropRatio
  }

  function Confirmations(c: Config, g: Guard, d: Discovery): nat {
    if IsSuspicious(c, g, d) && g.suspect == Some(d.groups) then g.confirmations + 1 else 1
  }

  /** The discovery is set aside. */
  predicate IsDeferred(c: Config, g: Guard, d: Discovery) {
    IsSuspicious(c, g, d) && Confirmations(c, g, d) < c.confirmations
  }

  function After(c: Config, g: Guard, d: Discovery): Guard {
    if IsDeferred(c, g, d) then Guard(g.count, Some(d.groups), Confirmations(c, g, d))
    else Guard(Some(|d.groups|), None, 0)
  }

  // ---------------------------------------------------------------------------------------------
  // Histories of one session

  ghost predicate IsHistory(c: Config, guards: seq<Guard>, found: seq<Discovery>) {
    && |guards| == |found| + 1 && guards[0] == FRESH
    && forall i :: 0 <= i < |found| ==> guards[i + 1] == After(c, guards[i], found[i])
  }

  /** The last `k` of the first `n` discoveries were all set aside and found the same groups. */
  ghost predicate Repeats(c: Config, guards: seq<Guard>, found: seq<Discovery>, n: nat, k: nat)
    requires |guards| == |found| + 1 && k <= n <= |found|
  {
    forall i :: n - k <= i < n ==> IsDeferred(c, guards[i], found[i]) && found[i].groups == found[n - 1].groups
  }

  /** The stored counter is the length of the trailing run of identical discoveries set aside: they repeat
      that often, and not once more. */
  lemma {:induction false} CounterIsRunLength(c: Config, guards: seq<Guard>, found: seq<Discovery>, n: nat)
    requires IsHistory(c, guards, found) && n <= |found|
    ensures guards[n].confirmations <= n
    ensures Repeats(c, guards, found, n, guards[n].confirmations)
    ensures guards[n].confirmations < n ==> !Repeats(c, guards, found, n, guards[n].confirmations + 1)
    ensures guards[n].suspect == if guards[n].confirmations == 0 then None else Some(found[n - 1].groups)
  {
    if n > 0 {
      CounterIsRunLength(c, guards, found, n - 1);
      var g, d := guards[n - 1], found[n - 1];
      assert guards[n - 1 + 1] == After(c, g, d);
      if IsDeferred(c, g, d) {
        if g.suspect == Some(d.groups) {
          RunGrows(c, guards, found, n);
        } else {
          RunRestarts(c, guards, found, n);
        }
      } else {
        assert !Repeats(c, guards, found, n, 1) by { assert n - 1 <= n - 1 < n; }
      }
    }
  }

  lemma RunGrows(c: Config, guards: seq<Guard>, found: seq<Discovery>, n: nat)
    requires IsHistory(c, guards, found) && 1 < n <= |found|
    requires found[n - 2].groups == found[n - 1].groups && IsDeferred(c, guards[n - 1], found[n - 1])
    requires guards[n - 1].confirmations <= n - 1
    requires Repeats(c, guards, found, n - 1, guards[n - 1].confirmations)
    requires guards[n - 1].confirmations < n - 1 ==> !Repeats(c, guards, found, n - 1, guards[n - 1].confirmations + 1)
    ensures var k := guards[n - 1].confirmations + 1;
            Repeats(c, guards, found, n, k) && (k < n ==> !Repeats(c, guards, found, n, k + 1))
  {
    var k := guards[n - 1].confirmations + 1;
    if k < n && Repeats(c, guards, found, n, k + 1) {
      assert Repeats(c, guards, found, n - 1, k);
    }
  }

  lemma RunRestarts(c: Config, guards: seq<Guard>, found: seq<Discovery>, n: nat)
    requires IsHistory(c, guards, found) && 0 < n <= |found| && IsDeferred(c, guards[n - 1], found[n - 1])
    requires guards[n - 1].confirmations <= n - 1
    requires guards[n - 1].confirmations < n - 1 ==> !Repeats(c, guards, found, n - 1, guards[n - 1].confirmations + 1)
    requires guards[n - 1].suspect == if guards[n - 1].confirmations == 0 then None else Some(found[n - 2].groups)
    requires guards[n - 1].suspect != Some(found[n - 1].groups)
    ensures Repeats(c, guards, found, n, 1) && (1 < n ==> !Repeats(c, guards, found, n, 2))
  {
    if 1 < n {
      assert guards[n - 2 + 1] == After(c, guards[n - 2], found[n - 2]);
      assert n - 2 <= n - 2 < n;
    }
  }

  /** A discovery is applied exactly when it is not suspicious, or completes the configured number of
      consecutive discoveries, all suspicious and all of the same groups. */
  lemma AppliedIffConfirmed(c: Config, guards: seq<Guard>, found: seq<Discovery>, n: nat)
    requires c.Valid() && IsHistory(c, guards, found) && n < |found|
    ensures !IsDeferred(c, guards[n], found[n]) <==>
      || !IsSuspicious(c, guards[n], found[n])
      || (n + 1 >= c.confirmations && SameSince(c, guards, found, n, c.confirmations - 1))
  {
    CounterIsRunLength(c, guards, found, n);
    var k := guards[n].confirmations;
    if IsSuspicious(c, guards[n], found[n]) {
      if !IsDeferred(c, guards[n], found[n]) {
        assert k + 1 >= c.confirmations && guards[n].suspect == Some(found[n].groups);
        assert SameSince(c, guards, found, n, c.confirmations - 1);
      }
      if n + 1 >= c.confirmations && SameSince(c, guards, found, n, c.confirmations - 1) {
        LongerRun(c, guards, found, n, c.confirmations - 1);
      }
    }
  }

  /** The `k` discoveries before `n` were all set aside and found what discovery `n` found. */
  ghost predicate SameSince(c: Config, guards: seq<Guard>, found: seq<Discovery>, n: nat, k: nat)
    requires |guards| == |found| + 1 && k <= n < |found|
  {
    forall i :: n - k <= i < n ==> IsDeferred(c, guards[i], found[i]) && found[i].groups == found[n].groups
  }

  lemma LongerRun(c: Config, guards: seq<Guard>, found: seq<Discovery>, n: nat, k: nat)
    requires IsHistory(c, guards, found) && 0 < k <= n < |found| && SameSince(c, guards, found, n, k)
    ensures guards[n].suspect == Some(found[n].groups) && guards[n].confirmations >= k
  {
    CounterIsRunLength(c, guards, found, n);
    assert found[n - 1].groups == found[n].groups && IsDeferred(c, guards[n - 1], found[n - 1]);
    assert guards[n - 1 + 1] == After(c, guards[n - 1], found[n - 1]);
    if guards[n].confirmations < k {
      assert Repeats(c, guards, found, n, guards[n].confirmations + 1);
    }
  }

  // ---------------------------------------------------------------------------------------------
  // ... told from sizes

  /** Discovery `i` was set aside: the guard holds a suspect after it. */
  predicate IsSetAside(guards: seq<Guard>, i: nat)
    requires i + 1 < |guards|
  {
    guards[i + 1].suspect.Some?
  }

  /** `count` groups are less than the configured share of the baseline. */
  predicate IsSmallShare(c: Config, count: nat, baseline: nat) {
    count as real < baseline as real * c.dropRatio
  }

  /** What discovery `n` is measured by: the size of the last one applied, or the number of rows if there was none. */
  function Baseline(guards: seq<Guard>, found: seq<Discovery>, n: nat, rows: nat): nat
    requires |guards| == |found| + 1 && n <= |found|
  {
    if n == 0 then rows
    else if IsSetAside(guards, n - 1) then Baseline(guards, found, n - 1, rows)
    else |found[n - 1].groups|
  }

  lemma {:induction false} CountIsBaseline(c: Config, guards: seq<Guard>, found: seq<Discovery>, n: nat, rows: nat)
    requires IsHistory(c, guards, found) && n <= |found|
    ensures (if guards[n].count.Some? then guards[n].count.value else rows) == Baseline(guards, found, n, rows)
  {
    if n > 0 {
      CountIsBaseline(c, guards, found, n - 1, rows);
      assert guards[n - 1 + 1] == After(c, guards[n - 1], found[n - 1]);
    }
  }

  /** The `k` discoveries before `n` were set aside, and had found the groups that `n` did. */
  ghost predicate Agree(guards: seq<Guard>, found: seq<Discovery>, n: nat, k: nat)
    requires |guards| == |found| + 1 && k <= n < |found|
  {
    forall i :: n - k <= i < n ==> IsSetAside(guards, i) && found[i].groups == found[n].groups
  }

  lemma SetAsideIsDeferred(c: Config, guards: seq<Guard>, found: seq<Discovery>, i: nat)
    requires IsHistory(c, guards, found) && i < |found|
    ensures IsSetAside(guards, i) <==> IsDeferred(c, guards[i], found[i])
  {
    assert guards[i + 1] == After(c, guards[i], found[i]);
  }

  /** Where the last applied set was large enough to judge by, a discovery of less than the given share of it is
      set aside, unless it completes the required number of agreeing discoveries; every other one is applied. */
  lemma SmallDiscoveriesWait(c: Config, guards: seq<Guard>, found: seq<Discovery>, n: nat)
    requires c.Valid() && IsHistory(c, guards, found) && n < |found|
    ensures var baseline := Baseline(guards, found, n, found[n].rows);
            IsSetAside(guards, n) <==>
              && c.minBaseline <= baseline && IsSmallShare(c, |found[n].groups|, baseline)
              && !(n + 1 >= c.confirmations && Agree(guards, found, n, c.confirmations - 1))
  {
    SuspiciousBySize(c, guards, found, n);
    WaitsUnlessConfirmed(c, guards, found, n);
  }

  lemma SuspiciousBySize(c: Config, guards: seq<Guard>, found: seq<Discovery>, n: nat)
    requires IsHistory(c, guards, found) && n < |found|
    ensures var baseline := Baseline(guards, found, n, found[n].rows);
            IsSuspicious(c, guards[n], found[n]) <==>
              c.minBaseline <= baseline && IsSmallShare(c, |found[n].groups|, baseline)
  {
    var baseline := Baseline(guards, found, n, found[n].rows);
    CountIsBaseline(c, guards, found, n, found[n].rows);
    SuspiciousAgainst(c, guards[n], found[n], baseline);
  }

  lemma SuspiciousAgainst(c: Config, g: Guard, d: Discovery, baseline: nat)
    requires baseline == if g.count.Some? then g.count.value else d.rows
    ensures IsSuspicious(c, g, d) <==> c.minBaseline <= baseline && IsSmallShare(c, |d.groups|, baseline)
  {
  }

  lemma WaitsUnlessConfirmed(c: Config, guards: seq<Guard>, found: seq<Discovery>, n: nat)
    requires c.Valid() && IsHistory(c, guards, found) && n < |found|
    ensures IsSetAside(guards, n) <==>
      && IsSuspicious(c, guards[n], found[n])
      && !(n + 1 >= c.confirmations && Agree(guards, found, n, c.confirmations - 1))
  {
    SetAsideIsDeferred(c, guards, found, n);
    AppliedIffConfirmed(c, guards, found, n);
    if n + 1 >= c.confirmations { AgreeingIsSame(c, guards, found, n, c.confirmations - 1); }
  }

  lemma AgreeingIsSame(c: Config, guards: seq<Guard>, found: seq<Discovery>, n: nat, k: nat)
    requires IsHistory(c, guards, found) && k <= n < |found|
    ensures Agree(guards, found, n, k) <==> SameSince(c, guards, found, n, k)
  {
    forall i | n - k <= i < n ensures IsSetAside(guards, i) <==> IsDeferred(c, guards[i], found[i]) {
      SetAsideIsDeferred(c, guards, found, i);
    }
  }

  lemma ShareIsPositive(c: Config, baseline: nat)
    requires c.dropRatio > 0.0 && baseline > 0
    ensures IsSmallShare(c, 0, baseline)
  {
    ProductIsPositive(baseline as real, c.dropRatio);
  }

  lemma ProductIsPositive(a: real, b: real)
    requires a > 0.0 && b > 0.0
    ensures a * b > 0.0
  {
  }

  /** In particular an empty discovery never replaces a set that is large enough to judge by without confirmation. */
  lemma OutageIsSetAside(c: Config, guards: seq<Guard>, found: seq<Discovery>, n: nat)
    requires c.Valid() && IsHistory(c, guards, found) && n < |found| && found[n].groups == {} && c.dropRatio > 0.0
    requires 0 < c.minBaseline <= Baseline(guards, found, n, found[n].rows)
    requires n > 0 ==> found[n - 1].groups != {}
    ensures IsSetAside(guards, n)
  {
    var baseline := Baseline(guards, found, n, found[n].rows);
    ShareIsPositive(c, baseline);
    SmallDiscoveriesWait(c, guards, found, n);
  }
}
