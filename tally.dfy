/** Counting: the total of a string-keyed tally (a poll's `option_votes`, a breakdown dictionary)
    and the `{v: xs.count(v) for v in set(xs)}` breakdown the simulator builds. */
module Tally {

  /** Some key of a non-empty tally; a fixed choice, so that `Total` is a function. */
  ghost function Pick(m: map<string, int>): (k: string)
    requires m != map[]
    ensures k in m
  {
    var k :| k in m; k
  }

  /** Sum of the values of a tally (Python's `sum(m.values())`). */
  ghost function Total(m: map<string, int>): int
    decreases |m|
  {
    if m == map[] then 0
    else
      var k := Pick(m);
      assert |m - {k}| == |m| - 1 by { assert (m - {k}).Keys == m.Keys - {k}; }
      m[k] + Total(m - {k})
  }

  /** The total does not depend on which key is taken out first. */
  lemma {:induction false} TotalRemove(m: map<string, int>, k: string)
    requires k in m
    ensures Total(m) == m[k] + Total(m - {k})
    decreases |m|
  {
    var j := Pick(m);
    if j != k {
      assert (m - {k}).Keys == m.Keys - {k};
      assert (m - {j}).Keys == m.Keys - {j};
      TotalRemove(m - {j}, k);
      TotalRemove(m - {k}, j);
      assert (m - {j}) - {k} == (m - {k}) - {j};
    }
  }

  /** Python's `m[k] += 1` when `k in m`, `m[k] = 1` otherwise. */
  function Bump(m: map<string, int>, k: string): (r: map<string, int>)
    ensures r.Keys == m.Keys + {k}
    ensures r[k] == (if k in m then m[k] else 0) + 1
    ensures forall j :: j in m && j != k ==> r[j] == m[j]
  {
    m[k := (if k in m then m[k] else 0) + 1]
  }

  /** One bump adds exactly one to the total. */
  lemma TotalBump(m: map<string, int>, k: string)
    ensures Total(Bump(m, k)) == Total(m) + 1
  {
    var r := Bump(m, k);
    TotalRemove(r, k);
    if k in m {
      TotalRemove(m, k);
      assert r - {k} == m - {k};
    } else {
      assert r - {k} == m;
    }
  }

  /** A tally whose values are all zero totals zero. */
  lemma {:induction false} TotalZeros(m: map<string, int>)
    requires forall k :: k in m ==> m[k] == 0
    ensures Total(m) == 0
    decreases |m|
  {
    if m != map[] {
      var k := Pick(m);
      assert |m - {k}| == |m| - 1 by { assert (m - {k}).Keys == m.Keys - {k}; }
      TotalZeros(m - {k});
    }
  }

  /** A tally whose values are all non-negative has a non-negative total. */
  lemma {:induction false} TotalNonNegative(m: map<string, int>)
    requires forall k :: k in m ==> m[k] >= 0
    ensures Total(m) >= 0
    decreases |m|
  {
    if m != map[] {
      var k := Pick(m);
      assert |m - {k}| == |m| - 1 by { assert (m - {k}).Keys == m.Keys - {k}; }
      TotalNonNegative(m - {k});
    }
  }

  /** Python's `xs.count(v)`. */
  function Occurrences(xs: seq<string>, v: string): (n: nat)
    ensures n == 0 <==> v !in xs
    ensures n <= |xs|
  {
    if xs == [] then 0
    else (if xs[0] == v then 1 else 0) + Occurrences(xs[1..], v)
  }

  /** Python's `{v: xs.count(v) for v in set(xs)}`. */
  function Counts(xs: seq<string>): (m: map<string, int>)
    ensures m.Keys == set v | v in xs
    ensures forall v :: v in m ==> m[v] >= 1
  {
    map v | v in xs :: Occurrences(xs, v)
  }

  /** Adding one more observation to the front bumps that value's count. */
  lemma CountsCons(x: string, xs: seq<string>)
    ensures Counts([x] + xs) == Bump(Counts(xs), x)
  {
    var ys := [x] + xs;
    assert ys[1..] == xs;
    var l, r := Counts(ys), Bump(Counts(xs), x);
    assert l.Keys == r.Keys;
    forall v | v in l
      ensures l[v] == r[v]
    {
      assert Occurrences(ys, v) == (if x == v then 1 else 0) + Occurrences(xs, v);
    }
  }

  /** The counts of a breakdown add up to the number of observations. */
  lemma {:induction false} CountsTotal(xs: seq<string>)
    ensures Total(Counts(xs)) == |xs|
    decreases |xs|
  {
    if xs == [] {
      assert Counts(xs) == map[];
    } else {
      assert xs == [xs[0]] + xs[1..];
      CountsCons(xs[0], xs[1..]);
      CountsTotal(xs[1..]);
      TotalBump(Counts(xs[1..]), xs[0]);
    }
  }
}
