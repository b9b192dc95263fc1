/** Small value types shared by the backend, its analytics helpers and the simulator. */
module Common {

  datatype Option<T> = None | Some(value: T)

  /** What a request handler answers: a payload, or the HTTP status code and error text it returns. */
  datatype Outcome<T> = Ok(value: T) | Err(code: nat, message: string)

  /** The 'high' / 'medium' / 'low' label given to a Q&A question. */
  datatype Priority = Low | Medium | High

  /** Position of a priority on the scale low < medium < high. */
  function Rank(p: Priority): nat
  {
    match p
    case Low => 0
    case Medium => 1
    case High => 2
  }

  /** The 'type' field of a generated insight. */
  datatype InsightKind = Strength | Weakness | Opportunity | Recommendation

  /** A generated insight: its type, its category and its confidence. The text is not modelled. */
  datatype Insight = Insight(kind: InsightKind, category: string, confidence: real)

  function Min(a: int, b: int): int { if a <= b then a else b }

  function Max(a: int, b: int): int { if a <= b then b else a }

  function MinReal(a: real, b: real): real { if a <= b then a else b }

  /** `a` can be obtained from `b` by dropping elements (order is kept). */
  predicate IsSubsequence<T(==)>(a: seq<T>, b: seq<T>)
    decreases |b|
  {
    a == [] ||
    (b != [] && if a[0] == b[0] then IsSubsequence(a[1..], b[1..]) else IsSubsequence(a, b[1..]))
  }

  /** Every element of a subsequence occurs in the longer sequence. */
  lemma {:induction false} SubsequenceMembers<T>(a: seq<T>, b: seq<T>)
    requires IsSubsequence(a, b)
    ensures |a| <= |b|
    ensures forall x :: x in a ==> x in b
    decreases |b|
  {
    if a != [] {
      if a[0] == b[0] {
        SubsequenceMembers(a[1..], b[1..]);
        assert a == [a[0]] + a[1..];
        assert b == [b[0]] + b[1..];
      } else {
        SubsequenceMembers(a, b[1..]);
        assert b == [b[0]] + b[1..];
      }
    }
  }

  /** Every sequence is a subsequence of itself. */
  lemma {:induction false} SubsequenceRefl<T>(a: seq<T>)
    ensures IsSubsequence(a, a)
    decreases |a|
  {
    if a != [] {
      SubsequenceRefl(a[1..]);
    }
  }

  /** Dropping a leading element of the longer sequence keeps a subsequence relation. */
  lemma {:induction false} SubsequenceCons<T>(a: seq<T>, x: T, b: seq<T>)
    requires IsSubsequence(a, b)
    ensures IsSubsequence(a, [x] + b) && IsSubsequence([x] + a, [x] + b)
  {
    assert ([x] + b)[1..] == b;
    assert ([x] + a)[1..] == a;
    if a != [] && a[0] == x {
      SubsequenceCons2(a, b);
    }
  }

  lemma {:induction false} SubsequenceCons2<T>(a: seq<T>, b: seq<T>)
    requires a != [] && IsSubsequence(a, b)
    ensures IsSubsequence(a[1..], b)
    decreases |b|, 1
  {
    if a[0] == b[0] {
      SubsequenceTail(a[1..], b);
    } else {
      SubsequenceCons2(a, b[1..]);
      SubsequenceTail(a[1..], b);
    }
  }

  lemma {:induction false} SubsequenceTail<T>(a: seq<T>, b: seq<T>)
    requires b != [] && IsSubsequence(a, b[1..])
    ensures IsSubsequence(a, b)
    decreases |b|, 0
  {
    if a != [] && a[0] == b[0] {
      SubsequenceCons2(a, b[1..]);
    }
  }

  /** A prefix of a subsequence is still a subsequence. */
  lemma {:induction false} SubsequencePrefix<T>(a: seq<T>, b: seq<T>, k: nat)
    requires IsSubsequence(a, b) && k <= |a|
    ensures IsSubsequence(a[..k], b)
    decreases |b|
  {
    if k > 0 {
      if a[0] == b[0] {
        SubsequencePrefix(a[1..], b[1..], k - 1);
        assert a[..k][1..] == a[1..][..k - 1];
      } else {
        SubsequencePrefix(a, b[1..], k);
      }
    }
  }

  /** A subsequence of a sequence whose elements have pairwise different keys has pairwise
      different keys too. */
  lemma {:induction false} SubsequenceKeysDistinct<T>(a: seq<T>, b: seq<T>, key: T -> int)
    requires IsSubsequence(a, b)
    requires forall i, j :: 0 <= i < j < |b| ==> key(b[i]) != key(b[j])
    ensures forall i, j :: 0 <= i < j < |a| ==> key(a[i]) != key(a[j])
    decreases |b|
  {
    if a != [] {
      var tail := b[1..];
      assert forall i, j :: 0 <= i < j < |tail| ==> key(tail[i]) != key(tail[j]) by {
        forall i, j | 0 <= i < j < |tail| ensures key(tail[i]) != key(tail[j]) {
          assert tail[i] == b[i + 1] && tail[j] == b[j + 1];
        }
      }
      if a[0] == b[0] {
        SubsequenceKeysDistinct(a[1..], tail, key);
        SubsequenceMembers(a[1..], tail);
        forall i, j | 0 <= i < j < |a| ensures key(a[i]) != key(a[j]) {
          assert a[j] == a[1..][j - 1] && a[j] in tail;
          if i == 0 {
            var m :| 0 <= m < |tail| && tail[m] == a[j];
            assert b[m + 1] == a[j];
          } else {
            assert a[i] == a[1..][i - 1];
          }
        }
      } else {
        SubsequenceKeysDistinct(a, tail, key);
      }
    }
  }

  /** Python's `[x for x in s if keep(x)]`. */
  function Filter<T(==)>(s: seq<T>, keep: T -> bool): (r: seq<T>)
    ensures forall i :: 0 <= i < |r| ==> r[i] in s && keep(r[i])
    ensures forall i :: 0 <= i < |s| && keep(s[i]) ==> s[i] in r
    ensures IsSubsequence(r, s)
    ensures (forall i :: 0 <= i < |s| ==> keep(s[i])) ==> r == s
    decreases |s|
  {
    if s == [] then []
    else
      var rest := Filter(s[1..], keep);
      assert s == [s[0]] + s[1..];
      SubsequenceCons(rest, s[0], s[1..]);
      if keep(s[0]) then [s[0]] + rest else rest
  }

  /** Index of the first occurrence of `x` in `s`, or `|s|` when there is none
      (Python's `next((e for e in s if e == x), None)`, as a position). */
  function IndexOf<T(==)>(s: seq<T>, x: T): (k: nat)
    ensures k <= |s|
    ensures k < |s| <==> x in s
    ensures k < |s| ==> s[k] == x
    ensures forall j :: 0 <= j < k ==> s[j] != x
    decreases |s|
  {
    if s == [] then 0 else if s[0] == x then 0 else 1 + IndexOf(s[1..], x)
  }

  /** A position holding `x` with no earlier `x` is the one `IndexOf` finds. */
  lemma IndexOfFirst<T>(s: seq<T>, x: T, i: int)
    requires 0 <= i < |s| && s[i] == x && forall j :: 0 <= j < i ==> s[j] != x
    ensures IndexOf(s, x) == i
  {
  }

  // ---------------------------------------------------------------- rates and conditional lists

  /** The facts about `x / a * 100` the rate formulas rely on. */
  lemma RateFacts(x: real, a: real)
    requires a != 0.0
    ensures (x / a * 100.0) * a == 100.0 * x
    ensures a > 0.0 && x >= 0.0 ==> x / a * 100.0 >= 0.0
    ensures a > 0.0 && x >= a ==> x / a * 100.0 >= 100.0
    ensures a > 0.0 && x <= a ==> x / a * 100.0 <= 100.0
  {
    var q := x / a;
    assert q * a == x;
    if a > 0.0 && x >= a {
      assert q >= 1.0;
    }
    if a > 0.0 && x <= a {
      assert q <= 1.0;
    }
  }

  /** Cancelling a positive factor keeps a strict inequality. */
  lemma ScaledLess(x: real, y: real, a: real)
    requires a > 0.0 && x * a < y * a
    ensures x < y
  {
  }

  /** `[x]` when `c` holds, `[]` otherwise: one conditional `append`. */
  function When<T>(c: bool, x: T): seq<T>
  {
    if c then [x] else []
  }

  /** Membership in `When(c, y) + rest`. */
  lemma InWhen<T>(x: T, c: bool, y: T, rest: seq<T>)
    ensures x in When(c, y) + rest <==> (c && x == y) || x in rest
  {
  }

  /** An optional copy of the catalogue's head in front of a list ordered by the
      catalogue's tail keeps the order. */
  lemma StepOrder<T>(c: bool, rest: seq<T>, catalogue: seq<T>)
    requires catalogue != [] && IsSubsequence(rest, catalogue[1..])
    ensures IsSubsequence(When(c, catalogue[0]) + rest, catalogue)
  {
    assert catalogue == [catalogue[0]] + catalogue[1..];
    SubsequenceCons(rest, catalogue[0], catalogue[1..]);
    if !c {
      assert When(c, catalogue[0]) + rest == rest;
    } else {
      assert When(c, catalogue[0]) + rest == [catalogue[0]] + rest;
    }
  }
}
