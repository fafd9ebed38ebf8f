/** Validator counts and the arithmetic of quorums (context.go). */
module Quorum {

  // A validator list is never empty.
  type pos = x: int | x >= 1 witness 1

  // Number of validators that may be faulty.
  function F(n: pos): nat {
    (n - 1) / 3
  }

  // Number of validators that must function correctly.
  function M(n: pos): nat {
    n - F(n)
  }

  // Go's integer remainder: the sign follows the dividend.
  function TruncMod(a: int, b: pos): int {
    if a >= 0 then a % b else -((-a) % b)
  }

  // The primary of a view; a negative remainder is shifted into the range of validator indices.
  function GetPrimaryIndex(height: nat, view: nat, n: pos): (p: nat)
    ensures p < n
  {
    var r := TruncMod(height - view, n);
    if r >= 0 then r else r + n
  }

  lemma MulAtLeast(k: int, b: nat)
    requires k >= 1
    ensures k * b >= b
  {
    assert k * b == (k - 1) * b + b;
    assert (k - 1) * b >= 0;
  }

  lemma ModUnique(a: int, b: pos, q: int, r: int)
    requires a == q * b + r && 0 <= r < b
    ensures a % b == r
  {
    var q' := a / b;
    assert a == q' * b + a % b;
    if q' > q {
      assert (q' - q) * b >= b by { MulAtLeast(q' - q, b); }
    } else if q' < q {
      assert (q - q') * b >= b by { MulAtLeast(q - q', b); }
    }
  }

  // The corrected truncating remainder is the mathematical modulus.
  lemma PrimaryIsModulus(height: nat, view: nat, n: pos)
    ensures GetPrimaryIndex(height, view, n) == (height - view) % n
  {
    var a := height - view;
    if a < 0 {
      var q, r := (-a) / n, (-a) % n;
      assert -a == q * n + r;
      if r == 0 {
        assert a == (-q) * n + 0;
        ModUnique(a, n, -q, 0);
      } else {
        assert a == (-q - 1) * n + (n - r);
        ModUnique(a, n, -q - 1, n - r);
      }
    }
  }

  lemma ModShift(a: int, n: pos)
    ensures (a - n) % n == a % n
  {
    var q, r := a / n, a % n;
    assert a - n == (q - 1) * n + r;
    ModUnique(a - n, n, q - 1, r);
  }

  lemma ModDistinct(a: int, b: int, n: pos)
    requires a < b < a + n
    ensures a % n != b % n
  {
    var qa, ra := a / n, a % n;
    var qb, rb := b / n, b % n;
    var d := qb - qa;
    assert b - a == d * n + (rb - ra);
    if d >= 1 {
      MulAtLeast(d, n);
    } else if d <= -1 {
      MulAtLeast(-d, n);
    }
  }

  // Any n consecutive views have n distinct primaries: the speaker role visits every validator in turn.
  lemma PrimaryRotates(height: nat, v: nat, w: nat, n: pos)
    requires v < w < v + n
    ensures GetPrimaryIndex(height, v, n) != GetPrimaryIndex(height, w, n)
    ensures GetPrimaryIndex(height, v + n, n) == GetPrimaryIndex(height, v, n)
  {
    PrimaryIsModulus(height, v, n);
    PrimaryIsModulus(height, w, n);
    PrimaryIsModulus(height, v + n, n);
    ModShift(height - v, n);
    ModDistinct(height - w, height - v, n);
  }

  function Indices(n: nat): (s: set<int>)
    ensures forall i :: i in s <==> 0 <= i < n
  {
    if n == 0 then {} else Indices(n - 1) + {n - 1}
  }

  lemma {:induction false} IndicesSize(n: nat)
    ensures |Indices(n)| == n
  {
    if n > 0 {
      IndicesSize(n - 1);
    }
  }

  lemma SubsetSize<T>(a: set<T>, b: set<T>)
    requires a <= b
    ensures |a| <= |b|
  {
    assert |b| == |a| + |b - a| by { assert b == a + (b - a); }
  }

  // Two quorums of n validators, whatever they are called, share at least N - 2F of them, which is more than F.
  lemma OverlapWithin(all: set<int>, n: pos, a: set<int>, b: set<int>)
    requires |all| == n && a <= all && b <= all && |a| >= M(n) && |b| >= M(n)
    ensures |a * b| >= n - 2 * F(n) >= F(n) + 1
  {
    SubsetSize(a + b, all);
    assert |a + b| == |a| + |b| - |a * b|;
  }

  lemma PickOutside<T>(s: set<T>, faulty: set<T>) returns (i: T)
    requires |s| > |faulty|
    ensures i in s && i !in faulty
  {
    if s <= faulty {
      SubsetSize(s, faulty);
    }
    i :| i in s && i !in faulty;
  }

  // With at most F faulty validators, two quorums share a correct one.
  lemma IntersectionWithin(all: set<int>, n: pos, a: set<int>, b: set<int>, faulty: set<int>) returns (i: int)
    requires |all| == n && a <= all && b <= all && |a| >= M(n) && |b| >= M(n) && |faulty| <= F(n)
    ensures i in a && i in b && i !in faulty
  {
    OverlapWithin(all, n, a, b);
    i := PickOutside(a * b, faulty);
  }

  lemma QuorumOverlap(n: pos, a: set<int>, b: set<int>)
    requires a <= Indices(n) && b <= Indices(n)
    requires |a| >= M(n) && |b| >= M(n)
    ensures |a * b| >= n - 2 * F(n) >= F(n) + 1
  {
    IndicesSize(n);
    OverlapWithin(Indices(n), n, a, b);
  }

  lemma QuorumIntersection(n: pos, a: set<int>, b: set<int>, faulty: set<int>) returns (i: int)
    requires a <= Indices(n) && b <= Indices(n)
    requires |a| >= M(n) && |b| >= M(n) && |faulty| <= F(n)
    ensures i in a && i in b && i !in faulty
  {
    IndicesSize(n);
    i := IntersectionWithin(Indices(n), n, a, b, faulty);
  }

  // At least N - 2F members of a quorum are correct.
  lemma CorrectMembers(n: pos, a: set<int>, faulty: set<int>)
    requires |a| >= M(n) && |faulty| <= F(n)
    ensures |a - faulty| >= n - 2 * F(n) >= F(n) + 1
  {
    SubsetSize(a * faulty, faulty);
    assert |a - faulty| == |a| - |a * faulty|;
  }

  // ---- what F and M are for ----

  /** F is the largest number of faulty validators that is less than a third of all. */
  lemma FaultyIsLessThanAThird(n: pos)
    ensures forall f: nat :: 3 * f < n <==> f <= F(n)
  {
  }

  /** M is the largest number that can always be reached while F validators are silent. */
  lemma QuorumIsReachable(n: pos, silent: set<int>, q: nat)
    requires silent <= Indices(n) && |silent| <= F(n)
    ensures |Indices(n) - silent| >= M(n)
    ensures (forall s: set<int> | s <= Indices(n) && |s| <= F(n) :: |Indices(n) - s| >= q) <==> q <= M(n)
  {
    IndicesSize(n);
    IndicesSize(F(n));
    var few := Indices(F(n));
    assert few <= Indices(n);
    forall s: set<int> | s <= Indices(n)
      ensures |Indices(n) - s| == n - |s|
    {
      assert Indices(n) == s + (Indices(n) - s);
    }
  }

  lemma SizeAbove(n: nat, k: nat)
    requires k <= n
    ensures Indices(k) <= Indices(n) && |Indices(n) - Indices(k)| == n - k
  {
    IndicesSize(n);
    IndicesSize(k);
    assert Indices(n) == Indices(k) + (Indices(n) - Indices(k));
  }

  /** With one validator less than a quorum, two groups may have none but faulty ones in common, when n = 3F + 1. */
  lemma FewerDoNotOverlap(n: pos) returns (a: set<int>, b: set<int>)
    requires n == 3 * F(n) + 1
    ensures a <= Indices(n) && b <= Indices(n) && |a| == |b| == M(n) - 1 && |a * b| <= F(n)
  {
    hide Indices;
    var f := F(n);
    a, b := Indices(2 * f), Indices(n) - Indices(f + 1);
    SizeAbove(n, f + 1);
    SizeAbove(n, 2 * f);
    IndicesSize(2 * f);
    if f >= 1 {
      SizeAbove(2 * f, f + 1);
      assert a * b == Indices(2 * f) - Indices(f + 1);
    } else {
      assert a == {};
    }
  }
}
