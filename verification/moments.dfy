/** The moment estimation of `LD.LinearDiscriminant` (stat/lda.go:92-156):
    class counts, column means, class means, priors and their logarithms,
    and the pooled covariance matrix with its singularity check. Matrix
    entries are exact reals; float64 rounding is not modelled. */
module Moments {
  import opened Failures
  import opened ExtReal
  import opened Labels

  /** The tolerance of line 78; line 146 squares it before the comparison. */
  const Tol: real := 0.0001

  function Max(a: int, b: int): int { if a < b then b else a }
  function Min(a: int, b: int): int { if a < b then a else b }

  /** Go's integer `/`, which truncates toward zero. */
  function TruncDiv(a: int, b: int): (q: int)
    requires b != 0
    ensures 0 <= a && 0 < b ==> q == a / b
    ensures a < 0 < b ==> q == -((-a) / b)
  {
    var abs := (if a < 0 then -a else a) / (if b < 0 then -b else b);
    if (a < 0) == (b < 0) then abs else -abs
  }

  /** Truncated division: the remainder `a - q*b` is smaller than the
      divisor in absolute value and is never of the opposite sign to the
      dividend, which together fix `q`. */
  lemma TruncDivIsTruncation(a: int, b: int)
    requires b != 0
    ensures var rem := a - TruncDiv(a, b) * b;
      && (if rem < 0 then -rem else rem) < (if b < 0 then -b else b)
      && (a > 0 ==> rem >= 0)
      && (a < 0 ==> rem <= 0)
  {
    var big := if a < 0 then -a else a;
    var div := if b < 0 then -b else b;
    var q := big / div;
    var m := big % div;
    assert big == q * div + m && 0 <= m < div;
    if b > 0 {
      assert q * b == q * div;
    } else {
      assert q * b == -(q * div);
    }
    if a < 0 {
      assert a - TruncDiv(a, b) * b == -m;
    } else {
      assert a - TruncDiv(a, b) * b == m;
    }
  }

  lemma SmallQuotient(a: int, b: int)
    requires 0 <= a < b
    ensures a / b == 0
  {
  }

  // ---------------------------------------------------------------------
  // Specification functions

  /** How many of the first `m` labels are `c`. */
  ghost function Count(y: seq<int>, c: int, m: nat): nat
    requires m <= |y|
  {
    if m == 0 then 0 else Count(y, c, m - 1) + (if y[m - 1] == c then 1 else 0)
  }

  /** The counts of the classes 0..k-1 over the first `m` labels, added up. */
  ghost function SumCounts(y: seq<int>, k: nat, m: nat): nat
    requires m <= |y|
  {
    if k == 0 then 0 else SumCounts(y, k - 1, m) + Count(y, k - 1, m)
  }

  /** The sum of the first `m` entries of column `j`. */
  ghost function ColSum(x: array2<real>, j: int, m: nat): real
    reads x
    requires 0 <= j < x.Length1 && m <= x.Length0
  {
    if m == 0 then 0.0 else ColSum(x, j, m - 1) + x[m - 1, j]
  }

  /** The column means, `colmean` of lines 96-104. */
  ghost function ColMeans(x: array2<real>): (cm: seq<real>)
    reads x
    requires x.Length0 > 0
  {
    seq(x.Length1, j requires 0 <= j < x.Length1 reads x => ColSum(x, j, x.Length0) / (x.Length0 as real))
  }

  /** The sum of `x[i, j]` over the first `m` rows `i` of class `c`. */
  ghost function ClassSum(x: array2<real>, y: seq<int>, c: int, j: int, m: nat): real
    reads x
    requires 0 <= j < x.Length1 && m <= x.Length0 && m <= |y|
  {
    if m == 0 then 0.0
    else ClassSum(x, y, c, j, m - 1) + (if y[m - 1] == c then x[m - 1, j] else 0.0)
  }

  /** The product of the deviations from the column means of entries `a` and
      `b` of row `i`. */
  function Cross(x: array2<real>, cm: seq<real>, i: int, a: int, b: int): real
    reads x
    requires 0 <= i < x.Length0 && 0 <= a < x.Length1 && 0 <= b < x.Length1 && |cm| == x.Length1
  {
    (x[i, a] - cm[a]) * (x[i, b] - cm[b])
  }

  /** The scatter of columns `a` and `b` about the column means `cm`, over the
      first `m` rows of every class (lines 138-144 sum about the global means,
      not about the class means). */
  ghost function Scatter(x: array2<real>, cm: seq<real>, a: int, b: int, m: nat): real
    reads x
    requires 0 <= a < x.Length1 && 0 <= b < x.Length1 && |cm| == x.Length1 && m <= x.Length0
  {
    if m == 0 then 0.0 else Scatter(x, cm, a, b, m - 1) + Cross(x, cm, m - 1, a, b)
  }

  /** Entry (a, b) of the covariance matrix C after line 156: the lower
      triangle's scatter divided by n - k, mirrored to the upper triangle. */
  ghost function CovEntry(x: array2<real>, k: int, a: int, b: int): real
    reads x
    requires x.Length0 > k >= 0 && 0 <= a < x.Length1 && 0 <= b < x.Length1
  {
    Scatter(x, ColMeans(x), Max(a, b), Min(a, b), x.Length0) / ((x.Length0 - k) as real)
  }

  /** `j` is the first variable whose variance falls below tol*tol. */
  ghost predicate FirstNearSingular(x: array2<real>, k: int, j: int)
    reads x
    requires x.Length0 > k >= 0
  {
    0 <= j < x.Length1 && CovEntry(x, k, j, j) < Tol * Tol &&
    forall a :: 0 <= a < j ==> CovEntry(x, k, a, a) >= Tol * Tol
  }

  ghost predicate NoNearSingular(x: array2<real>, k: int)
    reads x
    requires x.Length0 > k >= 0
  {
    forall a :: 0 <= a < x.Length1 ==> CovEntry(x, k, a, a) >= Tol * Tol
  }

  /** The whole covariance matrix C after line 156, row by row. */
  ghost function Covariance(x: array2<real>, k: int): (m: seq<seq<real>>)
    reads x
    requires x.Length0 > k >= 0
  {
    seq(x.Length1, a requires 0 <= a < x.Length1 reads x =>
      seq(x.Length1, b requires 0 <= b < x.Length1 reads x => CovEntry(x, k, a, b)))
  }

  // ---------------------------------------------------------------------
  // Properties of the specification

  lemma {:induction false} SumCountsStep(y: seq<int>, k: nat, m: nat)
    requires m < |y|
    ensures SumCounts(y, k, m + 1) == SumCounts(y, k, m) + (if 0 <= y[m] < k then 1 else 0)
  {
    if k > 0 {
      SumCountsStep(y, k - 1, m);
    }
  }

  lemma {:induction false} NoCountsOfNothing(y: seq<int>, k: nat)
    ensures SumCounts(y, k, 0) == 0
  {
    if k > 0 {
      NoCountsOfNothing(y, k - 1);
    }
  }

  /** The class counts add up to the number of samples. */
  lemma {:induction false} CountsSumToLength(y: seq<int>, k: nat, m: nat)
    requires m <= |y|
    requires forall i :: 0 <= i < |y| ==> 0 <= y[i] < k
    ensures SumCounts(y, k, m) == m
  {
    if m > 0 {
      var m' := m - 1;
      CountsSumToLength(y, k, m');
      SumCountsStep(y, k, m');
      assert 0 <= y[m'] < k;
    } else {
      NoCountsOfNothing(y, k);
    }
  }

  lemma {:induction false} CountOfPresent(y: seq<int>, c: int, m: nat, i: nat)
    requires i < m <= |y| && y[i] == c
    ensures Count(y, c, m) >= 1
  {
    if m - 1 != i {
      CountOfPresent(y, c, m - 1, i);
    }
  }

  lemma {:induction false} TwoCountsBounded(y: seq<int>, c: int, d: int, m: nat)
    requires c != d && m <= |y|
    ensures Count(y, c, m) + Count(y, d, m) <= m
  {
    if m > 0 {
      TwoCountsBounded(y, c, d, m - 1);
    }
  }

  /** With dense labels and at least two classes, every class has at least
      one sample and fewer samples than the whole set. So `ni[i] / n` is 0
      and every prior of line 129 is 0. */
  lemma ClassCountBounds(y: seq<int>, k: int, c: int)
    requires DenseLabels(y, k) && k >= 2 && 0 <= c < k
    ensures 1 <= Count(y, c, |y|) < |y|
    ensures Count(y, c, |y|) / |y| == 0
  {
    var d := if c == 0 then 1 else 0;
    assert c in y && d in y;
    var i :| 0 <= i < |y| && y[i] == c;
    var i' :| 0 <= i' < |y| && y[i'] == d;
    CountOfPresent(y, c, |y|, i);
    CountOfPresent(y, d, |y|, i');
    TwoCountsBounded(y, c, d, |y|);
  }

  /** A variance is never negative. */
  lemma {:induction false} ScatterDiagonalNonNegative(x: array2<real>, cm: seq<real>, a: int, m: nat)
    requires 0 <= a < x.Length1 && |cm| == x.Length1 && m <= x.Length0
    ensures Scatter(x, cm, a, a, m) >= 0.0
  {
    if m > 0 {
      ScatterDiagonalNonNegative(x, cm, a, m - 1);
      var d := x[m - 1, a] - cm[a];
      assert Cross(x, cm, m - 1, a, a) == d * d;
    }
  }

  lemma {:induction false} ConstantColumnSum(x: array2<real>, j: int, v: real, m: nat)
    requires 0 <= j < x.Length1 && m <= x.Length0
    requires forall i :: 0 <= i < x.Length0 ==> x[i, j] == v
    ensures ColSum(x, j, m) == (m as real) * v
  {
    if m > 0 {
      ConstantColumnSum(x, j, v, m - 1);
      assert (m as real) * v == ((m - 1) as real) * v + v;
    }
  }

  lemma {:induction false} ZeroDeviationScatter(x: array2<real>, cm: seq<real>, j: int, m: nat)
    requires 0 <= j < x.Length1 && |cm| == x.Length1 && m <= x.Length0
    requires forall i :: 0 <= i < x.Length0 ==> x[i, j] == cm[j]
    ensures Scatter(x, cm, j, j, m) == 0.0
  {
    if m > 0 {
      ZeroDeviationScatter(x, cm, j, m - 1);
    }
  }

  /** A variable that is constant over all samples has variance 0, so the
      check of line 153 rejects it whatever the other variables hold. */
  lemma ConstantColumnIsNearSingular(x: array2<real>, k: int, j: int, v: real)
    requires x.Length0 > k >= 0 && 0 <= j < x.Length1
    requires forall i :: 0 <= i < x.Length0 ==> x[i, j] == v
    ensures CovEntry(x, k, j, j) == 0.0 && !NoNearSingular(x, k)
  {
    var n := x.Length0;
    ConstantColumnSum(x, j, v, n);
    var cm := ColMeans(x);
    assert cm[j] == ((n as real) * v) / (n as real);
    assert cm[j] == v;
    ZeroDeviationScatter(x, cm, j, n);
  }

  /** Line 151 mirrors every entry, so C is a symmetric p x p matrix. */
  lemma CovarianceIsSymmetric(x: array2<real>, k: int)
    requires x.Length0 > k >= 0
    ensures |Covariance(x, k)| == x.Length1
    ensures forall a :: 0 <= a < x.Length1 ==> |Covariance(x, k)[a]| == x.Length1
    ensures forall a, b :: 0 <= a < x.Length1 && 0 <= b < x.Length1 ==>
      Covariance(x, k)[a][b] == Covariance(x, k)[b][a]
  {
  }

  // ---------------------------------------------------------------------
  // The loops of LinearDiscriminant

  /** Lines 96-104: the mean of every column. */
  method ColumnMeans(x: array2<real>) returns (colmean: seq<real>)
    requires x.Length0 > 0
    ensures colmean == ColMeans(x)
  {
    colmean := [];
    var i := 0;
    while i < x.Length1
      invariant 0 <= i <= x.Length1
      invariant colmean == ColMeans(x)[..i]
    {
      var sum := 0.0;
      var r := 0;
      while r < x.Length0
        invariant 0 <= r <= x.Length0
        invariant sum == ColSum(x, i, r)
      {
        sum := sum + x[r, i];
        r := r + 1;
      }
      colmean := colmean + [sum / (x.Length0 as real)];
      i := i + 1;
    }
  }

  /** Lines 114-119: one pass over the rows counting each class into `ni`
      and adding each row into its class's row of `mu`. */
  method AccumulateClasses(x: array2<real>, y: seq<int>, ni: array<int>, mu: array2<real>)
    requires |y| == x.Length0 && mu.Length0 == ni.Length && mu.Length1 == x.Length1 && mu != x
    requires forall i :: 0 <= i < |y| ==> 0 <= y[i] < ni.Length
    requires forall c :: 0 <= c < ni.Length ==> ni[c] == 0
    requires forall c, j :: 0 <= c < mu.Length0 && 0 <= j < mu.Length1 ==> mu[c, j] == 0.0
    modifies ni, mu
    ensures forall c :: 0 <= c < ni.Length ==> ni[c] == Count(y, c, |y|)
    ensures forall c, j :: 0 <= c < mu.Length0 && 0 <= j < mu.Length1 ==> mu[c, j] == ClassSum(x, y, c, j, |y|)
  {
    var i := 0;
    while i < x.Length0
      invariant 0 <= i <= x.Length0
      invariant forall c :: 0 <= c < ni.Length ==> ni[c] == Count(y, c, i)
      invariant forall c, j :: 0 <= c < mu.Length0 && 0 <= j < mu.Length1 ==> mu[c, j] == ClassSum(x, y, c, j, i)
    {
      ni[y[i]] := ni[y[i]] + 1;
      var j := 0;
      while j < x.Length1
        invariant 0 <= j <= x.Length1
        invariant forall c :: 0 <= c < ni.Length ==> ni[c] == Count(y, c, i + 1)
        invariant forall c, l :: 0 <= c < mu.Length0 && 0 <= l < mu.Length1 ==>
          mu[c, l] == ClassSum(x, y, c, l, if c == y[i] && l < j then i + 1 else i)
      {
        mu[y[i], j] := mu[y[i], j] + x[i, j];
        j := j + 1;
      }
      i := i + 1;
    }
  }

  /** Lines 120-124: divide each class's sums by the class count. */
  method DivideByCounts(mu: array2<real>, ni: array<int>)
    requires mu.Length0 == ni.Length
    requires forall c :: 0 <= c < ni.Length ==> ni[c] > 0
    modifies mu
    ensures forall c, j :: 0 <= c < mu.Length0 && 0 <= j < mu.Length1 ==> mu[c, j] == old(mu[c, j]) / (ni[c] as real)
  {
    var i := 0;
    while i < mu.Length0
      invariant 0 <= i <= mu.Length0
      invariant forall c, j :: 0 <= c < mu.Length0 && 0 <= j < mu.Length1 ==>
        mu[c, j] == if c < i then old(mu[c, j]) / (ni[c] as real) else old(mu[c, j])
    {
      var j := 0;
      while j < mu.Length1
        invariant 0 <= j <= mu.Length1
        invariant forall c, l :: 0 <= c < mu.Length0 && 0 <= l < mu.Length1 ==>
          mu[c, l] == if c < i || (c == i && l < j) then old(mu[c, l]) / (ni[c] as real) else old(mu[c, l])
      {
        mu[i, j] := mu[i, j] / (ni[i] as real);
        j := j + 1;
      }
      i := i + 1;
    }
  }

  /** Lines 127-130: the priors, computed with Go's integer division before
      the conversion to float64. When every count is below n they are all 0. */
  method Priors(ni: array<int>, n: int) returns (priori: seq<real>)
    requires n != 0
    ensures |priori| == ni.Length
    ensures forall i :: 0 <= i < ni.Length ==> priori[i] == TruncDiv(ni[i], n) as real
    ensures (forall i :: 0 <= i < ni.Length ==> 0 <= ni[i] < n) ==> forall i :: 0 <= i < |priori| ==> priori[i] == 0.0
  {
    forall i | 0 <= i < ni.Length && 0 <= ni[i] < n ensures TruncDiv(ni[i], n) == 0 {
      SmallQuotient(ni[i], n);
    }
    priori := seq(ni.Length, _ => 0.0);
    var i := 0;
    while i < ni.Length
      invariant 0 <= i <= ni.Length && |priori| == ni.Length
      invariant forall c :: 0 <= c < i ==> priori[c] == TruncDiv(ni[c], n) as real
    {
      priori := priori[i := TruncDiv(ni[i], n) as real];
      i := i + 1;
    }
  }

  /** Lines 133-136: the constant term of each class's discriminant, the
      logarithm of its prior. */
  method LogPriors(ct: array<Ext>, priori: seq<real>, ln: real -> real)
    requires ct.Length == |priori|
    requires forall i :: 0 <= i < |priori| ==> priori[i] >= 0.0
    modifies ct
    ensures forall i :: 0 <= i < ct.Length ==> ct[i] == Log(ln, priori[i])
    ensures forall i :: 0 <= i < ct.Length ==> (ct[i] == NegInf <==> priori[i] == 0.0)
  {
    var i := 0;
    while i < ct.Length
      invariant 0 <= i <= ct.Length
      invariant forall c :: 0 <= c < i ==> ct[c] == Log(ln, priori[c])
    {
      ct[i] := Log(ln, priori[i]);
      i := i + 1;
    }
  }

  /** Lines 138-144: add, for every row, the products of the deviations from
      the column means into the lower triangle of C (entries with l <= j);
      the upper triangle stays 0. */
  method AccumulateScatter(x: array2<real>, cm: seq<real>, C: array2<real>)
    requires C != x && C.Length0 == x.Length1 && C.Length1 == x.Length1 && |cm| == x.Length1
    requires forall a, b :: 0 <= a < C.Length0 && 0 <= b < C.Length1 ==> C[a, b] == 0.0
    modifies C
    ensures forall a, b :: 0 <= b <= a < C.Length0 ==> C[a, b] == Scatter(x, cm, a, b, x.Length0)
    ensures forall a, b :: 0 <= a < b < C.Length0 ==> C[a, b] == 0.0
  {
    var p := x.Length1;
    var i := 0;
    while i < x.Length0
      invariant 0 <= i <= x.Length0
      invariant forall a, b :: 0 <= b <= a < p ==> C[a, b] == Scatter(x, cm, a, b, i)
      invariant forall a, b :: 0 <= a < b < p ==> C[a, b] == 0.0
    {
      var j := 0;
      while j < p
        invariant 0 <= j <= p
        invariant forall a, b :: 0 <= b <= a < p ==> C[a, b] == Scatter(x, cm, a, b, if a < j then i + 1 else i)
        invariant forall a, b :: 0 <= a < b < p ==> C[a, b] == 0.0
      {
        var l := 0;
        while l <= j
          invariant 0 <= l <= j + 1
          invariant forall a, b :: 0 <= b <= a < p ==>
            C[a, b] == Scatter(x, cm, a, b, if a < j || (a == j && b < l) then i + 1 else i)
          invariant forall a, b :: 0 <= a < b < p ==> C[a, b] == 0.0
        {
          C[j, l] := C[j, l] + Cross(x, cm, i, j, l);
          l := l + 1;
        }
        j := j + 1;
      }
      i := i + 1;
    }
  }

  /** Lines 146-156: divide each lower-triangle entry by n - k, copy it to
      the upper triangle, and after each row reject the variable if its
      variance is below tol*tol. On rejection the rows after it are left as
      they were. */
  method NormaliseCovariance(C: array2<real>, dof: int) returns (r: Outcome)
    requires C.Length0 == C.Length1 && dof > 0
    modifies C
    ensures r == Pass <==> forall a :: 0 <= a < C.Length0 ==> old(C[a, a]) / (dof as real) >= Tol * Tol
    ensures r.Fail? ==>
      && r.error.NearSingular?
      && r.error.feature < C.Length0
      && old(C[r.error.feature, r.error.feature]) / (dof as real) < Tol * Tol
      && forall a :: 0 <= a < r.error.feature ==> old(C[a, a]) / (dof as real) >= Tol * Tol
    ensures forall a, b :: 0 <= b <= a < C.Length0 ==>
      C[a, b] == if r.Pass? || a <= r.error.feature then old(C[a, b]) / (dof as real) else old(C[a, b])
    ensures forall a, b :: 0 <= a < b < C.Length0 ==>
      C[a, b] == if r.Pass? || b <= r.error.feature then old(C[b, a]) / (dof as real) else old(C[a, b])
    ensures r.Pass? ==> forall a, b :: 0 <= a < C.Length0 && 0 <= b < C.Length0 ==> C[a, b] == C[b, a]
  {
    var p := C.Length0;
    var d := dof as real;
    var tol := Tol * Tol;
    var j := 0;
    while j < p
      invariant 0 <= j <= p
      invariant forall a :: 0 <= a < j ==> old(C[a, a]) / d >= tol
      invariant forall a, b :: 0 <= b <= a < p ==> C[a, b] == if a < j then old(C[a, b]) / d else old(C[a, b])
      invariant forall a, b :: 0 <= a < b < p ==> C[a, b] == if b < j then old(C[b, a]) / d else old(C[a, b])
    {
      var l := 0;
      while l <= j
        invariant 0 <= l <= j + 1
        invariant forall a, b :: 0 <= b <= a < p ==>
          C[a, b] == if a < j || (a == j && b < l) then old(C[a, b]) / d else old(C[a, b])
        invariant forall a, b :: 0 <= a < b < p ==>
          C[a, b] == if b < j || (b == j && a < l) then old(C[b, a]) / d else old(C[a, b])
      {
        C[j, l] := C[j, l] / d;
        C[l, j] := C[j, l];
        l := l + 1;
      }
      if C[j, j] < tol {
        return Fail(NearSingular(j));
      }
      j := j + 1;
    }
    return Pass;
  }
}
