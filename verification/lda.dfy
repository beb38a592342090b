/** The `LD` receiver of stat/lda.go: fitting a linear discriminant
    analysis (`LinearDiscriminant`) and classifying a sample with it
    (`Predict`). */
module Lda {
  import opened Failures
  import opened ExtReal
  import opened Labels
  import opened Moments

  datatype Option<T> = None | Some(value: T)

  /** The state of `ld.eigen`: never factorised (or the last factorisation
      failed), or the factorisation of `matrix` with the eigenvalues
      `values`. The eigenvectors serve only `Transform`, which is not
      modelled. */
  datatype Eigen = Unfactorised | Factorised(matrix: seq<seq<real>>, values: seq<real>)

  /** The rows of a dense matrix. */
  function Rows(C: array2<real>): (m: seq<seq<real>>)
    reads C
    ensures |m| == C.Length0
    ensures forall a :: 0 <= a < C.Length0 ==> |m[a]| == C.Length1
    ensures forall a, b :: 0 <= a < C.Length0 && 0 <= b < C.Length1 ==> m[a][b] == C[a, b]
  {
    seq(C.Length0, a requires 0 <= a < C.Length0 reads C =>
      seq(C.Length1, b requires 0 <= b < C.Length1 reads C => C[a, b]))
  }

  /** The sum of lines 196-198, `ux[j] * ux[j] / |evals[j]|` over the first
      `m` eigenvalues, with the all-zero `ux` of line 188. */
  ghost function QuadraticTerm(evals: seq<real>, m: nat): (r: Ext)
    requires m <= |evals|
    ensures !r.NegInf?
  {
    if m == 0 then Fin(0.0)
    else Add(QuadraticTerm(evals, m - 1), Quotient(0.0, Abs(evals[m - 1])))
  }

  /** The quadratic term is 0, unless some eigenvalue is 0 and the sum is NaN. */
  lemma {:induction false} QuadraticTermIsZeroOrNaN(evals: seq<real>, m: nat)
    requires m <= |evals|
    ensures QuadraticTerm(evals, m) == if exists j :: 0 <= j < m && evals[j] == 0.0 then NaN else Fin(0.0)
  {
    if m > 0 {
      QuadraticTermIsZeroOrNaN(evals, m - 1);
      var term := Quotient(0.0, Abs(evals[m - 1]));
      assert term == if evals[m - 1] == 0.0 then NaN else Fin(0.0);
      var before := exists j :: 0 <= j < m - 1 && evals[j] == 0.0;
      var after := exists j :: 0 <= j < m && evals[j] == 0.0;
      assert after == (before || evals[m - 1] == 0.0) by {
        if after && !before {
          var j :| 0 <= j < m && evals[j] == 0.0;
          assert j == m - 1;
        }
      }
    }
  }

  /** `y` is the first class whose score no other score exceeds: the
      comparison `max < f` of line 200 keeps the earliest of equal maxima. */
  ghost predicate FirstMax(s: seq<Ext>, y: nat) {
    && y < |s|
    && (forall c :: 0 <= c < |s| ==> !Less(s[y], s[c]))
    && (forall c :: 0 <= c < y ==> Less(s[c], s[y]))
  }

  /** The eigen solver returns one eigenvalue per row of the matrix it
      factorises, as `mat.Eigen` does for a square matrix. */
  ghost predicate SquareSolver(factorize: seq<seq<real>> -> Option<seq<real>>) {
    forall m :: factorize(m).Some? ==> |factorize(m).value| == |m|
  }

  /** The samples and labels a fit accepts up to the covariance check. */
  ghost predicate Trainable(x: array2<real>, y: seq<int>, k: int) {
    |y| == x.Length0 && DenseLabels(y, k) && 2 <= k < |y|
  }

  class LD {
    var n: nat
    var p: nat
    var k: nat
    /** The constant term of each class's discriminant. */
    var ct: array<Ext>
    /** The mean vector of each class, one row per class; a nil `*mat.Dense`
        is the 0 x 0 matrix, which every access rejects as Go does. */
    var mu: array2<real>
    var eigen: Eigen

    /** The constant terms are logarithms of non-negative numbers, never NaN. */
    ghost predicate Valid()
      reads this, ct
    {
      forall c :: 0 <= c < ct.Length ==> !ct[c].NaN?
    }

    /** Every read `Predict` makes succeeds: the rows of `mu` (when there
        are variables), p eigenvalues, and the constant terms. */
    ghost predicate Consistent()
      reads this
    {
      k > 0 ==>
        && (p > 0 ==> k <= mu.Length0 && p <= mu.Length1)
        && eigen.Factorised? && |eigen.values| == p
        && k <= ct.Length
    }

    /** The discriminant score of class `c` computed at line 199. */
    ghost function Score(c: int): Ext
      reads this, ct
      requires 0 <= c < ct.Length && eigen.Factorised? && p <= |eigen.values|
    {
      Minus(ct[c], Half(QuadraticTerm(eigen.values, p)))
    }

    /** The scores of the first `m` classes. */
    ghost function Scores(m: nat): (s: seq<Ext>)
      reads this, ct
      requires m <= ct.Length && (m > 0 ==> eigen.Factorised? && p <= |eigen.values|)
      ensures |s| == m && forall c :: 0 <= c < m ==> s[c] == Score(c)
    {
      if m == 0 then [] else Scores(m - 1) + [Score(m - 1)]
    }

    /** Line 199 with the all-zero `ux`: when no eigenvalue is 0 each score
        is the class's constant term, and when one is, every score is NaN. */
    lemma ScoresAreConstantTerms()
      requires Valid() && Consistent() && k > 0
      ensures (forall j :: 0 <= j < p ==> eigen.values[j] != 0.0) ==> Scores(k) == ct[..k]
      ensures (exists j :: 0 <= j < p && eigen.values[j] == 0.0) ==> forall c :: 0 <= c < k ==> Scores(k)[c] == NaN
    {
      QuadraticTermIsZeroOrNaN(eigen.values, p);
      if forall j :: 0 <= j < p ==> eigen.values[j] != 0.0 {
        forall c | 0 <= c < k ensures Scores(k)[c] == ct[c] {
          assert Half(Fin(0.0)) == Fin(0.0);
        }
      }
    }

    /** After a successful fit every constant term is minus infinity (the
        priors of line 129 are 0), so all scores are equal and `Predict`
        returns class 0 whatever the input. */
    lemma FittedModelPredictsFirstClass(y: nat)
      requires Valid() && Consistent() && k > 0
      requires forall c :: 0 <= c < k ==> ct[c] == NegInf
      requires FirstMax(Scores(k), y)
      ensures y == 0
    {
      var s := Scores(k);
      assert s[y] == s[0] && !Less(s[0], s[0]);
    }

    /** The zero value `LD{}` of Go. */
    constructor ()
      ensures n == 0 && p == 0 && k == 0
      ensures ct.Length == 0 && mu.Length0 == 0 && mu.Length1 == 0 && eigen == Unfactorised
      ensures Valid() && Consistent()
    {
      n, p, k := 0, 0, 0;
      ct := new Ext[0];
      mu := new real[0, 0];
      eigen := Unfactorised;
    }

    /** Lines 36-165. A panic is a `Fail`, and the fields assigned before it
        keep their new values: n and p at line 37, k at line 80, mu at line
        113, ct at line 133, the eigen factorisation at line 162. `yNil`
        says the label slice is nil, which skips the size check of line 41.
        `ln` is `math.Log` on positive numbers and `factorize` the eigen
        solver of `mat.Eigen`, returning the eigenvalues when it succeeds. */
    method LinearDiscriminant(x: array2<real>, y: seq<int>, yNil: bool, ln: real -> real,
                              factorize: seq<seq<real>> -> Option<seq<real>>) returns (r: Outcome)
      requires yNil ==> y == []
      requires Valid()
      requires SquareSolver(factorize)
      modifies this
      ensures n == x.Length0 && p == x.Length1 && Valid()
      ensures r.Fail? ==> !r.error.IsPredictError() && r.error != NegativeLabel
      // lines 41-43
      ensures r == Fail(SizeMismatch) <==> !yNil && |y| != x.Length0
      // lines 44-75
      ensures r == Fail(EmptyLabels) <==> (yNil || |y| == x.Length0) && |y| == 0
      ensures r == Fail(LabelsNotFromZero) <==> |y| == x.Length0 && |y| > 0 && (0 !in y || HasNegative(y))
      ensures r == Fail(MissingClass) <==>
        |y| == x.Length0 && |y| > 0 && 0 in y && !HasNegative(y) && HasGap(y)
      ensures r.Fail? && r.error.IsLabelError() ==> k == old(k)
      ensures !(r.Fail? && r.error.IsLabelError()) ==> |y| == x.Length0 && |y| > 0 && DenseLabels(y, k)
      // lines 80-90
      ensures r == Fail(OneClass) <==> |y| == x.Length0 && |y| > 0 && DenseLabels(y, k) && k < 2
      ensures r == Fail(SampleTooSmall) <==>
        |y| == x.Length0 && |y| > 0 && DenseLabels(y, k) && 2 <= k && |y| <= k
      // line 108
      ensures r == Fail(ZeroDimension) <==> Trainable(x, y, k) && x.Length1 == 0
      // lines 146-156
      ensures r.Fail? && r.error.NearSingular? <==> Trainable(x, y, k) && x.Length1 > 0 && !NoNearSingular(x, k)
      ensures r.Fail? && r.error.NearSingular? ==> FirstNearSingular(x, k, r.error.feature)
      ensures r == Pass <==> Trainable(x, y, k) && x.Length1 > 0 && NoNearSingular(x, k)
      // lines 113-136: the class means and the constant terms
      ensures r == Pass || (r.Fail? && r.error.NearSingular?) ==>
        && fresh(mu) && fresh(ct)
        && Fitted(x, y)
      ensures !(r == Pass || (r.Fail? && r.error.NearSingular?)) ==> mu == old(mu) && ct == old(ct)
      // line 162
      ensures r == Pass ==>
        eigen == match factorize(Covariance(x, k))
                 case Some(ev) => Factorised(Covariance(x, k), ev)
                 case None => Unfactorised
      ensures r != Pass ==> eigen == old(eigen)
      ensures r == Pass ==> (Consistent() <==> factorize(Covariance(x, k)).Some?)
    {
      r := FitLabels(x, y, yNil);
      if r.Fail? {
        return;
      }
      var colmean;
      r, colmean := FitMeans(x, y, ln);
      if r.Fail? {
        return;
      }
      r := FitCovariance(x, y, colmean, factorize);
    }

    /** The class means and the constant terms a fit leaves behind: the
        mean of each variable over each class's samples, and the logarithm
        of a prior that the integer division of line 129 makes 0. */
    ghost predicate Fitted(x: array2<real>, y: seq<int>)
      reads this, x, mu, ct
    {
      && n == x.Length0 == |y|
      && mu.Length0 == k && mu.Length1 == p && ct.Length == k
      && (forall c :: 0 <= c < k ==> 1 <= Count(y, c, n) < n && ct[c] == NegInf)
      && forall c, j :: 0 <= c < k && 0 <= j < p && p <= x.Length1 ==>
           mu[c, j] == ClassSum(x, y, c, j, n) / (Count(y, c, n) as real)
    }

    /** Lines 37-90: the dimensions, the size check, the labels, k, and
        the checks on k. */
    method FitLabels(x: array2<real>, y: seq<int>, yNil: bool) returns (r: Outcome)
      requires yNil ==> y == []
      modifies this
      ensures n == x.Length0 && p == x.Length1
      ensures mu == old(mu) && ct == old(ct) && eigen == old(eigen)
      ensures r.Fail? ==> r.error.IsLabelError() || r.error == OneClass || r.error == SampleTooSmall
      ensures r.Fail? ==> r.error != NegativeLabel
      ensures r == Fail(SizeMismatch) <==> !yNil && |y| != x.Length0
      ensures r == Fail(EmptyLabels) <==> (yNil || |y| == x.Length0) && |y| == 0
      ensures r == Fail(LabelsNotFromZero) <==> |y| == x.Length0 && |y| > 0 && (0 !in y || HasNegative(y))
      ensures r == Fail(MissingClass) <==>
        |y| == x.Length0 && |y| > 0 && 0 in y && !HasNegative(y) && HasGap(y)
      ensures r.Fail? && r.error.IsLabelError() ==> k == old(k)
      ensures !(r.Fail? && r.error.IsLabelError()) ==> |y| == x.Length0 && |y| > 0 && DenseLabels(y, k)
      ensures r == Fail(OneClass) <==> |y| == x.Length0 && |y| > 0 && DenseLabels(y, k) && k < 2
      ensures r == Fail(SampleTooSmall) <==>
        |y| == x.Length0 && |y| > 0 && DenseLabels(y, k) && 2 <= k && |y| <= k
      ensures r == Pass <==> Trainable(x, y, k)
    {
      n, p := x.Length0, x.Length1;
      if !yNil && |y| != n {
        return Fail(SizeMismatch);
      }
      var indexed := IndexLabels(y);
      if indexed.Failure? {
        return Fail(indexed.error);
      }
      k := indexed.value;
      if k < 2 {
        return Fail(OneClass);
      }
      if n <= k {
        return Fail(SampleTooSmall);
      }
      return Pass;
    }

    /** Lines 92-136: the class counts, the column means, the refusal of a
        matrix without columns at line 108, the class means, the priors and
        the constant terms. */
    method FitMeans(x: array2<real>, y: seq<int>, ln: real -> real) returns (r: Outcome, colmean: seq<real>)
      requires Trainable(x, y, k) && n == x.Length0 && p == x.Length1
      modifies this
      ensures n == old(n) && p == old(p) && k == old(k) && eigen == old(eigen)
      ensures r == Pass || r == Fail(ZeroDimension)
      ensures r == Fail(ZeroDimension) <==> p == 0
      ensures r.Fail? ==> mu == old(mu) && ct == old(ct)
      ensures r == Pass ==> fresh(mu) && fresh(ct) && Fitted(x, y) && colmean == ColMeans(x) && Valid()
    {
      var ni := new int[k](_ => 0);
      colmean := ColumnMeans(x);
      if p == 0 {
        return Fail(ZeroDimension), colmean;
      }
      var means := new real[k, p]((c, j) => 0.0);
      mu := means;
      AccumulateClasses(x, y, ni, means);
      forall c | 0 <= c < ni.Length ensures ni[c] > 0 && 1 <= Count(y, c, n) < n {
        ClassCountBounds(y, k, c);
      }
      DivideByCounts(means, ni);
      var priori := Priors(ni, n);
      var logs := new Ext[k](_ => NegInf);
      ct := logs;
      LogPriors(logs, priori, ln);
      return Pass, colmean;
    }

    /** Lines 107-164: the pooled covariance matrix, its check against
        tol*tol, and its eigen factorisation. */
    method FitCovariance(x: array2<real>, y: seq<int>, colmean: seq<real>,
                         factorize: seq<seq<real>> -> Option<seq<real>>) returns (r: Outcome)
      requires Trainable(x, y, k) && n == x.Length0 && p == x.Length1 > 0
      requires colmean == ColMeans(x)
      modifies this
      ensures n == old(n) && p == old(p) && k == old(k) && mu == old(mu) && ct == old(ct)
      ensures r == Pass || r.error.NearSingular?
      ensures r.Fail? ==> FirstNearSingular(x, k, r.error.feature) && eigen == old(eigen)
      ensures r == Pass <==> NoNearSingular(x, k)
      ensures r == Pass ==>
        eigen == match factorize(Covariance(x, k))
                 case Some(ev) => Factorised(Covariance(x, k), ev)
                 case None => Unfactorised
    {
      var C := new real[p, p]((a, b) => 0.0);
      AccumulateScatter(x, colmean, C);
      ghost var scatter := Rows(C);
      var checked := NormaliseCovariance(C, n - k);
      if checked.Fail? {
        return checked;
      }
      CovarianceMatches(x, k, C, scatter);
      var m := Rows(C);
      eigen := match factorize(m)
               case Some(ev) => Factorised(m, ev)
               case None => Unfactorised;
      return Pass;
    }

    /** Lines 190-192: the deviation of `x` from the mean of class `i`, or
        false when `mu` has no such entry (a panic of `mu.At`). */
    method Deviation(x: seq<real>, i: nat, d: array<real>) returns (read: bool)
      requires |x| == p && d.Length == p
      modifies d
      ensures read <==> MeanRow(i)
      ensures read ==> forall j :: 0 <= j < p ==> d[j] == x[j] - mu[i, j]
    {
      var j := 0;
      while j < p
        invariant 0 <= j <= p
        invariant j > 0 ==> i < mu.Length0 && j <= mu.Length1
        invariant forall l :: 0 <= l < j ==> d[l] == x[l] - mu[i, l]
      {
        if i >= mu.Length0 || j >= mu.Length1 {
          return false;
        }
        d[j] := x[j] - mu[i, j];
        j := j + 1;
      }
      return true;
    }

    /** `mu.At(i, j)` can be read for every variable `j` (lines 190-192). */
    predicate MeanRow(i: nat)
      reads this
    {
      p == 0 || (i < mu.Length0 && p <= mu.Length1)
    }

    /** Lines 190-199: the discriminant score of class `i`, or the panic
        of the first read the receiver cannot serve: `mu.At` (line 191),
        `Eigen.Values` (line 195), then `ct[i]` (line 199). */
    method ClassScore(x: seq<real>, i: nat, d: array<real>, ux: seq<real>) returns (r: Result<Ext>)
      requires |x| == p && d.Length == p && |ux| == p
      requires forall j :: 0 <= j < |ux| ==> ux[j] == 0.0
      modifies d
      ensures r.Success? <==>
        && (p > 0 ==> i < mu.Length0 && p <= mu.Length1)
        && eigen.Factorised? && |eigen.values| == p
        && i < ct.Length
      ensures r.Success? ==> r.value == Score(i)
      ensures r.Failure? ==> r.error.IsPredictError() && r.error != InvalidInputSize
      ensures r == Failure(NotFactorised) <==> MeanRow(i) && !eigen.Factorised?
      ensures r == Failure(ShapeMismatch) <==> MeanRow(i) && eigen.Factorised? && |eigen.values| != p
      ensures r == Failure(OutOfRange) <==>
        !MeanRow(i) || (eigen.Factorised? && |eigen.values| == p && i >= ct.Length)
    {
      var read := Deviation(x, i, d);
      if !read {
        return Failure(OutOfRange);
      }
      if !eigen.Factorised? {
        return Failure(NotFactorised);
      }
      if |eigen.values| != p {
        return Failure(ShapeMismatch);
      }
      var f := QuadraticSum(ux, eigen.values);
      if i >= ct.Length {
        return Failure(OutOfRange);
      }
      return Success(Minus(ct[i], Half(f)));
    }

    /** Lines 181-206: the class with the largest discriminant score, the
        earliest on ties. A panic is a `Failure`; the reads of `mu`, of the
        eigenvalues and of `ct` panic on a receiver that was never fitted
        or whose fit failed part way. */
    method Predict(x: seq<real>) returns (r: Result<nat>)
      requires Valid()
      ensures r == Failure(InvalidInputSize) <==> |x| != p
      ensures r.Success? <==> |x| == p && Consistent()
      ensures r.Failure? ==> r.error.IsPredictError()
      ensures r.Success? && k == 0 ==> r.value == 0
      ensures r.Success? && k > 0 ==> FirstMax(Scores(k), r.value)
      // the eigenvalue reads fail alike for every class, so class 0 decides them
      ensures r == Failure(NotFactorised) <==> |x| == p && k > 0 && MeanRow(0) && !eigen.Factorised?
      ensures r == Failure(ShapeMismatch) <==>
        |x| == p && k > 0 && MeanRow(0) && eigen.Factorised? && |eigen.values| != p
      ensures r == Failure(OutOfRange) <==>
        |x| == p && k > 0 && (!MeanRow(0) || (eigen.Factorised? && |eigen.values| == p && !Consistent()))
    {
      if |x| != p {
        return Failure(InvalidInputSize);
      }
      var y: nat := 0;
      var max := NegInf;
      var d := new real[p](_ => 0.0);
      var ux := seq(p, _ => 0.0);
      var i := 0;
      while i < k
        invariant 0 <= i <= k
        invariant d.Length == p && |ux| == p
        invariant forall j :: 0 <= j < |ux| ==> ux[j] == 0.0
        invariant i > 0 ==>
          && (p > 0 ==> i <= mu.Length0 && p <= mu.Length1)
          && eigen.Factorised? && |eigen.values| == p
          && i <= ct.Length
        invariant Leading(Scores(i), max, y)
      {
        var scored := ClassScore(x, i, d, ux);
        if scored.Failure? {
          return Failure(scored.error);
        }
        var score := scored.value;
        ghost var before, leader, best := Scores(i), max, y;
        assert forall c :: 0 <= c < i ==> (before[c].NaN? <==> score.NaN?);
        if Less(max, score) {
          max := score;
          y := i;
        }
        LeadingStep(before, leader, best, score, max, y);
        assert Scores(i + 1) == before + [score];
        i := i + 1;
      }
      if k > 0 {
        LeadingIsFirstMax(Scores(k), max, y);
      }
      return Success(y);
    }
  }

  /** Lines 193-198: the quadratic term `f`, summed over the eigenvalues
      with the deviation `ux`, which nothing ever writes. */
  method QuadraticSum(ux: seq<real>, evals: seq<real>) returns (f: Ext)
    requires |ux| == |evals|
    requires forall j :: 0 <= j < |ux| ==> ux[j] == 0.0
    ensures f == QuadraticTerm(evals, |evals|)
  {
    f := Fin(0.0);
    var j := 0;
    while j < |evals|
      invariant 0 <= j <= |evals|
      invariant f == QuadraticTerm(evals, j)
    {
      var u := ux[j];
      var term := Quotient(Square(u), Abs(evals[j]));
      f := Add(f, term);
      j := j + 1;
    }
  }

  /** The state of the argmax of lines 185-204 after the scores `seen`:
      `max` and `y` hold the earliest largest score and its class, except
      that NaN scores (all of them or none, as they share the quadratic
      term) never replace the initial minus infinity and class 0. */
  ghost predicate Leading(seen: seq<Ext>, max: Ext, y: nat) {
    && !max.NaN?
    && (|seen| == 0 ==> y == 0 && max == NegInf)
    && (|seen| > 0 ==> y < |seen|)
    && (forall c :: 0 <= c < |seen| ==> !Less(max, seen[c]))
    && (|seen| > 0 && seen[0].NaN? ==> y == 0)
    && (|seen| > 0 && !seen[0].NaN? ==> max == seen[y] && forall c :: 0 <= c < y ==> Less(seen[c], seen[y]))
  }

  /** One step of the argmax keeps `Leading`. */
  lemma LeadingStep(seen: seq<Ext>, max: Ext, y: nat, score: Ext, max': Ext, y': nat)
    requires Leading(seen, max, y)
    requires forall c :: 0 <= c < |seen| ==> (seen[c].NaN? <==> score.NaN?)
    requires max' == (if Less(max, score) then score else max)
    requires y' == (if Less(max, score) then |seen| else y)
    ensures Leading(seen + [score], max', y')
  {
    var s := seen + [score];
    if Less(max, score) {
      forall c | 0 <= c < |seen| ensures Less(seen[c], score) {
        LessIsStrictTotalOrder(seen[c], max, score);
      }
      forall c | 0 <= c < |s| ensures !Less(score, s[c]) {
        LessIsStrictTotalOrder(s[c], score, s[c]);
      }
    } else if |seen| == 0 {
      LessIsStrictTotalOrder(NegInf, score, score);
    }
  }

  /** The first maximum is unique, so `Predict` is determined by the scores. */
  lemma FirstMaxIsUnique(s: seq<Ext>, y: nat, y': nat)
    requires FirstMax(s, y) && FirstMax(s, y')
    ensures y == y'
  {
    assert !Less(s[y], s[y']) && !Less(s[y'], s[y]);
  }

  lemma LeadingIsFirstMax(seen: seq<Ext>, max: Ext, y: nat)
    requires Leading(seen, max, y) && |seen| > 0
    requires forall c :: 0 <= c < |seen| ==> (seen[c].NaN? <==> seen[0].NaN?)
    ensures FirstMax(seen, y)
  {
  }

  /** After the normalisation of lines 148-156 passes, C is the
      covariance matrix of the samples. */
  lemma CovarianceMatches(x: array2<real>, k: int, C: array2<real>, scatter: seq<seq<real>>)
    requires x.Length0 > k >= 0 && C.Length0 == x.Length1 && C.Length1 == x.Length1
    requires |scatter| == C.Length0 && forall a :: 0 <= a < C.Length0 ==> |scatter[a]| == C.Length1
    requires forall a, b :: 0 <= b <= a < C.Length0 ==> scatter[a][b] == Scatter(x, ColMeans(x), a, b, x.Length0)
    requires forall a, b :: 0 <= b <= a < C.Length0 ==> C[a, b] == scatter[a][b] / ((x.Length0 - k) as real)
    requires forall a, b :: 0 <= a < b < C.Length0 ==> C[a, b] == scatter[b][a] / ((x.Length0 - k) as real)
    ensures Rows(C) == Covariance(x, k)
  {
    var m := Rows(C);
    var cov := Covariance(x, k);
    forall a | 0 <= a < C.Length0 ensures m[a] == cov[a] {
      forall b | 0 <= b < C.Length1 ensures m[a][b] == cov[a][b] {
        if b <= a {
          assert Max(a, b) == a && Min(a, b) == b;
        } else {
          assert Max(a, b) == b && Min(a, b) == a;
        }
      }
    }
  }
}
