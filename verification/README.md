# Linear discriminant analysis (`stat/lda.go`), modelled in Dafny

The Go type `LD` fits a linear discriminant analysis to an n x p sample
matrix `x` with class labels `y` (`LinearDiscriminant`), and classifies a
vector with the fitted model (`Predict`). This project models both
operations as methods of a Dafny class `LD` with the Go struct's fields:

- `n`, `p` and `k`;
- `ct`, the constant term of each class's discriminant;
- `mu`, the class means;
- `eigen`, the eigen factorisation of the pooled covariance.

It proves what each stage computes.

- **Labels.** The distinct labels are collected with a linear search and
  sorted. They are accepted exactly when they are the dense range `0..k-1`.
  A nil or empty label slice, a smallest label other than 0, and a gap are
  each rejected. Every later index `y[i]` is then in range.
- **Moments.**
  - `ni[c]` counts class `c`, and the counts add up to n.
  - `mu[c, j]` is the mean of variable `j` over class `c`.
  - The priors use Go's integer division `ni[i] / n`. So every prior is 0
    and every `ct[i]` is `log 0`, minus infinity.
  - The covariance accumulates the lower triangle only. It is then divided
    by n - k and mirrored, so it is symmetric.
  - The first variable whose variance is below `tol*tol` is rejected. A
    constant variable always is.
- **Prediction.**
  - An input of the wrong length is rejected.
  - A read the receiver cannot serve panics, and the model names which:
    `mu.At` out of range, `Eigen.Values` without a factorisation or with a
    destination of the wrong length, or `ct[i]` out of range.
  - Otherwise the result is the first class with the largest score, and it
    is unique.
  - Each score is the class's constant term, or NaN when an eigenvalue is
    0, because the quadratic term sums the all-zero `ux`.
  - After a successful fit every score is equal, so `Predict` returns
    class 0.

A Go panic is modelled as a returned error kind (`Failures.LdaError`). The
fields assigned before the panic keep their new values, as in Go:

- `n` and `p` at line 37;
- `k` at line 80;
- `mu` at line 113;
- `ct` at line 133;
- `eigen` at line 162.

Numbers are exact reals. Minus infinity and NaN are explicit values of
`ExtReal.Ext`, and the float operations the scores use are defined on it
with IEEE 754 semantics restricted to the values that can occur:

- `ExtReal.Add` is float addition: NaN absorbs everything, then minus
  infinity absorbs finite numbers, otherwise the real sum.
- `ExtReal.Minus` is float subtraction of a value that is not minus
  infinity; `ExtReal.Half` is the product `0.5 * f`.
- `ExtReal.Quotient` is the division `u*u / |e|` of line 197; `0 / 0` is NaN.
- `ExtReal.Log` is `math.Log` of a non-negative number: minus infinity at 0.
- `Moments.TruncDiv` is Go's integer `/`, which truncates toward zero.

Modules: `Failures` (error kinds), `ExtReal` (the float values and
operations the scores use), `Labels` (lines 44-80), `Moments` (lines
92-156), `Lda` (the class `LD`, lines 16-24, 36-165 and 181-207; the size
check of lines 41-43 and the checks on k of lines 82-90 are in
`Lda.LD.FitLabels`).

Facts about the code that the model keeps as written:

- `ni[i] / n` (line 129) is Go integer division, so every prior is 0
  rather than the fraction of samples in class `i`, and every constant
  term `ct[i]` is `log 0`, minus infinity.
- The quadratic term of `Predict` (lines 196-198) sums the all-zero vector
  `ux`, so the deviation `d` of lines 190-192 is computed and never used.
- The result of the eigen factorisation (line 162) is ignored. A failed
  factorisation does not fail the fit, which reports success, and
  `Predict` later panics.
- The covariance (lines 138-144) is the scatter about the global column
  means, not about the class means.
- After a failed fit the receiver keeps a partial state. `Predict` on it
  either panics or answers from the old and new fields mixed.
- The near-singular panic of line 154 passes its message to `panic`
  unformatted, so every near-singular fit panics with the same string,
  holding a literal `%d`. The variable number in
  `Failures.LdaError.NearSingular` is the model's own record of where the
  loop of lines 148-156 stopped; no caller of the Go code can learn it.
- A receiver that was never fitted has p = k = 0. `Predict` on it answers
  class 0 for the empty vector, since the loop of lines 185-204 never runs,
  and rejects every other length.
- The "Negative class label" panic (lines 69-71) can never fire: `labels`
  is sorted, and a first label other than 0 has already panicked at line
  66, so no label is negative. `Lda.LD.LinearDiscriminant` proves that this
  error is never returned, and `Labels.FirstLabelIsZero` gives the reason.

## Model

| member | source | states |
|---|---|---|
| Labels.UniqueLabels | stat/lda.go:44-59 | the labels collected hold every value of `y` and nothing else, each exactly once |
| Labels.SortInts | stat/lda.go:62 | `sort.Ints` returns a sorted permutation of its input |
| Labels.InsertKeepsSorted | stat/lda.go:62 | inserting into a sorted list keeps it sorted and adds exactly the element |
| Labels.SortDistinctIsStrict | stat/lda.go:62 | sorting distinct labels gives a strictly increasing list with the same values and length |
| Labels.ValidateLabels | stat/lda.go:65-75 | the checks pass exactly when the labels start at 0, are non-negative and rise by at most 1; the empty and not-from-zero panics fire exactly on their conditions, and otherwise the scan reports the first offending label: negative, or more than 1 above its predecessor |
| Labels.AcceptedIsRange | stat/lda.go:65-75 | a strictly sorted label list passes the checks if and only if it is exactly `0, 1, ..., k-1` |
| Labels.GapIsMissingValue | stat/lda.go:72-74 | a step of more than 1 between sorted labels means the value below the larger label is missing |
| Labels.DenseIsAccepted | stat/lda.go:65-75 | labels forming a dense range `0..k-1` pass every check |
| Labels.FirstLabelIsZero | stat/lda.go:62-67 | the smallest label is non-zero exactly when 0 is absent or some label is negative, and a negative label always fails here first |
| Labels.RangeLabelsAreDense | stat/lda.go:44-75 | accepted labels make every `y[i]` lie in `0..k-1` and every class occur |
| Labels.RejectedLabelsHaveGap | stat/lda.go:72-74 | the missing-class panic means some label above 0 has no predecessor in `y` |
| Labels.DenseLabelsAccepted | stat/lda.go:44-75 | labels that are dense in `0..k-1` are accepted with exactly k classes |
| Labels.IndexLabels | stat/lda.go:44-80 | the label stage yields k exactly when `y` is non-empty and dense in `0..k-1`, and reports the empty, not-from-zero and missing-class panics exactly on their conditions |
| Moments.TruncDivIsTruncation | stat/lda.go:129 | Go's integer `/` truncates toward zero: `a = q*b + rem` with the remainder smaller than the divisor in absolute value and of the sign of `a` |
| Moments.CountsSumToLength | stat/lda.go:114-115 | with labels in `0..k-1` the class counts add up to the number of samples |
| Moments.ClassCountBounds | stat/lda.go:114-130 | with dense labels and at least two classes every class has at least one sample and fewer than n, so each prior `ni[i] / n` is 0 |
| Moments.ScatterDiagonalNonNegative | stat/lda.go:138-144 | the accumulated variance of a variable is never negative |
| Moments.ConstantColumnIsNearSingular | stat/lda.go:146-156 | a variable constant over all samples has variance 0 and makes the tolerance check fail |
| Moments.CovarianceIsSymmetric | stat/lda.go:148-152 | the covariance matrix is a symmetric p x p matrix |
| Moments.ColumnMeans | stat/lda.go:96-104 | `colmean[j]` is the mean of column `j` |
| Moments.AccumulateClasses | stat/lda.go:114-119 | after one pass `ni[c]` is the number of samples of class `c` and `mu[c, j]` the sum of variable `j` over them |
| Moments.DivideByCounts | stat/lda.go:120-124 | every class sum is divided by its class count |
| Moments.Priors | stat/lda.go:127-130 | each prior is the truncated integer quotient `ni[i] / n`, and all are 0 when every count is below n |
| Moments.LogPriors | stat/lda.go:133-136 | each constant term is the logarithm of its prior, minus infinity exactly when the prior is 0 |
| Moments.AccumulateScatter | stat/lda.go:138-144 | the lower triangle holds the scatter of each pair of variables about the column means; the upper triangle stays 0 |
| Moments.NormaliseCovariance | stat/lda.go:146-156 | it fails exactly when some variance is below tol*tol, and the loop stops at the first such variable; entries are divided by n - k and mirrored up to that row, and the later rows are untouched; on success C is symmetric |
| ExtReal.LessIsStrictTotalOrder | stat/lda.go:200 | the float `<` is a strict total order on non-NaN values, with nothing below minus infinity and NaN comparable to nothing |
| Lda.QuadraticTerm | stat/lda.go:193-198 | the summed quadratic term is never minus infinity |
| Lda.QuadraticTermIsZeroOrNaN | stat/lda.go:188-198 | with the all-zero `ux` the quadratic term is 0, or NaN exactly when some eigenvalue is 0 |
| Lda.QuadraticSum | stat/lda.go:193-198 | the loop computes the quadratic term over all p eigenvalues |
| Lda.LeadingStep | stat/lda.go:200-203 | one step of the strict-`<` argmax keeps the earliest largest score and its class |
| Lda.LeadingIsFirstMax | stat/lda.go:185-205 | when the loop ends, the class held is the first class with the largest score |
| Lda.FirstMaxIsUnique | stat/lda.go:200-205 | at most one class is the first with the largest score |
| Lda.CovarianceMatches | stat/lda.go:138-156 | after normalisation the matrix C is the scatter divided by n - k, mirrored: the covariance matrix |
| Lda.LD.constructor | stat/lda.go:16-24 | the zero value `LD{}`: no dimensions, no classes, nil matrices, no factorisation |
| Lda.LD.LinearDiscriminant | stat/lda.go:36-165 | each panic fires exactly on its condition on `x` and `y`, the fields set before it keep their values, and a success leaves the class means, minus-infinity constant terms and the factorisation of the symmetric covariance; `Predict` can then serve every read exactly when the factorisation succeeded |
| Lda.LD.FitLabels | stat/lda.go:37-90 | the size check, the label checks, k, and the one-class and too-few-samples panics, each exactly on its condition |
| Lda.LD.FitMeans | stat/lda.go:92-136 | fails exactly when p = 0 (line 108); otherwise the class means, counts and constant terms are as computed |
| Lda.LD.FitCovariance | stat/lda.go:107-164 | fails exactly when some variance is below tol*tol, stopping at the first such variable; on success `eigen` factorises the covariance |
| Lda.LD.Deviation | stat/lda.go:190-192 | `d` is `x` minus the class mean, or a panic exactly when `mu` lacks the row or a column |
| Lda.LD.ClassScore | stat/lda.go:190-199 | the score of class i, or the panic of the first read that fails, in Go's order: `OutOfRange` exactly when `mu` lacks the row or a column, else `NotFactorised` exactly when there is no factorisation, else `ShapeMismatch` exactly when it has other than p eigenvalues, else `OutOfRange` exactly when `ct` lacks entry i |
| Lda.LD.Predict | stat/lda.go:181-207 | rejects an input whose length is not p; succeeds exactly when the receiver can serve every read; returns the first class with the largest score, or 0 with no classes; otherwise `NotFactorised` or `ShapeMismatch` exactly when row 0 of `mu` can be read and the eigenvalues cannot, and `OutOfRange` in every other failure |
| Lda.LD.ScoresAreConstantTerms | stat/lda.go:188-199 | each score is the class's constant term when no eigenvalue is 0, and every score is NaN otherwise |
| Lda.LD.FittedModelPredictsFirstClass | stat/lda.go:129-204 | with every constant term minus infinity, as a successful fit leaves them, the prediction is class 0 |

## Left out

- The `fmt.Printf` diagnostics (lines 38-40, 63, 81, 105, 109, 158, 163) are output only.
- `Transform` (lines 174-179) is a matrix product with the eigenvectors of the
  library. The eigenvectors are not modelled.
- The `svd` and `ok` fields are never used.
- The `tol < 0` check (lines 85-87) can never fire, since `tol` is the constant 1e-4.
- Floating-point rounding is not modelled: the means, the covariance and the
  comparison with `tol*tol` are exact real arithmetic.
- `math.Log` of a positive number is the parameter `ln`. Only `log 0` is
  fixed, as minus infinity.
- The eigen solver of `mat.Eigen` is the parameter `factorize`. It returns the
  eigenvalues, or nothing when the factorisation fails. For the symmetric
  covariance these are real, so `cmplx.Abs` becomes the absolute value of a real.
- The three-argument `Factorize(C, false, true)` of line 162 belongs to an
  older gonum than the current one, whose `Factorize` takes an `EigenKind`.
  Two panics are assumed from that version: `mat.Eigen.Values` panics on a
  missing factorisation or a destination of the wrong length (modelled in
  `Lda.LD.Predict`), and `mat.NewDense` panics on a zero dimension at line
  108 (modelled in `Lda.LD.FitMeans`). A gonum that accepted a 0 x 0 matrix
  would not panic there.
- The eigen solver is assumed to return exactly one eigenvalue per row of
  its argument, as `mat.Eigen` does for a square matrix.
- A nil `*mat.Dense` for `mu` is the 0 x 0 array. Reading it panics in Go (nil
  dereference), and the model reports `OutOfRange` for both.
- `sort.Ints` is modelled on values (an insertion sort), not in place. Only
  its result matters, since `labels` is a local slice.
- `ux`, allocated as zeros and never written, is a sequence rather than an
  array. `colmean` and `priori` are sequences as well.
- Go's `int` is 64 bits wide. Counts and dimensions are unbounded naturals,
  since no realistic input reaches the overflow.
