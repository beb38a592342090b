/** How the linear discriminant analysis reports failure. The Go code panics;
    the model returns the kind of panic instead. */
module Failures {

  /** One constructor per panic of `LD.LinearDiscriminant` and `LD.Predict`. */
  datatype LdaError =
    | SizeMismatch          // a non-nil label slice whose length is not the row count
    | EmptyLabels           // `labels[0]` on an empty label list: index out of range
    | LabelsNotFromZero     // the smallest label is not 0
    | NegativeLabel         // a label is negative (never reached on sorted labels)
    | MissingClass          // two consecutive sorted labels differ by more than 1
    | OneClass              // fewer than two classes
    | SampleTooSmall        // no more samples than classes
    | ZeroDimension         // `mat.NewDense` refuses a matrix with no columns
    // a pooled variance below tol*tol; `feature` is the variable where the
    // loop stopped, the first such one (Go's unformatted message omits it)
    | NearSingular(feature: nat)
    | InvalidInputSize      // `Predict` on a vector whose length is not p
    | OutOfRange            // `Predict` reads a row of `mu` or an entry of `ct` the receiver does not have
    | NotFactorised         // `Predict` asks for the eigenvalues of a failed or missing factorisation
    | ShapeMismatch         // `Predict` asks for p eigenvalues of a factorisation of another size
  {
    /** Raised while the labels are checked, before `ld.k` is assigned. */
    predicate IsLabelError() {
      SizeMismatch? || EmptyLabels? || LabelsNotFromZero? || NegativeLabel? || MissingClass?
    }

    /** Raised by `Predict` rather than by the fit. */
    predicate IsPredictError() {
      InvalidInputSize? || OutOfRange? || NotFactorised? || ShapeMismatch?
    }
  }

  /** The value of a call that may panic. */
  datatype Result<+T> = Success(value: T) | Failure(error: LdaError)

  /** The value of a call that returns nothing useful unless it panics. */
  datatype Outcome = Pass | Fail(error: LdaError)
}
