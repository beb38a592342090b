/** The float64 values that the discriminant scores take: minus infinity
    (`math.Inf(-1)`, and `math.Log(0)`), a finite number, or NaN (what
    `0 / 0` gives when an eigenvalue is zero). Plus infinity cannot arise
    from the operations modelled here. */
module ExtReal {

  datatype Ext = NegInf | Fin(v: real) | NaN

  /** The float comparison `a < b`; every comparison with NaN is false. */
  predicate Less(a: Ext, b: Ext) {
    match (a, b)
    case (NegInf, Fin(_)) => true
    case (Fin(u), Fin(w)) => u < w
    case _ => false
  }

  /** The float addition `a + b`: NaN absorbs everything, then minus
      infinity absorbs the finite numbers. */
  function Add(a: Ext, b: Ext): (r: Ext)
    ensures r.NaN? <==> a.NaN? || b.NaN?
    ensures r == NegInf <==> !r.NaN? && (a == NegInf || b == NegInf)
    ensures r.Fin? ==> a.Fin? && b.Fin? && r.v == a.v + b.v
  {
    if a.NaN? || b.NaN? then NaN
    else if a.NegInf? || b.NegInf? then NegInf
    else Fin(a.v + b.v)
  }

  /** The float product `0.5 * a`. */
  function Half(a: Ext): (r: Ext)
    ensures r.Fin? <==> a.Fin?
    ensures r.Fin? ==> r.v + r.v == a.v
    ensures !r.Fin? ==> r == a
  {
    if a.Fin? then Fin(0.5 * a.v) else a
  }

  /** The float subtraction `a - d` for a `d` that is not minus infinity
      (whose negation, plus infinity, is not representable here). */
  function Minus(a: Ext, d: Ext): (r: Ext)
    requires !d.NegInf?
    ensures r.NaN? <==> a.NaN? || d.NaN?
    ensures r == NegInf <==> a == NegInf && d.Fin?
    ensures r.Fin? ==> a.Fin? && d.Fin? && r.v + d.v == a.v
  {
    if a.NaN? || d.NaN? then NaN
    else if a.NegInf? then NegInf
    else Fin(a.v - d.v)
  }

  /** The float division `a / b` of a number by an absolute value, where a
      non-zero numerator over zero (an infinity) is excluded: `0 / 0` is NaN. */
  function Quotient(a: real, b: real): (r: Ext)
    requires b >= 0.0 && (a == 0.0 || b > 0.0)
    ensures r.NaN? <==> b == 0.0
    ensures a == 0.0 && b > 0.0 ==> r == Fin(0.0)
    ensures !r.NegInf?
  {
    if b == 0.0 then NaN else Fin(a / b)
  }

  /** `math.Log` on a non-negative argument: log 0 is minus infinity, and
      `ln` stands for the library logarithm of a positive number. */
  function Log(ln: real -> real, x: real): (r: Ext)
    requires x >= 0.0
    ensures r == NegInf <==> x == 0.0
    ensures !r.NaN?
  {
    if x == 0.0 then NegInf else Fin(ln(x))
  }

  /** The float product `u * u`. */
  function Square(u: real): (r: real)
    ensures u == 0.0 ==> r == 0.0
  {
    u * u
  }

  function Abs(x: real): real {
    if x < 0.0 then -x else x
  }

  /** Without NaN, `Less` is a strict total order with minus infinity at
      the bottom; NaN is comparable to nothing. */
  lemma LessIsStrictTotalOrder(a: Ext, b: Ext, c: Ext)
    ensures !Less(a, a)
    ensures Less(a, b) && Less(b, c) ==> Less(a, c)
    ensures !a.NaN? && !b.NaN? ==> a == b || Less(a, b) || Less(b, a)
    ensures !Less(a, NegInf)
    ensures !Less(a, NaN) && !Less(NaN, a)
  {
  }
}
