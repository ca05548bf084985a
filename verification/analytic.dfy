/**
 * The real-valued primitives the pricing code relies on.
 *
 * The engine calls scipy's standard normal distribution (norm.cdf, norm.pdf)
 * and numpy's exp, log and sqrt. Their numeric values are outside what a
 * verifier can compute, so the model receives them as a record of functions
 * and assumes only the few algebraic laws that the proofs need (`Lawful`).
 * Floating point is modelled by `real`.
 */
module Analytic {

  /** The transcendental functions the formulas are built from. */
  datatype Maths = Maths(
    cdf: real -> real,   // standard normal cumulative distribution, Phi
    pdf: real -> real,   // standard normal density, phi
    exp: real -> real,
    ln: real -> real,
    sqrt: real -> real
  )

  /**
   * The sign and range laws of the primitives that the formulas rely on.
   * The density is only required to be non-negative: in floating point
   * norm.pdf underflows to exactly zero once |x| exceeds about 38.6.
   */
  ghost predicate Lawful(m: Maths) {
    && (forall x :: 0.0 <= m.cdf(x) <= 1.0)
    && (forall x :: m.pdf(x) >= 0.0)
    && (forall x :: m.exp(x) > 0.0)
    && (forall t :: t > 0.0 ==> m.sqrt(t) > 0.0)
  }

  /** The density of real arithmetic, which is positive everywhere (no underflow). */
  ghost predicate DensityPositive(m: Maths) {
    forall x :: m.pdf(x) > 0.0
  }

  /**
   * The symmetry of the standard normal distribution, needed only by the
   * parity laws and kept apart so that pricing formulas do not carry it.
   */
  ghost predicate Symmetric(m: Maths) {
    forall x, y :: x + y == 0.0 ==> m.cdf(x) + m.cdf(y) == 1.0
  }

  /**
   * The laws are consistent: some choice of primitives satisfies all of
   * them, and the laws also admit a density that underflows to zero.
   */
  lemma LawfulIsSatisfiable()
    ensures exists m :: Lawful(m) && Symmetric(m) && DensityPositive(m)
    ensures exists m :: Lawful(m) && Symmetric(m) && !DensityPositive(m)
  {
    var w := Maths(x => 0.5, x => 1.0, x => 1.0, x => 0.0, t => if t > 0.0 then 1.0 else 0.0);
    assert Lawful(w) && Symmetric(w) && DensityPositive(w);
    var u := w.(pdf := x => if x > 40.0 || x < -40.0 then 0.0 else 1.0);
    assert u.pdf(41.0) == 0.0;
    assert Lawful(u) && Symmetric(u) && !DensityPositive(u);
  }

  /** Phi(-x) = 1 - Phi(x). */
  lemma CdfSymmetry(m: Maths, x: real)
    requires Symmetric(m)
    ensures m.cdf(-x) == 1.0 - m.cdf(x)
  {
    assert x + -x == 0.0;
  }

  /** Python's abs on floats. */
  function Abs(x: real): real {
    if x < 0.0 then -x else x
  }

  /** Python's max(0, x): the positive part of x. */
  function PositivePart(x: real): real {
    if x > 0.0 then x else 0.0
  }

  /** Python's max over a non-empty list of floats. */
  function MaxOf(xs: seq<real>): (v: real)
    requires |xs| > 0
    ensures v in xs
    ensures forall i :: 0 <= i < |xs| ==> xs[i] <= v
  {
    if |xs| == 1 then xs[0]
    else
      var rest := MaxOf(xs[1..]);
      assert forall i :: 1 <= i < |xs| ==> xs[i] == xs[1..][i - 1];
      if xs[0] >= rest then xs[0] else rest
  }

  /** Python's min over a non-empty list of floats. */
  function MinOf(xs: seq<real>): (v: real)
    requires |xs| > 0
    ensures v in xs
    ensures forall i :: 0 <= i < |xs| ==> v <= xs[i]
  {
    if |xs| == 1 then xs[0]
    else
      var rest := MinOf(xs[1..]);
      assert forall i :: 1 <= i < |xs| ==> xs[i] == xs[1..][i - 1];
      if xs[0] <= rest then xs[0] else rest
  }

  /** How the pages report an extreme of a P&L curve: an amount, or "Unlimited" past a threshold. */
  datatype Bound = Amount(value: real) | Unlimited
}
