/**
 * `2 ** x` and `math.log`, as the Houdini script uses them.  Their real-number
 * values are not computable here, so the model takes the two base functions as
 * a value `t` and states the laws they obey (`Lawful`); every result about
 * exposures holds for any pair of functions obeying those laws.
 */
module Transcendentals {
  import opened PyValues

  /** `pow2(x)` is `2 ** x`; `log2` is the base-2 logarithm.  Python's `math.log(x, b)`
      is `log(x) / log(b)` in any base, so base 2 serves for all of them. */
  datatype Transcendental = Transcendental(pow2: real -> real, log2: real -> real)

  /** `2 ** x`. */
  function Pow2(t: Transcendental, x: real): real {
    t.pow2(x)
  }

  /** The base-2 logarithm of `x`. */
  function Log2(t: Transcendental, x: real): real {
    t.log2(x)
  }

  /** The product law of the logarithm, kept behind a name so that it is applied only on request. */
  ghost predicate LogOfProduct(t: Transcendental, a: real, b: real) {
    Log2(t, a * b) == Log2(t, a) + Log2(t, b)
  }

  /** The exponential undoes the logarithm, kept behind a name for the same reason. */
  ghost predicate PowOfLog(t: Transcendental, a: real) {
    Pow2(t, Log2(t, a)) == a
  }

  /** Monotonicity of the logarithm, kept behind a name for the same reason. */
  ghost predicate Log2Below(t: Transcendental, a: real, b: real) {
    Log2(t, a) < Log2(t, b)
  }

  /** The laws of the exponential and the logarithm that the exposure proofs rely on. */
  ghost predicate Lawful(t: Transcendental) {
    && (forall x :: Pow2(t, x) > 0.0)
    && (forall x {:trigger Log2(t, Pow2(t, x))} :: Log2(t, Pow2(t, x)) == x)
    && (forall a {:trigger PowOfLog(t, a)} :: a > 0.0 ==> PowOfLog(t, a))
    && (forall a, b {:trigger Log2Below(t, a, b)} :: 0.0 < a < b ==> Log2Below(t, a, b))
    && (forall a, b {:trigger LogOfProduct(t, a, b)} :: a > 0.0 && b > 0.0 ==> LogOfProduct(t, a, b))
    && Pow2(t, 1.0) == 2.0
  }

  /** Python's `math.log(x, base)`: `log(x) / log(base)`; a non-positive argument is a
      domain error and base 1 divides by zero. */
  function MathLog(t: Transcendental, x: real, base: real): Result<real> {
    if x <= 0.0 || base <= 0.0 then Err(MathDomainError)
    else if Log2(t, base) == 0.0 then Err(ZeroDivisionError)
    else Ok(Log2(t, x) / Log2(t, base))
  }

  /** `math.log(x, 2)` is the base-2 logarithm of a positive `x`, and a domain error otherwise. */
  lemma MathLogBase2(t: Transcendental, x: real)
    requires Lawful(t)
    ensures MathLog(t, x, 2.0) == if x > 0.0 then Ok(Log2(t, x)) else Err(MathDomainError)
  {
    Log2OfTwo(t);
  }

  lemma Log2OfTwo(t: Transcendental)
    requires Lawful(t)
    ensures Log2(t, 2.0) == 1.0
  {
    assert Log2(t, Pow2(t, 1.0)) == 1.0;
  }

  /** The product law for `n == a * b`; `n` is passed separately so that callers can name
      the product by the term they already have. */
  lemma Log2Mul(t: Transcendental, a: real, b: real, n: real)
    requires Lawful(t) && a > 0.0 && b > 0.0 && n == a * b
    ensures Log2(t, n) == Log2(t, a) + Log2(t, b)
  {
    assert LogOfProduct(t, a, b);
  }

  lemma Log2OfOne(t: Transcendental)
    requires Lawful(t)
    ensures Log2(t, 1.0) == 0.0
  {
    Log2Mul(t, 1.0, 1.0, 1.0);
  }

  lemma Log2Inverse(t: Transcendental, a: real)
    requires Lawful(t) && a > 0.0
    ensures Log2(t, 1.0 / a) == - Log2(t, a)
  {
    Log2Mul(t, a, 1.0 / a, 1.0);
    Log2OfOne(t);
  }

  /** The logarithm is strictly increasing on the positive reals. */
  lemma Log2Increasing(t: Transcendental, a: real, b: real)
    requires Lawful(t) && 0.0 < a < b
    ensures Log2(t, a) < Log2(t, b)
  {
    assert Log2Below(t, a, b);
  }

  /** `log2(x ** 2) = 2·log2|x|` for every non-zero `x`. */
  lemma Log2OfSquare(t: Transcendental, x: real)
    requires Lawful(t) && x != 0.0
    ensures Log2(t, Power(x, 2)) == 2.0 * Log2(t, Abs(x))
  {
    SquareOfAbs(x);
    Log2Mul(t, Abs(x), Abs(x), Power(x, 2));
  }
}
