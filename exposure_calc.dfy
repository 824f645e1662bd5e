/**
 * The two exposure formulas of the Houdini import (`light_exposure_calc` and
 * `soft_edge_exposure_calc`).  An exposure `e` stands for the intensity `2^e`;
 * the formulas convert it to an intensity, multiply by a renderer factor and
 * the square of a scene-scale ratio, and convert back with `math.log(x, 2)`.
 */
module ExposureCalc {
  import opened PyValues
  import opened Transcendentals

  /** Mantra's conversion factor for Arnold exposures, `2 ** -2.65`. */
  function MantraFactor(t: Transcendental): real {
    Pow2(t, -2.65)
  }

  /** `light_exposure_calc(e, factor, oldScale, newScale)`.  A string exposure raises
      TypeError at `2 ** e`; callers convert the value first, which raises the same error. */
  function LightExposureCalc(t: Transcendental, e: real, factor: real, oldScale: real, newScale: real): (r: Result<real>)
    ensures oldScale == 0.0 ==> r == Err(ZeroDivisionError)
    ensures r.Err? ==> r.error == ZeroDivisionError || r.error == MathDomainError
  {
    if oldScale == 0.0 then Err(ZeroDivisionError)
    else MathLog(t, NewIntensity(t, e, factor, newScale / oldScale), 2.0)
  }

  /** `(scaleFactor ** 2) * (factor * 2 ** e)`: the intensity of exposure `e`, times the
      renderer factor, times the square of the scale factor. */
  function NewIntensity(t: Transcendental, e: real, factor: real, scaleFactor: real): real {
    var exposureToIntensity := Pow2(t, e);
    var totalIntensity := factor * exposureToIntensity;
    Power(scaleFactor, 2) * totalIntensity
  }

  /** A positive multiplier keeps the sign of `b`. */
  lemma PositiveMultiplier(a: real, b: real)
    requires a > 0.0
    ensures a * b > 0.0 <==> b > 0.0
  {
    if b > 0.0 {
      assert a * b > 0.0;
    } else {
      assert a * b <= 0.0;
    }
  }

  /** The intensity is positive exactly when the scale factor is non-zero and the factor positive. */
  lemma NewIntensityPositive(t: Transcendental, e: real, factor: real, s: real)
    requires Lawful(t)
    ensures NewIntensity(t, e, factor, s) > 0.0 <==> s != 0.0 && factor > 0.0
  {
    assert Pow2(t, e) > 0.0;
    assert factor * Pow2(t, e) == Pow2(t, e) * factor;
    PositiveMultiplier(Pow2(t, e), factor);
    SquarePositive(s);
    if s != 0.0 {
      PositiveMultiplier(Power(s, 2), factor * Pow2(t, e));
    } else {
      assert Power(s, 2) == 0.0;
    }
  }

  /** `log2(s ** 2 · factor · 2^e) = e + log2(factor) + 2·log2|s|`. */
  lemma Log2OfNewIntensity(t: Transcendental, e: real, factor: real, s: real)
    requires Lawful(t) && s != 0.0 && factor > 0.0
    ensures Log2(t, NewIntensity(t, e, factor, s)) == e + Log2(t, factor) + 2.0 * Log2(t, Abs(s))
  {
    assert Pow2(t, e) > 0.0;
    PositiveMultiplier(Pow2(t, e), factor);
    assert factor * Pow2(t, e) == Pow2(t, e) * factor;
    SquarePositive(s);
    Log2Mul(t, Power(s, 2), factor * Pow2(t, e), NewIntensity(t, e, factor, s));
    Log2Mul(t, factor, Pow2(t, e), factor * Pow2(t, e));
    assert Log2(t, Pow2(t, e)) == e;
    Log2OfSquare(t, s);
  }

  /** The exposure law: the result is `e + log2(factor) + 2·log2|newScale/oldScale|`, and it
      exists exactly when the scales are non-zero and the factor positive; a zero old scale
      divides by zero and every other failure is the logarithm's domain error. */
  lemma LightExposureLaw(t: Transcendental, e: real, factor: real, oldScale: real, newScale: real)
    requires Lawful(t)
    ensures LightExposureCalc(t, e, factor, oldScale, newScale).Ok?
            <==> oldScale != 0.0 && newScale != 0.0 && factor > 0.0
    ensures oldScale != 0.0 && !(newScale != 0.0 && factor > 0.0) ==>
            LightExposureCalc(t, e, factor, oldScale, newScale) == Err(MathDomainError)
    ensures oldScale != 0.0 && newScale != 0.0 && factor > 0.0 ==>
            LightExposureCalc(t, e, factor, oldScale, newScale)
            == Ok(e + Log2(t, factor) + 2.0 * Log2(t, Abs(newScale / oldScale)))
  {
    if oldScale != 0.0 {
      var s := newScale / oldScale;
      assert s * oldScale == newScale;
      NewIntensityPositive(t, e, factor, s);
      MathLogBase2(t, NewIntensity(t, e, factor, s));
      if newScale != 0.0 && factor > 0.0 {
        Log2OfNewIntensity(t, e, factor, s);
      }
    }
  }

  /** With factor 1 and equal scales the exposure is unchanged. */
  lemma LightExposureIdentity(t: Transcendental, e: real, scale: real)
    requires Lawful(t) && scale != 0.0
    ensures LightExposureCalc(t, e, 1.0, scale, scale) == Ok(e)
  {
    LightExposureLaw(t, e, 1.0, scale, scale);
    Log2OfOne(t);
    assert Abs(scale / scale) == 1.0;
  }

  /** Scaling to `1/s` and then to `s` (as the Mantra spread band does) gives the exposure back. */
  lemma LightExposureRoundTrip(t: Transcendental, e: real, s: real)
    requires Lawful(t) && s != 0.0
    ensures LightExposureCalc(t, e, 1.0, 1.0, 1.0 / s).Ok?
    ensures LightExposureCalc(t, LightExposureCalc(t, e, 1.0, 1.0, 1.0 / s).value, 1.0, 1.0, s) == Ok(e)
  {
    LightExposureLaw(t, e, 1.0, 1.0, 1.0 / s);
    var e1 := LightExposureCalc(t, e, 1.0, 1.0, 1.0 / s).value;
    LightExposureLaw(t, e1, 1.0, 1.0, s);
    Log2OfOne(t);
    assert Abs((1.0 / s) / 1.0) == 1.0 / Abs(s);
    assert Abs(s / 1.0) == Abs(s);
    Log2Inverse(t, Abs(s));
  }

  /** Converting with a renderer factor `k` from scale 1 to `s` and back with the same
      factor from `s` to 1 leaves `e + 2·log2(k)`: the pair is an inverse exactly when
      `k` is 1. */
  lemma ConversionRoundTripOnlyWithUnitFactor(t: Transcendental, e: real, k: real, s: real)
    requires Lawful(t) && k > 0.0 && s != 0.0
    ensures LightExposureCalc(t, e, k, 1.0, s).Ok?
    ensures LightExposureCalc(t, LightExposureCalc(t, e, k, 1.0, s).value, k, s, 1.0)
            == Ok(e + 2.0 * Log2(t, k))
    ensures LightExposureCalc(t, LightExposureCalc(t, e, k, 1.0, s).value, k, s, 1.0) == Ok(e)
            <==> k == 1.0
  {
    LightExposureLaw(t, e, k, 1.0, s);
    var e1 := LightExposureCalc(t, e, k, 1.0, s).value;
    LightExposureLaw(t, e1, k, s, 1.0);
    assert Abs(s / 1.0) == Abs(s);
    assert Abs(1.0 / s) == 1.0 / Abs(s);
    Log2Inverse(t, Abs(s));
    Log2OfOne(t);
    if k < 1.0 {
      Log2Increasing(t, k, 1.0);
    } else if k > 1.0 {
      Log2Increasing(t, 1.0, k);
    }
  }

  /** `soft_edge_exposure_calc(normalize, e, scale, value)`: the soft-edge value is mapped
      linearly from the range `[1, 0]` onto `[minimum exposure, current Mantra exposure]`. */
  function SoftEdgeExposureCalc(t: Transcendental, normalize: Value, e: real, scale: real, value: Value): (r: Result<real>)
    ensures value.Str? ==> r.Err?
  {
    var current := LightExposureCalc(t, e, MantraFactor(t), 1.0, scale);
    if current.Err? then current
    else
      var minimum := MinimumExposure(t, normalize, e, scale);
      if minimum.Err? then minimum
      else match AsReal(value)
        case Err(err) => Err(err)
        case Ok(v) => Ok(FitSoftEdge(v, minimum.value, current.value))
  }

  /** The exposure a fully soft edge fades to: half the intensity at the new scale for a
      normalized light, 0.8 of the unscaled intensity otherwise. */
  function MinimumExposure(t: Transcendental, normalize: Value, e: real, scale: real): Result<real> {
    if Truthy(normalize) then
      var scaleFactor := scale / 1.0;
      MathLog(t, NewIntensity(t, e, 0.5, scaleFactor), 2.0)
    else
      MathLog(t, 0.8 * Pow2(t, e), 2.0)
  }

  /** The fit-range step: `value` mapped from `[1, 0]` onto `[minimum, current]`. */
  function FitSoftEdge(value: real, minimum: real, current: real): real {
    var oldPercentage := (value - 1.0) / (0.0 - 1.0);
    (current - minimum) * oldPercentage + minimum
  }

  /** The minimum exposure in closed form: `e + 2·log2|scale| − 1` for a normalized light,
      `e + log2(0.8)` (whatever the scale) otherwise. */
  function SoftEdgeMinimum(t: Transcendental, normalize: Value, e: real, scale: real): real {
    if Truthy(normalize) then e + 2.0 * Log2(t, Abs(scale)) - 1.0 else e + Log2(t, 0.8)
  }

  /** The current Mantra exposure of an Arnold exposure `e` at the given scale, in closed form. */
  function MantraExposure(t: Transcendental, e: real, scale: real): real {
    e - 2.65 + 2.0 * Log2(t, Abs(scale))
  }

  /** For a non-zero scale the minimum exposure exists and is `SoftEdgeMinimum`. */
  lemma MinimumExposureLaw(t: Transcendental, normalize: Value, e: real, scale: real)
    requires Lawful(t) && scale != 0.0
    ensures MinimumExposure(t, normalize, e, scale) == Ok(SoftEdgeMinimum(t, normalize, e, scale))
  {
    assert Pow2(t, e) > 0.0;
    if Truthy(normalize) {
      assert scale / 1.0 == scale;
      NewIntensityPositive(t, e, 0.5, scale);
      Log2OfNewIntensity(t, e, 0.5, scale);
      MathLogBase2(t, NewIntensity(t, e, 0.5, scale));
      Log2Inverse(t, 2.0);
      Log2OfTwo(t);
      assert 1.0 / 2.0 == 0.5;
    } else {
      Log2Mul(t, 0.8, Pow2(t, e), 0.8 * Pow2(t, e));
      MathLogBase2(t, 0.8 * Pow2(t, e));
    }
  }

  /** The fit-range step is linear interpolation: a fraction `v` of the way from the current
      exposure to the minimum, so 0 gives the current exposure and 1 the minimum. */
  lemma FitSoftEdgeLaw(v: real, minimum: real, current: real)
    ensures FitSoftEdge(v, minimum, current) == v * minimum + (1.0 - v) * current
    ensures FitSoftEdge(0.0, minimum, current) == current
    ensures FitSoftEdge(1.0, minimum, current) == minimum
  {
    assert (v - 1.0) / (0.0 - 1.0) == 1.0 - v;
  }

  /** The soft-edge exposure is the interpolation between the current Mantra exposure and the
      minimum; it fails exactly for scale 0 (the log of a zero intensity) or a string
      soft-edge value. */
  lemma SoftEdgeLaw(t: Transcendental, normalize: Value, e: real, scale: real, value: Value)
    requires Lawful(t)
    ensures scale == 0.0 ==> SoftEdgeExposureCalc(t, normalize, e, scale, value) == Err(MathDomainError)
    ensures scale != 0.0 && value.Str? ==> SoftEdgeExposureCalc(t, normalize, e, scale, value) == Err(TypeError)
    ensures scale != 0.0 && !value.Str? ==>
            SoftEdgeExposureCalc(t, normalize, e, scale, value)
            == Ok(FitSoftEdge(AsReal(value).value, SoftEdgeMinimum(t, normalize, e, scale), MantraExposure(t, e, scale)))
  {
    LightExposureLaw(t, e, MantraFactor(t), 1.0, scale);
    assert Log2(t, Pow2(t, -2.65)) == -2.65;
    if scale != 0.0 {
      assert Abs(scale / 1.0) == Abs(scale);
      MinimumExposureLaw(t, normalize, e, scale);
    }
  }

  /** A soft edge of 0 keeps the current Mantra exposure; a soft edge of 1 gives the minimum. */
  lemma SoftEdgeEndpoints(t: Transcendental, normalize: Value, e: real, scale: real)
    requires Lawful(t) && scale != 0.0
    ensures SoftEdgeExposureCalc(t, normalize, e, scale, Num(0.0))
            == LightExposureCalc(t, e, MantraFactor(t), 1.0, scale)
    ensures SoftEdgeExposureCalc(t, normalize, e, scale, Num(1.0))
            == Ok(SoftEdgeMinimum(t, normalize, e, scale))
  {
    SoftEdgeLaw(t, normalize, e, scale, Num(0.0));
    SoftEdgeLaw(t, normalize, e, scale, Num(1.0));
    FitSoftEdgeLaw(0.0, SoftEdgeMinimum(t, normalize, e, scale), MantraExposure(t, e, scale));
    FitSoftEdgeLaw(1.0, SoftEdgeMinimum(t, normalize, e, scale), MantraExposure(t, e, scale));
    LightExposureLaw(t, e, MantraFactor(t), 1.0, scale);
    assert Log2(t, Pow2(t, -2.65)) == -2.65;
    assert Abs(scale / 1.0) == Abs(scale);
  }
}
