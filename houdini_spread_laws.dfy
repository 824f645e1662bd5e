/**
 * The `aiSpread` key of the Mantra parm loop: the three bands that turn Arnold's spread into
 * Mantra's cone angle, cone delta and roll, and the exposure adjustment each band makes.
 */
module SpreadLaws {
  import opened PyValues
  import opened LightParms
  import opened Transcendentals
  import opened ExposureCalc
  import opened HoudiniHost
  import opened MantraRules

  /** `2 ** n` lies in `[1, 2)` for `n` in `[0, 1)`. */
  lemma Pow2Bounds(t: Transcendental, n: real)
    requires Lawful(t) && 0.0 <= n < 1.0
    ensures 1.0 <= Pow2(t, n) < 2.0
  {
    var p := Pow2(t, n);
    assert p > 0.0;
    assert Log2(t, Pow2(t, n)) == n;
    Log2OfOne(t);
    Log2OfTwo(t);
    if p < 1.0 {
      Log2Increasing(t, p, 1.0);
    }
    if p > 2.0 {
      Log2Increasing(t, 2.0, p);
    }
  }

  /** `log2 50` is positive. */
  lemma Log2OfFifty(t: Transcendental)
    requires Lawful(t)
    ensures Log2(t, 50.0) > 0.0
  {
    Log2OfOne(t);
    Log2Increasing(t, 1.0, 50.0);
  }

  /** The cone fraction of the top band, `log_50(1 + 49 (v - 0.4) / 0.6)`. */
  function TopCone(t: Transcendental, v: real): real
    requires Log2(t, 50.0) != 0.0
  {
    Log2(t, (50.0 - 1.0) * ((v - 0.4) / (1.0 - 0.4)) + 1.0) / Log2(t, 50.0)
  }

  /** From spread 0.4 up to 1 the cone angle opens from 0 to 180 degrees with delta 180 and
      roll 10, and the exposure gains `0.9 (1 - cone / 180)`, which is no gain at all (no
      exposure set) at spread 1; beyond 1 the cone angle exceeds 180. */
  lemma SpreadTopLaw(t: Transcendental, v: real)
    requires Lawful(t) && v >= 0.4
    ensures Log2(t, 50.0) > 0.0
    ensures SpreadBand(t, v) == Ok(([Num(TopCone(t, v) * 180.0), Num(180.0), Num(10.0)],
                                     if v == 1.0 then None else Some(0.9 - 0.9 * TopCone(t, v))))
    ensures v <= 1.0 ==> 0.0 <= TopCone(t, v) <= 1.0
    ensures v == 0.4 ==> TopCone(t, v) == 0.0
    ensures v == 1.0 ==> TopCone(t, v) == 1.0
    ensures v > 1.0 ==> TopCone(t, v) > 1.0
  {
    Log2OfFifty(t);
    Log2OfOne(t);
    var n := (50.0 - 1.0) * ((v - 0.4) / (1.0 - 0.4)) + 1.0;
    assert n >= 1.0;
    var l := Log2(t, 50.0);
    if n > 1.0 {
      Log2Increasing(t, 1.0, n);
    }
    if v < 1.0 {
      assert n < 50.0;
      Log2Increasing(t, n, 50.0);
      QuotientBelowOne(Log2(t, n), l);
    } else if v > 1.0 {
      assert n > 50.0;
      Log2Increasing(t, 50.0, n);
      QuotientAboveOne(Log2(t, n), l);
    } else {
      assert n == 50.0;
    }
    assert MathLog(t, n, 50.0) == Ok(TopCone(t, v));
  }

  lemma QuotientBelowOne(a: real, b: real)
    requires 0.0 < b && a < b
    ensures a / b < 1.0
  {
    assert a / b * b == a;
  }

  lemma QuotientAboveOne(a: real, b: real)
    requires 0.0 < b < a
    ensures a / b > 1.0
  {
    assert a / b * b == a;
  }

  /** A wider spread in the top band gives a wider cone. */
  lemma TopConeIncreasing(t: Transcendental, v: real, w: real)
    requires Lawful(t) && 0.4 <= v < w
    ensures Log2(t, 50.0) > 0.0 && TopCone(t, v) < TopCone(t, w)
  {
    Log2OfFifty(t);
    var a := (50.0 - 1.0) * ((v - 0.4) / (1.0 - 0.4)) + 1.0;
    var b := (50.0 - 1.0) * ((w - 0.4) / (1.0 - 0.4)) + 1.0;
    assert 1.0 <= a < b;
    Log2Increasing(t, a, b);
  }

  /** The middle band's position, `(v - 0.02) / 0.38`, in `[0, 1)`. */
  function MiddlePosition(v: real): real {
    (v - 0.02) / (0.4 - 0.02)
  }

  /** From spread 0.02 up to 0.4 the cone angle is 0, the delta `(2^n - 1) 180` for the
      band position `n`, which stays below 180, and the roll 10; the exposure gains
      `7 - 7 log2(1 + n)`, from 7 at the bottom of the band down towards 0 (never reached).
      Below 0.02 the cone is 4.5 degrees wide with no delta and no roll, and the exposure
      gains 8 before the scene scale is applied. */
  lemma SpreadLowerLaw(t: Transcendental, v: real)
    requires Lawful(t) && v < 0.4
    ensures 0.02 <= v ==>
              var n := MiddlePosition(v);
              && 0.0 <= n < 1.0
              && SpreadBand(t, v) == Ok(([Num(0.0), Num((Pow2(t, n) - 1.0) * 180.0), Num(10.0)],
                                         Some(7.0 - 7.0 * Log2(t, 1.0 + n))))
              && 0.0 <= (Pow2(t, n) - 1.0) * 180.0 < 180.0
              && 0.0 < 7.0 - 7.0 * Log2(t, 1.0 + n) <= 7.0
              && (v == 0.02 ==> 7.0 - 7.0 * Log2(t, 1.0 + n) == 7.0)
    ensures v < 0.02 ==> SpreadBand(t, v) == Ok(([Num(4.5), Num(0.0), Num(0.0)], Some(8.0)))
  {
    if 0.02 <= v {
      var n := MiddlePosition(v);
      assert 0.0 <= n < 1.0;
      Pow2Bounds(t, n);
      MathLogBase2(t, 1.0 + n);
      Log2OfOne(t);
      Log2OfTwo(t);
      if n > 0.0 {
        Log2Increasing(t, 1.0, 1.0 + n);
      }
      Log2Increasing(t, 1.0 + n, 2.0);
      assert (1.0 - 0.0) * n + 0.0 == n;
    }
  }

  /** The exposure each band writes, from the value `x` read back and the band's gain `g`: the
      top band converts to scale `1/scale` and back, which gives `x + g` again, and divides by
      zero at scale 0; the middle band writes `x + g`; the bottom band converts `x + g` to the
      scene scale, `x + g + 2 log2|scale|`, and fails the logarithm at scale 0. */
  lemma SpreadExposureLaw(t: Transcendental, v: real, x: real, g: real, scale: real)
    requires Lawful(t)
    ensures v >= 0.4 ==>
              SpreadExposure(t, v, x, g, scale) == if scale == 0.0 then Err(ZeroDivisionError) else Ok(x + g)
    ensures 0.02 <= v < 0.4 ==> SpreadExposure(t, v, x, g, scale) == Ok(x + g)
    ensures v < 0.02 ==>
              SpreadExposure(t, v, x, g, scale)
              == if scale == 0.0 then Err(MathDomainError) else Ok(x + g + 2.0 * Log2(t, Abs(scale)))
  {
    if v >= 0.4 && scale != 0.0 {
      LightExposureRoundTrip(t, x + g, scale);
    } else if v < 0.02 {
      LightExposureLaw(t, x + g, 1.0, 1.0, scale);
      Log2OfOne(t);
      assert scale / 1.0 == scale;
    }
  }

  lemma ConeSets(c: Ctx, vals: seq<Value>)
    requires DestOf(c, aiSpread) == Ok(Many(["coneangle", "conedelta", "coneroll"])) && |vals| == 3
    ensures SpreadSets(c, vals) == Ok([SetParm("coneangle", vals[0]), SetParm("conedelta", vals[1]), SetParm("coneroll", vals[2])])
  {
    var names := ["coneangle", "conedelta", "coneroll"];
    assert DestNames(Many(names)) == names;
    var acts := seq(|names|, i requires 0 <= i < |names| => SetParm(names[i], vals[i]));
    assert acts == [SetParm("coneangle", vals[0]), SetParm("conedelta", vals[1]), SetParm("coneroll", vals[2])];
  }

  /** The exposure gain a band adds at a non-zero scale, the scene-scale term included. */
  function BandGain(t: Transcendental, v: real, g: real, scale: real): real {
    if v < 0.02 then g + 2.0 * Log2(t, Abs(scale)) else g
  }

  /** The whole `aiSpread` key on a light whose spread goes to the cone angle, cone delta and
      roll parms and whose exposure parm is none of them, at a non-zero scale: the three cone
      parms take the band's values, and, when the band has a gain, the exposure parm becomes
      the exposure the node held before plus that gain; nothing else is set. */
  lemma SpreadRuleLaw(c: Ctx, node: Node, v: real, ep: string)
    requires Lawful(c.t) && c.scale != 0.0
    requires DestOf(c, aiSpread) == Ok(Many(["coneangle", "conedelta", "coneroll"]))
    requires ExposureParm(c) == Ok(ep) && ep != "coneangle" && ep != "conedelta" && ep != "coneroll"
    requires !Eval(c, node, ep).Str?
    ensures SpreadBand(c.t, v).Ok? && |SpreadBand(c.t, v).value.0| == 3
    ensures SpreadRule(c, node, Num(v)).Ok?
    ensures var b := SpreadBand(c.t, v).value;
            var cone := map["coneangle" := b.0[0]]["conedelta" := b.0[1]]["coneroll" := b.0[2]];
            Effect(SpreadRule(c, node, Num(v)).value)
            == if b.1.None? then cone
               else cone[ep := Num(AsReal(Eval(c, node, ep)).value + BandGain(c.t, v, b.1.value, c.scale))]
  {
    if v >= 0.4 {
      SpreadTopLaw(c.t, v);
    } else {
      SpreadLowerLaw(c.t, v);
    }
    var b := SpreadBand(c.t, v).value;
    var w := [SetParm("coneangle", b.0[0]), SetParm("conedelta", b.0[1]), SetParm("coneroll", b.0[2])];
    ConeSets(c, b.0);
    if b.1.Some? {
      var x := AsReal(Eval(c, node, ep)).value;
      var y := x + BandGain(c.t, v, b.1.value, c.scale);
      EffectOfSets("coneangle", "conedelta", "coneroll", ep, b.0[0], b.0[1], b.0[2], Num(y));
      assert ep !in Effect(w);
      assert Eval(c, SetAll(node, w), ep) == Eval(c, node, ep);
      SpreadExposureLaw(c.t, v, x, b.1.value, c.scale);
      assert SpreadRule(c, node, Num(v)) == Ok(w + [SetParm(ep, Num(y))]);
    } else {
      EffectOfSets("coneangle", "conedelta", "coneroll", ep, b.0[0], b.0[1], b.0[2], Num(0.0));
    }
  }
}
