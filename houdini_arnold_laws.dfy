/**
 * What the Arnold parm loop sets for each key of a light record, in closed form.
 */
module ArnoldLaws {
  import opened PyValues
  import opened LightParms
  import opened Transcendentals
  import opened ExposureCalc
  import opened HoudiniHost
  import opened ArnoldRules
  import MantraRules
  import MantraKeyLaws

  /** Translation and the radius are scaled by the scene scale. */
  lemma ArnoldTranslateLaw(c: Ctx, key: Attr, v: real, p: string)
    requires key == translateX || key == translateY || key == translateZ || key == aiRadius
    requires ParmOf(c, key) == Ok(p)
    ensures ArnoldRule(c, key, Num(v)).Ok?
    ensures Effect(ArnoldRule(c, key, Num(v)).value) == map[p := Num(v * c.scale)]
  {
    MantraKeyLaws.SetDestTimes(c, key, p, v, c.scale);
    if key == translateX {
      assert ArnoldRule(c, translateX, Num(v)) == SetDest(c, translateX, Times(Num(v), c.scale));
    } else if key == translateY {
      assert ArnoldRule(c, translateY, Num(v)) == SetDest(c, translateY, Times(Num(v), c.scale));
    } else if key == translateZ {
      assert ArnoldRule(c, translateZ, Num(v)) == SetDest(c, translateZ, Times(Num(v), c.scale));
    } else {
      assert ArnoldRule(c, aiRadius, Num(v)) == SetDest(c, aiRadius, Times(Num(v), c.scale));
    }
  }

  /** The X size doubles at the scene scale. */
  lemma ArnoldScaleXLaw(c: Ctx, v: real, p: string)
    requires ParmOf(c, scaleX) == Ok(p)
    ensures ArnoldRule(c, scaleX, Num(v)).Ok?
    ensures Effect(ArnoldRule(c, scaleX, Num(v)).value) == map[p := Num(v * (2.0 * c.scale))]
  {
    var k := 2.0 * c.scale;
    MantraKeyLaws.SetDestTimes(c, scaleX, p, v, k);
    assert ArnoldRule(c, scaleX, Num(v)) == SetDest(c, scaleX, Times(Num(v), k));
    var e := Effect(ArnoldRule(c, scaleX, Num(v)).value);
    assert e == map[p := Num(v * k)];
    MantraKeyLaws.SingletonMap(e, p, v * (2.0 * c.scale));
  }

  /** The mean of a size and the record's `scaleX`, times `k`, field by field; without a
      numeric `scaleX` the addition is a TypeError. */
  lemma MeanValue(c: Ctx, v: real, k: real)
    ensures Get(c.rec, scaleX).Some? && Get(c.rec, scaleX).value.Num? ==>
              && MeanWithScaleX(c, Num(v), k).Ok?
              && MeanWithScaleX(c, Num(v), k).value.Num?
              && MeanWithScaleX(c, Num(v), k).value.r == (v + Get(c.rec, scaleX).value.r) / 2.0 * k
    ensures Get(c.rec, scaleX).None? || Get(c.rec, scaleX).value.Str? ==>
              MeanWithScaleX(c, Num(v), k) == Err(TypeError)
  {
    assert AsReal(Num(v)) == Ok(v);
  }

  /** The Y size: a disk takes the mean of its X and Y sizes at the scene scale (a TypeError
      without a numeric `scaleX`); an area, quad or cylinder light doubles it at the scene
      scale; any other light scales it by the scene scale. */
  lemma ArnoldScaleYLaw(c: Ctx, v: real, p: string)
    requires ParmOf(c, scaleY) == Ok(p)
    ensures MantraRules.IsTag(c, "disk") && Get(c.rec, scaleX).Some? && Get(c.rec, scaleX).value.Num? ==>
              && ArnoldRule(c, scaleY, Num(v)).Ok?
              && Effect(ArnoldRule(c, scaleY, Num(v)).value).Keys == {p}
              && Effect(ArnoldRule(c, scaleY, Num(v)).value)[p].Num?
              && Effect(ArnoldRule(c, scaleY, Num(v)).value)[p].r == (v + Get(c.rec, scaleX).value.r) / 2.0 * c.scale
    ensures MantraRules.IsTag(c, "disk") && (Get(c.rec, scaleX).None? || Get(c.rec, scaleX).value.Str?) ==>
              ArnoldRule(c, scaleY, Num(v)) == Err(TypeError)
    ensures MantraRules.IsTag(c, "areaLight") || MantraRules.IsTag(c, "quad") || MantraRules.IsTag(c, "cylinder") ==>
              && ArnoldRule(c, scaleY, Num(v)).Ok?
              && Effect(ArnoldRule(c, scaleY, Num(v)).value) == map[p := Num(v * (2.0 * c.scale))]
    ensures !MantraRules.IsTag(c, "disk") && !MantraRules.IsTag(c, "areaLight") && !MantraRules.IsTag(c, "quad")
            && !MantraRules.IsTag(c, "cylinder") ==>
              && ArnoldRule(c, scaleY, Num(v)).Ok?
              && Effect(ArnoldRule(c, scaleY, Num(v)).value) == map[p := Num(v * c.scale)]
  {
    assert ArnoldRule(c, scaleY, Num(v)) == SetDest(c, scaleY, ScaleYValue(c, Num(v)));
    if MantraRules.IsTag(c, "disk") {
      MeanValue(c, v, c.scale);
      if Get(c.rec, scaleX).Some? && Get(c.rec, scaleX).value.Num? {
        MantraKeyLaws.SetDestLaw(c, scaleY, p, MeanWithScaleX(c, Num(v), c.scale).value);
      }
    } else if MantraRules.IsTag(c, "areaLight") || MantraRules.IsTag(c, "quad") || MantraRules.IsTag(c, "cylinder") {
      var k := 2.0 * c.scale;
      MantraKeyLaws.SetDestTimes(c, scaleY, p, v, k);
      var e := Effect(ArnoldRule(c, scaleY, Num(v)).value);
      assert e == map[p := Num(v * k)];
      MantraKeyLaws.SingletonMap(e, p, v * (2.0 * c.scale));
    } else {
      assert ScaleYValue(c, Num(v)) == Times(Num(v), c.scale);
      MantraKeyLaws.TimesValue(v, c.scale);
      MantraKeyLaws.SetDestLaw(c, scaleY, p, Times(Num(v), c.scale).value);
      var e := Effect(ArnoldRule(c, scaleY, Num(v)).value);
      MantraKeyLaws.SingletonMap(e, p, v * c.scale);
    }
  }

  /** The Z size: a cylinder takes the mean of its X and Z sizes at the scene scale (a
      TypeError without a numeric `scaleX`); any other light scales it by the scene scale. */
  lemma ArnoldScaleZLaw(c: Ctx, v: real, p: string)
    requires ParmOf(c, scaleZ) == Ok(p)
    ensures MantraRules.IsTag(c, "cylinder") && Get(c.rec, scaleX).Some? && Get(c.rec, scaleX).value.Num? ==>
              && ArnoldRule(c, scaleZ, Num(v)).Ok?
              && Effect(ArnoldRule(c, scaleZ, Num(v)).value).Keys == {p}
              && Effect(ArnoldRule(c, scaleZ, Num(v)).value)[p].Num?
              && Effect(ArnoldRule(c, scaleZ, Num(v)).value)[p].r == (v + Get(c.rec, scaleX).value.r) / 2.0 * c.scale
    ensures MantraRules.IsTag(c, "cylinder") && (Get(c.rec, scaleX).None? || Get(c.rec, scaleX).value.Str?) ==>
              ArnoldRule(c, scaleZ, Num(v)) == Err(TypeError)
    ensures !MantraRules.IsTag(c, "cylinder") ==>
              && ArnoldRule(c, scaleZ, Num(v)).Ok?
              && Effect(ArnoldRule(c, scaleZ, Num(v)).value) == map[p := Num(v * c.scale)]
  {
    if MantraRules.IsTag(c, "cylinder") {
      assert ArnoldRule(c, scaleZ, Num(v)) == SetDest(c, scaleZ, MeanWithScaleX(c, Num(v), c.scale));
      MeanValue(c, v, c.scale);
      if Get(c.rec, scaleX).Some? && Get(c.rec, scaleX).value.Num? {
        MantraKeyLaws.SetDestLaw(c, scaleZ, p, MeanWithScaleX(c, Num(v), c.scale).value);
      }
    } else {
      assert ArnoldRule(c, scaleZ, Num(v)) == SetDest(c, scaleZ, Times(Num(v), c.scale));
      MantraKeyLaws.TimesValue(v, c.scale);
      MantraKeyLaws.SetDestLaw(c, scaleZ, p, Times(Num(v), c.scale).value);
      var e := Effect(ArnoldRule(c, scaleZ, Num(v)).value);
      MantraKeyLaws.SingletonMap(e, p, v * c.scale);
    }
  }

  /** The exposure keys, each with its own normalize flag (`aiNormalize` for `aiExposure`,
      `normalize` for `exposure`): a directional light sets nothing; a light whose flag is
      present and true has the exposure converted to the scene scale, `v + 2 log2|scale|`
      (a math domain error at scale 0); a light whose flag is missing or false keeps the
      exported value. */
  lemma ArnoldExposureLaw(c: Ctx, key: Attr, flag: Attr, v: real, p: string)
    requires Lawful(c.t)
    requires (key == aiExposure && flag == aiNormalize) || (key == exposure && flag == normalize)
    requires ParmOf(c, key) == Ok(p)
    ensures MantraRules.IsTag(c, "directionalLight") ==> ArnoldRule(c, key, Num(v)) == Ok([])
    ensures !MantraRules.IsTag(c, "directionalLight") && Get(c.rec, flag).Some? && Truthy(Get(c.rec, flag).value) ==>
              ArnoldRule(c, key, Num(v))
              == if c.scale == 0.0 then Err(MathDomainError)
                 else Ok([SetParm(p, Num(v + 2.0 * Log2(c.t, Abs(c.scale))))])
    ensures !MantraRules.IsTag(c, "directionalLight") && !(Get(c.rec, flag).Some? && Truthy(Get(c.rec, flag).value)) ==>
              && ArnoldRule(c, key, Num(v)).Ok?
              && Effect(ArnoldRule(c, key, Num(v)).value) == map[p := Num(v)]
  {
    if key == aiExposure {
      assert ArnoldRule(c, key, Num(v)) == ArnoldExposureRule(c, aiExposure, aiNormalize, Num(v));
    } else {
      assert ArnoldRule(c, key, Num(v)) == ArnoldExposureRule(c, exposure, normalize, Num(v));
    }
    LightExposureLaw(c.t, v, 1.0, 1.0, c.scale);
    Log2OfOne(c.t);
    assert c.scale / 1.0 == c.scale;
    MantraKeyLaws.SetDestLaw(c, key, p, Num(v));
  }

  /** The cone angle: widened by twice the penumbra when the penumbra is not negative, kept
      otherwise; a record without a penumbra is a KeyError. */
  lemma ArnoldConeLaw(c: Ctx, v: real, p: string)
    requires ParmOf(c, coneAngle) == Ok(p)
    ensures Get(c.rec, penumbraAngle).None? ==> ArnoldRule(c, coneAngle, Num(v)) == Err(KeyError)
    ensures Get(c.rec, penumbraAngle).Some? && Get(c.rec, penumbraAngle).value.Num? ==>
              var pen := Get(c.rec, penumbraAngle).value.r;
              && ArnoldRule(c, coneAngle, Num(v)).Ok?
              && Effect(ArnoldRule(c, coneAngle, Num(v)).value) == map[p := Num(if pen < 0.0 then v else v + pen * 2.0)]
  {
    assert ArnoldRule(c, coneAngle, Num(v)) == ConeRule(c, Num(v));
    if Get(c.rec, penumbraAngle).Some? && Get(c.rec, penumbraAngle).value.Num? {
      var pen := Get(c.rec, penumbraAngle).value.r;
      assert MantraRules.NumberAt(c.rec, penumbraAngle) == Ok(pen);
      MantraKeyLaws.SetDestLaw(c, coneAngle, p, Num(if pen < 0.0 then v else v + pen * 2.0));
    }
  }

  /** A wider penumbra never narrows the cone: the cone angle written is at least the
      exported one. */
  lemma ArnoldConeWidens(c: Ctx, v: real, p: string)
    requires ParmOf(c, coneAngle) == Ok(p)
    requires Get(c.rec, penumbraAngle).Some? && Get(c.rec, penumbraAngle).value.Num?
    ensures ArnoldRule(c, coneAngle, Num(v)).Ok?
    ensures p in Effect(ArnoldRule(c, coneAngle, Num(v)).value)
    ensures Effect(ArnoldRule(c, coneAngle, Num(v)).value)[p].Num?
    ensures Effect(ArnoldRule(c, coneAngle, Num(v)).value)[p].r >= v
  {
    ArnoldConeLaw(c, v, p);
  }

  /** The penumbra is written as its absolute value, never negative; a string is a
      TypeError. */
  lemma ArnoldPenumbraLaw(c: Ctx, value: Value, p: string)
    requires ParmOf(c, penumbraAngle) == Ok(p)
    ensures value.Str? ==> ArnoldRule(c, penumbraAngle, value) == Err(TypeError)
    ensures !value.Str? ==>
              && ArnoldRule(c, penumbraAngle, value).Ok?
              && Effect(ArnoldRule(c, penumbraAngle, value).value) == map[p := Num(Abs(AsReal(value).value))]
              && Abs(AsReal(value).value) >= 0.0
              && (AsReal(value).value >= 0.0 ==> Abs(AsReal(value).value) == AsReal(value).value)
  {
    assert ArnoldRule(c, penumbraAngle, value) == SetDest(c, penumbraAngle, AbsValue(value));
    if !value.Str? {
      MantraKeyLaws.SetDestLaw(c, penumbraAngle, p, Num(Abs(AsReal(value).value)));
    }
  }

  /** A texture sets the colour type to texture (1) and the texture path, whatever the light
      type. */
  lemma ArnoldTextureLaw(c: Ctx, value: Value)
    ensures ArnoldRule(c, texture_map, value).Ok?
    ensures Effect(ArnoldRule(c, texture_map, value).value)
            == map["ar_light_color_type" := Num(1.0), "ar_light_color_texture" := value]
  {
    EffectOfSets("ar_light_color_type", "ar_light_color_texture", "", "", Num(1.0), value, Num(0.0), Num(0.0));
  }

  /** The light type: `ar_light_type` takes the catalog's sub-type of the exported node type. */
  lemma ArnoldNodeTypeLaw(c: Ctx, value: Value, entry: Entry, sub: Field)
    requires EntryFor(c.doc, c.renderer, value) == Ok(entry)
    requires Lookup(entry, "light_node_sub_type") == Ok(sub)
    ensures FieldValue(sub).Ok? ==>
              && ArnoldRule(c, nodeType, value).Ok?
              && Effect(ArnoldRule(c, nodeType, value).value) == map["ar_light_type" := FieldValue(sub).value]
    ensures FieldValue(sub).Err? ==> ArnoldRule(c, nodeType, value) == Err(TypeError)
  {
    assert ArnoldRule(c, nodeType, value)
        == (match FieldValue(sub)
            case Err(e) => Err(e)
            case Ok(x) => Ok([SetParm("ar_light_type", x)]));
    if FieldValue(sub).Ok? {
      EffectOfSets("ar_light_type", "", "", "", FieldValue(sub).value, Num(0.0), Num(0.0), Num(0.0));
    }
  }

  /** Every other key is written unchanged to its destination parm. */
  lemma ArnoldPlainLaw(c: Ctx, key: Attr, value: Value, p: string)
    requires key !in {nodeType, translateX, translateY, translateZ, scaleX, scaleY, scaleZ, aiExposure,
                      exposure, aiRadius, coneAngle, penumbraAngle, texture_map}
    requires ParmOf(c, key) == Ok(p)
    ensures ArnoldRule(c, key, value).Ok?
    ensures Effect(ArnoldRule(c, key, value).value) == map[p := value]
  {
    assert ArnoldRule(c, key, value) == SetDest(c, key, Ok(value));
    MantraKeyLaws.SetDestLaw(c, key, p, value);
  }
}
