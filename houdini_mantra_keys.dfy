/**
 * What the Mantra parm loop sets for the placement, radius, roundness, soft-edge and texture
 * keys of a light record, in closed form.
 */
module MantraKeyLaws {
  import opened PyValues
  import opened LightParms
  import opened Transcendentals
  import opened ExposureCalc
  import opened HoudiniHost
  import opened MantraRules

  /** A single parm set leaves exactly that parm. */
  lemma SetDestLaw(c: Ctx, key: Attr, p: string, x: Value)
    requires ParmOf(c, key) == Ok(p)
    ensures SetDest(c, key, Ok(x)).Ok?
    ensures Effect(SetDest(c, key, Ok(x)).value) == map[p := x]
  {
    EffectOfSets(p, "", "", "", x, Num(0.0), Num(0.0), Num(0.0));
  }

  /** A map with the one key `p`, holding the number `y`. */
  lemma SingletonMap(e: map<string, Value>, p: string, y: real)
    requires e.Keys == {p} && e[p].Num? && e[p].r == y
    ensures e == map[p := Num(y)]
  {
  }

  /** `v * k` on a number, field by field. */
  lemma TimesValue(v: real, k: real)
    ensures Times(Num(v), k).Ok? && Times(Num(v), k).value.Num? && Times(Num(v), k).value.r == v * k
  {
    assert AsReal(Num(v)) == Ok(v);
  }

  /** A parm set to `v * k`. */
  lemma SetDestTimes(c: Ctx, key: Attr, p: string, v: real, k: real)
    requires ParmOf(c, key) == Ok(p)
    ensures SetDest(c, key, Times(Num(v), k)).Ok?
    ensures Effect(SetDest(c, key, Times(Num(v), k)).value) == map[p := Num(v * k)]
  {
    TimesValue(v, k);
    assert Times(Num(v), k) == Ok(Num(v * k));
    SetDestLaw(c, key, p, Num(v * k));
  }

  /** Translation is scaled by the scene scale. */
  lemma TranslateLaw(c: Ctx, node: Node, key: Attr, v: real, p: string)
    requires key == translateX || key == translateY || key == translateZ
    requires ParmOf(c, key) == Ok(p)
    ensures MantraRule(c, node, key, Num(v)).Ok?
    ensures Effect(MantraRule(c, node, key, Num(v)).value) == map[p := Num(v * c.scale)]
  {
    SetDestTimes(c, key, p, v, c.scale);
    if key == translateX {
      assert MantraRule(c, node, translateX, Num(v)) == SetDest(c, translateX, Times(Num(v), c.scale));
    } else if key == translateY {
      assert MantraRule(c, node, translateY, Num(v)) == SetDest(c, translateY, Times(Num(v), c.scale));
    } else {
      assert key == translateZ;
      assert MantraRule(c, node, translateZ, Num(v)) == SetDest(c, translateZ, Times(Num(v), c.scale));
    }
  }

  /** Rotation: a cylinder turns the other way about X and a quarter turn further about Z;
      the sky dome turns half a turn further about Y; other lights keep the angle. */
  lemma RotateLaw(c: Ctx, node: Node, key: Attr, v: real, p: string)
    requires key == rotateX || key == rotateY || key == rotateZ
    requires ParmOf(c, key) == Ok(p)
    ensures MantraRule(c, node, key, Num(v)).Ok?
    ensures key == rotateX ==>
              Effect(MantraRule(c, node, key, Num(v)).value) == map[p := Num(if IsCylinder(c) then -v else v)]
    ensures key == rotateY ==>
              Effect(MantraRule(c, node, key, Num(v)).value)
              == map[p := Num(if IsTag(c, "aiSkyDomeLight") then v + 180.0 else v)]
    ensures key == rotateZ ==>
              Effect(MantraRule(c, node, key, Num(v)).value) == map[p := Num(if IsCylinder(c) then v + 90.0 else v)]
  {
    if key == rotateX {
      var x := Num(if IsCylinder(c) then -v else v);
      SetDestLaw(c, key, p, x);
      assert MantraRule(c, node, rotateX, Num(v)) == SetDest(c, key, Ok(x));
    } else if key == rotateY {
      var x := Num(if IsTag(c, "aiSkyDomeLight") then v + 180.0 else v);
      SetDestLaw(c, key, p, x);
      assert MantraRule(c, node, rotateY, Num(v)) == SetDest(c, key, Ok(x));
    } else {
      var x := Num(if IsCylinder(c) then v + 90.0 else v);
      SetDestLaw(c, key, p, x);
      assert MantraRule(c, node, rotateZ, Num(v)) == SetDest(c, key, Ok(x));
    }
  }

  /** Scale: X and Y double at the scene scale; the angle of a directional light is halved. */
  lemma ScaleLaw(c: Ctx, node: Node, key: Attr, v: real, p: string)
    requires key == scaleX || key == scaleY || key == aiAngle
    requires ParmOf(c, key) == Ok(p)
    ensures MantraRule(c, node, key, Num(v)).Ok?
    ensures key != aiAngle ==> Effect(MantraRule(c, node, key, Num(v)).value) == map[p := Num(v * (2.0 * c.scale))]
    ensures key == aiAngle ==> Effect(MantraRule(c, node, key, Num(v)).value) == map[p := Num(v * 0.5)]
  {
    var k := if key == aiAngle then 0.5 else 2.0 * c.scale;
    SetDestTimes(c, key, p, v, k);
    if key == scaleX {
      assert MantraRule(c, node, scaleX, Num(v)) == SetDest(c, scaleX, Times(Num(v), k));
    } else if key == scaleY {
      assert MantraRule(c, node, scaleY, Num(v)) == SetDest(c, scaleY, Times(Num(v), k));
    } else {
      assert MantraRule(c, node, aiAngle, Num(v)) == SetDest(c, aiAngle, Times(Num(v), k));
    }
    var e := Effect(MantraRule(c, node, key, Num(v)).value);
    assert e == map[p := Num(v * k)];
    SingletonMap(e, p, if key == aiAngle then v * 0.5 else v * (2.0 * c.scale));
  }

  /** `cylinderC`'s length, field by field. */
  lemma CylinderLengthValue(c: Ctx, v: real, sx: real)
    requires Get(c.rec, scaleX) == Some(Num(sx))
    ensures CylinderLength(c, Num(v)).Ok? && CylinderLength(c, Num(v)).value.Num?
    ensures CylinderLength(c, Num(v)).value.r == (v + sx) / 2.0 * (40.0 / 3.0) * c.scale
  {
    assert AsReal(Num(v)) == Ok(v) && AsReal(Num(sx)) == Ok(sx);
  }

  /** `cylinderC`'s length: the mean of the X and Z scales, times `40/3` and the scene scale. */
  lemma CylinderLengthLaw(c: Ctx, v: real, sx: real)
    requires Get(c.rec, scaleX) == Some(Num(sx))
    ensures CylinderLength(c, Num(v)) == Ok(Num((v + sx) / 2.0 * (40.0 / 3.0) * c.scale))
  {
    CylinderLengthValue(c, v, sx);
  }

  /** Scale along Z: the scene scale, except on `cylinderC`, whose length is the mean of its X
      and Z scales times `40/3` at the scene scale, and a TypeError without an X scale. */
  lemma ScaleZLaw(c: Ctx, node: Node, v: real, p: string)
    requires ParmOf(c, scaleZ) == Ok(p)
    ensures !IsTag(c, "cylinderC") ==>
              MantraRule(c, node, scaleZ, Num(v)).Ok? &&
              Effect(MantraRule(c, node, scaleZ, Num(v)).value) == map[p := Num(v * c.scale)]
    ensures IsTag(c, "cylinderC") && Get(c.rec, scaleX).Some? && Get(c.rec, scaleX).value.Num? ==>
              && MantraRule(c, node, scaleZ, Num(v)).Ok?
              && Effect(MantraRule(c, node, scaleZ, Num(v)).value).Keys == {p}
              && Effect(MantraRule(c, node, scaleZ, Num(v)).value)[p].Num?
              && Effect(MantraRule(c, node, scaleZ, Num(v)).value)[p].r
                 == (v + Get(c.rec, scaleX).value.r) / 2.0 * (40.0 / 3.0) * c.scale
    ensures IsTag(c, "cylinderC") && Get(c.rec, scaleX).None? ==> MantraRule(c, node, scaleZ, Num(v)) == Err(TypeError)
  {
    assert MantraRule(c, node, scaleZ, Num(v))
        == SetDest(c, scaleZ, if IsTag(c, "cylinderC") then CylinderLength(c, Num(v)) else Times(Num(v), c.scale));
    if !IsTag(c, "cylinderC") {
      var k := c.scale;
      SetDestTimes(c, scaleZ, p, v, k);
      assert MantraRule(c, node, scaleZ, Num(v)) == SetDest(c, scaleZ, Times(Num(v), k));
      var e := Effect(MantraRule(c, node, scaleZ, Num(v)).value);
      assert e == map[p := Num(v * k)];
      SingletonMap(e, p, v * c.scale);
    } else if Get(c.rec, scaleX).Some? && Get(c.rec, scaleX).value.Num? {
      var sx := Get(c.rec, scaleX).value.r;
      CylinderLengthValue(c, v, sx);
      var len := CylinderLength(c, Num(v)).value;
      SetDestLaw(c, scaleZ, p, len);
      assert MantraRule(c, node, scaleZ, Num(v)) == SetDest(c, scaleZ, Ok(len));
    }
  }

  /** Radius: both area sizes become the diameter at the scene scale; a string radius is a
      TypeError. */
  lemma RadiusLaw(c: Ctx, node: Node, value: Value, p0: string, p1: string)
    requires DestOf(c, aiRadius) == Ok(Many([p0, p1]))
    ensures value.Str? ==> MantraRule(c, node, aiRadius, value) == Err(TypeError)
    ensures !value.Str? ==>
              && MantraRule(c, node, aiRadius, value).Ok?
              && Effect(MantraRule(c, node, aiRadius, value).value)
                 == map[p0 := Num(AsReal(value).value * (2.0 * c.scale))][p1 := Num(AsReal(value).value * (2.0 * c.scale))]
  {
    if !value.Str? {
      var d := Times(value, 2.0 * c.scale).value;
      var d0 := Many([p0, p1]);
      assert DestAt(d0, 0) == Ok(p0) && DestAt(d0, 1) == Ok(p1);
      assert MantraRule(c, node, aiRadius, value) == Ok([SetParm(p0, d), SetParm(p1, d)]);
      EffectOfSets(p0, p1, "", "", d, d, Num(0.0), Num(0.0));
      var e := Effect(MantraRule(c, node, aiRadius, value).value);
      PairMap(e, p0, p1, AsReal(value).value * (2.0 * c.scale));
    }
  }

  /** A map with the keys `p0` and `p1`, both holding the number `y`. */
  lemma PairMap(e: map<string, Value>, p0: string, p1: string, y: real)
    requires e.Keys == {p0, p1} && e[p0].Num? && e[p0].r == y && e[p1].Num? && e[p1].r == y
    ensures e == map[p0 := Num(y)][p1 := Num(y)]
  {
  }

  /** Roundness above one half turns the light into the catalog's disk type; otherwise nothing
      is set; a string roundness is a TypeError. */
  lemma RoundnessLaw(c: Ctx, node: Node, v: real, disk: Entry, sub: Field)
    requires EntryFor(c.doc, c.renderer, Str("disk")) == Ok(disk)
    requires Get(disk, "light_node_sub_type") == Some(sub) && !sub.Parms?
    ensures MantraRule(c, node, aiRoundness, Num(v)).Ok?
    ensures v > 0.5 ==> Effect(MantraRule(c, node, aiRoundness, Num(v)).value) == map["light_type" := FieldValue(sub).value]
    ensures v <= 0.5 ==> Effect(MantraRule(c, node, aiRoundness, Num(v)).value) == map[]
  {
    assert MantraRule(c, node, aiRoundness, Num(v)) == RoundnessRule(c, Num(v));
    assert Lookup(disk, "light_node_sub_type") == Ok(sub);
    EffectOfSets("light_type", "", "", "", FieldValue(sub).value, Num(0.0), Num(0.0), Num(0.0));
  }

  /** A non-zero soft edge at a non-zero scale sets the edge width and then fits the light's
      exposure (`aiExposure`, else `exposure`) between the current Mantra exposure (soft edge
      0) and the minimum (soft edge 1), with the normalize flag (`aiNormalize`, else
      `normalize`) choosing the minimum. */
  lemma SoftEdgeRuleLaw(c: Ctx, node: Node, value: Value, p: string, n: Value, e: real)
    requires Lawful(c.t) && c.scale != 0.0
    requires ParmOf(c, aiSoftEdge) == Ok(p) && p != "light_exposure"
    requires EitherAt(c.rec, aiNormalize, normalize) == Ok(n)
    requires EitherAt(c.rec, aiExposure, exposure) == Ok(Num(e))
    ensures !value.Str? && !EqualsNumber(value, 0.0) ==>
              && MantraRule(c, node, aiSoftEdge, value).Ok?
              && var v := AsReal(value).value;
                 Effect(MantraRule(c, node, aiSoftEdge, value).value)
                 == map[p := value]["light_exposure" := Num(v * SoftEdgeMinimum(c.t, n, e, c.scale)
                                                            + (1.0 - v) * MantraExposure(c.t, e, c.scale))]
  {
    if !value.Str? && !EqualsNumber(value, 0.0) {
      assert MantraRule(c, node, aiSoftEdge, value) == SoftEdgeRule(c, value);
      SoftEdgeLaw(c.t, n, e, c.scale, value);
      var v := AsReal(value).value;
      FitSoftEdgeLaw(v, SoftEdgeMinimum(c.t, n, e, c.scale), MantraExposure(c.t, e, c.scale));
      var y := v * SoftEdgeMinimum(c.t, n, e, c.scale) + (1.0 - v) * MantraExposure(c.t, e, c.scale);
      EffectOfSets(p, "light_exposure", "", "", value, Num(y), Num(0.0), Num(0.0));
    }
  }

  /** A zero soft edge only sets the edge parm; a string soft edge is a TypeError, raised when
      the exposure calculation multiplies by it. */
  lemma SoftEdgeZeroLaw(c: Ctx, node: Node, value: Value, p: string, n: Value, e: real)
    requires Lawful(c.t) && c.scale != 0.0
    requires ParmOf(c, aiSoftEdge) == Ok(p)
    requires EitherAt(c.rec, aiNormalize, normalize) == Ok(n)
    requires EitherAt(c.rec, aiExposure, exposure) == Ok(Num(e))
    ensures EqualsNumber(value, 0.0) ==>
              MantraRule(c, node, aiSoftEdge, value).Ok? && Effect(MantraRule(c, node, aiSoftEdge, value).value) == map[p := value]
    ensures value.Str? ==> MantraRule(c, node, aiSoftEdge, value) == Err(TypeError)
  {
    assert MantraRule(c, node, aiSoftEdge, value) == SoftEdgeRule(c, value);
    SoftEdgeLaw(c.t, n, e, c.scale, value);
    EffectOfSets(p, "", "", "", value, Num(0.0), Num(0.0), Num(0.0));
  }

  /** A non-zero soft edge on a record with neither normalize flag is a KeyError. */
  lemma SoftEdgeMissingFlagLaw(c: Ctx, node: Node, value: Value, p: string)
    requires ParmOf(c, aiSoftEdge) == Ok(p) && !EqualsNumber(value, 0.0)
    requires Get(c.rec, aiNormalize).None? && Get(c.rec, normalize).None?
    ensures MantraRule(c, node, aiSoftEdge, value) == Err(KeyError)
  {
  }

  /** The texture map: the sky dome's environment map; for a grid or quad light the texture
      node named by `texture_node` (a KeyError without one) and the material path
      `/mat/<name>`; nothing for any other light. */
  lemma TextureLaw(c: Ctx, node: Node, value: Value)
    ensures IsTag(c, "aiSkyDomeLight") ==> MantraRule(c, node, texture_map, value) == Ok([SetParm("env_map", value)])
    ensures !IsTag(c, "aiSkyDomeLight") && (IsTag(c, "areaLight") || IsTag(c, "quad")) ==>
              var n := Get(c.rec, texture_node);
              && (n.None? ==> MantraRule(c, node, texture_map, value) == Err(KeyError))
              && (n.Some? && n.value.Str? ==>
                    MantraRule(c, node, texture_map, value)
                    == Ok([UseTexture(n.value.s, value), SetParm("shop_materialpath", Str("/mat/" + n.value.s))]))
              && (n.Some? && !n.value.Str? ==> MantraRule(c, node, texture_map, value) == Err(TypeError))
    ensures !IsTag(c, "aiSkyDomeLight") && !IsTag(c, "areaLight") && !IsTag(c, "quad") ==>
              MantraRule(c, node, texture_map, value) == Ok([])
  {
  }
}
