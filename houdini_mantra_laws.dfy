/**
 * What the Mantra parm loop leaves on the light node, key by key: the parms each rule sets
 * and their final values (`Effect` of its actions), in terms of the record and the catalog.
 */
module MantraLaws {
  import opened PyValues
  import opened LightParms
  import opened Transcendentals
  import opened ExposureCalc
  import opened HoudiniHost
  import opened MantraRules

  /** The parm of contribution slot `k` (counted from 1). */
  function SlotName(k: nat): string {
    "light_contribname" + NatStr(k)
  }

  /** Slot names of different slots differ. */
  lemma SlotNameInjective(a: nat, b: nat)
    requires SlotName(a) == SlotName(b)
    ensures a == b
  {
    var prefix := "light_contribname";
    assert SlotName(a)[|prefix|..] == NatStr(a);
    assert SlotName(b)[|prefix|..] == NatStr(b);
    NatStrInjective(a, b);
  }

  /** With the contribution names in the catalog and a count that fits, slots 1 to `count`
      are set to the first `count` names in catalog order and nothing else is set; a count
      beyond the names is an IndexError and a count of zero or less sets nothing. */
  lemma ContributionSlotsLaw(doc: LightData, count: int, names: OrderedDict<string, string>)
    requires Get(doc, "light_contribution_parms") == Some(ContribNames(names))
    ensures count <= 0 ==> ContributionSlots(doc, count) == Ok([])
    ensures count > |Keys(names)| ==> ContributionSlots(doc, count) == Err(IndexError)
    ensures 0 <= count <= |Keys(names)| ==>
              && ContributionSlots(doc, count).Ok?
              && (forall p :: p in Effect(ContributionSlots(doc, count).value) <==>
                                exists k :: 1 <= k <= count && p == SlotName(k))
              && (forall k :: 1 <= k <= count ==>
                    SlotName(k) in Effect(ContributionSlots(doc, count).value) &&
                    Effect(ContributionSlots(doc, count).value)[SlotName(k)] == Str(Keys(names)[k - 1]))
  {
    if 0 <= count <= |Keys(names)| {
      SlotsDomain(doc, count, names);
      SlotsValues(doc, count, names);
    }
  }

  /** The slots set are exactly slots 1 to `count`. */
  lemma SlotsDomain(doc: LightData, count: int, names: OrderedDict<string, string>)
    requires Get(doc, "light_contribution_parms") == Some(ContribNames(names))
    requires 0 <= count <= |Keys(names)|
    ensures ContributionSlots(doc, count).Ok?
    ensures forall p :: p in Effect(ContributionSlots(doc, count).value) <==>
                        exists k :: 1 <= k <= count && p == SlotName(k)
  {
    var acts := ContributionSlots(doc, count).value;
    assert forall i :: 0 <= i < count ==> acts[i] == SetParm(SlotName(i + 1), Str(Keys(names)[i]));
    forall p ensures p in Effect(acts) <==> exists k :: 1 <= k <= count && p == SlotName(k) {
      EffectHas(acts, p);
      if exists k :: 1 <= k <= count && p == SlotName(k) {
        var k :| 1 <= k <= count && p == SlotName(k);
        assert acts[k - 1].parm == p;
      }
    }
  }

  /** Slot `k` holds the `k`-th contribution name. */
  lemma SlotsValues(doc: LightData, count: int, names: OrderedDict<string, string>)
    requires Get(doc, "light_contribution_parms") == Some(ContribNames(names))
    requires 0 <= count <= |Keys(names)|
    ensures ContributionSlots(doc, count).Ok?
    ensures forall k :: 1 <= k <= count ==>
              SlotName(k) in Effect(ContributionSlots(doc, count).value) &&
              Effect(ContributionSlots(doc, count).value)[SlotName(k)] == Str(Keys(names)[k - 1])
  {
    if count == 0 {
      return;
    }
    var acts := ContributionSlots(doc, count).value;
    assert forall i :: 0 <= i < count ==> acts[i] == SetParm(SlotName(i + 1), Str(Keys(names)[i]));
    forall k | 1 <= k <= count
      ensures SlotName(k) in Effect(acts) && Effect(acts)[SlotName(k)] == Str(Keys(names)[k - 1])
    {
      forall j | k - 1 < j < count ensures acts[j].parm != SlotName(k) {
        if acts[j].parm == SlotName(k) {
          SlotNameInjective(j + 1, k);
        }
      }
      assert acts[k - 1] == SetParm(SlotName(k), Str(Keys(names)[k - 1]));
      EffectLastValue(acts, SlotName(k), k - 1);
    }
  }

  /** The `nodeType` rule as one action list: light type, type defaults, count, slots. */
  lemma NodeTypeSplit(c: Ctx, tag: Value, entry: Entry, sub: Field, count: nat)
    requires EntryFor(c.doc, c.renderer, tag) == Ok(entry)
    requires Get(entry, "light_node_sub_type") == Some(sub) && !sub.Parms?
    requires Get(entry, "num_of_light_contrib") == Some(Int(count))
    requires ContributionSlots(c.doc, count).Ok?
    ensures NodeTypeRule(c, tag) ==
            Ok((if tag == Str("aiSkyDomeLight") then [] else [SetParm("light_type", FieldValue(sub).value)])
               + TypeDefaults(tag) + [SetParm("light_contrib", Num(count as real))] + ContributionSlots(c.doc, count).value)
  {
    assert Lookup(entry, "num_of_light_contrib") == Ok(Int(count));
    assert Lookup(entry, "light_node_sub_type") == Ok(sub);
  }

  /** The `nodeType` key, when the catalog has the tag with a sub-type that is a name or a
      number, an integer contribution count and enough contribution names: the light type is
      the catalog sub-type (left alone for the sky dome), `light_contrib` is the count, slot
      `k` is the `k`-th contribution name, and the type's defaults stay set. */
  lemma NodeTypeLaw(c: Ctx, tag: Value, entry: Entry, sub: Field, count: nat,
                    names: OrderedDict<string, string>)
    requires EntryFor(c.doc, c.renderer, tag) == Ok(entry)
    requires Get(entry, "light_node_sub_type") == Some(sub) && !sub.Parms?
    requires Get(entry, "num_of_light_contrib") == Some(Int(count))
    requires Get(c.doc, "light_contribution_parms") == Some(ContribNames(names)) && count <= |Keys(names)|
    ensures NodeTypeRule(c, tag).Ok?
    ensures var e := Effect(NodeTypeRule(c, tag).value);
            && "light_contrib" in e && e["light_contrib"] == Num(count as real)
            && (tag != Str("aiSkyDomeLight") ==> "light_type" in e && e["light_type"] == FieldValue(sub).value)
            && (tag == Str("aiSkyDomeLight") ==> "light_type" !in e)
            && (forall k :: 1 <= k <= count ==> SlotName(k) in e && e[SlotName(k)] == Str(Keys(names)[k - 1]))
            && (forall p :: p in Effect(TypeDefaults(tag)) ==> p in e && e[p] == Effect(TypeDefaults(tag))[p])
  {
    SlotsValues(c.doc, count, names);
    SlotsLong(c.doc, count, names);
    NodeTypeSplit(c, tag, entry, sub, count);
    NodeTypeEffect(tag, FieldValue(sub).value, count, ContributionSlots(c.doc, count).value, Keys(names));
  }

  /** The effect of the `nodeType` actions, given slots that set long parms, slot `k` to
      the `k`-th name. */
  lemma NodeTypeEffect(tag: Value, lt: Value, count: nat, slots: seq<Action>, names: seq<string>)
    requires count <= |names|
    requires forall p :: p in Effect(slots) ==> |p| >= 18
    requires forall k :: 1 <= k <= count ==> SlotName(k) in Effect(slots) && Effect(slots)[SlotName(k)] == Str(names[k - 1])
    ensures var e := Effect((if tag == Str("aiSkyDomeLight") then [] else [SetParm("light_type", lt)])
                            + TypeDefaults(tag) + [SetParm("light_contrib", Num(count as real))] + slots);
            && "light_contrib" in e && e["light_contrib"] == Num(count as real)
            && (tag != Str("aiSkyDomeLight") ==> "light_type" in e && e["light_type"] == lt)
            && (tag == Str("aiSkyDomeLight") ==> "light_type" !in e)
            && (forall k :: 1 <= k <= count ==> SlotName(k) in e && e[SlotName(k)] == Str(names[k - 1]))
            && (forall p :: p in Effect(TypeDefaults(tag)) ==> p in e && e[p] == Effect(TypeDefaults(tag))[p])
  {
    TypeDefaultsShort(tag);
    if tag == Str("aiSkyDomeLight") {
      NodeTypeLayers([], TypeDefaults(tag), Num(count as real), slots);
    } else {
      var typeSet := SetParm("light_type", lt);
      assert Effect([typeSet]) == map["light_type" := lt];
      NodeTypeLayers([typeSet], TypeDefaults(tag), Num(count as real), slots);
    }
  }

  /** The four layers of the `nodeType` actions keep apart: the light type, the defaults, the
      count and the slots touch different parms. */
  lemma NodeTypeLayers(sub: seq<Action>, defaults: seq<Action>, n: Value, slots: seq<Action>)
    requires forall p :: p in Effect(sub) ==> p == "light_type"
    requires forall p :: p in Effect(defaults) ==> |p| < 18 && p != "light_type" && p != "light_contrib"
    requires forall p :: p in Effect(slots) ==> |p| >= 18
    ensures var e := Effect(sub + defaults + [SetParm("light_contrib", n)] + slots);
            && "light_contrib" in e && e["light_contrib"] == n
            && (forall p :: p in Effect(sub) ==> p in e && e[p] == Effect(sub)[p])
            && ("light_type" !in Effect(sub) ==> "light_type" !in e)
            && (forall p :: p in Effect(slots) ==> p in e && e[p] == Effect(slots)[p])
            && (forall p :: p in Effect(defaults) ==> p in e && e[p] == Effect(defaults)[p])
  {
    var mid := defaults + [SetParm("light_contrib", n)];
    assert sub + defaults + [SetParm("light_contrib", n)] + slots == (sub + mid) + slots;
    EffectAppend(sub + mid, slots);
    EffectAppend(sub, mid);
    EffectSnoc(defaults, SetParm("light_contrib", n));
  }

  /** Slot parm names are at least 18 characters long. */
  lemma SlotsLong(doc: LightData, count: int, names: OrderedDict<string, string>)
    requires Get(doc, "light_contribution_parms") == Some(ContribNames(names))
    requires 0 <= count <= |Keys(names)|
    ensures forall p :: p in Effect(ContributionSlots(doc, count).value) ==> |p| >= 18
  {
    SlotsDomain(doc, count, names);
    forall p | p in Effect(ContributionSlots(doc, count).value) ensures |p| >= 18 {
      var k :| 1 <= k <= count && p == SlotName(k);
    }
  }

  /** The defaults of a light type set short parms other than `light_type` and `light_contrib`. */
  lemma TypeDefaultsShort(tag: Value)
    ensures forall p :: p in Effect(TypeDefaults(tag)) ==> |p| < 18 && p != "light_type" && p != "light_contrib"
  {
    EffectOfSets("coneenable", "singlesided", "edgeenable", "", Bool(true), Bool(true), Bool(true), Num(0.0));
    EffectOfSets("rOrd", "singlesided", "", "", Num(2.0), Bool(true), Num(0.0), Num(0.0));
  }

  /** Dropoff 0 or 1: the roll is 1; a penumbra and a cone both of at least 90 become 0 and
      90; a penumbra of at least 90 with a narrower cone only sets the penumbra to 90; a
      penumbra under 90 copies both angles. */
  lemma DropoffFlatLaw(c: Ctx, node: Node, value: Value, roll: string, cp: string, pp: string, pen: Value, cone: Value)
    requires EqualsNumber(value, 0.0) || EqualsNumber(value, 1.0)
    requires ParmOf(c, dropoff) == Ok(roll) && ParmOf(c, coneAngle) == Ok(cp) && ParmOf(c, penumbraAngle) == Ok(pp)
    requires Get(c.rec, penumbraAngle) == Some(pen) && Get(c.rec, coneAngle) == Some(cone) && !pen.Str? && !cone.Str?
    ensures MantraRule(c, node, dropoff, value).Ok?
    ensures var e := Effect(MantraRule(c, node, dropoff, value).value);
            var p := AsReal(pen).value;
            var k := AsReal(cone).value;
            && (p >= 90.0 && k >= 90.0 ==> e == map[roll := Num(1.0)][cp := Num(0.0)][pp := Num(90.0)])
            && (p >= 90.0 && k < 90.0 ==> e == map[roll := Num(1.0)][pp := Num(90.0)])
            && (p < 90.0 ==> e == map[roll := Num(1.0)][cp := cone][pp := pen])
  {
    EffectOfSets(roll, cp, pp, "", Num(1.0), Num(0.0), Num(90.0), Num(0.0));
    EffectOfSets(roll, pp, "", "", Num(1.0), Num(90.0), Num(0.0), Num(0.0));
    EffectOfSets(roll, cp, pp, "", Num(1.0), cone, pen, Num(0.0));
  }

  /** The roll a dropoff strictly between 0 and 1 gets: `1 - log_100(100 - 100 v)`. */
  function Roll(t: Transcendental, v: real): real
    requires Log2(t, 100.0) != 0.0
  {
    1.0 - Log2(t, 100.0 - v * 100.0) / Log2(t, 100.0)
  }

  /** `log2 100` is positive. */
  lemma Log2OfHundred(t: Transcendental)
    requires Lawful(t)
    ensures Log2(t, 100.0) > 0.0
  {
    Log2OfOne(t);
    Log2Increasing(t, 1.0, 100.0);
  }

  /** Dropoff strictly between 0 and 1 sets only the roll, to `Roll`, which is positive. */
  lemma DropoffRollLaw(c: Ctx, node: Node, v: real, roll: string)
    requires Lawful(c.t) && 0.0 < v < 1.0
    requires ParmOf(c, dropoff) == Ok(roll)
    ensures MantraRule(c, node, dropoff, Num(v)).Ok?
    ensures Effect(MantraRule(c, node, dropoff, Num(v)).value) == map[roll := Num(Roll(c.t, v))]
    ensures Roll(c.t, v) > 0.0
  {
    Log2OfHundred(c.t);
    Log2Increasing(c.t, 100.0 - v * 100.0, 100.0);
    assert Log2(c.t, 100.0 - v * 100.0) / Log2(c.t, 100.0) < 1.0;
    EffectOfSets(roll, "", "", "", Num(Roll(c.t, v)), Num(0.0), Num(0.0), Num(0.0));
  }

  /** The roll grows with the dropoff. */
  lemma RollIncreasing(t: Transcendental, v: real, w: real)
    requires Lawful(t) && 0.0 < v < w < 1.0
    ensures Log2(t, 100.0) > 0.0 && Roll(t, v) < Roll(t, w)
  {
    Log2OfHundred(t);
    Log2Increasing(t, 100.0 - w * 100.0, 100.0 - v * 100.0);
    var d := Log2(t, 100.0);
    assert Log2(t, 100.0 - w * 100.0) / d < Log2(t, 100.0 - v * 100.0) / d;
  }

  /** A negative dropoff writes nothing. */
  lemma DropoffNegativeLaw(c: Ctx, node: Node, v: real)
    requires v < 0.0
    ensures MantraRule(c, node, dropoff, Num(v)) == Ok([])
  {
  }

  /** Dropoff above 1 on a `spotLightP`: sharp spot off, cone 0, roll the dropoff, and the
      penumbra 90 or the penumbra plus half the cone when the penumbra is the wider angle,
      otherwise half the sum of both, at most 90. */
  lemma DropoffSpotLaw(c: Ctx, node: Node, v: real, roll: string, cp: string, pp: string, pen: real, cone: real)
    requires v > 1.0 && IsTag(c, "spotLightP")
    requires ParmOf(c, dropoff) == Ok(roll) && ParmOf(c, coneAngle) == Ok(cp) && ParmOf(c, penumbraAngle) == Ok(pp)
    requires Get(c.rec, penumbraAngle) == Some(Num(pen)) && Get(c.rec, coneAngle) == Some(Num(cone))
    ensures MantraRule(c, node, dropoff, Num(v)).Ok?
    ensures var e := Effect(MantraRule(c, node, dropoff, Num(v)).value);
            && (pen > cone && pen >= 90.0 ==>
                  e == map["sharpspot" := Bool(false)][cp := Num(0.0)][roll := Num(v)][pp := Num(90.0)])
            && (pen > cone && pen < 90.0 ==>
                  e == map["sharpspot" := Bool(false)][cp := Num(0.0)][roll := Num(v)][pp := Num(pen + cone / 2.0)])
            && (pen <= cone && cone / 2.0 + pen / 2.0 > 90.0 ==>
                  e == map["sharpspot" := Bool(false)][cp := Num(0.0)][roll := Num(v)][pp := Num(90.0)])
            && (pen <= cone && cone / 2.0 + pen / 2.0 <= 90.0 ==>
                  e == map["sharpspot" := Bool(false)][cp := Num(0.0)][roll := Num(v)][pp := Num(cone / 2.0 + pen / 2.0)])
  {
    EffectOfSets("sharpspot", cp, roll, pp, Bool(false), Num(0.0), Num(v), Num(SpotPenumbra(pen, cone)));
  }

  /** Dropoff above 1 on any other light: sharp spot on, roll the dropoff, and cone 0 and
      penumbra 90 when the penumbra is at least 90, the record's angles otherwise. */
  lemma DropoffSharpLaw(c: Ctx, node: Node, v: real, roll: string, cp: string, pp: string, pen: Value, cone: Value)
    requires v > 1.0 && !IsTag(c, "spotLightP")
    requires ParmOf(c, dropoff) == Ok(roll) && ParmOf(c, coneAngle) == Ok(cp) && ParmOf(c, penumbraAngle) == Ok(pp)
    requires Get(c.rec, penumbraAngle) == Some(pen) && Get(c.rec, coneAngle) == Some(cone) && !pen.Str?
    ensures MantraRule(c, node, dropoff, Num(v)).Ok?
    ensures var e := Effect(MantraRule(c, node, dropoff, Num(v)).value);
            && (AsReal(pen).value >= 90.0 ==>
                  e == map["sharpspot" := Bool(true)][roll := Num(v)][cp := Num(0.0)][pp := Num(90.0)])
            && (AsReal(pen).value < 90.0 ==>
                  e == map["sharpspot" := Bool(true)][roll := Num(v)][cp := cone][pp := pen])
  {
    EffectOfSets("sharpspot", roll, cp, pp, Bool(true), Num(v), Num(0.0), Num(90.0));
    EffectOfSets("sharpspot", roll, cp, pp, Bool(true), Num(v), cone, pen);
  }

  /** The six single-parm toggles. */
  predicate IsToggle(a: Attr) {
    a == aiCamera || a == aiDiffuse || a == aiSss || a == aiIndirect || a == aiVolume || a == aiTransmission
  }

  /** Every toggle key computes its toggle before looking up its parm. */
  lemma ToggleRule(c: Ctx, node: Node, key: Attr, value: Value)
    requires IsToggle(key)
    ensures MantraRule(c, node, key, value) == SetComputed(c, key, Toggle(value))
  {
    if key == aiCamera || key == aiDiffuse || key == aiSss {
      ToggleRuleFirst(c, node, key, value);
    } else {
      ToggleRuleSecond(c, node, key, value);
    }
  }

  lemma ToggleRuleFirst(c: Ctx, node: Node, key: Attr, value: Value)
    requires key == aiCamera || key == aiDiffuse || key == aiSss
    ensures MantraRule(c, node, key, value) == SetComputed(c, key, Toggle(value))
  {
    if key == aiCamera {
      assert MantraRule(c, node, aiCamera, value) == SetComputed(c, aiCamera, Toggle(value));
    } else if key == aiDiffuse {
      assert MantraRule(c, node, aiDiffuse, value) == SetComputed(c, aiDiffuse, Toggle(value));
    } else {
      assert MantraRule(c, node, aiSss, value) == SetComputed(c, aiSss, Toggle(value));
    }
  }

  lemma ToggleRuleSecond(c: Ctx, node: Node, key: Attr, value: Value)
    requires key == aiIndirect || key == aiVolume || key == aiTransmission
    ensures MantraRule(c, node, key, value) == SetComputed(c, key, Toggle(value))
  {
    if key == aiIndirect {
      assert MantraRule(c, node, aiIndirect, value) == SetComputed(c, aiIndirect, Toggle(value));
    } else if key == aiVolume {
      assert MantraRule(c, node, aiVolume, value) == SetComputed(c, aiVolume, Toggle(value));
    } else {
      assert MantraRule(c, node, aiTransmission, value) == SetComputed(c, aiTransmission, Toggle(value));
    }
  }

  /** A toggle key sets its parm to True exactly when the weight lies in `[0.5, 1]`, and to
      False otherwise; a string weight is a TypeError. */
  lemma ToggleLaw(c: Ctx, node: Node, key: Attr, value: Value, p: string)
    requires IsToggle(key) && ParmOf(c, key) == Ok(p)
    ensures value.Str? ==> MantraRule(c, node, key, value) == Err(TypeError)
    ensures !value.Str? ==>
              && MantraRule(c, node, key, value).Ok?
              && Effect(MantraRule(c, node, key, value).value).Keys == {p}
              && (Effect(MantraRule(c, node, key, value).value)[p] == Bool(true) <==> 0.5 <= AsReal(value).value <= 1.0)
              && (Effect(MantraRule(c, node, key, value).value)[p] == Bool(false) <==> !(0.5 <= AsReal(value).value <= 1.0))
  {
    ToggleRule(c, node, key, value);
    if !value.Str? {
      assert MantraRule(c, node, key, value) == Ok([SetParm(p, Toggle(value).value)]);
      EffectOfSets(p, "", "", "", Toggle(value).value, Num(0.0), Num(0.0), Num(0.0));
    }
  }

  /** `aiSpecular` toggles every parm of its destination alike; an empty destination sets
      nothing and does not look at the weight. */
  lemma SpecularLaw(c: Ctx, node: Node, value: Value, d: Dest)
    requires DestOf(c, aiSpecular) == Ok(d)
    ensures DestNames(d) == [] ==> MantraRule(c, node, aiSpecular, value) == Ok([])
    ensures DestNames(d) != [] && value.Str? ==> MantraRule(c, node, aiSpecular, value) == Err(TypeError)
    ensures DestNames(d) != [] && !value.Str? ==>
              && MantraRule(c, node, aiSpecular, value).Ok?
              && (forall p :: p in Effect(MantraRule(c, node, aiSpecular, value).value) <==> p in DestNames(d))
              && (forall p :: p in DestNames(d) ==>
                    Effect(MantraRule(c, node, aiSpecular, value).value)[p] == Bool(0.5 <= AsReal(value).value <= 1.0))
  {
    if DestNames(d) != [] && !value.Str? {
      EffectOfSetEach(DestNames(d), Toggle(value).value);
    }
  }

  /** Whether an exposure key of this light goes through the normalize test: not for a sky
      dome, a directional light's `aiExposure` or `cylinderL`'s `exposure`. */
  predicate NormalizeRouted(c: Ctx, key: Attr) {
    && !IsTag(c, "aiSkyDomeLight")
    && !(key == aiExposure && (IsTag(c, "directionalLightD") || IsTag(c, "directionalLightS")))
    && !(key == exposure && IsTag(c, "cylinderL"))
  }

  /** Mantra exposure routing, at a non-zero scale: the sky dome keeps the exposure; a
      directional `aiExposure` becomes `e - 2.65` (Mantra's factor, no scale); `cylinderL`'s
      `exposure` becomes `e + log2 0.05 + 2 log2|scale|`; any other light becomes the Mantra
      exposure at the scene scale when its normalize flag is missing or true, and keeps `e`
      when the flag is present and false. */
  lemma MantraExposureLaw(c: Ctx, node: Node, key: Attr, e: real, p: string)
    requires Lawful(c.t) && c.scale != 0.0
    requires key == aiExposure || key == exposure
    requires ParmOf(c, key) == Ok(p)
    ensures MantraRule(c, node, key, Num(e)).Ok?
    ensures var x := Effect(MantraRule(c, node, key, Num(e)).value);
            var flag := Get(c.rec, if key == aiExposure then aiNormalize else normalize);
            && (IsTag(c, "aiSkyDomeLight") ==> x == map[p := Num(e)])
            && (!IsTag(c, "aiSkyDomeLight") && key == aiExposure && (IsTag(c, "directionalLightD") || IsTag(c, "directionalLightS"))
                ==> x == map[p := Num(e - 2.65)])
            && (!IsTag(c, "aiSkyDomeLight") && key == exposure && IsTag(c, "cylinderL")
                ==> x == map[p := Num(e + Log2(c.t, 0.05) + 2.0 * Log2(c.t, Abs(c.scale)))])
            && (NormalizeRouted(c, key) && (flag.None? || Truthy(flag.value)) ==> x == map[p := Num(MantraExposure(c.t, e, c.scale))])
            && (NormalizeRouted(c, key) && flag.Some? && !Truthy(flag.value) ==> x == map[p := Num(e)])
  {
    var flag := if key == aiExposure then aiNormalize else normalize;
    if key == aiExposure {
      assert MantraRule(c, node, key, Num(e)) == ExposureRule(c, key, flag, Num(e));
    } else {
      assert MantraRule(c, node, key, Num(e)) == ExposureRule(c, key, flag, Num(e));
    }
    ExposureRuleLaw(c, key, flag, e, p);
    var r := MantraRule(c, node, key, Num(e));
    EffectOfSets(p, "", "", "", r.value[0].value, Num(0.0), Num(0.0), Num(0.0));
  }

  /** `ExposureRule` sets the key's parm alone, to the value its branch computes. */
  lemma ExposureRuleLaw(c: Ctx, key: Attr, flag: Attr, e: real, p: string)
    requires Lawful(c.t) && c.scale != 0.0
    requires ParmOf(c, key) == Ok(p)
    ensures IsTag(c, "aiSkyDomeLight") ==> ExposureRule(c, key, flag, Num(e)) == Ok([SetParm(p, Num(e))])
    ensures !IsTag(c, "aiSkyDomeLight") && key == aiExposure && (IsTag(c, "directionalLightD") || IsTag(c, "directionalLightS"))
            ==> ExposureRule(c, key, flag, Num(e)) == Ok([SetParm(p, Num(e - 2.65))])
    ensures !IsTag(c, "aiSkyDomeLight") && key == exposure && IsTag(c, "cylinderL")
            ==> ExposureRule(c, key, flag, Num(e)) == Ok([SetParm(p, Num(e + Log2(c.t, 0.05) + 2.0 * Log2(c.t, Abs(c.scale))))])
    ensures (key == aiExposure || key == exposure) && NormalizeRouted(c, key) && (Get(c.rec, flag).None? || Truthy(Get(c.rec, flag).value))
            ==> ExposureRule(c, key, flag, Num(e)) == Ok([SetParm(p, Num(MantraExposure(c.t, e, c.scale)))])
    ensures (key == aiExposure || key == exposure) && NormalizeRouted(c, key) && Get(c.rec, flag).Some? && !Truthy(Get(c.rec, flag).value)
            ==> ExposureRule(c, key, flag, Num(e)) == Ok([SetParm(p, Num(e))])
  {
    if IsTag(c, "aiSkyDomeLight") {
    } else if key == aiExposure && (IsTag(c, "directionalLightD") || IsTag(c, "directionalLightS")) {
      ExposureOfMantra(c.t, e, 1.0);
      Log2OfOne(c.t);
      assert Abs(1.0) == 1.0;
    } else if key == exposure && IsTag(c, "cylinderL") {
      ExposureOfCylinder(c.t, e, c.scale);
    } else {
      ExposureOfMantra(c.t, e, c.scale);
    }
  }

  /** Mantra's conversion of a numeric exposure at a non-zero scale. */
  lemma ExposureOfMantra(t: Transcendental, e: real, scale: real)
    requires Lawful(t) && scale != 0.0
    ensures ExposureOf(t, Num(e), MantraFactor(t), scale) == Ok(Num(MantraExposure(t, e, scale)))
  {
    assert Pow2(t, -2.65) > 0.0;
    assert Log2(t, Pow2(t, -2.65)) == -2.65;
    LightExposureLaw(t, e, MantraFactor(t), 1.0, scale);
    assert scale / 1.0 == scale;
  }

  /** `cylinderL`'s conversion, factor 0.05, of a numeric exposure at a non-zero scale. */
  lemma ExposureOfCylinder(t: Transcendental, e: real, scale: real)
    requires Lawful(t) && scale != 0.0
    ensures ExposureOf(t, Num(e), 0.05, scale) == Ok(Num(e + Log2(t, 0.05) + 2.0 * Log2(t, Abs(scale))))
  {
    LightExposureLaw(t, e, 0.05, 1.0, scale);
    assert scale / 1.0 == scale;
  }
}
