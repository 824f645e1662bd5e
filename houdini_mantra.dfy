/**
 * The Mantra branch of the per-parm loop of `import_json_file`: for each key of a
 * light's Mantra record, what the script writes on the new Mantra light node.  Each rule
 * is a function from the record key and value (and the node as the loop has left it, for
 * the read-back of the exposure) to the parm sets it performs, in order, or to the
 * exception it raises.
 */
module MantraRules {
  import opened PyValues
  import opened LightParms
  import opened Transcendentals
  import opened ExposureCalc
  import opened HoudiniHost
  import MayaExport

  predicate IsTag(c: Ctx, tag: string) {
    c.tag == Str(tag)
  }

  predicate IsCylinder(c: Ctx) {
    IsTag(c, "cylinderC") || IsTag(c, "cylinderL")
  }

  /** `light_exposure_calc(v, factor, 1, newScale)` on a record value. */
  function ExposureOf(t: Transcendental, v: Value, factor: real, newScale: real): Result<Value> {
    match AsReal(v)
    case Err(e) => Err(e)
    case Ok(x) =>
      match LightExposureCalc(t, x, factor, 1.0, newScale)
      case Err(e) => Err(e)
      case Ok(y) => Ok(Num(y))
  }

  /** A record value read as a number: KeyError when the key is missing. */
  function NumberAt(rec: MayaExport.Record, a: Attr): Result<real> {
    match Lookup(rec, a)
    case Err(e) => Err(e)
    case Ok(v) => AsReal(v)
  }

  /** `try: rec[a] except KeyError: rec[b]`. */
  function EitherAt(rec: MayaExport.Record, a: Attr, b: Attr): Result<Value> {
    if Get(rec, a).Some? then Ok(Get(rec, a).value) else Lookup(rec, b)
  }

  /** The parm sets that follow from the light type alone. */
  function TypeDefaults(tag: Value): seq<Action> {
    if tag == Str("spotLightP") || tag == Str("spotLightS") then
      [SetParm("coneenable", Bool(true))]
    else if tag == Str("areaLight") || tag == Str("quad") then
      [SetParm("coneenable", Bool(true)), SetParm("singlesided", Bool(true)), SetParm("edgeenable", Bool(true))]
    else if tag == Str("disk") then
      [SetParm("coneenable", Bool(true)), SetParm("singlesided", Bool(true))]
    else if tag == Str("cylinderC") || tag == Str("cylinderL") then
      [SetParm("rOrd", Num(2.0)), SetParm("singlesided", Bool(true))]
    else []
  }

  /** `light_contribname1` .. `light_contribname<count>` set to the contribution names in
      catalog order. */
  function ContributionSlots(doc: LightData, count: int): Result<seq<Action>> {
    if count <= 0 then Ok([])
    else
      var sec: Option<Section> := Get(doc, "light_contribution_parms");
      if sec.None? then Err(KeyError)
      else if !sec.value.ContribNames? then Err(TypeError)
      else
        var names := Keys(sec.value.names);
        if count > |names| then Err(IndexError)
        else Ok(seq(count, i requires 0 <= i < count => SetParm("light_contribname" + NatStr(i + 1), Str(names[i]))))
  }

  /** `light_data["Mantra"][tag]["light_node_sub_type"]` written to `light_type`, skipped for
      the sky dome. */
  function SubTypeSet(entry: Entry, tag: Value): Result<seq<Action>> {
    if tag == Str("aiSkyDomeLight") then Ok([])
    else
      match Lookup(entry, "light_node_sub_type")
      case Err(e) => Err(e)
      case Ok(f) =>
        match FieldValue(f)
        case Err(e) => Err(e)
        case Ok(v) => Ok([SetParm("light_type", v)])
  }

  /** The `nodeType` key: light type, type defaults, contribution count and names. */
  function NodeTypeRule(c: Ctx, value: Value): Result<seq<Action>> {
    match EntryFor(c.doc, c.renderer, value)
    case Err(e) => Err(e)
    case Ok(entry) =>
      match SubTypeSet(entry, value)
      case Err(e) => Err(e)
      case Ok(sub) =>
        match Lookup(entry, "num_of_light_contrib")
        case Err(e) => Err(e)
        case Ok(f) =>
          if !f.Int? then Err(TypeError)
          else
            match ContributionSlots(c.doc, f.n)
            case Err(e) => Err(e)
            case Ok(slots) => Ok(sub + TypeDefaults(value) + [SetParm("light_contrib", Num(f.n as real))] + slots)
  }

  /** `value * -1`: a string repeated -1 times is the empty string. */
  function Negated(v: Value): Result<Value> {
    if v.Str? then Ok(Str("")) else Times(v, -1.0)
  }

  /** `(value + rec.get("scaleX")) / 2`. */
  function HalfSum(v: Value, other: Option<Value>): Result<real> {
    if other.None? || v.Str? || other.value.Str? then Err(TypeError)
    else Ok((AsReal(v).value + AsReal(other.value).value) / 2.0)
  }

  /** The cylinder length of a `cylinderC` light: the mean of its X and Z scales, times
      `40 / 3` and the scene scale. */
  function CylinderLength(c: Ctx, v: Value): Result<Value> {
    match HalfSum(v, Get(c.rec, scaleX))
    case Err(e) => Err(e)
    case Ok(h) => Ok(Num(h * (40.0 / 3.0) * c.scale))
  }

  /** The `aiExposure` and `exposure` keys: the sky dome keeps the value; a directional light
      is converted without scale; `cylinderL`'s `exposure` with factor 0.05; any other light
      converted at the scene scale unless its normalize flag is present and false. */
  function ExposureRule(c: Ctx, key: Attr, flag: Attr, value: Value): Result<seq<Action>> {
    if IsTag(c, "aiSkyDomeLight") then SetDest(c, key, Ok(value))
    else if key == aiExposure && (IsTag(c, "directionalLightD") || IsTag(c, "directionalLightS")) then
      SetComputed(c, key, ExposureOf(c.t, value, MantraFactor(c.t), 1.0))
    else if key == exposure && IsTag(c, "cylinderL") then
      SetComputed(c, key, ExposureOf(c.t, value, 0.05, c.scale))
    else
      var n := Get(c.rec, flag);
      SetComputed(c, key, if n.None? || Truthy(n.value) then ExposureOf(c.t, value, MantraFactor(c.t), c.scale) else Ok(value))
  }

  /** The `aiRadius` key: both area sizes set to the diameter at the scene scale. */
  function RadiusRule(c: Ctx, value: Value): Result<seq<Action>> {
    match DestOf(c, aiRadius)
    case Err(e) => Err(e)
    case Ok(d) =>
      match DestAt(d, 0)
      case Err(e) => Err(e)
      case Ok(p0) =>
        match Times(value, 2.0 * c.scale)
        case Err(e) => Err(e)
        case Ok(x) =>
          match DestAt(d, 1)
          case Err(e) => Err(e)
          case Ok(p1) => Ok([SetParm(p0, x), SetParm(p1, x)])
  }

  /** Dropoff 0 or 1: roll 1, and the cone and penumbra clamped to 0 and 90 when the
      penumbra is at least 90 (the cone only when it is at least 90 too), copied otherwise. */
  function DropoffFlat(c: Ctx): Result<seq<Action>> {
    match ParmOf(c, dropoff)
    case Err(e) => Err(e)
    case Ok(roll) =>
      match NumberAt(c.rec, penumbraAngle)
      case Err(e) => Err(e)
      case Ok(pen) =>
        if pen >= 90.0 then
          match NumberAt(c.rec, coneAngle)
          case Err(e) => Err(e)
          case Ok(cone) =>
            if cone >= 90.0 then
              match ParmOf(c, coneAngle)
              case Err(e) => Err(e)
              case Ok(cp) =>
                match ParmOf(c, penumbraAngle)
                case Err(e) => Err(e)
                case Ok(pp) => Ok([SetParm(roll, Num(1.0)), SetParm(cp, Num(0.0)), SetParm(pp, Num(90.0))])
            else
              match ParmOf(c, penumbraAngle)
              case Err(e) => Err(e)
              case Ok(pp) => Ok([SetParm(roll, Num(1.0)), SetParm(pp, Num(90.0))])
        else
          match ParmOf(c, coneAngle)
          case Err(e) => Err(e)
          case Ok(cp) =>
            match Lookup(c.rec, coneAngle)
            case Err(e) => Err(e)
            case Ok(cv) =>
              match ParmOf(c, penumbraAngle)
              case Err(e) => Err(e)
              case Ok(pp) => Ok([SetParm(roll, Num(1.0)), SetParm(cp, cv), SetParm(pp, Get(c.rec, penumbraAngle).value)])
  }

  /** The penumbra a `spotLightP` with dropoff above 1 gets: 90 or the penumbra plus half the
      cone when the penumbra is wider than the cone, otherwise half of both, capped at 90. */
  function SpotPenumbra(pen: real, cone: real): real {
    if pen > cone then (if pen >= 90.0 then 90.0 else pen + cone / 2.0)
    else if cone / 2.0 + pen / 2.0 > 90.0 then 90.0 else cone / 2.0 + pen / 2.0
  }

  /** Dropoff above 1.  A `spotLightP` turns sharp spot off, gets cone 0, roll `value` and
      the `SpotPenumbra`; any other light turns sharp spot on, gets roll `value`, and cone 0
      and penumbra 90 when the penumbra is at least 90, its own angles otherwise. */
  function DropoffSteep(c: Ctx, value: Value): Result<seq<Action>> {
    if IsTag(c, "spotLightP") then
      match NumberAt(c.rec, penumbraAngle)
      case Err(e) => Err(e)
      case Ok(pen) =>
        match NumberAt(c.rec, coneAngle)
        case Err(e) => Err(e)
        case Ok(cone) =>
          match ParmOf(c, coneAngle)
          case Err(e) => Err(e)
          case Ok(cp) =>
            match ParmOf(c, dropoff)
            case Err(e) => Err(e)
            case Ok(roll) =>
              match ParmOf(c, penumbraAngle)
              case Err(e) => Err(e)
              case Ok(pp) =>
                Ok([SetParm("sharpspot", Bool(false)), SetParm(cp, Num(0.0)), SetParm(roll, value),
                    SetParm(pp, Num(SpotPenumbra(pen, cone)))])
    else
      match ParmOf(c, dropoff)
      case Err(e) => Err(e)
      case Ok(roll) =>
        match NumberAt(c.rec, penumbraAngle)
        case Err(e) => Err(e)
        case Ok(pen) =>
          match ParmOf(c, coneAngle)
          case Err(e) => Err(e)
          case Ok(cp) =>
            if pen >= 90.0 then
              match ParmOf(c, penumbraAngle)
              case Err(e) => Err(e)
              case Ok(pp) =>
                Ok([SetParm("sharpspot", Bool(true)), SetParm(roll, value), SetParm(cp, Num(0.0)), SetParm(pp, Num(90.0))])
            else
              match Lookup(c.rec, coneAngle)
              case Err(e) => Err(e)
              case Ok(cv) =>
                match ParmOf(c, penumbraAngle)
                case Err(e) => Err(e)
                case Ok(pp) =>
                  Ok([SetParm("sharpspot", Bool(true)), SetParm(roll, value), SetParm(cp, cv),
                      SetParm(pp, Get(c.rec, penumbraAngle).value)])
  }

  /** The `dropoff` key. */
  function DropoffRule(c: Ctx, value: Value): Result<seq<Action>> {
    if EqualsNumber(value, 0.0) || EqualsNumber(value, 1.0) then DropoffFlat(c)
    else
      match AsReal(value)
      case Err(e) => Err(e)
      case Ok(v) =>
        if 0.0 < v < 1.0 then
          match MathLog(c.t, 100.0 - v * 100.0, 100.0)
          case Err(e) => Err(e)
          case Ok(l) => SetComputed(c, dropoff, Ok(Num(1.0 - l)))
        else if v > 1.0 then DropoffSteep(c, value)
        else Ok([])
  }

  /** `for num in range(len(dest)): parm(dest[num]).set(vals[num])`. */
  function SpreadSets(c: Ctx, vals: seq<Value>): Result<seq<Action>> {
    match DestOf(c, aiSpread)
    case Err(e) => Err(e)
    case Ok(d) =>
      var names := DestNames(d);
      if |names| > |vals| then Err(IndexError)
      else Ok(seq(|names|, i requires 0 <= i < |names| => SetParm(names[i], vals[i])))
  }

  /** The exposure parm the spread adjusts: the destination of `aiExposure`, or, when the
      lookup raises KeyError, that of `exposure`. */
  function ExposureParm(c: Ctx): Result<string> {
    match ParmOf(c, aiExposure)
    case Err(KeyError) => ParmOf(c, exposure)
    case r => r
  }

  /** The three spread bands: the cone triple and the exposure adjustment (read back from the
      node after the cone parms are set), or `None` for no adjustment. */
  function SpreadBand(t: Transcendental, v: real): Result<(seq<Value>, Option<real>)> {
    if v >= 0.4 then
      var oldPercentage := (v - 0.4) / (1.0 - 0.4);
      var newNum := (50.0 - 1.0) * oldPercentage + 1.0;
      match MathLog(t, newNum, 50.0)
      case Err(e) => Err(e)
      case Ok(cone) =>
        var delta := (0.0 - 0.9) * cone + 0.9;
        Ok(([Num(cone * 180.0), Num(180.0), Num(10.0)], if delta != 0.0 then Some(delta) else None))
    else if v >= 0.02 then
      var oldPercentage := (v - 0.02) / (0.4 - 0.02);
      var newNum := (1.0 - 0.0) * oldPercentage + 0.0;
      var cone := Pow2(t, newNum) - 1.0;
      match MathLog(t, 1.0 + newNum, 1.0 + 1.0)
      case Err(e) => Err(e)
      case Ok(expValue) => Ok(([Num(0.0), Num(cone * 180.0), Num(10.0)], Some((0.0 - 7.0) * expValue + 7.0)))
    else Ok(([Num(4.5), Num(0.0), Num(0.0)], Some(8.0)))
  }

  /** The new exposure from the read-back value `x` and the band's adjustment: the top band
      converts to scale `1/scale` and back, the bottom band converts to the scene scale, the
      middle band only adds. */
  function SpreadExposure(t: Transcendental, v: real, x: real, delta: real, scale: real): Result<real> {
    if v >= 0.4 then
      if scale == 0.0 then Err(ZeroDivisionError)
      else
        match LightExposureCalc(t, x + delta, 1.0, 1.0, 1.0 / scale)
        case Err(e) => Err(e)
        case Ok(back) => LightExposureCalc(t, back, 1.0, 1.0, scale)
    else if v >= 0.02 then Ok(x + delta)
    else LightExposureCalc(t, x + delta, 1.0, 1.0, scale)
  }

  /** The `aiSpread` key. */
  function SpreadRule(c: Ctx, node: Node, value: Value): Result<seq<Action>> {
    match AsReal(value)
    case Err(e) => Err(e)
    case Ok(v) =>
      match SpreadBand(c.t, v)
      case Err(e) => Err(e)
      case Ok(band) =>
        match SpreadSets(c, band.0)
        case Err(e) => Err(e)
        case Ok(w) =>
          if band.1.None? then Ok(w)
          else
            match ExposureParm(c)
            case Err(e) => Err(e)
            case Ok(ep) =>
              match AsReal(Eval(c, SetAll(node, w), ep))
              case Err(e) => Err(e)
              case Ok(x) =>
                match SpreadExposure(c.t, v, x, band.1.value, c.scale)
                case Err(e) => Err(e)
                case Ok(y) => Ok(w + [SetParm(ep, Num(y))])
  }

  /** The `aiRoundness` key: above 0.5 the light becomes a disk. */
  function RoundnessRule(c: Ctx, value: Value): Result<seq<Action>> {
    match AsReal(value)
    case Err(e) => Err(e)
    case Ok(v) =>
      if v > 0.5 then
        match EntryFor(c.doc, c.renderer, Str("disk"))
        case Err(e) => Err(e)
        case Ok(entry) => SubTypeSet(entry, Str("disk"))
      else Ok([])
  }

  /** The `aiSoftEdge` key: the edge width, and for a non-zero soft edge the fitted exposure. */
  function SoftEdgeRule(c: Ctx, value: Value): Result<seq<Action>> {
    match SetDest(c, aiSoftEdge, Ok(value))
    case Err(e) => Err(e)
    case Ok(w) =>
      if EqualsNumber(value, 0.0) then Ok(w)
      else
        match EitherAt(c.rec, aiNormalize, normalize)
        case Err(e) => Err(e)
        case Ok(n) =>
          match EitherAt(c.rec, aiExposure, exposure)
          case Err(e) => Err(e)
          case Ok(ev) =>
            match AsReal(ev)
            case Err(e) => Err(e)
            case Ok(x) =>
              match SoftEdgeExposureCalc(c.t, n, x, c.scale, value)
              case Err(e) => Err(e)
              case Ok(y) => Ok(w + [SetParm("light_exposure", Num(y))])
  }

  /** The `texture_map` key: the environment map of a sky dome; for a grid or quad light the
      texture node named by `texture_node`, reused or created, as its material. */
  function TextureRule(c: Ctx, value: Value): Result<seq<Action>> {
    if IsTag(c, "aiSkyDomeLight") then Ok([SetParm("env_map", value)])
    else if IsTag(c, "areaLight") || IsTag(c, "quad") then
      match Lookup(c.rec, texture_node)
      case Err(e) => Err(e)
      case Ok(n) =>
        if !n.Str? then Err(TypeError)
        else Ok([UseTexture(n.s, value), SetParm("shop_materialpath", Str("/mat/" + n.s))])
    else Ok([])
  }

  /** The `aiSpecular` key: the toggle on every destination of the list. */
  function SpecularRule(c: Ctx, value: Value): Result<seq<Action>> {
    match DestOf(c, aiSpecular)
    case Err(e) => Err(e)
    case Ok(d) =>
      if DestNames(d) == [] then Ok([])
      else
        match Toggle(value)
        case Err(e) => Err(e)
        case Ok(b) => Ok(SetEach(DestNames(d), b))
  }

  /** One iteration of the Mantra parm loop. */
  function MantraRule(c: Ctx, node: Node, parm: Attr, value: Value): Result<seq<Action>> {
    match parm
    case nodeType => NodeTypeRule(c, value)
    case translateX => SetDest(c, parm, Times(value, c.scale))
    case translateY => SetDest(c, parm, Times(value, c.scale))
    case translateZ => SetDest(c, parm, Times(value, c.scale))
    case rotateX => SetDest(c, parm, if IsCylinder(c) then Negated(value) else Ok(value))
    case rotateY => SetDest(c, parm, if IsTag(c, "aiSkyDomeLight") then Plus(value, 180.0) else Ok(value))
    case rotateZ => SetDest(c, parm, if IsCylinder(c) then Plus(value, 90.0) else Ok(value))
    case scaleX => SetDest(c, parm, Times(value, 2.0 * c.scale))
    case scaleY => SetDest(c, parm, Times(value, 2.0 * c.scale))
    case scaleZ => SetDest(c, parm, if IsTag(c, "cylinderC") then CylinderLength(c, value) else Times(value, c.scale))
    case aiExposure => ExposureRule(c, aiExposure, aiNormalize, value)
    case exposure => ExposureRule(c, exposure, normalize, value)
    case aiRadius => RadiusRule(c, value)
    case aiAngle => SetDest(c, parm, Times(value, 0.5))
    case coneAngle => Ok([])
    case penumbraAngle => Ok([])
    case dropoff => DropoffRule(c, value)
    case aiSpread => SpreadRule(c, node, value)
    case aiRoundness => RoundnessRule(c, value)
    case aiSoftEdge => SoftEdgeRule(c, value)
    case texture_node => Ok([])
    case texture_map => TextureRule(c, value)
    case aiCamera => SetComputed(c, parm, Toggle(value))
    case aiDiffuse => SetComputed(c, parm, Toggle(value))
    case aiSpecular => SpecularRule(c, value)
    case aiSss => SetComputed(c, parm, Toggle(value))
    case aiIndirect => SetComputed(c, parm, Toggle(value))
    case aiVolume => SetComputed(c, parm, Toggle(value))
    case aiTransmission => SetComputed(c, parm, Toggle(value))
    case _ => SetDest(c, parm, Ok(value))
  }
}
