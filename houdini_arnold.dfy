/**
 * The Arnold branch of the per-parm loop of `import_json_file`: for each key of a light's
 * Arnold record, the parm sets the script performs on the new `arnold_light` node, or the
 * exception it raises.
 */
module ArnoldRules {
  import opened PyValues
  import opened LightParms
  import opened ExposureCalc
  import opened HoudiniHost
  import MantraRules

  /** `value * k` halved with `rec.get("scaleX")`: `((value + scaleX) / 2) * k`. */
  function MeanWithScaleX(c: Ctx, v: Value, k: real): Result<Value> {
    match MantraRules.HalfSum(v, Get(c.rec, scaleX))
    case Err(e) => Err(e)
    case Ok(h) => Ok(Num(h * k))
  }

  /** The `scaleY` key: the mean with `scaleX` for a disk, the full size for an area, quad or
      cylinder light, the plain scaled value otherwise. */
  function ScaleYValue(c: Ctx, v: Value): Result<Value> {
    if MantraRules.IsTag(c, "disk") then MeanWithScaleX(c, v, c.scale)
    else if MantraRules.IsTag(c, "areaLight") || MantraRules.IsTag(c, "quad") || MantraRules.IsTag(c, "cylinder") then
      Times(v, 2.0 * c.scale)
    else Times(v, c.scale)
  }

  /** The `aiExposure` and `exposure` keys: nothing for a directional light; converted to the
      scene scale (factor 1) when the light's normalize flag is present and true; the value
      as it is otherwise. */
  function ArnoldExposureRule(c: Ctx, key: Attr, flag: Attr, value: Value): Result<seq<Action>> {
    if MantraRules.IsTag(c, "directionalLight") then Ok([])
    else if Get(c.rec, flag).Some? && Truthy(Get(c.rec, flag).value) then
      SetComputed(c, key, MantraRules.ExposureOf(c.t, value, 1.0, c.scale))
    else SetDest(c, key, Ok(value))
  }

  /** The `coneAngle` key: Arnold's cone is Maya's cone widened by twice the penumbra, unless
      the penumbra is negative. */
  function ConeRule(c: Ctx, value: Value): Result<seq<Action>> {
    match MantraRules.NumberAt(c.rec, penumbraAngle)
    case Err(e) => Err(e)
    case Ok(pen) =>
      if pen < 0.0 then SetDest(c, coneAngle, Ok(value))
      else SetComputed(c, coneAngle, Plus(value, pen * 2.0))
  }

  /** `abs(value)`. */
  function AbsValue(v: Value): Result<Value> {
    match AsReal(v)
    case Err(e) => Err(e)
    case Ok(x) => Ok(Num(Abs(x)))
  }

  /** One iteration of the Arnold parm loop. */
  function ArnoldRule(c: Ctx, parm: Attr, value: Value): Result<seq<Action>> {
    match parm
    case nodeType =>
      (match EntryFor(c.doc, c.renderer, value)
       case Err(e) => Err(e)
       case Ok(entry) =>
         match Lookup(entry, "light_node_sub_type")
         case Err(e) => Err(e)
         case Ok(f) =>
           match FieldValue(f)
           case Err(e) => Err(e)
           case Ok(v) => Ok([SetParm("ar_light_type", v)]))
    case translateX => SetDest(c, parm, Times(value, c.scale))
    case translateY => SetDest(c, parm, Times(value, c.scale))
    case translateZ => SetDest(c, parm, Times(value, c.scale))
    case scaleX => SetDest(c, parm, Times(value, 2.0 * c.scale))
    case scaleY => SetDest(c, parm, ScaleYValue(c, value))
    case scaleZ => SetDest(c, parm, if MantraRules.IsTag(c, "cylinder") then MeanWithScaleX(c, value, c.scale) else Times(value, c.scale))
    case aiExposure => ArnoldExposureRule(c, aiExposure, aiNormalize, value)
    case exposure => ArnoldExposureRule(c, exposure, normalize, value)
    case aiRadius => SetDest(c, parm, Times(value, c.scale))
    case coneAngle => ConeRule(c, value)
    case penumbraAngle => SetDest(c, parm, AbsValue(value))
    case texture_map => Ok([SetParm("ar_light_color_type", Num(1.0)), SetParm("ar_light_color_texture", value)])
    case _ => SetDest(c, parm, Ok(value))
  }
}
