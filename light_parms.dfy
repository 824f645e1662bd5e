/**
 * The mapping catalog that drives both directions of the transfer: for each light
 * tag, the Houdini node type, light sub-type, number of light contributions and the
 * table from Maya attribute names to Houdini parm names, for Mantra and for Arnold.
 * The per-type tables are built by dict unpacking (`{**a, **b, ...}`), and the
 * per-tag entries by a loop that zips parallel lists and fills the catalog through
 * `setdefault`.
 */
module LightParms {
  import opened PyValues

  /** The Maya attribute names that occur as keys of the parameter tables and of the
      exported light records, each spelled as the attribute itself. */
  datatype Attr =
    | translateX | translateY | translateZ | rotateX | rotateY | rotateZ
    | scaleX | scaleY | scaleZ | colorR | colorG | colorB
    | visibility | intensity | exposure | normalize | dropoff | camera | transmission
    | resolution | format | coneAngle | penumbraAngle
    | shadColorR | shadColorG | shadColorB
    | aiSamples | aiVolumeSamples | aiCastShadows | aiCastVolumetricShadows | aiShadowDensity
    | aiAov | aiAovIndirect | aiDiffuse | aiSpecular | aiSss | aiIndirect | aiVolume
    | aiMaxBounces | aiExposure | aiNormalize | aiRadius | aiAngle | aiSpread | aiSoftEdge
    | aiRoundness | aiCamera | aiTransmission | aiLensRadius | aiAspectRatio
    | aiShadowColorR | aiShadowColorG | aiShadowColorB
    | nodeType | texture_map | texture_node
    | aiTranslator | aiUseColorTemperature | aiColorTemperature | fileTextureName | filename

  /** Where a Maya attribute goes in Houdini: one parm, or an ordered list of parms it fans out to. */
  datatype Dest = One(name: string) | Many(names: seq<string>)

  /** Maya attribute -> Houdini destination, in the order the table was written. */
  type ParmTable = OrderedDict<Attr, Dest>

  /** A value stored in a per-tag catalog entry: a node type name, a sub-type or
      count, or the parameter table. */
  datatype Field = Text(s: string) | Int(n: int) | Parms(table: ParmTable)

  /** A per-tag catalog entry: field name -> field. */
  type Entry = OrderedDict<string, Field>

  /** A top-level value of a catalog document. */
  datatype Section =
    | Renderer(types: OrderedDict<string, Entry>)   // light tag -> entry
    | TagEntry(entry: Entry)                        // one tag's entry, at top level
    | ContribNames(names: OrderedDict<string, string>)
    | ColorParms(parms: ParmTable)

  type LightData = OrderedDict<string, Section>

  /** Translation attributes. */
  const TranslateParms: ParmTable :=
    Cons(translateX, One("tx"),
    Cons(translateY, One("ty"),
    Cons(translateZ, One("tz"),
    Nil)))

  /** Rotation attributes. */
  const RotateParms: ParmTable :=
    Cons(rotateX, One("rx"),
    Cons(rotateY, One("ry"),
    Cons(rotateZ, One("rz"),
    Nil)))

  /** Colour attributes; shared by both renderers. */
  const ColorLightParams: ParmTable :=
    Cons(colorR, One("light_colorr"),
    Cons(colorG, One("light_colorg"),
    Cons(colorB, One("light_colorb"),
    Nil)))

  /** Mantra light contribution name -> enable parm, in slot order. */
  const MantraLightContribParms: OrderedDict<string, string> :=
    Cons("diffuse", "light_contribenable1",
    Cons("reflect", "light_contribenable2",
    Cons("coat", "light_contribenable3",
    Cons("sss", "light_contribenable4",
    Cons("indirect", "light_contribenable5",
    Cons("volume", "light_contribenable6",
    Cons("refract", "light_contribenable7",
    Cons("camera", "light_contribprimary",
    Nil))))))))

  /** Parameters every Mantra light has; `aiSpecular` fans out to the reflect and coat slots. */
  const MantraCommonLightParms: ParmTable :=
    Cons(visibility, One("light_enable"),
    Cons(intensity, One("light_intensity"),
    Cons(aiSamples, One("vm_samplingquality"),
    Cons(aiCastShadows, One("shadow_type"),
    Cons(aiShadowDensity, One("shadow_intensity"),
    Cons(aiAov, One("vm_lpetag"),
    Cons(aiDiffuse, One("light_contribenable1"),
    Cons(aiSpecular, Many(["light_contribenable2", "light_contribenable3"]),
    Cons(aiSss, One("light_contribenable4"),
    Cons(aiIndirect, One("light_contribenable5"),
    Cons(aiVolume, One("light_contribenable6"),
    Nil)))))))))))

  /** Mantra parms that recur in the per-type tables. */
  const MantraRepeatingParms: ParmTable :=
    Cons(exposure, One("light_exposure"),
    Cons(shadColorR, One("shadow_colorr"),
    Cons(shadColorG, One("shadow_colorg"),
    Cons(shadColorB, One("shadow_colorb"),
    Cons(normalize, One("normalizearea"),
    Nil)))))

  /** Mantra parms that only some light types have; radius and spread fan out. */
  const MantraPerLightParms: ParmTable :=
    Cons(aiRadius, Many(["areasize1", "areasize2"]),
    Cons(aiAngle, One("vm_envangle"),
    Cons(coneAngle, One("coneangle"),
    Cons(penumbraAngle, One("conedelta"),
    Cons(dropoff, One("coneroll"),
    Cons(aiSpread, Many(["coneangle", "conedelta", "coneroll"]),
    Cons(aiSoftEdge, One("edgewidth"),
    Nil)))))))

  /** The Mantra parameters proper to `pointLightP` (point light, Mantra point shape). */
  const MantraPointPLightParms: ParmTable :=
    Cons(aiExposure, One("light_exposure"),
    Cons(shadColorR, One("shadow_colorr"),
    Cons(shadColorG, One("shadow_colorg"),
    Cons(shadColorB, One("shadow_colorb"),
    Nil))))

  /** The Mantra parameters proper to `pointLightS` (point light with a radius, Mantra sphere shape). */
  const MantraPointSLightParms: ParmTable :=
    Cons(aiExposure, One("light_exposure"),
    Cons(aiRadius, Many(["areasize1", "areasize2"]),
    Cons(aiNormalize, One("normalizearea"),
    Cons(shadColorR, One("shadow_colorr"),
    Cons(shadColorG, One("shadow_colorg"),
    Cons(shadColorB, One("shadow_colorb"),
    Cons(aiCamera, One("light_contribprimary"),
    Cons(aiTransmission, One("light_contribenable7"),
    Nil))))))))

  /** The Mantra parameters proper to `directionalLightD` (directional light, Mantra distant light). */
  const MantraDirectionalDLightParms: ParmTable :=
    Cons(aiExposure, One("light_exposure"),
    Cons(shadColorR, One("shadow_colorr"),
    Cons(shadColorG, One("shadow_colorg"),
    Cons(shadColorB, One("shadow_colorb"),
    Nil))))

  /** The Mantra parameters proper to `directionalLightS` (directional light with an angle, Mantra sun). */
  const MantraDirectionalSLightParms: ParmTable :=
    Cons(aiExposure, One("light_exposure"),
    Cons(aiAngle, One("vm_envangle"),
    Cons(shadColorR, One("shadow_colorr"),
    Cons(shadColorG, One("shadow_colorg"),
    Cons(shadColorB, One("shadow_colorb"),
    Nil)))))

  /** The Mantra parameters proper to `spotLightP` (spot light, point shape). */
  const MantraSpotPLightParms: ParmTable :=
    Cons(coneAngle, One("coneangle"),
    Cons(penumbraAngle, One("conedelta"),
    Cons(dropoff, One("coneroll"),
    Cons(aiExposure, One("light_exposure"),
    Cons(shadColorR, One("shadow_colorr"),
    Cons(shadColorG, One("shadow_colorg"),
    Cons(shadColorB, One("shadow_colorb"),
    Nil)))))))

  /** The Mantra parameters proper to `spotLightS` (spot light with a radius, sphere shape). */
  const MantraSpotSLightParms: ParmTable :=
    Cons(coneAngle, One("coneangle"),
    Cons(penumbraAngle, One("conedelta"),
    Cons(dropoff, One("coneroll"),
    Cons(aiExposure, One("light_exposure"),
    Cons(aiRadius, Many(["areasize1", "areasize2"]),
    Cons(aiNormalize, One("normalizearea"),
    Cons(shadColorR, One("shadow_colorr"),
    Cons(shadColorG, One("shadow_colorg"),
    Cons(shadColorB, One("shadow_colorb"),
    Nil)))))))))

  /** The Mantra parameters proper to `areaLight` (Mantra grid). */
  const MantraAreaLightParms: ParmTable :=
    Cons(aiExposure, One("light_exposure"),
    Cons(scaleX, One("areasize1"),
    Cons(scaleY, One("areasize2"),
    Cons(aiNormalize, One("normalizearea"),
    Cons(aiSpread, Many(["coneangle", "conedelta", "coneroll"]),
    Cons(aiSoftEdge, One("edgewidth"),
    Cons(aiRoundness, One(""),
    Cons(aiShadowColorR, One("shadow_colorr"),
    Cons(aiShadowColorG, One("shadow_colorg"),
    Cons(aiShadowColorB, One("shadow_colorb"),
    Cons(aiCamera, One("light_contribprimary"),
    Cons(aiTransmission, One("light_contribenable7"),
    Nil))))))))))))

  /** The Mantra parameters proper to `quad` (Arnold quad area light, Mantra grid). */
  const MantraQuadLightParms: ParmTable :=
    Cons(exposure, One("light_exposure"),
    Cons(scaleX, One("areasize1"),
    Cons(scaleY, One("areasize2"),
    Cons(normalize, One("normalizearea"),
    Cons(aiSpread, Many(["coneangle", "conedelta", "coneroll"]),
    Cons(aiSoftEdge, One("edgewidth"),
    Cons(aiRoundness, One(""),
    Cons(aiShadowColorR, One("shadow_colorr"),
    Cons(aiShadowColorG, One("shadow_colorg"),
    Cons(aiShadowColorB, One("shadow_colorb"),
    Cons(aiCamera, One("light_contribprimary"),
    Cons(aiTransmission, One("light_contribenable7"),
    Nil))))))))))))

  /** The Mantra parameters proper to `disk` (Arnold disk area light). */
  const MantraDiskLightParms: ParmTable :=
    Cons(exposure, One("light_exposure"),
    Cons(scaleX, One("areasize1"),
    Cons(scaleY, One("areasize2"),
    Cons(normalize, One("normalizearea"),
    Cons(aiSpread, Many(["coneangle", "conedelta", "coneroll"]),
    Cons(aiShadowColorR, One("shadow_colorr"),
    Cons(aiShadowColorG, One("shadow_colorg"),
    Cons(aiShadowColorB, One("shadow_colorb"),
    Cons(aiCamera, One("light_contribprimary"),
    Cons(aiTransmission, One("light_contribenable7"),
    Nil))))))))))

  /** The Mantra parameters proper to `cylinderC` (Arnold cylinder light with a radius, Mantra tube). */
  const MantraCylinderCLightParms: ParmTable :=
    Cons(rotateX, One("ry"),
    Cons(rotateY, One("rx"),
    Cons(rotateZ, One("rz"),
    Cons(exposure, One("light_exposure"),
    Cons(scaleX, One("areasize2"),
    Cons(scaleY, One("areasize1"),
    Cons(scaleZ, One("areasize2"),
    Cons(normalize, One("normalizearea"),
    Cons(aiShadowColorR, One("shadow_colorr"),
    Cons(aiShadowColorG, One("shadow_colorg"),
    Cons(aiShadowColorB, One("shadow_colorb"),
    Cons(aiCamera, One("light_contribprimary"),
    Cons(aiTransmission, One("light_contribenable7"),
    Nil)))))))))))))

  /** The Mantra parameters proper to `cylinderL` (Arnold cylinder light of zero radius, Mantra line). */
  const MantraCylinderLLightParms: ParmTable :=
    Cons(rotateX, One("ry"),
    Cons(rotateY, One("rx"),
    Cons(rotateZ, One("rz"),
    Cons(exposure, One("light_exposure"),
    Cons(scaleY, One("areasize1"),
    Cons(normalize, One("normalizearea"),
    Cons(aiShadowColorR, One("shadow_colorr"),
    Cons(aiShadowColorG, One("shadow_colorg"),
    Cons(aiShadowColorB, One("shadow_colorb"),
    Nil)))))))))

  /** The Mantra parameters proper to `aiSkyDomeLight` (environment light). */
  const MantraSkydomeLightParms: ParmTable :=
    Cons(exposure, One("light_exposure"),
    Cons(camera, One("light_contribprimary"),
    Cons(transmission, One("light_contribenable7"),
    Nil)))

  /** Parameters every Arnold light has. */
  const ArnoldCommonLightParms: ParmTable :=
    Cons(visibility, One("light_enable"),
    Cons(intensity, One("ar_intensity"),
    Cons(aiSamples, One("ar_samples"),
    Cons(aiVolumeSamples, One("ar_volume_samples"),
    Cons(aiShadowDensity, One("ar_shadow_density"),
    Cons(aiCastShadows, One("ar_cast_shadows"),
    Cons(aiCastVolumetricShadows, One("ar_cast_volumetric_shadows"),
    Cons(aiDiffuse, One("ar_diffuse"),
    Cons(aiSpecular, One("ar_specular"),
    Cons(aiSss, One("ar_sss"),
    Cons(aiIndirect, One("ar_indirect"),
    Cons(aiVolume, One("ar_volume"),
    Cons(aiMaxBounces, One("ar_max_bounces"),
    Cons(aiAov, One("ar_aov"),
    Nil))))))))))))))

  /** The Arnold parameters proper to `pointLight`. */
  const ArnoldPointLightParms: ParmTable :=
    Cons(aiExposure, One("ar_exposure"),
    Cons(aiRadius, One("ar_point_radius"),
    Cons(aiNormalize, One("ar_normalize"),
    Cons(shadColorR, One("ar_shadow_colorr"),
    Cons(shadColorG, One("ar_shadow_colorg"),
    Cons(shadColorB, One("ar_shadow_colorb"),
    Cons(aiCamera, One("ar_camera"),
    Cons(aiTransmission, One("ar_transmission"),
    Nil))))))))

  /** The Arnold parameters proper to `directionalLight`. */
  const ArnoldDirectionalLightParms: ParmTable :=
    Cons(aiExposure, One("ar_exposure"),
    Cons(aiAngle, One("ar_angle"),
    Cons(aiNormalize, One("ar_normalize"),
    Cons(shadColorR, One("ar_shadow_colorr"),
    Cons(shadColorG, One("ar_shadow_colorg"),
    Cons(shadColorB, One("ar_shadow_colorb"),
    Nil))))))

  /** The Arnold parameters proper to `spotLight`. */
  const ArnoldSpotLightParms: ParmTable :=
    Cons(aiExposure, One("ar_exposure"),
    Cons(aiRoundness, One("ar_spot_roundness"),
    Cons(coneAngle, One("ar_cone_angle"),
    Cons(penumbraAngle, One("ar_penumbra_angle"),
    Cons(aiRadius, One("ar_spot_radius"),
    Cons(aiLensRadius, One("ar_lens_radius"),
    Cons(aiAspectRatio, One("ar_aspect_ratio"),
    Cons(aiNormalize, One("ar_normalize"),
    Cons(shadColorR, One("ar_shadow_colorr"),
    Cons(shadColorG, One("ar_shadow_colorg"),
    Cons(shadColorB, One("ar_shadow_colorb"),
    Nil)))))))))))

  /** The Arnold parameters proper to `areaLight` (Mantra grid). */
  const ArnoldAreaLightParms: ParmTable :=
    Cons(aiExposure, One("ar_exposure"),
    Cons(aiRoundness, One("ar_quad_roundness"),
    Cons(aiSoftEdge, One("ar_soft_edge"),
    Cons(aiSpread, One("ar_spread"),
    Cons(scaleX, One("ar_quad_sizex"),
    Cons(scaleY, One("ar_quad_sizey"),
    Cons(aiNormalize, One("ar_normalize"),
    Cons(shadColorR, One("ar_shadow_colorr"),
    Cons(shadColorG, One("ar_shadow_colorg"),
    Cons(shadColorB, One("ar_shadow_colorb"),
    Cons(aiCamera, One("ar_camera"),
    Cons(aiTransmission, One("ar_transmission"),
    Nil))))))))))))

  /** The Arnold parameters proper to `quad` (Arnold quad area light, Mantra grid). */
  const ArnoldQuadLightParms: ParmTable :=
    Cons(exposure, One("ar_exposure"),
    Cons(aiRoundness, One("ar_quad_roundness"),
    Cons(aiSoftEdge, One("ar_soft_edge"),
    Cons(aiSpread, One("ar_spread"),
    Cons(scaleX, One("ar_quad_sizex"),
    Cons(scaleY, One("ar_quad_sizey"),
    Cons(normalize, One("ar_normalize"),
    Cons(aiShadowColorR, One("ar_shadow_colorr"),
    Cons(aiShadowColorG, One("ar_shadow_colorg"),
    Cons(aiShadowColorB, One("ar_shadow_colorb"),
    Cons(aiCamera, One("ar_camera"),
    Cons(aiTransmission, One("ar_transmission"),
    Nil))))))))))))

  /** The Arnold parameters proper to `disk` (Arnold disk area light). */
  const ArnoldDiskLightParms: ParmTable :=
    Cons(exposure, One("ar_exposure"),
    Cons(aiRoundness, One("ar_quad_roundness"),
    Cons(aiSoftEdge, One("ar_soft_edge"),
    Cons(aiSpread, One("ar_spread"),
    Cons(scaleX, One("ar_disk_radius"),
    Cons(scaleY, One("ar_disk_radius"),
    Cons(normalize, One("ar_normalize"),
    Cons(aiShadowColorR, One("ar_shadow_colorr"),
    Cons(aiShadowColorG, One("ar_shadow_colorg"),
    Cons(aiShadowColorB, One("ar_shadow_colorb"),
    Cons(aiCamera, One("ar_camera"),
    Cons(aiTransmission, One("ar_transmission"),
    Nil))))))))))))

  /** The Arnold parameters proper to `cylinder`. */
  const ArnoldCylinderLightParms: ParmTable :=
    Cons(exposure, One("ar_exposure"),
    Cons(scaleX, One("ar_cylinder_radius"),
    Cons(scaleY, One("ar_height"),
    Cons(scaleZ, One("ar_cylinder_radius"),
    Cons(normalize, One("ar_normalize"),
    Cons(aiShadowColorR, One("ar_shadow_colorr"),
    Cons(aiShadowColorG, One("ar_shadow_colorg"),
    Cons(aiShadowColorB, One("ar_shadow_colorb"),
    Cons(aiCamera, One("ar_camera"),
    Cons(aiTransmission, One("ar_transmission"),
    Nil))))))))))

  /** The Arnold parameters proper to `aiSkyDomeLight` (environment light). */
  const ArnoldSkydomeLightParms: ParmTable :=
    Cons(resolution, One("ar_resolution"),
    Cons(format, One("ar_format"),
    Cons(exposure, One("ar_exposure"),
    Cons(aiShadowColorR, One("ar_shadow_colorr"),
    Cons(aiShadowColorG, One("ar_shadow_colorg"),
    Cons(aiShadowColorB, One("ar_shadow_colorb"),
    Cons(camera, One("ar_camera"),
    Cons(transmission, One("ar_transmission"),
    Cons(aiAovIndirect, One("ar_aov_indirect"),
    Nil)))))))))

  /** `{**a, **b, **c, **d}`: a new dict updated with each part in turn. */
  function Unpack4(a: ParmTable, b: ParmTable, c: ParmTable, d: ParmTable): ParmTable {
    Merge(Merge(Merge(Merge(Nil, a), b), c), d)
  }

  /** `{**a, **b, **c, **d, **e}`. */
  function Unpack5(a: ParmTable, b: ParmTable, c: ParmTable, d: ParmTable, e: ParmTable): ParmTable {
    Merge(Unpack4(a, b, c, d), e)
  }

  /** In `{**a, **b, **c, **d}` a key takes its value from the last part that has it. */
  lemma Unpack4Get(a: ParmTable, b: ParmTable, c: ParmTable, d: ParmTable, k: Attr)
    requires DistinctKeys(a) && DistinctKeys(b) && DistinctKeys(c) && DistinctKeys(d)
    ensures Get(Unpack4(a, b, c, d), k) ==
            if Get(d, k).Some? then Get(d, k) else if Get(c, k).Some? then Get(c, k)
            else if Get(b, k).Some? then Get(b, k) else Get(a, k)
  {
    MergeGet(Merge(Merge(Merge(Nil, a), b), c), d, k);
    MergeGet(Merge(Merge(Nil, a), b), c, k);
    MergeGet(Merge(Nil, a), b, k);
    MergeGet(Nil, a, k);
  }

  /** In `{**a, **b, **c, **d, **e}` a key takes its value from the last part that has it. */
  lemma Unpack5Get(a: ParmTable, b: ParmTable, c: ParmTable, d: ParmTable, e: ParmTable, k: Attr)
    requires DistinctKeys(a) && DistinctKeys(b) && DistinctKeys(c) && DistinctKeys(d) && DistinctKeys(e)
    ensures Get(Unpack5(a, b, c, d, e), k) ==
            if Get(e, k).Some? then Get(e, k) else if Get(d, k).Some? then Get(d, k)
            else if Get(c, k).Some? then Get(c, k) else if Get(b, k).Some? then Get(b, k) else Get(a, k)
  {
    MergeGet(Unpack4(a, b, c, d), e, k);
    Unpack4Get(a, b, c, d, k);
  }

  /** The Mantra parameter table of `pointLightP`: `{**TranslateParms, **RotateParms, **MantraCommonLightParms, **ColorLightParams, **MantraPointPLightParms}`. */
  const MantraPointPTable: ParmTable :=
    Unpack5(TranslateParms, RotateParms, MantraCommonLightParms, ColorLightParams, MantraPointPLightParms)

  /** The Mantra parameter table of `pointLightS`: `{**TranslateParms, **RotateParms, **MantraCommonLightParms, **ColorLightParams, **MantraPointSLightParms}`. */
  const MantraPointSTable: ParmTable :=
    Unpack5(TranslateParms, RotateParms, MantraCommonLightParms, ColorLightParams, MantraPointSLightParms)

  /** The Mantra parameter table of `directionalLightD`: `{**TranslateParms, **RotateParms, **MantraCommonLightParms, **ColorLightParams, **MantraDirectionalDLightParms}`. */
  const MantraDirectionalDTable: ParmTable :=
    Unpack5(TranslateParms, RotateParms, MantraCommonLightParms, ColorLightParams, MantraDirectionalDLightParms)

  /** The Mantra parameter table of `directionalLightS`: `{**TranslateParms, **RotateParms, **MantraCommonLightParms, **ColorLightParams, **MantraDirectionalSLightParms}`. */
  const MantraDirectionalSTable: ParmTable :=
    Unpack5(TranslateParms, RotateParms, MantraCommonLightParms, ColorLightParams, MantraDirectionalSLightParms)

  /** The Mantra parameter table of `spotLightP`: `{**TranslateParms, **RotateParms, **MantraCommonLightParms, **ColorLightParams, **MantraSpotPLightParms}`. */
  const MantraSpotPTable: ParmTable :=
    Unpack5(TranslateParms, RotateParms, MantraCommonLightParms, ColorLightParams, MantraSpotPLightParms)

  /** The Mantra parameter table of `spotLightS`: `{**TranslateParms, **RotateParms, **MantraCommonLightParms, **ColorLightParams, **MantraSpotSLightParms}`. */
  const MantraSpotSTable: ParmTable :=
    Unpack5(TranslateParms, RotateParms, MantraCommonLightParms, ColorLightParams, MantraSpotSLightParms)

  /** The Mantra parameter table of `areaLight`: `{**TranslateParms, **RotateParms, **MantraCommonLightParms, **ColorLightParams, **MantraAreaLightParms}`. */
  const MantraAreaTable: ParmTable :=
    Unpack5(TranslateParms, RotateParms, MantraCommonLightParms, ColorLightParams, MantraAreaLightParms)

  /** The Mantra parameter table of `quad`: `{**TranslateParms, **RotateParms, **MantraCommonLightParms, **ColorLightParams, **MantraQuadLightParms}`. */
  const MantraQuadTable: ParmTable :=
    Unpack5(TranslateParms, RotateParms, MantraCommonLightParms, ColorLightParams, MantraQuadLightParms)

  /** The Mantra parameter table of `disk`: `{**TranslateParms, **RotateParms, **MantraCommonLightParms, **ColorLightParams, **MantraDiskLightParms}`. */
  const MantraDiskTable: ParmTable :=
    Unpack5(TranslateParms, RotateParms, MantraCommonLightParms, ColorLightParams, MantraDiskLightParms)

  /** The Mantra parameter table of `cylinderC`: `{**TranslateParms, **MantraCommonLightParms, **ColorLightParams, **MantraCylinderCLightParms}`. */
  const MantraCylinderCTable: ParmTable :=
    Unpack4(TranslateParms, MantraCommonLightParms, ColorLightParams, MantraCylinderCLightParms)

  /** The Mantra parameter table of `cylinderL`: `{**TranslateParms, **MantraCommonLightParms, **ColorLightParams, **MantraCylinderLLightParms}`. */
  const MantraCylinderLTable: ParmTable :=
    Unpack4(TranslateParms, MantraCommonLightParms, ColorLightParams, MantraCylinderLLightParms)

  /** The Mantra parameter table of `aiSkyDomeLight`: `{**TranslateParms, **RotateParms, **MantraCommonLightParms, **ColorLightParams, **MantraSkydomeLightParms}`. */
  const MantraSkydomeTable: ParmTable :=
    Unpack5(TranslateParms, RotateParms, MantraCommonLightParms, ColorLightParams, MantraSkydomeLightParms)

  /** The Mantra parameter table of each tag, in the order of `MantraLightType`. */
  const MantraLightParms: seq<ParmTable> := [
    MantraPointPTable,
    MantraPointSTable,
    MantraDirectionalDTable,
    MantraDirectionalSTable,
    MantraSpotPTable,
    MantraSpotSTable,
    MantraAreaTable,
    MantraQuadTable,
    MantraDiskTable,
    MantraCylinderCTable,
    MantraCylinderLTable,
    MantraSkydomeTable]
  /** The Mantra light tags. */
  const MantraLightType: seq<string> := ["pointLightP", "pointLightS", "directionalLightD", "directionalLightS",
    "spotLightP", "spotLightS", "areaLight", "quad", "disk", "cylinderC", "cylinderL", "aiSkyDomeLight"]

  /** The Houdini node type created for each Mantra tag. */
  const MantraLightNodeType: seq<string> := ["hlight::2.0", "hlight::2.0", "hlight::2.0", "hlight::2.0",
    "hlight::2.0", "hlight::2.0", "hlight::2.0", "hlight::2.0", "hlight::2.0", "hlight::2.0", "hlight::2.0", "envlight"]

  /** The `light_type` menu entry of each Mantra tag; the environment light has none. */
  const MantraLightNodeSubType: seq<Field> := [Int(0), Int(4), Int(7), Int(8), Int(0), Int(4), Int(2), Int(2),
    Int(3), Int(5), Int(1), Text("")]

  /** How many light contribution slots each Mantra tag fills. */
  const MantraNumOfLightContrib: seq<int> := [6, 7, 6, 6, 6, 6, 7, 7, 7, 7, 6, 7]

  /** The Arnold parameter table of `pointLight`: `{**TranslateParms, **RotateParms, **ArnoldCommonLightParms, **ColorLightParams, **ArnoldPointLightParms}`. */
  const ArnoldPointTable: ParmTable :=
    Unpack5(TranslateParms, RotateParms, ArnoldCommonLightParms, ColorLightParams, ArnoldPointLightParms)

  /** The Arnold parameter table of `directionalLight`: `{**TranslateParms, **RotateParms, **ArnoldCommonLightParms, **ColorLightParams, **ArnoldDirectionalLightParms}`. */
  const ArnoldDirectionalTable: ParmTable :=
    Unpack5(TranslateParms, RotateParms, ArnoldCommonLightParms, ColorLightParams, ArnoldDirectionalLightParms)

  /** The Arnold parameter table of `spotLight`: `{**TranslateParms, **RotateParms, **ArnoldCommonLightParms, **ColorLightParams, **ArnoldSpotLightParms}`. */
  const ArnoldSpotTable: ParmTable :=
    Unpack5(TranslateParms, RotateParms, ArnoldCommonLightParms, ColorLightParams, ArnoldSpotLightParms)

  /** The Arnold parameter table of `areaLight`: `{**TranslateParms, **RotateParms, **ArnoldCommonLightParms, **ColorLightParams, **ArnoldAreaLightParms}`. */
  const ArnoldAreaTable: ParmTable :=
    Unpack5(TranslateParms, RotateParms, ArnoldCommonLightParms, ColorLightParams, ArnoldAreaLightParms)

  /** The Arnold parameter table of `quad`: `{**TranslateParms, **RotateParms, **ArnoldCommonLightParms, **ColorLightParams, **ArnoldQuadLightParms}`. */
  const ArnoldQuadTable: ParmTable :=
    Unpack5(TranslateParms, RotateParms, ArnoldCommonLightParms, ColorLightParams, ArnoldQuadLightParms)

  /** The Arnold parameter table of `disk`: `{**TranslateParms, **RotateParms, **ArnoldCommonLightParms, **ColorLightParams, **ArnoldDiskLightParms}`. */
  const ArnoldDiskTable: ParmTable :=
    Unpack5(TranslateParms, RotateParms, ArnoldCommonLightParms, ColorLightParams, ArnoldDiskLightParms)

  /** The Arnold parameter table of `cylinder`: `{**TranslateParms, **RotateParms, **ArnoldCommonLightParms, **ColorLightParams, **ArnoldCylinderLightParms}`. */
  const ArnoldCylinderTable: ParmTable :=
    Unpack5(TranslateParms, RotateParms, ArnoldCommonLightParms, ColorLightParams, ArnoldCylinderLightParms)

  /** The Arnold parameter table of `aiSkyDomeLight`: `{**TranslateParms, **RotateParms, **ArnoldCommonLightParms, **ColorLightParams, **ArnoldSkydomeLightParms}`. */
  const ArnoldSkydomeTable: ParmTable :=
    Unpack5(TranslateParms, RotateParms, ArnoldCommonLightParms, ColorLightParams, ArnoldSkydomeLightParms)

  /** The Arnold parameter table of each tag, in the order of `ArnoldLightType`. */
  const ArnoldLightParms: seq<ParmTable> := [
    ArnoldPointTable,
    ArnoldDirectionalTable,
    ArnoldSpotTable,
    ArnoldAreaTable,
    ArnoldQuadTable,
    ArnoldDiskTable,
    ArnoldCylinderTable,
    ArnoldSkydomeTable]
  /** The Arnold light tags. */
  const ArnoldLightType: seq<string> := ["pointLight", "directionalLight", "spotLight", "areaLight", "quad", "disk",
    "cylinder", "aiSkyDomeLight"]

  /** The `ar_light_type` menu entry of each Arnold tag. */
  const ArnoldLightNodeSubType: seq<int> := [0, 1, 2, 3, 3, 4, 5, 6]

  // ---------------------------------------------------------------------------------------
  // The shape of the merged per-type tables

  /** The key `k` survives `{**a, **b, **c, **d}` exactly when some part has it. */
  lemma Unpack4Has(a: ParmTable, b: ParmTable, c: ParmTable, d: ParmTable, k: Attr)
    ensures Get(Unpack4(a, b, c, d), k).Some? <==>
            Get(a, k).Some? || Get(b, k).Some? || Get(c, k).Some? || Get(d, k).Some?
  {
    MergeHasKey(Merge(Merge(Merge(Nil, a), b), c), d, k);
    MergeHasKey(Merge(Merge(Nil, a), b), c, k);
    MergeHasKey(Merge(Nil, a), b, k);
    MergeHasKey(Nil, a, k);
  }

  /** The key `k` survives `{**a, **b, **c, **d, **e}` exactly when some part has it. */
  lemma Unpack5Has(a: ParmTable, b: ParmTable, c: ParmTable, d: ParmTable, e: ParmTable, k: Attr)
    ensures Get(Unpack5(a, b, c, d, e), k).Some? <==>
            Get(a, k).Some? || Get(b, k).Some? || Get(c, k).Some? || Get(d, k).Some? || Get(e, k).Some?
  {
    MergeHasKey(Unpack4(a, b, c, d), e, k);
    Unpack4Has(a, b, c, d, k);
  }

  ghost predicate MapsTo(t: ParmTable, a: Attr, parm: string) {
    Get(t, a) == Some(One(parm))
  }

  ghost predicate HasKey(t: ParmTable, a: Attr) {
    Get(t, a).Some?
  }

  /** The translation and colour attributes are keys. */
  ghost predicate PlacesAndColours(t: ParmTable) {
    && HasKey(t, translateX) && HasKey(t, translateY) && HasKey(t, translateZ)
    && HasKey(t, colorR) && HasKey(t, colorG) && HasKey(t, colorB)
  }

  /** The rotation attributes are keys. */
  ghost predicate Rotates(t: ParmTable) {
    HasKey(t, rotateX) && HasKey(t, rotateY) && HasKey(t, rotateZ)
  }

  /** Rotation about X drives `ry` and about Y drives `rx`; Z stays `rz`. */
  ghost predicate RotatesSwapped(t: ParmTable) {
    MapsTo(t, rotateX, "ry") && MapsTo(t, rotateY, "rx") && MapsTo(t, rotateZ, "rz")
  }

  /** Exactly one of `aiExposure` and `exposure` is a key, and it goes to `parm`. */
  ghost predicate OneExposure(t: ParmTable, parm: string) {
    && (HasKey(t, aiExposure) != HasKey(t, exposure))
    && (HasKey(t, aiExposure) ==> MapsTo(t, aiExposure, parm))
    && (HasKey(t, exposure) ==> MapsTo(t, exposure, parm))
  }

  /** A transmission attribute drives the refract contribution. */
  ghost predicate HasTransmission(t: ParmTable) {
    MapsTo(t, aiTransmission, "light_contribenable7") || MapsTo(t, transmission, "light_contribenable7")
  }

  predicate IsCylinderTag(tag: string) {
    tag == "cylinderC" || tag == "cylinderL"
  }

  /** What a Mantra table promises about its tag and its contribution count: the translation
      and colour keys; rotation about X and Y swapped for the two cylinder tags, the rotation
      keys for the others; exactly one exposure key, going to `light_exposure`; a transmission
      key exactly when the tag fills 7 contribution slots; specular fanned out to the reflect
      and coat slots, in that order; radius and spread, where present, fanned out to their
      per-light lists. */
  ghost predicate MantraTableShape(tag: string, count: int, t: ParmTable) {
    && PlacesAndColours(t)
    && (if IsCylinderTag(tag) then RotatesSwapped(t) else Rotates(t))
    && OneExposure(t, "light_exposure")
    && (count == 7 <==> HasTransmission(t))
    && Get(t, aiSpecular) == Some(Many(["light_contribenable2", "light_contribenable3"]))
    && FansOut(t)
  }

  /** Radius and spread, where a table has them, fan out to the per-light lists. */
  ghost predicate FansOut(t: ParmTable) {
    && (HasKey(t, aiRadius) ==> Get(t, aiRadius) == Some(Many(["areasize1", "areasize2"])))
    && (HasKey(t, aiSpread) ==> Get(t, aiSpread) == Some(Many(["coneangle", "conedelta", "coneroll"])))
  }

  /** What an Arnold table promises: the translation, colour and rotation keys, exactly one
      exposure key, going to `ar_exposure`, and specular going to `ar_specular`. */
  ghost predicate ArnoldTableShape(t: ParmTable) {
    && PlacesAndColours(t)
    && Rotates(t)
    && OneExposure(t, "ar_exposure")
    && MapsTo(t, aiSpecular, "ar_specular")
  }

  /** A table without exposure or transmission keys. */
  ghost predicate Silent(t: ParmTable) {
    && Get(t, aiExposure) == None && Get(t, exposure) == None
    && Get(t, aiTransmission) == None && Get(t, transmission) == None
  }

  /** In `{**translate, **rotate, **common, **colour, **own}` the translation, rotation and
      colour keys are present. */
  lemma Unpack5Places(a: ParmTable, b: ParmTable, c: ParmTable, d: ParmTable, e: ParmTable)
    requires HasKey(a, translateX) && HasKey(a, translateY) && HasKey(a, translateZ)
    requires HasKey(b, rotateX) && HasKey(b, rotateY) && HasKey(b, rotateZ)
    requires HasKey(d, colorR) && HasKey(d, colorG) && HasKey(d, colorB)
    ensures PlacesAndColours(Unpack5(a, b, c, d, e)) && Rotates(Unpack5(a, b, c, d, e))
  {
    Unpack5Has(a, b, c, d, e, translateX);
    Unpack5Has(a, b, c, d, e, translateY);
    Unpack5Has(a, b, c, d, e, translateZ);
    Unpack5Has(a, b, c, d, e, colorR);
    Unpack5Has(a, b, c, d, e, colorG);
    Unpack5Has(a, b, c, d, e, colorB);
    Unpack5Has(a, b, c, d, e, rotateX);
    Unpack5Has(a, b, c, d, e, rotateY);
    Unpack5Has(a, b, c, d, e, rotateZ);
  }

  /** In `{**translate, **rotate, **common, **colour, **own}` exposure and transmission
      come from the type's own table and specular from the common table. */
  lemma Unpack5Picks(a: ParmTable, b: ParmTable, c: ParmTable, d: ParmTable, e: ParmTable)
    requires DistinctKeys(a) && DistinctKeys(b) && DistinctKeys(c) && DistinctKeys(d) && DistinctKeys(e)
    requires Silent(a) && Silent(b) && Silent(c) && Silent(d)
    requires Get(c, aiSpecular).Some? && Get(d, aiSpecular) == None && Get(e, aiSpecular) == None
    ensures Get(Unpack5(a, b, c, d, e), aiExposure) == Get(e, aiExposure)
    ensures Get(Unpack5(a, b, c, d, e), exposure) == Get(e, exposure)
    ensures Get(Unpack5(a, b, c, d, e), aiTransmission) == Get(e, aiTransmission)
    ensures Get(Unpack5(a, b, c, d, e), transmission) == Get(e, transmission)
    ensures Get(Unpack5(a, b, c, d, e), aiSpecular) == Get(c, aiSpecular)
  {
    Unpack5Get(a, b, c, d, e, aiExposure);
    Unpack5Get(a, b, c, d, e, exposure);
    Unpack5Get(a, b, c, d, e, aiTransmission);
    Unpack5Get(a, b, c, d, e, transmission);
    Unpack5Get(a, b, c, d, e, aiSpecular);
  }

  /** In `{**translate, **common, **colour, **own}` the translation and colour keys are present. */
  lemma Unpack4Places(a: ParmTable, c: ParmTable, d: ParmTable, e: ParmTable)
    requires HasKey(a, translateX) && HasKey(a, translateY) && HasKey(a, translateZ)
    requires HasKey(d, colorR) && HasKey(d, colorG) && HasKey(d, colorB)
    ensures PlacesAndColours(Unpack4(a, c, d, e))
  {
    Unpack4Has(a, c, d, e, translateX);
    Unpack4Has(a, c, d, e, translateY);
    Unpack4Has(a, c, d, e, translateZ);
    Unpack4Has(a, c, d, e, colorR);
    Unpack4Has(a, c, d, e, colorG);
    Unpack4Has(a, c, d, e, colorB);
  }

  /** In `{**translate, **common, **colour, **own}` rotation, exposure and transmission come
      from the type's own table and specular from the common table. */
  lemma Unpack4Picks(a: ParmTable, c: ParmTable, d: ParmTable, e: ParmTable)
    requires DistinctKeys(a) && DistinctKeys(c) && DistinctKeys(d) && DistinctKeys(e)
    requires HasKey(e, rotateX) && HasKey(e, rotateY) && HasKey(e, rotateZ)
    requires Silent(a) && Silent(c) && Silent(d)
    requires Get(c, aiSpecular).Some? && Get(d, aiSpecular) == None && Get(e, aiSpecular) == None
    ensures Get(Unpack4(a, c, d, e), rotateX) == Get(e, rotateX)
    ensures Get(Unpack4(a, c, d, e), rotateY) == Get(e, rotateY)
    ensures Get(Unpack4(a, c, d, e), rotateZ) == Get(e, rotateZ)
    ensures Get(Unpack4(a, c, d, e), aiExposure) == Get(e, aiExposure)
    ensures Get(Unpack4(a, c, d, e), exposure) == Get(e, exposure)
    ensures Get(Unpack4(a, c, d, e), aiTransmission) == Get(e, aiTransmission)
    ensures Get(Unpack4(a, c, d, e), transmission) == Get(e, transmission)
    ensures Get(Unpack4(a, c, d, e), aiSpecular) == Get(c, aiSpecular)
  {
    Unpack4Get(a, c, d, e, rotateX);
    Unpack4Get(a, c, d, e, rotateY);
    Unpack4Get(a, c, d, e, rotateZ);
    Unpack4Get(a, c, d, e, aiExposure);
    Unpack4Get(a, c, d, e, exposure);
    Unpack4Get(a, c, d, e, aiTransmission);
    Unpack4Get(a, c, d, e, transmission);
    Unpack4Get(a, c, d, e, aiSpecular);
  }

  /** A table without the fan-out keys of the per-light table. */
  ghost predicate NoFanOut(t: ParmTable) {
    Get(t, aiRadius) == None && Get(t, aiSpread) == None
  }

  /** In `{**translate, **rotate, **common, **colour, **own}` radius and spread come from the
      type's own table. */
  lemma Unpack5FanOut(a: ParmTable, b: ParmTable, c: ParmTable, d: ParmTable, e: ParmTable)
    requires DistinctKeys(a) && DistinctKeys(b) && DistinctKeys(c) && DistinctKeys(d) && DistinctKeys(e)
    requires NoFanOut(a) && NoFanOut(b) && NoFanOut(c) && NoFanOut(d)
    ensures Get(Unpack5(a, b, c, d, e), aiRadius) == Get(e, aiRadius)
    ensures Get(Unpack5(a, b, c, d, e), aiSpread) == Get(e, aiSpread)
  {
    Unpack5Get(a, b, c, d, e, aiRadius);
    Unpack5Get(a, b, c, d, e, aiSpread);
  }

  /** In `{**translate, **common, **colour, **own}` radius and spread come from the type's own table. */
  lemma Unpack4FanOut(a: ParmTable, c: ParmTable, d: ParmTable, e: ParmTable)
    requires DistinctKeys(a) && DistinctKeys(c) && DistinctKeys(d) && DistinctKeys(e)
    requires NoFanOut(a) && NoFanOut(c) && NoFanOut(d)
    ensures Get(Unpack4(a, c, d, e), aiRadius) == Get(e, aiRadius)
    ensures Get(Unpack4(a, c, d, e), aiSpread) == Get(e, aiSpread)
  {
    Unpack4Get(a, c, d, e, aiRadius);
    Unpack4Get(a, c, d, e, aiSpread);
  }

  // Single lookups in the literal tables, one small group per lemma.

  lemma TranslateTranslationKeys()
    ensures Get(TranslateParms, translateX) == Some(One("tx"))
    ensures Get(TranslateParms, translateY) == Some(One("ty"))
    ensures Get(TranslateParms, translateZ) == Some(One("tz"))
  {
  }

  lemma RotateRotationKeys()
    ensures Get(RotateParms, rotateX) == Some(One("rx"))
    ensures Get(RotateParms, rotateY) == Some(One("ry"))
    ensures Get(RotateParms, rotateZ) == Some(One("rz"))
  {
  }

  lemma ColorColourKeys()
    ensures Get(ColorLightParams, colorR) == Some(One("light_colorr"))
    ensures Get(ColorLightParams, colorG) == Some(One("light_colorg"))
    ensures Get(ColorLightParams, colorB) == Some(One("light_colorb"))
  {
  }

  lemma MantraPointPPlaces()
    ensures PlacesAndColours(MantraPointPTable) && Rotates(MantraPointPTable)
  {
    TranslateTranslationKeys();
    RotateRotationKeys();
    ColorColourKeys();
    Unpack5Places(TranslateParms, RotateParms, MantraCommonLightParms, ColorLightParams, MantraPointPLightParms);
  }

  lemma TranslateDistinct()
    ensures DistinctKeys(TranslateParms)
  {
  }

  lemma RotateDistinct()
    ensures DistinctKeys(RotateParms)
  {
  }

  lemma MantraCommonDistinct()
    ensures DistinctKeys(MantraCommonLightParms)
  {
  }

  lemma ColorDistinct()
    ensures DistinctKeys(ColorLightParams)
  {
  }

  lemma MantraPointPDistinct()
    ensures DistinctKeys(MantraPointPLightParms)
  {
  }

  lemma TranslateExposureKeys()
    ensures Get(TranslateParms, aiExposure) == None
    ensures Get(TranslateParms, exposure) == None
  {
  }

  lemma TranslateTransmissionKeys()
    ensures Get(TranslateParms, aiTransmission) == None
    ensures Get(TranslateParms, transmission) == None
  {
  }

  lemma TranslateSpecularKeys()
    ensures Get(TranslateParms, aiSpecular) == None
  {
  }

  lemma RotateExposureKeys()
    ensures Get(RotateParms, aiExposure) == None
    ensures Get(RotateParms, exposure) == None
  {
  }

  lemma RotateTransmissionKeys()
    ensures Get(RotateParms, aiTransmission) == None
    ensures Get(RotateParms, transmission) == None
  {
  }

  lemma RotateSpecularKeys()
    ensures Get(RotateParms, aiSpecular) == None
  {
  }

  lemma MantraCommonExposureKeys()
    ensures Get(MantraCommonLightParms, aiExposure) == None
    ensures Get(MantraCommonLightParms, exposure) == None
  {
    assert Get(MantraCommonLightParms.rest.rest.rest.rest.rest, aiExposure) == None;
    assert Get(MantraCommonLightParms.rest.rest.rest.rest.rest, exposure) == None;
  }

  lemma MantraCommonTransmissionKeys()
    ensures Get(MantraCommonLightParms, aiTransmission) == None
    ensures Get(MantraCommonLightParms, transmission) == None
  {
    assert Get(MantraCommonLightParms.rest.rest.rest.rest.rest, aiTransmission) == None;
    assert Get(MantraCommonLightParms.rest.rest.rest.rest.rest, transmission) == None;
  }

  lemma MantraCommonSpecularKeys()
    ensures Get(MantraCommonLightParms, aiSpecular) == Some(Many(["light_contribenable2", "light_contribenable3"]))
  {
    assert Get(MantraCommonLightParms.rest.rest.rest.rest.rest, aiSpecular) == Some(Many(["light_contribenable2", "light_contribenable3"]));
  }

  lemma ColorExposureKeys()
    ensures Get(ColorLightParams, aiExposure) == None
    ensures Get(ColorLightParams, exposure) == None
  {
  }

  lemma ColorTransmissionKeys()
    ensures Get(ColorLightParams, aiTransmission) == None
    ensures Get(ColorLightParams, transmission) == None
  {
  }

  lemma ColorSpecularKeys()
    ensures Get(ColorLightParams, aiSpecular) == None
  {
  }

  lemma MantraPointPExposureKeys()
    ensures Get(MantraPointPLightParms, aiExposure) == Some(One("light_exposure"))
    ensures Get(MantraPointPLightParms, exposure) == None
  {
  }

  lemma MantraPointPTransmissionKeys()
    ensures Get(MantraPointPLightParms, aiTransmission) == None
    ensures Get(MantraPointPLightParms, transmission) == None
  {
  }

  lemma MantraPointPSpecularKeys()
    ensures Get(MantraPointPLightParms, aiSpecular) == None
  {
  }

  lemma MantraPointPPicks()
    ensures Get(MantraPointPTable, aiExposure) == Some(One("light_exposure"))
    ensures Get(MantraPointPTable, exposure) == None
    ensures Get(MantraPointPTable, aiTransmission) == None
    ensures Get(MantraPointPTable, transmission) == None
    ensures Get(MantraPointPTable, aiSpecular) == Some(Many(["light_contribenable2", "light_contribenable3"]))
  {
    TranslateDistinct();
    RotateDistinct();
    MantraCommonDistinct();
    ColorDistinct();
    MantraPointPDistinct();
    TranslateExposureKeys();
    TranslateTransmissionKeys();
    TranslateSpecularKeys();
    RotateExposureKeys();
    RotateTransmissionKeys();
    RotateSpecularKeys();
    MantraCommonExposureKeys();
    MantraCommonTransmissionKeys();
    MantraCommonSpecularKeys();
    ColorExposureKeys();
    ColorTransmissionKeys();
    ColorSpecularKeys();
    MantraPointPExposureKeys();
    MantraPointPTransmissionKeys();
    MantraPointPSpecularKeys();
    Unpack5Picks(TranslateParms, RotateParms, MantraCommonLightParms, ColorLightParams, MantraPointPLightParms);
  }

  lemma TranslateFanOutKeys()
    ensures Get(TranslateParms, aiRadius) == None
    ensures Get(TranslateParms, aiSpread) == None
  {
  }

  lemma RotateFanOutKeys()
    ensures Get(RotateParms, aiRadius) == None
    ensures Get(RotateParms, aiSpread) == None
  {
  }

  lemma MantraCommonFanOutKeys()
    ensures Get(MantraCommonLightParms, aiRadius) == None
    ensures Get(MantraCommonLightParms, aiSpread) == None
  {
    assert Get(MantraCommonLightParms.rest.rest.rest.rest.rest, aiRadius) == None;
    assert Get(MantraCommonLightParms.rest.rest.rest.rest.rest, aiSpread) == None;
  }

  lemma ColorFanOutKeys()
    ensures Get(ColorLightParams, aiRadius) == None
    ensures Get(ColorLightParams, aiSpread) == None
  {
  }

  lemma MantraPointPFanOutKeys()
    ensures Get(MantraPointPLightParms, aiRadius) == None
    ensures Get(MantraPointPLightParms, aiSpread) == None
  {
  }

  lemma MantraPointPFanOut()
    ensures Get(MantraPointPTable, aiRadius) == None
    ensures Get(MantraPointPTable, aiSpread) == None
  {
    TranslateDistinct();
    RotateDistinct();
    MantraCommonDistinct();
    ColorDistinct();
    MantraPointPDistinct();
    TranslateFanOutKeys();
    RotateFanOutKeys();
    MantraCommonFanOutKeys();
    ColorFanOutKeys();
    MantraPointPFanOutKeys();
    Unpack5FanOut(TranslateParms, RotateParms, MantraCommonLightParms, ColorLightParams, MantraPointPLightParms);
  }

  lemma TranslateRoundnessKeys()
    ensures Get(TranslateParms, aiRoundness) == None
  {
  }

  lemma RotateRoundnessKeys()
    ensures Get(RotateParms, aiRoundness) == None
  {
  }

  lemma MantraCommonRoundnessKeys()
    ensures Get(MantraCommonLightParms, aiRoundness) == None
  {
    assert Get(MantraCommonLightParms.rest.rest.rest.rest.rest, aiRoundness) == None;
  }

  lemma ColorRoundnessKeys()
    ensures Get(ColorLightParams, aiRoundness) == None
  {
  }

  lemma MantraPointPRoundnessKeys()
    ensures Get(MantraPointPLightParms, aiRoundness) == None
  {
  }

  lemma MantraPointPRoundness()
    ensures Get(MantraPointPTable, aiRoundness) == None
  {
    TranslateDistinct();
    RotateDistinct();
    MantraCommonDistinct();
    ColorDistinct();
    MantraPointPDistinct();
    TranslateRoundnessKeys();
    RotateRoundnessKeys();
    MantraCommonRoundnessKeys();
    ColorRoundnessKeys();
    MantraPointPRoundnessKeys();
    Unpack5Get(TranslateParms, RotateParms, MantraCommonLightParms, ColorLightParams, MantraPointPLightParms, aiRoundness);
  }

  lemma MantraPointPShape()
    ensures MantraTableShape("pointLightP", 6, MantraPointPTable)
  {
    MantraPointPPlaces();
    MantraPointPPicks();
    MantraPointPFanOut();
  }

  lemma MantraPointSPlaces()
    ensures PlacesAndColours(MantraPointSTable) && Rotates(MantraPointSTable)
  {
    TranslateTranslationKeys();
    RotateRotationKeys();
    ColorColourKeys();
    Unpack5Places(TranslateParms, RotateParms, MantraCommonLightParms, ColorLightParams, MantraPointSLightParms);
  }

  lemma MantraPointSDistinct()
    ensures DistinctKeys(MantraPointSLightParms)
  {
  }

  lemma MantraPointSExposureKeys()
    ensures Get(MantraPointSLightParms, aiExposure) == Some(One("light_exposure"))
    ensures Get(MantraPointSLightParms, exposure) == None
  {
  }

  lemma MantraPointSTransmissionKeys()
    ensures Get(MantraPointSLightParms, aiTransmission) == Some(One("light_contribenable7"))
    ensures Get(MantraPointSLightParms, transmission) == None
  {
  }

  lemma MantraPointSSpecularKeys()
    ensures Get(MantraPointSLightParms, aiSpecular) == None
  {
  }

  lemma MantraPointSPicks()
    ensures Get(MantraPointSTable, aiExposure) == Some(One("light_exposure"))
    ensures Get(MantraPointSTable, exposure) == None
    ensures Get(MantraPointSTable, aiTransmission) == Some(One("light_contribenable7"))
    ensures Get(MantraPointSTable, transmission) == None
    ensures Get(MantraPointSTable, aiSpecular) == Some(Many(["light_contribenable2", "light_contribenable3"]))
  {
    TranslateDistinct();
    RotateDistinct();
    MantraCommonDistinct();
    ColorDistinct();
    MantraPointSDistinct();
    TranslateExposureKeys();
    TranslateTransmissionKeys();
    TranslateSpecularKeys();
    RotateExposureKeys();
    RotateTransmissionKeys();
    RotateSpecularKeys();
    MantraCommonExposureKeys();
    MantraCommonTransmissionKeys();
    MantraCommonSpecularKeys();
    ColorExposureKeys();
    ColorTransmissionKeys();
    ColorSpecularKeys();
    MantraPointSExposureKeys();
    MantraPointSTransmissionKeys();
    MantraPointSSpecularKeys();
    Unpack5Picks(TranslateParms, RotateParms, MantraCommonLightParms, ColorLightParams, MantraPointSLightParms);
  }

  lemma MantraPointSFanOutKeys()
    ensures Get(MantraPointSLightParms, aiRadius) == Some(Many(["areasize1", "areasize2"]))
    ensures Get(MantraPointSLightParms, aiSpread) == None
  {
  }

  lemma MantraPointSFanOut()
    ensures Get(MantraPointSTable, aiRadius) == Some(Many(["areasize1", "areasize2"]))
    ensures Get(MantraPointSTable, aiSpread) == None
  {
    TranslateDistinct();
    RotateDistinct();
    MantraCommonDistinct();
    ColorDistinct();
    MantraPointSDistinct();
    TranslateFanOutKeys();
    RotateFanOutKeys();
    MantraCommonFanOutKeys();
    ColorFanOutKeys();
    MantraPointSFanOutKeys();
    Unpack5FanOut(TranslateParms, RotateParms, MantraCommonLightParms, ColorLightParams, MantraPointSLightParms);
  }

  lemma MantraPointSRoundnessKeys()
    ensures Get(MantraPointSLightParms, aiRoundness) == None
  {
  }

  lemma MantraPointSRoundness()
    ensures Get(MantraPointSTable, aiRoundness) == None
  {
    TranslateDistinct();
    RotateDistinct();
    MantraCommonDistinct();
    ColorDistinct();
    MantraPointSDistinct();
    TranslateRoundnessKeys();
    RotateRoundnessKeys();
    MantraCommonRoundnessKeys();
    ColorRoundnessKeys();
    MantraPointSRoundnessKeys();
    Unpack5Get(TranslateParms, RotateParms, MantraCommonLightParms, ColorLightParams, MantraPointSLightParms, aiRoundness);
  }

  lemma MantraPointSShape()
    ensures MantraTableShape("pointLightS", 7, MantraPointSTable)
  {
    MantraPointSPlaces();
    MantraPointSPicks();
    MantraPointSFanOut();
  }

  lemma MantraDirectionalDPlaces()
    ensures PlacesAndColours(MantraDirectionalDTable) && Rotates(MantraDirectionalDTable)
  {
    TranslateTranslationKeys();
    RotateRotationKeys();
    ColorColourKeys();
    Unpack5Places(TranslateParms, RotateParms, MantraCommonLightParms, ColorLightParams, MantraDirectionalDLightParms);
  }

  lemma MantraDirectionalDDistinct()
    ensures DistinctKeys(MantraDirectionalDLightParms)
  {
  }

  lemma MantraDirectionalDExposureKeys()
    ensures Get(MantraDirectionalDLightParms, aiExposure) == Some(One("light_exposure"))
    ensures Get(MantraDirectionalDLightParms, exposure) == None
  {
  }

  lemma MantraDirectionalDTransmissionKeys()
    ensures Get(MantraDirectionalDLightParms, aiTransmission) == None
    ensures Get(MantraDirectionalDLightParms, transmission) == None
  {
  }

  lemma MantraDirectionalDSpecularKeys()
    ensures Get(MantraDirectionalDLightParms, aiSpecular) == None
  {
  }

  lemma MantraDirectionalDPicks()
    ensures Get(MantraDirectionalDTable, aiExposure) == Some(One("light_exposure"))
    ensures Get(MantraDirectionalDTable, exposure) == None
    ensures Get(MantraDirectionalDTable, aiTransmission) == None
    ensures Get(MantraDirectionalDTable, transmission) == None
    ensures Get(MantraDirectionalDTable, aiSpecular) == Some(Many(["light_contribenable2", "light_contribenable3"]))
  {
    TranslateDistinct();
    RotateDistinct();
    MantraCommonDistinct();
    ColorDistinct();
    MantraDirectionalDDistinct();
    TranslateExposureKeys();
    TranslateTransmissionKeys();
    TranslateSpecularKeys();
    RotateExposureKeys();
    RotateTransmissionKeys();
    RotateSpecularKeys();
    MantraCommonExposureKeys();
    MantraCommonTransmissionKeys();
    MantraCommonSpecularKeys();
    ColorExposureKeys();
    ColorTransmissionKeys();
    ColorSpecularKeys();
    MantraDirectionalDExposureKeys();
    MantraDirectionalDTransmissionKeys();
    MantraDirectionalDSpecularKeys();
    Unpack5Picks(TranslateParms, RotateParms, MantraCommonLightParms, ColorLightParams, MantraDirectionalDLightParms);
  }

  lemma MantraDirectionalDFanOutKeys()
    ensures Get(MantraDirectionalDLightParms, aiRadius) == None
    ensures Get(MantraDirectionalDLightParms, aiSpread) == None
  {
  }

  lemma MantraDirectionalDFanOut()
    ensures Get(MantraDirectionalDTable, aiRadius) == None
    ensures Get(MantraDirectionalDTable, aiSpread) == None
  {
    TranslateDistinct();
    RotateDistinct();
    MantraCommonDistinct();
    ColorDistinct();
    MantraDirectionalDDistinct();
    TranslateFanOutKeys();
    RotateFanOutKeys();
    MantraCommonFanOutKeys();
    ColorFanOutKeys();
    MantraDirectionalDFanOutKeys();
    Unpack5FanOut(TranslateParms, RotateParms, MantraCommonLightParms, ColorLightParams, MantraDirectionalDLightParms);
  }

  lemma MantraDirectionalDRoundnessKeys()
    ensures Get(MantraDirectionalDLightParms, aiRoundness) == None
  {
  }

  lemma MantraDirectionalDRoundness()
    ensures Get(MantraDirectionalDTable, aiRoundness) == None
  {
    TranslateDistinct();
    RotateDistinct();
    MantraCommonDistinct();
    ColorDistinct();
    MantraDirectionalDDistinct();
    TranslateRoundnessKeys();
    RotateRoundnessKeys();
    MantraCommonRoundnessKeys();
    ColorRoundnessKeys();
    MantraDirectionalDRoundnessKeys();
    Unpack5Get(TranslateParms, RotateParms, MantraCommonLightParms, ColorLightParams, MantraDirectionalDLightParms, aiRoundness);
  }

  lemma MantraDirectionalDShape()
    ensures MantraTableShape("directionalLightD", 6, MantraDirectionalDTable)
  {
    MantraDirectionalDPlaces();
    MantraDirectionalDPicks();
    MantraDirectionalDFanOut();
  }

  lemma MantraDirectionalSPlaces()
    ensures PlacesAndColours(MantraDirectionalSTable) && Rotates(MantraDirectionalSTable)
  {
    TranslateTranslationKeys();
    RotateRotationKeys();
    ColorColourKeys();
    Unpack5Places(TranslateParms, RotateParms, MantraCommonLightParms, ColorLightParams, MantraDirectionalSLightParms);
  }

  lemma MantraDirectionalSDistinct()
    ensures DistinctKeys(MantraDirectionalSLightParms)
  {
  }

  lemma MantraDirectionalSExposureKeys()
    ensures Get(MantraDirectionalSLightParms, aiExposure) == Some(One("light_exposure"))
    ensures Get(MantraDirectionalSLightParms, exposure) == None
  {
  }

  lemma MantraDirectionalSTransmissionKeys()
    ensures Get(MantraDirectionalSLightParms, aiTransmission) == None
    ensures Get(MantraDirectionalSLightParms, transmission) == None
  {
  }

  lemma MantraDirectionalSSpecularKeys()
    ensures Get(MantraDirectionalSLightParms, aiSpecular) == None
  {
  }

  lemma MantraDirectionalSPicks()
    ensures Get(MantraDirectionalSTable, aiExposure) == Some(One("light_exposure"))
    ensures Get(MantraDirectionalSTable, exposure) == None
    ensures Get(MantraDirectionalSTable, aiTransmission) == None
    ensures Get(MantraDirectionalSTable, transmission) == None
    ensures Get(MantraDirectionalSTable, aiSpecular) == Some(Many(["light_contribenable2", "light_contribenable3"]))
  {
    TranslateDistinct();
    RotateDistinct();
    MantraCommonDistinct();
    ColorDistinct();
    MantraDirectionalSDistinct();
    TranslateExposureKeys();
    TranslateTransmissionKeys();
    TranslateSpecularKeys();
    RotateExposureKeys();
    RotateTransmissionKeys();
    RotateSpecularKeys();
    MantraCommonExposureKeys();
    MantraCommonTransmissionKeys();
    MantraCommonSpecularKeys();
    ColorExposureKeys();
    ColorTransmissionKeys();
    ColorSpecularKeys();
    MantraDirectionalSExposureKeys();
    MantraDirectionalSTransmissionKeys();
    MantraDirectionalSSpecularKeys();
    Unpack5Picks(TranslateParms, RotateParms, MantraCommonLightParms, ColorLightParams, MantraDirectionalSLightParms);
  }

  lemma MantraDirectionalSFanOutKeys()
    ensures Get(MantraDirectionalSLightParms, aiRadius) == None
    ensures Get(MantraDirectionalSLightParms, aiSpread) == None
  {
  }

  lemma MantraDirectionalSFanOut()
    ensures Get(MantraDirectionalSTable, aiRadius) == None
    ensures Get(MantraDirectionalSTable, aiSpread) == None
  {
    TranslateDistinct();
    RotateDistinct();
    MantraCommonDistinct();
    ColorDistinct();
    MantraDirectionalSDistinct();
    TranslateFanOutKeys();
    RotateFanOutKeys();
    MantraCommonFanOutKeys();
    ColorFanOutKeys();
    MantraDirectionalSFanOutKeys();
    Unpack5FanOut(TranslateParms, RotateParms, MantraCommonLightParms, ColorLightParams, MantraDirectionalSLightParms);
  }

  lemma MantraDirectionalSRoundnessKeys()
    ensures Get(MantraDirectionalSLightParms, aiRoundness) == None
  {
  }

  lemma MantraDirectionalSRoundness()
    ensures Get(MantraDirectionalSTable, aiRoundness) == None
  {
    TranslateDistinct();
    RotateDistinct();
    MantraCommonDistinct();
    ColorDistinct();
    MantraDirectionalSDistinct();
    TranslateRoundnessKeys();
    RotateRoundnessKeys();
    MantraCommonRoundnessKeys();
    ColorRoundnessKeys();
    MantraDirectionalSRoundnessKeys();
    Unpack5Get(TranslateParms, RotateParms, MantraCommonLightParms, ColorLightParams, MantraDirectionalSLightParms, aiRoundness);
  }

  lemma MantraDirectionalSShape()
    ensures MantraTableShape("directionalLightS", 6, MantraDirectionalSTable)
  {
    MantraDirectionalSPlaces();
    MantraDirectionalSPicks();
    MantraDirectionalSFanOut();
  }

  lemma MantraSpotPPlaces()
    ensures PlacesAndColours(MantraSpotPTable) && Rotates(MantraSpotPTable)
  {
    TranslateTranslationKeys();
    RotateRotationKeys();
    ColorColourKeys();
    Unpack5Places(TranslateParms, RotateParms, MantraCommonLightParms, ColorLightParams, MantraSpotPLightParms);
  }

  lemma MantraSpotPDistinct()
    ensures DistinctKeys(MantraSpotPLightParms)
  {
  }

  lemma MantraSpotPExposureKeys()
    ensures Get(MantraSpotPLightParms, aiExposure) == Some(One("light_exposure"))
    ensures Get(MantraSpotPLightParms, exposure) == None
  {
  }

  lemma MantraSpotPTransmissionKeys()
    ensures Get(MantraSpotPLightParms, aiTransmission) == None
    ensures Get(MantraSpotPLightParms, transmission) == None
  {
  }

  lemma MantraSpotPSpecularKeys()
    ensures Get(MantraSpotPLightParms, aiSpecular) == None
  {
  }

  lemma MantraSpotPPicks()
    ensures Get(MantraSpotPTable, aiExposure) == Some(One("light_exposure"))
    ensures Get(MantraSpotPTable, exposure) == None
    ensures Get(MantraSpotPTable, aiTransmission) == None
    ensures Get(MantraSpotPTable, transmission) == None
    ensures Get(MantraSpotPTable, aiSpecular) == Some(Many(["light_contribenable2", "light_contribenable3"]))
  {
    TranslateDistinct();
    RotateDistinct();
    MantraCommonDistinct();
    ColorDistinct();
    MantraSpotPDistinct();
    TranslateExposureKeys();
    TranslateTransmissionKeys();
    TranslateSpecularKeys();
    RotateExposureKeys();
    RotateTransmissionKeys();
    RotateSpecularKeys();
    MantraCommonExposureKeys();
    MantraCommonTransmissionKeys();
    MantraCommonSpecularKeys();
    ColorExposureKeys();
    ColorTransmissionKeys();
    ColorSpecularKeys();
    MantraSpotPExposureKeys();
    MantraSpotPTransmissionKeys();
    MantraSpotPSpecularKeys();
    Unpack5Picks(TranslateParms, RotateParms, MantraCommonLightParms, ColorLightParams, MantraSpotPLightParms);
  }

  lemma MantraSpotPFanOutKeys()
    ensures Get(MantraSpotPLightParms, aiRadius) == None
    ensures Get(MantraSpotPLightParms, aiSpread) == None
  {
  }

  lemma MantraSpotPFanOut()
    ensures Get(MantraSpotPTable, aiRadius) == None
    ensures Get(MantraSpotPTable, aiSpread) == None
  {
    TranslateDistinct();
    RotateDistinct();
    MantraCommonDistinct();
    ColorDistinct();
    MantraSpotPDistinct();
    TranslateFanOutKeys();
    RotateFanOutKeys();
    MantraCommonFanOutKeys();
    ColorFanOutKeys();
    MantraSpotPFanOutKeys();
    Unpack5FanOut(TranslateParms, RotateParms, MantraCommonLightParms, ColorLightParams, MantraSpotPLightParms);
  }

  lemma MantraSpotPRoundnessKeys()
    ensures Get(MantraSpotPLightParms, aiRoundness) == None
  {
  }

  lemma MantraSpotPRoundness()
    ensures Get(MantraSpotPTable, aiRoundness) == None
  {
    TranslateDistinct();
    RotateDistinct();
    MantraCommonDistinct();
    ColorDistinct();
    MantraSpotPDistinct();
    TranslateRoundnessKeys();
    RotateRoundnessKeys();
    MantraCommonRoundnessKeys();
    ColorRoundnessKeys();
    MantraSpotPRoundnessKeys();
    Unpack5Get(TranslateParms, RotateParms, MantraCommonLightParms, ColorLightParams, MantraSpotPLightParms, aiRoundness);
  }

  lemma MantraSpotPShape()
    ensures MantraTableShape("spotLightP", 6, MantraSpotPTable)
  {
    MantraSpotPPlaces();
    MantraSpotPPicks();
    MantraSpotPFanOut();
  }

  lemma MantraSpotSPlaces()
    ensures PlacesAndColours(MantraSpotSTable) && Rotates(MantraSpotSTable)
  {
    TranslateTranslationKeys();
    RotateRotationKeys();
    ColorColourKeys();
    Unpack5Places(TranslateParms, RotateParms, MantraCommonLightParms, ColorLightParams, MantraSpotSLightParms);
  }

  lemma MantraSpotSDistinct()
    ensures DistinctKeys(MantraSpotSLightParms)
  {
  }

  lemma MantraSpotSExposureKeys()
    ensures Get(MantraSpotSLightParms, aiExposure) == Some(One("light_exposure"))
    ensures Get(MantraSpotSLightParms, exposure) == None
  {
    assert Get(MantraSpotSLightParms.rest.rest.rest.rest, aiExposure) == None;
    assert Get(MantraSpotSLightParms.rest.rest.rest.rest, exposure) == None;
  }

  lemma MantraSpotSTransmissionKeys()
    ensures Get(MantraSpotSLightParms, aiTransmission) == None
    ensures Get(MantraSpotSLightParms, transmission) == None
  {
    assert Get(MantraSpotSLightParms.rest.rest.rest.rest, aiTransmission) == None;
    assert Get(MantraSpotSLightParms.rest.rest.rest.rest, transmission) == None;
  }

  lemma MantraSpotSSpecularKeys()
    ensures Get(MantraSpotSLightParms, aiSpecular) == None
  {
    assert Get(MantraSpotSLightParms.rest.rest.rest.rest, aiSpecular) == None;
  }

  lemma MantraSpotSPicks()
    ensures Get(MantraSpotSTable, aiExposure) == Some(One("light_exposure"))
    ensures Get(MantraSpotSTable, exposure) == None
    ensures Get(MantraSpotSTable, aiTransmission) == None
    ensures Get(MantraSpotSTable, transmission) == None
    ensures Get(MantraSpotSTable, aiSpecular) == Some(Many(["light_contribenable2", "light_contribenable3"]))
  {
    TranslateDistinct();
    RotateDistinct();
    MantraCommonDistinct();
    ColorDistinct();
    MantraSpotSDistinct();
    TranslateExposureKeys();
    TranslateTransmissionKeys();
    TranslateSpecularKeys();
    RotateExposureKeys();
    RotateTransmissionKeys();
    RotateSpecularKeys();
    MantraCommonExposureKeys();
    MantraCommonTransmissionKeys();
    MantraCommonSpecularKeys();
    ColorExposureKeys();
    ColorTransmissionKeys();
    ColorSpecularKeys();
    MantraSpotSExposureKeys();
    MantraSpotSTransmissionKeys();
    MantraSpotSSpecularKeys();
    Unpack5Picks(TranslateParms, RotateParms, MantraCommonLightParms, ColorLightParams, MantraSpotSLightParms);
  }

  lemma MantraSpotSFanOutKeys()
    ensures Get(MantraSpotSLightParms, aiRadius) == Some(Many(["areasize1", "areasize2"]))
    ensures Get(MantraSpotSLightParms, aiSpread) == None
  {
    assert Get(MantraSpotSLightParms.rest.rest.rest.rest, aiRadius) == Some(Many(["areasize1", "areasize2"]));
    assert Get(MantraSpotSLightParms.rest.rest.rest.rest, aiSpread) == None;
  }

  lemma MantraSpotSFanOut()
    ensures Get(MantraSpotSTable, aiRadius) == Some(Many(["areasize1", "areasize2"]))
    ensures Get(MantraSpotSTable, aiSpread) == None
  {
    TranslateDistinct();
    RotateDistinct();
    MantraCommonDistinct();
    ColorDistinct();
    MantraSpotSDistinct();
    TranslateFanOutKeys();
    RotateFanOutKeys();
    MantraCommonFanOutKeys();
    ColorFanOutKeys();
    MantraSpotSFanOutKeys();
    Unpack5FanOut(TranslateParms, RotateParms, MantraCommonLightParms, ColorLightParams, MantraSpotSLightParms);
  }

  lemma MantraSpotSRoundnessKeys()
    ensures Get(MantraSpotSLightParms, aiRoundness) == None
  {
    assert Get(MantraSpotSLightParms.rest.rest.rest.rest, aiRoundness) == None;
  }

  lemma MantraSpotSRoundness()
    ensures Get(MantraSpotSTable, aiRoundness) == None
  {
    TranslateDistinct();
    RotateDistinct();
    MantraCommonDistinct();
    ColorDistinct();
    MantraSpotSDistinct();
    TranslateRoundnessKeys();
    RotateRoundnessKeys();
    MantraCommonRoundnessKeys();
    ColorRoundnessKeys();
    MantraSpotSRoundnessKeys();
    Unpack5Get(TranslateParms, RotateParms, MantraCommonLightParms, ColorLightParams, MantraSpotSLightParms, aiRoundness);
  }

  lemma MantraSpotSShape()
    ensures MantraTableShape("spotLightS", 6, MantraSpotSTable)
  {
    MantraSpotSPlaces();
    MantraSpotSPicks();
    MantraSpotSFanOut();
  }

  lemma MantraAreaPlaces()
    ensures PlacesAndColours(MantraAreaTable) && Rotates(MantraAreaTable)
  {
    TranslateTranslationKeys();
    RotateRotationKeys();
    ColorColourKeys();
    Unpack5Places(TranslateParms, RotateParms, MantraCommonLightParms, ColorLightParams, MantraAreaLightParms);
  }

  lemma MantraAreaDistinct()
    ensures DistinctKeys(MantraAreaLightParms)
  {
  }

  lemma MantraAreaExposureKeys()
    ensures Get(MantraAreaLightParms, aiExposure) == Some(One("light_exposure"))
    ensures Get(MantraAreaLightParms, exposure) == None
  {
    assert Get(MantraAreaLightParms.rest.rest.rest.rest.rest.rest, aiExposure) == None;
    assert Get(MantraAreaLightParms.rest.rest.rest.rest.rest.rest, exposure) == None;
  }

  lemma MantraAreaTransmissionKeys()
    ensures Get(MantraAreaLightParms, aiTransmission) == Some(One("light_contribenable7"))
    ensures Get(MantraAreaLightParms, transmission) == None
  {
    assert Get(MantraAreaLightParms.rest.rest.rest.rest.rest.rest, aiTransmission) == Some(One("light_contribenable7"));
    assert Get(MantraAreaLightParms.rest.rest.rest.rest.rest.rest, transmission) == None;
  }

  lemma MantraAreaSpecularKeys()
    ensures Get(MantraAreaLightParms, aiSpecular) == None
  {
    assert Get(MantraAreaLightParms.rest.rest.rest.rest.rest.rest, aiSpecular) == None;
  }

  lemma MantraAreaPicks()
    ensures Get(MantraAreaTable, aiExposure) == Some(One("light_exposure"))
    ensures Get(MantraAreaTable, exposure) == None
    ensures Get(MantraAreaTable, aiTransmission) == Some(One("light_contribenable7"))
    ensures Get(MantraAreaTable, transmission) == None
    ensures Get(MantraAreaTable, aiSpecular) == Some(Many(["light_contribenable2", "light_contribenable3"]))
  {
    TranslateDistinct();
    RotateDistinct();
    MantraCommonDistinct();
    ColorDistinct();
    MantraAreaDistinct();
    TranslateExposureKeys();
    TranslateTransmissionKeys();
    TranslateSpecularKeys();
    RotateExposureKeys();
    RotateTransmissionKeys();
    RotateSpecularKeys();
    MantraCommonExposureKeys();
    MantraCommonTransmissionKeys();
    MantraCommonSpecularKeys();
    ColorExposureKeys();
    ColorTransmissionKeys();
    ColorSpecularKeys();
    MantraAreaExposureKeys();
    MantraAreaTransmissionKeys();
    MantraAreaSpecularKeys();
    Unpack5Picks(TranslateParms, RotateParms, MantraCommonLightParms, ColorLightParams, MantraAreaLightParms);
  }

  lemma MantraAreaFanOutKeys()
    ensures Get(MantraAreaLightParms, aiRadius) == None
    ensures Get(MantraAreaLightParms, aiSpread) == Some(Many(["coneangle", "conedelta", "coneroll"]))
  {
    assert Get(MantraAreaLightParms.rest.rest.rest.rest.rest.rest, aiRadius) == None;
    assert Get(MantraAreaLightParms.rest.rest.rest.rest.rest.rest, aiSpread) == None;
  }

  lemma MantraAreaFanOut()
    ensures Get(MantraAreaTable, aiRadius) == None
    ensures Get(MantraAreaTable, aiSpread) == Some(Many(["coneangle", "conedelta", "coneroll"]))
  {
    TranslateDistinct();
    RotateDistinct();
    MantraCommonDistinct();
    ColorDistinct();
    MantraAreaDistinct();
    TranslateFanOutKeys();
    RotateFanOutKeys();
    MantraCommonFanOutKeys();
    ColorFanOutKeys();
    MantraAreaFanOutKeys();
    Unpack5FanOut(TranslateParms, RotateParms, MantraCommonLightParms, ColorLightParams, MantraAreaLightParms);
  }

  lemma MantraAreaRoundnessKeys()
    ensures Get(MantraAreaLightParms, aiRoundness) == Some(One(""))
  {
    assert Get(MantraAreaLightParms.rest.rest.rest.rest.rest.rest, aiRoundness) == Some(One(""));
  }

  lemma MantraAreaRoundness()
    ensures Get(MantraAreaTable, aiRoundness) == Some(One(""))
  {
    TranslateDistinct();
    RotateDistinct();
    MantraCommonDistinct();
    ColorDistinct();
    MantraAreaDistinct();
    TranslateRoundnessKeys();
    RotateRoundnessKeys();
    MantraCommonRoundnessKeys();
    ColorRoundnessKeys();
    MantraAreaRoundnessKeys();
    Unpack5Get(TranslateParms, RotateParms, MantraCommonLightParms, ColorLightParams, MantraAreaLightParms, aiRoundness);
  }

  lemma MantraAreaShape()
    ensures MantraTableShape("areaLight", 7, MantraAreaTable)
  {
    MantraAreaPlaces();
    MantraAreaPicks();
    MantraAreaFanOut();
  }

  lemma MantraQuadPlaces()
    ensures PlacesAndColours(MantraQuadTable) && Rotates(MantraQuadTable)
  {
    TranslateTranslationKeys();
    RotateRotationKeys();
    ColorColourKeys();
    Unpack5Places(TranslateParms, RotateParms, MantraCommonLightParms, ColorLightParams, MantraQuadLightParms);
  }

  lemma MantraQuadDistinct()
    ensures DistinctKeys(MantraQuadLightParms)
  {
  }

  lemma MantraQuadExposureKeys()
    ensures Get(MantraQuadLightParms, aiExposure) == None
    ensures Get(MantraQuadLightParms, exposure) == Some(One("light_exposure"))
  {
    assert Get(MantraQuadLightParms.rest.rest.rest.rest.rest.rest, aiExposure) == None;
    assert Get(MantraQuadLightParms.rest.rest.rest.rest.rest.rest, exposure) == None;
  }

  lemma MantraQuadTransmissionKeys()
    ensures Get(MantraQuadLightParms, aiTransmission) == Some(One("light_contribenable7"))
    ensures Get(MantraQuadLightParms, transmission) == None
  {
    assert Get(MantraQuadLightParms.rest.rest.rest.rest.rest.rest, aiTransmission) == Some(One("light_contribenable7"));
    assert Get(MantraQuadLightParms.rest.rest.rest.rest.rest.rest, transmission) == None;
  }

  lemma MantraQuadSpecularKeys()
    ensures Get(MantraQuadLightParms, aiSpecular) == None
  {
    assert Get(MantraQuadLightParms.rest.rest.rest.rest.rest.rest, aiSpecular) == None;
  }

  lemma MantraQuadPicks()
    ensures Get(MantraQuadTable, aiExposure) == None
    ensures Get(MantraQuadTable, exposure) == Some(One("light_exposure"))
    ensures Get(MantraQuadTable, aiTransmission) == Some(One("light_contribenable7"))
    ensures Get(MantraQuadTable, transmission) == None
    ensures Get(MantraQuadTable, aiSpecular) == Some(Many(["light_contribenable2", "light_contribenable3"]))
  {
    TranslateDistinct();
    RotateDistinct();
    MantraCommonDistinct();
    ColorDistinct();
    MantraQuadDistinct();
    TranslateExposureKeys();
    TranslateTransmissionKeys();
    TranslateSpecularKeys();
    RotateExposureKeys();
    RotateTransmissionKeys();
    RotateSpecularKeys();
    MantraCommonExposureKeys();
    MantraCommonTransmissionKeys();
    MantraCommonSpecularKeys();
    ColorExposureKeys();
    ColorTransmissionKeys();
    ColorSpecularKeys();
    MantraQuadExposureKeys();
    MantraQuadTransmissionKeys();
    MantraQuadSpecularKeys();
    Unpack5Picks(TranslateParms, RotateParms, MantraCommonLightParms, ColorLightParams, MantraQuadLightParms);
  }

  lemma MantraQuadFanOutKeys()
    ensures Get(MantraQuadLightParms, aiRadius) == None
    ensures Get(MantraQuadLightParms, aiSpread) == Some(Many(["coneangle", "conedelta", "coneroll"]))
  {
    assert Get(MantraQuadLightParms.rest.rest.rest.rest.rest.rest, aiRadius) == None;
    assert Get(MantraQuadLightParms.rest.rest.rest.rest.rest.rest, aiSpread) == None;
  }

  lemma MantraQuadFanOut()
    ensures Get(MantraQuadTable, aiRadius) == None
    ensures Get(MantraQuadTable, aiSpread) == Some(Many(["coneangle", "conedelta", "coneroll"]))
  {
    TranslateDistinct();
    RotateDistinct();
    MantraCommonDistinct();
    ColorDistinct();
    MantraQuadDistinct();
    TranslateFanOutKeys();
    RotateFanOutKeys();
    MantraCommonFanOutKeys();
    ColorFanOutKeys();
    MantraQuadFanOutKeys();
    Unpack5FanOut(TranslateParms, RotateParms, MantraCommonLightParms, ColorLightParams, MantraQuadLightParms);
  }

  lemma MantraQuadRoundnessKeys()
    ensures Get(MantraQuadLightParms, aiRoundness) == Some(One(""))
  {
    assert Get(MantraQuadLightParms.rest.rest.rest.rest.rest.rest, aiRoundness) == Some(One(""));
  }

  lemma MantraQuadRoundness()
    ensures Get(MantraQuadTable, aiRoundness) == Some(One(""))
  {
    TranslateDistinct();
    RotateDistinct();
    MantraCommonDistinct();
    ColorDistinct();
    MantraQuadDistinct();
    TranslateRoundnessKeys();
    RotateRoundnessKeys();
    MantraCommonRoundnessKeys();
    ColorRoundnessKeys();
    MantraQuadRoundnessKeys();
    Unpack5Get(TranslateParms, RotateParms, MantraCommonLightParms, ColorLightParams, MantraQuadLightParms, aiRoundness);
  }

  lemma MantraQuadShape()
    ensures MantraTableShape("quad", 7, MantraQuadTable)
  {
    MantraQuadPlaces();
    MantraQuadPicks();
    MantraQuadFanOut();
  }

  lemma MantraDiskPlaces()
    ensures PlacesAndColours(MantraDiskTable) && Rotates(MantraDiskTable)
  {
    TranslateTranslationKeys();
    RotateRotationKeys();
    ColorColourKeys();
    Unpack5Places(TranslateParms, RotateParms, MantraCommonLightParms, ColorLightParams, MantraDiskLightParms);
  }

  lemma MantraDiskDistinct()
    ensures DistinctKeys(MantraDiskLightParms)
  {
  }

  lemma MantraDiskExposureKeys()
    ensures Get(MantraDiskLightParms, aiExposure) == None
    ensures Get(MantraDiskLightParms, exposure) == Some(One("light_exposure"))
  {
    assert Get(MantraDiskLightParms.rest.rest.rest.rest.rest, aiExposure) == None;
    assert Get(MantraDiskLightParms.rest.rest.rest.rest.rest, exposure) == None;
  }

  lemma MantraDiskTransmissionKeys()
    ensures Get(MantraDiskLightParms, aiTransmission) == Some(One("light_contribenable7"))
    ensures Get(MantraDiskLightParms, transmission) == None
  {
    assert Get(MantraDiskLightParms.rest.rest.rest.rest.rest, aiTransmission) == Some(One("light_contribenable7"));
    assert Get(MantraDiskLightParms.rest.rest.rest.rest.rest, transmission) == None;
  }

  lemma MantraDiskSpecularKeys()
    ensures Get(MantraDiskLightParms, aiSpecular) == None
  {
    assert Get(MantraDiskLightParms.rest.rest.rest.rest.rest, aiSpecular) == None;
  }

  lemma MantraDiskPicks()
    ensures Get(MantraDiskTable, aiExposure) == None
    ensures Get(MantraDiskTable, exposure) == Some(One("light_exposure"))
    ensures Get(MantraDiskTable, aiTransmission) == Some(One("light_contribenable7"))
    ensures Get(MantraDiskTable, transmission) == None
    ensures Get(MantraDiskTable, aiSpecular) == Some(Many(["light_contribenable2", "light_contribenable3"]))
  {
    TranslateDistinct();
    RotateDistinct();
    MantraCommonDistinct();
    ColorDistinct();
    MantraDiskDistinct();
    TranslateExposureKeys();
    TranslateTransmissionKeys();
    TranslateSpecularKeys();
    RotateExposureKeys();
    RotateTransmissionKeys();
    RotateSpecularKeys();
    MantraCommonExposureKeys();
    MantraCommonTransmissionKeys();
    MantraCommonSpecularKeys();
    ColorExposureKeys();
    ColorTransmissionKeys();
    ColorSpecularKeys();
    MantraDiskExposureKeys();
    MantraDiskTransmissionKeys();
    MantraDiskSpecularKeys();
    Unpack5Picks(TranslateParms, RotateParms, MantraCommonLightParms, ColorLightParams, MantraDiskLightParms);
  }

  lemma MantraDiskFanOutKeys()
    ensures Get(MantraDiskLightParms, aiRadius) == None
    ensures Get(MantraDiskLightParms, aiSpread) == Some(Many(["coneangle", "conedelta", "coneroll"]))
  {
    assert Get(MantraDiskLightParms.rest.rest.rest.rest.rest, aiRadius) == None;
    assert Get(MantraDiskLightParms.rest.rest.rest.rest.rest, aiSpread) == None;
  }

  lemma MantraDiskFanOut()
    ensures Get(MantraDiskTable, aiRadius) == None
    ensures Get(MantraDiskTable, aiSpread) == Some(Many(["coneangle", "conedelta", "coneroll"]))
  {
    TranslateDistinct();
    RotateDistinct();
    MantraCommonDistinct();
    ColorDistinct();
    MantraDiskDistinct();
    TranslateFanOutKeys();
    RotateFanOutKeys();
    MantraCommonFanOutKeys();
    ColorFanOutKeys();
    MantraDiskFanOutKeys();
    Unpack5FanOut(TranslateParms, RotateParms, MantraCommonLightParms, ColorLightParams, MantraDiskLightParms);
  }

  lemma MantraDiskRoundnessKeys()
    ensures Get(MantraDiskLightParms, aiRoundness) == None
  {
    assert Get(MantraDiskLightParms.rest.rest.rest.rest.rest, aiRoundness) == None;
  }

  lemma MantraDiskRoundness()
    ensures Get(MantraDiskTable, aiRoundness) == None
  {
    TranslateDistinct();
    RotateDistinct();
    MantraCommonDistinct();
    ColorDistinct();
    MantraDiskDistinct();
    TranslateRoundnessKeys();
    RotateRoundnessKeys();
    MantraCommonRoundnessKeys();
    ColorRoundnessKeys();
    MantraDiskRoundnessKeys();
    Unpack5Get(TranslateParms, RotateParms, MantraCommonLightParms, ColorLightParams, MantraDiskLightParms, aiRoundness);
  }

  lemma MantraDiskShape()
    ensures MantraTableShape("disk", 7, MantraDiskTable)
  {
    MantraDiskPlaces();
    MantraDiskPicks();
    MantraDiskFanOut();
  }

  lemma MantraCylinderCPlaces()
    ensures PlacesAndColours(MantraCylinderCTable)
  {
    TranslateTranslationKeys();
    ColorColourKeys();
    Unpack4Places(TranslateParms, MantraCommonLightParms, ColorLightParams, MantraCylinderCLightParms);
  }

  lemma MantraCylinderCDistinct()
    ensures DistinctKeys(MantraCylinderCLightParms)
  {
  }

  lemma MantraCylinderCExposureKeys()
    ensures Get(MantraCylinderCLightParms, aiExposure) == None
    ensures Get(MantraCylinderCLightParms, exposure) == Some(One("light_exposure"))
  {
    assert Get(MantraCylinderCLightParms.rest.rest.rest.rest.rest.rest, aiExposure) == None;
    assert Get(MantraCylinderCLightParms.rest.rest.rest.rest.rest.rest, exposure) == None;
  }

  lemma MantraCylinderCTransmissionKeys()
    ensures Get(MantraCylinderCLightParms, aiTransmission) == Some(One("light_contribenable7"))
    ensures Get(MantraCylinderCLightParms, transmission) == None
  {
    assert Get(MantraCylinderCLightParms.rest.rest.rest.rest.rest.rest, aiTransmission) == Some(One("light_contribenable7"));
    assert Get(MantraCylinderCLightParms.rest.rest.rest.rest.rest.rest, transmission) == None;
  }

  lemma MantraCylinderCSpecularKeys()
    ensures Get(MantraCylinderCLightParms, aiSpecular) == None
  {
    assert Get(MantraCylinderCLightParms.rest.rest.rest.rest.rest.rest, aiSpecular) == None;
  }

  lemma MantraCylinderCRotationKeys()
    ensures Get(MantraCylinderCLightParms, rotateX) == Some(One("ry"))
    ensures Get(MantraCylinderCLightParms, rotateY) == Some(One("rx"))
    ensures Get(MantraCylinderCLightParms, rotateZ) == Some(One("rz"))
  {
    assert Get(MantraCylinderCLightParms.rest.rest.rest.rest.rest.rest, rotateX) == None;
    assert Get(MantraCylinderCLightParms.rest.rest.rest.rest.rest.rest, rotateY) == None;
    assert Get(MantraCylinderCLightParms.rest.rest.rest.rest.rest.rest, rotateZ) == None;
  }

  lemma MantraCylinderCPicks()
    ensures Get(MantraCylinderCTable, aiExposure) == None
    ensures Get(MantraCylinderCTable, exposure) == Some(One("light_exposure"))
    ensures Get(MantraCylinderCTable, aiTransmission) == Some(One("light_contribenable7"))
    ensures Get(MantraCylinderCTable, transmission) == None
    ensures Get(MantraCylinderCTable, aiSpecular) == Some(Many(["light_contribenable2", "light_contribenable3"]))
    ensures Get(MantraCylinderCTable, rotateX) == Some(One("ry"))
    ensures Get(MantraCylinderCTable, rotateY) == Some(One("rx"))
    ensures Get(MantraCylinderCTable, rotateZ) == Some(One("rz"))
  {
    TranslateDistinct();
    MantraCommonDistinct();
    ColorDistinct();
    MantraCylinderCDistinct();
    TranslateExposureKeys();
    TranslateTransmissionKeys();
    TranslateSpecularKeys();
    MantraCommonExposureKeys();
    MantraCommonTransmissionKeys();
    MantraCommonSpecularKeys();
    ColorExposureKeys();
    ColorTransmissionKeys();
    ColorSpecularKeys();
    MantraCylinderCExposureKeys();
    MantraCylinderCTransmissionKeys();
    MantraCylinderCSpecularKeys();
    MantraCylinderCRotationKeys();
    Unpack4Picks(TranslateParms, MantraCommonLightParms, ColorLightParams, MantraCylinderCLightParms);
  }

  lemma MantraCylinderCFanOutKeys()
    ensures Get(MantraCylinderCLightParms, aiRadius) == None
    ensures Get(MantraCylinderCLightParms, aiSpread) == None
  {
    assert Get(MantraCylinderCLightParms.rest.rest.rest.rest.rest.rest, aiRadius) == None;
    assert Get(MantraCylinderCLightParms.rest.rest.rest.rest.rest.rest, aiSpread) == None;
  }

  lemma MantraCylinderCFanOut()
    ensures Get(MantraCylinderCTable, aiRadius) == None
    ensures Get(MantraCylinderCTable, aiSpread) == None
  {
    TranslateDistinct();
    MantraCommonDistinct();
    ColorDistinct();
    MantraCylinderCDistinct();
    TranslateFanOutKeys();
    MantraCommonFanOutKeys();
    ColorFanOutKeys();
    MantraCylinderCFanOutKeys();
    Unpack4FanOut(TranslateParms, MantraCommonLightParms, ColorLightParams, MantraCylinderCLightParms);
  }

  lemma MantraCylinderCRoundnessKeys()
    ensures Get(MantraCylinderCLightParms, aiRoundness) == None
  {
    assert Get(MantraCylinderCLightParms.rest.rest.rest.rest.rest.rest, aiRoundness) == None;
  }

  lemma MantraCylinderCRoundness()
    ensures Get(MantraCylinderCTable, aiRoundness) == None
  {
    TranslateDistinct();
    MantraCommonDistinct();
    ColorDistinct();
    MantraCylinderCDistinct();
    TranslateRoundnessKeys();
    MantraCommonRoundnessKeys();
    ColorRoundnessKeys();
    MantraCylinderCRoundnessKeys();
    Unpack4Get(TranslateParms, MantraCommonLightParms, ColorLightParams, MantraCylinderCLightParms, aiRoundness);
  }

  lemma MantraCylinderCShape()
    ensures MantraTableShape("cylinderC", 7, MantraCylinderCTable)
  {
    MantraCylinderCPlaces();
    MantraCylinderCPicks();
    MantraCylinderCFanOut();
  }

  lemma MantraCylinderLPlaces()
    ensures PlacesAndColours(MantraCylinderLTable)
  {
    TranslateTranslationKeys();
    ColorColourKeys();
    Unpack4Places(TranslateParms, MantraCommonLightParms, ColorLightParams, MantraCylinderLLightParms);
  }

  lemma MantraCylinderLDistinct()
    ensures DistinctKeys(MantraCylinderLLightParms)
  {
  }

  lemma MantraCylinderLExposureKeys()
    ensures Get(MantraCylinderLLightParms, aiExposure) == None
    ensures Get(MantraCylinderLLightParms, exposure) == Some(One("light_exposure"))
  {
    assert Get(MantraCylinderLLightParms.rest.rest.rest.rest, aiExposure) == None;
    assert Get(MantraCylinderLLightParms.rest.rest.rest.rest, exposure) == None;
  }

  lemma MantraCylinderLTransmissionKeys()
    ensures Get(MantraCylinderLLightParms, aiTransmission) == None
    ensures Get(MantraCylinderLLightParms, transmission) == None
  {
    assert Get(MantraCylinderLLightParms.rest.rest.rest.rest, aiTransmission) == None;
    assert Get(MantraCylinderLLightParms.rest.rest.rest.rest, transmission) == None;
  }

  lemma MantraCylinderLSpecularKeys()
    ensures Get(MantraCylinderLLightParms, aiSpecular) == None
  {
    assert Get(MantraCylinderLLightParms.rest.rest.rest.rest, aiSpecular) == None;
  }

  lemma MantraCylinderLRotationKeys()
    ensures Get(MantraCylinderLLightParms, rotateX) == Some(One("ry"))
    ensures Get(MantraCylinderLLightParms, rotateY) == Some(One("rx"))
    ensures Get(MantraCylinderLLightParms, rotateZ) == Some(One("rz"))
  {
    assert Get(MantraCylinderLLightParms.rest.rest.rest.rest, rotateX) == None;
    assert Get(MantraCylinderLLightParms.rest.rest.rest.rest, rotateY) == None;
    assert Get(MantraCylinderLLightParms.rest.rest.rest.rest, rotateZ) == None;
  }

  lemma MantraCylinderLPicks()
    ensures Get(MantraCylinderLTable, aiExposure) == None
    ensures Get(MantraCylinderLTable, exposure) == Some(One("light_exposure"))
    ensures Get(MantraCylinderLTable, aiTransmission) == None
    ensures Get(MantraCylinderLTable, transmission) == None
    ensures Get(MantraCylinderLTable, aiSpecular) == Some(Many(["light_contribenable2", "light_contribenable3"]))
    ensures Get(MantraCylinderLTable, rotateX) == Some(One("ry"))
    ensures Get(MantraCylinderLTable, rotateY) == Some(One("rx"))
    ensures Get(MantraCylinderLTable, rotateZ) == Some(One("rz"))
  {
    TranslateDistinct();
    MantraCommonDistinct();
    ColorDistinct();
    MantraCylinderLDistinct();
    TranslateExposureKeys();
    TranslateTransmissionKeys();
    TranslateSpecularKeys();
    MantraCommonExposureKeys();
    MantraCommonTransmissionKeys();
    MantraCommonSpecularKeys();
    ColorExposureKeys();
    ColorTransmissionKeys();
    ColorSpecularKeys();
    MantraCylinderLExposureKeys();
    MantraCylinderLTransmissionKeys();
    MantraCylinderLSpecularKeys();
    MantraCylinderLRotationKeys();
    Unpack4Picks(TranslateParms, MantraCommonLightParms, ColorLightParams, MantraCylinderLLightParms);
  }

  lemma MantraCylinderLFanOutKeys()
    ensures Get(MantraCylinderLLightParms, aiRadius) == None
    ensures Get(MantraCylinderLLightParms, aiSpread) == None
  {
    assert Get(MantraCylinderLLightParms.rest.rest.rest.rest, aiRadius) == None;
    assert Get(MantraCylinderLLightParms.rest.rest.rest.rest, aiSpread) == None;
  }

  lemma MantraCylinderLFanOut()
    ensures Get(MantraCylinderLTable, aiRadius) == None
    ensures Get(MantraCylinderLTable, aiSpread) == None
  {
    TranslateDistinct();
    MantraCommonDistinct();
    ColorDistinct();
    MantraCylinderLDistinct();
    TranslateFanOutKeys();
    MantraCommonFanOutKeys();
    ColorFanOutKeys();
    MantraCylinderLFanOutKeys();
    Unpack4FanOut(TranslateParms, MantraCommonLightParms, ColorLightParams, MantraCylinderLLightParms);
  }

  lemma MantraCylinderLRoundnessKeys()
    ensures Get(MantraCylinderLLightParms, aiRoundness) == None
  {
    assert Get(MantraCylinderLLightParms.rest.rest.rest.rest, aiRoundness) == None;
  }

  lemma MantraCylinderLRoundness()
    ensures Get(MantraCylinderLTable, aiRoundness) == None
  {
    TranslateDistinct();
    MantraCommonDistinct();
    ColorDistinct();
    MantraCylinderLDistinct();
    TranslateRoundnessKeys();
    MantraCommonRoundnessKeys();
    ColorRoundnessKeys();
    MantraCylinderLRoundnessKeys();
    Unpack4Get(TranslateParms, MantraCommonLightParms, ColorLightParams, MantraCylinderLLightParms, aiRoundness);
  }

  lemma MantraCylinderLShape()
    ensures MantraTableShape("cylinderL", 6, MantraCylinderLTable)
  {
    MantraCylinderLPlaces();
    MantraCylinderLPicks();
    MantraCylinderLFanOut();
  }

  lemma MantraSkydomePlaces()
    ensures PlacesAndColours(MantraSkydomeTable) && Rotates(MantraSkydomeTable)
  {
    TranslateTranslationKeys();
    RotateRotationKeys();
    ColorColourKeys();
    Unpack5Places(TranslateParms, RotateParms, MantraCommonLightParms, ColorLightParams, MantraSkydomeLightParms);
  }

  lemma MantraSkydomeDistinct()
    ensures DistinctKeys(MantraSkydomeLightParms)
  {
  }

  lemma MantraSkydomeExposureKeys()
    ensures Get(MantraSkydomeLightParms, aiExposure) == None
    ensures Get(MantraSkydomeLightParms, exposure) == Some(One("light_exposure"))
  {
  }

  lemma MantraSkydomeTransmissionKeys()
    ensures Get(MantraSkydomeLightParms, aiTransmission) == None
    ensures Get(MantraSkydomeLightParms, transmission) == Some(One("light_contribenable7"))
  {
  }

  lemma MantraSkydomeSpecularKeys()
    ensures Get(MantraSkydomeLightParms, aiSpecular) == None
  {
  }

  lemma MantraSkydomePicks()
    ensures Get(MantraSkydomeTable, aiExposure) == None
    ensures Get(MantraSkydomeTable, exposure) == Some(One("light_exposure"))
    ensures Get(MantraSkydomeTable, aiTransmission) == None
    ensures Get(MantraSkydomeTable, transmission) == Some(One("light_contribenable7"))
    ensures Get(MantraSkydomeTable, aiSpecular) == Some(Many(["light_contribenable2", "light_contribenable3"]))
  {
    TranslateDistinct();
    RotateDistinct();
    MantraCommonDistinct();
    ColorDistinct();
    MantraSkydomeDistinct();
    TranslateExposureKeys();
    TranslateTransmissionKeys();
    TranslateSpecularKeys();
    RotateExposureKeys();
    RotateTransmissionKeys();
    RotateSpecularKeys();
    MantraCommonExposureKeys();
    MantraCommonTransmissionKeys();
    MantraCommonSpecularKeys();
    ColorExposureKeys();
    ColorTransmissionKeys();
    ColorSpecularKeys();
    MantraSkydomeExposureKeys();
    MantraSkydomeTransmissionKeys();
    MantraSkydomeSpecularKeys();
    Unpack5Picks(TranslateParms, RotateParms, MantraCommonLightParms, ColorLightParams, MantraSkydomeLightParms);
  }

  lemma MantraSkydomeFanOutKeys()
    ensures Get(MantraSkydomeLightParms, aiRadius) == None
    ensures Get(MantraSkydomeLightParms, aiSpread) == None
  {
  }

  lemma MantraSkydomeFanOut()
    ensures Get(MantraSkydomeTable, aiRadius) == None
    ensures Get(MantraSkydomeTable, aiSpread) == None
  {
    TranslateDistinct();
    RotateDistinct();
    MantraCommonDistinct();
    ColorDistinct();
    MantraSkydomeDistinct();
    TranslateFanOutKeys();
    RotateFanOutKeys();
    MantraCommonFanOutKeys();
    ColorFanOutKeys();
    MantraSkydomeFanOutKeys();
    Unpack5FanOut(TranslateParms, RotateParms, MantraCommonLightParms, ColorLightParams, MantraSkydomeLightParms);
  }

  lemma MantraSkydomeRoundnessKeys()
    ensures Get(MantraSkydomeLightParms, aiRoundness) == None
  {
  }

  lemma MantraSkydomeRoundness()
    ensures Get(MantraSkydomeTable, aiRoundness) == None
  {
    TranslateDistinct();
    RotateDistinct();
    MantraCommonDistinct();
    ColorDistinct();
    MantraSkydomeDistinct();
    TranslateRoundnessKeys();
    RotateRoundnessKeys();
    MantraCommonRoundnessKeys();
    ColorRoundnessKeys();
    MantraSkydomeRoundnessKeys();
    Unpack5Get(TranslateParms, RotateParms, MantraCommonLightParms, ColorLightParams, MantraSkydomeLightParms, aiRoundness);
  }

  lemma MantraSkydomeShape()
    ensures MantraTableShape("aiSkyDomeLight", 7, MantraSkydomeTable)
  {
    MantraSkydomePlaces();
    MantraSkydomePicks();
    MantraSkydomeFanOut();
  }

  lemma ArnoldPointPlaces()
    ensures PlacesAndColours(ArnoldPointTable) && Rotates(ArnoldPointTable)
  {
    TranslateTranslationKeys();
    RotateRotationKeys();
    ColorColourKeys();
    Unpack5Places(TranslateParms, RotateParms, ArnoldCommonLightParms, ColorLightParams, ArnoldPointLightParms);
  }

  lemma ArnoldCommonDistinct()
    ensures DistinctKeys(ArnoldCommonLightParms)
  {
  }

  lemma ArnoldPointDistinct()
    ensures DistinctKeys(ArnoldPointLightParms)
  {
  }

  lemma ArnoldCommonExposureKeys()
    ensures Get(ArnoldCommonLightParms, aiExposure) == None
    ensures Get(ArnoldCommonLightParms, exposure) == None
  {
    assert Get(ArnoldCommonLightParms.rest.rest.rest.rest.rest.rest.rest, aiExposure) == None;
    assert Get(ArnoldCommonLightParms.rest.rest.rest.rest.rest.rest.rest, exposure) == None;
  }

  lemma ArnoldCommonTransmissionKeys()
    ensures Get(ArnoldCommonLightParms, aiTransmission) == None
    ensures Get(ArnoldCommonLightParms, transmission) == None
  {
    assert Get(ArnoldCommonLightParms.rest.rest.rest.rest.rest.rest.rest, aiTransmission) == None;
    assert Get(ArnoldCommonLightParms.rest.rest.rest.rest.rest.rest.rest, transmission) == None;
  }

  lemma ArnoldCommonSpecularKeys()
    ensures Get(ArnoldCommonLightParms, aiSpecular) == Some(One("ar_specular"))
  {
    assert Get(ArnoldCommonLightParms.rest.rest.rest.rest.rest.rest.rest, aiSpecular) == Some(One("ar_specular"));
  }

  lemma ArnoldPointExposureKeys()
    ensures Get(ArnoldPointLightParms, aiExposure) == Some(One("ar_exposure"))
    ensures Get(ArnoldPointLightParms, exposure) == None
  {
  }

  lemma ArnoldPointTransmissionKeys()
    ensures Get(ArnoldPointLightParms, aiTransmission) == Some(One("ar_transmission"))
    ensures Get(ArnoldPointLightParms, transmission) == None
  {
  }

  lemma ArnoldPointSpecularKeys()
    ensures Get(ArnoldPointLightParms, aiSpecular) == None
  {
  }

  lemma ArnoldPointPicks()
    ensures Get(ArnoldPointTable, aiExposure) == Some(One("ar_exposure"))
    ensures Get(ArnoldPointTable, exposure) == None
    ensures Get(ArnoldPointTable, aiTransmission) == Some(One("ar_transmission"))
    ensures Get(ArnoldPointTable, transmission) == None
    ensures Get(ArnoldPointTable, aiSpecular) == Some(One("ar_specular"))
  {
    TranslateDistinct();
    RotateDistinct();
    ArnoldCommonDistinct();
    ColorDistinct();
    ArnoldPointDistinct();
    TranslateExposureKeys();
    TranslateTransmissionKeys();
    TranslateSpecularKeys();
    RotateExposureKeys();
    RotateTransmissionKeys();
    RotateSpecularKeys();
    ArnoldCommonExposureKeys();
    ArnoldCommonTransmissionKeys();
    ArnoldCommonSpecularKeys();
    ColorExposureKeys();
    ColorTransmissionKeys();
    ColorSpecularKeys();
    ArnoldPointExposureKeys();
    ArnoldPointTransmissionKeys();
    ArnoldPointSpecularKeys();
    Unpack5Picks(TranslateParms, RotateParms, ArnoldCommonLightParms, ColorLightParams, ArnoldPointLightParms);
  }

  lemma ArnoldPointShape()
    ensures ArnoldTableShape(ArnoldPointTable)
  {
    ArnoldPointPlaces();
    ArnoldPointPicks();
  }

  lemma ArnoldDirectionalPlaces()
    ensures PlacesAndColours(ArnoldDirectionalTable) && Rotates(ArnoldDirectionalTable)
  {
    TranslateTranslationKeys();
    RotateRotationKeys();
    ColorColourKeys();
    Unpack5Places(TranslateParms, RotateParms, ArnoldCommonLightParms, ColorLightParams, ArnoldDirectionalLightParms);
  }

  lemma ArnoldDirectionalDistinct()
    ensures DistinctKeys(ArnoldDirectionalLightParms)
  {
  }

  lemma ArnoldDirectionalExposureKeys()
    ensures Get(ArnoldDirectionalLightParms, aiExposure) == Some(One("ar_exposure"))
    ensures Get(ArnoldDirectionalLightParms, exposure) == None
  {
  }

  lemma ArnoldDirectionalTransmissionKeys()
    ensures Get(ArnoldDirectionalLightParms, aiTransmission) == None
    ensures Get(ArnoldDirectionalLightParms, transmission) == None
  {
  }

  lemma ArnoldDirectionalSpecularKeys()
    ensures Get(ArnoldDirectionalLightParms, aiSpecular) == None
  {
  }

  lemma ArnoldDirectionalPicks()
    ensures Get(ArnoldDirectionalTable, aiExposure) == Some(One("ar_exposure"))
    ensures Get(ArnoldDirectionalTable, exposure) == None
    ensures Get(ArnoldDirectionalTable, aiTransmission) == None
    ensures Get(ArnoldDirectionalTable, transmission) == None
    ensures Get(ArnoldDirectionalTable, aiSpecular) == Some(One("ar_specular"))
  {
    TranslateDistinct();
    RotateDistinct();
    ArnoldCommonDistinct();
    ColorDistinct();
    ArnoldDirectionalDistinct();
    TranslateExposureKeys();
    TranslateTransmissionKeys();
    TranslateSpecularKeys();
    RotateExposureKeys();
    RotateTransmissionKeys();
    RotateSpecularKeys();
    ArnoldCommonExposureKeys();
    ArnoldCommonTransmissionKeys();
    ArnoldCommonSpecularKeys();
    ColorExposureKeys();
    ColorTransmissionKeys();
    ColorSpecularKeys();
    ArnoldDirectionalExposureKeys();
    ArnoldDirectionalTransmissionKeys();
    ArnoldDirectionalSpecularKeys();
    Unpack5Picks(TranslateParms, RotateParms, ArnoldCommonLightParms, ColorLightParams, ArnoldDirectionalLightParms);
  }

  lemma ArnoldDirectionalShape()
    ensures ArnoldTableShape(ArnoldDirectionalTable)
  {
    ArnoldDirectionalPlaces();
    ArnoldDirectionalPicks();
  }

  lemma ArnoldSpotPlaces()
    ensures PlacesAndColours(ArnoldSpotTable) && Rotates(ArnoldSpotTable)
  {
    TranslateTranslationKeys();
    RotateRotationKeys();
    ColorColourKeys();
    Unpack5Places(TranslateParms, RotateParms, ArnoldCommonLightParms, ColorLightParams, ArnoldSpotLightParms);
  }

  lemma ArnoldSpotDistinct()
    ensures DistinctKeys(ArnoldSpotLightParms)
  {
  }

  lemma ArnoldSpotExposureKeys()
    ensures Get(ArnoldSpotLightParms, aiExposure) == Some(One("ar_exposure"))
    ensures Get(ArnoldSpotLightParms, exposure) == None
  {
    assert Get(ArnoldSpotLightParms.rest.rest.rest.rest.rest, aiExposure) == None;
    assert Get(ArnoldSpotLightParms.rest.rest.rest.rest.rest, exposure) == None;
  }

  lemma ArnoldSpotTransmissionKeys()
    ensures Get(ArnoldSpotLightParms, aiTransmission) == None
    ensures Get(ArnoldSpotLightParms, transmission) == None
  {
    assert Get(ArnoldSpotLightParms.rest.rest.rest.rest.rest, aiTransmission) == None;
    assert Get(ArnoldSpotLightParms.rest.rest.rest.rest.rest, transmission) == None;
  }

  lemma ArnoldSpotSpecularKeys()
    ensures Get(ArnoldSpotLightParms, aiSpecular) == None
  {
    assert Get(ArnoldSpotLightParms.rest.rest.rest.rest.rest, aiSpecular) == None;
  }

  lemma ArnoldSpotPicks()
    ensures Get(ArnoldSpotTable, aiExposure) == Some(One("ar_exposure"))
    ensures Get(ArnoldSpotTable, exposure) == None
    ensures Get(ArnoldSpotTable, aiTransmission) == None
    ensures Get(ArnoldSpotTable, transmission) == None
    ensures Get(ArnoldSpotTable, aiSpecular) == Some(One("ar_specular"))
  {
    TranslateDistinct();
    RotateDistinct();
    ArnoldCommonDistinct();
    ColorDistinct();
    ArnoldSpotDistinct();
    TranslateExposureKeys();
    TranslateTransmissionKeys();
    TranslateSpecularKeys();
    RotateExposureKeys();
    RotateTransmissionKeys();
    RotateSpecularKeys();
    ArnoldCommonExposureKeys();
    ArnoldCommonTransmissionKeys();
    ArnoldCommonSpecularKeys();
    ColorExposureKeys();
    ColorTransmissionKeys();
    ColorSpecularKeys();
    ArnoldSpotExposureKeys();
    ArnoldSpotTransmissionKeys();
    ArnoldSpotSpecularKeys();
    Unpack5Picks(TranslateParms, RotateParms, ArnoldCommonLightParms, ColorLightParams, ArnoldSpotLightParms);
  }

  lemma ArnoldSpotShape()
    ensures ArnoldTableShape(ArnoldSpotTable)
  {
    ArnoldSpotPlaces();
    ArnoldSpotPicks();
  }

  lemma ArnoldAreaPlaces()
    ensures PlacesAndColours(ArnoldAreaTable) && Rotates(ArnoldAreaTable)
  {
    TranslateTranslationKeys();
    RotateRotationKeys();
    ColorColourKeys();
    Unpack5Places(TranslateParms, RotateParms, ArnoldCommonLightParms, ColorLightParams, ArnoldAreaLightParms);
  }

  lemma ArnoldAreaDistinct()
    ensures DistinctKeys(ArnoldAreaLightParms)
  {
  }

  lemma ArnoldAreaExposureKeys()
    ensures Get(ArnoldAreaLightParms, aiExposure) == Some(One("ar_exposure"))
    ensures Get(ArnoldAreaLightParms, exposure) == None
  {
    assert Get(ArnoldAreaLightParms.rest.rest.rest.rest.rest.rest, aiExposure) == None;
    assert Get(ArnoldAreaLightParms.rest.rest.rest.rest.rest.rest, exposure) == None;
  }

  lemma ArnoldAreaTransmissionKeys()
    ensures Get(ArnoldAreaLightParms, aiTransmission) == Some(One("ar_transmission"))
    ensures Get(ArnoldAreaLightParms, transmission) == None
  {
    assert Get(ArnoldAreaLightParms.rest.rest.rest.rest.rest.rest, aiTransmission) == Some(One("ar_transmission"));
    assert Get(ArnoldAreaLightParms.rest.rest.rest.rest.rest.rest, transmission) == None;
  }

  lemma ArnoldAreaSpecularKeys()
    ensures Get(ArnoldAreaLightParms, aiSpecular) == None
  {
    assert Get(ArnoldAreaLightParms.rest.rest.rest.rest.rest.rest, aiSpecular) == None;
  }

  lemma ArnoldAreaPicks()
    ensures Get(ArnoldAreaTable, aiExposure) == Some(One("ar_exposure"))
    ensures Get(ArnoldAreaTable, exposure) == None
    ensures Get(ArnoldAreaTable, aiTransmission) == Some(One("ar_transmission"))
    ensures Get(ArnoldAreaTable, transmission) == None
    ensures Get(ArnoldAreaTable, aiSpecular) == Some(One("ar_specular"))
  {
    TranslateDistinct();
    RotateDistinct();
    ArnoldCommonDistinct();
    ColorDistinct();
    ArnoldAreaDistinct();
    TranslateExposureKeys();
    TranslateTransmissionKeys();
    TranslateSpecularKeys();
    RotateExposureKeys();
    RotateTransmissionKeys();
    RotateSpecularKeys();
    ArnoldCommonExposureKeys();
    ArnoldCommonTransmissionKeys();
    ArnoldCommonSpecularKeys();
    ColorExposureKeys();
    ColorTransmissionKeys();
    ColorSpecularKeys();
    ArnoldAreaExposureKeys();
    ArnoldAreaTransmissionKeys();
    ArnoldAreaSpecularKeys();
    Unpack5Picks(TranslateParms, RotateParms, ArnoldCommonLightParms, ColorLightParams, ArnoldAreaLightParms);
  }

  lemma ArnoldAreaShape()
    ensures ArnoldTableShape(ArnoldAreaTable)
  {
    ArnoldAreaPlaces();
    ArnoldAreaPicks();
  }

  lemma ArnoldQuadPlaces()
    ensures PlacesAndColours(ArnoldQuadTable) && Rotates(ArnoldQuadTable)
  {
    TranslateTranslationKeys();
    RotateRotationKeys();
    ColorColourKeys();
    Unpack5Places(TranslateParms, RotateParms, ArnoldCommonLightParms, ColorLightParams, ArnoldQuadLightParms);
  }

  lemma ArnoldQuadDistinct()
    ensures DistinctKeys(ArnoldQuadLightParms)
  {
  }

  lemma ArnoldQuadExposureKeys()
    ensures Get(ArnoldQuadLightParms, aiExposure) == None
    ensures Get(ArnoldQuadLightParms, exposure) == Some(One("ar_exposure"))
  {
    assert Get(ArnoldQuadLightParms.rest.rest.rest.rest.rest.rest, aiExposure) == None;
    assert Get(ArnoldQuadLightParms.rest.rest.rest.rest.rest.rest, exposure) == None;
  }

  lemma ArnoldQuadTransmissionKeys()
    ensures Get(ArnoldQuadLightParms, aiTransmission) == Some(One("ar_transmission"))
    ensures Get(ArnoldQuadLightParms, transmission) == None
  {
    assert Get(ArnoldQuadLightParms.rest.rest.rest.rest.rest.rest, aiTransmission) == Some(One("ar_transmission"));
    assert Get(ArnoldQuadLightParms.rest.rest.rest.rest.rest.rest, transmission) == None;
  }

  lemma ArnoldQuadSpecularKeys()
    ensures Get(ArnoldQuadLightParms, aiSpecular) == None
  {
    assert Get(ArnoldQuadLightParms.rest.rest.rest.rest.rest.rest, aiSpecular) == None;
  }

  lemma ArnoldQuadPicks()
    ensures Get(ArnoldQuadTable, aiExposure) == None
    ensures Get(ArnoldQuadTable, exposure) == Some(One("ar_exposure"))
    ensures Get(ArnoldQuadTable, aiTransmission) == Some(One("ar_transmission"))
    ensures Get(ArnoldQuadTable, transmission) == None
    ensures Get(ArnoldQuadTable, aiSpecular) == Some(One("ar_specular"))
  {
    TranslateDistinct();
    RotateDistinct();
    ArnoldCommonDistinct();
    ColorDistinct();
    ArnoldQuadDistinct();
    TranslateExposureKeys();
    TranslateTransmissionKeys();
    TranslateSpecularKeys();
    RotateExposureKeys();
    RotateTransmissionKeys();
    RotateSpecularKeys();
    ArnoldCommonExposureKeys();
    ArnoldCommonTransmissionKeys();
    ArnoldCommonSpecularKeys();
    ColorExposureKeys();
    ColorTransmissionKeys();
    ColorSpecularKeys();
    ArnoldQuadExposureKeys();
    ArnoldQuadTransmissionKeys();
    ArnoldQuadSpecularKeys();
    Unpack5Picks(TranslateParms, RotateParms, ArnoldCommonLightParms, ColorLightParams, ArnoldQuadLightParms);
  }

  lemma ArnoldQuadShape()
    ensures ArnoldTableShape(ArnoldQuadTable)
  {
    ArnoldQuadPlaces();
    ArnoldQuadPicks();
  }

  lemma ArnoldDiskPlaces()
    ensures PlacesAndColours(ArnoldDiskTable) && Rotates(ArnoldDiskTable)
  {
    TranslateTranslationKeys();
    RotateRotationKeys();
    ColorColourKeys();
    Unpack5Places(TranslateParms, RotateParms, ArnoldCommonLightParms, ColorLightParams, ArnoldDiskLightParms);
  }

  lemma ArnoldDiskDistinct()
    ensures DistinctKeys(ArnoldDiskLightParms)
  {
  }

  lemma ArnoldDiskExposureKeys()
    ensures Get(ArnoldDiskLightParms, aiExposure) == None
    ensures Get(ArnoldDiskLightParms, exposure) == Some(One("ar_exposure"))
  {
    assert Get(ArnoldDiskLightParms.rest.rest.rest.rest.rest.rest, aiExposure) == None;
    assert Get(ArnoldDiskLightParms.rest.rest.rest.rest.rest.rest, exposure) == None;
  }

  lemma ArnoldDiskTransmissionKeys()
    ensures Get(ArnoldDiskLightParms, aiTransmission) == Some(One("ar_transmission"))
    ensures Get(ArnoldDiskLightParms, transmission) == None
  {
    assert Get(ArnoldDiskLightParms.rest.rest.rest.rest.rest.rest, aiTransmission) == Some(One("ar_transmission"));
    assert Get(ArnoldDiskLightParms.rest.rest.rest.rest.rest.rest, transmission) == None;
  }

  lemma ArnoldDiskSpecularKeys()
    ensures Get(ArnoldDiskLightParms, aiSpecular) == None
  {
    assert Get(ArnoldDiskLightParms.rest.rest.rest.rest.rest.rest, aiSpecular) == None;
  }

  lemma ArnoldDiskPicks()
    ensures Get(ArnoldDiskTable, aiExposure) == None
    ensures Get(ArnoldDiskTable, exposure) == Some(One("ar_exposure"))
    ensures Get(ArnoldDiskTable, aiTransmission) == Some(One("ar_transmission"))
    ensures Get(ArnoldDiskTable, transmission) == None
    ensures Get(ArnoldDiskTable, aiSpecular) == Some(One("ar_specular"))
  {
    TranslateDistinct();
    RotateDistinct();
    ArnoldCommonDistinct();
    ColorDistinct();
    ArnoldDiskDistinct();
    TranslateExposureKeys();
    TranslateTransmissionKeys();
    TranslateSpecularKeys();
    RotateExposureKeys();
    RotateTransmissionKeys();
    RotateSpecularKeys();
    ArnoldCommonExposureKeys();
    ArnoldCommonTransmissionKeys();
    ArnoldCommonSpecularKeys();
    ColorExposureKeys();
    ColorTransmissionKeys();
    ColorSpecularKeys();
    ArnoldDiskExposureKeys();
    ArnoldDiskTransmissionKeys();
    ArnoldDiskSpecularKeys();
    Unpack5Picks(TranslateParms, RotateParms, ArnoldCommonLightParms, ColorLightParams, ArnoldDiskLightParms);
  }

  lemma ArnoldDiskShape()
    ensures ArnoldTableShape(ArnoldDiskTable)
  {
    ArnoldDiskPlaces();
    ArnoldDiskPicks();
  }

  lemma ArnoldCylinderPlaces()
    ensures PlacesAndColours(ArnoldCylinderTable) && Rotates(ArnoldCylinderTable)
  {
    TranslateTranslationKeys();
    RotateRotationKeys();
    ColorColourKeys();
    Unpack5Places(TranslateParms, RotateParms, ArnoldCommonLightParms, ColorLightParams, ArnoldCylinderLightParms);
  }

  lemma ArnoldCylinderDistinct()
    ensures DistinctKeys(ArnoldCylinderLightParms)
  {
  }

  lemma ArnoldCylinderExposureKeys()
    ensures Get(ArnoldCylinderLightParms, aiExposure) == None
    ensures Get(ArnoldCylinderLightParms, exposure) == Some(One("ar_exposure"))
  {
    assert Get(ArnoldCylinderLightParms.rest.rest.rest.rest.rest, aiExposure) == None;
    assert Get(ArnoldCylinderLightParms.rest.rest.rest.rest.rest, exposure) == None;
  }

  lemma ArnoldCylinderTransmissionKeys()
    ensures Get(ArnoldCylinderLightParms, aiTransmission) == Some(One("ar_transmission"))
    ensures Get(ArnoldCylinderLightParms, transmission) == None
  {
    assert Get(ArnoldCylinderLightParms.rest.rest.rest.rest.rest, aiTransmission) == Some(One("ar_transmission"));
    assert Get(ArnoldCylinderLightParms.rest.rest.rest.rest.rest, transmission) == None;
  }

  lemma ArnoldCylinderSpecularKeys()
    ensures Get(ArnoldCylinderLightParms, aiSpecular) == None
  {
    assert Get(ArnoldCylinderLightParms.rest.rest.rest.rest.rest, aiSpecular) == None;
  }

  lemma ArnoldCylinderPicks()
    ensures Get(ArnoldCylinderTable, aiExposure) == None
    ensures Get(ArnoldCylinderTable, exposure) == Some(One("ar_exposure"))
    ensures Get(ArnoldCylinderTable, aiTransmission) == Some(One("ar_transmission"))
    ensures Get(ArnoldCylinderTable, transmission) == None
    ensures Get(ArnoldCylinderTable, aiSpecular) == Some(One("ar_specular"))
  {
    TranslateDistinct();
    RotateDistinct();
    ArnoldCommonDistinct();
    ColorDistinct();
    ArnoldCylinderDistinct();
    TranslateExposureKeys();
    TranslateTransmissionKeys();
    TranslateSpecularKeys();
    RotateExposureKeys();
    RotateTransmissionKeys();
    RotateSpecularKeys();
    ArnoldCommonExposureKeys();
    ArnoldCommonTransmissionKeys();
    ArnoldCommonSpecularKeys();
    ColorExposureKeys();
    ColorTransmissionKeys();
    ColorSpecularKeys();
    ArnoldCylinderExposureKeys();
    ArnoldCylinderTransmissionKeys();
    ArnoldCylinderSpecularKeys();
    Unpack5Picks(TranslateParms, RotateParms, ArnoldCommonLightParms, ColorLightParams, ArnoldCylinderLightParms);
  }

  lemma ArnoldCylinderShape()
    ensures ArnoldTableShape(ArnoldCylinderTable)
  {
    ArnoldCylinderPlaces();
    ArnoldCylinderPicks();
  }

  lemma ArnoldSkydomePlaces()
    ensures PlacesAndColours(ArnoldSkydomeTable) && Rotates(ArnoldSkydomeTable)
  {
    TranslateTranslationKeys();
    RotateRotationKeys();
    ColorColourKeys();
    Unpack5Places(TranslateParms, RotateParms, ArnoldCommonLightParms, ColorLightParams, ArnoldSkydomeLightParms);
  }

  lemma ArnoldSkydomeDistinct()
    ensures DistinctKeys(ArnoldSkydomeLightParms)
  {
  }

  lemma ArnoldSkydomeExposureKeys()
    ensures Get(ArnoldSkydomeLightParms, aiExposure) == None
    ensures Get(ArnoldSkydomeLightParms, exposure) == Some(One("ar_exposure"))
  {
    assert Get(ArnoldSkydomeLightParms.rest.rest.rest.rest, aiExposure) == None;
    assert Get(ArnoldSkydomeLightParms.rest.rest.rest.rest, exposure) == None;
  }

  lemma ArnoldSkydomeTransmissionKeys()
    ensures Get(ArnoldSkydomeLightParms, aiTransmission) == None
    ensures Get(ArnoldSkydomeLightParms, transmission) == Some(One("ar_transmission"))
  {
    assert Get(ArnoldSkydomeLightParms.rest.rest.rest.rest, aiTransmission) == None;
    assert Get(ArnoldSkydomeLightParms.rest.rest.rest.rest, transmission) == Some(One("ar_transmission"));
  }

  lemma ArnoldSkydomeSpecularKeys()
    ensures Get(ArnoldSkydomeLightParms, aiSpecular) == None
  {
    assert Get(ArnoldSkydomeLightParms.rest.rest.rest.rest, aiSpecular) == None;
  }

  lemma ArnoldSkydomePicks()
    ensures Get(ArnoldSkydomeTable, aiExposure) == None
    ensures Get(ArnoldSkydomeTable, exposure) == Some(One("ar_exposure"))
    ensures Get(ArnoldSkydomeTable, aiTransmission) == None
    ensures Get(ArnoldSkydomeTable, transmission) == Some(One("ar_transmission"))
    ensures Get(ArnoldSkydomeTable, aiSpecular) == Some(One("ar_specular"))
  {
    TranslateDistinct();
    RotateDistinct();
    ArnoldCommonDistinct();
    ColorDistinct();
    ArnoldSkydomeDistinct();
    TranslateExposureKeys();
    TranslateTransmissionKeys();
    TranslateSpecularKeys();
    RotateExposureKeys();
    RotateTransmissionKeys();
    RotateSpecularKeys();
    ArnoldCommonExposureKeys();
    ArnoldCommonTransmissionKeys();
    ArnoldCommonSpecularKeys();
    ColorExposureKeys();
    ColorTransmissionKeys();
    ColorSpecularKeys();
    ArnoldSkydomeExposureKeys();
    ArnoldSkydomeTransmissionKeys();
    ArnoldSkydomeSpecularKeys();
    Unpack5Picks(TranslateParms, RotateParms, ArnoldCommonLightParms, ColorLightParams, ArnoldSkydomeLightParms);
  }

  lemma ArnoldSkydomeShape()
    ensures ArnoldTableShape(ArnoldSkydomeTable)
  {
    ArnoldSkydomePlaces();
    ArnoldSkydomePicks();
  }
  /** Every Mantra table keeps the promises of `MantraTableShape` for its tag and count. */
  lemma MantraTablesShape()
    ensures MantraTableShape("pointLightP", 6, MantraPointPTable)
    ensures MantraTableShape("pointLightS", 7, MantraPointSTable)
    ensures MantraTableShape("directionalLightD", 6, MantraDirectionalDTable)
    ensures MantraTableShape("directionalLightS", 6, MantraDirectionalSTable)
    ensures MantraTableShape("spotLightP", 6, MantraSpotPTable)
    ensures MantraTableShape("spotLightS", 6, MantraSpotSTable)
    ensures MantraTableShape("areaLight", 7, MantraAreaTable)
    ensures MantraTableShape("quad", 7, MantraQuadTable)
    ensures MantraTableShape("disk", 7, MantraDiskTable)
    ensures MantraTableShape("cylinderC", 7, MantraCylinderCTable)
    ensures MantraTableShape("cylinderL", 6, MantraCylinderLTable)
    ensures MantraTableShape("aiSkyDomeLight", 7, MantraSkydomeTable)
  {
    MantraPointPShape();
    MantraPointSShape();
    MantraDirectionalDShape();
    MantraDirectionalSShape();
    MantraSpotPShape();
    MantraSpotSShape();
    MantraAreaShape();
    MantraQuadShape();
    MantraDiskShape();
    MantraCylinderCShape();
    MantraCylinderLShape();
    MantraSkydomeShape();
  }

  /** Every Arnold table keeps the promises of `ArnoldTableShape`. */
  lemma ArnoldTablesShape()
    ensures ArnoldTableShape(ArnoldPointTable)
    ensures ArnoldTableShape(ArnoldDirectionalTable)
    ensures ArnoldTableShape(ArnoldSpotTable)
    ensures ArnoldTableShape(ArnoldAreaTable)
    ensures ArnoldTableShape(ArnoldQuadTable)
    ensures ArnoldTableShape(ArnoldDiskTable)
    ensures ArnoldTableShape(ArnoldCylinderTable)
    ensures ArnoldTableShape(ArnoldSkydomeTable)
  {
    ArnoldPointShape();
    ArnoldDirectionalShape();
    ArnoldSpotShape();
    ArnoldAreaShape();
    ArnoldQuadShape();
    ArnoldDiskShape();
    ArnoldCylinderShape();
    ArnoldSkydomeShape();
  }
}
