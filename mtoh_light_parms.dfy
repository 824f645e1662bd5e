/**
 * The Arnold-only draft of the catalog: a light-type map and the translate, rotate,
 * common, colour, point, directional and spot parameter tables, all plain literals.
 * The draft is compared here with the main catalog it preceded.
 */
module MtohLightParms {
  import opened PyValues
  import opened LightParms

  /** Maya light name -> Arnold light sub-type. */
  const MtohLightType: OrderedDict<string, int> :=
    Cons("pointLight", 0, Cons("directionalLight", 1, Cons("spotLight", 2, Cons("areaLight", 3,
    Cons("quad", 3, Cons("disk", 4, Cons("cylinder", 5, Cons("aiSkyDomeLight", 6, Nil))))))))

  const MtohTranslateParms: ParmTable :=
    Cons(translateX, One("tx"), Cons(translateY, One("ty"), Cons(translateZ, One("tz"), Nil)))

  const MtohRotateParms: ParmTable :=
    Cons(rotateX, One("rx"), Cons(rotateY, One("ry"), Cons(rotateZ, One("rz"), Nil)))

  const MtohCommonLightParms: ParmTable :=
    Cons(visibility, One("light_enable"),
    Cons(intensity, One("ar_intensity"),
    Cons(aiSamples, One("ar_samples"),
    Cons(aiVolumeSamples, One("ar_volume_samples"),
    Cons(aiShadowDensity, One("ar_shadow_density"),
    Cons(aiCastShadows, One("ar_cast_shadows"),
    Cons(aiCastVolumetricShadows, One("ar_cast_volumetric_shadows"),
    Cons(aiDiffuse, One("ar_diffuse"),
    Cons(aiSpecular, One("ar_specular"),
    Cons(aiSss, One("ar_sss"),
    Cons(aiIndirect, One("ar_indirect"),
    Cons(aiVolume, One("ar_volume"),
    Cons(aiMaxBounces, One("ar_max_bounces"),
    Cons(aiAov, One("ar_aov"), Nil))))))))))))))

  const MtohColorLightParams: ParmTable :=
    Cons(colorR, One("ar_colorr"), Cons(colorG, One("ar_colorg"), Cons(colorB, One("ar_colorb"), Nil)))

  const MtohPointLightParms: ParmTable :=
    Cons(aiExposure, One("ar_exposure"),
    Cons(aiRadius, One("ar_point_radius"),
    Cons(aiNormalize, One("ar_normalize"),
    Cons(shadColorR, One("ar_shadow_colorr"),
    Cons(shadColorG, One("ar_shadow_colorg"),
    Cons(shadColorB, One("ar_shadow_colorb"),
    Cons(aiCamera, One("ar_camera"),
    Cons(aiTransmission, One("ar_transmission"), Nil))))))))

  const MtohDirectionalLightParms: ParmTable :=
    Cons(aiExposure, One("ar_exposure"),
    Cons(aiAngle, One("ar_angle"),
    Cons(aiNormalize, One("ar_normalize"),
    Cons(shadColorR, One("ar_shadow_colorr"),
    Cons(shadColorG, One("ar_shadow_colorg"),
    Cons(shadColorB, One("ar_shadow_colorb"), Nil))))))

  const MtohSpotLightParms: ParmTable :=
    Cons(aiExposure, One("ar_exposure"),
    Cons(aiRoundness, One("ar_spot_roundness"),
    Cons(aiRadius, One("ar_spot_radius"),
    Cons(aiLensRadius, One("ar_lens_radius"),
    Cons(aiAspectRatio, One("ar_aspect_ratio"),
    Cons(aiNormalize, One("ar_normalize"),
    Cons(shadColorR, One("ar_shadow_colorr"),
    Cons(shadColorG, One("ar_shadow_colorg"),
    Cons(shadColorB, One("ar_shadow_colorb"), Nil)))))))))

  /** The draft's light types are the main catalog's Arnold sub-types: the same eight
      names in the same order, each with the sub-type listed at its position. */
  lemma LightTypeAgrees()
    ensures Keys(MtohLightType) == ArnoldLightType
    ensures forall i :: 0 <= i < |ArnoldLightType| ==> Get(MtohLightType, ArnoldLightType[i]) == Some(ArnoldLightNodeSubType[i])
  {
    assert ArnoldLightType == ["pointLight", "directionalLight", "spotLight", "areaLight", "quad", "disk", "cylinder",
                               "aiSkyDomeLight"];
  }

  /** The draft's sub-types run over 0..6, and two different names share one exactly
      when they are `areaLight` and `quad` (both 3). */
  lemma LightTypeShared()
    ensures forall i :: 0 <= i < |Keys(MtohLightType)| ==>
              Get(MtohLightType, Keys(MtohLightType)[i]).Some? && 0 <= Get(MtohLightType, Keys(MtohLightType)[i]).value <= 6
    ensures forall i, j :: 0 <= i < j < |Keys(MtohLightType)| ==>
              (Get(MtohLightType, Keys(MtohLightType)[i]) == Get(MtohLightType, Keys(MtohLightType)[j]) <==>
               Keys(MtohLightType)[i] == "areaLight" && Keys(MtohLightType)[j] == "quad")
  {
    LightTypeAgrees();
    CatalogSubTypesShared();
  }

  /** The catalog's Arnold sub-types run over 0..6 and coincide only for `areaLight`/`quad`. */
  lemma CatalogSubTypesShared()
    ensures forall i :: 0 <= i < |ArnoldLightType| ==> 0 <= ArnoldLightNodeSubType[i] <= 6
    ensures forall i, j :: 0 <= i < j < |ArnoldLightType| ==>
              (ArnoldLightNodeSubType[i] == ArnoldLightNodeSubType[j] <==>
               ArnoldLightType[i] == "areaLight" && ArnoldLightType[j] == "quad")
  {
  }

  /** The point, directional and spot tables send `aiExposure` to `ar_exposure` and
      `aiNormalize` to `ar_normalize`, and none of them knows the Mantra-style `exposure` key. */
  lemma ExposureAndNormalize()
    ensures Get(MtohPointLightParms, aiExposure) == Some(One("ar_exposure"))
    ensures Get(MtohDirectionalLightParms, aiExposure) == Some(One("ar_exposure"))
    ensures Get(MtohSpotLightParms, aiExposure) == Some(One("ar_exposure"))
    ensures Get(MtohPointLightParms, aiNormalize) == Some(One("ar_normalize"))
    ensures Get(MtohDirectionalLightParms, aiNormalize) == Some(One("ar_normalize"))
    ensures Get(MtohSpotLightParms, aiNormalize) == Some(One("ar_normalize"))
    ensures Get(MtohPointLightParms, exposure) == None && Get(MtohDirectionalLightParms, exposure) == None
    ensures Get(MtohSpotLightParms, exposure) == None
  {
  }

  /** The draft's colour keys go to Arnold's own colour parms, where the main catalog sends
      them to the generic `light_color*` parms. */
  lemma ColoursToArnold()
    ensures Keys(MtohColorLightParams) == Keys(ColorLightParams) == [colorR, colorG, colorB]
    ensures Get(MtohColorLightParams, colorR) == Some(One("ar_colorr"))
    ensures Get(MtohColorLightParams, colorG) == Some(One("ar_colorg"))
    ensures Get(MtohColorLightParams, colorB) == Some(One("ar_colorb"))
    ensures forall k :: Get(MtohColorLightParams, k) != Get(ColorLightParams, k) <==> k in Keys(ColorLightParams)
  {
    assert Get(ColorLightParams, colorR) == Some(One("light_colorr"));
    assert Get(ColorLightParams, colorG) == Some(One("light_colorg"));
    assert Get(ColorLightParams, colorB) == Some(One("light_colorb"));
  }

  /** The radius goes to `ar_point_radius` for point lights and to `ar_spot_radius` for
      spot lights; the draft spot table has no cone or penumbra entries. */
  lemma RadiusAndCone()
    ensures Get(MtohPointLightParms, aiRadius) == Some(One("ar_point_radius"))
    ensures Get(MtohSpotLightParms, aiRadius) == Some(One("ar_spot_radius"))
    ensures Get(MtohSpotLightParms, coneAngle) == None && Get(MtohSpotLightParms, penumbraAngle) == None
  {
  }

  /** Against the main catalog: the translate, rotate, common, point and directional
      tables are the same. */
  lemma AgreesWithCatalog()
    ensures MtohTranslateParms == TranslateParms && MtohRotateParms == RotateParms
    ensures MtohCommonLightParms == ArnoldCommonLightParms
    ensures MtohPointLightParms == ArnoldPointLightParms
    ensures MtohDirectionalLightParms == ArnoldDirectionalLightParms
  {
  }

  /** The draft spot table is the catalog's spot table without its third and fourth
      entries, the cone and penumbra angles: same keys otherwise, in the same order, with
      the same parm names. */
  lemma SpotIsCatalogSpotWithoutCone()
    ensures Keys(ArnoldSpotLightParms)[2..4] == [coneAngle, penumbraAngle]
    ensures Keys(MtohSpotLightParms) == Keys(ArnoldSpotLightParms)[..2] + Keys(ArnoldSpotLightParms)[4..]
    ensures forall k :: k != coneAngle && k != penumbraAngle ==> Get(MtohSpotLightParms, k) == Get(ArnoldSpotLightParms, k)
  {
  }
}
