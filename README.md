# Maya to Houdini light transfer, modelled in Dafny

The repository moves lights from a Maya scene to a Houdini scene in three steps. This
project models all three:

- **The catalog.** A generated dictionary says, for each light type, which Houdini node
  to create and which light sub-type it has. For Mantra it also gives the number of
  contribution slots. Every catalog entry holds a table from Maya attribute names to
  Houdini parm names. A parm name can be a single name or a list of names that the value
  fans out to.
- **The Maya export.** `lights_list` collects the selected lights. `export_json_file`
  then writes one record per renderer for each light: the light's tag, every catalog
  attribute read from the scene, and the colour, colour temperature or texture.
- **The Houdini import.** `import_json_file` destroys and recreates one light node per
  light and renderer. It then sets the node's parms key by key, using the catalog to
  route each key. It also converts exposures between the Arnold and Mantra scales.

Modules, one per file:

| file | module | role |
|---|---|---|
| `py_values.dfy` | `PyValues` | Python values, truthiness, `abs`, `**`, and insertion-ordered dicts (`d[k] = v`, `{**a, **b}`) |
| `transcendental.dfy` | `Transcendentals` | `2 ** x` and `log2` as a parameter with the laws they obey; `math.log(x, 2)` |
| `exposure_calc.dfy` | `ExposureCalc` | `light_exposure_calc` and `soft_edge_exposure_calc` |
| `light_parms.dfy` | `LightParms` | the main catalog's tables, lists and merged per-type tables, and what each table promises |
| `catalog_build.dfy` | `CatalogBuild`, `CatalogDocument` | the generation loops and the catalog document |
| `atom_light_parms.dfy` | `AtomLightParms` | the older Mantra-only catalog script |
| `mtoh_light_parms.dfy` | `MtohLightParms` | the Arnold-only draft tables, compared with the catalog |
| `maya_lights.dfy` | `MayaLights` | `lights_list` |
| `maya_export.dfy` | `MayaExport` | `export_json_file` up to the file write |
| `houdini_host.dfy` | `HoudiniHost` | catalog lookups, parm-set actions and their combined effect on a node |
| `houdini_mantra.dfy` | `MantraRules` | the Mantra branch of the parm loop, one rule per key |
| `houdini_arnold.dfy` | `ArnoldRules` | the Arnold branch of the parm loop, one rule per key |
| `houdini_import.dfy` | `HoudiniImport` | the scene as a class over `/obj` and `/mat`, with the import loops as methods |
| `houdini_mantra_keys.dfy`, `houdini_mantra_laws.dfy`, `houdini_spread_laws.dfy` | `MantraKeyLaws`, `MantraLaws`, `SpreadLaws` | what each Mantra key does to the light node |
| `houdini_arnold_laws.dfy` | `ArnoldLaws` | what each Arnold key does to the light node |
| `houdini_import_laws.dfy` | `HoudiniImportLaws` | what a whole import does to the scene |

Some things are parameters rather than code. The Maya scene is a value the export reads:
attributes, node types, parents, colour connections and the Kelvin conversion. Houdini's
parm defaults, the scene scale and the two renderer check boxes are parameters of the
import. The JSON files are the values written and read. A parm set is an action. A
rule's effect on a node is `Effect`: the last set of each parm wins. The file, light,
renderer, parm and colour loops of the scripts are `method`s with invariants. Each such
method is proved equal to a function, and lemmas state what that function means. The small
loops inside single parm rules (the contribution slots, the three spread cone parms and the
`aiSpecular` toggles) only build lists of parm sets, so they are functions (`SetEach` and
sequence comprehensions).

## Model

| member | source | states |
|---|---|---|
| PyValues.PutGet | logic/maya_logic.py:231-232 | after `d[k] = v`, `k` maps to `v` and every other key keeps its value |
| PyValues.PutKeys | logic/maya_logic.py:231-232 | assignment keeps the key order; only a new key is appended, at the end |
| PyValues.MergeGet | logic/maya_to_houdini_light_parms_py3.py:202-217 | `{**a, **b}` maps a key of `b` to its value in `b` and any other key as `a` does |
| PyValues.MergeHasKey | logic/maya_to_houdini_light_parms_py3.py:202-217 | the keys of `{**a, **b}` are those of `a` together with those of `b` |
| PyValues.MergeDistinct | logic/maya_to_houdini_light_parms_py3.py:202-217 | merging keeps the keys of a dict distinct |
| PyValues.FirstOccurrences | logic/maya_logic.py:81-232 | the names deduplicated in first-occurrence order: every name appears, nothing else does, and none twice |
| PyValues.PutEachSnoc | logic/maya_logic.py:81-232 | one more assignment at the end of the loop is one more `d[k] = v` after it |
| PyValues.PutEachKeys | logic/maya_logic.py:81-232 | assigning names in turn into an empty dict leaves its keys in first-occurrence order, each once |
| PyValues.PutEachLaw | logic/maya_logic.py:81-232 | assigning a list of names in turn leaves distinct keys, and each name holds the value of its last occurrence |
| PyValues.Lookup | logic/houdini_logic.py:162-196 | `d[k]` gives the stored value when `k` is a key and a KeyError exactly when it is not |
| PyValues.AsReal | logic/houdini_logic.py:198-202 | numbers and booleans take part in arithmetic as reals (a boolean as 0 or 1); a string is a TypeError |
| Transcendentals.MathLogBase2 | logic/houdini_logic.py:31-54 | `math.log(x, 2)` is the base-2 logarithm of a positive `x` and a domain error otherwise |
| Transcendentals.Log2Increasing | logic/houdini_logic.py:411-502 | the logarithm strictly increases on the positive reals |
| Transcendentals.Log2OfSquare | logic/houdini_logic.py:31-54 | `log2(x ** 2) = 2 log2 abs(x)` for every non-zero `x` |
| ExposureCalc.LightExposureCalc | logic/houdini_logic.py:31-54 | a zero old scale divides by zero, and every failure is that or the logarithm's domain error |
| ExposureCalc.NewIntensityPositive | logic/houdini_logic.py:31-54 | the converted intensity is positive exactly when the scale factor is non-zero and the renderer factor positive |
| ExposureCalc.Log2OfNewIntensity | logic/houdini_logic.py:31-54 | the logarithm of the converted intensity is `e + log2 factor + 2 log2 abs(s)` |
| ExposureCalc.LightExposureLaw | logic/houdini_logic.py:31-54 | closed form `e + log2 factor + 2 log2 abs(new/old)`; the result exists exactly when both scales are non-zero and the factor positive; the error is a division by zero for old scale 0 and a domain error otherwise |
| ExposureCalc.LightExposureIdentity | logic/houdini_logic.py:31-54 | with factor 1 and equal scales the exposure is unchanged |
| ExposureCalc.LightExposureRoundTrip | logic/houdini_logic.py:31-54 | converting to scale `1/s` and back to `s` returns the original exposure |
| ExposureCalc.ConversionRoundTripOnlyWithUnitFactor | logic/houdini_logic.py:31-54 | there and back with a renderer factor `k` leaves `e + 2 log2 k`, so the pair is an inverse exactly when `k = 1` |
| ExposureCalc.SoftEdgeExposureCalc | logic/houdini_logic.py:57-103 | a string soft-edge value is always an error |
| ExposureCalc.MinimumExposureLaw | logic/houdini_logic.py:73-88 | at a non-zero scale the fully-soft exposure exists: `e + 2 log2 abs(scale) - 1` when normalized, `e + log2 0.8` otherwise |
| ExposureCalc.FitSoftEdgeLaw | logic/houdini_logic.py:90-101 | the fit-range step is the affine interpolation `v * minimum + (1 - v) * current`, with 0 giving the current exposure and 1 the minimum |
| ExposureCalc.SoftEdgeLaw | logic/houdini_logic.py:57-103 | the soft-edge exposure is that interpolation between the current Mantra exposure and the minimum; it fails exactly for scale 0 (domain error) or a string value (TypeError) |
| ExposureCalc.SoftEdgeEndpoints | logic/houdini_logic.py:57-103 | soft edge 0 gives the current Mantra exposure and soft edge 1 the minimum |
| LightParms.Unpack4Get | logic/maya_to_houdini_light_parms_py3.py:214-215 | in a four-part `{**a, **b, **c, **d}` a key takes its value from the last part that has it |
| LightParms.Unpack5Get | logic/maya_to_houdini_light_parms_py3.py:202-217 | in a five-part merge a key takes its value from the last part that has it |
| LightParms.Unpack4Has | logic/maya_to_houdini_light_parms_py3.py:214-215 | a key survives a four-part merge exactly when some part has it |
| LightParms.Unpack5Has | logic/maya_to_houdini_light_parms_py3.py:202-217 | a key survives a five-part merge exactly when some part has it |
| LightParms.MantraPointPShape | logic/maya_to_houdini_light_parms_py3.py:203 | the `pointLightP` table has the translation, rotation and colour keys; one exposure key, to `light_exposure`; no transmission key (6 slots); specular fanned out to `light_contribenable2` and `light_contribenable3` |
| LightParms.MantraPointSShape | logic/maya_to_houdini_light_parms_py3.py:204 | the `pointLightS` table keeps the same promises with a transmission key to `light_contribenable7` (7 slots), and its radius fans out to both area sizes |
| LightParms.MantraDirectionalDShape | logic/maya_to_houdini_light_parms_py3.py:205-206 | the `directionalLightD` table keeps the Mantra table promises for 6 slots |
| LightParms.MantraDirectionalSShape | logic/maya_to_houdini_light_parms_py3.py:207-208 | the `directionalLightS` table keeps the Mantra table promises for 6 slots |
| LightParms.MantraSpotPShape | logic/maya_to_houdini_light_parms_py3.py:209 | the `spotLightP` table keeps the Mantra table promises for 6 slots |
| LightParms.MantraSpotSShape | logic/maya_to_houdini_light_parms_py3.py:210 | the `spotLightS` table keeps the Mantra table promises for 6 slots, its radius fanned out to both area sizes |
| LightParms.MantraAreaShape | logic/maya_to_houdini_light_parms_py3.py:211 | the `areaLight` table keeps the Mantra table promises for 7 slots, with a transmission key |
| LightParms.MantraQuadShape | logic/maya_to_houdini_light_parms_py3.py:212 | the `quad` table keeps the Mantra table promises for 7 slots, with a transmission key |
| LightParms.MantraDiskShape | logic/maya_to_houdini_light_parms_py3.py:213 | the `disk` table keeps the Mantra table promises for 7 slots, with a transmission key |
| LightParms.MantraCylinderCShape | logic/maya_to_houdini_light_parms_py3.py:214 | the `cylinderC` table swaps the rotations (X to `ry`, Y to `rx`, Z to `rz`) and keeps the other promises for 7 slots |
| LightParms.MantraCylinderLShape | logic/maya_to_houdini_light_parms_py3.py:215 | the `cylinderL` table swaps the rotations and keeps the other promises for 6 slots, without transmission |
| LightParms.MantraSkydomeShape | logic/maya_to_houdini_light_parms_py3.py:216-217 | the sky dome table keeps the Mantra table promises for 7 slots |
| LightParms.MantraTablesShape | logic/maya_to_houdini_light_parms_py3.py:202-217 | every Mantra table has the translation and colour keys; the cylinders swap X and Y rotation; exactly one exposure key goes to `light_exposure`; a transmission key is present exactly when the tag has 7 contribution slots; specular fans out to the reflect and coat slots; radius and spread fan out to their per-light lists |
| LightParms.ArnoldPointShape | logic/maya_to_houdini_light_parms_py3.py:366 | the point table has the translation, rotation and colour keys, one exposure key to `ar_exposure`, and specular to `ar_specular` |
| LightParms.ArnoldDirectionalShape | logic/maya_to_houdini_light_parms_py3.py:367-368 | the directional table keeps the Arnold table promises |
| LightParms.ArnoldSpotShape | logic/maya_to_houdini_light_parms_py3.py:369 | the spot table keeps the Arnold table promises |
| LightParms.ArnoldAreaShape | logic/maya_to_houdini_light_parms_py3.py:370 | the area table keeps the Arnold table promises |
| LightParms.ArnoldQuadShape | logic/maya_to_houdini_light_parms_py3.py:371 | the quad table keeps the Arnold table promises |
| LightParms.ArnoldDiskShape | logic/maya_to_houdini_light_parms_py3.py:372 | the disk table keeps the Arnold table promises |
| LightParms.ArnoldCylinderShape | logic/maya_to_houdini_light_parms_py3.py:373-374 | the cylinder table keeps the Arnold table promises |
| LightParms.ArnoldSkydomeShape | logic/maya_to_houdini_light_parms_py3.py:375-376 | the sky dome table keeps the Arnold table promises |
| LightParms.ArnoldTablesShape | logic/maya_to_houdini_light_parms_py3.py:365-376 | every Arnold table has the translation, colour and rotation keys, exactly one exposure key going to `ar_exposure`, and specular going to `ar_specular` |
| CatalogBuild.EntryOf | logic/maya_to_houdini_light_parms_py3.py:390 | `setdefault(tag, {})` yields the stored entry when the tag has one and an empty entry otherwise |
| CatalogBuild.MantraTurns | logic/maya_to_houdini_light_parms_py3.py:388-389 | `zip` over the five Mantra lists runs as many turns as the shortest list has entries |
| CatalogBuild.SetFieldsGet | logic/maya_to_houdini_light_parms_py3.py:390-393 | a turn sets its fields on the tag's entry, creating the entry when missing, and leaves every other tag alone |
| CatalogBuild.SetFieldsKeys | logic/maya_to_houdini_light_parms_py3.py:390-393 | a turn appends its tag to the catalog's keys when the tag is new and keeps the keys otherwise |
| CatalogBuild.FillEntries | logic/maya_to_houdini_light_parms_py3.py:388-397 | after `k` turns over distinct tags the keys are the first `k` tags in order, and each holds exactly the fields of its own turn |
| CatalogBuild.MantraEntry | logic/maya_to_houdini_light_parms_py3.py:390-393 | a Mantra entry holds exactly node type, sub-type, contribution count and table, in that order |
| CatalogBuild.ArnoldEntry | logic/maya_to_houdini_light_parms_py3.py:396-397 | an Arnold entry holds exactly sub-type and table, in that order |
| CatalogBuild.MantraTurn | logic/maya_to_houdini_light_parms_py3.py:390-393 | one Mantra turn is its four `setdefault` assignments in order |
| CatalogBuild.ArnoldTurn | logic/maya_to_houdini_light_parms_py3.py:396-397 | one Arnold turn is its two `setdefault` assignments in order |
| CatalogBuild.MantraCatalogEntries | logic/maya_to_houdini_light_parms_py3.py:388-393 | the Mantra loop over distinct tags yields one entry per zipped turn, keyed by its tag, holding that turn's four fields |
| CatalogBuild.ArnoldCatalogEntries | logic/maya_to_houdini_light_parms_py3.py:395-397 | the Arnold loop over distinct tags yields one entry per zipped turn, keyed by its tag, holding that turn's two fields |
| CatalogBuild.GenerateMantra | logic/maya_to_houdini_light_parms_py3.py:388-393 | the Mantra loop builds the dictionary the catalog function describes |
| CatalogBuild.GenerateArnold | logic/maya_to_houdini_light_parms_py3.py:395-397 | the Arnold loop builds the dictionary the catalog function describes |
| CatalogDocument.GenerateLightData | logic/maya_to_houdini_light_parms_py3.py:378-403 | the script builds the document over the two generated catalogs |
| CatalogDocument.DocumentKeys | logic/maya_to_houdini_light_parms_py3.py:399-403 | the document's keys are `Mantra`, `Arnold`, `light_contribution_parms`, `color_light_params`, in that order, with the two catalogs under the first two |
| CatalogDocument.MantraCatalogContents | logic/maya_to_houdini_light_parms_py3.py:388-393 | the Mantra catalog has the twelve tags in list order, each holding the node type, sub-type, count and table from its position |
| CatalogDocument.ArnoldCatalogContents | logic/maya_to_houdini_light_parms_py3.py:395-397 | the Arnold catalog has the eight tags in list order, each holding the sub-type and table from its position |
| CatalogDocument.TagListLengths | logic/maya_to_houdini_light_parms_py3.py:188-224 | the Mantra lists have 12 entries each and the Arnold lists 8, so `zip` drops nothing |
| CatalogDocument.TableListLengths | logic/maya_to_houdini_light_parms_py3.py:202-217 | there are 12 Mantra tables and 8 Arnold tables, one per tag |
| CatalogDocument.MantraTagsDistinct | logic/maya_to_houdini_light_parms_py3.py:188-189 | no Mantra tag is listed twice |
| CatalogDocument.ArnoldTagsDistinct | logic/maya_to_houdini_light_parms_py3.py:220-221 | no Arnold tag is listed twice |
| CatalogDocument.MantraNodeTypes | logic/maya_to_houdini_light_parms_py3.py:192-196 | every Mantra tag creates an `hlight::2.0` with an integer light type, except the sky dome, which creates an `envlight` with the empty sub-type |
| CatalogDocument.ArnoldSharedSubType | logic/maya_to_houdini_light_parms_py3.py:224 | two Arnold tags share a sub-type exactly when they are `areaLight` and `quad` |
| CatalogDocument.ContributionNames | logic/maya_to_houdini_light_parms_py3.py:29-36 | the contribution names in slot order are diffuse, reflect, coat, sss, indirect, volume, refract, camera |
| AtomLightParms.GenerateAtomData | logic/atom_light_parms_py3.py:182-192 | the older script builds the one-dict document its function describes |
| AtomLightParms.AtomTurn | logic/atom_light_parms_py3.py:186-189 | one turn is its four `setdefault` assignments in order |
| AtomLightParms.AtomEntry | logic/atom_light_parms_py3.py:186-189 | an entry holds exactly the node type, light type, count and table, in that order |
| AtomLightParms.AtomDocumentEntries | logic/atom_light_parms_py3.py:184-192 | over distinct tags, the document holds one top-level entry per zipped turn and then the two extra keys |
| AtomLightParms.AtomDocumentContents | logic/atom_light_parms_py3.py:158-192 | the document holds the twelve tags in list order, then the contribution names and colour table; each tag holds the four fields from its position |
| AtomLightParms.RoundnessOnlyAreaAndQuad | logic/atom_light_parms_py3.py:93-117 | `aiRoundness` maps to the empty parm name in the area and quad tables and is absent from every other Mantra table |
| MtohLightParms.LightTypeAgrees | logic/mtoh_light_parms.py:1-8 | the draft's light types are the catalog's eight Arnold tags in order, each with the catalog's sub-type |
| MtohLightParms.LightTypeShared | logic/mtoh_light_parms.py:1-8 | the draft's sub-types lie in 0..6, and two names share one exactly when they are `areaLight` and `quad` |
| MtohLightParms.CatalogSubTypesShared | logic/maya_to_houdini_light_parms_py3.py:224 | the catalog's Arnold sub-types lie in 0..6 and coincide only for `areaLight` and `quad` |
| MtohLightParms.ExposureAndNormalize | logic/mtoh_light_parms.py:37-61 | the draft's point, directional and spot tables send `aiExposure` to `ar_exposure` and `aiNormalize` to `ar_normalize`, and none has `exposure` |
| MtohLightParms.ColoursToArnold | logic/mtoh_light_parms.py:33-35 | the draft's colours go to Arnold's own colour parms, and those are exactly the keys where it differs from the catalog's colour table |
| MtohLightParms.RadiusAndCone | logic/mtoh_light_parms.py:37-61 | the radius goes to `ar_point_radius` or `ar_spot_radius`; the draft spot table has no cone or penumbra |
| MtohLightParms.AgreesWithCatalog | logic/mtoh_light_parms.py:10-51 | the draft's translate, rotate, common, point and directional tables equal the catalog's |
| MtohLightParms.SpotIsCatalogSpotWithoutCone | logic/mtoh_light_parms.py:53-61 | the draft spot table is the catalog's spot table without its cone and penumbra entries |
| MayaLights.ReplaceBars | logic/maya_logic.py:58 | `replace("\|", "_")` keeps the length and turns exactly the bars into underscores |
| MayaLights.SanitizeLaw | logic/maya_logic.py:56-58 | a light's name is its transform path without the first character, with bars turned to underscores, and contains no bar |
| MayaLights.KeepLightsMembers | logic/maya_logic.py:47-50 | a shape is kept exactly when it was listed and is not a volume light |
| MayaLights.KeepLightsNoVolume | logic/maya_logic.py:47-50 | without volume lights every listed shape is kept, in place |
| MayaLights.LightsList | logic/maya_logic.py:30-60 | the filter loop and the renaming loop compute the three lists the specification function gives |
| MayaLights.LightsListLaw | logic/maya_logic.py:30-60 | the three lists line up (parent of the kept shape, its sanitized path); the kept shapes are exactly the non-volume lights; the call fails, with a TypeError, exactly when none is left |
| MayaExport.ReadParmsInto | logic/maya_logic.py:169-183 | the parm loop computes the record its function describes |
| MayaExport.ReadParmsLaw | logic/maya_logic.py:169-183 | the loop succeeds exactly when the node has every parm; the record then holds the old keys followed by the parms in catalog order, each with its scene value (`aiAov` "default" as "", translation from world space), other keys unchanged |
| MayaExport.MantraTagLaw | logic/maya_logic.py:137-167 | a set tag is a Mantra catalog tag; point and spot lights are `..P` exactly when `aiRadius` is falsy; directional lights are `..D` exactly when `aiAngle` is falsy; `cylinderL` exactly for a cylinder with both scales 0 |
| MayaExport.ArnoldTagLaw | logic/maya_logic.py:104-115 | the plain Maya light types are their own Arnold tags; an `aiAreaLight` finds a catalog tag exactly when its translator is quad, disk or cylinder; only a missing translator fails |
| MayaExport.RecordKeysLaw | logic/maya_logic.py:102-183 | a renderer record holds `nodeType` (its tag) followed by exactly the catalog keys of that tag, and it exists exactly when the transform has all of them |
| MayaExport.FileNodeOf | logic/maya_logic.py:198-200 | the node of a plug is its text before the first dot |
| MayaExport.ColourConnectedLaw | logic/maya_logic.py:186-212 | with a colour input connected, both records end with colours 1 and the same texture path (`fileTextureName` of a file, `filename` of an aiImage, "" otherwise); only the Mantra record names the texture node |
| MayaExport.ColourUnconnectedLaw | logic/maya_logic.py:213-225 | without a colour input both records get the same colours: the Kelvin conversion when colour temperature is on, the scene colours otherwise |
| MayaExport.LightRecordOfLaw | logic/maya_logic.py:228-232 | a light's entry holds `Mantra` then `Arnold`, with the two records |
| MayaExport.ReadRenderer | logic/maya_logic.py:169-183 | one renderer branch reads the catalog keys of its tag, or fails with the lookup's error |
| MayaExport.RendererLoop | logic/maya_logic.py:102-183 | the renderer loop computes the two records its function describes |
| MayaExport.ZipInto | logic/maya_logic.py:191-193 | the zip loop writes the Kelvin colours into both records as its function describes |
| MayaExport.SetAll | logic/maya_logic.py:207-209 | the loop sets every colour key to the same value |
| MayaExport.ReadColoursInto | logic/maya_logic.py:221-225 | the colour loop reads the scene colours into both records |
| MayaExport.ApplyColourPolicy | logic/maya_logic.py:185-225 | the colour and texture step computes the records its function describes |
| MayaExport.ExportJsonFile | logic/maya_logic.py:63-236 | the export computes the document its specification function gives |
| MayaExport.ExportFromLaw | logic/maya_logic.py:81-232 | a successful light loop is every turn succeeding, with the records assigned under the names in turn order |
| MayaExport.ExportLaw | logic/maya_logic.py:63-236 | the exported document's keys are exactly the light names, each once, in the order of their first occurrence (the order `json.dump` writes); each name holds the entry of the last light of that name, and each entry is that light's Mantra record then its Arnold record |
| MayaExport.LoopLaw | logic/maya_logic.py:81-232 | the same, for the light loop over any three parallel lists: keys exactly the names in first-occurrence order, each from its last light |
| MayaExport.LightRecordKeys | logic/maya_logic.py:228-232 | every light's entry has the keys `Mantra` and `Arnold`, in that order |
| HoudiniHost.ParmOf | logic/houdini_logic.py:596-598 | a destination is usable as one parm name exactly when the catalog has the key with a single name |
| HoudiniHost.DestNames | logic/houdini_logic.py:558-564 | iterating a destination visits the names of a list, or the characters of a single name |
| HoudiniHost.DestAt | logic/houdini_logic.py:420-426 | `dest[i]` is the `i`-th name when it exists and an IndexError otherwise |
| HoudiniHost.FieldValue | logic/houdini_logic.py:162-170 | a catalog name or number is written as a string or a number; a table is a TypeError |
| HoudiniHost.NatStr | logic/houdini_logic.py:193-196 | `format` writes a natural number with at least one digit |
| HoudiniHost.NatStrInjective | logic/houdini_logic.py:193-196 | different slot numbers give different parm names |
| HoudiniHost.Times | logic/houdini_logic.py:198-202 | `v * k` succeeds exactly for a non-string and gives its number times `k` |
| HoudiniHost.Plus | logic/houdini_logic.py:213-244 | `v + k` succeeds exactly for a non-string and gives its number plus `k` |
| HoudiniHost.Toggle | logic/houdini_logic.py:542-549 | a weight becomes True exactly when it lies in [0.5, 1]; a string is a TypeError |
| HoudiniHost.SetEach | logic/houdini_logic.py:558-564 | one set per destination name, each with the same value |
| HoudiniHost.EffectSnoc | logic/houdini_logic.py:161-162 | a later parm set overrides earlier ones; a texture action leaves the parms alone |
| HoudiniHost.EffectAppend | logic/houdini_logic.py:161-162 | of two action lists in a row, the second overrides the first |
| HoudiniHost.EffectOfSets | logic/houdini_logic.py:161-162 | among a few sets the last set of a parm wins |
| HoudiniHost.EffectOfDistinctSets | logic/houdini_logic.py:161-162 | distinct parms set once each keep their own values, and nothing else is set |
| HoudiniHost.EffectOfSetEach | logic/houdini_logic.py:558-564 | the same value set on every name leaves each name with it and sets nothing else |
| HoudiniHost.EffectHas | logic/houdini_logic.py:161-162 | a parm ends up set exactly when some action sets it |
| HoudiniHost.EffectLastValue | logic/houdini_logic.py:161-162 | a parm ends with the value of the last action that sets it |
| MantraLaws.SlotNameInjective | logic/houdini_logic.py:193-196 | different slots are different parms |
| MantraLaws.ContributionSlotsLaw | logic/houdini_logic.py:191-196 | slots 1 to `count` get the first `count` contribution names in order and no other parm is set; a count beyond the names is an IndexError; a count of 0 or less sets nothing |
| MantraLaws.SlotsDomain | logic/houdini_logic.py:191-196 | the slots set are exactly slots 1 to `count` |
| MantraLaws.SlotsValues | logic/houdini_logic.py:191-196 | slot `k` holds the `k`-th contribution name |
| MantraLaws.NodeTypeLaw | logic/houdini_logic.py:162-196 | `light_type` becomes the catalog sub-type (sky dome: left alone), `light_contrib` becomes the count, slot `k` the `k`-th name, and the type's defaults stay set |
| MantraLaws.NodeTypeLayers | logic/houdini_logic.py:162-196 | the light type, the type defaults, the count and the slots touch different parms, so none overrides another |
| MantraLaws.DropoffFlatLaw | logic/houdini_logic.py:329-353 | dropoff 0 or 1 sets roll 1; penumbra and cone both at least 90 become 0 and 90; a penumbra of at least 90 alone becomes 90; otherwise both angles are copied |
| MantraLaws.DropoffRollLaw | logic/houdini_logic.py:354-358 | a dropoff strictly between 0 and 1 sets only the roll, `1 - log_100(100 - 100 v)`, which is positive |
| MantraLaws.RollIncreasing | logic/houdini_logic.py:354-358 | the roll grows with the dropoff |
| MantraLaws.DropoffNegativeLaw | logic/houdini_logic.py:328-409 | a negative dropoff sets nothing |
| MantraLaws.DropoffSpotLaw | logic/houdini_logic.py:360-390 | on `spotLightP` a dropoff above 1 turns sharp spot off, zeroes the cone and sets the roll to the dropoff; the penumbra becomes 90 when it is wider than the cone and at least 90, the penumbra plus half the cone when it is wider than the cone and under 90 (which can exceed 90), and otherwise half the sum of both angles, or 90 when that half-sum is above 90 |
| MantraLaws.DropoffSharpLaw | logic/houdini_logic.py:391-409 | on other lights a dropoff above 1 turns sharp spot on, sets the roll, and zeroes the cone with penumbra 90 when the penumbra is at least 90, or copies both angles otherwise |
| MantraLaws.ToggleRule | logic/houdini_logic.py:542-595 | each of the six single-parm toggle keys computes its toggle before looking up its parm |
| MantraLaws.ToggleLaw | logic/houdini_logic.py:542-595 | a toggle key sets its one parm to True exactly when the weight lies in [0.5, 1] and to False exactly otherwise; a string is a TypeError |
| MantraLaws.SpecularLaw | logic/houdini_logic.py:558-564 | `aiSpecular` sets exactly its destination parms, each to the same toggle of the weight; an empty destination sets nothing |
| MantraLaws.MantraExposureLaw | logic/houdini_logic.py:266-309 | at a non-zero scale: the sky dome keeps the exposure; a directional `aiExposure` becomes `e - 2.65`; `cylinderL`'s `exposure` becomes `e + log2 0.05 + 2 log2 abs(scale)`; any other light becomes the Mantra exposure when its normalize flag is missing or true, and keeps `e` when the flag is false |
| MantraKeyLaws.SetDestLaw | logic/houdini_logic.py:596-598 | a single parm set leaves exactly that parm with the value |
| MantraKeyLaws.TranslateLaw | logic/houdini_logic.py:198-212 | translation is multiplied by the scene scale |
| MantraKeyLaws.RotateLaw | logic/houdini_logic.py:213-244 | a cylinder negates X and adds 90 to Z; the sky dome adds 180 to Y; otherwise the angle is kept |
| MantraKeyLaws.ScaleLaw | logic/houdini_logic.py:245-254 | X and Y scale double at the scene scale; a directional light's `aiAngle` is halved |
| MantraKeyLaws.CylinderLengthLaw | logic/houdini_logic.py:255-264 | `cylinderC`'s length is the mean of its X and Z scales times `40/3` and the scene scale |
| MantraKeyLaws.ScaleZLaw | logic/houdini_logic.py:255-264 | Z scale is scaled by the scene scale, except on `cylinderC`, which takes the cylinder length and fails with a TypeError without an X scale |
| MantraKeyLaws.RadiusLaw | logic/houdini_logic.py:311-318 | both area sizes become the diameter at the scene scale; a string radius is a TypeError |
| MantraKeyLaws.RoundnessLaw | logic/houdini_logic.py:504-507 | roundness above one half makes the light the catalog's disk type; otherwise nothing is set |
| MantraKeyLaws.SoftEdgeRuleLaw | logic/houdini_logic.py:509-522 | a non-zero soft edge sets the edge parm and sets `light_exposure` to the interpolation between the minimum and the current Mantra exposure |
| MantraKeyLaws.SoftEdgeZeroLaw | logic/houdini_logic.py:509-522 | a zero soft edge sets only the edge parm; a string soft edge is a TypeError |
| MantraKeyLaws.SoftEdgeMissingFlagLaw | logic/houdini_logic.py:512-516 | a non-zero soft edge on a record with neither normalize flag is a KeyError |
| MantraKeyLaws.TextureLaw | logic/houdini_logic.py:529-540 | the sky dome sets its environment map; an area or quad light uses or creates the texture node named by `texture_node` and points `shop_materialpath` at it (KeyError without one); other lights set nothing |
| SpreadLaws.Pow2Bounds | logic/houdini_logic.py:449-478 | `2 ** n` lies in [1, 2) for `n` in [0, 1) |
| SpreadLaws.SpreadTopLaw | logic/houdini_logic.py:412-448 | from spread 0.4 the cone opens from 0 (at 0.4) to 180 (at 1) and beyond with delta 180 and roll 10; the exposure gain `0.9 (1 - cone/180)` vanishes at spread 1 |
| SpreadLaws.TopConeIncreasing | logic/houdini_logic.py:412-448 | a wider spread gives a wider cone |
| SpreadLaws.SpreadLowerLaw | logic/houdini_logic.py:449-502 | from 0.02 to 0.4 the cone is 0, the delta `(2^n - 1) 180` stays below 180 and the gain `7 - 7 log2(1 + n)` lies in (0, 7]; below 0.02 the cone is 4.5 with gain 8 |
| SpreadLaws.SpreadExposureLaw | logic/houdini_logic.py:411-502 | the exposure each band writes: the top band returns `x + g` (division by zero at scale 0); the middle band `x + g`; the bottom band `x + g + 2 log2 abs(scale)` (domain error at scale 0) |
| SpreadLaws.ConeSets | logic/houdini_logic.py:420-426 | the three band values go to cone angle, cone delta and roll, in order |
| SpreadLaws.SpreadRuleLaw | logic/houdini_logic.py:411-502 | the whole key sets the three cone parms to the band's values and, when the band has a gain, raises the exposure parm by it from the node's current exposure; nothing else is set |
| ArnoldLaws.ArnoldTranslateLaw | logic/houdini_logic.py:627-641 | translation and the radius are multiplied by the scene scale |
| ArnoldLaws.ArnoldScaleXLaw | logic/houdini_logic.py:642-645 | the X size doubles at the scene scale |
| ArnoldLaws.MeanValue | logic/houdini_logic.py:647-652 | the mean of a size and the record's `scaleX`, times `k`; a TypeError without a numeric `scaleX` |
| ArnoldLaws.ArnoldScaleYLaw | logic/houdini_logic.py:647-665 | a disk takes the mean of its X and Y sizes at the scene scale (TypeError without `scaleX`); area, quad and cylinder double at the scene scale; others take the scene scale |
| ArnoldLaws.ArnoldScaleZLaw | logic/houdini_logic.py:667-676 | a cylinder takes the mean of its X and Z sizes at the scene scale (TypeError without `scaleX`); others take the scene scale |
| ArnoldLaws.ArnoldExposureLaw | logic/houdini_logic.py:678-702 | a directional light sets no exposure; a present, true normalize flag converts the exposure to `v + 2 log2 abs(scale)` (domain error at scale 0); a missing or false flag keeps the value |
| ArnoldLaws.ArnoldConeLaw | logic/houdini_logic.py:709-717 | the cone widens by twice a non-negative penumbra and is kept for a negative one; no penumbra is a KeyError |
| ArnoldLaws.ArnoldConeWidens | logic/houdini_logic.py:709-717 | the cone angle written is never below the exported one |
| ArnoldLaws.ArnoldPenumbraLaw | logic/houdini_logic.py:719-721 | the penumbra is written as its absolute value, never negative; a string is a TypeError |
| ArnoldLaws.ArnoldTextureLaw | logic/houdini_logic.py:723-725 | a texture sets the colour type to texture (1) and the texture path |
| ArnoldLaws.ArnoldNodeTypeLaw | logic/houdini_logic.py:622-625 | `ar_light_type` takes the catalog's sub-type of the exported tag |
| ArnoldLaws.ArnoldPlainLaw | logic/houdini_logic.py:727-729 | every other key is written unchanged to its destination parm |
| HoudiniImport.HoudiniScene.constructor | logic/houdini_logic.py:110-133 | the scene starts as the given networks |
| HoudiniImport.HoudiniScene.Perform | logic/houdini_logic.py:529-540 | one action: a parm set on the light node, or a texture node reused or created |
| HoudiniImport.HoudiniScene.PerformAll | logic/houdini_logic.py:161-598 | the actions of one key, in order |
| HoudiniImport.HoudiniScene.SetParms | logic/houdini_logic.py:161-598 | the parm loop applies the rules in record order and stops at the first exception |
| HoudiniImport.HoudiniScene.ImportMantra | logic/houdini_logic.py:139-598 | the Mantra branch: destroy, create with the catalog node type, icon scale, parm loop |
| HoudiniImport.HoudiniScene.ImportArnold | logic/houdini_logic.py:601-729 | the Arnold branch: destroy, create an `arnold_light`, icon scale, parm loop |
| HoudiniImport.HoudiniScene.ImportLight | logic/houdini_logic.py:137-729 | the renderer loop of one light, honouring the two check boxes |
| HoudiniImport.HoudiniScene.ImportJsonFile | logic/houdini_logic.py:110-731 | the import over every light of the document, stopping at the first exception |
| HoudiniImportLaws.KeepsTransitive | logic/houdini_logic.py:135-137 | nodes kept by two steps in a row are kept by both together |
| HoudiniImportLaws.ApplyParms | logic/houdini_logic.py:161-598 | one action sets on the light node the parms its effect gives |
| HoudiniImportLaws.ApplyAllFrame | logic/houdini_logic.py:161-598 | the actions of a key touch only their light node and keep its type |
| HoudiniImportLaws.SetAllAppend | logic/houdini_logic.py:161-598 | setting the parms of two action lists in a row is setting those of both at once |
| HoudiniImportLaws.ApplyAllLaw | logic/houdini_logic.py:161-598 | the actions of a key leave the light node with exactly the parms their effect gives, over the old ones |
| HoudiniImportLaws.ParmLoopFrame | logic/houdini_logic.py:161-598 | the parm loop touches only its light node, keeps it present and keeps its type |
| HoudiniImportLaws.DestroyedTwice | logic/houdini_logic.py:141-143 | destroying a node twice is destroying it once |
| HoudiniImportLaws.MantraLightLaw | logic/houdini_logic.py:139-158 | an older `mantra_<light>` makes no difference; with no catalog node type the run only destroys the old node; otherwise the node is created with the catalog type, reported, and is the only node that changes |
| HoudiniImportLaws.ArnoldLightLaw | logic/houdini_logic.py:601-618 | an older `arnold_<light>` makes no difference; the node is always created as `arnold_light` and reported, even when the record then fails, and is the only node that changes |
| HoudiniImportLaws.RendererStepLaw | logic/houdini_logic.py:137-729 | one renderer record changes only the light's own nodes, and on success the reported nodes exist |
| HoudiniImportLaws.RendererLoopLaw | logic/houdini_logic.py:137-729 | the renderer loop changes only the light's own nodes, and on success every reported node exists |
| HoudiniImportLaws.LightsLoopLaw | logic/houdini_logic.py:135-729 | the light loop changes only nodes of the document's lights, and on success every reported node exists |
| HoudiniImportLaws.ImportLaw | logic/houdini_logic.py:110-731 | a node that is not `mantra_<light>` or `arnold_<light>` for a light of the document is neither removed, created nor changed; texture nodes are never removed or changed; without an exception every reported light node exists |

## Left out

- File I/O: the JSON dump and load, and the file paths, are left out. The documents are values.
- Viewport selection, the status-bar messages, `setSelected` and `layoutChildren` are left out. They do not change the data transferred.
- The UI files (`ui/houdini_ui.py`, `ui/maya_ui.py`, `ui_launcher.py`) are not part of this model.
- The Python 2 `OrderedDict` branch is left out. Both dict kinds keep insertion order, which is how every dict is modelled.
- Floating point is modelled as real arithmetic. NaN, infinities and rounding are not modelled.
- `2 ** x` and `log2` are a parameter that obeys the laws the proofs need (`Lawful`). They are not computed.
- The Maya scene (`getAttr`, `nodeType`, `listRelatives`, `connectionInfo`, `xform`, `arnoldTemperatureToColor`) is a parameter. A missing attribute is a host error.
- The import is modelled only for documents whose records have catalog attributes (`LightParms.Attr`) as keys and numbers, booleans or strings as values, which is what the export writes. A hand-edited record with another key, which reaches the catch-all at houdini_logic.py:596-598 and fails the catalog subscript with `KeyError`, cannot be expressed.
- `listRelatives(all_lights, parent=True)` is modelled as giving one transform per kept light shape, in the same order. Two light shapes under one transform would make Maya return that parent once and misalign the source's parallel lists; that case is not modelled.
- The Houdini node API is modelled as parm maps. Setting a parm a node does not have, and `parm()` returning `None`, are not modelled: every set succeeds.
- A key whose rule raises part-way (for example after setting some cone parms) is modelled as setting none of that key's parms before the exception ends the import.
- The exception that stops a script is modelled as the first error. The script's state at that point is kept, but the traceback is not.
- MantraKeyLaws.SoftEdgeRuleLaw: stated for a non-zero scale and a record that holds a normalize flag and a numeric `aiExposure` or `exposure`. The `except` at lines 519-521 catches the `KeyError` of the subscript `json_load[light][renderer]["aiExposure"]` at line 518; when the record has no `exposure` either, the subscript at line 520 raises `KeyError`, which this lemma does not state.
- MantraKeyLaws.ScaleZLaw: the `cylinderC` case is stated on the number written, not on the whole effect map.
- ArnoldLaws.ArnoldScaleYLaw: the disk case is stated on the number written, not on the whole effect map.
- ArnoldLaws.ArnoldScaleZLaw: the cylinder case is stated on the number written, not on the whole effect map.
- SpreadLaws.SpreadRuleLaw: stated for a light whose spread goes to `coneangle`, `conedelta` and `coneroll`, whose exposure parm is none of them, and whose scale is non-zero. `LightParms.MantraTablesShape` guarantees the destinations.
- MantraLaws.MantraExposureLaw: stated for a non-zero scene scale. At scale 0 the conversion fails, as `ExposureCalc.LightExposureLaw` states.
- The `mtoh_light_parms.py` draft is read only as tables. Nothing in the scripts imports it, and it is compared with the main catalog.
- The soft-edge fit follows the code's `(new[1] - new[0]) * pct + new[0]`, the interpolation `v * minimum + (1 - v) * current`.
