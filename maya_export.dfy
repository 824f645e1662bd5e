/**
 * `export_json_file`: for every selected light, a Mantra record and an Arnold record
 * holding the catalog keys of the light's tag, read from the scene, followed by the
 * colour and texture policy, collected under the light's export name.
 */
module MayaExport {
  import opened PyValues
  import opened LightParms
  import opened MayaLights

  /** One renderer's record of a light: attribute -> exported value. */
  type Record = OrderedDict<Attr, Value>
  /** `{"Mantra": .., "Arnold": ..}` */
  type LightRecord = OrderedDict<string, Record>
  /** Export name -> light record: the exported document. */
  type Export = OrderedDict<string, LightRecord>

  /** The value stored for `parm` when the scene holds `v`: an `aiAov` of `"default"` is
      stored as `""`, and the three translations come from the world-space position. */
  function ParmValue(parm: Attr, v: Value, t: (real, real, real)): Value {
    if parm == aiAov && v == Str("default") then Str("")
    else if parm == translateX then Num(t.0)
    else if parm == translateY then Num(t.1)
    else if parm == translateZ then Num(t.2)
    else v
  }

  /** The parm loop: read every parm of the list from `node`, in order, into `rec`. */
  function ReadParms(s: Scene, node: string, t: (real, real, real), parms: seq<Attr>, rec: Record): Result<Record>
    decreases |parms|
  {
    if parms == [] then Ok(rec)
    else
      match GetAttr(s, node, parms[0])
      case Err(e) => Err(e)
      case Ok(v) => ReadParms(s, node, t, parms[1..], Put(rec, parms[0], ParmValue(parms[0], v, t)))
  }

  method ReadParmsInto(s: Scene, node: string, t: (real, real, real), parms: seq<Attr>, rec: Record)
    returns (r: Result<Record>)
    ensures r == ReadParms(s, node, t, parms, rec)
  {
    var d := rec;
    for i := 0 to |parms|
      invariant ReadParms(s, node, t, parms, rec) == ReadParms(s, node, t, parms[i..], d)
    {
      assert parms[i..][1..] == parms[i + 1..];
      var v := GetAttr(s, node, parms[i]);
      if v.Err? {
        return Err(v.error);
      }
      d := Put(d, parms[i], ParmValue(parms[i], v.value, t));
    }
    assert parms[|parms|..] == [];
    r := Ok(d);
  }

  /** The record holds the read parms after what it held, in list order, each with the
      scene value of `node` (after the `aiAov` and translation rules); the read fails,
      with a host error, exactly when `node` lacks one of the parms. */
  lemma {:induction false} ReadParmsLaw(s: Scene, node: string, t: (real, real, real), parms: seq<Attr>, rec: Record)
    requires forall i, j :: 0 <= i < j < |parms| ==> parms[i] != parms[j]
    requires forall i :: 0 <= i < |parms| ==> Get(rec, parms[i]) == None
    ensures ReadParms(s, node, t, parms, rec).Ok? <==> forall i :: 0 <= i < |parms| ==> (node, parms[i]) in s.attrs
    ensures ReadParms(s, node, t, parms, rec).Err? ==> ReadParms(s, node, t, parms, rec).error == HostError("getAttr")
    ensures ReadParms(s, node, t, parms, rec).Ok? ==>
              var r := ReadParms(s, node, t, parms, rec).value;
              && Keys(r) == Keys(rec) + parms
              && (forall i :: 0 <= i < |parms| ==> Get(r, parms[i]) == Some(ParmValue(parms[i], s.attrs[(node, parms[i])], t)))
              && (forall k :: k !in parms ==> Get(r, k) == Get(rec, k))
  {
    ReadParmsOkLaw(s, node, t, parms, rec);
    ReadParmsValuesLaw(s, node, t, parms, rec);
  }

  /** The read succeeds exactly when `node` has every parm, and fails with a host error. */
  lemma {:induction false} ReadParmsOkLaw(s: Scene, node: string, t: (real, real, real), parms: seq<Attr>, rec: Record)
    ensures ReadParms(s, node, t, parms, rec).Ok? <==> forall i :: 0 <= i < |parms| ==> (node, parms[i]) in s.attrs
    ensures ReadParms(s, node, t, parms, rec).Err? ==> ReadParms(s, node, t, parms, rec).error == HostError("getAttr")
  {
    if parms != [] {
      var p := parms[0];
      if (node, p) in s.attrs {
        var rec' := Put(rec, p, ParmValue(p, s.attrs[(node, p)], t));
        ReadParmsOkLaw(s, node, t, parms[1..], rec');
        if ReadParms(s, node, t, parms, rec).Ok? {
          forall i | 0 <= i < |parms|
            ensures (node, parms[i]) in s.attrs
          {
            if i > 0 {
              assert parms[i] == parms[1..][i - 1];
            }
          }
        } else {
          var i :| 0 <= i < |parms[1..]| && (node, parms[1..][i]) !in s.attrs;
          assert parms[i + 1] == parms[1..][i];
        }
      }
    }
  }

  /** A successful read appends the parms to the record's keys, gives each its scene value
      and leaves every other key as it was. */
  lemma {:induction false} ReadParmsValuesLaw(s: Scene, node: string, t: (real, real, real), parms: seq<Attr>, rec: Record)
    requires forall i, j :: 0 <= i < j < |parms| ==> parms[i] != parms[j]
    requires forall i :: 0 <= i < |parms| ==> Get(rec, parms[i]) == None
    ensures ReadParms(s, node, t, parms, rec).Ok? ==>
              var r := ReadParms(s, node, t, parms, rec).value;
              && Keys(r) == Keys(rec) + parms
              && (forall i :: 0 <= i < |parms| ==>
                    (node, parms[i]) in s.attrs && Get(r, parms[i]) == Some(ParmValue(parms[i], s.attrs[(node, parms[i])], t)))
              && (forall k :: k !in parms ==> Get(r, k) == Get(rec, k))
  {
    if parms != [] {
      var p := parms[0];
      if (node, p) in s.attrs {
        var rec' := Put(rec, p, ParmValue(p, s.attrs[(node, p)], t));
        forall i | 0 <= i < |parms[1..]|
          ensures Get(rec', parms[1..][i]) == None
        {
          PutGet(rec, p, ParmValue(p, s.attrs[(node, p)], t), parms[1..][i]);
          assert parms[1..][i] == parms[i + 1];
        }
        ReadParmsValuesLaw(s, node, t, parms[1..], rec');
        PutKeys(rec, p, ParmValue(p, s.attrs[(node, p)], t));
        forall k
          ensures Get(rec', k) == if k == p then Some(ParmValue(p, s.attrs[(node, p)], t)) else Get(rec, k)
        {
          PutGet(rec, p, ParmValue(p, s.attrs[(node, p)], t), k);
        }
        if ReadParms(s, node, t, parms, rec).Ok? {
          assert Keys(rec) + [p] + parms[1..] == Keys(rec) + parms;
        }
      }
    }
  }

  /** `light_data[renderer][tag]["light_parms"]`, iterated: the keys of the tag's table. */
  function CatalogKeys(doc: LightData, renderer: string, tag: string): Result<seq<Attr>> {
    var sec: Option<Section> := Get(doc, renderer);
    if sec.None? then Err(KeyError)
    else if !sec.value.Renderer? then Err(TypeError)
    else
      var entry: Option<Entry> := Get(sec.value.types, tag);
      if entry.None? then Err(KeyError)
      else
        var f: Option<Field> := Get(entry.value, "light_parms");
        if f.None? then Err(KeyError)
        else if !f.value.Parms? then Err(TypeError)
        else Ok(Keys(f.value.table))
  }

  /** The Mantra tag of a light, from its node type and a few attributes; `None` when no
      branch sets it. */
  function MantraTag(s: Scene, shape: string, transform: string, nodeType: string): Result<Option<string>> {
    if nodeType == "pointLight" || nodeType == "spotLight" then
      match GetAttr(s, shape, aiRadius)
      case Err(e) => Err(e)
      case Ok(v) => Ok(Some(if !Truthy(v) then nodeType + "P" else nodeType + "S"))
    else if nodeType == "directionalLight" then
      match GetAttr(s, shape, aiAngle)
      case Err(e) => Err(e)
      case Ok(v) => Ok(Some(if !Truthy(v) then "directionalLightD" else "directionalLightS"))
    else if nodeType == "areaLight" then Ok(Some(nodeType))
    else if nodeType == "aiAreaLight" then
      match GetAttr(s, shape, aiTranslator)
      case Err(e) => Err(e)
      case Ok(tr) =>
        if tr == Str("quad") || tr == Str("disk") then Ok(Some(tr.s))
        else if tr == Str("cylinder") then
          match GetAttr(s, transform, scaleX)
          case Err(e) => Err(e)
          case Ok(x) =>
            if !EqualsNumber(x, 0.0) then Ok(Some("cylinderC"))
            else
              match GetAttr(s, transform, scaleZ)
              case Err(e) => Err(e)
              case Ok(z) => Ok(Some(if EqualsNumber(z, 0.0) then "cylinderL" else "cylinderC"))
        else Ok(None)
    else if nodeType == "aiSkyDomeLight" then Ok(Some(nodeType))
    else Ok(None)
  }

  /** Every tag the classification produces is a Mantra tag of the catalog; point and spot
      lights are `..P` exactly when `aiRadius` is falsy, directional lights `..D` exactly
      when `aiAngle` is falsy, cylinders `cylinderL` exactly when both scales are 0; the tag
      is left unset exactly for an `aiAreaLight` with another translator or a node type
      outside the six light types. */
  lemma MantraTagLaw(s: Scene, shape: string, transform: string, nodeType: string)
    ensures var r := MantraTag(s, shape, transform, nodeType);
            r.Ok? && r.value.Some? ==> r.value.value in MantraLightType
    ensures var r := MantraTag(s, shape, transform, nodeType);
            r.Ok? && (nodeType == "pointLight" || nodeType == "spotLight") ==>
              (r.value == Some(nodeType + "P") <==> !Truthy(s.attrs[(shape, aiRadius)]))
    ensures var r := MantraTag(s, shape, transform, nodeType);
            r.Ok? && nodeType == "directionalLight" ==>
              (r.value == Some("directionalLightD") <==> !Truthy(s.attrs[(shape, aiAngle)]))
    ensures var r := MantraTag(s, shape, transform, nodeType);
            r.Ok? && r.value == Some("cylinderL") <==>
              && nodeType == "aiAreaLight" && (shape, aiTranslator) in s.attrs
              && s.attrs[(shape, aiTranslator)] == Str("cylinder")
              && (transform, scaleX) in s.attrs && EqualsNumber(s.attrs[(transform, scaleX)], 0.0)
              && (transform, scaleZ) in s.attrs && EqualsNumber(s.attrs[(transform, scaleZ)], 0.0)
    ensures var r := MantraTag(s, shape, transform, nodeType);
            r == Ok(None) <==>
              || (nodeType == "aiAreaLight" && (shape, aiTranslator) in s.attrs &&
                  s.attrs[(shape, aiTranslator)] !in [Str("quad"), Str("disk"), Str("cylinder")])
              || nodeType !in ["pointLight", "spotLight", "directionalLight", "areaLight", "aiAreaLight", "aiSkyDomeLight"]
  {
    assert "pointLight" + "P" == "pointLightP" && "pointLight" + "S" == "pointLightS";
    assert "spotLight" + "P" == "spotLightP" && "spotLight" + "S" == "spotLightS";
    assert MantraLightType == ["pointLightP", "pointLightS", "directionalLightD", "directionalLightS", "spotLightP",
                               "spotLightS", "areaLight", "quad", "disk", "cylinderC", "cylinderL", "aiSkyDomeLight"];
  }

  /** The Arnold tag: the node type, or the translator of an `aiAreaLight` when it is
      `quad`, `disk` or `cylinder`. */
  function ArnoldTag(s: Scene, shape: string, nodeType: string): Result<string> {
    if nodeType == "aiAreaLight" then
      match GetAttr(s, shape, aiTranslator)
      case Err(e) => Err(e)
      case Ok(tr) => Ok(if tr == Str("quad") || tr == Str("disk") || tr == Str("cylinder") then tr.s else nodeType)
    else Ok(nodeType)
  }

  /** For the six light types the extractor lists, the Arnold tag is a tag of the catalog,
      except for an `aiAreaLight` with another translator, which keeps its node type (and
      then finds no catalog entry); only `aiAreaLight` reads the translator. */
  lemma ArnoldTagLaw(s: Scene, shape: string, nodeType: string)
    ensures var r := ArnoldTag(s, shape, nodeType);
            r.Ok? && nodeType in ["pointLight", "spotLight", "directionalLight", "areaLight", "aiSkyDomeLight"] ==>
              r.value == nodeType && r.value in ArnoldLightType
    ensures var r := ArnoldTag(s, shape, nodeType);
            r.Ok? && nodeType == "aiAreaLight" ==>
              (r.value in ArnoldLightType <==> s.attrs[(shape, aiTranslator)] in [Str("quad"), Str("disk"), Str("cylinder")])
    ensures ArnoldTag(s, shape, nodeType).Err? <==> nodeType == "aiAreaLight" && (shape, aiTranslator) !in s.attrs
  {
    assert ArnoldLightType == ["pointLight", "directionalLight", "spotLight", "areaLight", "quad", "disk", "cylinder",
                               "aiSkyDomeLight"];
  }

  /** The Arnold branch of the renderer loop. */
  function ArnoldRecord(s: Scene, doc: LightData, shape: string, transform: string, nodeType: string,
                        t: (real, real, real), a: Record): Result<Record>
  {
    var a1 := Put(a, LightParms.nodeType, Str(nodeType));
    match ArnoldTag(s, shape, nodeType)
    case Err(e) => Err(e)
    case Ok(tag) =>
      var a2 := Put(a1, LightParms.nodeType, Str(tag));
      match CatalogKeys(doc, "Arnold", tag)
      case Err(e) => Err(e)
      case Ok(parms) => ReadParms(s, transform, t, parms, a2)
  }

  /** The Mantra branch of the renderer loop: an unset tag makes the table lookup fail. */
  function MantraRecord(s: Scene, doc: LightData, shape: string, transform: string, nodeType: string,
                        t: (real, real, real), m: Record): Result<Record>
  {
    match MantraTag(s, shape, transform, nodeType)
    case Err(e) => Err(e)
    case Ok(None) => Err(KeyError)
    case Ok(Some(tag)) =>
      match CatalogKeys(doc, "Mantra", tag)
      case Err(e) => Err(e)
      case Ok(parms) => ReadParms(s, transform, t, parms, Put(m, LightParms.nodeType, Str(tag)))
  }

  /** A record holds `nodeType` (its tag) and then exactly the catalog keys of that tag, in
      catalog order, each read from the light's transform. */
  lemma RecordKeysLaw(s: Scene, doc: LightData, shape: string, transform: string, nodeType: string,
                      t: (real, real, real), renderer: string, tag: string)
    requires renderer == "Mantra" ==> MantraTag(s, shape, transform, nodeType) == Ok(Some(tag))
    requires renderer == "Arnold" ==> ArnoldTag(s, shape, nodeType) == Ok(tag)
    requires renderer == "Mantra" || renderer == "Arnold"
    requires CatalogKeys(doc, renderer, tag).Ok?
    requires var parms := CatalogKeys(doc, renderer, tag).value;
             && (forall i, j :: 0 <= i < j < |parms| ==> parms[i] != parms[j])
             && LightParms.nodeType !in parms
    ensures var r := if renderer == "Mantra" then MantraRecord(s, doc, shape, transform, nodeType, t, Nil)
                     else ArnoldRecord(s, doc, shape, transform, nodeType, t, Nil);
            var parms := CatalogKeys(doc, renderer, tag).value;
            && (r.Ok? <==> forall i :: 0 <= i < |parms| ==> (transform, parms[i]) in s.attrs)
            && (r.Ok? ==>
                  && Keys(r.value) == [LightParms.nodeType] + parms
                  && Get(r.value, LightParms.nodeType) == Some(Str(tag))
                  && forall i :: 0 <= i < |parms| ==>
                       Get(r.value, parms[i]) == Some(ParmValue(parms[i], s.attrs[(transform, parms[i])], t)))
  {
    var parms := CatalogKeys(doc, renderer, tag).value;
    var rec := Cons(LightParms.nodeType, Str(tag), Nil);
    TaggedReadLaw(s, transform, t, parms, tag);
    if renderer == "Mantra" {
      assert Put(Nil, LightParms.nodeType, Str(tag)) == rec;
      assert MantraRecord(s, doc, shape, transform, nodeType, t, Nil) == ReadParms(s, transform, t, parms, rec);
    } else {
      assert Put(Put(Nil, LightParms.nodeType, Str(nodeType)), LightParms.nodeType, Str(tag)) == rec;
      assert ArnoldRecord(s, doc, shape, transform, nodeType, t, Nil) == ReadParms(s, transform, t, parms, rec);
    }
  }

  /** Reading distinct keys other than `nodeType` into a record that holds only the tag. */
  lemma TaggedReadLaw(s: Scene, transform: string, t: (real, real, real), parms: seq<Attr>, tag: string)
    requires forall i, j :: 0 <= i < j < |parms| ==> parms[i] != parms[j]
    requires LightParms.nodeType !in parms
    ensures var r := ReadParms(s, transform, t, parms, Cons(LightParms.nodeType, Str(tag), Nil));
            && (r.Ok? <==> forall i :: 0 <= i < |parms| ==> (transform, parms[i]) in s.attrs)
            && (r.Ok? ==>
                  && Keys(r.value) == [LightParms.nodeType] + parms
                  && Get(r.value, LightParms.nodeType) == Some(Str(tag))
                  && forall i :: 0 <= i < |parms| ==>
                       Get(r.value, parms[i]) == Some(ParmValue(parms[i], s.attrs[(transform, parms[i])], t)))
  {
    var rec := Cons(LightParms.nodeType, Str(tag), Nil);
    forall i | 0 <= i < |parms|
      ensures Get(rec, parms[i]) == None
    {
      assert parms[i] in parms;
    }
    TagRecord(tag);
    ReadParmsLaw(s, transform, t, parms, rec);
  }

  /** The record a renderer branch starts from holds only its tag. */
  lemma TagRecord(tag: string)
    ensures Keys(Cons(LightParms.nodeType, Str(tag), Nil)) == [LightParms.nodeType]
    ensures Get(Cons(LightParms.nodeType, Str(tag), Nil), LightParms.nodeType) == Some(Str(tag))
  {
    assert Keys<Attr, Value>(Nil) == [];
  }

  /** The renderer loop over the document's top-level keys. */
  function Renderers(s: Scene, doc: LightData, shape: string, transform: string, nodeType: string,
                     t: (real, real, real), renderers: seq<string>, m: Record, a: Record): Result<(Record, Record)>
    decreases |renderers|
  {
    if renderers == [] then Ok((m, a))
    else if renderers[0] == "Arnold" then
      match ArnoldRecord(s, doc, shape, transform, nodeType, t, a)
      case Err(e) => Err(e)
      case Ok(a') => Renderers(s, doc, shape, transform, nodeType, t, renderers[1..], m, a')
    else if renderers[0] == "Mantra" then
      match MantraRecord(s, doc, shape, transform, nodeType, t, m)
      case Err(e) => Err(e)
      case Ok(m') => Renderers(s, doc, shape, transform, nodeType, t, renderers[1..], m', a)
    else Renderers(s, doc, shape, transform, nodeType, t, renderers[1..], m, a)
  }

  /** `light_data["color_light_params"]`, iterated: the colour keys. */
  function ColourKeys(doc: LightData): Result<seq<Attr>> {
    var sec: Option<Section> := Get(doc, "color_light_params");
    if sec.None? then Err(KeyError)
    else if !sec.value.ColorParms? then Err(TypeError)
    else Ok(Keys(sec.value.parms))
  }

  /** `zip(keys, vals)` written into `d`. */
  function ZipPut(keys: seq<Attr>, vals: seq<Value>, d: Record): Record
    decreases |keys|
  {
    if keys == [] || vals == [] then d else ZipPut(keys[1..], vals[1..], Put(d, keys[0], vals[0]))
  }

  /** Every key of the list set to `v`. */
  function PutAll(keys: seq<Attr>, v: Value, d: Record): Record
    decreases |keys|
  {
    if keys == [] then d else PutAll(keys[1..], v, Put(d, keys[0], v))
  }

  /** Every key of the list read from `node` into both records. */
  function ReadColours(s: Scene, node: string, keys: seq<Attr>, m: Record, a: Record): Result<(Record, Record)>
    decreases |keys|
  {
    if keys == [] then Ok((m, a))
    else
      match GetAttr(s, node, keys[0])
      case Err(e) => Err(e)
      case Ok(v) => ReadColours(s, node, keys[1..], Put(m, keys[0], v), Put(a, keys[0], v))
  }

  /** The Kelvin conversion as the three values `zip` pairs with the colour keys. */
  function Rgb(c: (real, real, real)): seq<Value> {
    [Num(c.0), Num(c.1), Num(c.2)]
  }

  /** The colour temperature written into both records. */
  function TemperatureColours(s: Scene, doc: LightData, transform: string, m: Record, a: Record)
    : Result<(Record, Record)>
  {
    match GetAttr(s, transform, aiColorTemperature)
    case Err(e) => Err(e)
    case Ok(kelvin) =>
      var rgb := Rgb(s.temperatureToColor(kelvin));
      match ColourKeys(doc)
      case Err(e) => Err(e)
      case Ok(keys) => Ok((ZipPut(keys, rgb, m), ZipPut(keys, rgb, a)))
  }

  /** `"file1.outColor".split(".")[0]`: the node part of a plug. */
  function FileNodeOf(plug: string): (node: string)
    ensures '.' !in node
    ensures node <= plug
    ensures |node| < |plug| ==> plug[|node|] == '.'
  {
    if plug == [] || plug[0] == '.' then [] else [plug[0]] + FileNodeOf(plug[1..])
  }

  /** The texture file of the node feeding the colour. */
  function TexturePath(s: Scene, node: string): Result<Value> {
    if s.nodeType(node) == "file" then GetAttr(s, node, fileTextureName)
    else if s.nodeType(node) == "aiImage" then GetAttr(s, node, filename)
    else Ok(Str(""))
  }

  /** The colour and texture step after the renderer loop. */
  function ColourPolicy(s: Scene, doc: LightData, transform: string, m: Record, a: Record): Result<(Record, Record)> {
    var src := s.colorSource(transform);
    match GetAttr(s, transform, aiUseColorTemperature)
    case Err(e) => Err(e)
    case Ok(useTemp) =>
      if src != "" then
        var temp: Result<(Record, Record)> :=
          if Truthy(useTemp) then
            match TemperatureColours(s, doc, transform, m, a)
            case Err(e) => Err(e)
            case Ok(ma) => Ok((Put(ma.0, texture_map, Str("")), Put(ma.1, texture_map, Str(""))))
          else Ok((m, a));
        if temp.Err? then Err(temp.error)
        else
          var node := FileNodeOf(src);
          match TexturePath(s, node)
          case Err(e) => Err(e)
          case Ok(path) =>
            match ColourKeys(doc)
            case Err(e) => Err(e)
            case Ok(keys) =>
              Ok((Put(Put(PutAll(keys, Num(1.0), temp.value.0), texture_node, Str(node)), texture_map, path),
                  Put(PutAll(keys, Num(1.0), temp.value.1), texture_map, path)))
      else if Truthy(useTemp) then TemperatureColours(s, doc, transform, m, a)
      else
        match ColourKeys(doc)
        case Err(e) => Err(e)
        case Ok(keys) => ReadColours(s, transform, keys, m, a)
  }

  lemma {:induction false} PutAllGet(keys: seq<Attr>, v: Value, d: Record, k: Attr)
    ensures Get(PutAll(keys, v, d), k) == if k in keys then Some(v) else Get(d, k)
  {
    if keys != [] {
      PutAllGet(keys[1..], v, Put(d, keys[0], v), k);
      PutGet(d, keys[0], v, k);
      assert keys == [keys[0]] + keys[1..];
    }
  }

  lemma {:induction false} ZipPutGet(keys: seq<Attr>, vals: seq<Value>, d: Record, i: nat)
    requires forall x, y :: 0 <= x < y < |keys| ==> keys[x] != keys[y]
    requires i < |keys| && i < |vals|
    ensures Get(ZipPut(keys, vals, d), keys[i]) == Some(vals[i])
  {
    if i == 0 {
      ZipPutKeeps(keys[1..], vals[1..], Put(d, keys[0], vals[0]), keys[0]);
      PutGet(d, keys[0], vals[0], keys[0]);
    } else {
      ZipPutGet(keys[1..], vals[1..], Put(d, keys[0], vals[0]), i - 1);
    }
  }

  lemma {:induction false} ZipPutKeeps(keys: seq<Attr>, vals: seq<Value>, d: Record, k: Attr)
    requires k !in keys
    ensures Get(ZipPut(keys, vals, d), k) == Get(d, k)
  {
    if keys != [] && vals != [] {
      ZipPutKeeps(keys[1..], vals[1..], Put(d, keys[0], vals[0]), k);
      PutGet(d, keys[0], vals[0], k);
    }
  }

  lemma {:induction false} ReadColoursGet(s: Scene, node: string, keys: seq<Attr>, m: Record, a: Record, k: Attr)
    requires ReadColours(s, node, keys, m, a).Ok?
    ensures var r := ReadColours(s, node, keys, m, a).value;
            if k in keys then (node, k) in s.attrs && Get(r.0, k) == Get(r.1, k) == Some(s.attrs[(node, k)])
            else Get(r.0, k) == Get(m, k) && Get(r.1, k) == Get(a, k)
  {
    if keys != [] {
      var v := s.attrs[(node, keys[0])];
      ReadColoursGet(s, node, keys[1..], Put(m, keys[0], v), Put(a, keys[0], v), k);
      PutGet(m, keys[0], v, k);
      PutGet(a, keys[0], v, k);
      assert keys == [keys[0]] + keys[1..];
    }
  }

  lemma ColourKeysOfCatalog(doc: LightData)
    requires Get(doc, "color_light_params") == Some(ColorParms(ColorLightParams))
    ensures ColourKeys(doc) == Ok([colorR, colorG, colorB])
  {
    assert Keys(ColorLightParams) == [colorR, colorG, colorB];
  }

  /** With the colour input connected, both records end with colours 1 and the texture
      path of the connected node (`fileTextureName` of a `file`, `filename` of an
      `aiImage`, `""` otherwise), whether or not colour temperature is on; only the Mantra
      record names the texture node. */
  lemma ColourConnectedLaw(s: Scene, doc: LightData, transform: string, m: Record, a: Record)
    requires Get(doc, "color_light_params") == Some(ColorParms(ColorLightParams))
    requires s.colorSource(transform) != ""
    ensures var r := ColourPolicy(s, doc, transform, m, a);
            var node := FileNodeOf(s.colorSource(transform));
            r.Ok? ==>
              && (forall k :: k in [colorR, colorG, colorB] ==> Get(r.value.0, k) == Get(r.value.1, k) == Some(Num(1.0)))
              && Get(r.value.0, texture_map) == Get(r.value.1, texture_map)
              && (s.nodeType(node) == "file" ==>
                    (node, fileTextureName) in s.attrs && Get(r.value.0, texture_map) == Some(s.attrs[(node, fileTextureName)]))
              && (s.nodeType(node) == "aiImage" ==>
                    (node, filename) in s.attrs && Get(r.value.0, texture_map) == Some(s.attrs[(node, filename)]))
              && (s.nodeType(node) != "file" && s.nodeType(node) != "aiImage" ==> Get(r.value.0, texture_map) == Some(Str("")))
              && Get(r.value.0, texture_node) == Some(Str(node))
              && Get(r.value.1, texture_node) == Get(a, texture_node)
  {
    var r := ColourPolicy(s, doc, transform, m, a);
    if r.Ok? {
      var keys := [colorR, colorG, colorB];
      ColourKeysOfCatalog(doc);
      var node := FileNodeOf(s.colorSource(transform));
      var useTemp := s.attrs[(transform, aiUseColorTemperature)];
      var temp: Result<(Record, Record)> :=
        if Truthy(useTemp) then
          match TemperatureColours(s, doc, transform, m, a)
          case Err(e) => Err(e)
          case Ok(ma) => Ok((Put(ma.0, texture_map, Str("")), Put(ma.1, texture_map, Str(""))))
        else Ok((m, a));
      assert temp.Ok?;
      var path := TexturePath(s, node).value;
      var m1 := PutAll(keys, Num(1.0), temp.value.0);
      var a1 := PutAll(keys, Num(1.0), temp.value.1);
      assert r.value == (Put(Put(m1, texture_node, Str(node)), texture_map, path), Put(a1, texture_map, path));
      forall k | k in keys
        ensures Get(r.value.0, k) == Get(r.value.1, k) == Some(Num(1.0))
      {
        PutAllGet(keys, Num(1.0), temp.value.0, k);
        PutAllGet(keys, Num(1.0), temp.value.1, k);
        PutGet(m1, texture_node, Str(node), k);
        PutGet(Put(m1, texture_node, Str(node)), texture_map, path, k);
        PutGet(a1, texture_map, path, k);
      }
      PutGet(Put(m1, texture_node, Str(node)), texture_map, path, texture_map);
      PutGet(a1, texture_map, path, texture_map);
      PutGet(Put(m1, texture_node, Str(node)), texture_map, path, texture_node);
      PutGet(m1, texture_node, Str(node), texture_node);
      PutGet(a1, texture_map, path, texture_node);
      PutAllGet(keys, Num(1.0), temp.value.1, texture_node);
      if Truthy(useTemp) {
        var ma := TemperatureColours(s, doc, transform, m, a).value;
        var rgb := Rgb(s.temperatureToColor(s.attrs[(transform, aiColorTemperature)]));
        assert ma.1 == ZipPut(keys, rgb, a);
        ZipPutKeeps(keys, rgb, a, texture_node);
        PutGet(ma.1, texture_map, Str(""), texture_node);
      }
    }
  }

  /** The Kelvin colour zipped into a record sets the three colour keys and nothing else. */
  lemma ZipRgbGet(c: (real, real, real), d: Record)
    ensures var r := ZipPut([colorR, colorG, colorB], Rgb(c), d);
            && Get(r, colorR) == Some(Num(c.0)) && Get(r, colorG) == Some(Num(c.1)) && Get(r, colorB) == Some(Num(c.2))
            && Get(r, texture_map) == Get(d, texture_map) && Get(r, texture_node) == Get(d, texture_node)
  {
    var keys := [colorR, colorG, colorB];
    ZipPutGet(keys, Rgb(c), d, 0);
    ZipPutGet(keys, Rgb(c), d, 1);
    ZipPutGet(keys, Rgb(c), d, 2);
    ZipPutKeeps(keys, Rgb(c), d, texture_map);
    ZipPutKeeps(keys, Rgb(c), d, texture_node);
  }

  /** With the colour input not connected, both records get the same colours: the Kelvin
      conversion when colour temperature is on, the scene colours otherwise; no texture key
      is touched. */
  lemma ColourUnconnectedLaw(s: Scene, doc: LightData, transform: string, m: Record, a: Record)
    requires Get(doc, "color_light_params") == Some(ColorParms(ColorLightParams))
    requires s.colorSource(transform) == ""
    ensures var r := ColourPolicy(s, doc, transform, m, a);
            r.Ok? ==>
              && (forall k :: k in [colorR, colorG, colorB] ==> Get(r.value.0, k) == Get(r.value.1, k) != None)
              && (transform, aiUseColorTemperature) in s.attrs
              && (Truthy(s.attrs[(transform, aiUseColorTemperature)]) ==>
                    && (transform, aiColorTemperature) in s.attrs
                    && var c := s.temperatureToColor(s.attrs[(transform, aiColorTemperature)]);
                       Get(r.value.0, colorR) == Some(Num(c.0)) && Get(r.value.0, colorG) == Some(Num(c.1)) &&
                       Get(r.value.0, colorB) == Some(Num(c.2)))
              && (!Truthy(s.attrs[(transform, aiUseColorTemperature)]) ==>
                    forall k :: k in [colorR, colorG, colorB] ==>
                      (transform, k) in s.attrs && Get(r.value.0, k) == Some(s.attrs[(transform, k)]))
              && Get(r.value.0, texture_map) == Get(m, texture_map) && Get(r.value.1, texture_map) == Get(a, texture_map)
              && Get(r.value.0, texture_node) == Get(m, texture_node)
  {
    var r := ColourPolicy(s, doc, transform, m, a);
    if r.Ok? {
      var keys := [colorR, colorG, colorB];
      UnconnectedSplit(s, doc, transform, m, a);
      if Truthy(s.attrs[(transform, aiUseColorTemperature)]) {
        var c := s.temperatureToColor(s.attrs[(transform, aiColorTemperature)]);
        ZipRgbGet(c, m);
        ZipRgbGet(c, a);
      } else {
        forall k | k in keys
          ensures Get(r.value.0, k) == Get(r.value.1, k) == Some(s.attrs[(transform, k)])
        {
          ReadColoursGet(s, transform, keys, m, a, k);
        }
        ReadColoursGet(s, transform, keys, m, a, texture_map);
        ReadColoursGet(s, transform, keys, m, a, texture_node);
      }
    }
  }

  /** Unconnected, the colour step is the Kelvin conversion zipped into both records or
      the three scene colours read into them. */
  lemma UnconnectedSplit(s: Scene, doc: LightData, transform: string, m: Record, a: Record)
    requires Get(doc, "color_light_params") == Some(ColorParms(ColorLightParams))
    requires s.colorSource(transform) == ""
    requires ColourPolicy(s, doc, transform, m, a).Ok?
    ensures (transform, aiUseColorTemperature) in s.attrs
    ensures var r := ColourPolicy(s, doc, transform, m, a);
            if Truthy(s.attrs[(transform, aiUseColorTemperature)]) then
              && (transform, aiColorTemperature) in s.attrs
              && var rgb := Rgb(s.temperatureToColor(s.attrs[(transform, aiColorTemperature)]));
                 r.value == (ZipPut([colorR, colorG, colorB], rgb, m), ZipPut([colorR, colorG, colorB], rgb, a))
            else r == ReadColours(s, transform, [colorR, colorG, colorB], m, a)
  {
    ColourKeysOfCatalog(doc);
  }

  /** `{"Mantra": m}` updated with `{"Arnold": a}`. */
  function LightRecordOf(m: Record, a: Record): LightRecord {
    Put(Cons("Mantra", m, Nil), "Arnold", a)
  }

  /** The two keys differ, so the update appends: a light's entry holds `Mantra` then
      `Arnold`, with the records given. */
  lemma LightRecordOfLaw(m: Record, a: Record)
    ensures Keys(LightRecordOf(m, a)) == ["Mantra", "Arnold"]
    ensures Get(LightRecordOf(m, a), "Mantra") == Some(m) && Get(LightRecordOf(m, a), "Arnold") == Some(a)
  {
    assert "Mantra" != "Arnold" by { assert "Mantra"[0] != "Arnold"[0]; }
    var r := Cons("Mantra", m, Cons("Arnold", a, Nil));
    assert Put<string, Record>(Nil, "Arnold", a) == Cons("Arnold", a, Nil);
    assert LightRecordOf(m, a) == Cons("Mantra", m, Put<string, Record>(Nil, "Arnold", a));
    assert Keys(Cons("Arnold", a, Nil)) == ["Arnold"] + Keys<string, Record>(Nil);
    assert Keys(r) == ["Mantra"] + Keys(Cons("Arnold", a, Nil));
  }

  /** One turn of the light loop. */
  function ExportLight(s: Scene, doc: LightData, transform: string, shape: string): Result<LightRecord> {
    var nodeType := s.nodeType(shape);
    var t := s.worldTranslation(transform);
    match Renderers(s, doc, shape, transform, nodeType, t, Keys(doc), Nil, Nil)
    case Err(e) => Err(e)
    case Ok(ma) =>
      match ColourPolicy(s, doc, transform, ma.0, ma.1)
      case Err(e) => Err(e)
      case Ok(ma') => Ok(LightRecordOf(ma'.0, ma'.1))
  }

  /** The light loop from turn `i` on, into `out`. */
  function ExportFrom(s: Scene, doc: LightData, l: LightLists, i: nat, out: Export): Result<Export>
    decreases |l.transforms| - i
  {
    if i >= |l.transforms| then Ok(out)
    else if i >= |l.shapes| || i >= |l.names| then Err(IndexError)
    else
      match ExportLight(s, doc, l.transforms[i], l.shapes[i])
      case Err(e) => Err(e)
      case Ok(rec) => ExportFrom(s, doc, l, i + 1, Put(out, l.names[i], rec))
  }

  /** `export_json_file`, up to the file write: the document it dumps. */
  function ExportSpec(s: Scene, doc: LightData): Result<Export> {
    match LightsListSpec(s)
    case Err(e) => Err(e)
    case Ok(l) => ExportFrom(s, doc, l, 0, Nil)
  }

  /** The parm loop of one renderer branch, after the tag is known. */
  method ReadRenderer(s: Scene, doc: LightData, renderer: string, tag: string, transform: string,
                      t: (real, real, real), rec: Record) returns (r: Result<Record>)
    ensures CatalogKeys(doc, renderer, tag).Err? ==> r == Err(CatalogKeys(doc, renderer, tag).error)
    ensures CatalogKeys(doc, renderer, tag).Ok? ==> r == ReadParms(s, transform, t, CatalogKeys(doc, renderer, tag).value, rec)
  {
    var parms := CatalogKeys(doc, renderer, tag);
    if parms.Err? {
      return Err(parms.error);
    }
    r := ReadParmsInto(s, transform, t, parms.value, rec);
  }

  /** The renderer loop of one light. */
  method RendererLoop(s: Scene, doc: LightData, shape: string, transform: string, nodeType: string,
                      t: (real, real, real)) returns (r: Result<(Record, Record)>)
    ensures r == Renderers(s, doc, shape, transform, nodeType, t, Keys(doc), Nil, Nil)
  {
    var renderers := Keys(doc);
    var m: Record := Nil;
    var a: Record := Nil;
    for j := 0 to |renderers|
      invariant Renderers(s, doc, shape, transform, nodeType, t, renderers, Nil, Nil) == Renderers(s, doc, shape, transform, nodeType, t, renderers[j..], m, a)
    {
      assert renderers[j..][1..] == renderers[j + 1..];
      if renderers[j] == "Arnold" {
        a := Put(a, LightParms.nodeType, Str(nodeType));
        var tag := ArnoldTag(s, shape, nodeType);
        if tag.Err? {
          return Err(tag.error);
        }
        a := Put(a, LightParms.nodeType, Str(tag.value));
        var rec := ReadRenderer(s, doc, "Arnold", tag.value, transform, t, a);
        if rec.Err? {
          return Err(rec.error);
        }
        a := rec.value;
      } else if renderers[j] == "Mantra" {
        var tag := MantraTag(s, shape, transform, nodeType);
        if tag.Err? {
          return Err(tag.error);
        }
        if tag.value.None? {
          return Err(KeyError);
        }
        m := Put(m, LightParms.nodeType, Str(tag.value.value));
        var rec := ReadRenderer(s, doc, "Mantra", tag.value.value, transform, t, m);
        if rec.Err? {
          return Err(rec.error);
        }
        m := rec.value;
      }
    }
    assert renderers[|renderers|..] == [];
    r := Ok((m, a));
  }

  /** `for parm, value in zip(keys, vals)`, into both records. */
  method ZipInto(keys: seq<Attr>, vals: seq<Value>, m: Record, a: Record) returns (mantra: Record, arnold: Record)
    ensures mantra == ZipPut(keys, vals, m) && arnold == ZipPut(keys, vals, a)
  {
    mantra, arnold := m, a;
    var n := if |keys| < |vals| then |keys| else |vals|;
    for i := 0 to n
      invariant ZipPut(keys, vals, m) == ZipPut(keys[i..], vals[i..], mantra)
      invariant ZipPut(keys, vals, a) == ZipPut(keys[i..], vals[i..], arnold)
    {
      assert keys[i..][1..] == keys[i + 1..] && vals[i..][1..] == vals[i + 1..];
      mantra := Put(mantra, keys[i], vals[i]);
      arnold := Put(arnold, keys[i], vals[i]);
    }
    assert keys[n..] == [] || vals[n..] == [];
  }

  /** `for color in keys: record[color] = v`. */
  method SetAll(keys: seq<Attr>, v: Value, d: Record) returns (updated: Record)
    ensures updated == PutAll(keys, v, d)
  {
    updated := d;
    for i := 0 to |keys|
      invariant PutAll(keys, v, d) == PutAll(keys[i..], v, updated)
    {
      assert keys[i..][1..] == keys[i + 1..];
      updated := Put(updated, keys[i], v);
    }
    assert keys[|keys|..] == [];
  }

  /** The colour loop reading the scene colours into both records. */
  method ReadColoursInto(s: Scene, node: string, keys: seq<Attr>, m: Record, a: Record)
    returns (r: Result<(Record, Record)>)
    ensures r == ReadColours(s, node, keys, m, a)
  {
    var mantra, arnold := m, a;
    for i := 0 to |keys|
      invariant ReadColours(s, node, keys, m, a) == ReadColours(s, node, keys[i..], mantra, arnold)
    {
      assert keys[i..][1..] == keys[i + 1..];
      var v := GetAttr(s, node, keys[i]);
      if v.Err? {
        return Err(v.error);
      }
      mantra := Put(mantra, keys[i], v.value);
      arnold := Put(arnold, keys[i], v.value);
    }
    assert keys[|keys|..] == [];
    r := Ok((mantra, arnold));
  }

  /** The colour and texture step of one light. */
  method ApplyColourPolicy(s: Scene, doc: LightData, transform: string, m: Record, a: Record)
    returns (r: Result<(Record, Record)>)
    ensures r == ColourPolicy(s, doc, transform, m, a)
  {
    var src := s.colorSource(transform);
    var useTemp := GetAttr(s, transform, aiUseColorTemperature);
    if useTemp.Err? {
      return Err(useTemp.error);
    }
    var m1, a1 := m, a;
    if src != "" || Truthy(useTemp.value) {
      if Truthy(useTemp.value) {
        var kelvin := GetAttr(s, transform, aiColorTemperature);
        if kelvin.Err? {
          return Err(kelvin.error);
        }
        var keys := ColourKeys(doc);
        if keys.Err? {
          return Err(keys.error);
        }
        m1, a1 := ZipInto(keys.value, Rgb(s.temperatureToColor(kelvin.value)), m1, a1);
        if src == "" {
          return Ok((m1, a1));
        }
        m1 := Put(m1, texture_map, Str(""));
        a1 := Put(a1, texture_map, Str(""));
      }
      var node := FileNodeOf(src);
      var path := TexturePath(s, node);
      if path.Err? {
        return Err(path.error);
      }
      var keys := ColourKeys(doc);
      if keys.Err? {
        return Err(keys.error);
      }
      m1 := SetAll(keys.value, Num(1.0), m1);
      a1 := SetAll(keys.value, Num(1.0), a1);
      m1 := Put(m1, texture_node, Str(node));
      m1 := Put(m1, texture_map, path.value);
      a1 := Put(a1, texture_map, path.value);
      r := Ok((m1, a1));
    } else {
      var keys := ColourKeys(doc);
      if keys.Err? {
        return Err(keys.error);
      }
      r := ReadColoursInto(s, transform, keys.value, m, a);
    }
  }

  /** `export_json_file(path)` up to the file write: the document it dumps. */
  method ExportJsonFile(s: Scene, doc: LightData) returns (r: Result<Export>)
    ensures r == ExportSpec(s, doc)
  {
    var lists := LightsList(s);
    if lists.Err? {
      return Err(lists.error);
    }
    var l := lists.value;
    var out: Export := Nil;
    for i := 0 to |l.transforms|
      invariant ExportSpec(s, doc) == ExportFrom(s, doc, l, i, out)
    {
      if i >= |l.shapes| || i >= |l.names| {
        return Err(IndexError);
      }
      var nodeType := s.nodeType(l.shapes[i]);
      var t := s.worldTranslation(l.transforms[i]);
      var ma := RendererLoop(s, doc, l.shapes[i], l.transforms[i], nodeType, t);
      if ma.Err? {
        return Err(ma.error);
      }
      var coloured := ApplyColourPolicy(s, doc, l.transforms[i], ma.value.0, ma.value.1);
      if coloured.Err? {
        return Err(coloured.error);
      }
      out := Put(out, l.names[i], LightRecordOf(coloured.value.0, coloured.value.1));
    }
    r := Ok(out);
  }

  /** The records of the turns from `i` on, when every one of them succeeds. */
  ghost function TurnRecords(s: Scene, doc: LightData, l: LightLists, i: nat): seq<LightRecord>
    requires |l.transforms| == |l.shapes| && i <= |l.transforms|
    requires forall j :: i <= j < |l.transforms| ==> ExportLight(s, doc, l.transforms[j], l.shapes[j]).Ok?
  {
    seq(|l.transforms| - i, j requires 0 <= j < |l.transforms| - i => ExportLight(s, doc, l.transforms[i + j], l.shapes[i + j]).value)
  }

  lemma TurnRecordsStep(s: Scene, doc: LightData, l: LightLists, i: nat)
    requires |l.transforms| == |l.shapes| && i < |l.transforms|
    requires forall j :: i <= j < |l.transforms| ==> ExportLight(s, doc, l.transforms[j], l.shapes[j]).Ok?
    ensures TurnRecords(s, doc, l, i)[0] == ExportLight(s, doc, l.transforms[i], l.shapes[i]).value
    ensures TurnRecords(s, doc, l, i)[1..] == TurnRecords(s, doc, l, i + 1)
  {
  }

  /** A successful loop is every turn succeeding, then the records assigned under the names
      in turn order. */
  lemma {:induction false} ExportFromLaw(s: Scene, doc: LightData, l: LightLists, i: nat, out: Export)
    requires |l.transforms| == |l.shapes| == |l.names| && i <= |l.transforms|
    requires ExportFrom(s, doc, l, i, out).Ok?
    ensures forall j :: i <= j < |l.transforms| ==> ExportLight(s, doc, l.transforms[j], l.shapes[j]).Ok?
    ensures ExportFrom(s, doc, l, i, out).value == PutEach(l.names[i..], TurnRecords(s, doc, l, i), out)
    decreases |l.transforms| - i
  {
    if i < |l.transforms| {
      var rec := ExportLight(s, doc, l.transforms[i], l.shapes[i]).value;
      var out' := Put(out, l.names[i], rec);
      assert ExportFrom(s, doc, l, i, out) == ExportFrom(s, doc, l, i + 1, out');
      ExportFromLaw(s, doc, l, i + 1, out');
      assert l.names[i..][1..] == l.names[i + 1..];
      TurnRecordsStep(s, doc, l, i);
    } else {
      assert l.names[i..] == [];
    }
  }

  /** The exported document has one entry per distinct light name and no other, in the
      order in which the names first occur (the order `json.dump` writes), each taken from
      the last light with that name (a later light replaces an earlier one) and holding the
      Mantra record then the Arnold record of that light. */
  lemma ExportLaw(s: Scene, doc: LightData)
    requires ExportSpec(s, doc).Ok?
    ensures var l := LightsListSpec(s).value;
            var out := ExportSpec(s, doc).value;
            && DistinctKeys(out)
            && Keys(out) == FirstOccurrences(l.names)
            && (forall k :: Get(out, k).Some? ==> k in l.names)
            && forall j :: 0 <= j < |l.names| && LastOccurrence(l.names, j) ==>
                 ExportLight(s, doc, l.transforms[j], l.shapes[j]).Ok? &&
                 Get(out, l.names[j]) == Some(ExportLight(s, doc, l.transforms[j], l.shapes[j]).value) &&
                 Keys(Get(out, l.names[j]).value) == ["Mantra", "Arnold"]
  {
    LightsListLaw(s);
    LoopLaw(s, doc, LightsListSpec(s).value);
  }

  /** `ExportLaw` for the loop over given parallel lists. */
  lemma LoopLaw(s: Scene, doc: LightData, l: LightLists)
    requires |l.transforms| == |l.shapes| == |l.names|
    requires ExportFrom(s, doc, l, 0, Nil).Ok?
    ensures var out := ExportFrom(s, doc, l, 0, Nil).value;
            && DistinctKeys(out)
            && Keys(out) == FirstOccurrences(l.names)
            && (forall k :: Get(out, k).Some? ==> k in l.names)
            && forall j :: 0 <= j < |l.names| && LastOccurrence(l.names, j) ==>
                 ExportLight(s, doc, l.transforms[j], l.shapes[j]).Ok? &&
                 Get(out, l.names[j]) == Some(ExportLight(s, doc, l.transforms[j], l.shapes[j]).value) &&
                 Keys(Get(out, l.names[j]).value) == ["Mantra", "Arnold"]
  {
    ExportFromLaw(s, doc, l, 0, Nil);
    var recs := TurnRecords(s, doc, l, 0);
    assert l.names[0..] == l.names;
    PutEachLaw(l.names, recs, Nil);
    PutEachKeys(l.names, recs);
    forall j | 0 <= j < |l.names| && LastOccurrence(l.names, j)
      ensures Keys(Get(ExportFrom(s, doc, l, 0, Nil).value, l.names[j]).value) == ["Mantra", "Arnold"]
    {
      assert recs[j] == ExportLight(s, doc, l.transforms[j], l.shapes[j]).value;
      LightRecordKeys(s, doc, l.transforms[j], l.shapes[j]);
    }
  }

  /** A light's entry holds `Mantra` then `Arnold`. */
  lemma LightRecordKeys(s: Scene, doc: LightData, transform: string, shape: string)
    requires ExportLight(s, doc, transform, shape).Ok?
    ensures Keys(ExportLight(s, doc, transform, shape).value) == ["Mantra", "Arnold"]
  {
    var ma := Renderers(s, doc, shape, transform, s.nodeType(shape), s.worldTranslation(transform), Keys(doc), Nil, Nil).value;
    var ma' := ColourPolicy(s, doc, transform, ma.0, ma.1).value;
    LightRecordOfLaw(ma'.0, ma'.1);
  }
}
