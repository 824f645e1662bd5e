/**
 * The Maya side of the transfer: the scene as the extractor sees it, and `lights_list`,
 * which turns the selected light shapes into transform paths, shape paths and export
 * names.
 */
module MayaLights {
  import opened PyValues
  import opened LightParms

  /** What the extractor asks Maya.  Every node it names comes from Maya itself (a
      relative of the selection, a parent, a connected node), so node types, parents,
      world positions and colour connections are total; attribute reads can fail. */
  datatype Scene = Scene(
    lightShapes: seq<string>,                       // light shapes under the selection, full paths
    nodeType: string -> string,                     // `cmds.nodeType`
    parent: string -> string,                       // the transform above a shape, full path
    attrs: map<(string, Attr), Value>,              // `cmds.getAttr("node.attr")`
    worldTranslation: string -> (real, real, real), // `cmds.xform(.., translation, worldSpace)`
    colorSource: string -> string,                  // the plug feeding `node.color`, or ""
    temperatureToColor: Value -> (real, real, real) // `cmds.arnoldTemperatureToColor`
  )

  /** `cmds.getAttr("node.attr")`: fails on an attribute the node does not have. */
  function GetAttr(s: Scene, node: string, a: Attr): Result<Value> {
    if (node, a) in s.attrs then Ok(s.attrs[(node, a)]) else Err(HostError("getAttr"))
  }

  /** `path.replace("|", "_")`. */
  function ReplaceBars(path: string): (r: string)
    ensures |r| == |path|
    ensures forall i :: 0 <= i < |path| ==> r[i] == if path[i] == '|' then '_' else path[i]
  {
    if path == [] then [] else [if path[0] == '|' then '_' else path[0]] + ReplaceBars(path[1..])
  }

  /** `path.replace("|", "_")[1:]`: the export name of a transform. */
  function Sanitize(path: string): string {
    var r := ReplaceBars(path);
    if |r| == 0 then "" else r[1..]
  }

  /** A name is the path without its first character, every `|` turned into `_`; it never
      contains a `|`. */
  lemma SanitizeLaw(path: string)
    ensures |Sanitize(path)| == if path == [] then 0 else |path| - 1
    ensures forall i :: 0 <= i < |Sanitize(path)| ==>
              Sanitize(path)[i] == if path[i + 1] == '|' then '_' else path[i + 1]
    ensures '|' !in Sanitize(path)
  {
    var r := ReplaceBars(path);
    if |r| != 0 {
      forall i | 0 <= i < |Sanitize(path)|
        ensures Sanitize(path)[i] == if path[i + 1] == '|' then '_' else path[i + 1]
      {
        assert Sanitize(path)[i] == r[i + 1];
      }
    }
  }

  /** The shapes the first loop keeps: those whose node type is not `volumeLight`, in order. */
  function KeepLights(s: Scene, shapes: seq<string>): seq<string> {
    if shapes == [] then []
    else
      var last := shapes[|shapes| - 1];
      KeepLights(s, shapes[..|shapes| - 1]) + (if s.nodeType(last) != "volumeLight" then [last] else [])
  }

  /** A shape is kept exactly when it was listed and is not a volume light. */
  lemma {:induction false} KeepLightsMembers(s: Scene, shapes: seq<string>)
    ensures forall x :: x in KeepLights(s, shapes) <==> x in shapes && s.nodeType(x) != "volumeLight"
    ensures |KeepLights(s, shapes)| <= |shapes|
  {
    if shapes != [] {
      var init := shapes[..|shapes| - 1];
      KeepLightsMembers(s, init);
      assert shapes == init + [shapes[|shapes| - 1]];
    }
  }

  /** Without volume lights in the list, every shape is kept in its place. */
  lemma {:induction false} KeepLightsNoVolume(s: Scene, shapes: seq<string>)
    requires forall i :: 0 <= i < |shapes| ==> s.nodeType(shapes[i]) != "volumeLight"
    ensures KeepLights(s, shapes) == shapes
  {
    if shapes != [] {
      KeepLightsNoVolume(s, shapes[..|shapes| - 1]);
      assert shapes == shapes[..|shapes| - 1] + [shapes[|shapes| - 1]];
    }
  }

  /** The three parallel lists `lights_list` returns. */
  datatype LightLists = LightLists(transforms: seq<string>, shapes: seq<string>, names: seq<string>)

  /** `lights_list()`.  Maya answers `listRelatives` on an empty list with `None`, and the
      name loop cannot iterate `None`: no light left after the filter is a TypeError. */
  function LightsListSpec(s: Scene): Result<LightLists> {
    var shapes := KeepLights(s, s.lightShapes);
    if shapes == [] then Err(TypeError)
    else
      var transforms := seq(|shapes|, i requires 0 <= i < |shapes| => s.parent(shapes[i]));
      Ok(LightLists(transforms, shapes, seq(|shapes|, i requires 0 <= i < |shapes| => Sanitize(transforms[i]))))
  }

  /** The two loops of `lights_list`: the filter and the renaming. */
  method LightsList(s: Scene) returns (r: Result<LightLists>)
    ensures r == LightsListSpec(s)
  {
    var lights := s.lightShapes;
    var allLights: seq<string> := [];
    if |lights| > 0 {
      for i := 0 to |lights|
        invariant allLights == KeepLights(s, lights[..i])
      {
        assert lights[..i + 1][..i] == lights[..i];
        if s.nodeType(lights[i]) != "volumeLight" {
          allLights := allLights + [lights[i]];
        }
      }
    }
    assert lights[..|lights|] == lights;
    if allLights == [] {
      return Err(TypeError);
    }
    var transforms := seq(|allLights|, i requires 0 <= i < |allLights| => s.parent(allLights[i]));
    var names: seq<string> := [];
    for i := 0 to |transforms|
      invariant |names| == i
      invariant forall j :: 0 <= j < i ==> names[j] == Sanitize(transforms[j])
    {
      names := names + [Sanitize(transforms[i])];
    }
    assert names == seq(|allLights|, i requires 0 <= i < |allLights| => Sanitize(transforms[i]));
    r := Ok(LightLists(transforms, allLights, names));
  }

  /** On success the three lists line up: the `i`-th transform is the parent of the `i`-th
      kept shape and the `i`-th name is that transform's sanitized path; the kept shapes
      are exactly the listed non-volume shapes; the call fails only when none is left. */
  lemma LightsListLaw(s: Scene)
    ensures LightsListSpec(s).Err? <==> forall x :: x in s.lightShapes ==> s.nodeType(x) == "volumeLight"
    ensures LightsListSpec(s).Err? ==> LightsListSpec(s).error == TypeError
    ensures LightsListSpec(s).Ok? ==>
              var l := LightsListSpec(s).value;
              && |l.transforms| == |l.shapes| == |l.names| > 0
              && (forall x :: x in l.shapes <==> x in s.lightShapes && s.nodeType(x) != "volumeLight")
              && (forall i :: 0 <= i < |l.shapes| ==>
                    l.transforms[i] == s.parent(l.shapes[i]) && l.names[i] == Sanitize(l.transforms[i]))
  {
    KeepLightsMembers(s, s.lightShapes);
    if KeepLights(s, s.lightShapes) != [] {
      assert KeepLights(s, s.lightShapes)[0] in KeepLights(s, s.lightShapes);
    }
  }
}
