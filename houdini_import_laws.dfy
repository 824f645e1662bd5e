/**
 * What `import_json_file` does to the Houdini scene as a whole: each light node is destroyed
 * before it is created, so nothing of an older node of the same name survives; the parm
 * sets of a record key land on the light node and nowhere else; nodes that are no light of
 * the document keep their parms; and a run without exception leaves every light it created
 * in the scene.
 */
module HoudiniImportLaws {
  import opened PyValues
  import opened LightParms
  import opened HoudiniHost
  import opened HoudiniImport
  import MayaExport

  /** `r` differs from `st` only in the nodes named in `names`; texture nodes under `/mat`
      are never removed or changed. */
  ghost predicate Keeps(st: HouState, r: HouState, names: set<string>) {
    && (forall n :: n !in names ==> (n in r.obj <==> n in st.obj))
    && (forall n :: n !in names && n in st.obj ==> r.obj[n] == st.obj[n])
    && (forall n :: n in st.mat ==> n in r.mat && r.mat[n] == st.mat[n])
  }

  /** Parm sets on the node `name`: the same nodes exist, each other node is untouched, and
      `name` keeps its type. */
  ghost predicate ParmFrame(st: HouState, r: HouState, name: string) {
    && Keeps(st, r, {name})
    && (name in r.obj <==> name in st.obj)
    && (name in st.obj ==> r.obj[name].nodeType == st.obj[name].nodeType)
  }

  lemma KeepsTransitive(a: HouState, b: HouState, c: HouState, x: set<string>, y: set<string>)
    requires Keeps(a, b, x) && Keeps(b, c, y)
    ensures Keeps(a, c, x + y)
  {
  }

  /** One action touches only its light node (and may add a texture node). */
  lemma ApplyFrame(st: HouState, name: string, a: Action)
    ensures ParmFrame(st, Apply(st, name, a), name)
  {
  }

  /** One action sets on the light node the parms `Effect` gives it. */
  lemma ApplyParms(st: HouState, name: string, a: Action)
    requires name in st.obj
    ensures name in Apply(st, name, a).obj
    ensures Apply(st, name, a).obj[name] == SetAll(st.obj[name], [a])
  {
    EffectSnoc([], a);
    assert [] + [a] == [a];
    if a.SetParm? {
      assert st.obj[name].parms[a.parm := a.value] == st.obj[name].parms + map[a.parm := a.value];
    }
  }

  /** The actions of a record key, applied one by one to the scene, change nothing but the
      light node's parms (and may add texture nodes). */
  lemma {:induction false} ApplyAllFrame(st: HouState, name: string, acts: seq<Action>)
    ensures ParmFrame(st, ApplyAll(st, name, acts), name)
    decreases |acts|
  {
    if acts != [] {
      ApplyFrame(st, name, acts[0]);
      ApplyAllFrame(Apply(st, name, acts[0]), name, acts[1..]);
    }
  }

  /** Setting the parms of two action lists in a row is setting those of both at once. */
  lemma SetAllAppend(node: Node, xs: seq<Action>, ys: seq<Action>)
    ensures SetAll(SetAll(node, xs), ys) == SetAll(node, xs + ys)
  {
    EffectAppend(xs, ys);
    assert node.parms + Effect(xs) + Effect(ys) == node.parms + (Effect(xs) + Effect(ys));
  }

  /** The actions of a record key, applied one by one to the scene, set on the light node
      exactly the parms `Effect` gives them. */
  lemma {:induction false} ApplyAllLaw(st: HouState, name: string, acts: seq<Action>)
    requires name in st.obj
    ensures name in ApplyAll(st, name, acts).obj
    ensures ApplyAll(st, name, acts).obj[name] == SetAll(st.obj[name], acts)
    decreases |acts|
  {
    if acts == [] {
      assert st.obj[name].parms + Effect([]) == st.obj[name].parms;
    } else {
      var st1 := Apply(st, name, acts[0]);
      ApplyParms(st, name, acts[0]);
      ApplyAllLaw(st1, name, acts[1..]);
      assert ApplyAll(st, name, acts) == ApplyAll(st1, name, acts[1..]);
      SetAllAppend(st.obj[name], [acts[0]], acts[1..]);
      assert [acts[0]] + acts[1..] == acts;
    }
  }

  /** The parm loop of one light touches only that light's node and keeps its type. */
  lemma {:induction false} ParmLoopFrame(c: Ctx, st: HouState, name: string, cells: MayaExport.Record)
    ensures ParmFrame(st, ParmLoop(c, st, name, cells).0, name)
    decreases cells
  {
    match cells
    case Nil =>
    case Cons(parm, value, rest) =>
      match Rule(c, LightNode(st, name), parm, value)
      case Err(e) =>
      case Ok(acts) =>
        var st1 := ApplyAll(st, name, acts);
        ApplyAllFrame(st, name, acts);
        ParmLoopFrame(c, st1, name, rest);
  }

  /** The node type the catalog gives the Mantra light of a record:
      `light_data["Mantra"][nodeType]["light_node_type"]`. */
  function MantraNodeType(doc: LightData, rec: MayaExport.Record): Result<string> {
    match Lookup(rec, nodeType)
    case Err(e) => Err(e)
    case Ok(tag) =>
      match EntryFor(doc, "Mantra", tag)
      case Err(e) => Err(e)
      case Ok(entry) =>
        match Lookup(entry, "light_node_type")
        case Err(e) => Err(e)
        case Ok(f) => if f.Text? then Ok(f.s) else Err(TypeError)
  }

  /** Destroying twice is destroying once. */
  lemma DestroyedTwice(st: HouState, name: string)
    ensures Destroyed(Destroyed(st, name), name) == Destroyed(st, name)
  {
    assert Destroyed(Destroyed(st, name), name).obj == Destroyed(st, name).obj;
  }

  /** The Mantra light of `light`, `mantra_<light>`: an older node of that name makes no
      difference, since it is destroyed first; when the catalog gives no node type the run
      stops with that error having only destroyed the old node; otherwise the node is
      created with the catalog's type, reported as the one node created, and is the only
      node the parm loop changes. */
  lemma MantraLightLaw(s: Settings, st: HouState, light: string, rec: MayaExport.Record)
    ensures MantraLight(s, st, light, rec) == MantraLight(s, Destroyed(st, "mantra_" + light), light, rec)
    ensures MantraNodeType(s.doc, rec).Err? ==>
              MantraLight(s, st, light, rec)
              == Run(Destroyed(st, "mantra_" + light), [], Some(MantraNodeType(s.doc, rec).error))
    ensures MantraNodeType(s.doc, rec).Ok? ==>
              var r := MantraLight(s, st, light, rec);
              && r.nodes == ["mantra_" + light]
              && "mantra_" + light in r.st.obj
              && r.st.obj["mantra_" + light].nodeType == MantraNodeType(s.doc, rec).value
    ensures Keeps(st, MantraLight(s, st, light, rec).st, {"mantra_" + light})
  {
    var name := "mantra_" + light;
    DestroyedTwice(st, name);
    if MantraNodeType(s.doc, rec).Ok? {
      var tag := Lookup(rec, nodeType).value;
      var st2 := Created(Destroyed(st, name), name, MantraNodeType(s.doc, rec).value);
      var st3 := if tag != Str("aiSkyDomeLight") then Apply(st2, name, SetParm("iconscale", Num(s.scale))) else st2;
      ApplyFrame(st2, name, SetParm("iconscale", Num(s.scale)));
      ParmLoopFrame(Ctx(s.t, s.doc, "Mantra", rec, tag, s.scale, s.parmDefault), st3, name, rec);
    }
  }

  /** The Arnold light of `light`, `arnold_<light>`: an older node of that name makes no
      difference; the node is always created as an `arnold_light` and reported, even when the
      record then fails, and it is the only node the run changes. */
  lemma ArnoldLightLaw(s: Settings, st: HouState, light: string, rec: MayaExport.Record)
    ensures ArnoldLight(s, st, light, rec) == ArnoldLight(s, Destroyed(st, "arnold_" + light), light, rec)
    ensures var r := ArnoldLight(s, st, light, rec);
            && r.nodes == ["arnold_" + light]
            && "arnold_" + light in r.st.obj
            && r.st.obj["arnold_" + light].nodeType == "arnold_light"
    ensures Keeps(st, ArnoldLight(s, st, light, rec).st, {"arnold_" + light})
    ensures Lookup(rec, nodeType).Err? ==>
              ArnoldLight(s, st, light, rec).error == Some(KeyError)
              && ArnoldLight(s, st, light, rec).st.obj["arnold_" + light] == Node("arnold_light", map[])
  {
    var name := "arnold_" + light;
    DestroyedTwice(st, name);
    var st2 := Created(Destroyed(st, name), name, "arnold_light");
    if Lookup(rec, nodeType).Ok? {
      var tag := Lookup(rec, nodeType).value;
      var st3 := if tag != Str("aiSkyDomeLight") then Apply(st2, name, SetParm("l_iconscale", Num(s.scale))) else st2;
      ApplyFrame(st2, name, SetParm("l_iconscale", Num(s.scale)));
      ParmLoopFrame(Ctx(s.t, s.doc, "Arnold", rec, tag, s.scale, s.parmDefault), st3, name, rec);
    }
  }

  /** The names of the light nodes a document's light `light` can own. */
  function OwnedBy(light: string): set<string> {
    {"mantra_" + light, "arnold_" + light}
  }

  /** The names of the light nodes a document can create. */
  function Owned(doc: MayaExport.Export): set<string>
    decreases doc
  {
    match doc
    case Nil => {}
    case Cons(light, _, rest) => OwnedBy(light) + Owned(rest)
  }

  /** Every name in `nodes` is a node of the scene. */
  predicate AllPresent(st: HouState, nodes: seq<string>) {
    forall i :: 0 <= i < |nodes| ==> nodes[i] in st.obj
  }

  /** One renderer record: only the light's own nodes change; without an exception every
      node already present stays present and the nodes it reports exist. */
  lemma RendererStepLaw(s: Settings, st: HouState, light: string, renderer: string, rec: MayaExport.Record)
    ensures Keeps(st, RendererStep(s, st, light, renderer, rec).st, OwnedBy(light))
    ensures var r := RendererStep(s, st, light, renderer, rec);
            r.error.None? ==> AllPresent(r.st, r.nodes) && forall n :: n in st.obj ==> n in r.st.obj
  {
    if renderer == "Mantra" && s.mantraCheck {
      MantraLightLaw(s, st, light, rec);
    } else if renderer == "Arnold" && s.arnoldCheck {
      ArnoldLightLaw(s, st, light, rec);
    }
  }

  /** The renderer loop of one light: only the light's own nodes change; without an exception
      the nodes reported before and the ones it creates all exist. */
  lemma {:induction false} RendererLoopLaw(s: Settings, st: HouState, nodes: seq<string>, light: string,
                                           cells: MayaExport.LightRecord)
    requires AllPresent(st, nodes)
    ensures Keeps(st, RendererLoop(s, st, nodes, light, cells).st, OwnedBy(light))
    ensures var r := RendererLoop(s, st, nodes, light, cells);
            r.error.None? ==> AllPresent(r.st, r.nodes)
    decreases cells
  {
    match cells
    case Nil =>
    case Cons(renderer, rec, rest) =>
      var r := RendererStep(s, st, light, renderer, rec);
      RendererStepLaw(s, st, light, renderer, rec);
      if r.error.None? {
        RendererLoopLaw(s, r.st, nodes + r.nodes, light, rest);
        KeepsTransitive(st, r.st, RendererLoop(s, r.st, nodes + r.nodes, light, rest).st, OwnedBy(light), OwnedBy(light));
        assert OwnedBy(light) + OwnedBy(light) == OwnedBy(light);
      }
  }

  /** The light loop: nodes that are no light of the remaining document keep their parms;
      without an exception every node reported exists at the end. */
  lemma {:induction false} LightsLoopLaw(s: Settings, st: HouState, nodes: seq<string>, cells: MayaExport.Export)
    requires AllPresent(st, nodes)
    ensures Keeps(st, LightsLoop(s, st, nodes, cells).st, Owned(cells))
    ensures var r := LightsLoop(s, st, nodes, cells);
            r.error.None? ==> AllPresent(r.st, r.nodes)
    decreases cells
  {
    match cells
    case Nil =>
    case Cons(light, lr, rest) =>
      var r := RendererLoop(s, st, nodes, light, lr);
      RendererLoopLaw(s, st, nodes, light, lr);
      if r.error.None? {
        LightsLoopLaw(s, r.st, r.nodes, rest);
        KeepsTransitive(st, r.st, LightsLoop(s, r.st, r.nodes, rest).st, OwnedBy(light), Owned(rest));
      } else {
        assert OwnedBy(light) <= Owned(cells);
      }
  }

  /** `import_json_file`: a node of the scene that is not `mantra_<light>` or
      `arnold_<light>` for a light of the document is neither removed, created nor changed;
      texture nodes are never removed or changed; and when no exception stops the import,
      every light node it reports is in the scene. */
  lemma ImportLaw(s: Settings, st: HouState, doc: MayaExport.Export)
    ensures Keeps(st, ImportSpec(s, st, doc).st, Owned(doc))
    ensures ImportSpec(s, st, doc).error.None? ==> AllPresent(ImportSpec(s, st, doc).st, ImportSpec(s, st, doc).nodes)
  {
    LightsLoopLaw(s, st, [], doc);
  }
}
