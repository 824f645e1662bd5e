/**
 * `import_json_file`: for every exported light and every renderer record it holds, the
 * Houdini light of that renderer is destroyed if present, created anew and set up parm by
 * parm.  The scene is a class over the `/obj` and `/mat` networks whose methods follow the
 * script's loops; each is proved equal to a function of the scene it starts from.
 */
module HoudiniImport {
  import opened PyValues
  import opened LightParms
  import opened Transcendentals
  import opened HoudiniHost
  import MantraRules
  import ArnoldRules
  import MayaExport

  /** The two node networks the import works on. */
  datatype HouState = HouState(obj: map<string, Node>, mat: map<string, Node>)

  /** Where an import stops: the networks, the light nodes created (in order), and the
      exception that ended it early, if any. */
  datatype Run = Run(st: HouState, nodes: seq<string>, error: Option<Error>)

  /** The inputs of `import_json_file` besides the document: the exponential and logarithm,
      the catalog, the scene scale, the two renderer check boxes, and Houdini's parm
      defaults. */
  datatype Settings = Settings(
    t: Transcendental,
    doc: LightData,
    scale: real,
    mantraCheck: bool,
    arnoldCheck: bool,
    parmDefault: (string, string) -> Value
  )

  /** The node called `name` under `/obj`, or an empty stand-in when there is none. */
  function LightNode(st: HouState, name: string): Node {
    if name in st.obj then st.obj[name] else Node("", map[])
  }

  /** One action on the light node `name`.  A texture node under `/mat` is reused when one
      of that name exists, and otherwise created with `orient` 1 and `map` the path. */
  function Apply(st: HouState, name: string, a: Action): HouState {
    match a
    case SetParm(p, v) =>
      if name in st.obj then st.(obj := st.obj[name := st.obj[name].(parms := st.obj[name].parms[p := v])]) else st
    case UseTexture(n, path) =>
      if n in st.mat then st
      else st.(mat := st.mat[n := Node("texture::2.0", map["orient" := Num(1.0), "map" := path])])
  }

  /** The actions of one record key, in order. */
  function ApplyAll(st: HouState, name: string, acts: seq<Action>): HouState
    decreases |acts|
  {
    if acts == [] then st else ApplyAll(Apply(st, name, acts[0]), name, acts[1..])
  }

  /** The rule of the renderer the context is for. */
  function Rule(c: Ctx, node: Node, parm: Attr, value: Value): Result<seq<Action>> {
    if c.renderer == "Mantra" then MantraRules.MantraRule(c, node, parm, value) else ArnoldRules.ArnoldRule(c, parm, value)
  }

  /** `for parm, value in record.items()`: the rules in record order, stopping at the first
      exception. */
  function ParmLoop(c: Ctx, st: HouState, name: string, cells: MayaExport.Record): (HouState, Option<Error>)
    decreases cells
  {
    match cells
    case Nil => (st, None)
    case Cons(parm, value, rest) =>
      match Rule(c, LightNode(st, name), parm, value)
      case Err(e) => (st, Some(e))
      case Ok(acts) => ParmLoop(c, ApplyAll(st, name, acts), name, rest)
  }

  /** `obj.node(name).destroy()` when the node exists. */
  function Destroyed(st: HouState, name: string): HouState {
    st.(obj := st.obj - {name})
  }

  /** `obj.createNode(nodeType, name)`, on a network without a node of that name. */
  function Created(st: HouState, name: string, nodeType: string): HouState {
    st.(obj := st.obj[name := Node(nodeType, map[])])
  }

  /** The Mantra light of `light`: destroyed, created with the catalog's node type for its
      `nodeType`, given the scene scale as icon scale (not for a sky dome), then the parm
      loop. */
  function MantraLight(s: Settings, st: HouState, light: string, rec: MayaExport.Record): Run {
    var name := "mantra_" + light;
    var st1 := Destroyed(st, name);
    match Lookup(rec, nodeType)
    case Err(e) => Run(st1, [], Some(e))
    case Ok(tag) =>
      match EntryFor(s.doc, "Mantra", tag)
      case Err(e) => Run(st1, [], Some(e))
      case Ok(entry) =>
        match Lookup(entry, "light_node_type")
        case Err(e) => Run(st1, [], Some(e))
        case Ok(f) =>
          if !f.Text? then Run(st1, [], Some(TypeError))
          else
            var st2 := Created(st1, name, f.s);
            var st3 := if tag != Str("aiSkyDomeLight") then Apply(st2, name, SetParm("iconscale", Num(s.scale))) else st2;
            var r := ParmLoop(Ctx(s.t, s.doc, "Mantra", rec, tag, s.scale, s.parmDefault), st3, name, rec);
            Run(r.0, [name], r.1)
  }

  /** The Arnold light of `light`: destroyed, created as an `arnold_light`, given the icon
      scale (not for a sky dome), then the parm loop. */
  function ArnoldLight(s: Settings, st: HouState, light: string, rec: MayaExport.Record): Run {
    var name := "arnold_" + light;
    var st2 := Created(Destroyed(st, name), name, "arnold_light");
    match Lookup(rec, nodeType)
    case Err(e) => Run(st2, [name], Some(e))
    case Ok(tag) =>
      var st3 := if tag != Str("aiSkyDomeLight") then Apply(st2, name, SetParm("l_iconscale", Num(s.scale))) else st2;
      var r := ParmLoop(Ctx(s.t, s.doc, "Arnold", rec, tag, s.scale, s.parmDefault), st3, name, rec);
      Run(r.0, [name], r.1)
  }

  /** One renderer record of a light: Mantra or Arnold when its check box is on, nothing
      otherwise. */
  function RendererStep(s: Settings, st: HouState, light: string, renderer: string, rec: MayaExport.Record): Run {
    if renderer == "Mantra" && s.mantraCheck then MantraLight(s, st, light, rec)
    else if renderer == "Arnold" && s.arnoldCheck then ArnoldLight(s, st, light, rec)
    else Run(st, [], None)
  }

  /** `for renderer in json_load[light].keys()`, after the nodes already created. */
  function RendererLoop(s: Settings, st: HouState, nodes: seq<string>, light: string, cells: MayaExport.LightRecord): Run
    decreases cells
  {
    match cells
    case Nil => Run(st, nodes, None)
    case Cons(renderer, rec, rest) =>
      var r := RendererStep(s, st, light, renderer, rec);
      if r.error.Some? then Run(r.st, nodes + r.nodes, r.error)
      else RendererLoop(s, r.st, nodes + r.nodes, light, rest)
  }

  /** `for light in json_load`, after the nodes already created. */
  function LightsLoop(s: Settings, st: HouState, nodes: seq<string>, cells: MayaExport.Export): Run
    decreases cells
  {
    match cells
    case Nil => Run(st, nodes, None)
    case Cons(light, lr, rest) =>
      var r := RendererLoop(s, st, nodes, light, lr);
      if r.error.Some? then r else LightsLoop(s, r.st, r.nodes, rest)
  }

  /** `import_json_file` on the loaded document. */
  function ImportSpec(s: Settings, st: HouState, doc: MayaExport.Export): Run {
    LightsLoop(s, st, [], doc)
  }

  /** The Houdini scene the import changes: the `/obj` and `/mat` networks. */
  class HoudiniScene {
    var obj: map<string, Node>
    var mat: map<string, Node>

    function State(): HouState
      reads this
    {
      HouState(obj, mat)
    }

    constructor (st: HouState)
      ensures State() == st
    {
      obj := st.obj;
      mat := st.mat;
    }

    /** `light_obj.parm(p).set(v)`, or the texture node fetched or created. */
    method Perform(name: string, a: Action)
      modifies this
      ensures State() == Apply(old(State()), name, a)
    {
      match a
      case SetParm(p, v) =>
        if name in obj {
          obj := obj[name := obj[name].(parms := obj[name].parms[p := v])];
        }
      case UseTexture(n, path) =>
        if n !in mat {
          mat := mat[n := Node("texture::2.0", map["orient" := Num(1.0), "map" := path])];
        }
    }

    /** The actions of one record key, in order. */
    method PerformAll(name: string, acts: seq<Action>)
      modifies this
      ensures State() == ApplyAll(old(State()), name, acts)
    {
      var i := 0;
      while i < |acts|
        invariant 0 <= i <= |acts|
        invariant ApplyAll(State(), name, acts[i..]) == ApplyAll(old(State()), name, acts)
      {
        assert acts[i..][1..] == acts[i + 1..];
        Perform(name, acts[i]);
        i := i + 1;
      }
    }

    /** The parm loop of one light. */
    method SetParms(c: Ctx, name: string, rec: MayaExport.Record) returns (error: Option<Error>)
      modifies this
      ensures (State(), error) == ParmLoop(c, old(State()), name, rec)
    {
      var cells := rec;
      while cells.Cons?
        invariant ParmLoop(c, State(), name, cells) == ParmLoop(c, old(State()), name, rec)
        decreases cells
      {
        var acts := Rule(c, LightNode(State(), name), cells.key, cells.val);
        if acts.Err? {
          return Some(acts.error);
        }
        PerformAll(name, acts.value);
        cells := cells.rest;
      }
      error := None;
    }

    /** The Mantra branch for one light. */
    method ImportMantra(s: Settings, light: string, rec: MayaExport.Record) returns (nodes: seq<string>, error: Option<Error>)
      modifies this
      ensures Run(State(), nodes, error) == MantraLight(s, old(State()), light, rec)
    {
      var name := "mantra_" + light;
      if name in obj {
        obj := obj - {name};
      }
      assert State() == Destroyed(old(State()), name);
      nodes := [];
      var tag := Lookup(rec, nodeType);
      if tag.Err? {
        return nodes, Some(tag.error);
      }
      var entry := EntryFor(s.doc, "Mantra", tag.value);
      if entry.Err? {
        return nodes, Some(entry.error);
      }
      var f := Lookup(entry.value, "light_node_type");
      if f.Err? {
        return nodes, Some(f.error);
      }
      if !f.value.Text? {
        return nodes, Some(TypeError);
      }
      obj := obj[name := Node(f.value.s, map[])];
      nodes := nodes + [name];
      if tag.value != Str("aiSkyDomeLight") {
        Perform(name, SetParm("iconscale", Num(s.scale)));
      }
      error := SetParms(Ctx(s.t, s.doc, "Mantra", rec, tag.value, s.scale, s.parmDefault), name, rec);
    }

    /** The Arnold branch for one light. */
    method ImportArnold(s: Settings, light: string, rec: MayaExport.Record) returns (nodes: seq<string>, error: Option<Error>)
      modifies this
      ensures Run(State(), nodes, error) == ArnoldLight(s, old(State()), light, rec)
    {
      var name := "arnold_" + light;
      if name in obj {
        obj := obj - {name};
      }
      assert State() == Destroyed(old(State()), name);
      obj := obj[name := Node("arnold_light", map[])];
      ghost var st2 := State();
      assert st2 == Created(Destroyed(old(State()), name), name, "arnold_light");
      nodes := [name];
      var tag := Lookup(rec, nodeType);
      if tag.Err? {
        return nodes, Some(tag.error);
      }
      if tag.value != Str("aiSkyDomeLight") {
        Perform(name, SetParm("l_iconscale", Num(s.scale)));
      }
      error := SetParms(Ctx(s.t, s.doc, "Arnold", rec, tag.value, s.scale, s.parmDefault), name, rec);
    }

    /** The renderer loop of one light, after the nodes already created. */
    method ImportLight(s: Settings, nodes0: seq<string>, light: string, lr: MayaExport.LightRecord)
      returns (nodes: seq<string>, error: Option<Error>)
      modifies this
      ensures Run(State(), nodes, error) == RendererLoop(s, old(State()), nodes0, light, lr)
    {
      nodes := nodes0;
      var cells := lr;
      while cells.Cons?
        invariant RendererLoop(s, State(), nodes, light, cells) == RendererLoop(s, old(State()), nodes0, light, lr)
        decreases cells
      {
        var created: seq<string> := [];
        error := None;
        if cells.key == "Mantra" && s.mantraCheck {
          created, error := ImportMantra(s, light, cells.val);
        } else if cells.key == "Arnold" && s.arnoldCheck {
          created, error := ImportArnold(s, light, cells.val);
        }
        nodes := nodes + created;
        if error.Some? {
          return;
        }
        cells := cells.rest;
      }
      error := None;
    }

    /** `import_json_file`: every light of the document, stopping at the first exception. */
    method ImportJsonFile(s: Settings, doc: MayaExport.Export) returns (nodes: seq<string>, error: Option<Error>)
      modifies this
      ensures Run(State(), nodes, error) == ImportSpec(s, old(State()), doc)
    {
      nodes := [];
      var cells := doc;
      while cells.Cons?
        invariant LightsLoop(s, State(), nodes, cells) == ImportSpec(s, old(State()), doc)
        decreases cells
      {
        nodes, error := ImportLight(s, nodes, cells.key, cells.val);
        if error.Some? {
          return;
        }
        cells := cells.rest;
      }
      error := None;
    }
  }
}
