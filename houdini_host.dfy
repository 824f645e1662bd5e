/**
 * What the Houdini import sees of Houdini and of its two documents: nodes with parms,
 * the actions one record key turns into, and the lookups into the exported light record
 * and the catalog (`light_data`) that every rule repeats.
 */
module HoudiniHost {
  import opened PyValues
  import opened LightParms
  import opened Transcendentals
  import MayaExport

  /** A node under `/obj` or `/mat`: its type and the parms set on it since its creation. */
  datatype Node = Node(nodeType: string, parms: map<string, Value>)

  /** What the rule for one record key does to the scene, in order. */
  datatype Action =
    | SetParm(parm: string, value: Value)   // `light_obj.parm(parm).set(value)` on the light node
    | UseTexture(node: string, path: Value) // reuse `/mat/<node>`, or create it reading `path`

  /** The inputs of one light's parm loop: the exponential and logarithm, the catalog, the
      renderer, the light's exported record and its `nodeType` value, the scene scale, and
      the value Houdini reports for a parm nobody has set (per node type and parm name). */
  datatype Ctx = Ctx(
    t: Transcendental,
    doc: LightData,
    renderer: string,
    rec: MayaExport.Record,
    tag: Value,
    scale: real,
    parmDefault: (string, string) -> Value
  )

  /** `light_data[renderer][tag]`. */
  function EntryFor(doc: LightData, renderer: string, tag: Value): Result<Entry> {
    var sec: Option<Section> := Get(doc, renderer);
    if sec.None? then Err(KeyError)
    else if !sec.value.Renderer? then Err(TypeError)
    else LookupValue(sec.value.types, tag)
  }

  /** `light_data[renderer][tag]["light_parms"][a]`. */
  function DestOf(c: Ctx, a: Attr): Result<Dest> {
    match EntryFor(c.doc, c.renderer, c.tag)
    case Err(e) => Err(e)
    case Ok(entry) =>
      var f: Option<Field> := Get(entry, "light_parms");
      if f.None? then Err(KeyError)
      else if !f.value.Parms? then Err(TypeError)
      else Lookup(f.value.table, a)
  }

  /** The destination of `a` used as a single parm name; a list is not a parm name. */
  function ParmOf(c: Ctx, a: Attr): (r: Result<string>)
    ensures r.Ok? <==> DestOf(c, a).Ok? && DestOf(c, a).value.One?
    ensures r.Ok? ==> DestOf(c, a) == Ok(One(r.value))
  {
    match DestOf(c, a)
    case Err(e) => Err(e)
    case Ok(d) => if d.One? then Ok(d.name) else Err(TypeError)
  }

  /** `for name in dest`: the names of a list, or the characters of a single name. */
  function DestNames(d: Dest): (ns: seq<string>)
    ensures d.Many? ==> ns == d.names
    ensures d.One? ==> |ns| == |d.name|
  {
    if d.Many? then d.names else seq(|d.name|, i requires 0 <= i < |d.name| => [d.name[i]])
  }

  /** `dest[i]`. */
  function DestAt(d: Dest, i: nat): (r: Result<string>)
    ensures r.Ok? <==> i < |DestNames(d)|
    ensures r.Ok? ==> r.value == DestNames(d)[i]
    ensures r.Err? ==> r.error == IndexError
  {
    if i < |DestNames(d)| then Ok(DestNames(d)[i]) else Err(IndexError)
  }

  /** A catalog field written into a parm: a name, or a number for an int. */
  function FieldValue(f: Field): (r: Result<Value>)
    ensures f.Text? ==> r == Ok(Str(f.s))
    ensures f.Int? ==> r == Ok(Num(f.n as real))
    ensures f.Parms? ==> r == Err(TypeError)
  {
    match f
    case Text(s) => Ok(Str(s))
    case Int(n) => Ok(Num(n as real))
    case Parms(_) => Err(TypeError)
  }

  /** `light_obj.parm(p).eval()`: the parm's value, or the node type's default before any set. */
  function Eval(c: Ctx, node: Node, p: string): Value {
    if p in node.parms then node.parms[p] else c.parmDefault(node.nodeType, p)
  }

  /** What a sequence of actions leaves in the parms of the light node: each parm it sets,
      with the value of the last set. */
  function Effect(acts: seq<Action>): map<string, Value>
    decreases |acts|
  {
    if acts == [] then map[]
    else
      var last := acts[|acts| - 1];
      if last.SetParm? then Effect(acts[..|acts| - 1])[last.parm := last.value] else Effect(acts[..|acts| - 1])
  }

  /** The light node after the parm sets of `acts`, in order. */
  function SetAll(node: Node, acts: seq<Action>): Node {
    node.(parms := node.parms + Effect(acts))
  }

  /** The character of decimal digit `d`. */
  function Digit(d: nat): char
    requires d < 10
  {
    ('0' as int + d) as char
  }

  /** The decimal digits of `n`, as `str.format` writes them. */
  function NatStr(n: nat): (s: string)
    ensures |s| >= 1
    ensures n < 10 ==> s == [Digit(n)]
    ensures n >= 10 ==> |s| >= 2
  {
    if n < 10 then [Digit(n)] else NatStr(n / 10) + [Digit(n % 10)]
  }

  /** Different numbers are written differently. */
  lemma {:induction false} NatStrInjective(a: nat, b: nat)
    requires NatStr(a) == NatStr(b)
    ensures a == b
    decreases a
  {
    if a >= 10 && b >= 10 {
      var s := NatStr(a);
      assert s[..|s| - 1] == NatStr(a / 10) && s[|s| - 1] == Digit(a % 10);
      assert s[..|s| - 1] == NatStr(b / 10) && s[|s| - 1] == Digit(b % 10);
      NatStrInjective(a / 10, b / 10);
    } else if a < 10 && b < 10 {
      assert NatStr(a)[0] == Digit(a);
    }
  }

  /** `v * k` for a number `k`. */
  function Times(v: Value, k: real): (r: Result<Value>)
    ensures r.Ok? <==> !v.Str?
    ensures r.Ok? ==> r.value == Num(AsReal(v).value * k)
  {
    if v.Str? then Err(TypeError) else Ok(Num(AsReal(v).value * k))
  }

  /** `v + k` for a number `k`. */
  function Plus(v: Value, k: real): (r: Result<Value>)
    ensures r.Ok? <==> !v.Str?
    ensures r.Ok? ==> r.value == Num(AsReal(v).value + k)
  {
    match AsReal(v)
    case Err(e) => Err(e)
    case Ok(x) => Ok(Num(x + k))
  }

  /** `0.5 <= v <= 1`: the rule that turns a Maya contribution weight into a Houdini toggle. */
  function Toggle(v: Value): (r: Result<Value>)
    ensures r.Ok? <==> !v.Str?
    ensures r.Ok? ==> r.value == Bool(0.5 <= AsReal(v).value <= 1.0)
  {
    match AsReal(v)
    case Err(e) => Err(e)
    case Ok(x) => Ok(Bool(0.5 <= x <= 1.0))
  }

  /** `light_obj.parm(dest(a)).set(v)`, the destination looked up before the value is computed. */
  function SetDest(c: Ctx, a: Attr, v: Result<Value>): Result<seq<Action>> {
    match ParmOf(c, a)
    case Err(e) => Err(e)
    case Ok(p) =>
      match v
      case Err(e) => Err(e)
      case Ok(x) => Ok([SetParm(p, x)])
  }

  /** `x = v; light_obj.parm(dest(a)).set(x)`: the value computed before the lookup. */
  function SetComputed(c: Ctx, a: Attr, v: Result<Value>): Result<seq<Action>> {
    match v
    case Err(e) => Err(e)
    case Ok(x) =>
      match ParmOf(c, a)
      case Err(e) => Err(e)
      case Ok(p) => Ok([SetParm(p, x)])
  }

  /** Each name of a destination list set to the same value. */
  function SetEach(names: seq<string>, v: Value): (acts: seq<Action>)
    ensures |acts| == |names|
    ensures forall i :: 0 <= i < |names| ==> acts[i] == SetParm(names[i], v)
  {
    seq(|names|, i requires 0 <= i < |names| => SetParm(names[i], v))
  }

  /** One more action: a parm set overrides what came before, a texture leaves the parms alone. */
  lemma EffectSnoc(acts: seq<Action>, a: Action)
    ensures Effect(acts + [a]) == if a.SetParm? then Effect(acts)[a.parm := a.value] else Effect(acts)
  {
    assert (acts + [a])[..|acts|] == acts;
  }

  /** Two action lists in a row: the second overrides the first. */
  lemma {:induction false} EffectAppend(xs: seq<Action>, ys: seq<Action>)
    ensures Effect(xs + ys) == Effect(xs) + Effect(ys)
    decreases |ys|
  {
    if ys == [] {
      assert xs + ys == xs;
    } else {
      var init := ys[..|ys| - 1];
      var last := ys[|ys| - 1];
      assert ys == init + [last];
      assert xs + ys == (xs + init) + [last];
      EffectAppend(xs, init);
      EffectSnoc(xs + init, last);
      EffectSnoc(init, last);
    }
  }

  /** The parm sets of a short list, first to last: a later set of the same parm wins. */
  lemma EffectOfSets(p: string, q: string, r: string, u: string, w: Value, x: Value, y: Value, z: Value)
    ensures Effect([SetParm(p, w)]) == map[p := w]
    ensures Effect([SetParm(p, w), SetParm(q, x)]) == map[p := w][q := x]
    ensures Effect([SetParm(p, w), SetParm(q, x), SetParm(r, y)]) == map[p := w][q := x][r := y]
    ensures Effect([SetParm(p, w), SetParm(q, x), SetParm(r, y), SetParm(u, z)]) == map[p := w][q := x][r := y][u := z]
  {
    EffectSnoc([], SetParm(p, w));
    assert [] + [SetParm(p, w)] == [SetParm(p, w)];
    EffectSnoc([SetParm(p, w)], SetParm(q, x));
    assert [SetParm(p, w)] + [SetParm(q, x)] == [SetParm(p, w), SetParm(q, x)];
    EffectSnoc([SetParm(p, w), SetParm(q, x)], SetParm(r, y));
    assert [SetParm(p, w), SetParm(q, x)] + [SetParm(r, y)] == [SetParm(p, w), SetParm(q, x), SetParm(r, y)];
    EffectSnoc([SetParm(p, w), SetParm(q, x), SetParm(r, y)], SetParm(u, z));
    assert [SetParm(p, w), SetParm(q, x), SetParm(r, y)] + [SetParm(u, z)]
        == [SetParm(p, w), SetParm(q, x), SetParm(r, y), SetParm(u, z)];
  }

  /** Distinct names each set once: each is left with its own value, and nothing else is set. */
  lemma EffectOfDistinctSets(names: seq<string>, vals: seq<Value>)
    requires |names| <= |vals|
    requires forall i, j :: 0 <= i < j < |names| ==> names[i] != names[j]
    ensures forall p :: p in Effect(seq(|names|, i requires 0 <= i < |names| => SetParm(names[i], vals[i]))) <==> p in names
    ensures forall i :: 0 <= i < |names| ==>
              var e := Effect(seq(|names|, i requires 0 <= i < |names| => SetParm(names[i], vals[i])));
              names[i] in e && e[names[i]] == vals[i]
  {
    var acts := seq(|names|, i requires 0 <= i < |names| => SetParm(names[i], vals[i]));
    forall p ensures p in Effect(acts) <==> p in names {
      EffectHas(acts, p);
      if p in names {
        var i :| 0 <= i < |names| && names[i] == p;
        assert acts[i].SetParm? && acts[i].parm == p;
      }
    }
    forall i | 0 <= i < |names| ensures names[i] in Effect(acts) && Effect(acts)[names[i]] == vals[i] {
      assert acts[i] == SetParm(names[i], vals[i]);
      forall j | i < j < |acts| ensures !(acts[j].SetParm? && acts[j].parm == names[i]) {
        assert acts[j] == SetParm(names[j], vals[j]);
      }
      EffectLastValue(acts, names[i], i);
    }
  }

  /** The same value set on every name of a list: each name is left with it, nothing else is set. */
  lemma {:induction false} EffectOfSetEach(names: seq<string>, v: Value)
    ensures forall p :: p in Effect(SetEach(names, v)) <==> p in names
    ensures forall p :: p in names ==> Effect(SetEach(names, v))[p] == v
    decreases |names|
  {
    if names != [] {
      var init := names[..|names| - 1];
      var last := names[|names| - 1];
      EffectOfSetEach(init, v);
      assert SetEach(names, v) == SetEach(init, v) + [SetParm(last, v)];
      EffectSnoc(SetEach(init, v), SetParm(last, v));
      assert names == init + [last];
    }
  }

  /** A parm is left set exactly when some action sets it. */
  lemma {:induction false} EffectHas(acts: seq<Action>, p: string)
    ensures p in Effect(acts) <==> exists j :: 0 <= j < |acts| && acts[j].SetParm? && acts[j].parm == p
    decreases |acts|
  {
    if acts != [] {
      var init := acts[..|acts| - 1];
      EffectHas(init, p);
      if exists j :: 0 <= j < |init| && init[j].SetParm? && init[j].parm == p {
        var j :| 0 <= j < |init| && init[j].SetParm? && init[j].parm == p;
        assert acts[j] == init[j];
      }
      if exists j :: 0 <= j < |acts| && acts[j].SetParm? && acts[j].parm == p {
        var j :| 0 <= j < |acts| && acts[j].SetParm? && acts[j].parm == p;
        if j < |init| {
          assert init[j] == acts[j];
        }
      }
    }
  }

  /** A parm is left with the value of the last action that sets it. */
  lemma {:induction false} EffectLastValue(acts: seq<Action>, p: string, i: nat)
    requires i < |acts| && acts[i].SetParm? && acts[i].parm == p
    requires forall j :: i < j < |acts| ==> !(acts[j].SetParm? && acts[j].parm == p)
    ensures p in Effect(acts) && Effect(acts)[p] == acts[i].value
    decreases |acts|
  {
    var init := acts[..|acts| - 1];
    if i < |init| {
      assert init[i] == acts[i];
      forall j | i < j < |init| ensures !(init[j].SetParm? && init[j].parm == p) {
        assert init[j] == acts[j];
      }
      EffectLastValue(init, p, i);
    }
  }
}
