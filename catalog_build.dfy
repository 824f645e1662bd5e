/**
 * The generation of the light catalog document: a loop that zips the parallel
 * per-tag lists and fills a per-renderer dict through `setdefault`, followed by
 * the top-level assignments of the document.
 */
module CatalogBuild {
  import opened PyValues
  import opened LightParms

  /** Light tag -> catalog entry, as the generation loop fills it. */
  type Catalog = OrderedDict<string, Entry>

  /** The entry stored under `tag`, or `{}` when there is none. */
  function EntryOf(d: Catalog, tag: string): (e: Entry)
    ensures Get(d, tag).Some? ==> Get(d, tag) == Some(e)
    ensures Get(d, tag).None? ==> e == Nil
  {
    match Get(d, tag)
    case Some(e) => e
    case None => Nil
  }

  /** `d.setdefault(tag, {})[name] = v`. */
  function SetField(d: Catalog, tag: string, name: string, v: Field): Catalog {
    Put(d, tag, Put(EntryOf(d, tag), name, v))
  }

  /** The field assignments `e[name] = v` for each pair, in order. */
  function Assign(e: Entry, fields: seq<(string, Field)>): Entry
    decreases |fields|
  {
    if |fields| == 0 then e else Assign(Put(e, fields[0].0, fields[0].1), fields[1..])
  }

  /** `d.setdefault(tag, {})[name] = v` for each pair, in order. */
  function SetFields(d: Catalog, tag: string, fields: seq<(string, Field)>): Catalog
    decreases |fields|
  {
    if |fields| == 0 then d else SetFields(SetField(d, tag, fields[0].0, fields[0].1), tag, fields[1..])
  }

  /** The catalog after the first `k` turns of the loop: turn `i` sets the fields `rows[i]`
      of tag `tags[i]`. */
  function Fill(tags: seq<string>, rows: seq<seq<(string, Field)>>, k: nat): Catalog
    requires k <= |tags| && k <= |rows|
  {
    if k == 0 then Nil else SetFields(Fill(tags, rows, k - 1), tags[k - 1], rows[k - 1])
  }

  /** `zip` stops at the end of its shortest argument. */
  function Min(a: nat, b: nat): (m: nat)
    ensures m <= a && m <= b && (m == a || m == b)
  {
    if a <= b then a else b
  }

  /** The fields the Mantra loop sets for one tag, in the order it sets them. */
  function MantraFields(nodeType: string, subType: Field, count: int, parms: ParmTable): seq<(string, Field)> {
    [("light_node_type", Text(nodeType)), ("light_node_sub_type", subType),
     ("num_of_light_contrib", Int(count)), ("light_parms", Parms(parms))]
  }

  /** The fields the Arnold loop sets for one tag, in the order it sets them. */
  function ArnoldFields(subType: int, parms: ParmTable): seq<(string, Field)> {
    [("light_node_sub_type", Int(subType)), ("light_parms", Parms(parms))]
  }

  /** How many turns the Mantra loop takes: the length of the shortest list. */
  function MantraTurns(tags: seq<string>, nodeTypes: seq<string>, subTypes: seq<Field>, counts: seq<int>,
                       parms: seq<ParmTable>): (n: nat)
    ensures n <= |tags| && n <= |nodeTypes| && n <= |subTypes| && n <= |counts| && n <= |parms|
    ensures n == |tags| || n == |nodeTypes| || n == |subTypes| || n == |counts| || n == |parms|
  {
    Min(Min(Min(Min(|tags|, |nodeTypes|), |subTypes|), |counts|), |parms|)
  }

  /** The rows of the Mantra loop, one per turn. */
  function MantraRows(nodeTypes: seq<string>, subTypes: seq<Field>, counts: seq<int>, parms: seq<ParmTable>, n: nat)
    : (rows: seq<seq<(string, Field)>>)
    requires n <= |nodeTypes| && n <= |subTypes| && n <= |counts| && n <= |parms|
    ensures |rows| == n
    ensures forall i :: 0 <= i < n ==> rows[i] == MantraFields(nodeTypes[i], subTypes[i], counts[i], parms[i])
  {
    seq(n, i requires 0 <= i < n => MantraFields(nodeTypes[i], subTypes[i], counts[i], parms[i]))
  }

  /** The rows of the Arnold loop, one per turn. */
  function ArnoldRows(subTypes: seq<int>, parms: seq<ParmTable>, n: nat): (rows: seq<seq<(string, Field)>>)
    requires n <= |subTypes| && n <= |parms|
    ensures |rows| == n
    ensures forall i :: 0 <= i < n ==> rows[i] == ArnoldFields(subTypes[i], parms[i])
  {
    seq(n, i requires 0 <= i < n => ArnoldFields(subTypes[i], parms[i]))
  }

  /** The dict the Mantra loop builds from the zipped lists. */
  function MantraCatalog(tags: seq<string>, nodeTypes: seq<string>, subTypes: seq<Field>, counts: seq<int>,
                         parms: seq<ParmTable>): Catalog
  {
    var n := MantraTurns(tags, nodeTypes, subTypes, counts, parms);
    Fill(tags, MantraRows(nodeTypes, subTypes, counts, parms, n), n)
  }

  /** The dict the Arnold loop builds from the zipped lists. */
  function ArnoldCatalog(tags: seq<string>, subTypes: seq<int>, parms: seq<ParmTable>): Catalog {
    var n := Min(Min(|tags|, |subTypes|), |parms|);
    Fill(tags, ArnoldRows(subTypes, parms, n), n)
  }

  /** One turn of a loop sets its fields on the tag's entry, creating the entry when missing. */
  lemma {:induction false} SetFieldsGet(d: Catalog, tag: string, fields: seq<(string, Field)>, a: string)
    ensures Get(SetFields(d, tag, fields), a) ==
            if a == tag && |fields| > 0 then Some(Assign(EntryOf(d, tag), fields)) else Get(d, a)
    decreases |fields|
  {
    if |fields| > 0 {
      var d' := SetField(d, tag, fields[0].0, fields[0].1);
      SetFieldsGet(d', tag, fields[1..], a);
      PutGet(d, tag, Put(EntryOf(d, tag), fields[0].0, fields[0].1), a);
      PutGet(d, tag, Put(EntryOf(d, tag), fields[0].0, fields[0].1), tag);
    }
  }

  /** A turn appends its tag to the keys when the tag is new, and keeps the keys otherwise. */
  lemma {:induction false} SetFieldsKeys(d: Catalog, tag: string, fields: seq<(string, Field)>)
    requires |fields| > 0
    ensures Keys(SetFields(d, tag, fields)) == if Get(d, tag).Some? then Keys(d) else Keys(d) + [tag]
    decreases |fields|
  {
    var d' := SetField(d, tag, fields[0].0, fields[0].1);
    PutKeys(d, tag, Put(EntryOf(d, tag), fields[0].0, fields[0].1));
    PutGet(d, tag, Put(EntryOf(d, tag), fields[0].0, fields[0].1), tag);
    if |fields| > 1 {
      SetFieldsKeys(d', tag, fields[1..]);
    }
  }

  /** After `k` turns of a loop over distinct tags, the keys are those tags in order and each
      tag holds exactly the fields of its own row. */
  lemma {:induction false} FillEntries(tags: seq<string>, rows: seq<seq<(string, Field)>>, k: nat)
    requires k <= |tags| && k <= |rows|
    requires forall i, j :: 0 <= i < j < k ==> tags[i] != tags[j]
    requires forall i :: 0 <= i < k ==> |rows[i]| > 0
    ensures Keys(Fill(tags, rows, k)) == tags[..k]
    ensures forall i :: 0 <= i < k ==> Get(Fill(tags, rows, k), tags[i]) == Some(Assign(Nil, rows[i]))
  {
    if k > 0 {
      var d := Fill(tags, rows, k - 1);
      FillEntries(tags, rows, k - 1);
      GetIsSomeIffKey(d, tags[k - 1]);
      assert tags[k - 1] !in tags[..k - 1];
      SetFieldsKeys(d, tags[k - 1], rows[k - 1]);
      assert tags[..k] == tags[..k - 1] + [tags[k - 1]];
      forall i | 0 <= i < k
        ensures Get(Fill(tags, rows, k), tags[i]) == Some(Assign(Nil, rows[i]))
      {
        SetFieldsGet(d, tags[k - 1], rows[k - 1], tags[i]);
      }
    }
  }

  /** A Mantra entry holds exactly the four fields, in the order the loop sets them. */
  lemma MantraEntry(nodeType: string, subType: Field, count: int, parms: ParmTable)
    ensures Assign(Nil, MantraFields(nodeType, subType, count, parms)) ==
            Cons("light_node_type", Text(nodeType), Cons("light_node_sub_type", subType,
            Cons("num_of_light_contrib", Int(count), Cons("light_parms", Parms(parms), Nil))))
  {
    var f := MantraFields(nodeType, subType, count, parms);
    var e1: Entry := Cons("light_node_type", Text(nodeType), Nil);
    var e2: Entry := Cons("light_node_type", Text(nodeType), Cons("light_node_sub_type", subType, Nil));
    var e3: Entry := Cons("light_node_type", Text(nodeType), Cons("light_node_sub_type", subType,
                     Cons("num_of_light_contrib", Int(count), Nil)));
    AssignStep(Nil, f, e1);
    AssignStep(e1, f[1..], e2);
    assert f[2..][0] == ("num_of_light_contrib", Int(count)) && f[3..][0] == ("light_parms", Parms(parms));
    assert "light_node_type" != "num_of_light_contrib" && "light_node_sub_type" != "num_of_light_contrib";
    assert "light_node_type" != "light_parms" && "light_node_sub_type" != "light_parms";
    assert "num_of_light_contrib" != "light_parms";
    assert Put(Cons("light_node_sub_type", subType, Nil), "num_of_light_contrib", Int(count)) ==
           Cons("light_node_sub_type", subType, Cons("num_of_light_contrib", Int(count), Nil));
    assert Put(Cons("num_of_light_contrib", Int(count), Nil), "light_parms", Parms(parms)) ==
           Cons("num_of_light_contrib", Int(count), Cons("light_parms", Parms(parms), Nil));
    assert Put(Cons("light_node_sub_type", subType, Cons("num_of_light_contrib", Int(count), Nil)), "light_parms", Parms(parms)) ==
           Cons("light_node_sub_type", subType, Cons("num_of_light_contrib", Int(count), Cons("light_parms", Parms(parms), Nil)));
    AssignStep(e2, f[2..], e3);
    AssignStep(e3, f[3..], Cons("light_node_type", Text(nodeType), Cons("light_node_sub_type", subType,
      Cons("num_of_light_contrib", Int(count), Cons("light_parms", Parms(parms), Nil)))));
  }

  /** An Arnold entry holds exactly the two fields, in the order the loop sets them. */
  lemma ArnoldEntry(subType: int, parms: ParmTable)
    ensures Assign(Nil, ArnoldFields(subType, parms)) ==
            Cons("light_node_sub_type", Int(subType), Cons("light_parms", Parms(parms), Nil))
  {
    var f := ArnoldFields(subType, parms);
    var e1: Entry := Cons("light_node_sub_type", Int(subType), Nil);
    AssignStep(Nil, f, e1);
    AssignStep(e1, f[1..], Cons("light_node_sub_type", Int(subType), Cons("light_parms", Parms(parms), Nil)));
  }

  /** One assignment of a field sequence, named by its result. */
  lemma AssignStep(e: Entry, fields: seq<(string, Field)>, e': Entry)
    requires |fields| > 0 && Put(e, fields[0].0, fields[0].1) == e'
    ensures Assign(e, fields) == Assign(e', fields[1..])
  {
  }

  /** The Mantra loop over lists with distinct tags: one entry per turn, keyed by the tag,
      holding that turn's node type, sub-type, count and table. */
  lemma MantraCatalogEntries(tags: seq<string>, nodeTypes: seq<string>, subTypes: seq<Field>, counts: seq<int>,
                             parms: seq<ParmTable>)
    requires forall i, j :: 0 <= i < j < |tags| ==> tags[i] != tags[j]
    ensures var n := MantraTurns(tags, nodeTypes, subTypes, counts, parms);
            && Keys(MantraCatalog(tags, nodeTypes, subTypes, counts, parms)) == tags[..n]
            && forall i :: 0 <= i < n ==>
                 Get(MantraCatalog(tags, nodeTypes, subTypes, counts, parms), tags[i]) ==
                 Some(Cons("light_node_type", Text(nodeTypes[i]), Cons("light_node_sub_type", subTypes[i],
                      Cons("num_of_light_contrib", Int(counts[i]), Cons("light_parms", Parms(parms[i]), Nil)))))
  {
    var n := MantraTurns(tags, nodeTypes, subTypes, counts, parms);
    var rows := MantraRows(nodeTypes, subTypes, counts, parms, n);
    FillEntries(tags, rows, n);
    forall i | 0 <= i < n
      ensures Assign(Nil, rows[i]) ==
              Cons("light_node_type", Text(nodeTypes[i]), Cons("light_node_sub_type", subTypes[i],
              Cons("num_of_light_contrib", Int(counts[i]), Cons("light_parms", Parms(parms[i]), Nil))))
    {
      MantraEntry(nodeTypes[i], subTypes[i], counts[i], parms[i]);
    }
  }

  /** The Arnold loop over lists with distinct tags: one entry per turn, keyed by the tag,
      holding that turn's sub-type and table. */
  lemma ArnoldCatalogEntries(tags: seq<string>, subTypes: seq<int>, parms: seq<ParmTable>)
    requires forall i, j :: 0 <= i < j < |tags| ==> tags[i] != tags[j]
    ensures var n := Min(Min(|tags|, |subTypes|), |parms|);
            && Keys(ArnoldCatalog(tags, subTypes, parms)) == tags[..n]
            && forall i :: 0 <= i < n ==>
                 Get(ArnoldCatalog(tags, subTypes, parms), tags[i]) ==
                 Some(Cons("light_node_sub_type", Int(subTypes[i]), Cons("light_parms", Parms(parms[i]), Nil)))
  {
    var n := Min(Min(|tags|, |subTypes|), |parms|);
    var rows := ArnoldRows(subTypes, parms, n);
    FillEntries(tags, rows, n);
    forall i | 0 <= i < n
      ensures Assign(Nil, rows[i]) == Cons("light_node_sub_type", Int(subTypes[i]), Cons("light_parms", Parms(parms[i]), Nil))
    {
      ArnoldEntry(subTypes[i], parms[i]);
    }
  }

  /** One turn of the Mantra loop is its four `setdefault` assignments. */
  lemma MantraTurn(d: Catalog, tag: string, nodeType: string, subType: Field, count: int, parms: ParmTable)
    ensures SetFields(d, tag, MantraFields(nodeType, subType, count, parms)) ==
            SetField(SetField(SetField(SetField(d, tag, "light_node_type", Text(nodeType)),
              tag, "light_node_sub_type", subType), tag, "num_of_light_contrib", Int(count)),
              tag, "light_parms", Parms(parms))
  {
    var f := MantraFields(nodeType, subType, count, parms);
    var d1 := SetField(d, tag, "light_node_type", Text(nodeType));
    var d2 := SetField(d1, tag, "light_node_sub_type", subType);
    var d3 := SetField(d2, tag, "num_of_light_contrib", Int(count));
    var d4 := SetField(d3, tag, "light_parms", Parms(parms));
    assert SetFields(d, tag, f) == SetFields(d1, tag, f[1..]);
    assert SetFields(d1, tag, f[1..]) == SetFields(d2, tag, f[2..]) by { assert f[1..][1..] == f[2..]; }
    assert SetFields(d2, tag, f[2..]) == SetFields(d3, tag, f[3..]) by { assert f[2..][1..] == f[3..]; }
    assert SetFields(d3, tag, f[3..]) == SetFields(d4, tag, []) by { assert f[3..][1..] == []; }
  }

  /** One turn of the Arnold loop is its two `setdefault` assignments. */
  lemma ArnoldTurn(d: Catalog, tag: string, subType: int, parms: ParmTable)
    ensures SetFields(d, tag, ArnoldFields(subType, parms)) ==
            SetField(SetField(d, tag, "light_node_sub_type", Int(subType)), tag, "light_parms", Parms(parms))
  {
    var f := ArnoldFields(subType, parms);
    var d1 := SetField(d, tag, "light_node_sub_type", Int(subType));
    var d2 := SetField(d1, tag, "light_parms", Parms(parms));
    assert SetFields(d, tag, f) == SetFields(d1, tag, f[1..]);
    assert SetFields(d1, tag, f[1..]) == SetFields(d2, tag, []) by { assert f[1..][1..] == []; }
  }

  /** The Mantra generation loop. */
  method GenerateMantra(tags: seq<string>, nodeTypes: seq<string>, subTypes: seq<Field>, counts: seq<int>,
                        parms: seq<ParmTable>) returns (d: Catalog)
    ensures d == MantraCatalog(tags, nodeTypes, subTypes, counts, parms)
  {
    var n := Min(Min(Min(Min(|tags|, |nodeTypes|), |subTypes|), |counts|), |parms|);
    ghost var rows := MantraRows(nodeTypes, subTypes, counts, parms, n);
    d := Nil;
    for i := 0 to n
      invariant d == Fill(tags, rows, i)
    {
      MantraTurn(d, tags[i], nodeTypes[i], subTypes[i], counts[i], parms[i]);
      d := SetField(d, tags[i], "light_node_type", Text(nodeTypes[i]));
      d := SetField(d, tags[i], "light_node_sub_type", subTypes[i]);
      d := SetField(d, tags[i], "num_of_light_contrib", Int(counts[i]));
      d := SetField(d, tags[i], "light_parms", Parms(parms[i]));
    }
  }

  /** The Arnold generation loop. */
  method GenerateArnold(tags: seq<string>, subTypes: seq<int>, parms: seq<ParmTable>) returns (d: Catalog)
    ensures d == ArnoldCatalog(tags, subTypes, parms)
  {
    var n := Min(Min(|tags|, |subTypes|), |parms|);
    ghost var rows := ArnoldRows(subTypes, parms, n);
    d := Nil;
    for i := 0 to n
      invariant d == Fill(tags, rows, i)
    {
      ArnoldTurn(d, tags[i], subTypes[i], parms[i]);
      d := SetField(d, tags[i], "light_node_sub_type", Int(subTypes[i]));
      d := SetField(d, tags[i], "light_parms", Parms(parms[i]));
    }
  }
}

module CatalogDocument {
  import opened PyValues
  import opened LightParms
  import opened CatalogBuild

  /** The catalog document over the Mantra catalog `m` and the Arnold catalog `a`: the two
      catalogs, then the contribution names and the colour table, assigned in that order. */
  function Document(m: Catalog, a: Catalog): LightData {
    Put(Put(Put(Put(Nil, "Mantra", Renderer(m)), "Arnold", Renderer(a)),
      "light_contribution_parms", ContribNames(MantraLightContribParms)),
      "color_light_params", ColorParms(ColorLightParams))
  }

  /** The script: both generation loops, then the four top-level assignments. */
  method GenerateLightData() returns (doc: LightData)
    ensures doc == Document(MantraCatalog(MantraLightType, MantraLightNodeType, MantraLightNodeSubType,
                                          MantraNumOfLightContrib, MantraLightParms),
                            ArnoldCatalog(ArnoldLightType, ArnoldLightNodeSubType, ArnoldLightParms))
  {
    var m := GenerateMantra(MantraLightType, MantraLightNodeType, MantraLightNodeSubType, MantraNumOfLightContrib,
                            MantraLightParms);
    var a := GenerateArnold(ArnoldLightType, ArnoldLightNodeSubType, ArnoldLightParms);
    doc := Nil;
    doc := Put(doc, "Mantra", Renderer(m));
    doc := Put(doc, "Arnold", Renderer(a));
    doc := Put(doc, "light_contribution_parms", ContribNames(MantraLightContribParms));
    doc := Put(doc, "color_light_params", ColorParms(ColorLightParams));
  }

  /** The document's top-level keys, in order, whatever the two catalogs hold. */
  lemma DocumentKeys(m: Catalog, a: Catalog)
    ensures Keys(Document(m, a)) == ["Mantra", "Arnold", "light_contribution_parms", "color_light_params"]
    ensures Get(Document(m, a), "Mantra") == Some(Renderer(m)) && Get(Document(m, a), "Arnold") == Some(Renderer(a))
  {
    assert "Mantra" != "Arnold" && "Mantra" != "light_contribution_parms" && "Mantra" != "color_light_params";
    assert "Arnold" != "light_contribution_parms" && "Arnold" != "color_light_params";
    assert "light_contribution_parms" != "color_light_params";
    assert Put(Put(Nil, "Mantra", Renderer(m)), "Arnold", Renderer(a)) ==
           Cons("Mantra", Renderer(m), Cons("Arnold", Renderer(a), Nil));
    DocumentKeysFrom(Cons("Mantra", Renderer(m), Cons("Arnold", Renderer(a), Nil)), m, a);
  }

  lemma DocumentKeysFrom(d2: LightData, m: Catalog, a: Catalog)
    requires d2 == Cons("Mantra", Renderer(m), Cons("Arnold", Renderer(a), Nil))
    ensures Keys(Put(Put(d2, "light_contribution_parms", ContribNames(MantraLightContribParms)),
                     "color_light_params", ColorParms(ColorLightParams))) ==
            ["Mantra", "Arnold", "light_contribution_parms", "color_light_params"]
    ensures Get(Put(Put(d2, "light_contribution_parms", ContribNames(MantraLightContribParms)),
                    "color_light_params", ColorParms(ColorLightParams)), "Mantra") == Some(Renderer(m))
    ensures Get(Put(Put(d2, "light_contribution_parms", ContribNames(MantraLightContribParms)),
                    "color_light_params", ColorParms(ColorLightParams)), "Arnold") == Some(Renderer(a))
  {
    var lcp := ContribNames(MantraLightContribParms);
    var clp := ColorParms(ColorLightParams);
    assert "Mantra" != "light_contribution_parms" && "Arnold" != "light_contribution_parms";
    var tail3 := Cons("light_contribution_parms", lcp, Nil);
    assert Put(Cons("Arnold", Renderer(a), Nil), "light_contribution_parms", lcp) == Cons("Arnold", Renderer(a), tail3);
    var d3 := Cons("Mantra", Renderer(m), Cons("Arnold", Renderer(a), tail3));
    assert Put(d2, "light_contribution_parms", lcp) == d3;
    assert "Mantra" != "color_light_params" && "Arnold" != "color_light_params";
    assert "light_contribution_parms" != "color_light_params";
    var tail4 := Cons("light_contribution_parms", lcp, Cons("color_light_params", clp, Nil));
    assert Put(tail3, "color_light_params", clp) == tail4;
    assert Put(Cons("Arnold", Renderer(a), tail3), "color_light_params", clp) == Cons("Arnold", Renderer(a), tail4);
    var d4 := Cons("Mantra", Renderer(m), Cons("Arnold", Renderer(a), tail4));
    assert Put(d3, "color_light_params", clp) == d4;
    assert Keys(Cons("color_light_params", clp, Nil)) == ["color_light_params"];
    assert Keys(tail4) == ["light_contribution_parms", "color_light_params"];
    assert Keys(Cons("Arnold", Renderer(a), tail4)) == ["Arnold", "light_contribution_parms", "color_light_params"];
    assert Keys(d4) == ["Mantra", "Arnold", "light_contribution_parms", "color_light_params"];
    assert Get(d4, "Arnold") == Get(Cons("Arnold", Renderer(a), tail4), "Arnold");
  }

  /** The Mantra catalog the loop builds from the tag lists and a list of twelve tables (the
      document passes `MantraLightParms`, whose length `TableListLengths` gives): the twelve
      tags in list order, each holding its node type, sub-type, contribution count and table
      from the same position of the lists. */
  lemma MantraCatalogContents(parms: seq<ParmTable>)
    requires |parms| == |MantraLightType|
    ensures Keys(MantraCatalog(MantraLightType, MantraLightNodeType, MantraLightNodeSubType, MantraNumOfLightContrib,
                               parms)) == MantraLightType
    ensures forall i :: 0 <= i < |MantraLightType| ==>
              Get(MantraCatalog(MantraLightType, MantraLightNodeType, MantraLightNodeSubType, MantraNumOfLightContrib,
                                parms), MantraLightType[i]) ==
              Some(Cons("light_node_type", Text(MantraLightNodeType[i]),
                   Cons("light_node_sub_type", MantraLightNodeSubType[i],
                   Cons("num_of_light_contrib", Int(MantraNumOfLightContrib[i]),
                   Cons("light_parms", Parms(parms[i]), Nil)))))
  {
    TagListLengths();
    MantraTagsDistinct();
    MantraCatalogEntries(MantraLightType, MantraLightNodeType, MantraLightNodeSubType, MantraNumOfLightContrib, parms);
  }

  /** The Arnold catalog the loop builds from the tag lists and a list of eight tables (the
      document passes `ArnoldLightParms`): the eight tags in list order, each holding its
      sub-type and table from the same position of the lists. */
  lemma ArnoldCatalogContents(parms: seq<ParmTable>)
    requires |parms| == |ArnoldLightType|
    ensures Keys(ArnoldCatalog(ArnoldLightType, ArnoldLightNodeSubType, parms)) == ArnoldLightType
    ensures forall i :: 0 <= i < |ArnoldLightType| ==>
              Get(ArnoldCatalog(ArnoldLightType, ArnoldLightNodeSubType, parms), ArnoldLightType[i]) ==
              Some(Cons("light_node_sub_type", Int(ArnoldLightNodeSubType[i]), Cons("light_parms", Parms(parms[i]), Nil)))
  {
    TagListLengths();
    ArnoldTagsDistinct();
    ArnoldCatalogEntries(ArnoldLightType, ArnoldLightNodeSubType, parms);
  }

  /** The Mantra lists have 12 entries each and the Arnold lists 8. */
  lemma TagListLengths()
    ensures |MantraLightType| == |MantraLightNodeType| == |MantraLightNodeSubType| == |MantraNumOfLightContrib| == 12
    ensures |ArnoldLightType| == |ArnoldLightNodeSubType| == 8
  {
  }

  /** There are 12 Mantra tables and 8 Arnold tables, one per tag. */
  lemma TableListLengths()
    ensures |MantraLightParms| == 12 && |ArnoldLightParms| == 8
  {
  }

  /** No Mantra tag is listed twice. */
  lemma MantraTagsDistinct()
    ensures forall i, j :: 0 <= i < j < |MantraLightType| ==> MantraLightType[i] != MantraLightType[j]
  {
  }

  /** No Arnold tag is listed twice. */
  lemma ArnoldTagsDistinct()
    ensures forall i, j :: 0 <= i < j < |ArnoldLightType| ==> ArnoldLightType[i] != ArnoldLightType[j]
  {
  }

  /** Every Mantra tag creates an `hlight::2.0` node with a numeric light type, except the
      sky dome, which creates an `envlight` and has no light type. */
  lemma MantraNodeTypes()
    ensures forall i :: 0 <= i < |MantraLightType| ==>
              && MantraLightNodeType[i] == (if MantraLightType[i] == "aiSkyDomeLight" then "envlight" else "hlight::2.0")
              && (MantraLightNodeSubType[i] == Text("") <==> MantraLightType[i] == "aiSkyDomeLight")
              && (MantraLightNodeSubType[i].Int? <==> MantraLightType[i] != "aiSkyDomeLight")
  {
  }

  /** Two distinct Arnold tags share a light type exactly when they are `areaLight` and `quad`. */
  lemma ArnoldSharedSubType()
    ensures forall i, j :: 0 <= i < j < |ArnoldLightType| ==>
              (ArnoldLightNodeSubType[i] == ArnoldLightNodeSubType[j] <==>
               ArnoldLightType[i] == "areaLight" && ArnoldLightType[j] == "quad")
  {
  }

  /** The contribution names, in slot order: slot `i` of a Mantra light is named by the
      `i`-th key. */
  lemma ContributionNames()
    ensures Keys(MantraLightContribParms) ==
            ["diffuse", "reflect", "coat", "sss", "indirect", "volume", "refract", "camera"]
  {
  }
}
