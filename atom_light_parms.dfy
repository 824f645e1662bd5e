/**
 * The earlier, Mantra-only catalog variant.  Its parameter tables, tag list, node
 * types, light types, contribution counts and merged tables are written exactly as in
 * the main catalog, so they are the `LightParms` constants; what differs is the shape
 * of the document: the per-tag entries sit at the top level of one dict, under the
 * field names `mantra_light_node_type`, `mantra_light_type`,
 * `num_of_light_contributions` and `mantra_light_parms`, and the contribution names
 * and the colour table are added to that same dict after the loop.
 */
module AtomLightParms {
  import opened PyValues
  import opened LightParms
  import opened CatalogBuild
  import opened CatalogDocument

  /** The fields the loop sets for one tag, in the order it sets them. */
  function AtomFields(nodeType: string, lightType: Field, count: int, parms: ParmTable): seq<(string, Field)> {
    [("mantra_light_node_type", Text(nodeType)), ("mantra_light_type", lightType),
     ("num_of_light_contributions", Int(count)), ("mantra_light_parms", Parms(parms))]
  }

  /** The rows of the loop, one per turn. */
  function AtomRows(nodeTypes: seq<string>, lightTypes: seq<Field>, counts: seq<int>, parms: seq<ParmTable>, n: nat)
    : (rows: seq<seq<(string, Field)>>)
    requires n <= |nodeTypes| && n <= |lightTypes| && n <= |counts| && n <= |parms|
    ensures |rows| == n
    ensures forall i :: 0 <= i < n ==> rows[i] == AtomFields(nodeTypes[i], lightTypes[i], counts[i], parms[i])
  {
    seq(n, i requires 0 <= i < n => AtomFields(nodeTypes[i], lightTypes[i], counts[i], parms[i]))
  }

  /** A catalog of tag entries as the top-level sections of a document. */
  function Wrap(c: Catalog): (d: LightData)
    ensures Keys(d) == Keys(c)
  {
    match c
    case Nil => Nil
    case Cons(tag, e, r) => Cons(tag, TagEntry(e), Wrap(r))
  }

  /** The entry under `tag`, or `{}` when the tag has no entry. */
  function TagEntryOf(d: LightData, tag: string): Entry {
    var s: Option<Section> := Get(d, tag);
    if s.Some? && s.value.TagEntry? then s.value.entry else Nil
  }

  /** `light_data_dict.setdefault(tag, {})[name] = v`, on a dict that holds only tag entries. */
  function SetTagField(d: LightData, tag: string, name: string, v: Field): LightData {
    Put(d, tag, TagEntry(Put(TagEntryOf(d, tag), name, v)))
  }

  lemma {:induction false} WrapGet(c: Catalog, tag: string)
    ensures Get(Wrap(c), tag) == if Get(c, tag).Some? then Some(TagEntry(Get(c, tag).value)) else None
  {
    match c
    case Nil =>
    case Cons(_, _, r) => WrapGet(r, tag);
  }

  /** Setting a field on the wrapped catalog is wrapping the catalog with the field set. */
  lemma {:induction false} SetTagFieldWrap(c: Catalog, tag: string, name: string, v: Field)
    ensures SetTagField(Wrap(c), tag, name, v) == Wrap(SetField(c, tag, name, v))
  {
    WrapGet(c, tag);
    assert TagEntryOf(Wrap(c), tag) == EntryOf(c, tag);
    PutWrap(c, tag, Put(EntryOf(c, tag), name, v));
  }

  lemma {:induction false} PutWrap(c: Catalog, tag: string, e: Entry)
    ensures Put(Wrap(c), tag, TagEntry(e)) == Wrap(Put(c, tag, e))
  {
    match c
    case Nil =>
    case Cons(t0, e0, r) =>
      if t0 != tag {
        PutWrap(r, tag, e);
      }
  }

  /** The document: the loop's entries at the top level, then the contribution names and
      the colour table. */
  function AtomDocument(tags: seq<string>, nodeTypes: seq<string>, lightTypes: seq<Field>, counts: seq<int>,
                        parms: seq<ParmTable>): LightData
  {
    var n := MantraTurns(tags, nodeTypes, lightTypes, counts, parms);
    var c := Fill(tags, AtomRows(nodeTypes, lightTypes, counts, parms, n), n);
    Put(Put(Wrap(c), "light_contribution_parms", ContribNames(MantraLightContribParms)),
      "color_light_params", ColorParms(ColorLightParams))
  }

  /** The script: the generation loop on the one dict, then the two extra keys. */
  method GenerateAtomData(tags: seq<string>, nodeTypes: seq<string>, lightTypes: seq<Field>, counts: seq<int>,
                          parms: seq<ParmTable>) returns (d: LightData)
    ensures d == AtomDocument(tags, nodeTypes, lightTypes, counts, parms)
  {
    var n := Min(Min(Min(Min(|tags|, |nodeTypes|), |lightTypes|), |counts|), |parms|);
    ghost var rows := AtomRows(nodeTypes, lightTypes, counts, parms, n);
    d := Nil;
    for i := 0 to n
      invariant d == Wrap(Fill(tags, rows, i))
    {
      ghost var c := Fill(tags, rows, i);
      var t := tags[i];
      var f := rows[i];
      AtomTurn(c, t, nodeTypes[i], lightTypes[i], counts[i], parms[i]);
      SetTagFieldWrap(c, t, "mantra_light_node_type", Text(nodeTypes[i]));
      c := SetField(c, t, "mantra_light_node_type", Text(nodeTypes[i]));
      d := SetTagField(d, t, "mantra_light_node_type", Text(nodeTypes[i]));
      SetTagFieldWrap(c, t, "mantra_light_type", lightTypes[i]);
      c := SetField(c, t, "mantra_light_type", lightTypes[i]);
      d := SetTagField(d, t, "mantra_light_type", lightTypes[i]);
      SetTagFieldWrap(c, t, "num_of_light_contributions", Int(counts[i]));
      c := SetField(c, t, "num_of_light_contributions", Int(counts[i]));
      d := SetTagField(d, t, "num_of_light_contributions", Int(counts[i]));
      SetTagFieldWrap(c, t, "mantra_light_parms", Parms(parms[i]));
      c := SetField(c, t, "mantra_light_parms", Parms(parms[i]));
      d := SetTagField(d, t, "mantra_light_parms", Parms(parms[i]));
    }
    d := Put(d, "light_contribution_parms", ContribNames(MantraLightContribParms));
    d := Put(d, "color_light_params", ColorParms(ColorLightParams));
  }

  /** One turn of the loop is its four `setdefault` assignments. */
  lemma AtomTurn(d: Catalog, tag: string, nodeType: string, lightType: Field, count: int, parms: ParmTable)
    ensures SetFields(d, tag, AtomFields(nodeType, lightType, count, parms)) ==
            SetField(SetField(SetField(SetField(d, tag, "mantra_light_node_type", Text(nodeType)),
              tag, "mantra_light_type", lightType), tag, "num_of_light_contributions", Int(count)),
              tag, "mantra_light_parms", Parms(parms))
  {
    var f := AtomFields(nodeType, lightType, count, parms);
    var d1 := SetField(d, tag, "mantra_light_node_type", Text(nodeType));
    var d2 := SetField(d1, tag, "mantra_light_type", lightType);
    var d3 := SetField(d2, tag, "num_of_light_contributions", Int(count));
    var d4 := SetField(d3, tag, "mantra_light_parms", Parms(parms));
    assert SetFields(d, tag, f) == SetFields(d1, tag, f[1..]);
    assert SetFields(d1, tag, f[1..]) == SetFields(d2, tag, f[2..]) by { assert f[1..][1..] == f[2..]; }
    assert SetFields(d2, tag, f[2..]) == SetFields(d3, tag, f[3..]) by { assert f[2..][1..] == f[3..]; }
    assert SetFields(d3, tag, f[3..]) == SetFields(d4, tag, []) by { assert f[3..][1..] == []; }
  }

  /** An entry holds exactly the four fields, in the order the loop sets them. */
  lemma AtomEntry(nodeType: string, lightType: Field, count: int, parms: ParmTable)
    ensures Assign(Nil, AtomFields(nodeType, lightType, count, parms)) ==
            Cons("mantra_light_node_type", Text(nodeType), Cons("mantra_light_type", lightType,
            Cons("num_of_light_contributions", Int(count), Cons("mantra_light_parms", Parms(parms), Nil))))
  {
    var f := AtomFields(nodeType, lightType, count, parms);
    assert f[2..][0] == ("num_of_light_contributions", Int(count)) && f[3..][0] == ("mantra_light_parms", Parms(parms));
    assert Put(Cons("mantra_light_type", lightType, Nil), "num_of_light_contributions", Int(count)) ==
           Cons("mantra_light_type", lightType, Cons("num_of_light_contributions", Int(count), Nil));
    assert Put(Cons("num_of_light_contributions", Int(count), Nil), "mantra_light_parms", Parms(parms)) ==
           Cons("num_of_light_contributions", Int(count), Cons("mantra_light_parms", Parms(parms), Nil));
    assert Put(Cons("mantra_light_type", lightType, Cons("num_of_light_contributions", Int(count), Nil)),
               "mantra_light_parms", Parms(parms)) ==
           Cons("mantra_light_type", lightType, Cons("num_of_light_contributions", Int(count),
             Cons("mantra_light_parms", Parms(parms), Nil)));
    AssignStep(Nil, f, Cons("mantra_light_node_type", Text(nodeType), Nil));
    AssignStep(Cons("mantra_light_node_type", Text(nodeType), Nil), f[1..],
      Cons("mantra_light_node_type", Text(nodeType), Cons("mantra_light_type", lightType, Nil)));
    AssignStep(Cons("mantra_light_node_type", Text(nodeType), Cons("mantra_light_type", lightType, Nil)), f[2..],
      Cons("mantra_light_node_type", Text(nodeType), Cons("mantra_light_type", lightType,
        Cons("num_of_light_contributions", Int(count), Nil))));
    AssignStep(Cons("mantra_light_node_type", Text(nodeType), Cons("mantra_light_type", lightType,
        Cons("num_of_light_contributions", Int(count), Nil))), f[3..],
      Cons("mantra_light_node_type", Text(nodeType), Cons("mantra_light_type", lightType,
        Cons("num_of_light_contributions", Int(count), Cons("mantra_light_parms", Parms(parms), Nil)))));
  }

  /** The loop over lists with distinct tags that differ from the two extra keys: one
      top-level entry per turn, keyed by the tag, then the two extra keys. */
  lemma AtomDocumentEntries(tags: seq<string>, nodeTypes: seq<string>, lightTypes: seq<Field>, counts: seq<int>,
                            parms: seq<ParmTable>)
    requires forall i, j :: 0 <= i < j < |tags| ==> tags[i] != tags[j]
    requires "light_contribution_parms" !in tags && "color_light_params" !in tags
    ensures var n := MantraTurns(tags, nodeTypes, lightTypes, counts, parms);
            && Keys(AtomDocument(tags, nodeTypes, lightTypes, counts, parms)) ==
               tags[..n] + ["light_contribution_parms", "color_light_params"]
            && forall i :: 0 <= i < n ==>
                 Get(AtomDocument(tags, nodeTypes, lightTypes, counts, parms), tags[i]) ==
                 Some(TagEntry(Cons("mantra_light_node_type", Text(nodeTypes[i]),
                               Cons("mantra_light_type", lightTypes[i],
                               Cons("num_of_light_contributions", Int(counts[i]),
                               Cons("mantra_light_parms", Parms(parms[i]), Nil))))))
  {
    var n := MantraTurns(tags, nodeTypes, lightTypes, counts, parms);
    var rows := AtomRows(nodeTypes, lightTypes, counts, parms, n);
    var c := Fill(tags, rows, n);
    FillEntries(tags, rows, n);
    assert "light_contribution_parms" !in tags[..n] && "color_light_params" !in tags[..n];
    GetIsSomeIffKey(Wrap(c), "light_contribution_parms");
    var d1 := Put(Wrap(c), "light_contribution_parms", ContribNames(MantraLightContribParms));
    PutKeys(Wrap(c), "light_contribution_parms", ContribNames(MantraLightContribParms));
    GetIsSomeIffKey(d1, "color_light_params");
    PutKeys(d1, "color_light_params", ColorParms(ColorLightParams));
    forall i | 0 <= i < n
      ensures Get(AtomDocument(tags, nodeTypes, lightTypes, counts, parms), tags[i]) ==
              Some(TagEntry(Cons("mantra_light_node_type", Text(nodeTypes[i]),
                            Cons("mantra_light_type", lightTypes[i],
                            Cons("num_of_light_contributions", Int(counts[i]),
                            Cons("mantra_light_parms", Parms(parms[i]), Nil))))))
    {
      AtomEntry(nodeTypes[i], lightTypes[i], counts[i], parms[i]);
      WrapGet(c, tags[i]);
      PutGet(Wrap(c), "light_contribution_parms", ContribNames(MantraLightContribParms), tags[i]);
      PutGet(d1, "color_light_params", ColorParms(ColorLightParams), tags[i]);
    }
  }

  /** The document built from the catalog lists and a list of twelve tables (the script
      passes the merged tables, `MantraLightParms`): the twelve tags in list order followed
      by the two extra keys, each tag holding exactly its node type, light type,
      contribution count and table from the same position of the lists. */
  lemma AtomDocumentContents(parms: seq<ParmTable>)
    requires |parms| == |MantraLightType|
    ensures Keys(AtomDocument(MantraLightType, MantraLightNodeType, MantraLightNodeSubType, MantraNumOfLightContrib,
                              parms)) == MantraLightType + ["light_contribution_parms", "color_light_params"]
    ensures forall i :: 0 <= i < |MantraLightType| ==>
              Get(AtomDocument(MantraLightType, MantraLightNodeType, MantraLightNodeSubType, MantraNumOfLightContrib,
                               parms), MantraLightType[i]) ==
              Some(TagEntry(Cons("mantra_light_node_type", Text(MantraLightNodeType[i]),
                            Cons("mantra_light_type", MantraLightNodeSubType[i],
                            Cons("num_of_light_contributions", Int(MantraNumOfLightContrib[i]),
                            Cons("mantra_light_parms", Parms(parms[i]), Nil))))))
  {
    TagListLengths();
    MantraTagsDistinct();
    assert "light_contribution_parms" !in MantraLightType && "color_light_params" !in MantraLightType;
    AtomDocumentEntries(MantraLightType, MantraLightNodeType, MantraLightNodeSubType, MantraNumOfLightContrib, parms);
    assert MantraLightType[..12] == MantraLightType;
  }

  /** `aiRoundness` has the empty parm name in the area and quad tables and is absent from
      every other Mantra table. */
  lemma RoundnessOnlyAreaAndQuad()
    ensures Get(MantraAreaTable, aiRoundness) == Some(One(""))
    ensures Get(MantraQuadTable, aiRoundness) == Some(One(""))
    ensures Get(MantraPointPTable, aiRoundness) == None && Get(MantraPointSTable, aiRoundness) == None
    ensures Get(MantraDirectionalDTable, aiRoundness) == None && Get(MantraDirectionalSTable, aiRoundness) == None
    ensures Get(MantraSpotPTable, aiRoundness) == None && Get(MantraSpotSTable, aiRoundness) == None
    ensures Get(MantraDiskTable, aiRoundness) == None && Get(MantraCylinderCTable, aiRoundness) == None
    ensures Get(MantraCylinderLTable, aiRoundness) == None && Get(MantraSkydomeTable, aiRoundness) == None
  {
    MantraAreaRoundness();
    MantraQuadRoundness();
    MantraPointPRoundness();
    MantraPointSRoundness();
    MantraDirectionalDRoundness();
    MantraDirectionalSRoundness();
    MantraSpotPRoundness();
    MantraSpotSRoundness();
    MantraDiskRoundness();
    MantraCylinderCRoundness();
    MantraCylinderLRoundness();
    MantraSkydomeRoundness();
  }
}
