/** The older connect projection, src/generator/compute-connect-dto-params.ts: the id fields then
    the unique fields, without de-duplication and without overrides. */
module LegacyConnectProjection {
  import opened Wrappers
  import opened Seqs
  import opened Dmmf
  import opened FieldClassifiers
  import opened ConnectProjection

  /** `computeConnectDtoParams({ model })` of the older version. */
  function ComputeLegacyConnectDtoParams(model: Model): ConnectDtoParams {
    ConnectDtoParams(model, MapWith(ConnectCandidates(model.fields), NoOverrides))
  }

  /** The ids come first and then the uniques, each as its own parsed form with the schema's
      `isRequired`; the length is exactly `|ids| + |uniques|` and the model is returned as is. */
  lemma LegacyConnectLayout(model: Model)
    ensures ComputeLegacyConnectDtoParams(model).model == model
    ensures |ComputeLegacyConnectDtoParams(model).fields| == |Filter(model.fields, IsId)| + |Filter(model.fields, IsUnique)|
    ensures var ids := Filter(model.fields, IsId);
      forall k :: 0 <= k < |ids| ==> ComputeLegacyConnectDtoParams(model).fields[k] == MapDMMFToParsedField(ids[k])
    ensures var ids := Filter(model.fields, IsId);
      var uniques := Filter(model.fields, IsUnique);
      forall k :: 0 <= k < |uniques| ==>
        ComputeLegacyConnectDtoParams(model).fields[|ids| + k] == MapDMMFToParsedField(uniques[k])
    ensures var c := ConnectCandidates(model.fields);
      forall k :: 0 <= k < |c| ==> ComputeLegacyConnectDtoParams(model).fields[k].isRequired == c[k].isRequired
  {
    var ids := Filter(model.fields, IsId);
    var uniques := Filter(model.fields, IsUnique);
    var c := ConnectCandidates(model.fields);
    assert forall k :: 0 <= k < |uniques| ==> c[|ids| + k] == uniques[k];
  }

  /** A field that is both an id and unique is emitted twice. */
  lemma IdAndUniqueAppearsTwice(model: Model, f: Field)
    requires f in model.fields && IsId(f) && IsUnique(f)
    ensures multiset(ComputeLegacyConnectDtoParams(model).fields)[MapDMMFToParsedField(f)] >= 2
  {
    var ids := Filter(model.fields, IsId);
    var uniques := Filter(model.fields, IsUnique);
    var r := ComputeLegacyConnectDtoParams(model).fields;
    var fi :| 0 <= fi < |model.fields| && model.fields[fi] == f;
    assert f in ids && f in uniques;
    var i :| 0 <= i < |ids| && ids[i] == f;
    var j :| 0 <= j < |uniques| && uniques[j] == f;
    var c := ConnectCandidates(model.fields);
    assert c[i] == f && c[|ids| + j] == f;
    assert r[i] == MapDMMFToParsedField(f) == r[|ids| + j];
    TwoPositions(r, i, |ids| + j);
  }
}
