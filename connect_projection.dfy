/** The connect projection, src/generator/compute-model-params/compute-connect-dto-params.ts: the
    id fields followed by the unique fields, de-duplicated, each optional when more than one field
    qualifies (so that any one of them may identify the record). */
module ConnectProjection {
  import opened Wrappers
  import opened Seqs
  import opened Dmmf
  import opened FieldClassifiers

  /** The id fields, then the unique fields, in declared order. */
  function ConnectCandidates(fields: seq<Field>): seq<Field> {
    Filter(fields, IsId) + Filter(fields, IsUnique)
  }

  /** `uniq([...idFields, ...isUniqueFields])`. */
  function ConnectUniqueFields(fields: seq<Field>): seq<Field> {
    Uniq(ConnectCandidates(fields))
  }

  /** `{ isRequired: false }` when more than one field qualifies, no override otherwise. */
  function ConnectOverrides(uniqueFields: seq<Field>): Overrides {
    if |uniqueFields| > 1 then Overrides(Some(false), None, None, None) else NoOverrides
  }

  /** `uniqueFields.map((field) => mapDMMFToParsedField(field, overrides))`. */
  function MapWith(fs: seq<Field>, ov: Overrides): (r: seq<ParsedField>)
    ensures |r| == |fs|
    ensures forall k :: 0 <= k < |fs| ==> r[k] == MapDMMFToParsedField(fs[k], ov)
  {
    seq(|fs|, k requires 0 <= k < |fs| => MapDMMFToParsedField(fs[k], ov))
  }

  /** `computeConnectDtoParams({ model })`. */
  function ComputeConnectDtoParams(model: Model): ConnectDtoParams {
    var uniqueFields := ConnectUniqueFields(model.fields);
    ConnectDtoParams(model, MapWith(uniqueFields, ConnectOverrides(uniqueFields)))
  }

  /** The qualifying fields are exactly the ids and the uniques, without repetition, at most
      `|ids| + |uniques|` of them, and the ids come first. */
  lemma ConnectUniqueFieldsFacts(fields: seq<Field>)
    ensures forall f :: f in ConnectUniqueFields(fields) <==> f in fields && (IsId(f) || IsUnique(f))
    ensures NoDuplicates(ConnectUniqueFields(fields))
    ensures |ConnectUniqueFields(fields)| <= |Filter(fields, IsId)| + |Filter(fields, IsUnique)|
    ensures var ids := Uniq(Filter(fields, IsId));
      |ids| <= |ConnectUniqueFields(fields)| && ConnectUniqueFields(fields)[..|ids|] == ids
  {
    var ids := Filter(fields, IsId);
    var uniques := Filter(fields, IsUnique);
    UniqFacts(ids + uniques);
    UniqFromAppend([], ids, uniques);
    UniqFacts(ids);
    UniqFromFacts(Uniq(ids), uniques);
  }

  /** Every emitted field is the parsed form of an id or unique field of the model, and every id
      and unique field is emitted; no other field ever is. */
  lemma ConnectFieldsMember(model: Model, p: ParsedField)
    ensures p in ComputeConnectDtoParams(model).fields <==>
      exists f :: f in model.fields && (IsId(f) || IsUnique(f))
        && p == MapDMMFToParsedField(f, ConnectOverrides(ConnectUniqueFields(model.fields)))
    ensures p in ComputeConnectDtoParams(model).fields ==> p.isId || p.isUnique
  {
    var u := ConnectUniqueFields(model.fields);
    ConnectUniqueFieldsFacts(model.fields);
    MapWithMember(u, ConnectOverrides(u), p);
  }

  /** An element of `MapWith` is the image of an element of its input. */
  lemma MapWithMember(fs: seq<Field>, ov: Overrides, p: ParsedField)
    ensures p in MapWith(fs, ov) <==> exists f :: f in fs && p == MapDMMFToParsedField(f, ov)
  {
    if p in MapWith(fs, ov) {
      var k :| 0 <= k < |fs| && MapWith(fs, ov)[k] == p;
      assert fs[k] in fs;
    }
    if exists f :: f in fs && p == MapDMMFToParsedField(f, ov) {
      var f :| f in fs && p == MapDMMFToParsedField(f, ov);
      var k :| 0 <= k < |fs| && fs[k] == f;
      assert MapWith(fs, ov)[k] == p;
    }
  }

  /** With more than one qualifying field every emitted field is optional; with at most one, the
      schema's `isRequired` is kept. Nullability is left unset; every other property is the field's
      own. */
  lemma ConnectRequiredRule(model: Model)
    ensures var u := ConnectUniqueFields(model.fields);
      var r := ComputeConnectDtoParams(model);
      && r.model == model
      && |r.fields| == |u|
      && (forall k :: 0 <= k < |u| ==> BaseField(r.fields[k]).(isRequired := u[k].isRequired) == u[k])
      && (|u| > 1 ==> forall k :: 0 <= k < |u| ==> !r.fields[k].isRequired)
      && (|u| <= 1 ==> forall k :: 0 <= k < |u| ==> r.fields[k].isRequired == u[k].isRequired)
      && (forall k :: 0 <= k < |u| ==> r.fields[k].isNullable.None?)
  {
  }
}
