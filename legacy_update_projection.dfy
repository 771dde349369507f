/** The older update projection, src/generator/compute-update-dto-params.ts. It differs from the
    current one: `@DtoUpdateHidden` fields and every id are dropped outright, an `@updatedAt`
    field is kept only with the create marker `@DtoCreateOptional`, required fields with a default
    are kept, and the imports start with the model's Prisma-client import (possibly undefined) and
    a fixed swagger import, unzipped. The per-field overrides are those of the current version. */
module LegacyUpdateProjection {
  import opened Wrappers
  import opened Seqs
  import opened Dmmf
  import opened Annotations
  import opened FieldClassifiers
  import opened Collaborators
  import opened UpdateProjection

  /** The older `UpdateDtoParams`: its `imports` array may hold `undefined` in front. */
  datatype LegacyUpdateParams = LegacyUpdateParams(
    model: Model,
    fields: seq<ParsedField>,
    imports: seq<Option<ImportStatement>>,
    extraClasses: seq<string>,
    apiExtraModels: seq<string>)

  /** The fixed swagger import every legacy update projection starts with. */
  const LegacySwaggerImport := NamedImport("@nestjs/swagger", ["ApiExtraModels"])

  /** A field that reaches the relation-input synthesizer in this version: not hidden, not
      read-only, not an id, a relation, and annotated with an on-update modifier. */
  predicate LegacyRequestsRelationInput(f: Field) {
    && !IsAnnotatedWith(f, DtoUpdateHidden) && !IsReadOnly(f) && !IsId(f)
    && IsRelation(f) && IsAnnotatedWithOneOf(f, DtoRelationModifiersOnUpdate)
  }

  /** The exclusions, in the order this version applies them. */
  predicate LegacyKeeps(fields: seq<Field>, f: Field) {
    && !IsAnnotatedWith(f, DtoUpdateHidden)
    && !IsReadOnly(f)
    && !IsId(f)
    && (IsRelation(f) ==> IsAnnotatedWithOneOf(f, DtoRelationModifiersOnUpdate))
    && f.name !in GetRelationScalars(fields)
    && (!IsAnnotatedWith(f, DtoCreateOptional) ==> !IsUpdatedAt(f))
  }

  function LegacyFieldsOf(model: Model, allModels: seq<Model>, env: Env, fs: seq<Field>): seq<ParsedField> {
    FilterMap(fs, (f: Field) => LegacyKeeps(model.fields, f), (f: Field) => UpdateField(model, allModels, env, f))
  }

  function LegacyInputsOf(model: Model, allModels: seq<Model>, env: Env, fs: seq<Field>): seq<RelationInput> {
    FilterMap(fs, LegacyRequestsRelationInput, (f: Field) => UpdateRelationInput(model, allModels, env, f))
  }

  /** A synthesized input's imports as entries of the possibly-undefined `imports` array. */
  function PresentImports(ri: RelationInput): seq<Option<ImportStatement>> {
    seq(|ri.imports|, k requires 0 <= k < |ri.imports| => Some(ri.imports[k]))
  }

  /** Each entry is the defined counterpart of the import at the same position. */
  lemma PresentImportsFacts(ri: RelationInput)
    ensures |PresentImports(ri)| == |ri.imports|
    ensures forall k :: 0 <= k < |ri.imports| ==> PresentImports(ri)[k] == Some(ri.imports[k])
  {
  }

  /** The whole projection. */
  function LegacyUpdateSpec(model: Model, allModels: seq<Model>, env: Env): LegacyUpdateParams {
    var inputs := LegacyInputsOf(model, allModels, env, model.fields);
    LegacyUpdateParams(
      model,
      LegacyFieldsOf(model, allModels, env, model.fields),
      [env.importHelpers.importsFromPrismaClientForModel(model), Some(LegacySwaggerImport)]
        + ConcatMap(inputs, PresentImports),
      ConcatMap(inputs, InputClasses),
      ConcatMap(inputs, InputExtraModels))
  }

  /** What one more field adds to the emitted fields and to the collected arrays. */
  lemma LegacyStepFacts(model: Model, allModels: seq<Model>, env: Env, fs: seq<Field>, i: nat)
    requires i < |fs|
    ensures LegacyFieldsOf(model, allModels, env, fs[..i + 1]) == LegacyFieldsOf(model, allModels, env, fs[..i])
      + (if LegacyKeeps(model.fields, fs[i]) then [UpdateField(model, allModels, env, fs[i])] else [])
    ensures var ris := LegacyInputsOf(model, allModels, env, fs[..i]);
      var ris' := LegacyInputsOf(model, allModels, env, fs[..i + 1]);
      var ri := UpdateRelationInput(model, allModels, env, fs[i]);
      if LegacyRequestsRelationInput(fs[i]) then
        && ConcatMap(ris', PresentImports) == ConcatMap(ris, PresentImports) + PresentImports(ri)
        && ConcatMap(ris', InputClasses) == ConcatMap(ris, InputClasses) + ri.generatedClasses
        && ConcatMap(ris', InputExtraModels) == ConcatMap(ris, InputExtraModels) + ri.apiExtraModels
      else ris' == ris
  {
    assert fs[..i + 1][..i] == fs[..i];
    var ris := LegacyInputsOf(model, allModels, env, fs[..i]);
    if LegacyRequestsRelationInput(fs[i]) {
      var ri := UpdateRelationInput(model, allModels, env, fs[i]);
      assert LegacyInputsOf(model, allModels, env, fs[..i + 1]) == ris + [ri];
      ConcatMapSnoc(ris, ri, PresentImports);
      ConcatMapSnoc(ris, ri, InputClasses);
      ConcatMapSnoc(ris, ri, InputExtraModels);
    }
  }

  /** The older `computeUpdateDtoParams`: a reduce over the fields appending to the pre-seeded
      `imports` and to `extraClasses` and `apiExtraModels`. */
  method ComputeLegacyUpdateDtoParams(model: Model, allModels: seq<Model>, env: Env) returns (r: LegacyUpdateParams)
    ensures r == LegacyUpdateSpec(model, allModels, env)
  {
    var imports: seq<Option<ImportStatement>> :=
      [env.importHelpers.importsFromPrismaClientForModel(model), Some(LegacySwaggerImport)];
    ghost var seed := imports;
    ghost var related: seq<Option<ImportStatement>> := [];
    var relationScalarFields := GetRelationScalars(model.fields);
    var extraClasses: seq<string> := [];
    var apiExtraModels: seq<string> := [];
    var fields: seq<ParsedField> := [];
    for i := 0 to |model.fields|
      invariant fields == LegacyFieldsOf(model, allModels, env, model.fields[..i])
      invariant imports == seed + related
      invariant related == ConcatMap(LegacyInputsOf(model, allModels, env, model.fields[..i]), PresentImports)
      invariant extraClasses == ConcatMap(LegacyInputsOf(model, allModels, env, model.fields[..i]), InputClasses)
      invariant apiExtraModels == ConcatMap(LegacyInputsOf(model, allModels, env, model.fields[..i]), InputExtraModels)
    {
      var field := model.fields[i];
      LegacyStepFacts(model, allModels, env, model.fields, i);
      var overrides := Overrides(Some(false), None, None, None);
      if IsAnnotatedWith(field, DtoUpdateHidden) || IsReadOnly(field) || IsId(field) {
        continue;
      }
      if IsRelation(field) {
        if !IsAnnotatedWithOneOf(field, DtoRelationModifiersOnUpdate) {
          continue;
        }
        var relationInputType := env.generateRelationInput(UpdateRelationRequest(model, allModels, env, field));
        overrides := overrides.(typeName := Some(relationInputType.typeName), isList := Some(false));
        AppendAssoc(seed, related, PresentImports(relationInputType));
        imports := imports + PresentImports(relationInputType);
        related := related + PresentImports(relationInputType);
        extraClasses := extraClasses + relationInputType.generatedClasses;
        apiExtraModels := apiExtraModels + relationInputType.apiExtraModels;
      }
      if field.name in relationScalarFields {
        continue;
      }
      var isDtoOptional := IsAnnotatedWith(field, DtoCreateOptional);
      if !isDtoOptional {
        if IsUpdatedAt(field) {
          continue;
        }
      }
      fields := fields + [MapDMMFToParsedField(field, overrides)];
    }
    assert model.fields[..|model.fields|] == model.fields;
    r := LegacyUpdateParams(model, fields, imports, extraClasses, apiExtraModels);
  }

  // ---------------------------------------------------------------------------------------------
  // Properties of the projection

  /** An emitted field is the parsed form of a kept field, and every kept field is emitted. */
  lemma LegacyFieldsMember(model: Model, allModels: seq<Model>, env: Env, p: ParsedField)
    ensures p in LegacyUpdateSpec(model, allModels, env).fields <==>
      exists i :: 0 <= i < |model.fields| && LegacyKeeps(model.fields, model.fields[i])
        && p == UpdateField(model, allModels, env, model.fields[i])
  {
    FilterMapMember(model.fields, (f: Field) => LegacyKeeps(model.fields, f),
                    (f: Field) => UpdateField(model, allModels, env, f), p);
  }

  /** What is never emitted: a required field, an `@DtoUpdateHidden` field, a read-only field,
      any id, a relation without an on-update modifier or as a list, a foreign-key scalar, and an
      `@updatedAt` field without `@DtoCreateOptional`. */
  lemma LegacyFieldsExclusions(model: Model, allModels: seq<Model>, env: Env, p: ParsedField)
    requires p in LegacyUpdateSpec(model, allModels, env).fields
    ensures !p.isRequired
    ensures !Matches(p.documentation, DtoUpdateHidden)
    ensures !p.isReadOnly && !Matches(p.documentation, DtoReadOnly)
    ensures !p.isId
    ensures p.kind == Object ==> !p.isList && MatchesOneOf(p.documentation, DtoRelationModifiersOnUpdate)
    ensures p.name !in GetRelationScalars(model.fields)
    ensures p.isUpdatedAt ==> Matches(p.documentation, DtoCreateOptional)
  {
    LegacyFieldsMember(model, allModels, env, p);
    var i :| 0 <= i < |model.fields| && LegacyKeeps(model.fields, model.fields[i])
      && p == UpdateField(model, allModels, env, model.fields[i]);
    UpdateFieldRules(model, allModels, env, model.fields[i]);
  }

  /** A plain field that is not hidden, read-only, an id, a foreign-key scalar or `@updatedAt`
      is emitted, whether or not it is required with a default value. */
  lemma LegacyKeepsRequiredWithDefault(model: Model, allModels: seq<Model>, env: Env, i: int)
    requires 0 <= i < |model.fields|
    requires var f := model.fields[i];
      !IsAnnotatedWith(f, DtoUpdateHidden) && !IsReadOnly(f) && !IsId(f) && !IsRelation(f)
      && f.name !in GetRelationScalars(model.fields) && !IsUpdatedAt(f)
    ensures UpdateField(model, allModels, env, model.fields[i]) in LegacyUpdateSpec(model, allModels, env).fields
  {
    LegacyFieldsMember(model, allModels, env, UpdateField(model, allModels, env, model.fields[i]));
  }

  /** Emitted fields keep the declared order. */
  lemma LegacyFieldsInOrder(model: Model, allModels: seq<Model>, env: Env)
    ensures var keep := (f: Field) => LegacyKeeps(model.fields, f);
      var ks := KeptIndices(model.fields, keep);
      |ks| == |LegacyUpdateSpec(model, allModels, env).fields|
      && (forall k :: 0 <= k < |ks| ==>
            LegacyUpdateSpec(model, allModels, env).fields[k] == UpdateField(model, allModels, env, model.fields[ks[k]]))
      && (forall k, l :: 0 <= k < l < |ks| ==> ks[k] < ks[l])
  {
    FilterMapOrder(model.fields, (f: Field) => LegacyKeeps(model.fields, f),
                   (f: Field) => UpdateField(model, allModels, env, f));
  }

  /** `imp` comes from the synthesized input of a relation that requests one. */
  predicate ImportFromLegacyInput(model: Model, allModels: seq<Model>, env: Env, imp: ImportStatement) {
    exists i :: 0 <= i < |model.fields| && LegacyRequestsRelationInput(model.fields[i])
      && imp in UpdateRelationInput(model, allModels, env, model.fields[i]).imports
  }

  /** The imports start with the model's Prisma-client import (undefined when there is none) and
      the fixed swagger import; every later entry is defined and comes from the synthesized input
      of a relation with an on-update modifier. */
  lemma LegacyImportsLayout(model: Model, allModels: seq<Model>, env: Env)
    ensures var imports := LegacyUpdateSpec(model, allModels, env).imports;
      && |imports| >= 2
      && imports[0] == env.importHelpers.importsFromPrismaClientForModel(model)
      && imports[1] == Some(NamedImport("@nestjs/swagger", ["ApiExtraModels"]))
      && forall k :: 2 <= k < |imports| ==> imports[k].Some? && ImportFromLegacyInput(model, allModels, env, imports[k].value)
  {
    var inputs := LegacyInputsOf(model, allModels, env, model.fields);
    var imports := LegacyUpdateSpec(model, allModels, env).imports;
    var rest := ConcatMap(inputs, PresentImports);
    forall k | 2 <= k < |imports|
      ensures imports[k].Some? && ImportFromLegacyInput(model, allModels, env, imports[k].value)
    {
      assert imports[k] == rest[k - 2];
      ConcatMapMember(inputs, PresentImports, imports[k]);
      var j :| 0 <= j < |inputs| && imports[k] in PresentImports(inputs[j]);
      PresentImportsFacts(inputs[j]);
      var m :| 0 <= m < |PresentImports(inputs[j])| && PresentImports(inputs[j])[m] == imports[k];
      assert imports[k].value in inputs[j].imports;
      assert inputs[j] in inputs;
      FilterMapMember(model.fields, LegacyRequestsRelationInput,
                      (f: Field) => UpdateRelationInput(model, allModels, env, f), inputs[j]);
    }
  }
}
