/** The update projection, src/generator/compute-model-params/compute-update-dto-params.ts. Every
    emitted field is optional. Read-only fields, relations without an on-update modifier and
    foreign-key scalars are dropped; ids, `@updatedAt` fields and required fields with a default
    are dropped too unless annotated `@DtoUpdateOptional`. A relation with an on-update modifier
    is typed by the relation-input synthesizer, whose imports, generated classes and extra models
    are collected even when the field is later dropped as a foreign key. */
module UpdateProjection {
  import opened Wrappers
  import opened Seqs
  import opened Dmmf
  import opened Annotations
  import opened FieldClassifiers
  import opened Collaborators

  /** The request passed to `generateRelationInput` for a relation field of `model`. */
  function UpdateRelationRequest(model: Model, allModels: seq<Model>, env: Env, f: Field): RelationInputRequest {
    RelationInputRequest(f, model, allModels, env.templateHelpers, env.templateHelpers.updateDtoName,
                         DtoRelationCanCreateOnUpdate, DtoRelationCanConnectOnUpdate)
  }

  function UpdateRelationInput(model: Model, allModels: seq<Model>, env: Env, f: Field): RelationInput {
    env.generateRelationInput(UpdateRelationRequest(model, allModels, env, f))
  }

  /** A field that reaches the relation-input synthesizer: not read-only, a relation, and
      annotated with one of the on-update modifiers. */
  predicate RequestsRelationInput(f: Field) {
    !IsReadOnly(f) && IsRelation(f) && IsAnnotatedWithOneOf(f, DtoRelationModifiersOnUpdate)
  }

  /** The exclusions, in the order the reduce applies them. */
  predicate UpdateKeeps(fields: seq<Field>, f: Field) {
    && !IsReadOnly(f)
    && (IsRelation(f) ==> IsAnnotatedWithOneOf(f, DtoRelationModifiersOnUpdate))
    && f.name !in GetRelationScalars(fields)
    && (!IsAnnotatedWith(f, DtoUpdateOptional) ==> !IsId(f) && !IsUpdatedAt(f) && !IsRequiredWithDefault(f))
  }

  /** Every field becomes optional; a relation takes the synthesized input type and is a single
      value. */
  function UpdateOverrides(model: Model, allModels: seq<Model>, env: Env, f: Field): Overrides {
    if IsRelation(f) then
      Overrides(Some(false), None, Some(UpdateRelationInput(model, allModels, env, f).typeName), Some(false))
    else
      Overrides(Some(false), None, None, None)
  }

  function UpdateField(model: Model, allModels: seq<Model>, env: Env, f: Field): ParsedField {
    MapDMMFToParsedField(f, UpdateOverrides(model, allModels, env, f))
  }

  /** The parsed fields emitted for the fields `fs` of `model`. */
  function UpdateFieldsOf(model: Model, allModels: seq<Model>, env: Env, fs: seq<Field>): seq<ParsedField> {
    FilterMap(fs, (f: Field) => UpdateKeeps(model.fields, f), (f: Field) => UpdateField(model, allModels, env, f))
  }

  /** The synthesized relation inputs of the fields `fs`, in field order. */
  function RelationInputsOf(model: Model, allModels: seq<Model>, env: Env, fs: seq<Field>): seq<RelationInput> {
    FilterMap(fs, RequestsRelationInput, (f: Field) => UpdateRelationInput(model, allModels, env, f))
  }

  function InputImports(ri: RelationInput): seq<ImportStatement> { ri.imports }
  function InputClasses(ri: RelationInput): seq<string> { ri.generatedClasses }
  function InputExtraModels(ri: RelationInput): seq<string> { ri.apiExtraModels }

  /** Some emitted field is an enum. */
  predicate HasEnum(fields: seq<ParsedField>) {
    exists k :: 0 <= k < |fields| && fields[k].kind == Enum
  }

  /** Appending a field turns `HasEnum` on exactly when that field is an enum. */
  lemma HasEnumSnoc(fields: seq<ParsedField>, p: ParsedField)
    ensures HasEnum(fields + [p]) <==> HasEnum(fields) || p.kind == Enum
  {
    if HasEnum(fields) {
      var k :| 0 <= k < |fields| && fields[k].kind == Enum;
      assert (fields + [p])[k] == fields[k];
    }
    if p.kind == Enum {
      assert (fields + [p])[|fields|] == p;
    }
    if HasEnum(fields + [p]) {
      var k :| 0 <= k < |fields + [p]| && (fields + [p])[k].kind == Enum;
      if k < |fields| {
        assert fields[k] == (fields + [p])[k];
      }
    }
  }

  /** The `@nestjs/swagger` import: `ApiExtraModels` when there are extra models, `ApiProperty`
      when some field is an enum, and no import when neither is needed. */
  function SwaggerImport(apiExtraModels: seq<string>, hasEnum: bool): Option<ImportStatement> {
    if |apiExtraModels| > 0 || hasEnum then
      Some(NamedImport("@nestjs/swagger",
        (if |apiExtraModels| > 0 then ["ApiExtraModels"] else []) + (if hasEnum then ["ApiProperty"] else [])))
    else None
  }

  /** The whole projection: `computeUpdateDtoParams({ model, allModels, templateHelpers })`. */
  function UpdateSpec(model: Model, allModels: seq<Model>, env: Env): DtoParams {
    var fields := UpdateFieldsOf(model, allModels, env, model.fields);
    var inputs := RelationInputsOf(model, allModels, env, model.fields);
    var apiExtraModels := ConcatMap(inputs, InputExtraModels);
    var imports := PrependSome(env.importHelpers.importsFromPrismaClientForModel(model),
      PrependSome(SwaggerImport(apiExtraModels, HasEnum(fields)), ConcatMap(inputs, InputImports)));
    DtoParams(model, fields, env.importHelpers.zipImportStatementParams(imports),
              ConcatMap(inputs, InputClasses), apiExtraModels)
  }

  /** What one more field adds to the emitted fields and to the synthesized inputs. */
  lemma UpdateStepFacts(model: Model, allModels: seq<Model>, env: Env, fs: seq<Field>, i: nat)
    requires i < |fs|
    ensures UpdateFieldsOf(model, allModels, env, fs[..i + 1]) == UpdateFieldsOf(model, allModels, env, fs[..i])
      + (if UpdateKeeps(model.fields, fs[i]) then [UpdateField(model, allModels, env, fs[i])] else [])
    ensures RelationInputsOf(model, allModels, env, fs[..i + 1]) == RelationInputsOf(model, allModels, env, fs[..i])
      + (if RequestsRelationInput(fs[i]) then [UpdateRelationInput(model, allModels, env, fs[i])] else [])
  {
    assert fs[..i + 1][..i] == fs[..i];
  }

  /** `computeUpdateDtoParams`: the reduce over the fields, appending to the shared `imports`,
      `extraClasses` and `apiExtraModels` arrays and setting `hasEnum`. */
  method ComputeUpdateDtoParams(model: Model, allModels: seq<Model>, env: Env) returns (r: DtoParams)
    ensures r == UpdateSpec(model, allModels, env)
  {
    var hasEnum := false;
    var imports: seq<ImportStatement> := [];
    var extraClasses: seq<string> := [];
    var apiExtraModels: seq<string> := [];
    var relationScalarFields := GetRelationScalars(model.fields);
    var fields: seq<ParsedField> := [];
    ghost var inputs: seq<RelationInput> := [];
    for i := 0 to |model.fields|
      invariant fields == UpdateFieldsOf(model, allModels, env, model.fields[..i])
      invariant inputs == RelationInputsOf(model, allModels, env, model.fields[..i])
      invariant imports == ConcatMap(inputs, InputImports)
      invariant extraClasses == ConcatMap(inputs, InputClasses)
      invariant apiExtraModels == ConcatMap(inputs, InputExtraModels)
      invariant hasEnum == HasEnum(fields)
    {
      var field := model.fields[i];
      UpdateStepFacts(model, allModels, env, model.fields, i);
      var overrides := Overrides(Some(false), None, None, None);
      if IsReadOnly(field) {
        continue;
      }
      if IsRelation(field) {
        if !IsAnnotatedWithOneOf(field, DtoRelationModifiersOnUpdate) {
          continue;
        }
        var relationInputType := env.generateRelationInput(UpdateRelationRequest(model, allModels, env, field));
        overrides := overrides.(typeName := Some(relationInputType.typeName), isList := Some(false));
        ConcatMapSnoc(inputs, relationInputType, InputImports);
        ConcatMapSnoc(inputs, relationInputType, InputClasses);
        ConcatMapSnoc(inputs, relationInputType, InputExtraModels);
        imports := imports + relationInputType.imports;
        extraClasses := extraClasses + relationInputType.generatedClasses;
        apiExtraModels := apiExtraModels + relationInputType.apiExtraModels;
        inputs := inputs + [relationInputType];
      }
      if field.name in relationScalarFields {
        continue;
      }
      var isDtoOptional := IsAnnotatedWith(field, DtoUpdateOptional);
      if !isDtoOptional {
        if IsId(field) || IsUpdatedAt(field) || IsRequiredWithDefault(field) {
          continue;
        }
      }
      if field.kind == Enum {
        hasEnum := true;
      }
      assert overrides == UpdateOverrides(model, allModels, env, field);
      HasEnumSnoc(fields, MapDMMFToParsedField(field, overrides));
      fields := fields + [MapDMMFToParsedField(field, overrides)];
    }
    assert model.fields[..|model.fields|] == model.fields;
    var swagger := SwaggerImport(apiExtraModels, hasEnum);
    if swagger.Some? {
      imports := [swagger.value] + imports;
    }
    var importPrismaClient := env.importHelpers.importsFromPrismaClientForModel(model);
    if importPrismaClient.Some? {
      imports := [importPrismaClient.value] + imports;
    }
    r := DtoParams(model, fields, env.importHelpers.zipImportStatementParams(imports), extraClasses, apiExtraModels);
  }

  // ---------------------------------------------------------------------------------------------
  // Properties of the projection

  /** One field's parsed form: always optional, no nullability; a relation takes the synthesized
      type and is a single value, any other field keeps its type and list-ness. */
  lemma UpdateFieldRules(model: Model, allModels: seq<Model>, env: Env, f: Field)
    ensures var p := UpdateField(model, allModels, env, f);
      !p.isRequired && p.isNullable.None? && p.name == f.name && p.kind == f.kind && p.documentation == f.documentation
      && p.isId == f.isId && p.isUpdatedAt == f.isUpdatedAt && p.isReadOnly == f.isReadOnly
    ensures var p := UpdateField(model, allModels, env, f);
      IsRelation(f) ==> p.typeName == UpdateRelationInput(model, allModels, env, f).typeName && !p.isList
    ensures var p := UpdateField(model, allModels, env, f);
      !IsRelation(f) ==> p.typeName == f.typeName && p.isList == f.isList
  {
  }

  /** An emitted field is the parsed form of a kept field, and every kept field is emitted. */
  lemma UpdateFieldsMember(model: Model, allModels: seq<Model>, env: Env, p: ParsedField)
    ensures p in UpdateSpec(model, allModels, env).fields <==>
      exists i :: 0 <= i < |model.fields| && UpdateKeeps(model.fields, model.fields[i])
        && p == UpdateField(model, allModels, env, model.fields[i])
  {
    FilterMapMember(model.fields, (f: Field) => UpdateKeeps(model.fields, f),
                    (f: Field) => UpdateField(model, allModels, env, f), p);
  }

  /** What is never emitted: a required field, a read-only field (flag or `@DtoReadOnly`), a
      foreign-key scalar, a relation without an on-update modifier or as a list, and, without
      `@DtoUpdateOptional`, an id, an `@updatedAt` field or a field that the schema requires and
      that has a default value (the last read on the source field, since every emitted field is
      optional). */
  lemma UpdateFieldsExclusions(model: Model, allModels: seq<Model>, env: Env, p: ParsedField)
    requires p in UpdateSpec(model, allModels, env).fields
    ensures !p.isRequired && p.isNullable.None?
    ensures !p.isReadOnly && !Matches(p.documentation, DtoReadOnly)
    ensures p.name !in GetRelationScalars(model.fields)
    ensures p.kind == Object ==> !p.isList && MatchesOneOf(p.documentation, DtoRelationModifiersOnUpdate)
    ensures !Matches(p.documentation, DtoUpdateOptional) ==> !p.isId && !p.isUpdatedAt
    ensures exists i :: (0 <= i < |model.fields| && p == UpdateField(model, allModels, env, model.fields[i])
                         && (!Matches(p.documentation, DtoUpdateOptional) ==> !IsRequiredWithDefault(model.fields[i])))
  {
    UpdateFieldsMember(model, allModels, env, p);
    var i :| 0 <= i < |model.fields| && UpdateKeeps(model.fields, model.fields[i])
      && p == UpdateField(model, allModels, env, model.fields[i]);
    UpdateFieldRules(model, allModels, env, model.fields[i]);
  }

  /** Emitted fields keep the declared order. */
  lemma UpdateFieldsInOrder(model: Model, allModels: seq<Model>, env: Env)
    ensures var keep := (f: Field) => UpdateKeeps(model.fields, f);
      var ks := KeptIndices(model.fields, keep);
      |ks| == |UpdateSpec(model, allModels, env).fields|
      && (forall k :: 0 <= k < |ks| ==>
            UpdateSpec(model, allModels, env).fields[k] == UpdateField(model, allModels, env, model.fields[ks[k]]))
      && (forall k, l :: 0 <= k < l < |ks| ==> ks[k] < ks[l])
  {
    FilterMapOrder(model.fields, (f: Field) => UpdateKeeps(model.fields, f),
                   (f: Field) => UpdateField(model, allModels, env, f));
  }

  /** The collected imports, generated classes and extra models are exactly those of the
      synthesized inputs of the relations with an on-update modifier, including relations that
      are then dropped because a field claims them as a foreign-key scalar. */
  lemma CollectedFromRelationInputs(model: Model, allModels: seq<Model>, env: Env)
    ensures var inputs := RelationInputsOf(model, allModels, env, model.fields);
      forall imp :: imp in ConcatMap(inputs, InputImports) <==>
        exists i :: 0 <= i < |model.fields| && RequestsRelationInput(model.fields[i])
          && imp in UpdateRelationInput(model, allModels, env, model.fields[i]).imports
    ensures forall c :: c in UpdateSpec(model, allModels, env).extraClasses <==>
        exists i :: 0 <= i < |model.fields| && RequestsRelationInput(model.fields[i])
          && c in UpdateRelationInput(model, allModels, env, model.fields[i]).generatedClasses
    ensures forall c :: c in UpdateSpec(model, allModels, env).apiExtraModels <==>
        exists i :: 0 <= i < |model.fields| && RequestsRelationInput(model.fields[i])
          && c in UpdateRelationInput(model, allModels, env, model.fields[i]).apiExtraModels
  {
    PartsFromInputs(model, allModels, env, InputImports);
    PartsFromInputs(model, allModels, env, InputClasses);
    PartsFromInputs(model, allModels, env, InputExtraModels);
  }

  /** An element collected through `part` comes from the synthesized input of a requesting field,
      and every such element is collected. */
  lemma PartsFromInputs<T>(model: Model, allModels: seq<Model>, env: Env, part: RelationInput -> seq<T>)
    ensures forall x :: x in ConcatMap(RelationInputsOf(model, allModels, env, model.fields), part) <==>
      exists i :: 0 <= i < |model.fields| && RequestsRelationInput(model.fields[i])
        && x in part(UpdateRelationInput(model, allModels, env, model.fields[i]))
  {
    var inputs := RelationInputsOf(model, allModels, env, model.fields);
    InputsMember(model, allModels, env);
    forall x ensures x in ConcatMap(inputs, part) <==>
      exists i :: 0 <= i < |model.fields| && RequestsRelationInput(model.fields[i])
        && x in part(UpdateRelationInput(model, allModels, env, model.fields[i]))
    {
      ConcatMapMember(inputs, part, x);
      if x in ConcatMap(inputs, part) {
        var k :| 0 <= k < |inputs| && x in part(inputs[k]);
        assert inputs[k] in inputs;
        var i :| 0 <= i < |model.fields| && RequestsRelationInput(model.fields[i])
          && inputs[k] == UpdateRelationInput(model, allModels, env, model.fields[i]);
      }
      if exists i :: 0 <= i < |model.fields| && RequestsRelationInput(model.fields[i])
          && x in part(UpdateRelationInput(model, allModels, env, model.fields[i])) {
        var i :| 0 <= i < |model.fields| && RequestsRelationInput(model.fields[i])
          && x in part(UpdateRelationInput(model, allModels, env, model.fields[i]));
        var ri := UpdateRelationInput(model, allModels, env, model.fields[i]);
        assert ri in inputs;
        var k :| 0 <= k < |inputs| && inputs[k] == ri;
      }
    }
  }

  /** The synthesized inputs are those of the requesting fields. */
  lemma InputsMember(model: Model, allModels: seq<Model>, env: Env)
    ensures forall ri :: ri in RelationInputsOf(model, allModels, env, model.fields) <==>
      exists i :: 0 <= i < |model.fields| && RequestsRelationInput(model.fields[i])
        && ri == UpdateRelationInput(model, allModels, env, model.fields[i])
  {
    forall ri ensures ri in RelationInputsOf(model, allModels, env, model.fields) <==>
      exists i :: 0 <= i < |model.fields| && RequestsRelationInput(model.fields[i])
        && ri == UpdateRelationInput(model, allModels, env, model.fields[i])
    {
      FilterMapMember(model.fields, RequestsRelationInput, (f: Field) => UpdateRelationInput(model, allModels, env, f), ri);
    }
  }

  /** The swagger import exists exactly when there are extra models or an enum field; it names
      `ApiExtraModels` exactly when there are extra models and `ApiProperty` exactly when there is
      an enum field, in that order. */
  lemma SwaggerImportTable(apiExtraModels: seq<string>, hasEnum: bool)
    ensures SwaggerImport(apiExtraModels, hasEnum).Some? <==> |apiExtraModels| > 0 || hasEnum
    ensures var s := SwaggerImport(apiExtraModels, hasEnum);
      s.Some? ==>
        && s.value.from == "@nestjs/swagger" && s.value.defaultImport.None? && s.value.destruct.Some?
        && ("ApiExtraModels" in s.value.destruct.value <==> |apiExtraModels| > 0)
        && ("ApiProperty" in s.value.destruct.value <==> hasEnum)
        && |s.value.destruct.value| >= 1
        && (s.value.destruct.value[0] == "ApiExtraModels" <==> |apiExtraModels| > 0)
  {
  }

  /** `HasEnum` of the emitted fields holds exactly when some kept field is an enum. */
  lemma HasEnumIff(model: Model, allModels: seq<Model>, env: Env)
    ensures HasEnum(UpdateSpec(model, allModels, env).fields) <==>
      exists i :: 0 <= i < |model.fields| && UpdateKeeps(model.fields, model.fields[i]) && model.fields[i].kind == Enum
  {
    var fields := UpdateSpec(model, allModels, env).fields;
    if HasEnum(fields) {
      var k :| 0 <= k < |fields| && fields[k].kind == Enum;
      UpdateFieldsMember(model, allModels, env, fields[k]);
    }
    if exists i :: 0 <= i < |model.fields| && UpdateKeeps(model.fields, model.fields[i]) && model.fields[i].kind == Enum {
      var i :| 0 <= i < |model.fields| && UpdateKeeps(model.fields, model.fields[i]) && model.fields[i].kind == Enum;
      var p := UpdateField(model, allModels, env, model.fields[i]);
      UpdateFieldsMember(model, allModels, env, p);
      var k :| 0 <= k < |fields| && fields[k] == p;
    }
  }

  /** The imports before zipping: the model's Prisma-client import first, then the swagger
      import, then the relation-input imports in field order. */
  lemma UpdateImportsLayout(model: Model, allModels: seq<Model>, env: Env)
    ensures var prisma := env.importHelpers.importsFromPrismaClientForModel(model);
      var r := UpdateSpec(model, allModels, env);
      var swagger := SwaggerImport(r.apiExtraModels, HasEnum(r.fields));
      var related := ConcatMap(RelationInputsOf(model, allModels, env, model.fields), InputImports);
      exists pre: seq<ImportStatement> ::
        && r.imports == env.importHelpers.zipImportStatementParams(pre)
        && |pre| == (if prisma.Some? then 1 else 0) + (if swagger.Some? then 1 else 0) + |related|
        && (prisma.Some? ==> pre[0] == prisma.value)
        && (swagger.Some? ==> pre[if prisma.Some? then 1 else 0] == swagger.value)
        && pre[|pre| - |related|..] == related
  {
    var prisma := env.importHelpers.importsFromPrismaClientForModel(model);
    var r := UpdateSpec(model, allModels, env);
    var swagger := SwaggerImport(r.apiExtraModels, HasEnum(r.fields));
    var related := ConcatMap(RelationInputsOf(model, allModels, env, model.fields), InputImports);
    var pre := PrependSome(prisma, PrependSome(swagger, related));
    assert pre[|pre| - |related|..] == related;
  }
}
