/** The entity (read-model) projection,
    src/generator/compute-model-params/compute-entity-params.ts. Per field: `@DtoEntityHidden`
    drops it; a relation field is never required and its nullability follows from list-ness,
    schema-requiredness and `@DtoRelationRequired`; a foreign-key scalar is always required and
    nullable unless some claiming relation is required; every other field is required and
    nullable when optional in the schema. Non-self relation fields also add a de-duplicated import
    of the related entity, and a relation to a model that cannot be found is an error. */
module EntityProjection {
  import opened Wrappers
  import opened Seqs
  import opened Dmmf
  import opened Annotations
  import opened FieldClassifiers
  import opened Collaborators

  /** What `computeEntityParams` throws. */
  datatype EntityError =
    | RelatedModelNotFound(relatedType: string, modelName: string, fieldName: string)
      /** The `TypeError` of `allModels.find(...)` when `allModels` is undefined. */
    | AllModelsUndefined

  /** The text of the thrown `Error`. */
  function RelatedModelNotFoundMessage(relatedType: string, modelName: string, fieldName: string): string {
    "related model '" + relatedType + "' for '" + modelName + "." + fieldName + "' not found"
  }

  /** Fields annotated `@DtoEntityHidden` are dropped; all others are emitted. */
  predicate EntityKeeps(f: Field) {
    !IsAnnotatedWith(f, DtoEntityHidden)
  }

  /** The first field of the model with this name (`model.fields.find`). */
  function FindField(fields: seq<Field>, name: string): Option<Field> {
    Find(fields, (g: Field) => g.name == name)
  }

  /** A claiming relation field makes its foreign key required when it is schema-required or
      annotated `@DtoRelationRequired`; a name not found among the fields does not. */
  predicate RelationFieldRequires(relationField: Option<Field>) {
    match relationField
    case None => false
    case Some(rf) => IsRequired(rf) || IsAnnotatedWith(rf, DtoRelationRequired)
  }

  /** `isAnyRelationRequired` for the claiming relation names of one foreign-key scalar. */
  predicate IsAnyRelationRequired(fields: seq<Field>, relationNames: seq<string>) {
    Any(relationNames, (n: string) => RelationFieldRequires(FindField(fields, n)))
  }

  /** Nullability of a relation field: a list is never null; a singular required relation is not
      null; otherwise it is null unless annotated `@DtoRelationRequired`. */
  function RelationNullable(f: Field): bool {
    if f.isList then false
    else if f.isRequired then false
    else !IsAnnotatedWith(f, DtoRelationRequired)
  }

  /** The overrides the reduce ends up with for a kept field: the foreign-key rule is applied
      last, so it wins over the relation rule. */
  function EntityOverrides(fields: seq<Field>, f: Field): Overrides {
    var relationScalars := GetRelationScalars(fields);
    if f.name in relationScalars then
      Overrides(Some(true), Some(!IsAnyRelationRequired(fields, relationScalars[f.name])), None, None)
    else if IsRelation(f) then
      Overrides(Some(false), Some(RelationNullable(f)), None, None)
    else
      Overrides(Some(true), Some(!f.isRequired), None, None)
  }

  function EntityField(fields: seq<Field>, f: Field): ParsedField {
    MapDMMFToParsedField(f, EntityOverrides(fields, f))
  }

  /** The parsed fields emitted for the fields `fs` of a model whose field list is `fields`. */
  function EntityFieldsOf(fields: seq<Field>, fs: seq<Field>): seq<ParsedField> {
    FilterMap(fs, EntityKeeps, (f: Field) => EntityField(fields, f))
  }

  /** A kept relation field whose type is not the model itself: it needs an import. */
  predicate NeedsImport(model: Model, f: Field) {
    EntityKeeps(f) && IsRelation(f) && f.typeName != model.name
  }

  /** `allModels.find(({ name }) => name === type)`. */
  function FindModel(allModels: seq<Model>, name: string): Option<Model> {
    Find(allModels, (m: Model) => m.name == name)
  }

  /** The import of the related entity class, from its entity file relative to this model's
      entity output. */
  function EntityImport(model: Model, target: Model, f: Field, env: Env): ImportStatement {
    var importName := env.templateHelpers.entityName(f.typeName);
    var importFrom := env.pathHelpers.slash(
      env.pathHelpers.getRelativePath(model.output.entity, target.output.entity)
      + env.pathHelpers.sep + env.templateHelpers.entityFilename(f.typeName, None));
    NamedImport(importFrom, [importName])
  }

  /** The de-duplication test: some import already names `importName` and comes from `importFrom`. */
  predicate AlreadyImported(imports: seq<ImportStatement>, importName: string, importFrom: string) {
    Any(imports, (item: ImportStatement) =>
      item.destruct.Some? && importName in item.destruct.value && item.from == importFrom)
  }

  /** The import side of the reduce for one field: unchanged, extended, or the error thrown. */
  function ImportStep(model: Model, allModels: Option<seq<Model>>, env: Env, f: Field, acc: seq<ImportStatement>)
    : Result<seq<ImportStatement>, EntityError>
  {
    if !NeedsImport(model, f) then Success(acc)
    else if allModels.None? then Failure(AllModelsUndefined)
    else
      match FindModel(allModels.value, f.typeName)
      case None => Failure(RelatedModelNotFound(f.typeName, model.name, f.name))
      case Some(target) =>
        var imp := EntityImport(model, target, f, env);
        if AlreadyImported(acc, imp.destruct.value[0], imp.from) then Success(acc) else Success(acc + [imp])
  }

  /** The imports collected over the fields `fs`, starting from `acc`, or the first error. */
  function EntityImportsFrom(model: Model, allModels: Option<seq<Model>>, env: Env, fs: seq<Field>, acc: seq<ImportStatement>)
    : Result<seq<ImportStatement>, EntityError>
    decreases |fs|
  {
    if fs == [] then Success(acc)
    else
      match ImportStep(model, allModels, env, fs[0], acc)
      case Failure(e) => Failure(e)
      case Success(acc') => EntityImportsFrom(model, allModels, env, fs[1..], acc')
  }

  /** The whole projection: `computeEntityParams({ model, allModels, templateHelpers })`. */
  function EntitySpec(model: Model, allModels: Option<seq<Model>>, env: Env): Result<EntityParams, EntityError> {
    match EntityImportsFrom(model, allModels, env, model.fields, [])
    case Failure(e) => Failure(e)
    case Success(imports) =>
      var fields := EntityFieldsOf(model.fields, model.fields);
      var all := PrependSome(env.importHelpers.importsFromPrismaClientForFields(fields), imports);
      Success(EntityParams(model, fields, env.importHelpers.zipImportStatementParams(all), []))
  }

  /** What one more field adds to the emitted fields, and how the import collection continues. */
  lemma EntityStepFacts(model: Model, allModels: Option<seq<Model>>, env: Env, i: nat, acc: seq<ImportStatement>)
    requires i < |model.fields|
    ensures EntityFieldsOf(model.fields, model.fields[..i + 1]) == EntityFieldsOf(model.fields, model.fields[..i])
      + (if EntityKeeps(model.fields[i]) then [EntityField(model.fields, model.fields[i])] else [])
    ensures EntityImportsFrom(model, allModels, env, model.fields[i..], acc) ==
      match ImportStep(model, allModels, env, model.fields[i], acc)
      case Failure(e) => Failure(e)
      case Success(acc') => EntityImportsFrom(model, allModels, env, model.fields[i + 1..], acc')
  {
    assert model.fields[i..][0] == model.fields[i] && model.fields[i..][1..] == model.fields[i + 1..];
    assert model.fields[..i + 1][..i] == model.fields[..i];
  }

  /** The import part of the reduce callback for one field: a kept relation to another model
      looks the model up, throws when it is missing, and pushes the import unless an equal one is
      already there. */
  method AddRelatedImport(model: Model, allModels: Option<seq<Model>>, env: Env, field: Field, imports: seq<ImportStatement>)
    returns (r: Result<seq<ImportStatement>, EntityError>)
    ensures r == ImportStep(model, allModels, env, field, imports)
  {
    r := Success(imports);
    if !IsAnnotatedWith(field, DtoEntityHidden) && IsRelation(field) && field.typeName != model.name {
      if allModels.None? {
        return Failure(AllModelsUndefined);
      }
      var modelToImportFrom := FindModel(allModels.value, field.typeName);
      if modelToImportFrom.None? {
        return Failure(RelatedModelNotFound(field.typeName, model.name, field.name));
      }
      var imp := EntityImport(model, modelToImportFrom.value, field, env);
      if !AlreadyImported(imports, imp.destruct.value[0], imp.from) {
        r := Success(imports + [imp]);
      }
    }
  }

  /** The overrides record the reduce callback builds for a kept field: required and nullable
      when optional; a relation is not required, with its own nullability; a foreign-key scalar
      is required, nullable unless a claiming relation is required. */
  method EntityFieldOverrides(fields: seq<Field>, relationScalarFields: map<string, seq<string>>, field: Field)
    returns (overrides: Overrides)
    requires relationScalarFields == GetRelationScalars(fields)
    ensures overrides == EntityOverrides(fields, field)
  {
    overrides := Overrides(Some(true), Some(!field.isRequired), None, None);
    if IsRelation(field) {
      overrides := overrides.(isRequired := Some(false), isNullable := Some(RelationNullable(field)));
    }
    if field.name in relationScalarFields {
      var isAnyRelationRequired := IsAnyRelationRequired(fields, relationScalarFields[field.name]);
      overrides := overrides.(isRequired := Some(true), isNullable := Some(!isAnyRelationRequired));
    }
  }

  /** The reduce callback for one field: a hidden field is skipped; otherwise the import of a
      related model is collected (or its error thrown) and the parsed field appended. */
  method EntityReduceStep(model: Model, allModels: Option<seq<Model>>, env: Env,
                          relationScalarFields: map<string, seq<string>>, field: Field,
                          result: seq<ParsedField>, imports: seq<ImportStatement>)
    returns (r: Result<(seq<ParsedField>, seq<ImportStatement>), EntityError>)
    requires relationScalarFields == GetRelationScalars(model.fields)
    ensures ImportStep(model, allModels, env, field, imports).Failure? ==>
      r == Failure(ImportStep(model, allModels, env, field, imports).error)
    ensures ImportStep(model, allModels, env, field, imports).Success? ==>
      r == Success((result + (if EntityKeeps(field) then [EntityField(model.fields, field)] else []),
                    ImportStep(model, allModels, env, field, imports).value))
  {
    if IsAnnotatedWith(field, DtoEntityHidden) {
      assert result + [] == result;
      return Success((result, imports));
    }
    var overrides := EntityFieldOverrides(model.fields, relationScalarFields, field);
    var step := AddRelatedImport(model, allModels, env, field, imports);
    if step.Failure? {
      return Failure(step.error);
    }
    r := Success((result + [MapDMMFToParsedField(field, overrides)], step.value));
  }

  /** `computeEntityParams`: the reduce over the fields, with the shared `imports` array updated
      in place, then the Prisma client import put in front. */
  method ComputeEntityParams(model: Model, allModels: Option<seq<Model>>, env: Env)
    returns (r: Result<EntityParams, EntityError>)
    ensures r == EntitySpec(model, allModels, env)
  {
    var imports: seq<ImportStatement> := [];
    var apiExtraModels: seq<string> := [];
    var relationScalarFields := GetRelationScalars(model.fields);
    var fields: seq<ParsedField> := [];
    var i := 0;
    while i < |model.fields|
      invariant 0 <= i <= |model.fields|
      invariant fields == EntityFieldsOf(model.fields, model.fields[..i])
      invariant EntityImportsFrom(model, allModels, env, model.fields, [])
             == EntityImportsFrom(model, allModels, env, model.fields[i..], imports)
    {
      EntityStepFacts(model, allModels, env, i, imports);
      var step := EntityReduceStep(model, allModels, env, relationScalarFields, model.fields[i], fields, imports);
      if step.Failure? {
        return Failure(step.error);
      }
      fields, imports := step.value.0, step.value.1;
      i := i + 1;
    }
    assert model.fields[..i] == model.fields;
    if |apiExtraModels| > 0 {
      imports := [NamedImport("@nestjs/swagger", ["ApiExtraModels"])] + imports;
    }
    var importPrismaClient := env.importHelpers.importsFromPrismaClientForFields(fields);
    if importPrismaClient.Some? {
      imports := [importPrismaClient.value] + imports;
    }
    r := Success(EntityParams(model, fields, env.importHelpers.zipImportStatementParams(imports), apiExtraModels));
  }

  // ---------------------------------------------------------------------------------------------
  // Properties of the projection

  /** An emitted field is the parsed form of a kept field, and every kept field is emitted: a
      field annotated `@DtoEntityHidden` never appears (its documentation is carried over). */
  lemma EntityFieldsMember(fields: seq<Field>, p: ParsedField)
    ensures p in EntityFieldsOf(fields, fields) <==>
      exists i :: 0 <= i < |fields| && EntityKeeps(fields[i]) && p == EntityField(fields, fields[i])
    ensures p in EntityFieldsOf(fields, fields) ==> !Matches(p.documentation, DtoEntityHidden)
  {
    FilterMapMember(fields, EntityKeeps, (f: Field) => EntityField(fields, f), p);
  }

  /** Emitted fields keep the declared order: the `k`-th emitted field comes from the `k`-th kept
      position, and kept positions increase. */
  lemma EntityFieldsInOrder(fields: seq<Field>)
    ensures |KeptIndices(fields, EntityKeeps)| == |EntityFieldsOf(fields, fields)|
    ensures forall k :: 0 <= k < |KeptIndices(fields, EntityKeeps)| ==>
      EntityFieldsOf(fields, fields)[k] == EntityField(fields, fields[KeptIndices(fields, EntityKeeps)[k]])
    ensures forall k, l :: 0 <= k < l < |KeptIndices(fields, EntityKeeps)| ==>
      KeptIndices(fields, EntityKeeps)[k] < KeptIndices(fields, EntityKeeps)[l]
  {
    FilterMapOrder(fields, EntityKeeps, (f: Field) => EntityField(fields, f));
  }

  /** The nullability table of one emitted field. */
  lemma EntityFieldRules(fields: seq<Field>, f: Field)
    ensures var p := EntityField(fields, f);
      p.name == f.name && p.typeName == f.typeName && p.isList == f.isList && p.kind == f.kind
    ensures var p := EntityField(fields, f);
      !IsRelation(f) && f.name !in GetRelationScalars(fields) ==>
        p.isRequired && p.isNullable == Some(!f.isRequired)
    ensures var p := EntityField(fields, f);
      IsRelation(f) && f.name !in GetRelationScalars(fields) ==>
        !p.isRequired
        && (f.isList ==> p.isNullable == Some(false))
        && (!f.isList && f.isRequired ==> p.isNullable == Some(false))
        && (!f.isList && !f.isRequired ==> p.isNullable == Some(!Matches(f.documentation, DtoRelationRequired)))
    ensures var p := EntityField(fields, f);
      f.name in GetRelationScalars(fields) ==>
        p.isRequired && p.isNullable == Some(!IsAnyRelationRequired(fields, GetRelationScalars(fields)[f.name]))
  {
  }

  /** A relation field (that no field claims as a foreign key) is never both required and
      nullable. An optional plain scalar is: the invariant of `ParsedField` does not hold for
      the entity projection in general. */
  lemma RelationNotRequiredAndNullable(fields: seq<Field>, f: Field)
    ensures IsRelation(f) && f.name !in GetRelationScalars(fields) ==>
      !(EntityField(fields, f).isRequired && EntityField(fields, f).isNullable == Some(true))
    ensures !IsRelation(f) && f.name !in GetRelationScalars(fields) && !f.isRequired ==>
      EntityField(fields, f).isRequired && EntityField(fields, f).isNullable == Some(true)
  {
  }

  /** No two fields share a name. */
  predicate DistinctNames(fields: seq<Field>) {
    forall i, j :: 0 <= i < j < |fields| ==> fields[i].name != fields[j].name
  }

  /** With distinct names, looking a field up by its own name finds that field. */
  lemma FindFieldByOwnName(fields: seq<Field>, i: int)
    requires DistinctNames(fields) && 0 <= i < |fields|
    ensures FindField(fields, fields[i].name) == Some(fields[i])
  {
    var r := FindField(fields, fields[i].name);
    var j :| 0 <= j < |fields| && fields[j] == r.value && fields[j].name == fields[i].name
      && forall k :: 0 <= k < j ==> fields[k].name != fields[i].name;
    assert !(j < i) && !(i < j);
  }

  /** With distinct field names, a foreign-key scalar is non-nullable exactly when some field that
      claims it is schema-required or annotated `@DtoRelationRequired`. */
  lemma ForeignKeyNullability(fields: seq<Field>, scalar: string)
    requires DistinctNames(fields)
    requires scalar in GetRelationScalars(fields)
    ensures IsAnyRelationRequired(fields, GetRelationScalars(fields)[scalar]) <==>
      exists i :: 0 <= i < |fields| && Claims(fields[i], scalar) && RelationFieldRequires(Some(fields[i]))
  {
    var names := Claimants(fields, scalar);
    assert GetRelationScalars(fields)[scalar] == names;
    if IsAnyRelationRequired(fields, names) {
      var k :| 0 <= k < |names| && RelationFieldRequires(FindField(fields, names[k]));
      ClaimantsMember(fields, scalar, names[k]);
      var i :| 0 <= i < |fields| && Claims(fields[i], scalar) && fields[i].name == names[k];
      FindFieldByOwnName(fields, i);
    }
    if exists i :: 0 <= i < |fields| && Claims(fields[i], scalar) && RelationFieldRequires(Some(fields[i])) {
      var i :| 0 <= i < |fields| && Claims(fields[i], scalar) && RelationFieldRequires(Some(fields[i]));
      ClaimantsMember(fields, scalar, fields[i].name);
      var k :| 0 <= k < |names| && names[k] == fields[i].name;
      FindFieldByOwnName(fields, i);
      assert RelationFieldRequires(FindField(fields, names[k]));
    }
  }

  /** A kept relation to another model that cannot be resolved: `allModels` is undefined, or no
      model of that name is in it. */
  predicate Unresolvable(model: Model, allModels: Option<seq<Model>>, f: Field) {
    NeedsImport(model, f) && (allModels.None? || FindModel(allModels.value, f.typeName).None?)
  }

  /** The error thrown for an unresolvable field. */
  function ErrorFor(model: Model, allModels: Option<seq<Model>>, f: Field): EntityError {
    if allModels.None? then AllModelsUndefined else RelatedModelNotFound(f.typeName, model.name, f.name)
  }

  /** One step fails exactly on an unresolvable field, with its error. */
  lemma ImportStepFails(model: Model, allModels: Option<seq<Model>>, env: Env, f: Field, acc: seq<ImportStatement>)
    ensures ImportStep(model, allModels, env, f, acc).Failure? <==> Unresolvable(model, allModels, f)
    ensures ImportStep(model, allModels, env, f, acc).Failure? ==>
      ImportStep(model, allModels, env, f, acc).error == ErrorFor(model, allModels, f)
  {
  }

  /** The position of the first unresolvable field of `fs`, or `|fs|` when there is none. */
  function FirstUnresolvable(model: Model, allModels: Option<seq<Model>>, fs: seq<Field>): (k: nat)
    ensures k <= |fs|
    ensures forall j :: 0 <= j < k ==> !Unresolvable(model, allModels, fs[j])
    ensures k < |fs| ==> Unresolvable(model, allModels, fs[k])
  {
    if fs == [] then 0
    else if Unresolvable(model, allModels, fs[0]) then 0
    else
      var k := FirstUnresolvable(model, allModels, fs[1..]);
      assert forall j :: 1 <= j < |fs| ==> fs[j] == fs[1..][j - 1];
      1 + k
  }

  /** Collecting imports fails exactly when some field is unresolvable, and then with the error of
      the first such field. */
  lemma {:induction false} ImportsFailIff(model: Model, allModels: Option<seq<Model>>, env: Env, fs: seq<Field>, acc: seq<ImportStatement>)
    ensures var k := FirstUnresolvable(model, allModels, fs);
      EntityImportsFrom(model, allModels, env, fs, acc).Failure? <==> k < |fs|
    ensures var k := FirstUnresolvable(model, allModels, fs);
      EntityImportsFrom(model, allModels, env, fs, acc).Failure? ==>
        EntityImportsFrom(model, allModels, env, fs, acc).error == ErrorFor(model, allModels, fs[k])
    decreases |fs|
  {
    if fs != [] {
      var step := ImportStep(model, allModels, env, fs[0], acc);
      ImportStepFails(model, allModels, env, fs[0], acc);
      if step.Success? {
        ImportsFailIff(model, allModels, env, fs[1..], step.value);
        assert fs[1..][FirstUnresolvable(model, allModels, fs[1..])..] == fs[1 + FirstUnresolvable(model, allModels, fs[1..])..];
      }
    }
  }

  /** An import that names exactly one class, from a path, with no default import. */
  predicate NamedSingle(imp: ImportStatement) {
    imp.defaultImport.None? && imp.destruct.Some? && |imp.destruct.value| == 1
  }

  predicate AllNamedSingles(imports: seq<ImportStatement>) {
    forall k :: 0 <= k < |imports| ==> NamedSingle(imports[k])
  }

  /** The imports in field order, one per kept non-self relation field whose model is found. */
  function Candidates(model: Model, allModels: seq<Model>, env: Env, fs: seq<Field>): (r: seq<ImportStatement>)
    ensures AllNamedSingles(r)
  {
    if fs == [] then []
    else
      (if NeedsImport(model, fs[0]) && FindModel(allModels, fs[0].typeName).Some?
       then [EntityImport(model, FindModel(allModels, fs[0].typeName).value, fs[0], env)] else [])
      + Candidates(model, allModels, env, fs[1..])
  }

  /** On imports that each name one class, the de-duplication test is membership. */
  lemma AlreadyImportedIsMember(acc: seq<ImportStatement>, imp: ImportStatement)
    requires AllNamedSingles(acc) && NamedSingle(imp)
    ensures AlreadyImported(acc, imp.destruct.value[0], imp.from) <==> imp in acc
  {
    if AlreadyImported(acc, imp.destruct.value[0], imp.from) {
      var k :| 0 <= k < |acc| && acc[k].destruct.Some? && imp.destruct.value[0] in acc[k].destruct.value
        && acc[k].from == imp.from;
      assert NamedSingle(acc[k]);
      assert acc[k].destruct.value == [imp.destruct.value[0]] == imp.destruct.value;
      assert acc[k] == imp;
    }
    if imp in acc {
      var k :| 0 <= k < |acc| && acc[k] == imp;
      assert imp.destruct.value[0] in acc[k].destruct.value;
    }
  }

  /** When nothing is unresolvable, the collected imports are the candidates de-duplicated,
      first occurrences kept. */
  lemma {:induction false} ImportsAreUniqCandidates(model: Model, allModels: Option<seq<Model>>, env: Env, fs: seq<Field>, acc: seq<ImportStatement>)
    requires AllNamedSingles(acc)
    requires FirstUnresolvable(model, allModels, fs) == |fs|
    ensures EntityImportsFrom(model, allModels, env, fs, acc) ==
      Success(UniqFrom(acc, Candidates(model, allModels.GetOr([]), env, fs)))
    decreases |fs|
  {
    if fs != [] {
      var ms := allModels.GetOr([]);
      var c := Candidates(model, ms, env, fs);
      var rest := Candidates(model, ms, env, fs[1..]);
      if NeedsImport(model, fs[0]) {
        var imp := EntityImport(model, FindModel(ms, fs[0].typeName).value, fs[0], env);
        assert c == [imp] + rest;
        AlreadyImportedIsMember(acc, imp);
        var acc' := if imp in acc then acc else acc + [imp];
        assert ImportStep(model, allModels, env, fs[0], acc) == Success(acc');
        ImportsAreUniqCandidates(model, allModels, env, fs[1..], acc');
        assert c[0] == imp && c[1..] == rest;
      } else {
        assert c == rest;
        ImportsAreUniqCandidates(model, allModels, env, fs[1..], acc);
      }
    }
  }

  /** A candidate import belongs to a kept relation field whose type is another model: a
      self-relation adds no import. */
  lemma {:induction false} CandidatesFromNonSelfRelations(model: Model, allModels: seq<Model>, env: Env, fs: seq<Field>, imp: ImportStatement)
    requires imp in Candidates(model, allModels, env, fs)
    ensures exists i :: 0 <= i < |fs| && ImportFor(model, allModels, env, fs[i], imp)
    decreases |fs|
  {
    assert fs != [];
    if NeedsImport(model, fs[0]) && FindModel(allModels, fs[0].typeName).Some?
      && imp == EntityImport(model, FindModel(allModels, fs[0].typeName).value, fs[0], env) {
      assert ImportFor(model, allModels, env, fs[0], imp);
    } else {
      CandidatesFromNonSelfRelations(model, allModels, env, fs[1..], imp);
      var i :| 0 <= i < |fs[1..]| && ImportFor(model, allModels, env, fs[1..][i], imp);
      assert fs[1..][i] == fs[i + 1];
    }
  }

  /** `imp` is the entity import for `f`: a kept relation to another model, which is found. */
  predicate ImportFor(model: Model, allModels: seq<Model>, env: Env, f: Field, imp: ImportStatement) {
    IsRelation(f) && EntityKeeps(f) && f.typeName != model.name
    && FindModel(allModels, f.typeName).Some?
    && imp == EntityImport(model, FindModel(allModels, f.typeName).value, f, env)
  }

  /** No two entries name the same class from the same path. */
  predicate NoDoubleImport(imports: seq<ImportStatement>) {
    forall i, j, n ::
      (0 <= i < j < |imports| && imports[i].destruct.Some? && imports[j].destruct.Some?
       && n in imports[i].destruct.value && n in imports[j].destruct.value) ==> imports[i].from != imports[j].from
  }

  /** Distinct imports that each name one class never name the same class from the same path. */
  lemma NoDoubleImportOfDistinct(imports: seq<ImportStatement>)
    requires AllNamedSingles(imports) && NoDuplicates(imports)
    ensures NoDoubleImport(imports)
  {
    forall i, j, n | 0 <= i < j < |imports| && imports[i].destruct.Some? && imports[j].destruct.Some?
      && n in imports[i].destruct.value && n in imports[j].destruct.value
      ensures imports[i].from != imports[j].from
    {
      assert NamedSingle(imports[i]) && NamedSingle(imports[j]);
      assert imports[i].destruct.value == [n] && imports[j].destruct.value == [n];
      assert imports[i] != imports[j];
    }
  }

  /** The related-entity imports of a model, in the order their fields first need them. */
  function RelatedImports(model: Model, allModels: Option<seq<Model>>, env: Env): seq<ImportStatement> {
    Uniq(Candidates(model, allModels.GetOr([]), env, model.fields))
  }

  /** The projection fails exactly when a kept non-self relation cannot be resolved, with the
      error of the first such field. */
  lemma EntitySpecFails(model: Model, allModels: Option<seq<Model>>, env: Env)
    ensures var k := FirstUnresolvable(model, allModels, model.fields);
      EntitySpec(model, allModels, env).Failure? <==> k < |model.fields|
    ensures var k := FirstUnresolvable(model, allModels, model.fields);
      EntitySpec(model, allModels, env).Failure? ==>
        EntitySpec(model, allModels, env).error == ErrorFor(model, allModels, model.fields[k])
  {
    ImportsFailIff(model, allModels, env, model.fields, []);
  }

  /** When the projection succeeds, it succeeds with the emitted fields, an `apiExtraModels` that
      is always empty (so no swagger import), the Prisma-client import first and then the related
      entity imports, which never name the same class from the same path twice and each belong to
      a kept relation to another model. */
  lemma EntitySpecSucceeds(model: Model, allModels: Option<seq<Model>>, env: Env)
    requires FirstUnresolvable(model, allModels, model.fields) == |model.fields|
    ensures EntitySpec(model, allModels, env).Success?
    ensures var p := EntitySpec(model, allModels, env).value;
      && p.model == model
      && p.fields == EntityFieldsOf(model.fields, model.fields)
      && p.apiExtraModels == []
      && p.imports == env.importHelpers.zipImportStatementParams(
           PrependSome(env.importHelpers.importsFromPrismaClientForFields(p.fields),
                            RelatedImports(model, allModels, env)))
    ensures NoDoubleImport(RelatedImports(model, allModels, env))
    ensures forall imp :: imp in RelatedImports(model, allModels, env) ==>
      exists i :: 0 <= i < |model.fields| && ImportFor(model, allModels.GetOr([]), env, model.fields[i], imp)
    ensures forall i, imp :: 0 <= i < |model.fields| && ImportFor(model, allModels.GetOr([]), env, model.fields[i], imp) ==>
      imp in RelatedImports(model, allModels, env)
  {
    var ms := allModels.GetOr([]);
    ImportsAreUniqCandidates(model, allModels, env, model.fields, []);
    var c := Candidates(model, ms, env, model.fields);
    UniqFacts(c);
    var related := Uniq(c);
    forall k | 0 <= k < |related| ensures NamedSingle(related[k]) {
      assert related[k] in c;
    }
    NoDoubleImportOfDistinct(related);
    forall imp | imp in related
      ensures exists i :: 0 <= i < |model.fields| && ImportFor(model, ms, env, model.fields[i], imp)
    {
      CandidatesFromNonSelfRelations(model, ms, env, model.fields, imp);
    }
    forall i, imp | 0 <= i < |model.fields| && ImportFor(model, ms, env, model.fields[i], imp)
      ensures imp in related
    {
      CandidatesCover(model, ms, env, model.fields, i, imp);
    }
  }

  /** Every kept relation to another, found model contributes its import. */
  lemma {:induction false} CandidatesCover(model: Model, allModels: seq<Model>, env: Env, fs: seq<Field>, i: int, imp: ImportStatement)
    requires 0 <= i < |fs| && ImportFor(model, allModels, env, fs[i], imp)
    ensures imp in Candidates(model, allModels, env, fs)
    decreases |fs|
  {
    if i > 0 {
      assert fs[1..][i - 1] == fs[i];
      CandidatesCover(model, allModels, env, fs[1..], i - 1, imp);
    }
  }
}
