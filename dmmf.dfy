/** The record shapes the generator works on: the Prisma DMMF field and model
    (src/@types/prisma-generator-helper.d.ts), the generator's own `Model`, `ParsedField`, import
    and parameter records (src/generator/types.ts), and the two record helpers the projections use
    from src/generator/helpers (`mapDMMFToParsedField`, `getRelationScalars`). */
module Dmmf {
  import opened Wrappers
  import opened Seqs

  /** `DMMF.FieldKind`: `'object'` is a relation. */
  datatype FieldKind = Scalar | Object | Enum | Unsupported

  /** `DMMF.Field`. Optional properties are `Option`s; `type` is `typeName`. */
  datatype Field = Field(
    kind: FieldKind,
    name: string,
    isRequired: bool,
    isList: bool,
    isUnique: bool,
    isId: bool,
    isReadOnly: bool,
    isGenerated: bool,
    isUpdatedAt: bool,
    typeName: string,
    hasDefaultValue: bool,
    relationFromFields: Option<seq<string>>,
    relationToFields: Option<seq<string>>,
    documentation: Option<string>)

  /** `DMMF.Model` as the schema provider delivers it. */
  datatype DmmfModel = DmmfModel(name: string, documentation: Option<string>, fields: seq<Field>)

  /** Where a model's DTO files and its entity file are written. */
  datatype Output = Output(dto: string, entity: string)

  /** The generator's `Model`: a `DMMF.Model` with its `output` locations. */
  datatype Model = Model(name: string, documentation: Option<string>, fields: seq<Field>, output: Output)

  /** `ParsedField`: a field with its projection-specific overrides applied. Every property of the
      underlying field is carried over, plus `isNullable`. */
  datatype ParsedField = ParsedField(
    kind: FieldKind,
    name: string,
    isRequired: bool,
    isList: bool,
    isUnique: bool,
    isId: bool,
    isReadOnly: bool,
    isGenerated: bool,
    isUpdatedAt: bool,
    typeName: string,
    hasDefaultValue: bool,
    relationFromFields: Option<seq<string>>,
    relationToFields: Option<seq<string>>,
    documentation: Option<string>,
    isNullable: Option<bool>)

  /** The `Partial<DMMF.Field>` overrides the projections build: a property that is `None` is not
      overridden. */
  datatype Overrides = Overrides(
    isRequired: Option<bool>,
    isNullable: Option<bool>,
    typeName: Option<string>,
    isList: Option<bool>)

  const NoOverrides := Overrides(None, None, None, None)

  /** `mapDMMFToParsedField(field, overrides)`: a property given in `overrides` wins, every other
      property of `field` is preserved. */
  function MapDMMFToParsedField(f: Field, ov: Overrides := NoOverrides): (p: ParsedField)
    ensures ov.isRequired.Some? ==> p.isRequired == ov.isRequired.value
    ensures ov.isRequired.None? ==> p.isRequired == f.isRequired
    ensures ov.typeName.Some? ==> p.typeName == ov.typeName.value
    ensures ov.typeName.None? ==> p.typeName == f.typeName
    ensures ov.isList.Some? ==> p.isList == ov.isList.value
    ensures ov.isList.None? ==> p.isList == f.isList
    ensures p.isNullable == ov.isNullable
    ensures p.kind == f.kind && p.name == f.name && p.isUnique == f.isUnique && p.isId == f.isId
    ensures p.isReadOnly == f.isReadOnly && p.isGenerated == f.isGenerated && p.isUpdatedAt == f.isUpdatedAt
    ensures p.hasDefaultValue == f.hasDefaultValue && p.documentation == f.documentation
    ensures p.relationFromFields == f.relationFromFields && p.relationToFields == f.relationToFields
  {
    ParsedField(
      f.kind, f.name, ov.isRequired.GetOr(f.isRequired), ov.isList.GetOr(f.isList), f.isUnique, f.isId,
      f.isReadOnly, f.isGenerated, f.isUpdatedAt, ov.typeName.GetOr(f.typeName), f.hasDefaultValue,
      f.relationFromFields, f.relationToFields, f.documentation, ov.isNullable)
  }

  /** The field a parsed field was made from, when nothing was overridden. */
  function BaseField(p: ParsedField): Field {
    Field(p.kind, p.name, p.isRequired, p.isList, p.isUnique, p.isId, p.isReadOnly, p.isGenerated,
          p.isUpdatedAt, p.typeName, p.hasDefaultValue, p.relationFromFields, p.relationToFields, p.documentation)
  }

  /** Without overrides, mapping a field and forgetting `isNullable` gives the field back, and
      different fields stay different. */
  lemma MapWithoutOverridesRoundTrip(f: Field, g: Field)
    ensures BaseField(MapDMMFToParsedField(f)) == f
    ensures MapDMMFToParsedField(f).isNullable.None?
    ensures MapDMMFToParsedField(f) == MapDMMFToParsedField(g) ==> f == g
  {
    assert BaseField(MapDMMFToParsedField(g)) == g;
  }

  /** The foreign-key scalar names of a field list: every name listed in some field's
      `relationFromFields` (missing = `[]`). */
  function RelationFromNames(fields: seq<Field>): set<string> {
    set f, s | f in fields && s in f.relationFromFields.GetOr([]) :: s
  }

  /** `f` lists `scalar` among its `relationFromFields`. */
  predicate Claims(f: Field, scalar: string) {
    scalar in f.relationFromFields.GetOr([])
  }

  /** The names of the fields that list `scalar` in their `relationFromFields`, in field order. */
  function Claimants(fields: seq<Field>, scalar: string): seq<string> {
    FilterMap(fields, (f: Field) => Claims(f, scalar), (f: Field) => f.name)
  }

  /** `getRelationScalars(fields)`: each foreign-key scalar name mapped to the names of the
      relation fields that claim it. Its keys are the names `Object.keys` returns. */
  function GetRelationScalars(fields: seq<Field>): (m: map<string, seq<string>>)
    ensures forall s :: s in m <==> exists i :: 0 <= i < |fields| && Claims(fields[i], s)
    ensures forall s :: s in m ==> m[s] == Claimants(fields, s)
  {
    var m := map s | s in RelationFromNames(fields) :: Claimants(fields, s);
    assert forall s :: s in m <==> exists i :: 0 <= i < |fields| && Claims(fields[i], s) by {
      forall s ensures s in m <==> exists i :: 0 <= i < |fields| && Claims(fields[i], s) {
        if s in m {
          var f :| f in fields && s in f.relationFromFields.GetOr([]);
          var i :| 0 <= i < |fields| && fields[i] == f;
          assert Claims(fields[i], s);
        }
      }
    }
    m
  }

  /** A claimed name is claimed by exactly the fields `Claimants` lists. */
  lemma ClaimantsMember(fields: seq<Field>, scalar: string, name: string)
    ensures name in Claimants(fields, scalar) <==> exists i :: 0 <= i < |fields| && Claims(fields[i], scalar) && fields[i].name == name
  {
    FilterMapMember(fields, (f: Field) => Claims(f, scalar), (f: Field) => f.name, name);
  }

  /** `ImportStatementParams`. Named imports are plain names (the `{exported: local}` renaming form
      is not modelled). */
  datatype ImportStatement = ImportStatement(from: string, defaultImport: Option<string>, destruct: Option<seq<string>>)

  /** `{ from, destruct }`, the only form the projections build. */
  function NamedImport(from: string, names: seq<string>): ImportStatement {
    ImportStatement(from, None, Some(names))
  }

  /** `ConnectDtoParams` (and the older `DtoParams` without imports). */
  datatype ConnectDtoParams = ConnectDtoParams(model: Model, fields: seq<ParsedField>)

  /** `CreateDtoParams` and `UpdateDtoParams`, which have the same shape. */
  datatype DtoParams = DtoParams(
    model: Model,
    fields: seq<ParsedField>,
    imports: seq<ImportStatement>,
    extraClasses: seq<string>,
    apiExtraModels: seq<string>)

  /** `EntityParams`. */
  datatype EntityParams = EntityParams(
    model: Model,
    fields: seq<ParsedField>,
    imports: seq<ImportStatement>,
    apiExtraModels: seq<string>)

  /** `ModelParams`: the four projections of one model. */
  datatype ModelParams = ModelParams(
    connect: ConnectDtoParams,
    create: DtoParams,
    update: DtoParams,
    entity: EntityParams)

  /** `DMMF.EnumValue` and `DMMF.DatamodelEnum`. */
  datatype EnumValue = EnumValue(name: string, dbName: Option<string>)
  datatype DatamodelEnum = DatamodelEnum(name: string, values: seq<EnumValue>)

  /** `WriteableFileSpecs`. */
  datatype FileSpec = FileSpec(fileName: string, content: string)
}
