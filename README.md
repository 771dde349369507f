# prisma-generator-nestjs-dto: the DTO derivation engine

A Dafny model of the core of `prisma-generator-nestjs-dto`, a Prisma generator. Given the
Prisma data model (DMMF), it writes NestJS DTO classes for every model. Each model gets four files
from four projections: connect, create, update and entity.

Each projection runs over the model's fields. It decides whether a field is kept. For a kept
field it also decides `isRequired`, `isNullable`, the type and `isList`. It then collects the
imports the rendered file needs.

The model covers the following:

- **Projections.** The connect and update projections, in both the current and the older
  revision, the entity projection, and their composition `computeModelParams`.
- **`run`.** It drops ignored models, sets the output paths and emits four files per model.
- **Pure helpers around the engine:**
  - field classifiers and annotation markers;
  - the scalar-to-TypeScript tables;
  - the template helpers (`when`, `unless`, `each`, imports, class properties);
  - casing and path normalisation;
  - the class-validator suffix matcher and `getValidatorAnnotations`;
  - `stringToBoolean` and the configuration defaults of `generate`;
  - the enum template and the index re-export line.

Modules follow the source files:
- `Annotations`, `FieldClassifiers`, `ConnectProjection`, `LegacyConnectProjection`,
  `UpdateProjection`, `LegacyUpdateProjection`, `EntityProjection`, `ModelProjections`,
  `Generator`, `Templates`, `Helpers`, `ValidatorHelpers`, `Config`, `EnumTemplate` and
  `IndexCollection` each model one source file.
- `Dmmf` holds the record shapes and the record helpers the projections import.
- `Collaborators` holds the functions whose bodies are not part of this model, as function-typed
  parameters.
- `Seqs` and `Wrappers` are generic sequence lemmas and `Option`/`Result`.

The source is not uniform, and the model follows its form:
- **Loops over mutable arrays become methods.** The field reduces of the entity and update
  projections and the loop of `getValidatorAnnotations` update arrays in place. Each is a
  `method` with a loop, proved equal to a specification function. The properties are then
  proved about that function.
- **Chains of `filter`, `map` and object literals become functions.**

A thrown exception is the `Failure` of a `Result`. An `undefined` argument is `None`.

## Model

| member | source | states |
|---|---|---|
| Dmmf.MapDMMFToParsedField | src/generator/helpers.test.ts:20-34 | each given override wins; every other property of the field is carried over unchanged |
| Dmmf.MapWithoutOverridesRoundTrip | src/generator/helpers.test.ts:20-34 | without overrides, forgetting `isNullable` gives the field back, `isNullable` is unset, and the mapping is injective |
| Dmmf.GetRelationScalars | src/generator/compute-model-params/compute-entity-params.ts:35-36 | the keys are exactly the names some field lists in `relationFromFields`; each maps to the names of the claiming fields, in field order |
| Dmmf.ClaimantsMember | src/generator/compute-model-params/compute-entity-params.ts:95-107 | a name is listed for a foreign key exactly when some field with that name claims it |
| Annotations.RelationModifiersSplit | src/generator/annotations.ts:16-29 | the modifier list is the on-create pair followed by the on-update pair |
| Annotations.MatchesOneOf | src/generator/annotations.ts:1-29 | matching one of a list means some directive of the list is contained in the documentation |
| Annotations.OneOfModifiers | src/generator/annotations.ts:22-29 | matching the on-update list means containing one of its two directives; likewise for on-create |
| Annotations.MatchingIsCaseSensitive | src/generator/annotations.ts:1-15 | for every directive with a lower-case letter, its upper-cased spelling does not match; for every directive and any surrounding text, the directive inside that text matches |
| FieldClassifiers.RelationIffObject | src/generator/field-classifiers.ts:28-32 | a field is a relation exactly when its kind is `object`; a field is not a relation exactly when its kind is scalar, enum or unsupported |
| FieldClassifiers.FlagClassifiers | src/generator/field-classifiers.ts:34-71 | id-with-default, updated-at and required-with-default are exactly their flag combinations; id-with-default implies id and required-with-default implies required; without a default value neither holds; on a required id the two coincide |
| FieldClassifiers.ReadOnlyIff | src/generator/field-classifiers.ts:48-51 | read-only means the structural flag is set or the documentation contains `@DtoReadOnly`; missing documentation reads as empty |
| FieldClassifiers.ReadOnlyStableUnderAppend | src/generator/field-classifiers.ts:48-51 | appending text to the documentation never turns read-only off |
| FieldClassifiers.MatchesStableUnderAppend | src/generator/field-classifiers.ts:48-51 | appending text to the documentation keeps any directive match |
| ConnectProjection.MapWith | src/generator/compute-model-params/compute-connect-dto-params.ts:28-30 | one parsed field per input field, in the same order, each carrying the overrides |
| ConnectProjection.ConnectUniqueFieldsFacts | src/generator/compute-model-params/compute-connect-dto-params.ts:13-26 | the qualifying fields are exactly the id and unique fields, with no repeats; there are at most as many as ids plus uniques, and the ids come first |
| ConnectProjection.ConnectFieldsMember | src/generator/compute-model-params/compute-connect-dto-params.ts:10-33 | a field is emitted exactly when it comes from an id or unique field, so no other field is ever emitted |
| ConnectProjection.MapWithMember | src/generator/compute-model-params/compute-connect-dto-params.ts:28-30 | an element of the map is the image of an element of the input |
| ConnectProjection.ConnectRequiredRule | src/generator/compute-model-params/compute-connect-dto-params.ts:10-33 | the model comes back unchanged; with more than one qualifying field every field is optional; otherwise the schema `isRequired` is kept; nullability is left unset; whatever was not overridden is the field's own |
| LegacyConnectProjection.LegacyConnectLayout | src/generator/compute-connect-dto-params.ts:10-23 | the ids in order, then the uniques in order; the length is exactly their sum; there are no overrides; the model comes back unchanged |
| LegacyConnectProjection.IdAndUniqueAppearsTwice | src/generator/compute-connect-dto-params.ts:18-20 | a field that is both id and unique is emitted twice |
| UpdateProjection.HasEnumSnoc | src/generator/compute-model-params/compute-update-dto-params.ts:91 | appending a field sets the enum flag exactly when that field is an enum |
| UpdateProjection.ComputeUpdateDtoParams | src/generator/compute-model-params/compute-update-dto-params.ts:39-113 | the reduce, with its in-place appends, the `hasEnum` flag and the unshifts, equals the specification `UpdateSpec` |
| UpdateProjection.UpdateFieldRules | src/generator/compute-model-params/compute-update-dto-params.ts:54-77 | an emitted field is optional and has no nullability; a relation takes the synthesized type and is not a list; any other field keeps its type and list-ness |
| UpdateProjection.UpdateFieldsMember | src/generator/compute-model-params/compute-update-dto-params.ts:52-94 | a field is emitted exactly when a field passing every exclusion produced it |
| UpdateProjection.UpdateFieldsExclusions | src/generator/compute-model-params/compute-update-dto-params.ts:54-93 | never emitted: a required field; a read-only field; a foreign-key scalar; a relation without an on-update modifier, or as a list; without `@DtoUpdateOptional`, an id, an updated-at field, or the parsed form of a source field that is required and has a default |
| UpdateProjection.UpdateFieldsInOrder | src/generator/compute-model-params/compute-update-dto-params.ts:52-93 | the k-th emitted field comes from the k-th kept position, and the kept positions increase |
| UpdateProjection.CollectedFromRelationInputs | src/generator/compute-model-params/compute-update-dto-params.ts:57-76 | imports, generated classes and extra models are exactly those of the relation inputs synthesized for relations with an on-update modifier, including relations later dropped as foreign keys |
| UpdateProjection.PartsFromInputs | src/generator/compute-model-params/compute-update-dto-params.ts:74-76 | an item collected from the relation inputs comes from some requesting field's input, and every such item is collected |
| UpdateProjection.InputsMember | src/generator/compute-model-params/compute-update-dto-params.ts:57-69 | the synthesized inputs are exactly those of the requesting fields |
| UpdateProjection.SwaggerImportTable | src/generator/compute-model-params/compute-update-dto-params.ts:96-101 | the swagger import exists exactly when there are extra models or an enum; it names `ApiExtraModels` exactly when there are extra models (and then first), and `ApiProperty` exactly when there is an enum |
| UpdateProjection.HasEnumIff | src/generator/compute-model-params/compute-update-dto-params.ts:44-91 | the enum flag is set exactly when some kept field is an enum |
| UpdateProjection.UpdateImportsLayout | src/generator/compute-model-params/compute-update-dto-params.ts:96-112 | before zipping: the Prisma-client import when present, then the swagger import when present, then the relation-input imports in field order |
| LegacyUpdateProjection.PresentImportsFacts | src/generator/compute-update-dto-params.ts:78-80 | a relation input's imports enter the array as defined entries, position by position |
| LegacyUpdateProjection.ComputeLegacyUpdateDtoParams | src/generator/compute-update-dto-params.ts:37-97 | the reduce over the pre-seeded arrays equals the specification `LegacyUpdateSpec` |
| LegacyUpdateProjection.LegacyFieldsMember | src/generator/compute-update-dto-params.ts:53-94 | a field is emitted exactly when a field passing this version's exclusions produced it |
| LegacyUpdateProjection.LegacyFieldsExclusions | src/generator/compute-update-dto-params.ts:55-93 | never emitted: a required field; an `@DtoUpdateHidden` field; a read-only field; any id; a relation without an on-update modifier, or as a list; a foreign-key scalar; an updated-at field without `@DtoCreateOptional` |
| LegacyUpdateProjection.LegacyKeepsRequiredWithDefault | src/generator/compute-update-dto-params.ts:87-93 | a plain field that is not hidden, read-only, an id, a foreign key or updated-at is emitted, even when it is required with a default |
| LegacyUpdateProjection.LegacyFieldsInOrder | src/generator/compute-update-dto-params.ts:53-93 | emitted fields keep the declared order |
| LegacyUpdateProjection.LegacyImportsLayout | src/generator/compute-update-dto-params.ts:42-80 | the imports start with the Prisma-client import (possibly undefined) and the fixed `ApiExtraModels` swagger import; every later entry is defined and comes from a synthesized relation input |
| EntityProjection.AddRelatedImport | src/generator/compute-model-params/compute-entity-params.ts:58-91 | the import half of the callback: skip self-relations and non-relations, throw when the model cannot be found, push an import not already present |
| EntityProjection.EntityFieldOverrides | src/generator/compute-model-params/compute-entity-params.ts:40-111 | the overrides record, built by successive updates, equals the specification `EntityOverrides` |
| EntityProjection.EntityReduceStep | src/generator/compute-model-params/compute-entity-params.ts:38-114 | one callback: a hidden field changes nothing; otherwise the error is thrown, or the parsed field is appended and the import step applied |
| EntityProjection.ComputeEntityParams | src/generator/compute-model-params/compute-entity-params.ts:27-128 | the reduce and the two unshifts equal the specification `EntitySpec` |
| EntityProjection.EntityFieldsMember | src/generator/compute-model-params/compute-entity-params.ts:45-113 | a field is emitted exactly when a field not marked `@DtoEntityHidden` produced it, so a hidden field never appears |
| EntityProjection.EntityFieldsInOrder | src/generator/compute-model-params/compute-entity-params.ts:38-113 | emitted fields keep the declared order |
| EntityProjection.EntityFieldRules | src/generator/compute-model-params/compute-entity-params.ts:40-111 | plain field: required, nullable when optional in the schema; relation: not required, nullable only when singular, optional and not `@DtoRelationRequired`; foreign key: required, nullable unless a claiming relation is required |
| EntityProjection.RelationNotRequiredAndNullable | src/generator/compute-model-params/compute-entity-params.ts:40-56 | a relation is never both required and nullable; an optional plain scalar is both |
| EntityProjection.FindFieldByOwnName | src/generator/compute-model-params/compute-entity-params.ts:100-103 | with distinct names, looking a field up by its own name finds it |
| EntityProjection.ForeignKeyNullability | src/generator/compute-model-params/compute-entity-params.ts:95-111 | with distinct names, a foreign key is non-nullable exactly when some claiming field is schema-required or `@DtoRelationRequired` |
| EntityProjection.ImportStepFails | src/generator/compute-model-params/compute-entity-params.ts:58-67 | one step throws exactly on a kept relation to another model that cannot be resolved, with that error |
| EntityProjection.FirstUnresolvable | src/generator/compute-model-params/compute-entity-params.ts:58-67 | the position of the first unresolvable field: none is unresolvable before it |
| EntityProjection.ImportsFailIff | src/generator/compute-model-params/compute-entity-params.ts:38-114 | collecting imports fails exactly when some field is unresolvable, with the error of the first such field |
| EntityProjection.Candidates | src/generator/compute-model-params/compute-entity-params.ts:69-75 | every candidate import names one class and has no default import |
| EntityProjection.AlreadyImportedIsMember | src/generator/compute-model-params/compute-entity-params.ts:77-86 | on single-name imports, the de-duplication test is membership |
| EntityProjection.ImportsAreUniqCandidates | src/generator/compute-model-params/compute-entity-params.ts:77-91 | without failures, the collected imports are the candidates with repeats removed, first occurrences kept |
| EntityProjection.CandidatesFromNonSelfRelations | src/generator/compute-model-params/compute-entity-params.ts:58-75 | every candidate belongs to a kept relation to another, found model, so a self-relation adds no import |
| EntityProjection.NoDoubleImportOfDistinct | src/generator/compute-model-params/compute-entity-params.ts:77-91 | distinct single-name imports never name the same class from the same path |
| EntityProjection.EntitySpecFails | src/generator/compute-model-params/compute-entity-params.ts:59-67 | the projection throws exactly when a kept non-self relation cannot be resolved, with the error of the first one |
| EntityProjection.EntitySpecSucceeds | src/generator/compute-model-params/compute-entity-params.ts:32-127 | on success: `apiExtraModels` is empty; the Prisma-client import comes first, then the related imports; no two name the same class from the same path; each belongs to a kept relation to another model, and each such relation is covered |
| EntityProjection.CandidatesCover | src/generator/compute-model-params/compute-entity-params.ts:69-91 | every kept relation to another, found model contributes its import |
| ModelProjections.ModelParamsFailIff | src/generator/compute-model-params/index.ts:15-35 | of the failures the modelled code raises, the composition throws exactly when the model has a kept relation to another model, because the entity projection gets no `allModels`; the error is the `allModels`-undefined one |
| ModelProjections.ModelParamsOnSuccess | src/generator/compute-model-params/index.ts:15-35 | connect depends on the model alone; create and update get the same model, `allModels` and helpers; the entity has no related imports |
| ModelProjections.NoCandidatesWithoutModels | src/generator/compute-model-params/index.ts:34 | with no models to search, no field yields an import |
| Generator.ModelFiles | src/generator/index.ts:77-143 | a model that succeeds yields exactly four file specifications |
| Generator.NamingDefaults | src/generator/index.ts:36-57 | file names are camel-cased unless a style is given, and each of the four styles selects its own transform; class names are always pascal-cased; prefixes and suffixes pass through |
| Generator.FilteredModelsFacts | src/generator/index.ts:60-74 | the models without `@DtoIgnoreModel`, in order, unchanged except for `output`: `<output>/<folder>/dto` and `/entities` in the resource layout, otherwise `output` for both |
| Generator.FlatMapResultSucceeds | src/generator/index.ts:77-145 | the flattening succeeds exactly when every model's files do |
| Generator.FlatMapResultFails | src/generator/index.ts:77-145 | a failed flattening carries the error of the first failing model |
| Generator.FlatMapResultFours | src/generator/index.ts:142-145 | with four items per element, element k contributes items 4k to 4k+3, and the total is four times the count |
| Generator.ModelFilesFacts | src/generator/index.ts:85-142 | the four files are connect, create, update, entity, in that order; DTO files go under `output.dto` and the entity under `output.entity`; each is rendered from its projection |
| Generator.RunFacts | src/generator/index.ts:31-146 | of the failures the modelled code raises, `run` fails exactly when a processed model has an entity relation to another model; otherwise four files per processed model, in model order, computed against the processed models only |
| Templates.ScalarToTS | src/generator/template-helpers.ts:20-32 | it throws exactly for a tag outside the nine known ones, with the unrecognised-scalar message |
| Templates.ScalarTablePrimitives | src/generator/template-helpers.ts:3-17 | the table for String, Boolean, Int, BigInt and Float |
| Templates.ScalarTableObjects | src/generator/template-helpers.ts:3-31 | the table for Decimal, DateTime, Json and Bytes; Json has the input variant |
| Templates.InputTypeOnlyAffectsJson | src/generator/template-helpers.ts:27-31 | the input switch changes no tag other than Json |
| Templates.UnlessIsWhenNot | src/generator/template-helpers.ts:36-46 | `unless` is `when` on the negated condition; both default to the empty text |
| Templates.MapSeq | src/generator/template-helpers.ts:48-52 | one rendered item per element, in order (also the `values.map` of the enum template) |
| Templates.EachSteps | src/generator/template-helpers.ts:48-52 | `each` of nothing is empty; of one is that item; one more item is appended after the separator |
| Templates.MakeHelpersDefaults | src/generator/template-helpers.ts:64-70 | with nothing given, prefixes and suffixes are empty and file names are not transformed |
| Templates.ImportTexts | src/generator/template-helpers.ts:54-83 | an enum import names the prefixed and suffixed class from `./<case>.enum`; a DTO import likewise from `./<case>.dto` |
| Templates.ImportListSteps | src/generator/template-helpers.ts:76-85 | several imports are the single ones in order, separated by `;` and a line break |
| Templates.FieldType | src/generator/template-helpers.ts:87-94 | it throws exactly for a scalar with an unknown tag |
| Templates.FieldTypeKinds | src/generator/template-helpers.ts:87-94 | a scalar takes the table's type; an enum the prefixed name without suffix; anything else the prefixed and suffixed DTO class |
| Templates.FieldTypeOfList | src/generator/template-helpers.ts:87-94 | a list field's type is the single-value type followed by `[]` |
| Templates.FieldTypeInputSwitch | src/generator/template-helpers.ts:87-94 | the input switch matters only for Json scalars |
| Templates.FieldToClassProp | src/generator/template-helpers.ts:96-103 | a property fails exactly when its type does |
| Templates.ClassPropReadsBack | src/generator/template-helpers.ts:96-103 | a property reads back as the name, `?` exactly when not required, `: `, the type and `;` |
| Templates.ClassProps | src/generator/template-helpers.ts:105-109 | one property per field, in order, or failure exactly when some field fails |
| Templates.ClassPropsLines | src/generator/template-helpers.ts:105-109 | the rendering fails exactly when some type does; otherwise it splits on line breaks back into one property per field |
| Helpers.MapScalarToTSType | src/generator/helpers.ts:15-44 | an unknown tag throws with its message |
| Helpers.MapScalarAgreesWithTable | src/generator/helpers.ts:1-44 | the switch agrees with the template table on every text, errors included; it throws exactly outside the nine tags; Int and Float are both `number` |
| Helpers.CamelCase | src/generator/helpers.ts:46-48 | defined exactly on non-empty text, since indexing the empty text throws |
| Helpers.PascalCase | src/generator/helpers.ts:50-52 | defined exactly on non-empty text |
| Helpers.CaseHelpersShape | src/generator/helpers.ts:46-52 | the length and every character after the first are kept; the first is lower- or upper-cased, and only ASCII letters change |
| Helpers.CaseHelpersRoundTrip | src/generator/helpers.ts:46-52 | each is idempotent; each undoes the other on text starting with a letter of the other case |
| Helpers.ToUnixPathFacts | src/generator/helpers.ts:54-56 | the length is kept; every `\` becomes `/`; every other character stays in place; no `\` is left; applying it twice equals applying it once |
| ValidatorHelpers.DtoTypesStringValue | src/generator/validator-helpers.ts:6-12 | the alternation is the three type names CREATE, UPDATE and ENTITY, in that order, separated by vertical bars |
| ValidatorHelpers.FirstMatchFrom | src/generator/validator-helpers.ts:14-17 | the leftmost match position at or after the start, or no match anywhere there |
| ValidatorHelpers.SplitDecoratorFacts | src/generator/validator-helpers.ts:27-32 | the parts concatenate to the decorator; the suffix is empty exactly when the pattern matches nowhere, and otherwise starts at the leftmost match |
| ValidatorHelpers.SearchFindsFirst | src/generator/validator-helpers.ts:28-29 | the search returns the first matching position |
| ValidatorHelpers.SplitAfterPrefix | src/generator/validator-helpers.ts:27-32 | a `[`-free decorator followed by a matching suffix splits exactly between them |
| ValidatorHelpers.SplitDecoratorExample | src/generator/validator-helpers.ts:14-32 | illustration only: `Min(1)[create, UPDATE]` splits into `Min(1)` and the mixed-case suffix |
| ValidatorHelpers.GetValidatorAnnotations | src/generator/validator-helpers.ts:34-55 | the loop returns the selected decorators without suffixes, and one `class-validator` import of the selected names |
| ValidatorHelpers.SelectionAligned | src/generator/validator-helpers.ts:40-54 | decorators and names have equal length and are index-aligned in input order; an annotation is kept exactly when its name is a known validator and its suffix is empty or names the type |
| Config.StringToBooleanTable | src/index.ts:11-20 | `"true"` and `"false"` decide the value; anything else, `"TRUE"` included, yields the default, which is false |
| Config.ConfigDefaults | src/index.ts:26-44 | missing settings default to `Connect`, `Create`, `Update`, `Dto` and empty entity affixes; relation-modifier classes on; flat layout; given settings are taken as written |
| EnumTemplate.RenderValueAssignment | src/generator/templates/enum.template.ts:17 | a member has `= '<dbName>'` exactly when `dbName` is present and not empty, then a comma |
| EnumTemplate.EnumHeader | src/generator/templates/enum.template.ts:12-15 | the declaration starts `export enum <prefix><name><suffix> {`; the suffix defaults to empty |
| EnumTemplate.AsWrittenDoublesCommas | src/generator/templates/enum.template.ts:16-18 | as written, two plain members render as `A,,B,` |
| EnumTemplate.CorrectedMembersSplitBack | src/generator/templates/enum.template.ts:16-18 | with one comma between members, the body splits back into exactly one member per value, in order |
| IndexCollection.StripTrailingSlashes | src/generator/index-collection-helpers.ts:14 | the result does not end in `/` |
| IndexCollection.AfterLastSlash | src/generator/index-collection-helpers.ts:14 | the result contains no `/` |
| IndexCollection.BasenameIsLastComponent | src/generator/index-collection-helpers.ts:14 | the base name of `dir/name` is `name`; a base name never contains `/` |
| IndexCollection.ExportDropsDirectories | src/generator/index-collection-helpers.ts:13-14 | the export line of `dir/name` equals that of `name` |
| IndexCollection.ExportOfStem | src/generator/index-collection-helpers.ts:4-14 | for every slash-free stem without `.ts`, the stem exports as `export * from "./<stem>";`, and the stem followed by `.ts` exports the same line |
| IndexCollection.AppendedOccurrenceIsFirst | src/generator/index-collection-helpers.ts:10-14 | for every stem without `.ts`, the first `.ts` of the stem followed by `.ts` and any rest starts right after the stem |
| IndexCollection.RemoveFirstTs | src/generator/index-collection-helpers.ts:10-14 | for every stem without `.ts` and any rest, removing the first `.ts` from stem + `.ts` + rest leaves stem + rest |
| IndexCollection.FirstOccurrenceOnly | src/generator/index-collection-helpers.ts:10-14 | for every slash-free stem without `.ts` and every slash-free rest, only the first `.ts` is removed and the export line names `./` stem + rest, so `a.ts.ts` exports `./a.ts` and `a.tsx` exports `./ax` |

## Left out

- File writing, directory creation and the Prisma generator handler (src/index.ts:59-73) are I/O and are not part of this model. Neither is the output-path resolution of `generate`.
- Logging (`logger.info` in `run`) is left out: it is a side effect that changes no result.
- The DTO renderers (`generateConnectDto`, `generateCreateDto`, `generateUpdateDto`, `generateEntity`) are function parameters. The helpers they call are not in the template-helpers file.
- `computeCreateDtoParams` is not part of this model. It is a parameter of `computeModelParams` and `run`.
- Several functions are parameters whose bodies are not modelled: `generateRelationInput`, `makeImportsFromPrismaClient`, `zipImportStatementParams`, `getRelativePath`, `slash`, `path.sep`, `path.join`, the camel/kebab/pascal/snake transforms, `makeHelpers` as called by `run`, and the template-helper name functions.
- `VALIDATOR_DECORATORS` is a set parameter, since the `class-validator` export list is not part of this model.
- src/generator/parse-models.ts and src/generator/model-classifiers.ts are not part of this model.
- `isAnnotatedWith`, `isAnnotatedWithOneOf`, `isId`, `isUnique`, `isRequired`, `mapDMMFToParsedField`, `getRelationScalars`, `getAnnotations`, `uniq` and `concatIntoArray` are modelled from their use. Their bodies are not in the source files. `uniq` compares by value and keeps first occurrences. `concatIntoArray(src, dest)` appends `src` to `dest`.
- ValidatorHelpers.GetValidatorAnnotations: `getAnnotations(field)` (src/generator/validator-helpers.ts:40) is not modelled; the `[decorator, import]` pairs it would extract from the field are an unconstrained parameter.
- Helpers.CamelCase, Helpers.PascalCase, ValidatorHelpers.Applies: upper- and lower-casing are modelled for ASCII letters only; JavaScript's full Unicode case mapping is not.
- Named imports are plain names. The `{exportedName: localName}` renaming form of `ImportStatementParams` is not modelled, since no modelled code builds it.
- IndexCollection.ExportContent: `path.basename` is modelled for POSIX paths only.
- Generator.Run: a `fileNamingStyle` outside the four styles cannot be expressed, so the `undefined` transform it would pick is not modelled.
- ParsedField's `relation-input` kind is not modelled: no modelled projection produces it.
- `run` passes no `allModels` to the entity projection (src/generator/compute-model-params/index.ts:34). The model follows this code, so every kept relation to another model makes `run` fail. Generator.RunFacts states this.
- Generator.RunFacts, ModelProjections.ModelParamsFailIff: the relation-input synthesizer (`generateRelationInput`), `computeCreateDtoParams` and the four renderers are modelled as functions that never throw. In the source a renderer can throw: `fieldsToClassProps` (src/generator/templates/dto.template.ts:69) reaches `scalarToTS`, which throws on an unknown scalar type (src/generator/template-helpers.ts:20-23). The two lemmas therefore characterise only the failure that the modelled code itself raises, the `allModels`-undefined error, and do not exclude failures of those collaborators. Since create and update are computed before the entity projection, such a failure would also come first.
- The entity projection gives an optional plain scalar both `isRequired` and `isNullable`. This breaks the comment at src/generator/types.ts:20, and the model follows the code. EntityProjection.RelationNotRequiredAndNullable proves the invariant for relations only and exhibits the scalar case.

## Findings

| source | as written | input that shows it | evidently intended | confidence | as-written member | corrected member |
|---|---|---|---|---|---|---|
| src/generator/templates/enum.template.ts:16-18 | each member is rendered with a trailing `,`, and the array is interpolated into the template, which joins it with `,` again | an enum `Role` with values `A` and `B`, no `dbName`: the body is `A,,B,` | one comma between members | medium, not executed | EnumTemplate.AsWrittenDoublesCommas | EnumTemplate.CorrectedMembersSplitBack |
