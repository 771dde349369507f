/** The capabilities the projections call but whose bodies are not part of this model: the
    template-helper name functions, the import helpers, path helpers and the relation-input
    synthesizer. Each is a function-typed field, so that the model states its results in terms of
    whatever these functions return. */
module Collaborators {
  import opened Wrappers
  import opened Dmmf

  /** The name and file-name functions of the `TemplateHelpers` record the projections receive.
      The file-name functions take the optional `withExtension` flag, `None` when the caller
      leaves it out. */
  datatype TemplateHelpers = TemplateHelpers(
    entityName: string -> string,
    entityFilename: (string, Option<bool>) -> string,
    connectDtoFilename: (string, Option<bool>) -> string,
    createDtoFilename: (string, Option<bool>) -> string,
    updateDtoFilename: (string, Option<bool>) -> string,
    updateDtoName: string -> string)

  /** `makeImportsFromPrismaClient` (called with the parsed fields by the entity projection and
      with the model by the update projections) and `zipImportStatementParams`. */
  datatype ImportHelpers = ImportHelpers(
    importsFromPrismaClientForFields: seq<ParsedField> -> Option<ImportStatement>,
    importsFromPrismaClientForModel: Model -> Option<ImportStatement>,
    zipImportStatementParams: seq<ImportStatement> -> seq<ImportStatement>)

  /** `getRelativePath`, `slash` and `path.sep`. */
  datatype PathHelpers = PathHelpers(
    getRelativePath: (string, string) -> string,
    slash: string -> string,
    sep: string)

  /** The argument record of `generateRelationInput`. */
  datatype RelationInputRequest = RelationInputRequest(
    field: Field,
    model: Model,
    allModels: seq<Model>,
    templateHelpers: TemplateHelpers,
    preAndSuffixClassName: string -> string,
    canCreateAnnotation: string,
    canConnectAnnotation: string)

  /** The record `generateRelationInput` returns. */
  datatype RelationInput = RelationInput(
    typeName: string,
    imports: seq<ImportStatement>,
    generatedClasses: seq<string>,
    apiExtraModels: seq<string>)

  /** Everything a projection needs besides the model. */
  datatype Env = Env(
    templateHelpers: TemplateHelpers,
    importHelpers: ImportHelpers,
    pathHelpers: PathHelpers,
    generateRelationInput: RelationInputRequest -> RelationInput)
}
