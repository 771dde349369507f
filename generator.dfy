/** `run` (src/generator/index.ts): drop the models marked `@DtoIgnoreModel`, give each remaining
    model its output locations, compute its four projections against the remaining models, and
    emit four file specifications per model (connect, create, update, entity), flattened in model
    order. The case transforms, `path.join`, `makeHelpers`, the create projection and the four
    renderers are parameters. */
module Generator {
  import opened Wrappers
  import opened Seqs
  import opened Dmmf
  import opened Annotations
  import opened FieldClassifiers
  import opened Collaborators
  import opened ConnectProjection
  import opened UpdateProjection
  import opened EntityProjection
  import opened ModelProjections

  /** `NamingStyle`. */
  datatype NamingStyle = Camel | Kebab | Pascal | Snake

  /** The `camel`, `kebab`, `pascal` and `snake` functions of the case library. */
  datatype CaseTransforms = CaseTransforms(
    camel: string -> string,
    kebab: string -> string,
    pascal: string -> string,
    snake: string -> string)

  /** The `transformers` record, indexed by a naming style. */
  function Transformer(t: CaseTransforms, style: NamingStyle): string -> string {
    match style
    case Camel => t.camel
    case Kebab => t.kebab
    case Pascal => t.pascal
    case Snake => t.snake
  }

  /** The class-name prefixes and suffixes, passed on to `makeHelpers` untouched. */
  datatype PreAndSuffixes = PreAndSuffixes(
    connectDtoPrefix: string,
    createDtoPrefix: string,
    updateDtoPrefix: string,
    dtoSuffix: string,
    entityPrefix: string,
    entitySuffix: string)

  /** `RunParam` without `output` and `dmmf`; a `fileNamingStyle` or `enumAsSchema` left out by
      the caller is `None`. */
  datatype RunOptions = RunOptions(
    exportRelationModifierClasses: bool,
    outputToNestJsResourceStructure: bool,
    preAndSuffixes: PreAndSuffixes,
    fileNamingStyle: Option<NamingStyle>,
    enumAsSchema: Option<bool>)

  /** The argument record of `makeHelpers`. */
  datatype HelpersConfig = HelpersConfig(
    transformFileNameCase: string -> string,
    transformClassNameCase: string -> string,
    preAndSuffixes: PreAndSuffixes)

  /** `generateConnectDto`, `generateCreateDto`, `generateUpdateDto` and `generateEntity`, each
      applied to the projection spread together with the helpers, `enumAsSchema` and (create and
      update only) `exportRelationModifierClasses`. */
  datatype Renderers = Renderers(
    connect: (ConnectDtoParams, TemplateHelpers, Option<bool>) -> string,
    create: (DtoParams, bool, TemplateHelpers, Option<bool>) -> string,
    update: (DtoParams, bool, TemplateHelpers, Option<bool>) -> string,
    entity: (EntityParams, TemplateHelpers, Option<bool>) -> string)

  /** Everything `run` calls whose body is not part of this model. */
  datatype RunCollaborators = RunCollaborators(
    transforms: CaseTransforms,
    makeHelpers: HelpersConfig -> TemplateHelpers,
    importHelpers: ImportHelpers,
    pathHelpers: PathHelpers,
    generateRelationInput: RelationInputRequest -> RelationInput,
    pathJoin: seq<string> -> string,
    create: CreateProjection,
    renderers: Renderers)

  /** `transformFileNameCase`: the transform of the requested style, camel when none is given. */
  function FileNameCase(options: RunOptions, t: CaseTransforms): string -> string {
    Transformer(t, options.fileNamingStyle.GetOr(Camel))
  }

  /** The record handed to `makeHelpers`: class names are always pascal-cased. */
  function HelpersConfigOf(options: RunOptions, t: CaseTransforms): HelpersConfig {
    HelpersConfig(FileNameCase(options, t), t.pascal, options.preAndSuffixes)
  }

  /** The helpers and collaborators the projections and renderers receive. */
  function EnvOf(options: RunOptions, c: RunCollaborators): Env {
    Env(c.makeHelpers(HelpersConfigOf(options, c.transforms)), c.importHelpers, c.pathHelpers,
      c.generateRelationInput)
  }

  /** The `.map` that attaches `output` to a DMMF model. */
  function WithOutput(m: DmmfModel, output: string, options: RunOptions, c: RunCollaborators): Model {
    var folder := FileNameCase(options, c.transforms)(m.name);
    Model(m.name, m.documentation, m.fields, Output(
      if options.outputToNestJsResourceStructure then c.pathJoin([output, folder, "dto"]) else output,
      if options.outputToNestJsResourceStructure then c.pathJoin([output, folder, "entities"]) else output))
  }

  /** The filter on `@DtoIgnoreModel`. */
  predicate Processed(m: DmmfModel) {
    !IsModelAnnotatedWith(m, DtoIgnoreModel)
  }

  /** `filteredModels`. */
  function FilteredModels(models: seq<DmmfModel>, output: string, options: RunOptions, c: RunCollaborators)
    : seq<Model>
  {
    FilterMap(models, Processed, (m: DmmfModel) => WithOutput(m, output, options, c))
  }

  /** The four specifications of one model, or the error its projections throw. */
  function ModelFiles(model: Model, allModels: seq<Model>, options: RunOptions, c: RunCollaborators)
    : (r: Result<seq<FileSpec>, EntityError>)
    ensures r.Success? ==> |r.value| == 4
  {
    var env := EnvOf(options, c);
    var h := env.templateHelpers;
    match ComputeModelParams(model, allModels, env, c.create)
    case Failure(e) => Failure(e)
    case Success(p) =>
      Success([
        FileSpec(c.pathJoin([model.output.dto, h.connectDtoFilename(model.name, Some(true))]),
          c.renderers.connect(p.connect, h, options.enumAsSchema)),
        FileSpec(c.pathJoin([model.output.dto, h.createDtoFilename(model.name, Some(true))]),
          c.renderers.create(p.create, options.exportRelationModifierClasses, h, options.enumAsSchema)),
        FileSpec(c.pathJoin([model.output.dto, h.updateDtoFilename(model.name, Some(true))]),
          c.renderers.update(p.update, options.exportRelationModifierClasses, h, options.enumAsSchema)),
        FileSpec(c.pathJoin([model.output.entity, h.entityFilename(model.name, Some(true))]),
          c.renderers.entity(p.entity, h, options.enumAsSchema))])
  }

  /** `modelFiles` flattened: the elements are processed in order and the first one that throws
      ends the run. */
  function FlatMapResult<A, B, E>(s: seq<A>, f: A -> Result<seq<B>, E>): Result<seq<B>, E> {
    if s == [] then Success([])
    else
      match f(s[0])
      case Failure(e) => Failure(e)
      case Success(head) =>
        match FlatMapResult(s[1..], f)
        case Failure(e) => Failure(e)
        case Success(rest) => Success(head + rest)
  }

  /** `run`. */
  function Run(output: string, models: seq<DmmfModel>, options: RunOptions, c: RunCollaborators)
    : Result<seq<FileSpec>, EntityError>
  {
    var filtered := FilteredModels(models, output, options, c);
    FlatMapResult(filtered, (m: Model) => ModelFiles(m, filtered, options, c))
  }

  /** Without a naming style the file names are camel-cased; each named style selects its own
      transform; class names are always pascal-cased, whatever the style. */
  lemma NamingDefaults(options: RunOptions, t: CaseTransforms)
    ensures options.fileNamingStyle.None? ==> HelpersConfigOf(options, t).transformFileNameCase == t.camel
    ensures options.fileNamingStyle == Some(Kebab) ==> HelpersConfigOf(options, t).transformFileNameCase == t.kebab
    ensures options.fileNamingStyle == Some(Snake) ==> HelpersConfigOf(options, t).transformFileNameCase == t.snake
    ensures options.fileNamingStyle == Some(Camel) ==> HelpersConfigOf(options, t).transformFileNameCase == t.camel
    ensures options.fileNamingStyle == Some(Pascal) ==> HelpersConfigOf(options, t).transformFileNameCase == t.pascal
    ensures HelpersConfigOf(options, t).transformClassNameCase == t.pascal
    ensures HelpersConfigOf(options, t).preAndSuffixes == options.preAndSuffixes
  {
  }

  /** The processed models are the models without `@DtoIgnoreModel`, in their declared order,
      each with its own name, documentation and fields and the output locations of the rules:
      under `<output>/<folder>/dto` and `<output>/<folder>/entities` for the resource layout, and
      directly under `output` otherwise. */
  lemma FilteredModelsFacts(models: seq<DmmfModel>, output: string, options: RunOptions, c: RunCollaborators)
    ensures var filtered := FilteredModels(models, output, options, c);
      var kept := KeptIndices(models, Processed);
      && |filtered| == |kept|
      && (forall k :: 0 <= k < |kept| ==>
           && !Matches(models[kept[k]].documentation, DtoIgnoreModel)
           && filtered[k].name == models[kept[k]].name
           && filtered[k].documentation == models[kept[k]].documentation
           && filtered[k].fields == models[kept[k]].fields)
      && (forall k, l :: 0 <= k < l < |kept| ==> kept[k] < kept[l])
      && (forall i :: 0 <= i < |models| && !Matches(models[i].documentation, DtoIgnoreModel) ==> i in kept)
    ensures forall m :: m in FilteredModels(models, output, options, c) ==>
      var folder := FileNameCase(options, c.transforms)(m.name);
      && !Matches(m.documentation, DtoIgnoreModel)
      && (options.outputToNestJsResourceStructure ==>
            m.output == Output(c.pathJoin([output, folder, "dto"]), c.pathJoin([output, folder, "entities"])))
      && (!options.outputToNestJsResourceStructure ==> m.output == Output(output, output))
  {
    var f := (m: DmmfModel) => WithOutput(m, output, options, c);
    FilterMapOrder(models, Processed, f);
    forall m | m in FilteredModels(models, output, options, c)
      ensures !Matches(m.documentation, DtoIgnoreModel)
    {
      FilterMapMember(models, Processed, f, m);
    }
  }

  /** A flattening succeeds exactly when every element does. */
  lemma {:induction false} FlatMapResultSucceeds<A, B, E>(s: seq<A>, f: A -> Result<seq<B>, E>)
    ensures FlatMapResult(s, f).Success? <==> forall k :: 0 <= k < |s| ==> f(s[k]).Success?
  {
    if s != [] {
      FlatMapResultSucceeds(s[1..], f);
      assert forall k :: 1 <= k < |s| ==> s[k] == s[1..][k - 1];
    }
  }

  /** Element `k` is the first that fails. */
  predicate FirstFailure<A, B, E>(s: seq<A>, f: A -> Result<seq<B>, E>, k: int) {
    0 <= k < |s| && f(s[k]).Failure? && forall l :: 0 <= l < k ==> f(s[l]).Success?
  }

  /** A failed flattening carries the error of the first failing element. */
  lemma {:induction false} FlatMapResultFails<A, B, E>(s: seq<A>, f: A -> Result<seq<B>, E>)
    requires FlatMapResult(s, f).Failure?
    ensures exists k :: FirstFailure(s, f, k) && FlatMapResult(s, f).error == f(s[k]).error
  {
    if f(s[0]).Failure? {
      assert FirstFailure(s, f, 0);
    } else {
      var rest := s[1..];
      FlatMapResultFails(rest, f);
      var k :| FirstFailure(rest, f, k) && FlatMapResult(rest, f).error == f(rest[k]).error;
      assert s[k + 1] == rest[k];
      assert forall l :: 1 <= l < k + 1 ==> s[l] == rest[l - 1];
      assert FirstFailure(s, f, k + 1);
    }
  }

  /** When every element yields four items, a successful flattening has four items per element,
      element `k` contributing those at `4 * k` to `4 * k + 4`. */
  lemma {:induction false} FlatMapResultFours<A, B, E>(s: seq<A>, f: A -> Result<seq<B>, E>)
    requires forall x :: f(x).Success? ==> |f(x).value| == 4
    requires FlatMapResult(s, f).Success?
    ensures var r := FlatMapResult(s, f).value;
      && |r| == 4 * |s|
      && forall k :: 0 <= k < |s| ==> f(s[k]).Success? && r[4 * k..4 * k + 4] == f(s[k]).value
  {
    if s != [] {
      var rest := s[1..];
      FlatMapResultFours(rest, f);
      var r := FlatMapResult(s, f).value;
      var tail := FlatMapResult(rest, f).value;
      assert r == f(s[0]).value + tail;
      forall k | 0 <= k < |s|
        ensures f(s[k]).Success? && r[4 * k..4 * k + 4] == f(s[k]).value
      {
        if k > 0 {
          assert s[k] == rest[k - 1];
          assert r[4 * k..4 * k + 4] == tail[4 * (k - 1)..4 * (k - 1) + 4];
        }
      }
    }
  }

  /** A model's four files, in the order connect, create, update, entity: the DTO files under
      `output.dto` and the entity file under `output.entity`, each with the helpers' file name of
      the model, and each rendered from the corresponding projection. */
  lemma ModelFilesFacts(model: Model, allModels: seq<Model>, options: RunOptions, c: RunCollaborators)
    requires ModelFiles(model, allModels, options, c).Success?
    ensures var r := ModelFiles(model, allModels, options, c).value;
      var env := EnvOf(options, c);
      var h := env.templateHelpers;
      && r[0] == FileSpec(c.pathJoin([model.output.dto, h.connectDtoFilename(model.name, Some(true))]),
           c.renderers.connect(ComputeConnectDtoParams(model), h, options.enumAsSchema))
      && r[1] == FileSpec(c.pathJoin([model.output.dto, h.createDtoFilename(model.name, Some(true))]),
           c.renderers.create(c.create(model, allModels, env), options.exportRelationModifierClasses, h,
             options.enumAsSchema))
      && r[2] == FileSpec(c.pathJoin([model.output.dto, h.updateDtoFilename(model.name, Some(true))]),
           c.renderers.update(UpdateSpec(model, allModels, env), options.exportRelationModifierClasses, h,
             options.enumAsSchema))
      && r[3] == FileSpec(c.pathJoin([model.output.entity, h.entityFilename(model.name, Some(true))]),
           c.renderers.entity(EntitySpec(model, None, env).value, h, options.enumAsSchema))
  {
    var env := EnvOf(options, c);
    assert ComputeModelParams(model, allModels, env, c.create).Success?;
    ModelParamsOnSuccess(model, allModels, env, c.create);
  }

  /** `run` fails exactly when some processed model has an entity field that relates to another
      model (the entity projection is called without `allModels`), and then with the
      `allModels`-undefined error. Otherwise it yields four files per processed model, in model
      order, and the create and update projections are computed against the processed models
      only. */
  lemma RunFacts(output: string, models: seq<DmmfModel>, options: RunOptions, c: RunCollaborators)
    ensures var filtered := FilteredModels(models, output, options, c);
      Run(output, models, options, c).Failure? <==>
        exists k, i :: 0 <= k < |filtered| && 0 <= i < |filtered[k].fields| &&
          NeedsImport(filtered[k], filtered[k].fields[i])
    ensures Run(output, models, options, c).Failure? ==>
      Run(output, models, options, c).error == AllModelsUndefined
    ensures var filtered := FilteredModels(models, output, options, c);
      Run(output, models, options, c).Success? ==>
        var r := Run(output, models, options, c).value;
        && |r| == 4 * |filtered|
        && forall k :: 0 <= k < |filtered| ==>
             && ModelFiles(filtered[k], filtered, options, c).Success?
             && r[4 * k..4 * k + 4] == ModelFiles(filtered[k], filtered, options, c).value
  {
    var filtered := FilteredModels(models, output, options, c);
    var env := EnvOf(options, c);
    var f := (m: Model) => ModelFiles(m, filtered, options, c);
    FlatMapResultSucceeds(filtered, f);
    if Run(output, models, options, c).Failure? {
      FlatMapResultFails(filtered, f);
    } else {
      FlatMapResultFours(filtered, f);
    }
    forall k | 0 <= k < |filtered|
      ensures ModelFiles(filtered[k], filtered, options, c).Failure? <==>
        exists i :: 0 <= i < |filtered[k].fields| && NeedsImport(filtered[k], filtered[k].fields[i])
      ensures ModelFiles(filtered[k], filtered, options, c).Failure? ==>
        ModelFiles(filtered[k], filtered, options, c).error == AllModelsUndefined
    {
      ModelParamsFailIff(filtered[k], filtered, env, c.create);
    }
  }
}
