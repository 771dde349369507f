/** `computeModelParams` (src/generator/compute-model-params/index.ts): the four projections of one
    model, evaluated in the order connect, create, update, entity. The create projection is not
    part of this model and is a parameter. The entity projection is called without `allModels`,
    so it throws on any kept relation to another model. */
module ModelProjections {
  import opened Wrappers
  import opened Seqs
  import opened Dmmf
  import opened FieldClassifiers
  import opened Collaborators
  import opened ConnectProjection
  import opened UpdateProjection
  import opened EntityProjection

  /** `computeCreateDtoParams({ model, allModels, templateHelpers })`. */
  type CreateProjection = (Model, seq<Model>, Env) -> DtoParams

  /** The object expression of `computeModelParams`; the whole call throws when the entity
      projection does. */
  function ComputeModelParams(model: Model, allModels: seq<Model>, env: Env, create: CreateProjection)
    : Result<ModelParams, EntityError>
  {
    var connect := ComputeConnectDtoParams(model);
    var createParams := create(model, allModels, env);
    var update := UpdateSpec(model, allModels, env);
    match EntitySpec(model, None, env)
    case Failure(e) => Failure(e)
    case Success(entity) => Success(ModelParams(connect, createParams, update, entity))
  }

  /** The call fails exactly when the model has a kept relation to another model, and then with
      the `allModels`-undefined error; `allModels` itself plays no part in that. */
  lemma ModelParamsFailIff(model: Model, allModels: seq<Model>, env: Env, create: CreateProjection)
    ensures ComputeModelParams(model, allModels, env, create).Failure? <==>
      exists i :: 0 <= i < |model.fields| && NeedsImport(model, model.fields[i])
    ensures ComputeModelParams(model, allModels, env, create).Failure? ==>
      ComputeModelParams(model, allModels, env, create).error == AllModelsUndefined
  {
    EntitySpecFails(model, None, env);
    var k := FirstUnresolvable(model, None, model.fields);
    if exists i :: 0 <= i < |model.fields| && NeedsImport(model, model.fields[i]) {
      var i :| 0 <= i < |model.fields| && NeedsImport(model, model.fields[i]);
      assert Unresolvable(model, None, model.fields[i]);
    }
  }

  /** On success, connect depends on the model alone, create and update receive the same model,
      `allModels` and helpers, and the entity is that of a model without related imports. */
  lemma ModelParamsOnSuccess(model: Model, allModels: seq<Model>, env: Env, create: CreateProjection)
    requires ComputeModelParams(model, allModels, env, create).Success?
    ensures var p := ComputeModelParams(model, allModels, env, create).value;
      && p.connect == ComputeConnectDtoParams(model)
      && p.create == create(model, allModels, env)
      && p.update == UpdateSpec(model, allModels, env)
      && p.entity == EntitySpec(model, None, env).value
      && p.entity.imports == env.importHelpers.zipImportStatementParams(
           PrependSome(env.importHelpers.importsFromPrismaClientForFields(p.entity.fields), []))
  {
    EntitySpecFails(model, None, env);
    EntitySpecSucceeds(model, None, env);
    NoCandidatesWithoutModels(model, env, model.fields);
  }

  /** With no models to look in, no field yields an import. */
  lemma {:induction false} NoCandidatesWithoutModels(model: Model, env: Env, fs: seq<Field>)
    ensures Candidates(model, [], env, fs) == []
  {
    if fs != [] {
      NoCandidatesWithoutModels(model, env, fs[1..]);
    }
  }
}
