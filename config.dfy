/** The configuration defaulting of `generate` (src/index.ts): the generator block's string
    settings become the options of `run`. The output path and the writing of the files are not
    part of this model. */
module Config {
  import opened Wrappers
  import opened Dmmf
  import opened EntityProjection
  import opened Generator

  /** `stringToBoolean`: exactly `"true"` and `"false"` are recognised, anything else (a missing
      setting included) yields the default, which is `false` unless given. */
  function StringToBoolean(input: Option<string>, defaultValue: bool := false): bool {
    if input == Some("true") then true
    else if input == Some("false") then false
    else defaultValue
  }

  /** The two recognised texts decide the value whatever the default; every other input, an
      upper-cased one included, yields the default. */
  lemma StringToBooleanTable(input: Option<string>, defaultValue: bool)
    ensures StringToBoolean(Some("true"), defaultValue) == true
    ensures StringToBoolean(Some("false"), defaultValue) == false
    ensures input != Some("true") && input != Some("false") ==> StringToBoolean(input, defaultValue) == defaultValue
    ensures StringToBoolean(Some("TRUE"), defaultValue) == defaultValue
    ensures StringToBoolean(None) == false
  {
    assert "TRUE" != "true" by { assert "TRUE"[0] != "true"[0]; }
    assert "TRUE" != "false";
  }

  /** `options.generator.config`: the settings of the generator block, by name. */
  type GeneratorConfig = map<string, string>

  /** A setting, `undefined` when absent. */
  function Setting(config: GeneratorConfig, key: string): Option<string> {
    if key in config then Some(config[key]) else None
  }

  /** The options `generate` hands to `run`: the destructuring defaults for the class-name
      prefixes and suffixes, the two flags through `stringToBoolean`, and neither a naming style
      nor `enumAsSchema`. */
  function RunOptionsOf(config: GeneratorConfig): RunOptions {
    RunOptions(
      StringToBoolean(Setting(config, "exportRelationModifierClasses"), true),
      StringToBoolean(Setting(config, "outputToNestJsResourceStructure"), false),
      PreAndSuffixes(
        Setting(config, "connectDtoPrefix").GetOr("Connect"),
        Setting(config, "createDtoPrefix").GetOr("Create"),
        Setting(config, "updateDtoPrefix").GetOr("Update"),
        Setting(config, "dtoSuffix").GetOr("Dto"),
        Setting(config, "entityPrefix").GetOr(""),
        Setting(config, "entitySuffix").GetOr("")),
      None,
      None)
  }

  /** `generate` up to the file writes: `run` on the configured options. */
  function Generate(output: string, config: GeneratorConfig, models: seq<DmmfModel>, c: RunCollaborators)
    : Result<seq<FileSpec>, EntityError>
  {
    Run(output, models, RunOptionsOf(config), c)
  }

  /** Missing settings take their defaults: relation-modifier classes are exported, the flat
      layout is used, the DTO prefixes are `Connect`, `Create` and `Update` with the suffix `Dto`,
      and entities have neither prefix nor suffix. A given setting is taken as written. File
      names are always camel-cased, since no naming style is passed on. */
  lemma ConfigDefaults(config: GeneratorConfig, t: CaseTransforms)
    ensures var o := RunOptionsOf(map[]);
      && o.exportRelationModifierClasses
      && !o.outputToNestJsResourceStructure
      && o.preAndSuffixes == PreAndSuffixes("Connect", "Create", "Update", "Dto", "", "")
    ensures "dtoSuffix" in config ==> RunOptionsOf(config).preAndSuffixes.dtoSuffix == config["dtoSuffix"]
    ensures "connectDtoPrefix" in config ==>
      RunOptionsOf(config).preAndSuffixes.connectDtoPrefix == config["connectDtoPrefix"]
    ensures RunOptionsOf(config).exportRelationModifierClasses <==>
      Setting(config, "exportRelationModifierClasses") != Some("false")
    ensures RunOptionsOf(config).outputToNestJsResourceStructure <==>
      Setting(config, "outputToNestJsResourceStructure") == Some("true")
    ensures HelpersConfigOf(RunOptionsOf(config), t).transformFileNameCase == t.camel
  {
  }
}
