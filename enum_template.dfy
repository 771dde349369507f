/** `createEnumTemplate` (src/generator/templates/enum.template.ts): the TypeScript enum
    declaration of a Prisma enum. Each member is rendered with a trailing comma, and the array of
    members is interpolated into the template, which joins it with commas as well. */
module EnumTemplate {
  import opened Wrappers
  import opened Seqs
  import opened Dmmf
  import Templates

  /** A `dbName` is truthy when it is present and not empty. */
  predicate HasStorageName(v: EnumValue) {
    v.dbName.Some? && v.dbName.value != ""
  }

  /** The assignment of a member's storage name, if it has one. */
  function Assignment(v: EnumValue): string {
    if HasStorageName(v) then "= '" + v.dbName.value + "'" else ""
  }

  /** One member as the source renders it: name, assignment, comma. */
  function RenderValue(v: EnumValue): string {
    v.name + Assignment(v) + ","
  }

  /** The template around the member list. */
  function EnumDeclaration(classPrefix: string, name: string, enumSuffix: Option<string>, body: string): string {
    "\n  export enum " + classPrefix + name + enumSuffix.GetOr("") + " {\n    " + body + "\n  };\n  "
  }

  /** `createEnumTemplate` as written. */
  function CreateEnumTemplate(enumModel: DatamodelEnum, classPrefix: string, enumSuffix: Option<string> := None)
    : string
  {
    EnumDeclaration(classPrefix, enumModel.name, enumSuffix,
      Join(Templates.MapSeq(enumModel.values, RenderValue), ","))
  }

  /** A member has an assignment exactly when its storage name is truthy: a missing or empty
      `dbName` renders the bare name. */
  lemma RenderValueAssignment(v: EnumValue)
    ensures !HasStorageName(v) ==> RenderValue(v) == v.name + ","
    ensures HasStorageName(v) ==> RenderValue(v) == v.name + "= '" + v.dbName.value + "',"
  {
  }

  /** The declaration starts with `export enum`, the prefix, the enum name and the suffix, which
      defaults to nothing. */
  lemma EnumHeader(enumModel: DatamodelEnum, classPrefix: string, enumSuffix: Option<string>)
    ensures var header := "\n  export enum " + classPrefix + enumModel.name + enumSuffix.GetOr("") + " {";
      CreateEnumTemplate(enumModel, classPrefix, enumSuffix)[..|header|] == header
    ensures CreateEnumTemplate(enumModel, classPrefix) == CreateEnumTemplate(enumModel, classPrefix, Some(""))
  {
  }

  /** As written, two members render with a doubled comma between them (`A,,B,`), which is not a
      valid TypeScript enum body. */
  lemma AsWrittenDoublesCommas()
    ensures CreateEnumTemplate(DatamodelEnum("Role", [EnumValue("A", None), EnumValue("B", None)]), "") ==
      EnumDeclaration("", "Role", None, "A,,B,")
    ensures Contains("A,,B,", ",,")
  {
    var a, b := EnumValue("A", None), EnumValue("B", None);
    var ms := Templates.MapSeq([a, b], RenderValue);
    assert RenderValue(a) == "A" + "" + "," && RenderValue(b) == "B" + "" + ",";
    assert ms[0] == "A," && ms[1] == "B,";
    assert ms == ["A,", "B,"];
    assert Join(ms, ",") == "A," + "," + "B,";
    assert "A,,B,"[1..][..2] == ",,";
  }

  /** One member without a comma: name and assignment. */
  function RenderMember(v: EnumValue): string {
    v.name + Assignment(v)
  }

  /** `createEnumTemplate` with one comma between members, as the other enum renderer of the
      repository (src/generator/generate-enum.ts:15-17) writes them: members without their own
      comma, joined by the interpolation. */
  function CreateEnumTemplateCorrected(enumModel: DatamodelEnum, classPrefix: string,
                                       enumSuffix: Option<string> := None): string
  {
    EnumDeclaration(classPrefix, enumModel.name, enumSuffix,
      Join(Templates.MapSeq(enumModel.values, RenderMember), ","))
  }

  /** Names and storage names without commas. */
  predicate CommaFree(values: seq<EnumValue>) {
    forall k :: 0 <= k < |values| ==>
      (',' !in values[k].name && (values[k].dbName.Some? ==> ',' !in values[k].dbName.value))
  }

  /** The corrected member list splits on commas back into exactly one member per enum value, in
      declared order; so no empty member appears. */
  lemma CorrectedMembersSplitBack(values: seq<EnumValue>)
    requires |values| > 0 && CommaFree(values)
    ensures var parts := Split(Join(Templates.MapSeq(values, RenderMember), ","), ',');
      |parts| == |values| && forall k :: 0 <= k < |values| ==> parts[k] == RenderMember(values[k])
  {
    var ms := Templates.MapSeq(values, RenderMember);
    forall k | 0 <= k < |ms| ensures ',' !in ms[k] {
      var v := values[k];
      assert ms[k] == v.name + Assignment(v);
      if HasStorageName(v) {
        assert Assignment(v) == "= '" + v.dbName.value + "'";
        assert forall c :: c in Assignment(v) ==> c in "= '" || c in v.dbName.value;
      }
    }
    SplitJoin(ms, ',');
  }
}
