/** The template helpers (src/generator/template-helpers.ts): the Prisma-scalar table, the
    conditional and iteration combinators, the import-statement text, and the helpers
    `makeHelpers` builds from class-name prefixes, suffixes and a file-name case transform. */
module Templates {
  import opened Wrappers
  import opened Seqs
  import Dmmf

  /** `Object.keys(PrismaScalarToTypeScript)`, in declaration order. */
  const KnownScalars: seq<string> :=
    ["String", "Boolean", "Int", "BigInt", "Float", "Decimal", "DateTime", "Json", "Bytes"]

  /** `PrismaScalarToTypeScript`. */
  const PrismaScalarToTypeScript: map<string, string> := map[
    "String" := "string",
    "Boolean" := "boolean",
    "Int" := "number",
    "BigInt" := "bigint",
    "Float" := "number",
    "Decimal" := "Prisma.Decimal",
    "DateTime" := "Date",
    "Json" := "Prisma.JsonValue",
    "Bytes" := "Buffer"]

  /** The message of the error thrown for a tag outside the table. */
  function UnrecognizedScalar(scalar: string): string {
    "Unrecognized scalar type: " + scalar
  }

  /** `scalarToTS`: the TypeScript type of a Prisma scalar tag, with the input variant of `Json`
      when `toInputType` is set; a tag outside the nine known ones throws. */
  function ScalarToTS(scalar: string, toInputType: bool := false): (r: Result<string, string>)
    ensures r.Failure? <==> scalar !in KnownScalars
    ensures r.Failure? ==> r.error == UnrecognizedScalar(scalar)
  {
    if scalar !in KnownScalars then Failure(UnrecognizedScalar(scalar))
    else if toInputType && scalar == "Json" then Success("Prisma.InputJsonValue")
    else Success(PrismaScalarToTypeScript[scalar])
  }

  /** The table for the number, text and truth-value tags, for both settings of `toInputType`. */
  lemma ScalarTablePrimitives(toInputType: bool)
    ensures ScalarToTS("String", toInputType) == Success("string")
    ensures ScalarToTS("Boolean", toInputType) == Success("boolean")
    ensures ScalarToTS("Int", toInputType) == Success("number")
    ensures ScalarToTS("BigInt", toInputType) == Success("bigint")
    ensures ScalarToTS("Float", toInputType) == Success("number")
  {
  }

  /** The table for the tags that map to library or runtime types; only `Json` depends on
      `toInputType`. */
  lemma ScalarTableObjects(toInputType: bool)
    ensures ScalarToTS("Decimal", toInputType) == Success("Prisma.Decimal")
    ensures ScalarToTS("DateTime", toInputType) == Success("Date")
    ensures ScalarToTS("Json", toInputType) ==
      Success(if toInputType then "Prisma.InputJsonValue" else "Prisma.JsonValue")
    ensures ScalarToTS("Bytes", toInputType) == Success("Buffer")
  {
  }

  /** `toInputType` changes the result for no tag other than `Json`. */
  lemma InputTypeOnlyAffectsJson(scalar: string)
    requires scalar != "Json"
    ensures ScalarToTS(scalar, true) == ScalarToTS(scalar, false)
  {
  }

  /** `echo`. */
  function Echo(input: string): string {
    input
  }

  /** `when`: the then-template when the condition holds, otherwise the else-template, which
      defaults to the empty text. */
  function When(condition: bool, thenTemplate: string, elseTemplate: string := ""): string {
    if condition then thenTemplate else elseTemplate
  }

  /** `unless`. */
  function Unless(condition: bool, thenTemplate: string, elseTemplate: string := ""): string {
    if !condition then thenTemplate else elseTemplate
  }

  /** `unless` is `when` on the negated condition, and both yield the empty text by default. */
  lemma UnlessIsWhenNot(condition: bool, thenTemplate: string, elseTemplate: string)
    ensures Unless(condition, thenTemplate, elseTemplate) == When(!condition, thenTemplate, elseTemplate)
    ensures When(false, thenTemplate) == "" && Unless(true, thenTemplate) == ""
  {
  }

  /** `arr.map(fn)`. */
  function MapSeq<T>(arr: seq<T>, fn: T -> string): (r: seq<string>)
    ensures |r| == |arr|
    ensures forall k :: 0 <= k < |arr| ==> r[k] == fn(arr[k])
  {
    seq(|arr|, k requires 0 <= k < |arr| => fn(arr[k]))
  }

  /** `each`: the rendered items joined with the separator, which defaults to the empty text. */
  function Each<T>(arr: seq<T>, fn: T -> string, joinWith: string := ""): string {
    Join(MapSeq(arr, fn), joinWith)
  }

  /** `each` over nothing is empty, over one item is that item, and one more item is appended
      after the separator. */
  lemma EachSteps<T>(arr: seq<T>, x: T, fn: T -> string, joinWith: string)
    ensures Each([], fn, joinWith) == ""
    ensures Each([x], fn, joinWith) == fn(x)
    ensures |arr| > 0 ==> Each(arr + [x], fn, joinWith) == Each(arr, fn, joinWith) + joinWith + fn(x)
  {
    if |arr| > 0 {
      assert MapSeq(arr + [x], fn) == MapSeq(arr, fn) + [fn(x)];
      JoinSnoc(MapSeq(arr, fn), fn(x), joinWith);
    }
  }

  /** `importStatement`: an array in a template literal is its items joined with `,`. */
  function ImportStatement(names: seq<string>, from: string): string {
    "import { " + Join(names, ",") + " } from '" + from + "';"
  }

  /** The argument record of `makeHelpers`; a property left out by the caller is `None`. */
  datatype MakeHelpersParam = MakeHelpersParam(
    dtoPrefix: Option<string>,
    enumPrefix: Option<string>,
    dtoSuffix: Option<string>,
    enumSuffix: Option<string>,
    transformCase: Option<string -> string>)

  /** The settings the helpers made by `makeHelpers` close over. */
  datatype MadeHelpers = MadeHelpers(
    dtoPrefix: string,
    enumPrefix: string,
    dtoSuffix: string,
    enumSuffix: string,
    transformCase: string -> string)

  /** `makeHelpers`' parameter defaults. */
  function MakeHelpers(p: MakeHelpersParam): MadeHelpers {
    MadeHelpers(p.dtoPrefix.GetOr(""), p.enumPrefix.GetOr(""), p.dtoSuffix.GetOr(""),
      p.enumSuffix.GetOr(""), p.transformCase.GetOr(Echo))
  }

  /** With nothing given, prefixes and suffixes are empty and file names are not transformed. */
  lemma MakeHelpersDefaults(name: string)
    ensures var h := MakeHelpers(MakeHelpersParam(None, None, None, None, None));
      h.dtoPrefix == "" && h.enumPrefix == "" && h.dtoSuffix == "" && h.enumSuffix == "" &&
      h.transformCase(name) == name
  {
  }

  /** `importEnum`. */
  function ImportEnum(h: MadeHelpers, name: string): string {
    ImportStatement(MapSeq([name], (value: string) => h.enumPrefix + value + h.enumSuffix),
      "./" + h.transformCase(name) + ".enum")
  }

  /** `importEnums`. */
  function ImportEnums(h: MadeHelpers, names: seq<string>): string {
    Each(names, (name: string) => ImportEnum(h, name), ";\n")
  }

  /** `importDto`. */
  function ImportDto(h: MadeHelpers, name: string): string {
    ImportStatement(MapSeq([name], (value: string) => h.dtoPrefix + value + h.dtoSuffix),
      "./" + h.transformCase(name) + ".dto")
  }

  /** `importDtos`. */
  function ImportDtos(h: MadeHelpers, names: seq<string>): string {
    Each(names, (name: string) => ImportDto(h, name), ";\n")
  }

  /** An enum import names the prefixed and suffixed enum class and the transformed file name
      with the `.enum` extension; a DTO import likewise with `.dto`. */
  lemma ImportTexts(h: MadeHelpers, name: string)
    ensures ImportEnum(h, name) ==
      "import { " + h.enumPrefix + name + h.enumSuffix + " } from './" + h.transformCase(name) + ".enum';"
    ensures ImportDto(h, name) ==
      "import { " + h.dtoPrefix + name + h.dtoSuffix + " } from './" + h.transformCase(name) + ".dto';"
  {
  }

  /** Several imports are the single imports in order, separated by `;` and a line break. */
  lemma ImportListSteps(h: MadeHelpers, names: seq<string>, name: string)
    ensures ImportDtos(h, [name]) == ImportDto(h, name)
    ensures ImportEnums(h, [name]) == ImportEnum(h, name)
    ensures |names| > 0 ==> ImportDtos(h, names + [name]) == ImportDtos(h, names) + ";\n" + ImportDto(h, name)
    ensures |names| > 0 ==> ImportEnums(h, names + [name]) == ImportEnums(h, names) + ";\n" + ImportEnum(h, name)
  {
    EachSteps(names, name, (n: string) => ImportDto(h, n), ";\n");
    EachSteps(names, name, (n: string) => ImportEnum(h, n), ";\n");
  }

  /** The type text of a field before the list marker. */
  function BaseType(h: MadeHelpers, field: Dmmf.Field, toInputType: bool): Result<string, string> {
    if field.kind == Dmmf.Scalar then ScalarToTS(field.typeName, toInputType)
    else if field.kind == Dmmf.Enum then Success(h.enumPrefix + field.typeName)
    else Success(h.dtoPrefix + field.typeName + h.dtoSuffix)
  }

  /** `fieldType`. */
  function FieldType(h: MadeHelpers, field: Dmmf.Field, toInputType: bool := false): (r: Result<string, string>)
    ensures r.Failure? <==> field.kind == Dmmf.Scalar && field.typeName !in KnownScalars
  {
    match BaseType(h, field, toInputType)
    case Failure(e) => Failure(e)
    case Success(t) => Success(t + When(field.isList, "[]"))
  }

  /** A scalar field has the type of the table; an enum field the prefixed enum name, without the
      enum suffix; any other field the prefixed and suffixed DTO class. */
  lemma FieldTypeKinds(h: MadeHelpers, field: Dmmf.Field, toInputType: bool)
    requires !field.isList
    ensures field.kind == Dmmf.Scalar ==> FieldType(h, field, toInputType) == ScalarToTS(field.typeName, toInputType)
    ensures field.kind == Dmmf.Enum ==> FieldType(h, field, toInputType) == Success(h.enumPrefix + field.typeName)
    ensures field.kind == Dmmf.Object || field.kind == Dmmf.Unsupported ==>
      FieldType(h, field, toInputType) == Success(h.dtoPrefix + field.typeName + h.dtoSuffix)
  {
    var b := BaseType(h, field, toInputType);
    if b.Success? {
      assert b.value + "" == b.value;
    }
  }

  /** A list field has the type of the same field as a single value, followed by `[]`. */
  lemma FieldTypeOfList(h: MadeHelpers, field: Dmmf.Field, toInputType: bool)
    ensures var single := field.(isList := false);
      FieldType(h, field.(isList := true), toInputType).Success? ==>
        FieldType(h, field.(isList := true), toInputType).value == FieldType(h, single, toInputType).value + "[]"
  {
    var single := field.(isList := false);
    var b := BaseType(h, single, toInputType);
    assert BaseType(h, field.(isList := true), toInputType) == b;
    if b.Success? {
      assert b.value + "" == b.value;
    }
  }

  /** The input-type switch matters only for `Json` scalars. */
  lemma FieldTypeInputSwitch(h: MadeHelpers, field: Dmmf.Field)
    requires !(field.kind == Dmmf.Scalar && field.typeName == "Json")
    ensures FieldType(h, field, true) == FieldType(h, field, false)
  {
    assert BaseType(h, field, true) == BaseType(h, field, false);
  }

  /** `fieldToClassProp`. */
  function FieldToClassProp(h: MadeHelpers, field: Dmmf.Field, useInputTypes: bool := false): (r: Result<string, string>)
    ensures r.Failure? <==> FieldType(h, field, useInputTypes).Failure?
  {
    match FieldType(h, field, useInputTypes)
    case Failure(e) => Failure(e)
    case Success(t) => Success(field.name + Unless(field.isRequired, "?") + ": " + t + ";")
  }

  /** A class property reads back as the field name, a `?` exactly when the field is not
      required, then `: `, the field type and `;`. */
  lemma ClassPropReadsBack(h: MadeHelpers, field: Dmmf.Field, useInputTypes: bool)
    requires FieldToClassProp(h, field, useInputTypes).Success?
    ensures var r := FieldToClassProp(h, field, useInputTypes).value;
      var n := |field.name| + (if field.isRequired then 0 else 1);
      && |r| == n + 3 + |FieldType(h, field, useInputTypes).value|
      && r[..|field.name|] == field.name
      && (r[|field.name|] == '?' <==> !field.isRequired)
      && r[n..n + 2] == ": "
      && r[n + 2..|r| - 1] == FieldType(h, field, useInputTypes).value
      && r[|r| - 1] == ';'
  {
    var r := FieldToClassProp(h, field, useInputTypes).value;
    var t := FieldType(h, field, useInputTypes).value;
    var mark := Unless(field.isRequired, "?");
    assert r == field.name + mark + ": " + t + ";";
    assert r[|field.name|] == (mark + ": ")[0];
  }

  /** The class properties of all fields, or the error of the first field whose type throws. */
  function ClassProps(h: MadeHelpers, fields: seq<Dmmf.Field>, useInputTypes: bool): (r: Result<seq<string>, string>)
    ensures r.Success? ==> |r.value| == |fields|
    ensures r.Success? <==> forall k :: 0 <= k < |fields| ==> FieldToClassProp(h, fields[k], useInputTypes).Success?
    ensures r.Success? ==> forall k :: 0 <= k < |fields| ==> r.value[k] == FieldToClassProp(h, fields[k], useInputTypes).value
  {
    if fields == [] then Success([])
    else
      assert forall k :: 1 <= k < |fields| ==> fields[k] == fields[1..][k - 1];
      match FieldToClassProp(h, fields[0], useInputTypes)
      case Failure(e) => Failure(e)
      case Success(p) =>
        match ClassProps(h, fields[1..], useInputTypes)
        case Failure(e) => Failure(e)
        case Success(ps) => Success([p] + ps)
  }

  /** `fieldsToClassProps`: the properties, one per line. */
  function FieldsToClassProps(h: MadeHelpers, fields: seq<Dmmf.Field>, useInputTypes: bool := false)
    : Result<string, string>
  {
    match ClassProps(h, fields, useInputTypes)
    case Failure(e) => Failure(e)
    case Success(ps) => Success(Join(ps, "\n"))
  }

  /** No property of the fields spans lines. */
  predicate SingleLineProps(h: MadeHelpers, fields: seq<Dmmf.Field>, useInputTypes: bool) {
    forall k :: 0 <= k < |fields| ==>
      (FieldToClassProp(h, fields[k], useInputTypes).Success? &&
       '\n' !in FieldToClassProp(h, fields[k], useInputTypes).value)
  }

  /** The rendered properties split back into one line per field, in field order, whenever no
      property itself spans lines; and the rendering fails exactly when some field's type does. */
  lemma ClassPropsLines(h: MadeHelpers, fields: seq<Dmmf.Field>, useInputTypes: bool)
    ensures FieldsToClassProps(h, fields, useInputTypes).Failure? <==>
      exists k :: 0 <= k < |fields| && FieldType(h, fields[k], useInputTypes).Failure?
    ensures |fields| > 0 && SingleLineProps(h, fields, useInputTypes) ==>
        var lines := Split(FieldsToClassProps(h, fields, useInputTypes).value, '\n');
        && |lines| == |fields|
        && forall k :: 0 <= k < |fields| ==> lines[k] == FieldToClassProp(h, fields[k], useInputTypes).value
  {
    var r := ClassProps(h, fields, useInputTypes);
    if |fields| > 0 && SingleLineProps(h, fields, useInputTypes) {
      SplitJoin(r.value, '\n');
    }
  }
}
