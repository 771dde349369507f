/** The string helpers of src/generator/helpers.ts: the scalar switch, the first-letter case
    helpers and the path-separator normalisation. */
module Helpers {
  import opened Wrappers
  import opened Seqs
  import Templates

  /** `mapScalarToTSType`: the `PrismaScalars` switch; a tag outside it throws. */
  function MapScalarToTSType(scalar: string, isInputType: bool): (r: Result<string, string>)
    ensures r.Failure? ==> r.error == "Unrecognized scalar type: " + scalar
  {
    if scalar == "String" then Success("string")
    else if scalar == "Boolean" then Success("boolean")
    else if scalar == "Int" || scalar == "Float" then Success("number")
    else if scalar == "DateTime" then Success("Date")
    else if scalar == "Json" then Success(if isInputType then "Prisma.InputJsonValue" else "Prisma.JsonValue")
    else if scalar == "BigInt" then Success("bigint")
    else if scalar == "Decimal" then Success("Prisma.Decimal")
    else if scalar == "Bytes" then Success("Buffer")
    else Failure("Unrecognized scalar type: " + scalar)
  }

  /** The switch and the template helpers' table agree on every tag, the thrown errors
      included: the switch throws exactly outside the nine known tags, `Int` and `Float` share
      `number`, and `Json` has its input variant. */
  lemma MapScalarAgreesWithTable(scalar: string, isInputType: bool)
    ensures MapScalarToTSType(scalar, isInputType) == Templates.ScalarToTS(scalar, isInputType)
    ensures MapScalarToTSType(scalar, isInputType).Failure? <==> scalar !in Templates.KnownScalars
    ensures MapScalarToTSType("Int", isInputType) == MapScalarToTSType("Float", isInputType) == Success("number")
  {
    if scalar !in Templates.KnownScalars {
      assert scalar != "String" && scalar != "Boolean" && scalar != "Int" && scalar != "Float";
      assert scalar != "DateTime" && scalar != "Json" && scalar != "BigInt" && scalar != "Decimal";
      assert scalar != "Bytes";
    }
  }

  /** `camelCase`: the first character lower-cased, the rest unchanged. Indexing the first
      character of the empty text yields `undefined`, whose `toLowerCase` throws; that case is
      `None`. */
  function CamelCase(str: string): (r: Option<string>)
    ensures r.Some? <==> |str| > 0
  {
    if |str| == 0 then None else Some([ToLowerChar(str[0])] + str[1..])
  }

  /** `pascalCase`: likewise with the first character upper-cased. */
  function PascalCase(str: string): (r: Option<string>)
    ensures r.Some? <==> |str| > 0
  {
    if |str| == 0 then None else Some([ToUpperChar(str[0])] + str[1..])
  }

  /** Both keep the length and every character after the first, and change the first only by
      case. */
  lemma CaseHelpersShape(str: string)
    requires |str| > 0
    ensures var c := CamelCase(str).value;
      |c| == |str| && c[1..] == str[1..] && c[0] == ToLowerChar(str[0]) &&
      ('A' <= str[0] <= 'Z' ==> c[0] as int == str[0] as int + 32) && (!('A' <= str[0] <= 'Z') ==> c[0] == str[0])
    ensures var p := PascalCase(str).value;
      |p| == |str| && p[1..] == str[1..] && p[0] == ToUpperChar(str[0]) &&
      ('a' <= str[0] <= 'z' ==> p[0] as int == str[0] as int - 32) && (!('a' <= str[0] <= 'z') ==> p[0] == str[0])
  {
  }

  /** Each is idempotent, and each undoes the other on a text that starts with an ASCII letter
      of the case it produces. */
  lemma CaseHelpersRoundTrip(str: string)
    requires |str| > 0
    ensures CamelCase(CamelCase(str).value) == CamelCase(str)
    ensures PascalCase(PascalCase(str).value) == PascalCase(str)
    ensures 'A' <= str[0] <= 'Z' ==> PascalCase(CamelCase(str).value) == Some(str)
    ensures 'a' <= str[0] <= 'z' ==> CamelCase(PascalCase(str).value) == Some(str)
  {
    var c := CamelCase(str).value;
    var p := PascalCase(str).value;
    assert c[1..] == str[1..] && p[1..] == str[1..];
    if 'A' <= str[0] <= 'Z' {
      assert [str[0]] + str[1..] == str;
    }
    if 'a' <= str[0] <= 'z' {
      assert [str[0]] + str[1..] == str;
    }
  }

  /** `toUnixPath`: split on `\` and join with `/`. */
  function ToUnixPath(maybeWindowsPath: string): string {
    Join(Split(maybeWindowsPath, '\\'), "/")
  }

  /** Every `\` becomes `/`, every other character stays in place, so no `\` is left, the length
      is kept, and normalising twice is normalising once. */
  lemma ToUnixPathFacts(p: string)
    ensures |ToUnixPath(p)| == |p|
    ensures forall i :: 0 <= i < |p| ==> ToUnixPath(p)[i] == if p[i] == '\\' then '/' else p[i]
    ensures '\\' !in ToUnixPath(p)
    ensures ToUnixPath(ToUnixPath(p)) == ToUnixPath(p)
  {
    JoinSplit(p, '\\', '/');
    var q := ToUnixPath(p);
    JoinSplit(q, '\\', '/');
    assert ReplaceChar(q, '\\', '/') == q;
  }
}
