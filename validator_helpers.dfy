/** The validator annotations (src/generator/validator-helpers.ts): a documented decorator may end
    in a DTO-type suffix such as `[CREATE, UPDATE]`; `splitDecorator` separates that suffix, and
    `getValidatorAnnotations` keeps the class-validator decorators that apply to one DTO type.
    The suffix pattern `\[(?:(CREATE|UPDATE|ENTITY)\s?,?\s?)+]$` with the `i` flag is modelled as
    the set of texts it matches. */
module ValidatorHelpers {
  import opened Wrappers
  import opened Seqs
  import opened Dmmf

  /** `DtoType`. */
  datatype DtoType = Create | Update | Entity

  /** The key (and value) of each `DtoType` member. */
  function DtoTypeName(t: DtoType): string {
    match t
    case Create => "CREATE"
    case Update => "UPDATE"
    case Entity => "ENTITY"
  }

  /** `Object.keys(DtoType)`. */
  const DtoTypeKeys: seq<string> := [DtoTypeName(Create), DtoTypeName(Update), DtoTypeName(Entity)]

  /** `DTO_TYPES_STRING`. */
  function DtoTypesString(): string {
    Join(DtoTypeKeys, "|")
  }

  /** The alternation is the three names separated by `|`, and every name has six letters. */
  lemma DtoTypesStringValue()
    ensures DtoTypesString() == "CREATE|UPDATE|ENTITY"
    ensures forall t: DtoType :: |DtoTypeName(t)| == 6 && DtoTypeName(t) in DtoTypeKeys
  {
    assert DtoTypeKeys[1..][1..] == ["ENTITY"];
    assert DtoTypeKeys[1..] == ["UPDATE", "ENTITY"];
  }

  /** The JavaScript `\s` class: white space and line terminators. */
  predicate IsJsSpace(c: char) {
    var n := c as int;
    (9 <= n <= 13) || n == 0x20 || n == 0xA0 || n == 0x1680 || (0x2000 <= n <= 0x200A) ||
    n == 0x2028 || n == 0x2029 || n == 0x202F || n == 0x205F || n == 0x3000 || n == 0xFEFF
  }

  /** A text the separator `\s?,?\s?` matches. */
  predicate IsSeparator(x: string) {
    || |x| == 0
    || (|x| == 1 && (IsJsSpace(x[0]) || x[0] == ','))
    || (|x| == 2 && ((IsJsSpace(x[0]) && x[1] == ',') || (x[0] == ',' && IsJsSpace(x[1])) ||
                     (IsJsSpace(x[0]) && IsJsSpace(x[1]))))
    || (|x| == 3 && IsJsSpace(x[0]) && x[1] == ',' && IsJsSpace(x[2]))
  }

  /** A DTO-type name under the `i` flag. Case-insensitive matching of a pattern letter accepts
      exactly its two ASCII cases, since a non-ASCII character whose upper case is ASCII is not
      folded, so the ASCII upper-case mapping decides it. */
  predicate IsTypeName(w: string) {
    ToUpper(w) in DtoTypeKeys
  }

  /** A text the repetition `(?:(CREATE|UPDATE|ENTITY)\s?,?\s?)+` matches: a name, then the rest
      of the group and any further groups. */
  predicate Groups(t: string)
    decreases |t|, 0
  {
    |t| >= 6 && IsTypeName(t[..6]) && GroupTail(t[6..])
  }

  /** What may follow a name inside the repetition: a separator, then the end or more groups. */
  predicate GroupTail(r: string)
    decreases |r|, 1
  {
    || r == []
    || Groups(r)
    || (|r| >= 1 && IsSeparator(r[..1]) && (|r| == 1 || Groups(r[1..])))
    || (|r| >= 2 && IsSeparator(r[..2]) && (|r| == 2 || Groups(r[2..])))
    || (|r| >= 3 && IsSeparator(r[..3]) && (|r| == 3 || Groups(r[3..])))
  }

  /** `DTO_TYPES_REGEX` matches `d` starting at `i`: `[`, the groups, and a `]` that ends `d`. */
  predicate MatchAt(d: string, i: int) {
    0 <= i && i + 2 <= |d| && d[i] == '[' && d[|d| - 1] == ']' && Groups(d[i + 1..|d| - 1])
  }

  /** The leftmost position at or after `i` where the pattern matches. */
  function FirstMatchFrom(d: string, i: nat): (r: Option<nat>)
    requires i <= |d|
    ensures r.Some? ==>
      (i <= r.value < |d| && MatchAt(d, r.value) && forall j :: i <= j < r.value ==> !MatchAt(d, j))
    ensures r.None? ==> forall j :: i <= j ==> !MatchAt(d, j)
    decreases |d| - i
  {
    if i == |d| then None
    else if MatchAt(d, i) then Some(i)
    else FirstMatchFrom(d, i + 1)
  }

  /** `decorator.search(DTO_TYPES_REGEX)`, with -1 as `None`. */
  function Search(d: string): Option<nat> {
    FirstMatchFrom(d, 0)
  }

  /** `splitDecorator`: the decorator and its DTO-type suffix, which is empty when there is none. */
  function SplitDecorator(d: string): (string, string) {
    match Search(d)
    case None => (d, "")
    case Some(i) => (d[..i], d[i..])
  }

  /** The two parts put back together are the decorator; the suffix is empty exactly when the
      pattern matches nowhere, and otherwise it is the text from the leftmost match on. */
  lemma SplitDecoratorFacts(d: string)
    ensures SplitDecorator(d).0 + SplitDecorator(d).1 == d
    ensures SplitDecorator(d).1 == "" <==> forall j :: !MatchAt(d, j)
    ensures SplitDecorator(d).1 != "" ==>
      exists i :: MatchAt(d, i) && SplitDecorator(d).1 == d[i..] && forall j :: 0 <= j < i ==> !MatchAt(d, j)
  {
    match Search(d)
    case None =>
    case Some(i) =>
      assert d[..i] + d[i..] == d;
  }

  /** Two type names of mixed case, separated by a comma and a space, form a repetition. */
  lemma ExampleGroups()
    ensures Groups("create, UPDATE")
  {
    var body := "create, UPDATE";
    assert body[..6] == "create" && ToUpper("create") == "CREATE";
    var rest := body[6..];
    assert rest == ", UPDATE";
    assert rest[..2] == ", " && IsSeparator(rest[..2]);
    assert rest[2..] == "UPDATE" && rest[2..][..6] == "UPDATE" && ToUpper("UPDATE") == "UPDATE";
    assert rest[2..][6..] == [];
    assert GroupTail(rest[2..][6..]);
    assert Groups(rest[2..]);
    assert GroupTail(rest);
  }

  /** The search finds the first position where the pattern matches. */
  lemma SearchFindsFirst(d: string, i: nat)
    requires MatchAt(d, i)
    requires forall j :: 0 <= j < i ==> !MatchAt(d, j)
    ensures Search(d) == Some(i)
  {
    var r := Search(d);
    if r.None? {
      assert false;
    } else if r.value > i {
      assert false;
    }
  }

  /** A decorator without `[` followed by a suffix the pattern matches splits exactly there. */
  lemma SplitAfterPrefix(prefix: string, suffix: string)
    requires '[' !in prefix
    requires MatchAt(prefix + suffix, |prefix|)
    ensures SplitDecorator(prefix + suffix) == (prefix, suffix)
  {
    var d := prefix + suffix;
    forall j | 0 <= j < |prefix| ensures !MatchAt(d, j) {
      assert d[j] == prefix[j];
    }
    SearchFindsFirst(d, |prefix|);
    assert d[..|prefix|] == prefix && d[|prefix|..] == suffix;
  }

  /** A decorator with a mixed-case suffix of two types: the suffix starts at the `[`. */
  lemma SplitDecoratorExample()
    ensures SplitDecorator("Min(1)" + "[create, UPDATE]") == ("Min(1)", "[create, UPDATE]")
  {
    var d := "Min(1)" + "[create, UPDATE]";
    assert d[7..|d| - 1] == "create, UPDATE";
    ExampleGroups();
    assert MatchAt(d, 6);
    SplitAfterPrefix("Min(1)", "[create, UPDATE]");
  }

  /** A class-validator annotation is kept for a DTO type when its import is a known validator
      decorator and its suffix is empty or names the type. */
  predicate Applies(annotation: (string, string), dtoType: DtoType, validatorDecorators: set<string>) {
    var types := SplitDecorator(annotation.0).1;
    annotation.1 in validatorDecorators &&
    (types == "" || Contains(ToUpper(types), DtoTypeName(dtoType)))
  }

  /** The decorators kept, without their suffixes, in annotation order. */
  function SelectedDecorators(annotations: seq<(string, string)>, dtoType: DtoType,
                              validatorDecorators: set<string>): seq<string>
  {
    FilterMap(annotations, (a: (string, string)) => Applies(a, dtoType, validatorDecorators),
      (a: (string, string)) => SplitDecorator(a.0).0)
  }

  /** The import names of the decorators kept, in annotation order. */
  function SelectedImports(annotations: seq<(string, string)>, dtoType: DtoType,
                           validatorDecorators: set<string>): seq<string>
  {
    FilterMap(annotations, (a: (string, string)) => Applies(a, dtoType, validatorDecorators),
      (a: (string, string)) => a.1)
  }

  /** One more annotation extends both selections by its parts exactly when it applies. */
  lemma SelectionStep(annotations: seq<(string, string)>, k: nat, dtoType: DtoType,
                      validatorDecorators: set<string>, decorators: seq<string>, names: seq<string>)
    requires k < |annotations|
    requires decorators == SelectedDecorators(annotations[..k], dtoType, validatorDecorators)
    requires names == SelectedImports(annotations[..k], dtoType, validatorDecorators)
    ensures var a := annotations[k];
      Applies(a, dtoType, validatorDecorators) ==>
        && decorators + [SplitDecorator(a.0).0] == SelectedDecorators(annotations[..k + 1], dtoType, validatorDecorators)
        && names + [a.1] == SelectedImports(annotations[..k + 1], dtoType, validatorDecorators)
    ensures var a := annotations[k];
      !Applies(a, dtoType, validatorDecorators) ==>
        && decorators == SelectedDecorators(annotations[..k + 1], dtoType, validatorDecorators)
        && names == SelectedImports(annotations[..k + 1], dtoType, validatorDecorators)
  {
    assert annotations[..k + 1][..k] == annotations[..k];
  }

  /** `getValidatorAnnotations` over the `[decorator, import]` pairs of a field's documentation:
      the kept decorators and one class-validator import of their names. */
  method GetValidatorAnnotations(annotations: seq<(string, string)>, dtoType: DtoType,
                                 validatorDecorators: set<string>)
    returns (decorators: seq<string>, imports: ImportStatement)
    ensures decorators == SelectedDecorators(annotations, dtoType, validatorDecorators)
    ensures imports == NamedImport("class-validator", SelectedImports(annotations, dtoType, validatorDecorators))
  {
    decorators := [];
    var names: seq<string> := [];
    for k := 0 to |annotations|
      invariant decorators == SelectedDecorators(annotations[..k], dtoType, validatorDecorators)
      invariant names == SelectedImports(annotations[..k], dtoType, validatorDecorators)
    {
      SelectionStep(annotations, k, dtoType, validatorDecorators, decorators, names);
      var (decorator, imp) := annotations[k];
      if imp !in validatorDecorators {
        continue;
      }
      var (deco, types) := SplitDecorator(decorator);
      if types == "" || Contains(ToUpper(types), DtoTypeName(dtoType)) {
        decorators := decorators + [deco];
        names := names + [imp];
      }
    }
    assert annotations[..|annotations|] == annotations;
    imports := NamedImport("class-validator", names);
  }

  /** The decorators and the import names are index-aligned: entry `k` of both comes from the
      same annotation, the annotations taken in increasing order, each one kept exactly when it
      applies; every name is a known validator decorator. */
  lemma SelectionAligned(annotations: seq<(string, string)>, dtoType: DtoType, validatorDecorators: set<string>)
    ensures var decorators := SelectedDecorators(annotations, dtoType, validatorDecorators);
      var names := SelectedImports(annotations, dtoType, validatorDecorators);
      var kept := KeptIndices(annotations, (a: (string, string)) => Applies(a, dtoType, validatorDecorators));
      && |decorators| == |names| == |kept|
      && (forall k :: 0 <= k < |kept| ==>
           && Applies(annotations[kept[k]], dtoType, validatorDecorators)
           && decorators[k] == SplitDecorator(annotations[kept[k]].0).0
           && names[k] == annotations[kept[k]].1
           && names[k] in validatorDecorators)
      && (forall k, l :: 0 <= k < l < |kept| ==> kept[k] < kept[l])
      && (forall i :: 0 <= i < |annotations| && Applies(annotations[i], dtoType, validatorDecorators) ==> i in kept)
  {
    var keep := (a: (string, string)) => Applies(a, dtoType, validatorDecorators);
    FilterMapOrder(annotations, keep, (a: (string, string)) => SplitDecorator(a.0).0);
    FilterMapOrder(annotations, keep, (a: (string, string)) => a.1);
  }
}
