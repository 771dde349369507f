/** The documentation directives (src/generator/annotations.ts). Each directive is a regular
    expression made of `@` and letters only, without anchors or flags, so testing it against a
    documentation text is case-sensitive substring containment. */
module Annotations {
  import opened Wrappers
  import opened Seqs

  const DtoIgnoreModel := "@DtoIgnoreModel"
  const DtoReadOnly := "@DtoReadOnly"
  const DtoEntityHidden := "@DtoEntityHidden"
  const DtoCreateOptional := "@DtoCreateOptional"
  const DtoUpdateHidden := "@DtoUpdateHidden"
  const DtoUpdateOptional := "@DtoUpdateOptional"
  const DtoRelationRequired := "@DtoRelationRequired"
  const DtoRelationCanCreateOnCreate := "@DtoRelationCanCreateOnCreate"
  const DtoRelationCanConnectOnCreate := "@DtoRelationCanConnectOnCreate"
  const DtoRelationCanCreateOnUpdate := "@DtoRelationCanCreateOnUpdate"
  const DtoRelationCanConnectOnUpdate := "@DtoRelationCanConnectOnUpdate"

  const DtoRelationModifiers: seq<string> := [
    DtoRelationCanCreateOnCreate,
    DtoRelationCanConnectOnCreate,
    DtoRelationCanCreateOnUpdate,
    DtoRelationCanConnectOnUpdate
  ]
  const DtoRelationModifiersOnCreate: seq<string> := [DtoRelationCanCreateOnCreate, DtoRelationCanConnectOnCreate]
  const DtoRelationModifiersOnUpdate: seq<string> := [DtoRelationCanCreateOnUpdate, DtoRelationCanConnectOnUpdate]

  /** The full modifier list is the on-create list followed by the on-update list. */
  lemma RelationModifiersSplit()
    ensures DtoRelationModifiers == DtoRelationModifiersOnCreate + DtoRelationModifiersOnUpdate
    ensures |DtoRelationModifiersOnCreate| == 2 && |DtoRelationModifiersOnUpdate| == 2
  {
  }

  /** `isAnnotatedWith`: a missing documentation counts as `''`, and the directive matches when
      the text contains it. */
  function Matches(documentation: Option<string>, directive: string): bool {
    Contains(documentation.GetOr(""), directive)
  }

  /** `isAnnotatedWithOneOf`: some directive of the list matches. */
  function MatchesOneOf(documentation: Option<string>, directives: seq<string>): (r: bool)
    ensures r <==> exists i :: 0 <= i < |directives| && Matches(documentation, directives[i])
  {
    if directives == [] then false
    else
      assert forall i :: 1 <= i < |directives| ==> directives[i] == directives[1..][i - 1];
      Matches(documentation, directives[0]) || MatchesOneOf(documentation, directives[1..])
  }

  /** A text matches "one of the on-update modifiers" exactly when it contains
      `@DtoRelationCanCreateOnUpdate` or `@DtoRelationCanConnectOnUpdate`; likewise on create. */
  lemma OneOfModifiers(documentation: Option<string>)
    ensures MatchesOneOf(documentation, DtoRelationModifiersOnUpdate) <==>
      Contains(documentation.GetOr(""), "@DtoRelationCanCreateOnUpdate") ||
      Contains(documentation.GetOr(""), "@DtoRelationCanConnectOnUpdate")
    ensures MatchesOneOf(documentation, DtoRelationModifiersOnCreate) <==>
      Contains(documentation.GetOr(""), "@DtoRelationCanCreateOnCreate") ||
      Contains(documentation.GetOr(""), "@DtoRelationCanConnectOnCreate")
  {
    assert DtoRelationModifiersOnUpdate[0] == "@DtoRelationCanCreateOnUpdate";
    assert DtoRelationModifiersOnUpdate[1] == "@DtoRelationCanConnectOnUpdate";
    assert DtoRelationModifiersOnCreate[0] == "@DtoRelationCanCreateOnCreate";
    assert DtoRelationModifiersOnCreate[1] == "@DtoRelationCanConnectOnCreate";
  }

  /** Matching is case-sensitive and unanchored: a directive with a lower-case letter does not
      match its upper-cased spelling (`@DTOREADONLY` is not `@DtoReadOnly`), and a directive
      matches wherever it occurs in the documentation. */
  lemma MatchingIsCaseSensitive(directive: string, i: int, before: string, after: string)
    requires 0 <= i < |directive| && 'a' <= directive[i] <= 'z'
    ensures !Matches(Some(ToUpper(directive)), directive)
    ensures Matches(Some(before + directive + after), directive)
  {
    var upper := ToUpper(directive);
    assert upper[i] != directive[i];
    assert upper != directive;
    assert upper[..|directive|] == upper;
    assert !Contains(upper[1..], directive);
    var text := before + directive + after;
    assert text[|before|..|before| + |directive|] == directive;
    assert OccursAt(text, directive, |before|);
    ContainsIff(text, directive);
  }
}
