/** Predicates over one field (src/generator/field-classifiers.ts), together with the annotation
    and flag helpers the projections import from the same module (`isAnnotatedWith`,
    `isAnnotatedWithOneOf`, `isId`, `isUnique`, `isRequired`), whose bodies are given by their
    use: the documentation test of the annotation matcher, and the field's own flag. */
module FieldClassifiers {
  import opened Wrappers
  import opened Seqs
  import opened Dmmf
  import opened Annotations

  /** The field's documentation matches the directive. */
  predicate IsAnnotatedWith(f: Field, directive: string) {
    Matches(f.documentation, directive)
  }

  /** The model's documentation matches the directive. */
  predicate IsModelAnnotatedWith(m: DmmfModel, directive: string) {
    Matches(m.documentation, directive)
  }

  /** The field's documentation matches one of the directives. */
  predicate IsAnnotatedWithOneOf(f: Field, directives: seq<string>) {
    MatchesOneOf(f.documentation, directives)
  }

  predicate IsId(f: Field) { f.isId }
  predicate IsUnique(f: Field) { f.isUnique }
  predicate IsRequired(f: Field) { f.isRequired }

  /** A relation field is one of kind `'object'`. */
  predicate IsRelation(f: Field) {
    f.kind == Object
  }

  predicate IsIdWithDefaultValue(f: Field) {
    f.isId && f.hasDefaultValue
  }

  /** The structural `isReadOnly` flag, or a documentation (missing = `''`) that contains
      `@DtoReadOnly`. */
  predicate IsReadOnly(f: Field) {
    f.isReadOnly || Matches(f.documentation, DtoReadOnly)
  }

  predicate IsUpdatedAt(f: Field) {
    f.isUpdatedAt
  }

  /** Schema-required fields that fall back to a default value. */
  predicate IsRequiredWithDefault(f: Field) {
    f.isRequired && f.hasDefaultValue
  }

  /** `isRelation` holds exactly for kind `'object'`: enum, scalar and unsupported fields are not
      relations, and every field that is not a relation has one of those three kinds. */
  lemma RelationIffObject(f: Field)
    ensures IsRelation(f) <==> f.kind == Object
    ensures f.kind in {Scalar, Enum, Unsupported} ==> !IsRelation(f)
    ensures !IsRelation(f) <==> f.kind in {Scalar, Enum, Unsupported}
  {
  }

  /** The flag classifiers read the record: an id with a default, an `@updatedAt` field, and a
      schema-required field with a default (a required field without one is not). The two
      default classifiers refine the plain ones (an id with a default is an id, a required field
      with a default is required), need a default value, and coincide on a required id. */
  lemma FlagClassifiers(f: Field)
    ensures IsIdWithDefaultValue(f) <==> f.isId && f.hasDefaultValue
    ensures IsUpdatedAt(f) <==> f.isUpdatedAt
    ensures IsRequiredWithDefault(f) <==> f.isRequired && f.hasDefaultValue
    ensures IsIdWithDefaultValue(f) ==> IsId(f)
    ensures IsRequiredWithDefault(f) ==> IsRequired(f)
    ensures !f.hasDefaultValue ==> !IsIdWithDefaultValue(f) && !IsRequiredWithDefault(f)
    ensures IsId(f) && IsRequired(f) ==> (IsIdWithDefaultValue(f) <==> IsRequiredWithDefault(f))
    ensures f.isRequired && !f.hasDefaultValue ==> !IsRequiredWithDefault(f)
  {
  }

  /** `isReadOnly` is the structural flag or the directive in the documentation, a missing
      documentation reading as `''`, which contains no directive. */
  lemma ReadOnlyIff(f: Field)
    ensures IsReadOnly(f) <==> f.isReadOnly || Contains(f.documentation.GetOr(""), "@DtoReadOnly")
    ensures f.documentation.None? ==> (IsReadOnly(f) <==> f.isReadOnly)
  {
  }

  /** Appending text to a field's documentation never turns `isReadOnly` from true to false. */
  lemma ReadOnlyStableUnderAppend(f: Field, extra: string)
    requires IsReadOnly(f)
    ensures IsReadOnly(f.(documentation := Some(f.documentation.GetOr("") + extra)))
  {
    if !f.isReadOnly {
      ContainsAppend(f.documentation.GetOr(""), extra, DtoReadOnly);
    }
  }

  /** Appending text to any documentation keeps every directive it already matched. */
  lemma MatchesStableUnderAppend(documentation: Option<string>, extra: string, directive: string)
    requires Matches(documentation, directive)
    ensures Matches(Some(documentation.GetOr("") + extra), directive)
  {
    ContainsAppend(documentation.GetOr(""), extra, directive);
  }
}
