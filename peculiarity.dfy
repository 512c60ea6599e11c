/**
 * The vocabulary every catalog rule is written in: the attribute a rule reads,
 * the kind of comparison it asks for, and the single condition ("peculiarity")
 * combining the two with an expected value.
 */
module Peculiarities {

  /** Where an attribute comes from: a JVM system property, or one key of a release file. */
  datatype AttributeKey =
    | SystemProperty(name: string)
    | ReleaseFileKey(path: string, key: string)

  /** The comparison a peculiarity asks the matcher lookup for. */
  datatype MatchKind = Equals | Matches

  /** One declarative condition: attribute `attribute`, compared by `kind`, must agree with `expected`. */
  datatype Peculiarity = Peculiarity(attribute: AttributeKey, kind: MatchKind, expected: string)

  /** What an attribute extractor lookup resolves: a key has a value, or is absent. */
  type Snapshot = map<AttributeKey, string>

  /** What a matcher lookup resolves a comparison kind to: (kind, value, expected) -> outcome. */
  type Comparator = (MatchKind, string, string) -> bool

  /** The comparator compares values of kind `kind` by plain string equality. */
  ghost predicate ComparesByEquality(compare: Comparator, kind: MatchKind) {
    forall value, expected :: compare(kind, value, expected) == (value == expected)
  }
}
