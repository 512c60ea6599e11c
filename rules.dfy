/**
 * The rule list of a catalog entry: each rule is either a single peculiarity
 * (`Left`) or an `Any` group (`Right`).
 */
module HasPecularities {
  import opened Peculiarities
  import opened AnyGroups

  datatype Either<+L, +R> = Left(left: L) | Right(right: R)

  type Rule = Either<Peculiarity, Any>

  /** Wraps each peculiarity as a single-condition rule, keeping order and adding nothing. */
  function AsList(peculiarities: seq<Peculiarity>): (r: seq<Rule>)
    ensures |r| == |peculiarities|
    ensures forall i :: 0 <= i < |r| ==> r[i] == Left(peculiarities[i])
  {
    if peculiarities == [] then []
    else [Left(peculiarities[0])] + AsList(peculiarities[1..])
  }

  /** The peculiarities of a list of single-condition rules (the inverse of `AsList`). */
  function Singles(rules: seq<Rule>): (r: seq<Peculiarity>)
    requires forall i :: 0 <= i < |rules| ==> rules[i].Left?
    ensures |r| == |rules|
    ensures forall i :: 0 <= i < |r| ==> rules[i] == Left(r[i])
  {
    if rules == [] then []
    else [rules[0].left] + Singles(rules[1..])
  }

  /** `AsList` loses nothing: the peculiarities can be read back, in order. */
  lemma AsListRoundTrip(peculiarities: seq<Peculiarity>)
    ensures Singles(AsList(peculiarities)) == peculiarities
  {
  }
}
