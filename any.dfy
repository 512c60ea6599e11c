/**
 * An `Any` group: a non-empty, ordered, immutable list of peculiarities.
 * Values are immutable, so the list a group reports is the list it was built from.
 */
module AnyGroups {
  import opened Wrappers
  import opened Peculiarities

  /** The record the generated immutable class holds: just the ordered list. */
  datatype AnyValue = AnyValue(pecularities: seq<Peculiarity>)

  /** Every group that can exist holds at least one peculiarity. */
  type Any = a: AnyValue | |a.pecularities| > 0
    witness AnyValue([Peculiarity(SystemProperty(""), Equals, "")])

  /** Why `Of` refused its arguments. */
  datatype AnyError = EmptyPeculiarities

  /** The factory: accepts the peculiarities in argument order, refuses an empty argument list. */
  function Of(peculiarities: seq<Peculiarity>): (r: Result<Any, AnyError>)
    ensures r.Success? <==> |peculiarities| > 0
    ensures r.Success? ==> r.value.pecularities == peculiarities
    ensures r.Failure? ==> r.error == EmptyPeculiarities
  {
    if |peculiarities| == 0 then Failure(EmptyPeculiarities)
    else Success(AnyValue(peculiarities))
  }

  /** A group is exactly its list: rebuilding a group from its list gives the same group. */
  lemma OfRoundTrip(a: Any)
    ensures Of(a.pecularities) == Success(a)
  {
  }

  /** Two groups with the same list are the same group. */
  lemma SameListSameGroup(a: Any, b: Any)
    requires a.pecularities == b.pecularities
    ensures a == b
  {
  }
}
