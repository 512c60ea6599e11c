/**
 * The detectable catalog values: operating systems, architectures,
 * distributions and versions. Each exposes its ordered rule list
 * (`pecularities`, spelled as in the library); an OS also lists the
 * architectures and distributions it admits, a distribution the versions.
 */
module Catalog {
  import opened HasPecularities

  datatype Version = Version(name: string, pecularities: seq<Rule>)

  datatype Architecture = Architecture(name: string, pecularities: seq<Rule>)

  datatype Distribution = Distribution(name: string, pecularities: seq<Rule>, versions: seq<Version>)

  datatype OS = OS(name: string, pecularities: seq<Rule>,
                   architectures: seq<Architecture>, distributions: seq<Distribution>)

  /** What the engine is shown of a list of values: their rule lists, in the same order. */
  function RulesOf<T>(values: seq<T>, rules: T -> seq<Rule>): (r: seq<seq<Rule>>)
    ensures |r| == |values| && forall i :: 0 <= i < |values| ==> r[i] == rules(values[i])
  {
    seq(|values|, i requires 0 <= i < |values| => rules(values[i]))
  }

  function OSPecularities(os: OS): seq<Rule> { os.pecularities }
  function ArchitecturePecularities(a: Architecture): seq<Rule> { a.pecularities }
  function DistributionPecularities(d: Distribution): seq<Rule> { d.pecularities }
  function VersionPecularities(v: Version): seq<Rule> { v.pecularities }

  function OSRules(values: seq<OS>): seq<seq<Rule>> { RulesOf(values, OSPecularities) }
  function ArchitectureRules(values: seq<Architecture>): seq<seq<Rule>> { RulesOf(values, ArchitecturePecularities) }
  function DistributionRules(values: seq<Distribution>): seq<seq<Rule>> { RulesOf(values, DistributionPecularities) }
  function VersionRules(values: seq<Version>): seq<seq<Rule>> { RulesOf(values, VersionPecularities) }
}
