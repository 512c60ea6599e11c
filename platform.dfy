/**
 * The platform facade: detects the operating system, then the architecture
 * among that system's architectures, then optionally a distribution among
 * that system's distributions, then (only when a distribution was found)
 * optionally a version among that distribution's versions.
 */
module Platform {
  import opened Wrappers
  import opened Peculiarities
  import opened HasPecularities
  import opened Catalog
  import opened PeculiarityInspector

  /** A detection result: system and architecture always, distribution and version optionally. */
  datatype Platform = Platform(operatingSystem: OS, architecture: Architecture,
                               distribution: Option<Distribution>, version: Option<Version>)

  /** Every part of the result comes from the list it was scoped to. */
  predicate Consistent(p: Platform, oses: seq<OS>) {
    && p.operatingSystem in oses
    && p.architecture in p.operatingSystem.architectures
    && (p.distribution.Some? ==> p.distribution.value in p.operatingSystem.distributions)
    && (p.version.Some? ==> p.distribution.Some? && p.version.value in p.distribution.value.versions)
  }

  // ---------------------------------------------------------------------------
  // Lookups. A logging wrapper narrates every call and forwards it to the lookup
  // it wraps, so what a wrapped lookup resolves is what the inner one resolves.

  datatype AttributeExtractorLookup =
    | SystemDefaultAttributes(facts: Snapshot)
    | SnapshotAttributes(facts: Snapshot)  // a lookup over fixed values, as tests build one
    | LoggingAttributes(inner: AttributeExtractorLookup)

  datatype MatcherLookup =
    | SystemDefaultMatcher(compare: Comparator)
    | LoggingMatcher(inner: MatcherLookup)

  /** The attribute values a lookup resolves. */
  function Facts(lookup: AttributeExtractorLookup): Snapshot {
    match lookup
    case SystemDefaultAttributes(facts) => facts
    case SnapshotAttributes(facts) => facts
    case LoggingAttributes(inner) => Facts(inner)
  }

  /** The comparator a matcher lookup resolves. */
  function Compare(lookup: MatcherLookup): Comparator {
    match lookup
    case SystemDefaultMatcher(compare) => compare
    case LoggingMatcher(inner) => Compare(inner)
  }

  /** The system property that switches explain mode on. */
  const EXPLAIN_PROPERTY: string := "de.flapdoodle.os.explain"

  /** Explain mode is on exactly when the property is set to the string "true". */
  predicate ExplainEnabled(properties: map<string, string>) {
    EXPLAIN_PROPERTY in properties && properties[EXPLAIN_PROPERTY] == "true"
  }

  /** The lookups `detect()` uses: the system defaults, wrapped for logging in explain mode only. */
  function SelectLookups(properties: map<string, string>, facts: Snapshot, compare: Comparator)
    : (r: (AttributeExtractorLookup, MatcherLookup))
    ensures r.0.LoggingAttributes? <==> ExplainEnabled(properties)
    ensures r.1.LoggingMatcher? <==> ExplainEnabled(properties)
    ensures Facts(r.0) == facts && Compare(r.1) == compare
  {
    var attributes := SystemDefaultAttributes(facts);
    var matcher := SystemDefaultMatcher(compare);
    if ExplainEnabled(properties) then (LoggingAttributes(attributes), LoggingMatcher(matcher))
    else (attributes, matcher)
  }

  // ---------------------------------------------------------------------------
  // The four scoped engine queries.

  /** The OS is matched against the whole list of operating systems. */
  function DetectOS(engine: Engine, facts: Snapshot, compare: Comparator, oses: seq<OS>): (r: Result<OS, Fault>)
    requires ValidEngine(engine)
    ensures r.Success? ==> r.value in oses
    ensures var answer := engine.matchOne(facts, compare, OSRules(oses));
      && (answer.Success? ==> r == Success(oses[answer.value]))
      && (answer.Failure? ==> r == Failure(answer.error))
  {
    var i :- engine.matchOne(facts, compare, OSRules(oses));
    Success(oses[i])
  }

  /** The architecture is matched among the given architectures only. */
  function DetectArchitecture(engine: Engine, facts: Snapshot, compare: Comparator,
                              architectures: seq<Architecture>): (r: Result<Architecture, Fault>)
    requires ValidEngine(engine)
    ensures r.Success? ==> r.value in architectures
    ensures var answer := engine.matchOne(facts, compare, ArchitectureRules(architectures));
      && (answer.Success? ==> r == Success(architectures[answer.value]))
      && (answer.Failure? ==> r == Failure(answer.error))
  {
    var i :- engine.matchOne(facts, compare, ArchitectureRules(architectures));
    Success(architectures[i])
  }

  /** A distribution is looked for among the given distributions only, and may be absent. */
  function DetectDistribution(engine: Engine, facts: Snapshot, compare: Comparator,
                              distributions: seq<Distribution>): (r: Result<Option<Distribution>, Fault>)
    requires ValidEngine(engine)
    ensures r.Success? && r.value.Some? ==> r.value.value in distributions
    ensures var answer := engine.findOne(facts, compare, DistributionRules(distributions));
      && (answer == Success(None) ==> r == Success(None))
      && (answer.Success? && answer.value.Some? ==> r == Success(Some(distributions[answer.value.value])))
      && (answer.Failure? ==> r == Failure(answer.error))
  {
    var found :- engine.findOne(facts, compare, DistributionRules(distributions));
    if found.None? then Success(None) else Success(Some(distributions[found.value]))
  }

  /** A version is looked for among the given versions only, and may be absent. */
  function DetectVersion(engine: Engine, facts: Snapshot, compare: Comparator,
                         versions: seq<Version>): (r: Result<Option<Version>, Fault>)
    requires ValidEngine(engine)
    ensures r.Success? && r.value.Some? ==> r.value.value in versions
    ensures var answer := engine.findOne(facts, compare, VersionRules(versions));
      && (answer == Success(None) ==> r == Success(None))
      && (answer.Success? && answer.value.Some? ==> r == Success(Some(versions[answer.value.value])))
      && (answer.Failure? ==> r == Failure(answer.error))
  {
    var found :- engine.findOne(facts, compare, VersionRules(versions));
    if found.None? then Success(None) else Success(Some(versions[found.value]))
  }

  /** A version is looked for among the versions of the given distribution. */
  function DetectVersionOf(engine: Engine, facts: Snapshot, compare: Comparator,
                           distribution: Distribution): (r: Result<Option<Version>, Fault>)
    requires ValidEngine(engine)
    ensures r == DetectVersion(engine, facts, compare, distribution.versions)
    ensures r.Success? && r.value.Some? ==> r.value.value in distribution.versions
    ensures distribution.versions == [] ==> r.Success? ==> r.value.None?
  {
    DetectVersion(engine, facts, compare, distribution.versions)
  }

  // ---------------------------------------------------------------------------
  // Composition.

  /** `detect(lookup, matcher)`: the four queries in order; the first failure is the result. */
  function Detect(engine: Engine, attributes: AttributeExtractorLookup, matcher: MatcherLookup,
                  oses: seq<OS>): (r: Result<Platform, Fault>)
    requires ValidEngine(engine)
    ensures r.Success? ==> Consistent(r.value, oses)
  {
    var facts := Facts(attributes);
    var compare := Compare(matcher);
    var os :- DetectOS(engine, facts, compare, oses);
    var architecture :- DetectArchitecture(engine, facts, compare, os.architectures);
    var distribution :- DetectDistribution(engine, facts, compare, os.distributions);
    var version :- if distribution.Some? then DetectVersionOf(engine, facts, compare, distribution.value)
                   else Success(None);
    Success(Platform(os, architecture, distribution, version))
  }

  /** `detect()`: the same result as `detect(lookup, matcher)` on the unwrapped system lookups, explain mode or not. */
  function DetectDefault(engine: Engine, properties: map<string, string>, facts: Snapshot,
                         compare: Comparator, oses: seq<OS>): (r: Result<Platform, Fault>)
    requires ValidEngine(engine)
    ensures r == Detect(engine, SystemDefaultAttributes(facts), SystemDefaultMatcher(compare), oses)
    ensures r.Success? ==> Consistent(r.value, oses)
  {
    var lookups := SelectLookups(properties, facts, compare);
    Detect(engine, lookups.0, lookups.1, oses)
  }

  /**
   * `detect` is the composition of the four answers: the first query that
   * fails makes detection fail with that fault; otherwise the OS, the
   * architecture, the distribution and the version are exactly the entries
   * the engine named, each in the list it was asked about.
   */
  lemma DetectIsTheComposition(engine: Engine, attributes: AttributeExtractorLookup,
                               matcher: MatcherLookup, oses: seq<OS>)
    requires ValidEngine(engine)
    ensures
      var facts, compare := Facts(attributes), Compare(matcher);
      var r := Detect(engine, attributes, matcher, oses);
      var osAnswer := engine.matchOne(facts, compare, OSRules(oses));
      && (osAnswer.Failure? ==> r == Failure(osAnswer.error))
      && (osAnswer.Success? ==>
            var os := oses[osAnswer.value];
            var archAnswer := engine.matchOne(facts, compare, ArchitectureRules(os.architectures));
            var distAnswer := engine.findOne(facts, compare, DistributionRules(os.distributions));
            && (archAnswer.Failure? ==> r == Failure(archAnswer.error))
            && (archAnswer.Success? && distAnswer.Failure? ==> r == Failure(distAnswer.error))
            && (archAnswer.Success? && distAnswer == Success(None) ==>
                  r == Success(Platform(os, os.architectures[archAnswer.value], None, None)))
            && (archAnswer.Success? && distAnswer.Success? && distAnswer.value.Some? ==>
                  var d := os.distributions[distAnswer.value.value];
                  var versionAnswer := engine.findOne(facts, compare, VersionRules(d.versions));
                  && (versionAnswer.Failure? ==> r == Failure(versionAnswer.error))
                  && (versionAnswer.Success? ==>
                        r == Success(Platform(os, os.architectures[archAnswer.value], Some(d),
                                              if versionAnswer.value.None? then None
                                              else Some(d.versions[versionAnswer.value.value]))))))
  {
  }

  // ---------------------------------------------------------------------------
  // Which engine queries the result depends on.

  /**
   * Engines `e1` and `e2` give the same answers to the queries `detect` asks,
   * following `e1`'s answers: match over the rules of ALL operating systems;
   * then, if an OS `o` won, match over `o`'s architectures; then, if that
   * succeeded, find over `o`'s distributions; then, only if a distribution `d`
   * was found, find over `d`'s versions.
   */
  ghost predicate AgreeOnDetectQueries(e1: Engine, e2: Engine, facts: Snapshot, compare: Comparator, oses: seq<OS>) {
    var osAnswer := e1.matchOne(facts, compare, OSRules(oses));
    && e2.matchOne(facts, compare, OSRules(oses)) == osAnswer
    && (osAnswer.Success? && osAnswer.value < |oses| ==>
          var os := oses[osAnswer.value];
          var archAnswer := e1.matchOne(facts, compare, ArchitectureRules(os.architectures));
          var distAnswer := e1.findOne(facts, compare, DistributionRules(os.distributions));
          && e2.matchOne(facts, compare, ArchitectureRules(os.architectures)) == archAnswer
          && (archAnswer.Success? ==>
                && e2.findOne(facts, compare, DistributionRules(os.distributions)) == distAnswer
                && (distAnswer.Success? && distAnswer.value.Some? && distAnswer.value.value < |os.distributions| ==>
                      var d := os.distributions[distAnswer.value.value];
                      e2.findOne(facts, compare, VersionRules(d.versions))
                        == e1.findOne(facts, compare, VersionRules(d.versions)))))
  }

  /**
   * The result is determined by the answers to exactly those queries: OS
   * detection is not pre-filtered, architecture and distribution are scoped to
   * the OS, and no version query is asked unless a distribution was found.
   */
  lemma DetectAsksOnlyScopedQueries(e1: Engine, e2: Engine, attributes: AttributeExtractorLookup,
                                    matcher: MatcherLookup, oses: seq<OS>)
    requires ValidEngine(e1) && ValidEngine(e2)
    requires AgreeOnDetectQueries(e1, e2, Facts(attributes), Compare(matcher), oses)
    ensures Detect(e2, attributes, matcher, oses) == Detect(e1, attributes, matcher, oses)
  {
  }

  /** Without a distribution there is no version; with one, the version is what find over its versions gives. */
  lemma VersionFollowsDistribution(engine: Engine, attributes: AttributeExtractorLookup,
                                   matcher: MatcherLookup, oses: seq<OS>)
    requires ValidEngine(engine)
    requires Detect(engine, attributes, matcher, oses).Success?
    ensures var p := Detect(engine, attributes, matcher, oses).value;
      && (p.distribution.None? ==> p.version.None?)
      && (p.distribution.Some? ==>
            var answer := engine.findOne(Facts(attributes), Compare(matcher), VersionRules(p.distribution.value.versions));
            && answer.Success?
            && p.version == if answer.value.None? then None
                            else Some(p.distribution.value.versions[answer.value.value]))
  {
  }

  /** A found distribution whose `versions()` list is empty never yields a version. */
  lemma EmptyVersionListMeansNoVersion(engine: Engine, attributes: AttributeExtractorLookup,
                                       matcher: MatcherLookup, oses: seq<OS>)
    requires ValidEngine(engine)
    requires Detect(engine, attributes, matcher, oses).Success?
    requires Detect(engine, attributes, matcher, oses).value.distribution.Some?
    requires Detect(engine, attributes, matcher, oses).value.distribution.value.versions == []
    ensures Detect(engine, attributes, matcher, oses).value.version.None?
  {
  }
}
