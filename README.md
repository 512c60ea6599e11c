# Platform detection, modelled in Dafny

This project models how de.flapdoodle.os detects the platform it runs on.
Detection makes four engine queries, each scoped by the one before it:

1. the operating system is *matched* (exactly one) against every known OS;
2. the architecture is *matched* among that OS's architectures;
3. a distribution is *found* (zero or one) among that OS's distributions;
4. a version is *found* among the found distribution's versions, and only when a
   distribution was found.

The result holds an OS and an architecture, and optionally a distribution and a
version. Every part must come from the list it was scoped to.

The model also covers the values these queries work on:

- an `Any` group: a non-empty, ordered list of peculiarities;
- a catalog rule: either one peculiarity or an `Any` group;
- the Debian version catalog.

Files:

- `wrappers.dfy`: `Option` and `Result`.
- `peculiarity.dfy`: attribute keys, comparison kinds and peculiarities. An attribute snapshot (`map` from key to string) and a comparator (`(kind, value, expected) -> bool`) stand in for the attribute and matcher lookups.
- `any.dfy`: the `Any` group as a subset type of a record, and its factory `Of`.
- `rules.dfy`: `Either`/`Rule` and `AsList`, which wraps each peculiarity as a rule.
- `inspector.dfy`: the engine contract and a reference engine.
  - The engine is a pair of function values, `matchOne` and `findOne`. It sees only the rule lists and answers with an index into the list it was given.
  - `ValidEngine` is the only promise the facade relies on: every answer is in range.
  - The reference engine works as follows. An entry holds when all of its rules hold. A peculiarity holds when its attribute is present and the comparator accepts its value. An `Any` group holds when one of its members holds. `match` needs exactly one holder. `find` gives absence for none and a fault for several.
- `catalog.dfy`: OS, architecture, distribution and version records, with each list's rule lists.
- `release_files.dfy`: the os-release and lsb-release version keys and the peculiarities built on them.
- `platform.dfy`: the facade.
  - `Detect` models `detect(lookup, matcher)`, and `DetectDefault` models `detect()`.
  - The explain flag is on only when the system property is the string "true". It only wraps the lookups in logging layers. A logging layer resolves exactly what its inner lookup resolves.
- `debian_version.dfy`: the `DEBIAN_10`/`DEBIAN_9` catalog.
- `version_fixtures.dfy`: the Ubuntu and Arch version catalogs that the tests check against.
- `scenarios.dfy`: end-to-end detections. They run over a small OS catalog (Linux with Debian, and Mac OS X with no distributions) using the reference engine.

## Model

| member | source | states |
|---|---|---|
| `AnyGroups.Of` | src/main/java/de/flapdoodle/os/common/Any.java:30-32 | the factory succeeds exactly when given at least one peculiarity; the group holds exactly those peculiarities in argument order; an empty argument list is refused |
| `AnyGroups.OfRoundTrip` | src/main/java/de/flapdoodle/os/common/Any.java:26-28 | an `Any` is exactly its ordered list: rebuilding it from its list gives the same group |
| `AnyGroups.SameListSameGroup` | src/main/java/de/flapdoodle/os/common/Any.java:24-28 | two groups that report the same list are equal (an immutable value with no other state) |
| `HasPecularities.AsList` | src/main/java/de/flapdoodle/os/linux/DebianVersion.java:33-35 | the stored rule list has one `Left` rule per constructor peculiarity, in order, and nothing else |
| `HasPecularities.Singles` | src/main/java/de/flapdoodle/os/linux/DebianVersion.java:33-35 | the peculiarities of a list of single-condition rules, in order (the inverse of `AsList`) |
| `HasPecularities.AsListRoundTrip` | src/main/java/de/flapdoodle/os/linux/DebianVersion.java:33-35 | no peculiarity is lost or reordered when wrapped into rules |
| `PeculiarityInspector.MatchingFrom` | src/main/java/de/flapdoodle/os/Platform.java:29-30 | (call site only; the engine's own code is not part of this model) the strictly increasing list of exactly those entry indexes whose rules hold |
| `PeculiarityInspector.Match` | src/main/java/de/flapdoodle/os/Platform.java:75-77 | (call site only; reconstructs the engine's documented exactly-one semantics) success with `i` iff entry `i` is the only entry that holds; `NoMatch` iff none holds; the index is in range |
| `PeculiarityInspector.Find` | src/main/java/de/flapdoodle/os/Platform.java:79-81 | (call site only; reconstructs the engine's documented zero-or-one semantics) absence iff no entry holds; `i` iff entry `i` is the only holder; otherwise a `MoreThanOneMatch` fault |
| `PeculiarityInspector.ReferenceIsValid` | src/main/java/de/flapdoodle/os/Platform.java:60-66 | (call sites only) the reference engine keeps the contract the facade relies on: every answer is an entry of the list passed in |
| `PeculiarityInspector.DefaultEntryWins` | src/main/java/de/flapdoodle/os/osx/OS_X_Distribution.java:32-35 | (the empty rule list is shown here; its evaluation is the reconstructed engine's) an entry with an empty rule list always holds, so it is matched and found when no other entry holds |
| `PeculiarityInspector.AmbiguityIsAFault` | src/main/java/de/flapdoodle/os/Platform.java:91-93 | (call site only; reconstructs the engine's documented ambiguity fault) two distinct holding entries make `match` and `find` fail rather than pick one |
| `PeculiarityInspector.KeyedCatalogSelectsByValue` | src/main/java/de/flapdoodle/os/linux/DebianVersion.java:28-29 | (the catalog shape is shown here; the lookup is the reconstructed engine's) in a catalog of single conditions on one attribute with distinct labels, entry `j` is found/matched iff the attribute's value is label `j`; absence/`NoMatch` iff the value is missing or no label |
| `Platform.SelectLookups` | src/main/java/de/flapdoodle/os/Platform.java:44-52 | both lookups are wrapped iff the explain property equals "true"; wrapping leaves the resolved attributes and comparator unchanged |
| `Platform.DetectOS` | src/main/java/de/flapdoodle/os/Platform.java:75-77 | the OS is the entry `oses[i]` the engine's match over the rule lists of ALL operating systems named; a failed match is this query's failure |
| `Platform.DetectArchitecture` | src/main/java/de/flapdoodle/os/Platform.java:91-93 | the architecture is the entry `architectures[i]` the engine's match over that list named; a failed match is this query's failure |
| `Platform.DetectDistribution` | src/main/java/de/flapdoodle/os/Platform.java:79-81 | the distribution is `distributions[i]` when the engine's find over that list names `i`, absent when it finds nothing; a failed find is this query's failure |
| `Platform.DetectVersion` | src/main/java/de/flapdoodle/os/Platform.java:87-89 | the version is `versions[i]` when the engine's find over that list names `i`, absent when it finds nothing; a failed find is this query's failure |
| `Platform.DetectVersionOf` | src/main/java/de/flapdoodle/os/Platform.java:83-85 | the version query for a distribution is the version query over its `versions()` list; a distribution without versions yields no version |
| `Platform.Detect` | src/main/java/de/flapdoodle/os/Platform.java:60-73 | a detected platform has an OS from the catalog and an architecture from that OS; a distribution is from that OS; a version is present only with a distribution and comes from it |
| `Platform.DetectIsTheComposition` | src/main/java/de/flapdoodle/os/Platform.java:60-73 | the first failing query makes detection fail with its fault; otherwise the OS, architecture, distribution and version are exactly the entries the engine named, and the version query runs only over the found distribution's versions |
| `Platform.DetectDefault` | src/main/java/de/flapdoodle/os/Platform.java:44-58 | `detect()` returns exactly what `detect(lookup, matcher)` returns on the unwrapped system lookups, whatever the explain property |
| `Platform.DetectAsksOnlyScopedQueries` | src/main/java/de/flapdoodle/os/Platform.java:60-66 | the result depends only on four query answers: match over all OS rules, match over the OS's architectures, find over its distributions, and find over the found distribution's versions. No version query is asked without a distribution |
| `Platform.VersionFollowsDistribution` | src/main/java/de/flapdoodle/os/Platform.java:65-66 | no distribution means no version; with distribution `d`, the version is exactly the engine's find over `d`'s versions |
| `Platform.EmptyVersionListMeansNoVersion` | src/main/java/de/flapdoodle/os/Platform.java:66 | a found distribution whose `versions()` list is empty (the shape OS_X_Distribution.java:38-40 declares) never yields a version |
| `DebianVersions.Values` | src/main/java/de/flapdoodle/os/linux/DebianVersion.java:27-29 | the catalog has two entries, DEBIAN_10 then DEBIAN_9 |
| `DebianVersions.ValuesListsEveryConstantOnce` | src/main/java/de/flapdoodle/os/linux/DebianVersion.java:27-29 | `values()` lists every constant, each once |
| `DebianVersions.Pecularities` | src/main/java/de/flapdoodle/os/linux/DebianVersion.java:31-40 | the rule list is the constructor's peculiarities, each as one rule, nothing added |
| `DebianVersions.Versions` | src/main/java/de/flapdoodle/os/linux/DebianVersion.java:27-29 | the catalog given to the engine lists the constants in declaration order |
| `DebianVersions.SingleVersionCondition` | src/main/java/de/flapdoodle/os/linux/DebianVersion.java:28-29 | DEBIAN_10 holds one os-release version condition expecting "10", DEBIAN_9 one expecting "9" |
| `DebianVersions.CatalogIsKeyed` | src/main/java/de/flapdoodle/os/linux/DebianVersion.java:28-29 | the catalog is keyed on the os-release version field with distinct labels "10" and "9" |
| `DebianVersions.EntriesAreExclusive` | src/main/java/de/flapdoodle/os/linux/DebianVersion.java:28-29 | under an equality comparator no snapshot satisfies both entries |
| `DebianVersions.FindSelectsDeclaredVersion` | src/main/java/de/flapdoodle/os/linux/DebianVersion.java:28-29 | find picks a constant iff the version field equals its id, and finds nothing iff the field is absent or neither id |
| `DebianVersions.DebianScenarios` | src/main/java/de/flapdoodle/os/linux/DebianVersion.java:28-29 | "9" finds DEBIAN_9, "10" finds DEBIAN_10, "11" finds nothing |
| `VersionFixtures.UbuntuCatalogIsKeyed` | src/test/java/de/flapdoodle/os/linux/UbuntuVersionTest.java:34-53 | the Ubuntu catalog is keyed on the os-release version field with 18 distinct ids |
| `VersionFixtures.UbuntuVersionIdSelectsVersion` | src/test/java/de/flapdoodle/os/linux/UbuntuVersionTest.java:34-62 | every Ubuntu version id finds its own entry; "16.04" finds Ubuntu 16.04 |
| `VersionFixtures.ArchRollingSelectsRolling` | src/test/java/de/flapdoodle/os/linux/ArchVersionTest.java:35-50 | lsb-release version id "rolling" finds ROLLING |
| `PlatformScenarios.DetectsDebianNine` | src/main/java/de/flapdoodle/os/Platform.java:60-73 | Linux/amd64/debian with version field "9" detects Linux, X86_64, Debian and DEBIAN_9 |
| `PlatformScenarios.DetectsDebianWithoutVersion` | src/main/java/de/flapdoodle/os/Platform.java:65-72 | version field "11": the distribution is present, the version absent, and detection succeeds |
| `PlatformScenarios.DetectsMacWithoutDistribution` | src/main/java/de/flapdoodle/os/osx/OS_X_Distribution.java:29-40 | Mac OS X has no distributions, so distribution and version are absent, in explain mode as well |
| `PlatformScenarios.NoAttributesNoOS` | src/main/java/de/flapdoodle/os/Platform.java:75-77 | with no attributes at all no OS matches and detection fails with `NoMatch` |

## Left out

- Logging (`LoggingWrapper`, the `logger.info` narration): the wrappers are modelled as layers that forward what they resolve. What they print is not modelled.
- System access: `System.getProperty` becomes a `properties` map parameter. The real attribute sources behind `systemDefault()` become a snapshot parameter. The scenarios use a plain snapshot lookup (`SnapshotAttributes`), standing in for the attribute lookups the tests build.
- The matcher lookup's comparators (equality, regular expression) become one abstract comparator. The scenarios assume that it compares by equality.
- The source of `PeculiarityInspector` is not part of this model. The facade uses any engine whose answers are entries of the list passed in; no tie-break or exception behaviour is assumed there. The reference engine in `inspector.dfy` reconstructs the engine's documented behaviour (all rules of an entry must hold, one member of an `Any` group suffices, an absent attribute fails, `match` needs exactly one holder, `find` at most one). Its rows cite the call sites in `Platform.java`, not engine code. It settles `find` on several holders as a fault; which fault the real engine raises is not modelled.
- An exception thrown by the engine is modelled as the `Failure` of a `Result`, with a `Fault` tag. Its message is not modelled.
- The `ImmutablePlatform` builder: the result is a plain record.
- The OS, architecture and distribution enums, `UbuntuVersion`, `ArchVersion`, `OsReleaseFiles` and `LsbReleaseFiles` are not part of this model. The catalogs in `scenarios.dfy` and `version_fixtures.dfy` are illustrative reconstructions, following what the tests expect. The release-file paths and keys are assumed.
- `SolarisDistribution` declares its rule list as plain peculiarities rather than `Either` rules. This is a signature difference with no behaviour, and Solaris is not in the scenario catalog.
- `ReleaseFiles.OsReleaseFileVersionMatches` and `ReleaseFiles.LsbReleaseFileVersionMatches` are fixture builders, not modelled members. Their attribute key (the release file's `VERSION_ID` field) and their `Matches` comparison kind are assumed, since the release-file classes are not part of this model. What the catalogs built from them select is stated by the Debian, Ubuntu and Arch lemmas.
- `Any` groups are assumed to come from `Of`. The subset type makes every group non-empty. In Java, `Any` is also a functional interface, so a lambda or the generated builder could produce an empty group, which `Of` refuses. Such groups are not modelled.
- Immutability of `Any` and of the Debian constants is not stated separately. In the model they are values, so every read returns the stored list.
