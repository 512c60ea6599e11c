/**
 * End-to-end detections over a small catalog: Linux (one architecture, the
 * Debian distribution with its version catalog) and Mac OS X (one
 * architecture, no distributions), under a comparator that compares by
 * equality.
 */
module PlatformScenarios {
  import opened Wrappers
  import opened Peculiarities
  import opened HasPecularities
  import opened Catalog
  import opened ReleaseFiles
  import opened PeculiarityInspector
  import opened Platform
  import opened DebianVersions

  const OS_NAME: AttributeKey := SystemProperty("os.name")
  const OS_ARCH: AttributeKey := SystemProperty("os.arch")
  const OS_RELEASE_ID: AttributeKey := ReleaseFileKey(OS_RELEASE_FILE, "ID")

  function X86_64(): Architecture {
    Architecture("X86_64", AsList([Peculiarity(OS_ARCH, Equals, "amd64")]))
  }

  function Debian(): Distribution {
    Distribution("Debian", AsList([Peculiarity(OS_RELEASE_ID, Equals, "debian")]), Versions())
  }

  function Linux(): OS {
    OS("Linux", AsList([Peculiarity(OS_NAME, Matches, "Linux")]), [X86_64()], [Debian()])
  }

  /** Mac OS X admits no distributions, so neither a distribution nor a version is ever detected for it. */
  function OS_X(): OS {
    OS("OS_X", AsList([Peculiarity(OS_NAME, Matches, "Mac OS X")]), [X86_64()], [])
  }

  function Oses(): seq<OS> {
    [Linux(), OS_X()]
  }

  ghost predicate ComparesAllByEquality(compare: Comparator) {
    ComparesByEquality(compare, Equals) && ComparesByEquality(compare, Matches)
  }

  lemma CatalogsAreKeyed()
    ensures KeyedCatalog(OSRules(Oses()), OS_NAME, Matches, ["Linux", "Mac OS X"])
    ensures Distinct(["Linux", "Mac OS X"])
    ensures KeyedCatalog(ArchitectureRules([X86_64()]), OS_ARCH, Equals, ["amd64"])
    ensures KeyedCatalog(DistributionRules([Debian()]), OS_RELEASE_ID, Equals, ["debian"])
  {
  }

  /** The steps every Linux/amd64/debian snapshot goes through, up to the version query. */
  lemma DebianSteps(facts: Snapshot, compare: Comparator)
    requires ComparesAllByEquality(compare)
    requires OS_NAME in facts && facts[OS_NAME] == "Linux"
    requires OS_ARCH in facts && facts[OS_ARCH] == "amd64"
    requires OS_RELEASE_ID in facts && facts[OS_RELEASE_ID] == "debian"
    ensures DetectOS(Reference(), facts, compare, Oses()) == Success(Linux())
    ensures DetectArchitecture(Reference(), facts, compare, Linux().architectures) == Success(X86_64())
    ensures DetectDistribution(Reference(), facts, compare, Linux().distributions) == Success(Some(Debian()))
  {
    ReferenceIsValid();
    CatalogsAreKeyed();
    KeyedCatalogSelectsByValue(facts, compare, OSRules(Oses()), OS_NAME, Matches, ["Linux", "Mac OS X"]);
    KeyedCatalogSelectsByValue(facts, compare, ArchitectureRules([X86_64()]), OS_ARCH, Equals, ["amd64"]);
    KeyedCatalogSelectsByValue(facts, compare, DistributionRules([Debian()]), OS_RELEASE_ID, Equals, ["debian"]);
  }

  /** Debian 9: every part of the platform is detected, the version being DEBIAN_9. */
  lemma DetectsDebianNine(compare: Comparator)
    requires ComparesAllByEquality(compare)
    ensures ValidEngine(Reference())
    ensures var facts := map[OS_NAME := "Linux", OS_ARCH := "amd64", OS_RELEASE_ID := "debian",
                             OS_RELEASE_VERSION_ID := "9"];
      Detect(Reference(), SnapshotAttributes(facts), SystemDefaultMatcher(compare), Oses())
        == Success(Platform(Linux(), X86_64(), Some(Debian()), Some(AsVersion(DEBIAN_9))))
  {
    var facts := map[OS_NAME := "Linux", OS_ARCH := "amd64", OS_RELEASE_ID := "debian", OS_RELEASE_VERSION_ID := "9"];
    ReferenceIsValid();
    DebianSteps(facts, compare);
    FindSelectsDeclaredVersion(facts, compare);
    assert Values()[1] == DEBIAN_9;
  }

  /** An unknown Debian version: the distribution is detected, the version is absent, detection succeeds. */
  lemma DetectsDebianWithoutVersion(compare: Comparator)
    requires ComparesAllByEquality(compare)
    ensures ValidEngine(Reference())
    ensures var facts := map[OS_NAME := "Linux", OS_ARCH := "amd64", OS_RELEASE_ID := "debian",
                             OS_RELEASE_VERSION_ID := "11"];
      Detect(Reference(), SnapshotAttributes(facts), SystemDefaultMatcher(compare), Oses())
        == Success(Platform(Linux(), X86_64(), Some(Debian()), None))
  {
    var facts := map[OS_NAME := "Linux", OS_ARCH := "amd64", OS_RELEASE_ID := "debian", OS_RELEASE_VERSION_ID := "11"];
    ReferenceIsValid();
    DebianSteps(facts, compare);
    FindSelectsDeclaredVersion(facts, compare);
  }

  /** Mac OS X: no distribution and so no version; explain mode gives the same result. */
  lemma DetectsMacWithoutDistribution(compare: Comparator)
    requires ComparesAllByEquality(compare)
    ensures ValidEngine(Reference())
    ensures var facts := map[OS_NAME := "Mac OS X", OS_ARCH := "amd64"];
      && Detect(Reference(), SnapshotAttributes(facts), SystemDefaultMatcher(compare), Oses())
           == Success(Platform(OS_X(), X86_64(), None, None))
      && DetectDefault(Reference(), map[EXPLAIN_PROPERTY := "true"], facts, compare, Oses())
           == Success(Platform(OS_X(), X86_64(), None, None))
  {
    var facts := map[OS_NAME := "Mac OS X", OS_ARCH := "amd64"];
    ReferenceIsValid();
    CatalogsAreKeyed();
    KeyedCatalogSelectsByValue(facts, compare, OSRules(Oses()), OS_NAME, Matches, ["Linux", "Mac OS X"]);
    KeyedCatalogSelectsByValue(facts, compare, ArchitectureRules([X86_64()]), OS_ARCH, Equals, ["amd64"]);
    assert Find(facts, compare, DistributionRules([])) == Success(None);
  }

  /** With no attributes at all, no operating system matches and detection fails. */
  lemma NoAttributesNoOS(compare: Comparator)
    requires ComparesAllByEquality(compare)
    ensures ValidEngine(Reference())
    ensures Detect(Reference(), SnapshotAttributes(map[]), SystemDefaultMatcher(compare), Oses())
      == Failure(NoMatch)
  {
    ReferenceIsValid();
    CatalogsAreKeyed();
    KeyedCatalogSelectsByValue(map[], compare, OSRules(Oses()), OS_NAME, Matches, ["Linux", "Mac OS X"]);
  }
}
