/**
 * The Debian version catalog: two constants, each carrying one condition on
 * the os-release version field.
 */
module DebianVersions {
  import opened Wrappers
  import opened Peculiarities
  import opened HasPecularities
  import opened Catalog
  import opened ReleaseFiles
  import opened PeculiarityInspector

  datatype DebianVersion = DEBIAN_10 | DEBIAN_9

  /** The constants in declaration order, as `values()` lists them. */
  function Values(): (r: seq<DebianVersion>)
    ensures |r| == 2 && r[0] == DEBIAN_10 && r[1] == DEBIAN_9
  {
    [DEBIAN_10, DEBIAN_9]
  }

  /** `values()` lists every constant, each exactly once. */
  lemma ValuesListsEveryConstantOnce()
    ensures forall v :: v in Values()
    ensures forall a, b :: 0 <= a < b < |Values()| ==> Values()[a] != Values()[b]
  {
    forall v: DebianVersion ensures v in Values() {
      match v
      case DEBIAN_10 => assert Values()[0] == v;
      case DEBIAN_9 => assert Values()[1] == v;
    }
  }

  /** The version-field value each constant is declared for. */
  function VersionId(v: DebianVersion): string {
    match v
    case DEBIAN_10 => "10"
    case DEBIAN_9 => "9"
  }

  /** The peculiarities passed to each constant's constructor. */
  function Declared(v: DebianVersion): seq<Peculiarity> {
    [OsReleaseFileVersionMatches(VersionId(v))]
  }

  /** The rule list stored at construction: the declared peculiarities, each a single rule, nothing added. */
  function Pecularities(v: DebianVersion): (r: seq<Rule>)
    ensures |r| == |Declared(v)|
    ensures forall i :: 0 <= i < |r| ==> r[i] == Left(Declared(v)[i])
  {
    AsList(Declared(v))
  }

  /** A constant seen as a catalog version. */
  function AsVersion(v: DebianVersion): Version {
    Version(if v == DEBIAN_10 then "DEBIAN_10" else "DEBIAN_9", Pecularities(v))
  }

  /** The catalog handed to the engine, in declaration order. */
  function Versions(): (r: seq<Version>)
    ensures |r| == |Values()|
    ensures forall i :: 0 <= i < |r| ==> r[i] == AsVersion(Values()[i])
  {
    [AsVersion(DEBIAN_10), AsVersion(DEBIAN_9)]
  }

  /** Each constant holds exactly one rule: the os-release version field must match its own version id. */
  lemma SingleVersionCondition(v: DebianVersion)
    ensures Pecularities(v) == [Left(Peculiarity(OS_RELEASE_VERSION_ID, Matches, VersionId(v)))]
    ensures VersionId(DEBIAN_10) == "10" && VersionId(DEBIAN_9) == "9"
  {
  }

  /** The catalog is keyed on the os-release version field, with distinct labels "10" and "9". */
  lemma CatalogIsKeyed()
    ensures KeyedCatalog(VersionRules(Versions()), OS_RELEASE_VERSION_ID, Matches, ["10", "9"])
    ensures Distinct(["10", "9"])
  {
  }

  /** Under an equality comparator no snapshot satisfies both constants. */
  lemma EntriesAreExclusive(facts: Snapshot, compare: Comparator)
    requires ComparesByEquality(compare, Matches)
    ensures !(EntryHolds(facts, compare, Pecularities(DEBIAN_10)) && EntryHolds(facts, compare, Pecularities(DEBIAN_9)))
  {
    SingleVersionCondition(DEBIAN_10);
    SingleVersionCondition(DEBIAN_9);
    assert Left(OsReleaseFileVersionMatches("10")) in Pecularities(DEBIAN_10);
    assert Left(OsReleaseFileVersionMatches("9")) in Pecularities(DEBIAN_9);
  }

  /**
   * Finding over the catalog picks constant `v` exactly when the os-release
   * version field is `v`'s id, and finds nothing exactly when the field is
   * absent or holds neither id.
   */
  lemma FindSelectsDeclaredVersion(facts: Snapshot, compare: Comparator)
    requires ComparesByEquality(compare, Matches)
    ensures forall i :: 0 <= i < |Values()| ==>
      (Find(facts, compare, VersionRules(Versions())) == Success(Some(i)) <==>
         OS_RELEASE_VERSION_ID in facts && facts[OS_RELEASE_VERSION_ID] == VersionId(Values()[i]))
    ensures Find(facts, compare, VersionRules(Versions())) == Success(None) <==>
      !(OS_RELEASE_VERSION_ID in facts && facts[OS_RELEASE_VERSION_ID] in ["10", "9"])
  {
    CatalogIsKeyed();
    KeyedCatalogSelectsByValue(facts, compare, VersionRules(Versions()), OS_RELEASE_VERSION_ID, Matches, ["10", "9"]);
  }

  /** Version field "9" finds DEBIAN_9, "10" finds DEBIAN_10, "11" finds nothing. */
  lemma DebianScenarios(compare: Comparator)
    requires ComparesByEquality(compare, Matches)
    ensures Find(map[OS_RELEASE_VERSION_ID := "9"], compare, VersionRules(Versions())) == Success(Some(1))
    ensures Find(map[OS_RELEASE_VERSION_ID := "10"], compare, VersionRules(Versions())) == Success(Some(0))
    ensures Find(map[OS_RELEASE_VERSION_ID := "11"], compare, VersionRules(Versions())) == Success(None)
  {
    FindSelectsDeclaredVersion(map[OS_RELEASE_VERSION_ID := "9"], compare);
    FindSelectsDeclaredVersion(map[OS_RELEASE_VERSION_ID := "10"], compare);
    FindSelectsDeclaredVersion(map[OS_RELEASE_VERSION_ID := "11"], compare);
  }
}
