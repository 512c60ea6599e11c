/**
 * Version catalogs the library's tests check against: the Ubuntu releases
 * keyed on the os-release version field and the Arch rolling release keyed
 * on the lsb-release version field.
 */
module VersionFixtures {
  import opened Wrappers
  import opened Peculiarities
  import opened HasPecularities
  import opened Catalog
  import opened ReleaseFiles
  import opened PeculiarityInspector

  /** The Ubuntu version ids, in the order of the catalog. */
  const UBUNTU_VERSION_IDS: seq<string> := [
    "16.04", "16.10", "18.04", "18.10", "19.04", "19.10", "20.04", "20.10", "21.04",
    "21.10", "22.04", "22.10", "23.04", "23.10", "24.04", "24.10", "25.04", "25.10"]

  function UbuntuVersions(): (r: seq<Version>)
    ensures |r| == |UBUNTU_VERSION_IDS|
  {
    seq(|UBUNTU_VERSION_IDS|, i requires 0 <= i < |UBUNTU_VERSION_IDS| =>
      Version("Ubuntu " + UBUNTU_VERSION_IDS[i], AsList([OsReleaseFileVersionMatches(UBUNTU_VERSION_IDS[i])])))
  }

  function ArchVersions(): seq<Version> {
    [Version("ROLLING", AsList([LsbReleaseFileVersionMatches("rolling")]))]
  }

  lemma UbuntuCatalogIsKeyed()
    ensures KeyedCatalog(VersionRules(UbuntuVersions()), OS_RELEASE_VERSION_ID, Matches, UBUNTU_VERSION_IDS)
    ensures Distinct(UBUNTU_VERSION_IDS)
  {
  }

  /** Each Ubuntu version id finds its own catalog entry; "16.04" finds Ubuntu 16.04, the first. */
  lemma UbuntuVersionIdSelectsVersion(compare: Comparator)
    requires ComparesByEquality(compare, Matches)
    ensures forall j :: 0 <= j < |UBUNTU_VERSION_IDS| ==>
      Find(map[OS_RELEASE_VERSION_ID := UBUNTU_VERSION_IDS[j]], compare, VersionRules(UbuntuVersions()))
        == Success(Some(j))
    ensures Find(map[OS_RELEASE_VERSION_ID := "16.04"], compare, VersionRules(UbuntuVersions()))
        == Success(Some(0))
  {
    UbuntuCatalogIsKeyed();
    forall j | 0 <= j < |UBUNTU_VERSION_IDS|
      ensures Find(map[OS_RELEASE_VERSION_ID := UBUNTU_VERSION_IDS[j]], compare, VersionRules(UbuntuVersions()))
        == Success(Some(j))
    {
      KeyedCatalogSelectsByValue(map[OS_RELEASE_VERSION_ID := UBUNTU_VERSION_IDS[j]], compare,
        VersionRules(UbuntuVersions()), OS_RELEASE_VERSION_ID, Matches, UBUNTU_VERSION_IDS);
    }
  }

  /** The lsb-release version id "rolling" finds ROLLING. */
  lemma ArchRollingSelectsRolling(compare: Comparator)
    requires ComparesByEquality(compare, Matches)
    ensures Find(map[LSB_RELEASE_VERSION_ID := "rolling"], compare, VersionRules(ArchVersions())) == Success(Some(0))
  {
  }
}
