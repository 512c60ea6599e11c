/**
 * Release-file attributes the version catalogs are keyed on, and the
 * single-condition peculiarities built from them.
 */
module ReleaseFiles {
  import opened Peculiarities

  const OS_RELEASE_FILE: string := "/etc/os-release"
  const LSB_RELEASE_FILE: string := "/etc/lsb-release"

  /** The `VERSION_ID` field of the os-release file. */
  const OS_RELEASE_VERSION_ID: AttributeKey := ReleaseFileKey(OS_RELEASE_FILE, "VERSION_ID")

  /** The `VERSION_ID` field of the lsb-release file. */
  const LSB_RELEASE_VERSION_ID: AttributeKey := ReleaseFileKey(LSB_RELEASE_FILE, "VERSION_ID")

  /** The os-release version field must match `version`. */
  function OsReleaseFileVersionMatches(version: string): (p: Peculiarity)
    ensures p.attribute == OS_RELEASE_VERSION_ID && p.kind == Matches && p.expected == version
  {
    Peculiarity(OS_RELEASE_VERSION_ID, Matches, version)
  }

  /** The lsb-release version field must match `version`. */
  function LsbReleaseFileVersionMatches(version: string): (p: Peculiarity)
    ensures p.attribute == LSB_RELEASE_VERSION_ID && p.kind == Matches && p.expected == version
  {
    Peculiarity(LSB_RELEASE_VERSION_ID, Matches, version)
  }
}
