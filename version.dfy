/** cmd/ns/version: the version string the binary reports. The package-level
    `version` variable, set at link time, is the parameter `version`. */
module Version {
  import opened Strings

  const Development: string := "development"

  /** `Version()`: "development" for an unset version, otherwise the version
      with white space trimmed from both ends. */
  function Version(version: string): (r: string)
    ensures version == [] ==> r == Development
    ensures version != [] ==> Trimmed(r)
    ensures version != [] ==> exists i :: PeeledAt(version, r, i)
  {
    if version == [] then Development else TrimSpace(version)
  }

  /** A non-empty version made only of white space reports "", not
      "development". */
  lemma BlankVersionIsEmpty(version: string)
    requires version != [] && AllSpace(version)
    ensures Version(version) == []
  {
    TrimSpaceEmptyIffAllSpace(version);
  }

  /** A reported version (of a set variable) is its own trimming. */
  lemma VersionTrimmedIdempotent(version: string)
    requires version != []
    ensures TrimSpace(Version(version)) == Version(version)
  {
    TrimSpaceIdempotent(version);
  }
}
