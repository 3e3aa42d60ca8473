/** Minecraft versions and single-version patterns (`src/util/versions.rs`). */
module Versions {
  import opened Wrappers

  /** `MinecraftVersion`: the only variant keeps the version text as given. */
  datatype MinecraftVersion = Unknown(text: string)

  /** `MinecraftVersion::from`. */
  function FromText(s: string): (v: MinecraftVersion)
    ensures AsString(v) == s
  {
    Unknown(s)
  }

  /** `MinecraftVersion::as_string`. */
  function AsString(v: MinecraftVersion): string {
    match v
    case Unknown(s) => s
  }

  /** Two versions with the same text are the same version. */
  lemma AsStringInjective(a: MinecraftVersion, b: MinecraftVersion)
    requires AsString(a) == AsString(b)
    ensures a == b
  {
  }

  /** `VersionNotFoundError`. */
  datatype VersionNotFoundError = VersionNotFoundError(version: MinecraftVersion)

  /** `VersionNotFoundError::new` stores exactly the version it is given. */
  function NewVersionNotFound(v: MinecraftVersion): (e: VersionNotFoundError)
    ensures e.version == v
    ensures AsString(e.version) == AsString(v)
  {
    VersionNotFoundError(v)
  }

  datatype VersionPattern = Single(version: string)

  /** `VersionPattern::matches`: the pattern's own version when the list has it. */
  function Matches(p: VersionPattern, versions: seq<string>): (r: Option<string>)
    ensures r.Some? <==> p.version in versions
    ensures r.Some? ==> r.value == p.version && r.value in versions
  {
    match p
    case Single(v) => if v in versions then Some(v) else None
  }

  /** Matching does not depend on the order or repetition of the list. */
  lemma MatchesBySet(p: VersionPattern, a: seq<string>, b: seq<string>)
    requires (set v | v in a) == (set v | v in b)
    ensures Matches(p, a) == Matches(p, b)
  {
    var sa, sb := set v | v in a, set v | v in b;
    assert p.version in a <==> p.version in sa;
    assert p.version in b <==> p.version in sb;
  }
}
