/**
 * The decisions of `net/minecraft.rs` that do not depend on the network: the version list
 * of the manifest, the lookup of a version's url, the library rules, the library
 * classpath, the asset object paths and the game jar path. The operating system name
 * (`OS_STRING`) and `mojang::is_allowed` are inputs.
 */
module NetMinecraft {
  import opened Wrappers
  import opened Json
  import Shared
  import Instance
  import MinecraftIo

  type Path = Shared.Path

  // ---------------------------------------------------------------------------
  // make_version_list

  /** The `id` of one manifest entry, which must be an object. */
  function EntryId(entry: Json): (r: Result<string, JsonError>)
    ensures r.Ok? <==> entry.JObj? && AccessStr(entry.members, "id").Ok?
    ensures r.Ok? ==> r == AccessStr(entry.members, "id")
  {
    var obj :- EnsureType(AsObject(entry), Obj);
    AccessStr(obj, "id")
  }

  /** The ids of the entries in order, or the error of the first entry without one. */
  function Ids(entries: seq<Json>): (r: Result<seq<string>, JsonError>)
    ensures r.Ok? ==> |r.value| == |entries|
    ensures r.Ok? ==> forall i :: 0 <= i < |entries| ==> EntryId(entries[i]) == Ok(r.value[i])
    decreases |entries|
  {
    if |entries| == 0 then Ok([])
    else
      var front := entries[..|entries| - 1];
      var ids :- Ids(front);
      var id :- EntryId(entries[|entries| - 1]);
      assert forall i :: 0 <= i < |front| ==> front[i] == entries[i];
      Ok(ids + [id])
  }

  /** A prefix that fails makes the whole sequence fail with the same error. */
  lemma {:induction false} IdsErrSticks(entries: seq<Json>, n: nat)
    requires n <= |entries| && Ids(entries[..n]).Err?
    ensures Ids(entries) == Ids(entries[..n])
    decreases |entries| - n
  {
    if n < |entries| {
      var next := entries[..n + 1];
      assert next[..n] == entries[..n];
      assert Ids(next) == Ids(entries[..n]);
      IdsErrSticks(entries, n + 1);
    } else {
      assert entries[..n] == entries;
    }
  }

  /** The ids exist exactly when every entry is an object with a string `id`. */
  lemma {:induction false} IdsOk(entries: seq<Json>)
    ensures Ids(entries).Ok? <==> forall i :: 0 <= i < |entries| ==> EntryId(entries[i]).Ok?
    decreases |entries|
  {
    if |entries| > 0 {
      var front := entries[..|entries| - 1];
      IdsOk(front);
      assert forall i :: 0 <= i < |front| ==> front[i] == entries[i];
    }
  }

  /** A sequence back to front. */
  function Reverse<T>(s: seq<T>): (r: seq<T>)
    ensures |r| == |s|
    ensures forall i :: 0 <= i < |s| ==> r[i] == s[|s| - 1 - i]
  {
    seq(|s|, i requires 0 <= i < |s| => s[|s| - 1 - i])
  }

  /** What `make_version_list` returns: the ids of the `versions` array, newest last. */
  function VersionList(manifest: Object): (r: Result<seq<string>, JsonError>)
  {
    var versions :- AccessArray(manifest, "versions");
    var ids :- Ids(versions);
    Ok(Reverse(ids))
  }

  /** `make_version_list`: push every id, then reverse the vector. */
  method MakeVersionList(manifest: Object) returns (r: Result<seq<string>, JsonError>)
    ensures r == VersionList(manifest)
  {
    var versions := AccessArray(manifest, "versions");
    if versions.Err? {
      return Err(versions.error);
    }
    var entries := versions.value;
    var out: seq<string> := [];
    for i := 0 to |entries|
      invariant Ids(entries[..i]) == Ok(out)
    {
      assert entries[..i + 1][..i] == entries[..i];
      var entry := EnsureType(AsObject(entries[i]), Obj);
      if entry.Err? {
        IdsErrSticks(entries, i + 1);
        return Err(entry.error);
      }
      var id := AccessStr(entry.value, "id");
      if id.Err? {
        IdsErrSticks(entries, i + 1);
        return Err(id.error);
      }
      out := out + [id.value];
    }
    assert entries[..|entries|] == entries;
    return Ok(Reverse(out));
  }

  /** Without a `versions` array there is no version list. */
  lemma VersionListNeedsArray(manifest: Object)
    ensures AccessArray(manifest, "versions").Err? ==> VersionList(manifest) == Err(AccessArray(manifest, "versions").error)
  {
  }

  /**
   * The version list has one id per manifest entry, in reverse order, and exists exactly
   * when every entry of the `versions` array has a string id.
   */
  lemma VersionListReversed(manifest: Object, entries: seq<Json>)
    requires AccessArray(manifest, "versions") == Ok(entries)
    ensures VersionList(manifest).Ok? <==> forall i :: 0 <= i < |entries| ==> EntryId(entries[i]).Ok?
    ensures VersionList(manifest).Ok? ==> |VersionList(manifest).value| == |entries|
    ensures VersionList(manifest).Ok? ==>
      forall i :: 0 <= i < |entries| ==> EntryId(entries[|entries| - 1 - i]) == Ok(VersionList(manifest).value[i])
  {
    IdsOk(entries);
    assert VersionList(manifest).Ok? <==> Ids(entries).Ok?;
    if Ids(entries).Ok? {
      IdsReversed(entries, Ids(entries).value);
    }
  }

  /** The reversed ids name the entries from the last one back. */
  lemma IdsReversed(entries: seq<Json>, ids: seq<string>)
    requires |ids| == |entries| && forall i :: 0 <= i < |entries| ==> EntryId(entries[i]) == Ok(ids[i])
    ensures forall i :: 0 <= i < |entries| ==> EntryId(entries[|entries| - 1 - i]) == Ok(Reverse(ids)[i])
  {
    forall i | 0 <= i < |entries|
      ensures EntryId(entries[|entries| - 1 - i]) == Ok(Reverse(ids)[i])
    {
      var k := |entries| - 1 - i;
      assert EntryId(entries[k]) == Ok(ids[k]);
      assert Reverse(ids)[i] == ids[k];
    }
  }

  // ---------------------------------------------------------------------------
  // The url lookup of get_version_json

  datatype VersionJsonError =
    | VersionNotFound(version: string)
    | ParseError(error: JsonError)

  /** An entry that is an object whose `id` is `version`. */
  predicate HasId(entry: Json, version: string)
  {
    entry.JObj? && AccessStr(entry.members, "id") == Ok(version)
  }

  /**
   * The url the loop holds after the entries: every entry must be an object with a string
   * id, and the `url` of an entry with the wanted id replaces the one found before it.
   */
  function LastUrl(version: string, entries: seq<Json>): (r: Result<Option<string>, JsonError>)
    decreases |entries|
  {
    if |entries| == 0 then Ok(None)
    else
      var found :- LastUrl(version, entries[..|entries| - 1]);
      EntryUrl(version, entries[|entries| - 1], found)
  }

  /** One entry of the scan: an entry with the id replaces the url found so far with its own. */
  function EntryUrl(version: string, entry: Json, found: Option<string>): (r: Result<Option<string>, JsonError>)
    ensures r.Ok? ==> entry.JObj? && AccessStr(entry.members, "id").Ok?
    ensures r.Ok? && HasId(entry, version) ==> r.value.Some? && HasUrl(entry, r.value.value)
    ensures r.Ok? && !HasId(entry, version) ==> r.value == found
    ensures entry.JObj? && AccessStr(entry.members, "id").Ok? && !HasId(entry, version) ==> r == Ok(found)
  {
    var obj :- EnsureType(AsObject(entry), Obj);
    var id :- AccessStr(obj, "id");
    if id == version then
      var url :- AccessStr(obj, "url");
      Ok(Some(url))
    else
      Ok(found)
  }

  /** The url `get_version_json` downloads, or why there is none. */
  function VersionUrl(version: string, manifest: Object): (r: Result<string, VersionJsonError>)
  {
    match AccessArray(manifest, "versions")
    case Err(e) => Err(ParseError(e))
    case Ok(entries) =>
      match LastUrl(version, entries)
      case Err(e) => Err(ParseError(e))
      case Ok(None) => Err(VersionNotFound(version))
      case Ok(Some(url)) => Ok(url)
  }

  lemma {:induction false} LastUrlErrSticks(version: string, entries: seq<Json>, n: nat)
    requires n <= |entries| && LastUrl(version, entries[..n]).Err?
    ensures LastUrl(version, entries) == LastUrl(version, entries[..n])
    decreases |entries| - n
  {
    if n < |entries| {
      var next := entries[..n + 1];
      assert next[..n] == entries[..n];
      assert LastUrl(version, next) == LastUrl(version, entries[..n]);
      LastUrlErrSticks(version, entries, n + 1);
    } else {
      assert entries[..n] == entries;
    }
  }

  /** The search loop of `get_version_json`, with its early returns on malformed entries. */
  method FindVersionUrl(version: string, manifest: Object) returns (r: Result<string, VersionJsonError>)
    ensures r == VersionUrl(version, manifest)
  {
    var versions := AccessArray(manifest, "versions");
    if versions.Err? {
      return Err(ParseError(versions.error));
    }
    var entries := versions.value;
    var versionUrl: Option<string> := None;
    for i := 0 to |entries|
      invariant LastUrl(version, entries[..i]) == Ok(versionUrl)
    {
      assert entries[..i + 1][..i] == entries[..i];
      var obj := EnsureType(AsObject(entries[i]), Obj);
      if obj.Err? {
        LastUrlErrSticks(version, entries, i + 1);
        return Err(ParseError(obj.error));
      }
      var id := AccessStr(obj.value, "id");
      if id.Err? {
        LastUrlErrSticks(version, entries, i + 1);
        return Err(ParseError(id.error));
      }
      if id.value == version {
        var url := AccessStr(obj.value, "url");
        if url.Err? {
          LastUrlErrSticks(version, entries, i + 1);
          return Err(ParseError(url.error));
        }
        versionUrl := Some(url.value);
      }
    }
    assert entries[..|entries|] == entries;
    if versionUrl.None? {
      return Err(VersionNotFound(version));
    }
    return Ok(versionUrl.value);
  }

  /** When the scan succeeds, it finds nothing exactly when no entry has the id. */
  lemma {:induction false} LastUrlNoneIffAbsent(version: string, entries: seq<Json>)
    requires LastUrl(version, entries).Ok?
    ensures LastUrl(version, entries).value.None? <==> forall i :: 0 <= i < |entries| ==> !HasId(entries[i], version)
    decreases |entries|
  {
    if |entries| > 0 {
      var front := entries[..|entries| - 1];
      assert LastUrl(version, front).Ok?;
      LastUrlNoneIffAbsent(version, front);
      assert forall i :: 0 <= i < |front| ==> front[i] == entries[i];
    }
  }

  /** Whether an entry with the id has this url. */
  predicate HasUrl(entry: Json, url: string)
  {
    entry.JObj? && AccessStr(entry.members, "url") == Ok(url)
  }

  /** Entry `i` has the id and this url, and no later entry has the id. */
  predicate LastMatchAt(version: string, entries: seq<Json>, url: string, i: int)
  {
    0 <= i < |entries| && HasId(entries[i], version) && HasUrl(entries[i], url) &&
    forall j :: i < j < |entries| ==> !HasId(entries[j], version)
  }

  /** A last match stays the last one when an entry without the id follows. */
  lemma LastMatchExtends(version: string, entries: seq<Json>, url: string, i: int)
    requires |entries| > 0 && !HasId(entries[|entries| - 1], version)
    requires LastMatchAt(version, entries[..|entries| - 1], url, i)
    ensures LastMatchAt(version, entries, url, i)
  {
    var front := entries[..|entries| - 1];
    assert entries[i] == front[i];
    forall j | i < j < |entries|
      ensures !HasId(entries[j], version)
    {
      if j < |front| {
        assert entries[j] == front[j];
      }
    }
  }

  /** When the scan finds a url, it is that of the last entry with the id. */
  lemma {:induction false} LastUrlIsLastMatch(version: string, entries: seq<Json>, url: string)
    requires LastUrl(version, entries) == Ok(Some(url))
    ensures exists i :: LastMatchAt(version, entries, url, i)
    decreases |entries|
  {
    var n := |entries| - 1;
    var front := entries[..n];
    assert LastUrl(version, front).Ok?;
    if HasId(entries[n], version) {
      assert LastMatchAt(version, entries, url, n);
    } else {
      assert LastUrl(version, front) == Ok(Some(url));
      LastUrlIsLastMatch(version, front, url);
      var i :| LastMatchAt(version, front, url, i);
      LastMatchExtends(version, entries, url, i);
    }
  }

  /** The lookup fails with VersionNotFound exactly when no well-formed entry has the id. */
  lemma VersionNotFoundIffAbsent(version: string, manifest: Object)
    requires AccessArray(manifest, "versions").Ok? && LastUrl(version, AccessArray(manifest, "versions").value).Ok?
    ensures VersionUrl(version, manifest) == Err(VersionNotFound(version)) <==>
      forall i :: 0 <= i < |AccessArray(manifest, "versions").value| ==> !HasId(AccessArray(manifest, "versions").value[i], version)
  {
    LastUrlNoneIffAbsent(version, AccessArray(manifest, "versions").value);
  }

  /** With two entries for one version, the later entry's url is used. */
  lemma LastDuplicateWins(version: string, first: string, second: string)
    ensures var e1 := JObj([Member("id", JStr(version)), Member("url", JStr(first))]);
            var e2 := JObj([Member("id", JStr(version)), Member("url", JStr(second))]);
            VersionUrl(version, [Member("versions", JArr([e1, e2]))]) == Ok(second)
  {
    var e1 := JObj([Member("id", JStr(version)), Member("url", JStr(first))]);
    var e2 := JObj([Member("id", JStr(version)), Member("url", JStr(second))]);
    GetFirst(e1.members, 0, "id");
    GetFirst(e1.members, 1, "url");
    GetFirst(e2.members, 0, "id");
    GetFirst(e2.members, 1, "url");
    var entries := [e1, e2];
    assert entries[..1] == [e1];
    assert [e1][..0] == [];
    assert LastUrl(version, [e1]) == Ok(Some(first));
    GetFirst([Member("versions", JArr(entries))], 0, "versions");
  }

  // ---------------------------------------------------------------------------
  // is_library_allowed

  /**
   * Whether one rule rejects the library: a rule with an `os` rejects it when the rule
   * allows (`isAllowed(action)`) differs from the rule naming this system.
   */
  function RuleRejects(rule: Json, os: string, isAllowed: string -> bool): (r: Result<bool, JsonError>)
  {
    var obj :- EnsureType(AsObject(rule), Obj);
    var action :- AccessStr(obj, "action");
    match Get(obj, "os")
    case None => Ok(false)
    case Some(osVal) =>
      var osObj :- EnsureType(AsObject(osVal), Obj);
      var osName :- AccessStr(osObj, "name");
      Ok(isAllowed(action) != (osName == os))
  }

  /** The verdict of the rule loop from the first rule on: it stops at the first rejection. */
  function RulesAllow(rules: seq<Json>, os: string, isAllowed: string -> bool): (r: Result<bool, JsonError>)
    decreases |rules|
  {
    if |rules| == 0 then Ok(true)
    else
      var rejects :- RuleRejects(rules[0], os, isAllowed);
      if rejects then Ok(false) else RulesAllow(rules[1..], os, isAllowed)
  }

  /** `is_library_allowed`: a library without `rules` is always allowed. */
  function LibraryAllowed(lib: Object, os: string, isAllowed: string -> bool): (r: Result<bool, JsonError>)
    ensures Get(lib, "rules").None? ==> r == Ok(true)
  {
    match Get(lib, "rules")
    case None => Ok(true)
    case Some(rulesVal) =>
      var rules :- EnsureType(AsArray(rulesVal), Arr);
      RulesAllow(rules, os, isAllowed)
  }

  /** The loop of `is_library_allowed`, returning as soon as a rule rejects. */
  method IsLibraryAllowed(lib: Object, os: string, isAllowed: string -> bool) returns (r: Result<bool, JsonError>)
    ensures r == LibraryAllowed(lib, os, isAllowed)
  {
    var rulesVal := Get(lib, "rules");
    if rulesVal.None? {
      return Ok(true);
    }
    var rules := EnsureType(AsArray(rulesVal.value), Arr);
    if rules.Err? {
      return Err(rules.error);
    }
    var i := 0;
    while i < |rules.value|
      invariant 0 <= i <= |rules.value|
      invariant RulesAllow(rules.value[i..], os, isAllowed) == LibraryAllowed(lib, os, isAllowed)
    {
      var rule := EnsureType(AsObject(rules.value[i]), Obj);
      if rule.Err? {
        return Err(rule.error);
      }
      var action := AccessStr(rule.value, "action");
      if action.Err? {
        return Err(action.error);
      }
      var osVal := Get(rule.value, "os");
      if osVal.Some? {
        var osObj := EnsureType(AsObject(osVal.value), Obj);
        if osObj.Err? {
          return Err(osObj.error);
        }
        var osName := AccessStr(osObj.value, "name");
        if osName.Err? {
          return Err(osName.error);
        }
        if isAllowed(action.value) != (osName.value == os) {
          return Ok(false);
        }
      }
      assert rules.value[i..][1..] == rules.value[i + 1..];
      i := i + 1;
    }
    return Ok(true);
  }

  /** A rule without an `os` never rejects, whatever its action. */
  lemma RuleWithoutOsHasNoEffect(rule: Object, os: string, isAllowed: string -> bool)
    requires AccessStr(rule, "action").Ok? && Get(rule, "os").None?
    ensures RuleRejects(JObj(rule), os, isAllowed) == Ok(false)
  {
  }

  /** Rule `i` rejects and every rule before it is well formed and does not. */
  predicate FirstRejectAt(rules: seq<Json>, os: string, isAllowed: string -> bool, i: int)
  {
    0 <= i < |rules| && RuleRejects(rules[i], os, isAllowed) == Ok(true) &&
    forall j :: 0 <= j < i ==> RuleRejects(rules[j], os, isAllowed) == Ok(false)
  }

  /**
   * The rules allow the library exactly when every rule is well formed and none rejects,
   * and they forbid it exactly when a rule rejects after well-formed rules that do not.
   */
  lemma RulesAllowSpec(rules: seq<Json>, os: string, isAllowed: string -> bool)
    ensures RulesAllow(rules, os, isAllowed) == Ok(true) <==>
      forall i :: 0 <= i < |rules| ==> RuleRejects(rules[i], os, isAllowed) == Ok(false)
    ensures RulesAllow(rules, os, isAllowed) == Ok(false) <==> exists i :: FirstRejectAt(rules, os, isAllowed, i)
  {
    RulesAllowTrue(rules, os, isAllowed);
    RulesAllowFalse(rules, os, isAllowed);
  }

  /** The rules allow the library exactly when every rule is well formed and none rejects. */
  lemma {:induction false} RulesAllowTrue(rules: seq<Json>, os: string, isAllowed: string -> bool)
    ensures RulesAllow(rules, os, isAllowed) == Ok(true) <==>
      forall i :: 0 <= i < |rules| ==> RuleRejects(rules[i], os, isAllowed) == Ok(false)
    decreases |rules|
  {
    if |rules| > 0 {
      var rest := rules[1..];
      RulesAllowTrue(rest, os, isAllowed);
      assert forall i :: 0 <= i < |rest| ==> rest[i] == rules[i + 1];
    }
  }

  /** A first rejection in the rules after a rule that does not reject is one place later. */
  lemma FirstRejectShift(rules: seq<Json>, os: string, isAllowed: string -> bool, i: int)
    requires |rules| > 0 && RuleRejects(rules[0], os, isAllowed) == Ok(false)
    ensures FirstRejectAt(rules[1..], os, isAllowed, i) <==> FirstRejectAt(rules, os, isAllowed, i + 1)
  {
    var rest := rules[1..];
    assert forall k :: 0 <= k < |rest| ==> rest[k] == rules[k + 1];
    if FirstRejectAt(rules, os, isAllowed, i + 1) {
      forall j | 0 <= j < i
        ensures RuleRejects(rest[j], os, isAllowed) == Ok(false)
      {
        assert rest[j] == rules[j + 1];
      }
    }
    if FirstRejectAt(rest, os, isAllowed, i) {
      forall j | 0 <= j < i + 1
        ensures RuleRejects(rules[j], os, isAllowed) == Ok(false)
      {
        if j > 0 {
          assert rules[j] == rest[j - 1];
        }
      }
    }
  }

  /** The rules forbid the library exactly when a rule rejects after well-formed rules that do not. */
  lemma {:induction false} RulesAllowFalse(rules: seq<Json>, os: string, isAllowed: string -> bool)
    ensures RulesAllow(rules, os, isAllowed) == Ok(false) <==> exists i :: FirstRejectAt(rules, os, isAllowed, i)
    decreases |rules|
  {
    if |rules| > 0 {
      var rest := rules[1..];
      RulesAllowFalse(rest, os, isAllowed);
      if RuleRejects(rules[0], os, isAllowed) == Ok(true) {
        assert FirstRejectAt(rules, os, isAllowed, 0);
      } else if RuleRejects(rules[0], os, isAllowed) == Ok(false) {
        assert RulesAllow(rules, os, isAllowed) == RulesAllow(rest, os, isAllowed);
        if RulesAllow(rest, os, isAllowed) == Ok(false) {
          var i :| FirstRejectAt(rest, os, isAllowed, i);
          FirstRejectShift(rules, os, isAllowed, i);
        }
        if exists i :: FirstRejectAt(rules, os, isAllowed, i) {
          var i :| FirstRejectAt(rules, os, isAllowed, i);
          assert i > 0;
          FirstRejectShift(rules, os, isAllowed, i - 1);
        }
      } else {
        forall i | FirstRejectAt(rules, os, isAllowed, i)
          ensures false
        {
        }
      }
    }
  }

  // ---------------------------------------------------------------------------
  // get_lib_classpath

  /** A file directly inside a directory. */
  predicate Under(p: Path, dir: Path)
  {
    |p| == |dir| + 1 && p[..|dir|] == dir
  }

  /**
   * The classpath entry of one library: none when the rules forbid it; its native
   * classifier for this system under `natives` when it has `natives`; otherwise its
   * artifact under `libraries`, or none.
   */
  function LibEntry(lib: Json, os: string, isAllowed: string -> bool, nativesDir: Path, librariesDir: Path): (r: Result<Option<Path>, JsonError>)
    ensures r.Ok? && r.value.Some? ==> Under(r.value.value, nativesDir) || Under(r.value.value, librariesDir)
  {
    var obj :- EnsureType(AsObject(lib), Obj);
    var allowed :- LibraryAllowed(obj, os, isAllowed);
    if !allowed then Ok(None)
    else
      var downloads :- AccessObject(obj, "downloads");
      match Get(obj, "natives")
      case Some(nativesVal) => NativesEntry(nativesVal, downloads, os, nativesDir)
      case None => ArtifactEntry(downloads, librariesDir)
  }

  /** A library with `natives`: the classifier this system's key names, under the natives directory. */
  function NativesEntry(nativesVal: Json, downloads: Object, os: string, nativesDir: Path): (r: Result<Option<Path>, JsonError>)
    ensures r.Ok? ==> r.value.Some? && Under(r.value.value, nativesDir)
  {
    var natives :- EnsureType(AsObject(nativesVal), Obj);
    var key :- AccessStr(natives, os);
    var classifiers :- AccessObject(downloads, "classifiers");
    var classifier :- AccessObject(classifiers, key);
    var path :- AccessStr(classifier, "path");
    Ok(Some(nativesDir + [path]))
  }

  /** A library without `natives`: its artifact, if it has one, under the libraries directory. */
  function ArtifactEntry(downloads: Object, librariesDir: Path): (r: Result<Option<Path>, JsonError>)
    ensures r.Ok? && r.value.Some? ==> Under(r.value.value, librariesDir)
    ensures Get(downloads, "artifact").None? ==> r == Ok(None)
  {
    match Get(downloads, "artifact")
    case None => Ok(None)
    case Some(artifactVal) =>
      var artifact :- EnsureType(AsObject(artifactVal), Obj);
      var path :- AccessStr(artifact, "path");
      Ok(Some(librariesDir + [path]))
  }

  /** The classpath of the libraries in order, or the first library's error. */
  function Classpath(libs: seq<Json>, os: string, isAllowed: string -> bool, nativesDir: Path, librariesDir: Path): (r: Result<seq<Path>, JsonError>)
    ensures r.Ok? ==> |r.value| <= |libs|
    ensures r.Ok? ==> forall k :: 0 <= k < |r.value| ==> Under(r.value[k], nativesDir) || Under(r.value[k], librariesDir)
    decreases |libs|
  {
    if |libs| == 0 then Ok([])
    else
      var front :- Classpath(libs[..|libs| - 1], os, isAllowed, nativesDir, librariesDir);
      var entry :- LibEntry(libs[|libs| - 1], os, isAllowed, nativesDir, librariesDir);
      match entry
      case None => Ok(front)
      case Some(path) => Ok(front + [path])
  }

  /** One more library extends a classpath that exists by its entry, if it has one, or fails with its error. */
  lemma ClasspathStep(libs: seq<Json>, i: nat, os: string, isAllowed: string -> bool, nativesDir: Path, librariesDir: Path,
                      cp: seq<Path>)
    requires i < |libs| && Classpath(libs[..i], os, isAllowed, nativesDir, librariesDir) == Ok(cp)
    ensures var entry := LibEntry(libs[i], os, isAllowed, nativesDir, librariesDir);
      Classpath(libs[..i + 1], os, isAllowed, nativesDir, librariesDir) ==
        if entry.Err? then Err(entry.error) else if entry.value.Some? then Ok(cp + [entry.value.value]) else Ok(cp)
  {
    assert libs[..i + 1][..i] == libs[..i];
  }

  lemma {:induction false} ClasspathErrSticks(libs: seq<Json>, n: nat, os: string, isAllowed: string -> bool, nativesDir: Path, librariesDir: Path)
    requires n <= |libs| && Classpath(libs[..n], os, isAllowed, nativesDir, librariesDir).Err?
    ensures Classpath(libs, os, isAllowed, nativesDir, librariesDir) == Classpath(libs[..n], os, isAllowed, nativesDir, librariesDir)
    decreases |libs| - n
  {
    if n < |libs| {
      var next := libs[..n + 1];
      assert next[..n] == libs[..n];
      assert Classpath(next, os, isAllowed, nativesDir, librariesDir) == Classpath(libs[..n], os, isAllowed, nativesDir, librariesDir);
      ClasspathErrSticks(libs, n + 1, os, isAllowed, nativesDir, librariesDir);
    } else {
      assert libs[..n] == libs;
    }
  }

  /** What `get_lib_classpath` returns for the given internal directory. */
  function LibClasspath(versionJson: Object, os: string, isAllowed: string -> bool, internal: Path): (r: Result<seq<Path>, JsonError>)
  {
    var libs :- AccessArray(versionJson, "libraries");
    Classpath(libs, os, isAllowed, internal + ["natives"], internal + ["libraries"])
  }

  /** The entry of one library, as the loop body of `get_lib_classpath` computes it. */
  method LibraryEntry(lib: Json, os: string, isAllowed: string -> bool, nativesDir: Path, librariesDir: Path) returns (r: Result<Option<Path>, JsonError>)
    ensures r == LibEntry(lib, os, isAllowed, nativesDir, librariesDir)
  {
    var obj := EnsureType(AsObject(lib), Obj);
    if obj.Err? {
      return Err(obj.error);
    }
    var allowed := IsLibraryAllowed(obj.value, os, isAllowed);
    if allowed.Err? {
      return Err(allowed.error);
    }
    if !allowed.value {
      return Ok(None);
    }
    var downloads := AccessObject(obj.value, "downloads");
    if downloads.Err? {
      return Err(downloads.error);
    }
    var nativesVal := Get(obj.value, "natives");
    if nativesVal.Some? {
      var natives := EnsureType(AsObject(nativesVal.value), Obj);
      if natives.Err? {
        return Err(natives.error);
      }
      var key := AccessStr(natives.value, os);
      if key.Err? {
        return Err(key.error);
      }
      var classifiers := AccessObject(downloads.value, "classifiers");
      if classifiers.Err? {
        return Err(classifiers.error);
      }
      var classifier := AccessObject(classifiers.value, key.value);
      if classifier.Err? {
        return Err(classifier.error);
      }
      var path := AccessStr(classifier.value, "path");
      if path.Err? {
        return Err(path.error);
      }
      return Ok(Some(nativesDir + [path.value]));
    }
    var artifactVal := Get(downloads.value, "artifact");
    if artifactVal.Some? {
      var artifact := EnsureType(AsObject(artifactVal.value), Obj);
      if artifact.Err? {
        return Err(artifact.error);
      }
      var path := AccessStr(artifact.value, "path");
      if path.Err? {
        return Err(path.error);
      }
      return Ok(Some(librariesDir + [path.value]));
    }
    return Ok(None);
  }

  /** `get_lib_classpath`: the loop adds one path per allowed library that has one. */
  method GetLibClasspath(versionJson: Object, os: string, isAllowed: string -> bool, internal: Path) returns (r: Result<seq<Path>, JsonError>)
    ensures r == LibClasspath(versionJson, os, isAllowed, internal)
  {
    var nativesDir := internal + ["natives"];
    var librariesDir := internal + ["libraries"];
    var libraries := AccessArray(versionJson, "libraries");
    if libraries.Err? {
      return Err(libraries.error);
    }
    var libs := libraries.value;
    var classpath: seq<Path> := [];
    for i := 0 to |libs|
      invariant Classpath(libs[..i], os, isAllowed, nativesDir, librariesDir) == Ok(classpath)
    {
      var entry := LibraryEntry(libs[i], os, isAllowed, nativesDir, librariesDir);
      ClasspathStep(libs, i, os, isAllowed, nativesDir, librariesDir, classpath);
      if entry.Err? {
        ClasspathErrSticks(libs, i + 1, os, isAllowed, nativesDir, librariesDir);
        return Err(entry.error);
      }
      if entry.value.Some? {
        classpath := classpath + [entry.value.value];
      }
    }
    assert libs[..|libs|] == libs;
    return Ok(classpath);
  }

  /**
   * A forbidden library adds nothing; an allowed one with `natives` adds its classifier
   * under the natives directory; an allowed one without adds its artifact, if any, under
   * the libraries directory.
   */
  lemma LibEntryChoices(lib: Object, os: string, isAllowed: string -> bool, nativesDir: Path, librariesDir: Path)
    ensures LibraryAllowed(lib, os, isAllowed) == Ok(false) ==> LibEntry(JObj(lib), os, isAllowed, nativesDir, librariesDir) == Ok(None)
    ensures (LibraryAllowed(lib, os, isAllowed) == Ok(true) && Get(lib, "natives").Some? &&
             LibEntry(JObj(lib), os, isAllowed, nativesDir, librariesDir).Ok?) ==>
      var e := LibEntry(JObj(lib), os, isAllowed, nativesDir, librariesDir).value;
      e.Some? && Under(e.value, nativesDir)
    ensures (LibraryAllowed(lib, os, isAllowed) == Ok(true) && Get(lib, "natives").None? &&
             LibEntry(JObj(lib), os, isAllowed, nativesDir, librariesDir).Ok? &&
             LibEntry(JObj(lib), os, isAllowed, nativesDir, librariesDir).value.Some?) ==>
      Under(LibEntry(JObj(lib), os, isAllowed, nativesDir, librariesDir).value.value, librariesDir)
  {
    assert EnsureType(AsObject(JObj(lib)), Obj) == Ok(lib);
  }

  // ---------------------------------------------------------------------------
  // Asset objects

  const RESOURCES_URL := "https://resources.download.minecraft.net/"

  /**
   * The object path of an asset, `hash[0..2]/hash`: its first two characters name the
   * directory. A hash shorter than two characters makes the source's slice panic.
   */
  function AssetHashPath(hash: string): (r: Option<string>)
    ensures r.Some? <==> |hash| >= 2
    ensures r.Some? ==> |r.value| == |hash| + 3 && r.value[..2] == hash[..2] && r.value[2] == '/' && r.value[3..] == hash
  {
    if |hash| < 2 then None
    else
      var p := hash[..2] + "/" + hash;
      assert p[3..] == hash;
      Some(p)
  }

  /** The download url of an asset: the resources prefix, then its object path. */
  function AssetUrl(hash: string): (r: Option<string>)
    ensures r.Some? <==> |hash| >= 2
    ensures r.Some? ==> |r.value| > |RESOURCES_URL| && r.value[..|RESOURCES_URL|] == RESOURCES_URL
    ensures r.Some? ==> r.value[|RESOURCES_URL|..] == AssetHashPath(hash).value
  {
    match AssetHashPath(hash)
    case None => None
    case Some(p) =>
      var u := RESOURCES_URL + p;
      assert u[|RESOURCES_URL|..] == p;
      Some(u)
  }

  /** The file an asset is stored in, inside the assets directory. */
  function AssetPath(assets: Path, hash: string): (r: Option<Path>)
    ensures r.Some? <==> |hash| >= 2
    ensures r.Some? ==> r.value == assets + ["objects", hash[..2], hash]
  {
    if |hash| < 2 then None else Some(assets + ["objects", hash[..2], hash])
  }

  /** The object path determines the hash, so distinct assets are stored apart. */
  lemma AssetHashPathInjective(h1: string, h2: string)
    requires |h1| >= 2 && |h2| >= 2
    ensures AssetHashPath(h1) == AssetHashPath(h2) ==> h1 == h2
  {
  }

  // ---------------------------------------------------------------------------
  // game_jar_path

  /** The Display text of an instance kind. */
  function KindText(kind: Instance.InstKind): (s: string)
    ensures s == MinecraftIo.SideText(Instance.ToSide(kind))
  {
    match kind
    case Client => "client"
    case Server => "server"
  }

  /** `game_jar_path`: `{version}_{kind}.jar` inside the jars directory. */
  function GameJarPath(kind: Instance.InstKind, version: string, jars: Path): (p: Path)
    ensures |p| == |jars| + 1 && p[..|jars|] == jars
  {
    jars + [version + "_" + KindText(kind) + ".jar"]
  }

  /** The download code and the version.json reader name the same jar for an instance. */
  lemma GameJarPathsAgree(kind: Instance.InstKind, version: string, jars: Path)
    ensures GameJarPath(kind, version, jars) == MinecraftIo.JarPath(Instance.ToSide(kind), version, jars)
  {
  }
}
