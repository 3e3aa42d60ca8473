/**
 * Evaluation context and checks of package evaluation
 * (`src/package/eval/mod.rs`): levels, permissions, routines, the mutable
 * `EvalData` accumulator, the package-property check and the validation of
 * addon requests.
 */
module Eval {
  import opened Wrappers
  import opened Shared
  import Values
  import Conditions
  import Instructions
  import ProfileConfig

  /** What the evaluator evaluates: addons (`Install`) or package relations (`Resolve`). */
  datatype EvalLevel = Install | Resolve

  datatype EvalPermissions = Restricted | Standard | Elevated

  /** The `#[default]` permission level. */
  const DEFAULT_PERMISSIONS: EvalPermissions := Standard

  datatype Routine = Install | InstallResolve

  /** `Routine::get_routine_name`: both routines run the install routine. */
  function RoutineName(r: Routine): (name: string)
    ensures name == Instructions.INSTALL_ROUTINE
  {
    match r
    case Install => Instructions.INSTALL_ROUTINE
    case InstallResolve => Instructions.INSTALL_ROUTINE
  }

  /** `Routine::get_level`: `Install` evaluates addons, `InstallResolve` resolves relations. */
  function RoutineLevel(r: Routine): (l: EvalLevel)
    ensures l == EvalLevel.Install <==> r == Routine.Install
    ensures l == EvalLevel.Resolve <==> r == Routine.InstallResolve
  {
    match r
    case Install => EvalLevel.Install
    case InstallResolve => EvalLevel.Resolve
  }

  /** Max notice instructions per package. */
  const MAX_NOTICE_INSTRUCTIONS: nat := 10
  /** Max bytes per notice. */
  const MAX_NOTICE_CHARACTERS: nat := 128

  /** Constants shared by every package of one evaluation. */
  datatype EvalConstants = EvalConstants(
    version: string,
    modifications: ProfileConfig.GameModifications,
    versionList: seq<string>,
    language: Language)

  /** Constants that may differ for each package. */
  datatype EvalParameters = EvalParameters(
    side: Side,
    features: seq<string>,
    perms: EvalPermissions,
    stability: PackageStability)

  datatype EvalInput = EvalInput(constants: EvalConstants, params: EvalParameters)

  /** One resolved alternative of a dependency group. */
  datatype RequiredPackage = RequiredPackage(value: string, explicit: bool)

  datatype AddonHashes = AddonHashes(sha256: Option<string>, sha512: Option<string>)

  datatype Addon = Addon(
    kind: AddonKind,
    id: string,
    fileName: string,
    pkgId: PkgIdentifier,
    version: Option<string>,
    hashes: AddonHashes)

  datatype AddonLocation = Remote(url: string) | Local(path: string)

  datatype AddonRequest = AddonRequest(addon: Addon, location: AddonLocation)

  datatype EvalError =
    | RoutineMissing(routine: string)
    | ValueFailed(message: string)
    | ConditionFailed(message: string)
    | Failed(reason: Option<Instructions.FailReason>)
    | TooManyNotices
    | NoticeTooLong
    | CommandNotPermitted
    | DuplicateAddon(id: string)
    | NotAllowed
    | UnsupportedModloader
    | UnsupportedPluginLoader
    | InvalidAddonId(id: string)
    | InvalidAddonVersion(version: string, id: string)
    | InvalidAddonFileName(fileName: string, id: string)
    | HashParse
    | Sha256TooLong(id: string)
    | Sha512TooLong(id: string)
    | LocalAddonNotPermitted(id: string)
    | NoAddonLocation(id: string)
      /** An `expect` or a read of an unfilled `Later` value: a panic in the source. */
    | Panic(message: string)

  /**
   * What the evaluator calls that is not part of this model: value
   * resolution against the variable bindings (`Value::get`,
   * `get_as_option`), `eval_condition` (which sees the input and the
   * bindings), the identifier, version and filename grammars, the default
   * addon filename, hash decoding (the decoded length), the hash length
   * constants, tilde expansion, and the modloader and plugin-loader match
   * relations.
   */
  datatype Externals = Externals(
    get: (Values.Value, map<string, string>) -> Result<string, string>,
    getOption: (Values.Value, map<string, string>) -> Result<Option<string>, string>,
    evalCondition: (Conditions.ConditionKind, EvalInput, map<string, string>) -> Result<bool, string>,
    isValidIdentifier: string -> bool,
    isAddonVersionValid: string -> bool,
    isFilenameValid: (AddonKind, string) -> bool,
    addonFilename: (string, string, AddonKind) -> string,
    hashHexLength: string -> Option<nat>,
    sha256Length: nat,
    sha512Length: nat,
    tilde: string -> string,
    modloaderMatches: (ModloaderMatch, Modloader) -> bool,
    pluginLoaderMatches: (PluginLoaderMatch, ServerType) -> bool)

  /** The properties of a package that evaluation checks. */
  datatype PackageProperties = PackageProperties(
    supportedModloaders: Option<seq<ModloaderMatch>>,
    supportedPluginLoaders: Option<seq<PluginLoaderMatch>>,
    supportedSides: Option<seq<Side>>)

  /** No supported-modloader list, or one of its entries matches the side's modloader. */
  predicate ModloaderSupported(x: Externals, input: EvalInput, props: PackageProperties) {
    props.supportedModloaders.Some? ==>
      exists m :: m in props.supportedModloaders.value &&
        x.modloaderMatches(m, ProfileConfig.GetModloader(input.constants.modifications, input.params.side))
  }

  /** No supported-plugin-loader list, or one of its entries matches the server type. */
  predicate PluginLoaderSupported(x: Externals, input: EvalInput, props: PackageProperties) {
    props.supportedPluginLoaders.Some? ==>
      exists m :: m in props.supportedPluginLoaders.value &&
        x.pluginLoaderMatches(m, input.constants.modifications.serverType)
  }

  /** A supported-sides list is given and the side is not in it. */
  predicate SideExcluded(input: EvalInput, props: PackageProperties) {
    props.supportedSides.Some? && input.params.side !in props.supportedSides.value
  }

  /**
   * `eval_check_properties`: an error when the modloader or (then) the plugin
   * loader is not supported; otherwise whether to skip the package because
   * its side is not supported.
   */
  function CheckProperties(x: Externals, input: EvalInput, props: PackageProperties): (r: Result<bool, EvalError>)
    ensures r == Err(UnsupportedModloader) <==> !ModloaderSupported(x, input, props)
    ensures r == Err(UnsupportedPluginLoader) <==>
              ModloaderSupported(x, input, props) && !PluginLoaderSupported(x, input, props)
    ensures r == Ok(true) <==>
              ModloaderSupported(x, input, props) && PluginLoaderSupported(x, input, props) && SideExcluded(input, props)
    ensures r.Err? || r == Ok(false) || r == Ok(true)
  {
    if props.supportedModloaders.Some? && !ModloaderSupported(x, input, props) then
      Err(UnsupportedModloader)
    else if props.supportedPluginLoaders.Some? && !PluginLoaderSupported(x, input, props) then
      Err(UnsupportedPluginLoader)
    else if props.supportedSides.Some? && input.params.side !in props.supportedSides.value then
      Ok(true)
    else
      Ok(false)
  }

  /** A package that states no properties is always evaluated. */
  lemma NoPropertiesEvaluated(x: Externals, input: EvalInput)
    ensures CheckProperties(x, input, PackageProperties(Option.None, Option.None, Option.None)) == Ok(false)
  {
  }

  /** The loader checks come before the side check: an unsupported loader fails even on an excluded side. */
  lemma LoaderCheckedBeforeSide(x: Externals, input: EvalInput, props: PackageProperties)
    requires SideExcluded(input, props)
    ensures CheckProperties(x, input, props).Ok? <==>
              ModloaderSupported(x, input, props) && PluginLoaderSupported(x, input, props)
  {
  }

  /** An empty version is treated as no version. */
  function NonEmptyVersion(version: Option<string>): (v: Option<string>)
    ensures v.Some? <==> version.Some? && version.value != ""
    ensures v.Some? ==> v == version
  {
    match version
    case Some(s) => if s == "" then Option.None else version
    case None => Option.None
  }

  /** A given hash decodes to no more than its limit. */
  predicate HashOk(x: Externals, hash: Option<string>, limit: nat) {
    hash.Some? ==> x.hashHexLength(hash.value).Some? && x.hashHexLength(hash.value).value <= limit
  }

  /** The file name of an addon: the one given, or the name derived from the package, the id and the kind. */
  function AddonFileName(x: Externals, fileName: Option<string>, pkgId: PkgIdentifier, id: string, kind: AddonKind): string {
    match fileName
    case Some(f) => f
    case None => x.addonFilename(pkgId.name, id, kind)
  }

  /** Everything `create_valid_addon_request` demands of its arguments. */
  predicate AddonArgsValid(
    x: Externals, id: string, url: Option<string>, path: Option<string>, kind: AddonKind,
    fileName: Option<string>, version: Option<string>, pkgId: PkgIdentifier, hashes: AddonHashes,
    perms: EvalPermissions)
  {
    && x.isValidIdentifier(id)
    && (NonEmptyVersion(version).Some? ==> x.isAddonVersionValid(NonEmptyVersion(version).value))
    && x.isFilenameValid(kind, AddonFileName(x, fileName, pkgId, id, kind))
    && HashOk(x, hashes.sha256, x.sha256Length)
    && HashOk(x, hashes.sha512, x.sha512Length)
    && (url.Some? || (path.Some? && perms == Elevated))
  }

  /**
   * `create_valid_addon_request`: checks the id, the version, the file name
   * and the hashes in that order, then places the addon at its url, or at
   * its tilde-expanded local path when the permission is elevated.
   */
  function CreateValidAddonRequest(
    x: Externals, id: string, url: Option<string>, path: Option<string>, kind: AddonKind,
    fileName: Option<string>, version: Option<string>, pkgId: PkgIdentifier, hashes: AddonHashes,
    perms: EvalPermissions): (r: Result<AddonRequest, EvalError>)
    ensures r.Ok? <==> AddonArgsValid(x, id, url, path, kind, fileName, version, pkgId, hashes, perms)
    ensures !x.isValidIdentifier(id) ==> r == Err(InvalidAddonId(id))
    ensures r.Ok? ==>
              r.value.addon == Addon(kind, id, AddonFileName(x, fileName, pkgId, id, kind), pkgId, NonEmptyVersion(version), hashes)
    ensures r.Ok? && url.Some? ==> r.value.location == Remote(url.value)
    ensures r.Ok? && url.None? ==> perms == Elevated && r.value.location == Local(x.tilde(path.value))
    ensures r.Err? && x.isValidIdentifier(id) && url.None? && path.Some? && perms != Elevated ==>
              r.error.LocalAddonNotPermitted? || r.error.InvalidAddonVersion? || r.error.InvalidAddonFileName? ||
              r.error.HashParse? || r.error.Sha256TooLong? || r.error.Sha512TooLong?
  {
    if !x.isValidIdentifier(id) then Err(InvalidAddonId(id))
    else
      var version := NonEmptyVersion(version);
      if version.Some? && !x.isAddonVersionValid(version.value) then Err(InvalidAddonVersion(version.value, id))
      else
        var fileName := AddonFileName(x, fileName, pkgId, id, kind);
        if !x.isFilenameValid(kind, fileName) then Err(InvalidAddonFileName(fileName, id))
        else if hashes.sha256.Some? && x.hashHexLength(hashes.sha256.value).None? then Err(HashParse)
        else if hashes.sha256.Some? && x.hashHexLength(hashes.sha256.value).value > x.sha256Length then Err(Sha256TooLong(id))
        else if hashes.sha512.Some? && x.hashHexLength(hashes.sha512.value).None? then Err(HashParse)
        else if hashes.sha512.Some? && x.hashHexLength(hashes.sha512.value).value > x.sha512Length then Err(Sha512TooLong(id))
        else
          var addon := Addon(kind, id, fileName, pkgId, version, hashes);
          match url
          case Some(u) => Ok(AddonRequest(addon, Remote(u)))
          case None =>
            match path
            case Some(p) => if perms == Elevated then Ok(AddonRequest(addon, Local(x.tilde(p)))) else Err(LocalAddonNotPermitted(id))
            case None => Err(NoAddonLocation(id))
  }

  /** An invalid identifier is rejected whatever the other arguments are. */
  lemma InvalidIdFirst(
    x: Externals, id: string, url: Option<string>, path: Option<string>, kind: AddonKind,
    fileName: Option<string>, version: Option<string>, pkgId: PkgIdentifier, hashes: AddonHashes,
    perms: EvalPermissions)
    requires !x.isValidIdentifier(id)
    ensures CreateValidAddonRequest(x, id, url, path, kind, fileName, version, pkgId, hashes, perms) == Err(InvalidAddonId(id))
  {
  }

  /** With a valid rest, the location decides: neither url nor path is an error, and so is a path without elevation. */
  lemma AddonLocationRules(
    x: Externals, id: string, kind: AddonKind, pkgId: PkgIdentifier, perms: EvalPermissions, p: string)
    requires x.isValidIdentifier(id) && x.isFilenameValid(kind, x.addonFilename(pkgId.name, id, kind))
    ensures CreateValidAddonRequest(x, id, Option.None, Option.None, kind, Option.None, Option.None, pkgId, AddonHashes(Option.None, Option.None), perms)
              == Err(NoAddonLocation(id))
    ensures perms != Elevated ==>
              CreateValidAddonRequest(x, id, Option.None, Some(p), kind, Option.None, Option.None, pkgId, AddonHashes(Option.None, Option.None), perms)
                == Err(LocalAddonNotPermitted(id))
  {
  }

  /** The mutable fields of `EvalData`, as one value. */
  datatype Accum = Accum(
    vars: map<string, string>,
    addonReqs: seq<AddonRequest>,
    deps: seq<seq<RequiredPackage>>,
    conflicts: seq<string>,
    recommendations: seq<string>,
    bundled: seq<string>,
    compats: seq<(string, string)>,
    extensions: seq<string>,
    notices: seq<string>,
    commands: seq<seq<string>>)

  const EMPTY_ACCUM: Accum := Accum(map[], [], [], [], [], [], [], [], [], [])

  /** `EvalData`: the accumulator one routine evaluation fills. */
  class EvalData {
    const input: EvalInput
    const id: PkgIdentifier
    const level: EvalLevel
    var vars: map<string, string>
    var addonReqs: seq<AddonRequest>
    var deps: seq<seq<RequiredPackage>>
    var conflicts: seq<string>
    var recommendations: seq<string>
    var bundled: seq<string>
    var compats: seq<(string, string)>
    var extensions: seq<string>
    var notices: seq<string>
    var commands: seq<seq<string>>

    /** The accumulated fields. */
    function Acc(): Accum
      reads this
    {
      Accum(vars, addonReqs, deps, conflicts, recommendations, bundled, compats, extensions, notices, commands)
    }

    /** `EvalData::new`: every accumulator empty, at the level of the routine. */
    constructor(input: EvalInput, id: PkgIdentifier, routine: Routine)
      ensures this.input == input && this.id == id && level == RoutineLevel(routine)
      ensures Acc() == EMPTY_ACCUM
    {
      this.input := input;
      this.id := id;
      level := RoutineLevel(routine);
      vars := map[];
      addonReqs := [];
      deps := [];
      conflicts := [];
      recommendations := [];
      bundled := [];
      compats := [];
      extensions := [];
      notices := [];
      commands := [];
    }
  }
}
