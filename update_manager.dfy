/**
 * The update manager (`src/data/profile/update/manager.rs`): the
 * requirements fulfilled so far, the files already updated, and values
 * filled in later during an update.
 */
module UpdateManager {
  import opened Wrappers
  import opened Shared
  import Versions

  /** `fabric_quilt::Mode`. */
  datatype FabricQuiltMode = Fabric | Quilt

  /** `JavaKind`: Adoptium with a version filled in later, or any other installation. */
  type OtherJava(==)
  datatype JavaKind = Adoptium(version: Later<string>) | OtherJava(other: OtherJava)

  /** `UpdateRequirement`, with the variants that `src/data/instance/create.rs` uses as well. */
  datatype UpdateRequirement =
    | ClientJson
    | Java(java: JavaKind)
    | GameJar(side: Side)
    | GameAssets
    | GameLibraries
    | Options
    | FabricQuilt(mode: FabricQuiltMode, side: Side)
    | ClientLoggingConfig

  /** Values filled in while an update runs; the model does not look inside them. */
  type ClientId(==)
  type CoreHandle(==)
  type GameOptions(==)
  type VersionInfo(==)
  type FabricQuiltMeta(==)

  /** `UpdateMethodResult`: the files an update step changed. */
  class UpdateMethodResult {
    var filesUpdated: set<Path>

    /** `UpdateMethodResult::new`. */
    constructor()
      ensures filesUpdated == {}
    {
      filesUpdated := {};
    }

    /** `UpdateMethodResult::from_path`. */
    constructor FromPath(path: Path)
      ensures filesUpdated == {path}
    {
      filesUpdated := {path};
    }

    /** `UpdateMethodResult::merge`. */
    method Merge(other: UpdateMethodResult)
      modifies this
      ensures filesUpdated == old(filesUpdated) + old(other.filesUpdated)
    {
      filesUpdated := filesUpdated + other.filesUpdated;
    }
  }

  /** `UpdateManager`; the print options only affect output and are left out. */
  class UpdateManager {
    const force: bool
    const allowOffline: bool
    var requirements: set<UpdateRequirement>
    var files: set<Path>
    var mcVersion: Later<Versions.MinecraftVersion>
    var msClientId: Option<ClientId>
    var core: Later<CoreHandle>
    var options: Option<GameOptions>
    var versionInfo: Later<VersionInfo>
    var fqMeta: Later<FabricQuiltMeta>

    /** `UpdateManager::new`. */
    constructor(force: bool, allowOffline: bool)
      ensures this.force == force && this.allowOffline == allowOffline
      ensures requirements == {} && files == {}
      ensures mcVersion == Empty && msClientId == Option.None && core == Empty
      ensures options == Option.None && versionInfo == Empty && fqMeta == Empty
    {
      this.force := force;
      this.allowOffline := allowOffline;
      requirements := {};
      core := Empty;
      msClientId := Option.None;
      files := {};
      options := Option.None;
      versionInfo := Empty;
      fqMeta := Empty;
      mcVersion := Empty;
    }

    /** `UpdateManager::set_client_id`. */
    method SetClientId(id: ClientId)
      modifies this
      ensures msClientId == Some(id)
      ensures requirements == old(requirements) && files == old(files) && mcVersion == old(mcVersion)
      ensures core == old(core) && options == old(options) && versionInfo == old(versionInfo) && fqMeta == old(fqMeta)
    {
      msClientId := Some(id);
    }

    /** `UpdateManager::add_requirement`: afterwards the requirement is held. */
    method AddRequirement(req: UpdateRequirement)
      modifies this
      ensures requirements == old(requirements) + {req}
      ensures HasRequirement(req)
      ensures files == old(files) && mcVersion == old(mcVersion) && msClientId == old(msClientId)
      ensures core == old(core) && options == old(options) && versionInfo == old(versionInfo) && fqMeta == old(fqMeta)
    {
      requirements := requirements + {req};
    }

    /** `UpdateManager::add_requirements`. */
    method AddRequirements(reqs: set<UpdateRequirement>)
      modifies this
      ensures requirements == old(requirements) + reqs
      ensures forall r :: r in reqs ==> HasRequirement(r)
      ensures files == old(files) && mcVersion == old(mcVersion) && msClientId == old(msClientId)
      ensures core == old(core) && options == old(options) && versionInfo == old(versionInfo) && fqMeta == old(fqMeta)
    {
      requirements := requirements + reqs;
    }

    /** `UpdateManager::has_requirement`. */
    predicate HasRequirement(req: UpdateRequirement)
      reads this
    {
      req in requirements
    }

    /** `UpdateManager::add_files`. */
    method AddFiles(newFiles: set<Path>)
      modifies this
      ensures files == old(files) + newFiles
      ensures requirements == old(requirements) && mcVersion == old(mcVersion) && msClientId == old(msClientId)
      ensures core == old(core) && options == old(options) && versionInfo == old(versionInfo) && fqMeta == old(fqMeta)
    {
      files := files + newFiles;
    }

    /** `UpdateManager::add_result`. */
    method AddResult(result: UpdateMethodResult)
      modifies this
      ensures files == old(files) + old(result.filesUpdated)
      ensures requirements == old(requirements) && mcVersion == old(mcVersion) && msClientId == old(msClientId)
      ensures core == old(core) && options == old(options) && versionInfo == old(versionInfo) && fqMeta == old(fqMeta)
    {
      AddFiles(result.filesUpdated);
    }

    /**
     * `UpdateManager::should_update_file`; `onDisk` is whether the file is
     * on disk. Forcing an update fetches a file again unless this update
     * already wrote it.
     */
    function ShouldUpdateFile(file: Path, onDisk: bool): (r: bool)
      reads this
      ensures !onDisk ==> r
      ensures onDisk && !force ==> !r
      ensures onDisk && force ==> (r <==> file !in files)
    {
      if force then file !in files || !onDisk else !onDisk
    }

    /** `UpdateManager::set_version`: the version is set and what was derived from the old one is cleared. */
    method SetVersion(version: Versions.MinecraftVersion)
      modifies this
      ensures mcVersion == Full(version) && versionInfo == Empty && fqMeta == Empty
      ensures requirements == old(requirements) && files == old(files) && msClientId == old(msClientId)
      ensures core == old(core) && options == old(options)
    {
      mcVersion := Full(version);
      versionInfo := Empty;
      fqMeta := Empty;
    }
  }

  /** Once an update step's files are added, a forced update does not fetch them again while they exist. */
  method AddResultThenSkip(m: UpdateManager, result: UpdateMethodResult, file: Path)
    requires m.force && file in result.filesUpdated
    modifies m
    ensures !m.ShouldUpdateFile(file, true)
    ensures m.ShouldUpdateFile(file, false)
  {
    m.AddResult(result);
  }
}
