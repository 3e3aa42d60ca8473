/**
 * Instance directories and addon placement (`src/data/instance/mod.rs`).
 * Paths are sequences of components; the filesystem the source changes is
 * the class `FileSystem`, a set of directories, a set of files and the
 * source of each hard link.
 */
module Instance {
  import opened Wrappers
  import Shared
  import Eval

  type Path = Shared.Path

  /** `InstKind`; the options and window settings do not affect any path. */
  datatype InstKind = Client | Server

  datatype Instance = Instance(kind: InstKind, id: string)

  /**
   * The data directory of the program, and `addon::get_addon_path`, the
   * stored copy of an addon (its module is not part of this model).
   */
  datatype Paths = Paths(dataDir: Path, addonPath: Eval.Addon -> Path)

  /** `InstKind::to_side`. */
  function ToSide(k: InstKind): (s: Shared.Side)
    ensures s == Shared.Side.Client <==> k == Client
    ensures ToSideInverse(s) == k
  {
    match k
    case Client => Shared.Side.Client
    case Server => Shared.Side.Server
  }

  function ToSideInverse(s: Shared.Side): InstKind {
    match s
    case Client => Client
    case Server => Server
  }

  /** `Instance::get_dir`. */
  function GetDir(inst: Instance, paths: Paths): (p: Path)
    ensures |p| == |paths.dataDir| + 2
    ensures p[..|paths.dataDir|] == paths.dataDir
    ensures p[|paths.dataDir|] == (if inst.kind == Client then "client" else "server")
    ensures p[|paths.dataDir| + 1] == inst.id
  {
    match inst.kind
    case Client => paths.dataDir + ["client"] + [inst.id]
    case Server => paths.dataDir + ["server"] + [inst.id]
  }

  /** `Instance::get_subdir`. */
  function GetSubdir(inst: Instance, paths: Paths): (p: Path)
    ensures |p| == |paths.dataDir| + 3
    ensures p[..|paths.dataDir| + 2] == GetDir(inst, paths)
    ensures p[|paths.dataDir| + 2] == (if inst.kind == Client then ".minecraft" else "server")
  {
    GetDir(inst, paths) + [match inst.kind case Client => ".minecraft" case Server => "server"]
  }

  /** The directory name of each addon kind inside the game directory. */
  function AddonDirName(kind: Shared.AddonKind): string {
    match kind
    case Mod => "mods"
    case ResourcePack => "resourcepacks"
    case Shader => "shaders"
    case Plugin => "plugins"
  }

  /** The addon kinds an instance kind can hold. */
  predicate Supports(k: InstKind, kind: Shared.AddonKind) {
    match kind
    case Mod => true
    case ResourcePack => k == Client
    case Shader => k == Client
    case Plugin => k == Server
  }

  /** `Instance::get_linked_addon_path`. */
  function LinkedAddonPath(inst: Instance, addon: Eval.Addon, paths: Paths): (r: Option<Path>)
    ensures r.Some? <==> Supports(inst.kind, addon.kind)
    ensures r.Some? ==> r.value == GetSubdir(inst, paths) + [AddonDirName(addon.kind)]
  {
    var instDir := GetSubdir(inst, paths);
    match addon.kind
    case ResourcePack => if inst.kind == Client then Some(instDir + ["resourcepacks"]) else None
    case Mod => Some(instDir + ["mods"])
    case Plugin => if inst.kind == Server then Some(instDir + ["plugins"]) else None
    case Shader => if inst.kind == Client then Some(instDir + ["shaders"]) else None
  }

  /** Where an addon's hard link is placed in an instance, when the instance can hold it. */
  function AddonLink(inst: Instance, addon: Eval.Addon, paths: Paths): (r: Option<Path>)
    ensures r.Some? <==> Supports(inst.kind, addon.kind)
    ensures r.Some? ==> r.value == LinkedAddonPath(inst, addon, paths).value + [addon.fileName]
  {
    match LinkedAddonPath(inst, addon, paths)
    case None => None
    case Some(dir) => Some(dir + [addon.fileName])
  }

  /** The directories `files::create_leading_dirs` creates for `p`: its proper non-empty prefixes. */
  function LeadingDirs(p: Path): (r: set<Path>)
    ensures forall q :: q in r <==> 0 < |q| < |p| && q == p[..|q|]
  {
    set k | 0 < k < |p| :: p[..k]
  }

  /** The files `Instance::teardown` removes when they exist. */
  function TeardownTargets(inst: Instance, paths: Paths, paperFileName: Option<string>): set<Path> {
    match inst.kind
    case Client => {GetDir(inst, paths) + ["client.jar"]}
    case Server =>
      {GetSubdir(inst, paths) + ["server.jar"]} +
      (match paperFileName case None => {} case Some(name) => {GetSubdir(inst, paths) + [name]})
  }

  /** A client keeps its game jar beside the game directory, a server inside it. */
  lemma TeardownTargetsShape(inst: Instance, paths: Paths, paperFileName: Option<string>)
    ensures inst.kind == Client ==> TeardownTargets(inst, paths, paperFileName) == {GetDir(inst, paths) + ["client.jar"]}
    ensures inst.kind == Server && paperFileName.None? ==>
              TeardownTargets(inst, paths, paperFileName) == {GetSubdir(inst, paths) + ["server.jar"]}
    ensures inst.kind == Server && paperFileName.Some? ==>
              TeardownTargets(inst, paths, paperFileName) ==
              {GetSubdir(inst, paths) + ["server.jar"], GetSubdir(inst, paths) + [paperFileName.value]}
  {
  }

  /** The addon kinds of an instance each have a directory of their own. */
  lemma AddonDirsDistinct(inst: Instance, a: Eval.Addon, b: Eval.Addon, paths: Paths)
    requires LinkedAddonPath(inst, a, paths).Some? && LinkedAddonPath(inst, b, paths).Some?
    ensures LinkedAddonPath(inst, a, paths) == LinkedAddonPath(inst, b, paths) <==> a.kind == b.kind
  {
    var n := |paths.dataDir| + 3;
    if LinkedAddonPath(inst, a, paths) == LinkedAddonPath(inst, b, paths) {
      assert LinkedAddonPath(inst, a, paths).value[n] == AddonDirName(a.kind);
      assert LinkedAddonPath(inst, b, paths).value[n] == AddonDirName(b.kind);
    }
  }

  /** Instances that differ in kind or id never share an addon link. */
  lemma AddonLinksIsolated(i: Instance, j: Instance, a: Eval.Addon, b: Eval.Addon, paths: Paths)
    requires i != j
    requires AddonLink(i, a, paths).Some? && AddonLink(j, b, paths).Some?
    ensures AddonLink(i, a, paths) != AddonLink(j, b, paths)
  {
    var n := |paths.dataDir|;
    var p, q := AddonLink(i, a, paths).value, AddonLink(j, b, paths).value;
    assert p[..n + 2] == GetDir(i, paths);
    assert q[..n + 2] == GetDir(j, paths);
    if i.kind != j.kind {
      assert p[n] != q[n];
    } else {
      assert p[n + 1] != q[n + 1];
    }
  }

  /** Tearing an instance down never removes one of its addon links. */
  lemma TeardownKeepsAddons(inst: Instance, addon: Eval.Addon, paths: Paths, paperFileName: Option<string>)
    requires AddonLink(inst, addon, paths).Some?
    ensures AddonLink(inst, addon, paths).value !in TeardownTargets(inst, paths, paperFileName)
  {
    var link := AddonLink(inst, addon, paths).value;
    assert |link| == |paths.dataDir| + 5;
  }

  /** The part of the filesystem the instance code changes. */
  class FileSystem {
    var dirs: set<Path>
    var files: set<Path>
    /** For each hard link created, the file it links to. */
    var linkSource: map<Path, Path>

    /** Every recorded link is a file. */
    predicate Valid()
      reads this
    {
      linkSource.Keys <= files
    }

    constructor(dirs: set<Path>, files: set<Path>)
      ensures this.dirs == dirs && this.files == files && linkSource == map[]
      ensures Valid()
    {
      this.dirs := dirs;
      this.files := files;
      linkSource := map[];
    }

    /** `files::create_dir`. */
    method CreateDir(d: Path)
      requires Valid()
      modifies this
      ensures Valid()
      ensures dirs == old(dirs) + {d}
      ensures files == old(files) && linkSource == old(linkSource)
    {
      dirs := dirs + {d};
    }

    /** `files::create_leading_dirs`. */
    method CreateLeadingDirs(d: Path)
      requires Valid()
      modifies this
      ensures Valid()
      ensures dirs == old(dirs) + LeadingDirs(d)
      ensures files == old(files) && linkSource == old(linkSource)
    {
      dirs := dirs + LeadingDirs(d);
    }

    /** `files::update_hardlink`: `link` becomes a link to `source`, replacing any earlier file there. */
    method UpdateHardlink(source: Path, link: Path)
      requires Valid()
      modifies this
      ensures Valid()
      ensures files == old(files) + {link}
      ensures linkSource == old(linkSource)[link := source]
      ensures dirs == old(dirs)
    {
      files := files + {link};
      linkSource := linkSource[link := source];
    }

    /** `fs::remove_file` guarded by `Path::exists`, as every caller here does. */
    method RemoveIfExists(p: Path)
      requires Valid()
      modifies this
      ensures Valid()
      ensures files == old(files) - {p}
      ensures linkSource == old(linkSource) - {p}
      ensures dirs == old(dirs)
    {
      if p in files {
        files := files - {p};
        linkSource := linkSource - {p};
      }
    }
  }

  /** `Instance::link_addon`. */
  method LinkAddon(fs: FileSystem, dir: Path, addon: Eval.Addon, paths: Paths)
    requires fs.Valid()
    modifies fs
    ensures fs.Valid()
    ensures fs.dirs == old(fs.dirs) + {dir}
    ensures fs.files == old(fs.files) + {dir + [addon.fileName]}
    ensures fs.linkSource == old(fs.linkSource)[dir + [addon.fileName] := paths.addonPath(addon)]
  {
    fs.CreateDir(dir);
    var link := dir + [addon.fileName];
    fs.UpdateHardlink(paths.addonPath(addon), link);
  }

  /** `Instance::create_addon`: the game directory and its parents exist, and the addon is linked when the instance can hold it. */
  method CreateAddon(fs: FileSystem, inst: Instance, addon: Eval.Addon, paths: Paths)
    requires fs.Valid()
    modifies fs
    ensures fs.Valid()
    ensures fs.dirs == old(fs.dirs) + LeadingDirs(GetSubdir(inst, paths)) + {GetSubdir(inst, paths)} +
                       (match LinkedAddonPath(inst, addon, paths) case None => {} case Some(d) => {d})
    ensures AddonLink(inst, addon, paths).None? ==> fs.files == old(fs.files) && fs.linkSource == old(fs.linkSource)
    ensures AddonLink(inst, addon, paths).Some? ==>
              && fs.files == old(fs.files) + {AddonLink(inst, addon, paths).value}
              && fs.linkSource == old(fs.linkSource)[AddonLink(inst, addon, paths).value := paths.addonPath(addon)]
  {
    var instDir := GetSubdir(inst, paths);
    fs.CreateLeadingDirs(instDir);
    fs.CreateDir(instDir);
    var linked := LinkedAddonPath(inst, addon, paths);
    if linked.Some? {
      LinkAddon(fs, linked.value, addon, paths);
    }
  }

  /** `Instance::remove_addon`: only the addon's own link goes, and directories stay. */
  method RemoveAddon(fs: FileSystem, inst: Instance, addon: Eval.Addon, paths: Paths)
    requires fs.Valid()
    modifies fs
    ensures fs.Valid()
    ensures fs.dirs == old(fs.dirs)
    ensures AddonLink(inst, addon, paths).None? ==> fs.files == old(fs.files) && fs.linkSource == old(fs.linkSource)
    ensures AddonLink(inst, addon, paths).Some? ==>
              && fs.files == old(fs.files) - {AddonLink(inst, addon, paths).value}
              && fs.linkSource == old(fs.linkSource) - {AddonLink(inst, addon, paths).value}
  {
    var linked := LinkedAddonPath(inst, addon, paths);
    if linked.Some? {
      var path := linked.value + [addon.fileName];
      fs.RemoveIfExists(path);
    }
  }

  /** `Instance::remove_paper`. */
  method RemovePaper(fs: FileSystem, inst: Instance, paths: Paths, paperFileName: string)
    requires fs.Valid()
    modifies fs
    ensures fs.Valid()
    ensures fs.files == old(fs.files) - {GetSubdir(inst, paths) + [paperFileName]}
    ensures fs.linkSource == old(fs.linkSource) - {GetSubdir(inst, paths) + [paperFileName]}
    ensures fs.dirs == old(fs.dirs)
  {
    var paperPath := GetSubdir(inst, paths) + [paperFileName];
    fs.RemoveIfExists(paperPath);
  }

  /** `Instance::teardown`: exactly the teardown targets are gone. */
  method Teardown(fs: FileSystem, inst: Instance, paths: Paths, paperFileName: Option<string>)
    requires fs.Valid()
    modifies fs
    ensures fs.Valid()
    ensures fs.files == old(fs.files) - TeardownTargets(inst, paths, paperFileName)
    ensures fs.linkSource == old(fs.linkSource) - TeardownTargets(inst, paths, paperFileName)
    ensures fs.dirs == old(fs.dirs)
  {
    match inst.kind {
      case Client =>
        var jarPath := GetDir(inst, paths) + ["client.jar"];
        fs.RemoveIfExists(jarPath);
      case Server =>
        var jarPath := GetSubdir(inst, paths) + ["server.jar"];
        fs.RemoveIfExists(jarPath);
        if paperFileName.Some? {
          RemovePaper(fs, inst, paths, paperFileName.value);
        }
    }
  }
}
