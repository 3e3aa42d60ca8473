/** Asset kinds and the asset-level modloader names (`src/data/asset.rs`). */
module Asset {
  import opened Wrappers

  datatype AssetKind = ResourcePack | Datapack | Mod | Plugin | World

  /** The configuration name of each kind. */
  function KindName(k: AssetKind): string {
    match k
    case ResourcePack => "resource_pack"
    case Datapack => "datapack"
    case Mod => "mod"
    case Plugin => "plugin"
    case World => "world"
  }

  /** `AssetKind::from_str`. */
  function KindFromStr(s: string): (r: Option<AssetKind>) {
    match s
    case "resource_pack" => Some(ResourcePack)
    case "datapack" => Some(Datapack)
    case "mod" => Some(Mod)
    case "plugin" => Some(Plugin)
    case "world" => Some(World)
    case _ => None
  }

  /** `AssetKind::from_str` accepts exactly the five names, each giving its own kind. */
  lemma KindFromStrExact(s: string)
    ensures KindFromStr(s).Some? <==> exists k: AssetKind :: KindName(k) == s
    ensures KindFromStr(s).Some? ==> KindName(KindFromStr(s).value) == s
  {
    if KindFromStr(s).Some? {
      assert KindName(KindFromStr(s).value) == s;
    }
  }

  /** Reading a kind's name gives the kind back. */
  lemma KindRoundTrip(k: AssetKind)
    ensures KindFromStr(KindName(k)) == Some(k)
  {
  }

  /** The match is case-sensitive. */
  lemma KindCaseSensitive()
    ensures KindFromStr("Mod") == None
  {
  }

  datatype Modloader = Forge | Fabric

  function ModloaderName(m: Modloader): string {
    match m
    case Forge => "forge"
    case Fabric => "fabric"
  }

  /** `Modloader::from_str`. */
  function ModloaderFromStr(s: string): (r: Option<Modloader>) {
    match s
    case "forge" => Some(Forge)
    case "fabric" => Some(Fabric)
    case _ => None
  }

  /** `Modloader::from_str` accepts exactly `forge` and `fabric`, each giving its own modloader. */
  lemma ModloaderFromStrExact(s: string)
    ensures ModloaderFromStr(s).Some? <==> s == ModloaderName(Forge) || s == ModloaderName(Fabric)
    ensures ModloaderFromStr(s).Some? ==> ModloaderName(ModloaderFromStr(s).value) == s
    ensures forall m: Modloader :: ModloaderFromStr(ModloaderName(m)) == Some(m)
  {
  }

  /** The match is case-sensitive. */
  lemma ModloaderCaseSensitive()
    ensures ModloaderFromStr("Forge") == None
  {
  }

  datatype Asset = Asset(kind: AssetKind, name: string)

  /** `Asset::new` stores the kind and the name unchanged. */
  function NewAsset(kind: AssetKind, name: string): (a: Asset)
    ensures a.kind == kind && a.name == name
  {
    Asset(kind, name)
  }
}
