/** Game modifications of a profile and its per-side modloader (`src/data/config/profile.rs`). */
module ProfileConfig {
  import opened Shared
  import Versions

  datatype GameModifications = GameModifications(modloader: Modloader, clientType: ClientType, serverType: ServerType)

  /** `GameModifications::get_modloader`. */
  function GetModloader(g: GameModifications, side: Side): (m: Modloader)
  {
    match side
    case Client =>
      (match g.clientType
       case None => g.modloader
       case Vanilla => Modloader.Vanilla
       case Forge => Modloader.Forge
       case Fabric => Modloader.Fabric
       case Quilt => Modloader.Quilt)
    case Server =>
      (match g.serverType
       case None => g.modloader
       case Vanilla => Modloader.Vanilla
       case Paper => Modloader.Vanilla
       case Forge => Modloader.Forge
       case Fabric => Modloader.Fabric
       case Quilt => Modloader.Quilt)
  }

  /** The names of the modloaders, client types and server types. */
  function ModloaderName(m: Modloader): string {
    match m
    case Vanilla => "vanilla"
    case Forge => "forge"
    case Fabric => "fabric"
    case Quilt => "quilt"
  }

  function ClientTypeName(t: ClientType): string {
    match t
    case None => "none"
    case Vanilla => "vanilla"
    case Forge => "forge"
    case Fabric => "fabric"
    case Quilt => "quilt"
  }

  function ServerTypeName(t: ServerType): string {
    match t
    case None => "none"
    case Vanilla => "vanilla"
    case Paper => "paper"
    case Forge => "forge"
    case Fabric => "fabric"
    case Quilt => "quilt"
  }

  /**
   * On the client, an unset client type falls back to the configured
   * modloader and any other type gives the modloader of the same name.
   */
  lemma ClientSideModloader(g: GameModifications)
    ensures g.clientType.None? ==> GetModloader(g, Client) == g.modloader
    ensures !g.clientType.None? ==> ModloaderName(GetModloader(g, Client)) == ClientTypeName(g.clientType)
  {
  }

  /**
   * On the server, an unset server type falls back to the configured
   * modloader, Paper runs on vanilla, and any other type gives the modloader
   * of the same name.
   */
  lemma ServerSideModloader(g: GameModifications)
    ensures g.serverType.None? ==> GetModloader(g, Server) == g.modloader
    ensures g.serverType.Paper? ==> GetModloader(g, Server) == Modloader.Vanilla
    ensures !g.serverType.None? && !g.serverType.Paper? ==>
              ModloaderName(GetModloader(g, Server)) == ServerTypeName(g.serverType)
  {
  }

  /** `GameModifications::common_modloader`. */
  predicate CommonModloader(g: GameModifications) {
    match (g.clientType, g.serverType)
    case (None, None) => true
    case (Vanilla, Vanilla) => true
    case (Forge, Forge) => true
    case (Fabric, Fabric) => true
    case (Quilt, Quilt) => true
    case _ => false
  }

  /** Client and server share a modloader iff their types have the same name; a Paper server never does. */
  lemma CommonModloaderByName(g: GameModifications)
    ensures CommonModloader(g) <==> ClientTypeName(g.clientType) == ServerTypeName(g.serverType)
    ensures g.serverType.Paper? ==> !CommonModloader(g)
  {
  }

  /**
   * A common modloader is the same on both sides. (The converse does not
   * hold: a Vanilla client and a Paper server both run vanilla.)
   */
  lemma CommonModloaderSameOnBothSides(g: GameModifications)
    requires CommonModloader(g)
    ensures GetModloader(g, Client) == GetModloader(g, Server)
  {
  }

  /**
   * The profile that `to_profile` builds. `Profile` in
   * `src/data/profile/mod.rs` is from another revision; this is the shape the
   * call in `to_profile` passes to it.
   */
  datatype Profile = Profile(id: string, version: Versions.MinecraftVersion, modifications: GameModifications)

  /** The fields of a profile configuration that `to_profile` reads. */
  datatype ProfileSettings = ProfileSettings(
    version: Versions.MinecraftVersion,
    modloader: Modloader,
    clientType: ClientType,
    serverType: ServerType)

  /** `ProfileConfig::to_profile`: passes the modloader, client type and server type through unchanged. */
  function ToProfile(c: ProfileSettings, profileId: string): (p: Profile)
    ensures p.id == profileId && p.version == c.version
    ensures p.modifications.modloader == c.modloader
    ensures p.modifications.clientType == c.clientType
    ensures p.modifications.serverType == c.serverType
  {
    Profile(profileId, c.version, GameModifications(c.modloader, c.clientType, c.serverType))
  }
}
