/**
 * Types the core takes from the `mcvm_shared` crate. Only the variants the
 * modelled code matches on are listed; the vocabularies whose definitions are
 * not part of this model (modloader and plugin-loader match patterns, package
 * stability, language) are opaque types.
 */
module Shared {
  /** Which side of the game an instance or package targets. */
  datatype Side = Client | Server

  /** Modloader of a side. */
  datatype Modloader = Vanilla | Forge | Fabric | Quilt

  /** Configured client type. */
  datatype ClientType = None | Vanilla | Forge | Fabric | Quilt

  /** Configured server type. */
  datatype ServerType = None | Vanilla | Paper | Forge | Fabric | Quilt

  /** Kinds of addon a package can install. */
  datatype AddonKind = Mod | ResourcePack | Shader | Plugin

  /** A value that is filled in later (`Later::Empty` / `Later::Full`). */
  datatype Later<T> = Empty | Full(value: T)

  /** Pattern over modloaders accepted by a condition or a package property. */
  type ModloaderMatch(==)
  /** Pattern over plugin loaders accepted by a condition or a package property. */
  type PluginLoaderMatch(==)
  /** Package stability setting. */
  type PackageStability(==)
  /** Game language. */
  type Language(==)

  /** Identifier of a package (its name and requested version). */
  datatype PkgIdentifier = PkgIdentifier(name: string, version: nat)

  /** A filesystem path as its sequence of components; `join` appends one. */
  type Path = seq<string>
}
