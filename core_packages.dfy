/**
 * The core packages bundled with the launcher (`package/core/mod.rs`): a fixed table of
 * names, each with the script file compiled into the binary.
 */
module CorePackages {
  import opened Wrappers

  /** The bundled package files, one per core package. */
  datatype CorePackage =
    AnimatedTexturesSupport | CemSupport | CitSupport | CtmSupport | CustomColorsSupport | CustomGuiSupport | CustomSkySupport | EmissiveBlocksSupport | EmissiveEntitiesSupport | FabricRenderingApi | FabriclikeApi | KotlinSupport | OptifineResourcePacks | QuiltedFabricApi | QuiltStandardLibraries | RandomEntitiesSupport | ShaderSupport | SplashScreenSupport

  /** `mcvm_pkg::PackageContentType`. */
  datatype PackageContentType = Script | Declarative

  /** The name of a core package. */
  function NameOf(p: CorePackage): (name: string)
  {
    match p
    case AnimatedTexturesSupport => "animated-textures-support"
    case CemSupport => "cem-support"
    case CitSupport => "cit-support"
    case CtmSupport => "ctm-support"
    case CustomColorsSupport => "custom-colors-support"
    case CustomGuiSupport => "custom-gui-support"
    case CustomSkySupport => "custom-sky-support"
    case EmissiveBlocksSupport => "emissive-blocks-support"
    case EmissiveEntitiesSupport => "emissive-entities-support"
    case FabricRenderingApi => "fabric-rendering-api"
    case FabriclikeApi => "fabriclike-api"
    case KotlinSupport => "kotlin-support"
    case OptifineResourcePacks => "optifine-resource-packs"
    case QuiltedFabricApi => "quilted-fabric-api"
    case QuiltStandardLibraries => "quilt-standard-libraries"
    case RandomEntitiesSupport => "random-entities-support"
    case ShaderSupport => "shader-support"
    case SplashScreenSupport => "splash-screen-support"
  }

  /** The file the contents of a core package are included from. */
  function FileName(p: CorePackage): (f: string)
  {
    NameOf(p) + ".pkg.txt"
  }

  /** `get_core_package`: the bundled contents of a core package, by name. */
  function GetCorePackage(package: string): (r: Option<CorePackage>)
    ensures r.Some? ==> NameOf(r.value) == package
  {
    match package
    case "animated-textures-support" => Some(AnimatedTexturesSupport)
    case "cem-support" => Some(CemSupport)
    case "cit-support" => Some(CitSupport)
    case "ctm-support" => Some(CtmSupport)
    case "custom-colors-support" => Some(CustomColorsSupport)
    case "custom-gui-support" => Some(CustomGuiSupport)
    case "custom-sky-support" => Some(CustomSkySupport)
    case "emissive-blocks-support" => Some(EmissiveBlocksSupport)
    case "emissive-entities-support" => Some(EmissiveEntitiesSupport)
    case "fabric-rendering-api" => Some(FabricRenderingApi)
    case "fabriclike-api" => Some(FabriclikeApi)
    case "kotlin-support" => Some(KotlinSupport)
    case "optifine-resource-packs" => Some(OptifineResourcePacks)
    case "quilted-fabric-api" => Some(QuiltedFabricApi)
    case "quilt-standard-libraries" => Some(QuiltStandardLibraries)
    case "random-entities-support" => Some(RandomEntitiesSupport)
    case "shader-support" => Some(ShaderSupport)
    case "splash-screen-support" => Some(SplashScreenSupport)
    case _ => None
  }

  /** `get_core_package_content_type`: every core package is a script package. */
  function GetCorePackageContentType(package: string): (r: Option<PackageContentType>)
    ensures r.Some? ==> r.value == Script
  {
    match package
    case "animated-textures-support" => Some(Script)
    case "cem-support" => Some(Script)
    case "cit-support" => Some(Script)
    case "ctm-support" => Some(Script)
    case "custom-colors-support" => Some(Script)
    case "custom-gui-support" => Some(Script)
    case "custom-sky-support" => Some(Script)
    case "emissive-blocks-support" => Some(Script)
    case "emissive-entities-support" => Some(Script)
    case "fabric-rendering-api" => Some(Script)
    case "fabriclike-api" => Some(Script)
    case "kotlin-support" => Some(Script)
    case "optifine-resource-packs" => Some(Script)
    case "quilted-fabric-api" => Some(Script)
    case "quilt-standard-libraries" => Some(Script)
    case "random-entities-support" => Some(Script)
    case "shader-support" => Some(Script)
    case "splash-screen-support" => Some(Script)
    case _ => None
  }

  /** `is_core_package`. */
  predicate IsCorePackage(package: string)
  {
    GetCorePackage(package).Some?
  }

  /** The contents of a core package come from the file named after it. */
  lemma CorePackageFile(package: string)
    requires IsCorePackage(package)
    ensures FileName(GetCorePackage(package).value) == package + ".pkg.txt"
  {
  }

  /** A name is a core package exactly when it has a content type, and that type is Script. */
  lemma CorePackageHasContentType(package: string)
    ensures IsCorePackage(package) <==> GetCorePackageContentType(package).Some?
    ensures IsCorePackage(package) <==> GetCorePackageContentType(package) == Some(Script)
  {
  }

  /** Every bundled package is found under its own name, so the table lists exactly these names. */
  lemma GetCorePackageByName(p: CorePackage)
    ensures GetCorePackage(NameOf(p)) == Some(p)
  {
    match p
    case AnimatedTexturesSupport => assert GetCorePackage("animated-textures-support") == Some(AnimatedTexturesSupport);
    case CemSupport => assert GetCorePackage("cem-support") == Some(CemSupport);
    case CitSupport => assert GetCorePackage("cit-support") == Some(CitSupport);
    case CtmSupport => assert GetCorePackage("ctm-support") == Some(CtmSupport);
    case CustomColorsSupport => assert GetCorePackage("custom-colors-support") == Some(CustomColorsSupport);
    case CustomGuiSupport => assert GetCorePackage("custom-gui-support") == Some(CustomGuiSupport);
    case CustomSkySupport => assert GetCorePackage("custom-sky-support") == Some(CustomSkySupport);
    case EmissiveBlocksSupport => assert GetCorePackage("emissive-blocks-support") == Some(EmissiveBlocksSupport);
    case EmissiveEntitiesSupport => assert GetCorePackage("emissive-entities-support") == Some(EmissiveEntitiesSupport);
    case FabricRenderingApi => assert GetCorePackage("fabric-rendering-api") == Some(FabricRenderingApi);
    case FabriclikeApi => assert GetCorePackage("fabriclike-api") == Some(FabriclikeApi);
    case KotlinSupport => assert GetCorePackage("kotlin-support") == Some(KotlinSupport);
    case OptifineResourcePacks => assert GetCorePackage("optifine-resource-packs") == Some(OptifineResourcePacks);
    case QuiltedFabricApi => assert GetCorePackage("quilted-fabric-api") == Some(QuiltedFabricApi);
    case QuiltStandardLibraries => assert GetCorePackage("quilt-standard-libraries") == Some(QuiltStandardLibraries);
    case RandomEntitiesSupport => assert GetCorePackage("random-entities-support") == Some(RandomEntitiesSupport);
    case ShaderSupport => assert GetCorePackage("shader-support") == Some(ShaderSupport);
    case SplashScreenSupport => assert GetCorePackage("splash-screen-support") == Some(SplashScreenSupport);
  }

  /** A name finds a core package exactly when it is the name of one. */
  lemma IsCorePackageIffNamed(package: string)
    ensures IsCorePackage(package) <==> exists p :: NameOf(p) == package
  {
    if exists p :: NameOf(p) == package {
      var p :| NameOf(p) == package;
      GetCorePackageByName(p);
    }
  }

  /** Different names give different bundled packages. */
  lemma CorePackagesDistinct(p: string, q: string)
    ensures IsCorePackage(p) && IsCorePackage(q) && GetCorePackage(p) == GetCorePackage(q) ==> p == q
  {
  }
}
