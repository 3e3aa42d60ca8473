/** `Instance::get_requirements` (`src/data/instance/create.rs`). */
module Create {
  import Shared
  import Instance
  import ProfileConfig
  import opened UpdateManager

  /** The Java installation to require: the Adoptium version is chosen during the update, so it is left empty. */
  function RequiredJava(java: JavaKind): (r: JavaKind)
    ensures java.Adoptium? ==> r == Adoptium(Shared.Later.Empty)
    ensures !java.Adoptium? ==> r == java
  {
    match java
    case Adoptium(_) => Adoptium(Shared.Later.Empty)
    case OtherJava(_) => java
  }

  /** `Instance::get_requirements`, for an instance of kind `kind` with its launch Java and game modifications. */
  method GetRequirements(kind: Instance.InstKind, java: JavaKind, modifications: ProfileConfig.GameModifications)
    returns (out: set<UpdateRequirement>)
    ensures ClientJson in out && Options in out
    ensures Java(RequiredJava(java)) in out
    ensures GameJar(Instance.ToSide(kind)) in out
    ensures forall j :: Java(j) in out ==> j == RequiredJava(java)
    ensures forall s :: GameJar(s) in out ==> s == Instance.ToSide(kind)
    ensures forall m, s ::
              FabricQuilt(m, s) in out <==>
              && s == Instance.ToSide(kind)
              && ProfileConfig.GetModloader(modifications, s) == (match m case Fabric => Shared.Modloader.Fabric case Quilt => Shared.Modloader.Quilt)
    ensures GameAssets in out <==> kind == Instance.Client
    ensures GameLibraries in out <==> kind == Instance.Client
    ensures ClientLoggingConfig !in out
  {
    out := {};
    out := out + {ClientJson};
    var javaKind := match java
      case Adoptium(_) => Adoptium(Shared.Later.Empty)
      case OtherJava(_) => java;
    out := out + {Java(javaKind)};
    var side := Instance.ToSide(kind);
    out := out + {GameJar(side)};
    match ProfileConfig.GetModloader(modifications, side) {
      case Fabric =>
        out := out + {FabricQuilt(FabricQuiltMode.Fabric, side)};
      case Quilt =>
        out := out + {FabricQuilt(FabricQuiltMode.Quilt, side)};
      case _ =>
    }
    out := out + {Options};
    match kind {
      case Client =>
        out := out + {GameAssets};
        out := out + {GameLibraries};
      case Server =>
    }
  }
}
