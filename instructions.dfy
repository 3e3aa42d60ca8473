/**
 * The parsed form of a package script: instructions, blocks and routines.
 * The parser that builds it is not part of this model; these are the shapes
 * the evaluators match on.
 */
module Instructions {
  import opened Wrappers
  import opened Shared
  import opened Values
  import Lexer
  import Conditions

  type BlockId = nat

  /** The reason a `fail` instruction gives; its vocabulary is not part of this model. */
  type FailReason(==)

  /** One alternative of a `require` group. */
  datatype RequiredValue = RequiredValue(value: Value, explicit: bool)

  datatype InstrKind =
      /** Metadata instructions, read by the `meta` routine; their argument is filled in by the parser. */
    | Name(text: Later<string>)
    | Description(text: Later<string>)
    | LongDescription(text: Later<string>)
    | Version(text: Later<string>)
    | Authors(names: seq<string>)
    | PackageMaintainers(names: seq<string>)
    | Website(text: Later<string>)
    | SupportLink(text: Later<string>)
    | Documentation(text: Later<string>)
    | Source(text: Later<string>)
    | Issues(text: Later<string>)
    | Community(text: Later<string>)
    | Icon(text: Later<string>)
    | Banner(text: Later<string>)
    | License(text: Later<string>)
      /** Control and relation instructions. */
    | If(condition: Conditions.ConditionKind, block: BlockId)
    | Set(variable: Later<string>, value: Value)
    | Finish
    | Fail(reason: Option<FailReason>)
    | Require(groups: seq<seq<RequiredValue>>)
    | Refuse(package: Value)
    | Recommend(package: Value)
    | Bundle(package: Value)
    | Compat(package: Value, compat: Value)
    | Extend(package: Value)
    | Notice(message: Value)
    | Cmd(command: seq<Value>)
    | Addon(id: Value, fileName: Value, kind: Option<AddonKind>, url: Value, path: Value, version: Value)

  /** The metadata instructions. */
  predicate IsMetadata(k: InstrKind) {
    || k.Name? || k.Description? || k.LongDescription? || k.Version? || k.Authors?
    || k.PackageMaintainers? || k.Website? || k.SupportLink? || k.Documentation? || k.Source?
    || k.Issues? || k.Community? || k.Icon? || k.Banner? || k.License?
  }

  datatype Instruction = Instruction(kind: InstrKind, pos: Lexer.TextPos)

  datatype Block = Block(contents: seq<Instruction>)

  /** Routine names bound to blocks, and the blocks by id. */
  datatype Parsed = Parsed(routines: map<string, BlockId>, blocks: map<BlockId, Block>)

  /** The name of the install routine (`INSTALL_ROUTINE`). */
  const INSTALL_ROUTINE: string := "install"
  /** The name of the metadata routine (`METADATA_ROUTINE`). */
  const METADATA_ROUTINE: string := "meta"
}
