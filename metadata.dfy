/**
 * Package metadata from the `meta` routine (`crates/mcvm_parse/src/metadata.rs`).
 * `MetaFold` is the loop of `eval_metadata` as a function over the prefix of
 * the block read so far; `EvalMetadata` is the loop itself.
 */
module Metadata {
  import opened Wrappers
  import Shared
  import Instructions

  datatype PackageMetadata = PackageMetadata(
    name: Option<string>,
    description: Option<string>,
    longDescription: Option<string>,
    version: Option<string>,
    authors: Option<seq<string>>,
    packageMaintainers: Option<seq<string>>,
    website: Option<string>,
    supportLink: Option<string>,
    documentation: Option<string>,
    source: Option<string>,
    issues: Option<string>,
    community: Option<string>,
    icon: Option<string>,
    banner: Option<string>,
    license: Option<string>)

  /** `PackageMetadata::default`: every field unset. */
  const DEFAULT_METADATA: PackageMetadata :=
    PackageMetadata(None, None, None, None, None, None, None, None, None, None, None, None, None, None, None)

  datatype MetaError =
    | NotAllowed
      /** Reading an argument the parser never filled in (`Later::get_clone`): a panic in the source. */
    | Panic

  /** `Later::get_clone`. */
  function Text(t: Shared.Later<string>): (r: Result<string, MetaError>)
    ensures r.Ok? <==> t.Full?
    ensures r.Ok? ==> r.value == t.value
  {
    match t
    case Empty => Err(Panic)
    case Full(s) => Ok(s)
  }

  /** One instruction of the `meta` block. */
  function Apply(m: PackageMetadata, k: Instructions.InstrKind): Result<PackageMetadata, MetaError> {
    match k
    case Name(t) => (match Text(t) case Err(e) => Err(e) case Ok(s) => Ok(m.(name := Some(s))))
    case Description(t) => (match Text(t) case Err(e) => Err(e) case Ok(s) => Ok(m.(description := Some(s))))
    case LongDescription(t) => (match Text(t) case Err(e) => Err(e) case Ok(s) => Ok(m.(longDescription := Some(s))))
    case Version(t) => (match Text(t) case Err(e) => Err(e) case Ok(s) => Ok(m.(version := Some(s))))
    case Authors(names) => Ok(m.(authors := Some(names)))
    case PackageMaintainers(names) => Ok(m.(packageMaintainers := Some(names)))
    case Website(t) => (match Text(t) case Err(e) => Err(e) case Ok(s) => Ok(m.(website := Some(s))))
    case SupportLink(t) => (match Text(t) case Err(e) => Err(e) case Ok(s) => Ok(m.(supportLink := Some(s))))
    case Documentation(t) => (match Text(t) case Err(e) => Err(e) case Ok(s) => Ok(m.(documentation := Some(s))))
    case Source(t) => (match Text(t) case Err(e) => Err(e) case Ok(s) => Ok(m.(source := Some(s))))
    case Issues(t) => (match Text(t) case Err(e) => Err(e) case Ok(s) => Ok(m.(issues := Some(s))))
    case Community(t) => (match Text(t) case Err(e) => Err(e) case Ok(s) => Ok(m.(community := Some(s))))
    case Icon(t) => (match Text(t) case Err(e) => Err(e) case Ok(s) => Ok(m.(icon := Some(s))))
    case Banner(t) => (match Text(t) case Err(e) => Err(e) case Ok(s) => Ok(m.(banner := Some(s))))
    case License(t) => (match Text(t) case Err(e) => Err(e) case Ok(s) => Ok(m.(license := Some(s))))
    case _ => Err(NotAllowed)
  }

  /** The instructions applied in order from `m`; the first error stops the loop. */
  function MetaFold(m: PackageMetadata, instrs: seq<Instructions.Instruction>): Result<PackageMetadata, MetaError>
    decreases |instrs|
  {
    if instrs == [] then Ok(m)
    else
      match MetaFold(m, instrs[..|instrs| - 1])
      case Err(e) => Err(e)
      case Ok(m') => Apply(m', instrs[|instrs| - 1].kind)
  }

  /** `eval_metadata`: the `meta` block folded from the default, or the default when there is no such block. */
  function MetadataSpec(parsed: Instructions.Parsed): Result<PackageMetadata, MetaError> {
    if Instructions.METADATA_ROUTINE in parsed.routines && parsed.routines[Instructions.METADATA_ROUTINE] in parsed.blocks then
      MetaFold(DEFAULT_METADATA, parsed.blocks[parsed.routines[Instructions.METADATA_ROUTINE]].contents)
    else
      Ok(DEFAULT_METADATA)
  }

  /** `eval_metadata`. */
  method EvalMetadata(parsed: Instructions.Parsed) returns (r: Result<PackageMetadata, MetaError>)
    ensures r == MetadataSpec(parsed)
  {
    if Instructions.METADATA_ROUTINE !in parsed.routines {
      return Ok(DEFAULT_METADATA);
    }
    var routineId := parsed.routines[Instructions.METADATA_ROUTINE];
    if routineId !in parsed.blocks {
      return Ok(DEFAULT_METADATA);
    }
    var contents := parsed.blocks[routineId].contents;
    var out := DEFAULT_METADATA;
    r := Ok(out);
    var i := 0;
    while i < |contents|
      invariant 0 <= i <= |contents|
      invariant MetaFold(DEFAULT_METADATA, contents[..i]) == Ok(out)
      invariant r == Ok(out)
    {
      assert contents[..i + 1][..i] == contents[..i];
      var next := Apply(out, contents[i].kind);
      if next.Err? {
        r := next;
        break;
      }
      out := next.value;
      i := i + 1;
      r := Ok(out);
    }
    if r.Err? {
      assert MetaFold(DEFAULT_METADATA, contents[..i + 1]) == r;
      ErrSticks(DEFAULT_METADATA, contents, i + 1);
    } else {
      assert contents[..i] == contents;
    }
  }

  /** The first error ends the loop: a failing prefix fails the whole sequence the same way. */
  lemma {:induction false} ErrSticks(m: PackageMetadata, instrs: seq<Instructions.Instruction>, n: nat)
    requires n <= |instrs|
    ensures MetaFold(m, instrs[..n]).Err? ==> MetaFold(m, instrs) == MetaFold(m, instrs[..n])
    decreases |instrs| - n
  {
    if n == |instrs| {
      assert instrs[..n] == instrs;
    } else if MetaFold(m, instrs[..n]).Err? {
      ErrSticks(m, instrs[..|instrs| - 1], n);
      assert instrs[..|instrs| - 1][..n] == instrs[..n];
    }
  }

  /** The fields of the metadata, to speak of them one at a time. */
  datatype Field =
    | FName | FDescription | FLongDescription | FVersion | FAuthors | FPackageMaintainers | FWebsite
    | FSupportLink | FDocumentation | FSource | FIssues | FCommunity | FIcon | FBanner | FLicense

  datatype FieldValue = Text(text: string) | Names(names: seq<string>)

  function Lift(o: Option<string>): Option<FieldValue> {
    match o
    case None => None
    case Some(s) => Some(FieldValue.Text(s))
  }

  function LiftNames(o: Option<seq<string>>): Option<FieldValue> {
    match o
    case None => None
    case Some(s) => Some(Names(s))
  }

  /** The value of one field. */
  function Get(m: PackageMetadata, f: Field): Option<FieldValue> {
    match f
    case FName => Lift(m.name)
    case FDescription => Lift(m.description)
    case FLongDescription => Lift(m.longDescription)
    case FVersion => Lift(m.version)
    case FAuthors => LiftNames(m.authors)
    case FPackageMaintainers => LiftNames(m.packageMaintainers)
    case FWebsite => Lift(m.website)
    case FSupportLink => Lift(m.supportLink)
    case FDocumentation => Lift(m.documentation)
    case FSource => Lift(m.source)
    case FIssues => Lift(m.issues)
    case FCommunity => Lift(m.community)
    case FIcon => Lift(m.icon)
    case FBanner => Lift(m.banner)
    case FLicense => Lift(m.license)
  }

  /** The field a metadata instruction sets. */
  function FieldOf(k: Instructions.InstrKind): (f: Option<Field>)
    ensures f.Some? <==> Instructions.IsMetadata(k)
  {
    match k
    case Name(_) => Some(FName)
    case Description(_) => Some(FDescription)
    case LongDescription(_) => Some(FLongDescription)
    case Version(_) => Some(FVersion)
    case Authors(_) => Some(FAuthors)
    case PackageMaintainers(_) => Some(FPackageMaintainers)
    case Website(_) => Some(FWebsite)
    case SupportLink(_) => Some(FSupportLink)
    case Documentation(_) => Some(FDocumentation)
    case Source(_) => Some(FSource)
    case Issues(_) => Some(FIssues)
    case Community(_) => Some(FCommunity)
    case Icon(_) => Some(FIcon)
    case Banner(_) => Some(FBanner)
    case License(_) => Some(FLicense)
    case _ => None
  }

  /** The value a metadata instruction carries, when it has one. */
  function ValueOf(k: Instructions.InstrKind): Option<FieldValue> {
    match k
    case Authors(names) => Some(Names(names))
    case PackageMaintainers(names) => Some(Names(names))
    case Name(t) => if t.Full? then Some(FieldValue.Text(t.value)) else None
    case Description(t) => if t.Full? then Some(FieldValue.Text(t.value)) else None
    case LongDescription(t) => if t.Full? then Some(FieldValue.Text(t.value)) else None
    case Version(t) => if t.Full? then Some(FieldValue.Text(t.value)) else None
    case Website(t) => if t.Full? then Some(FieldValue.Text(t.value)) else None
    case SupportLink(t) => if t.Full? then Some(FieldValue.Text(t.value)) else None
    case Documentation(t) => if t.Full? then Some(FieldValue.Text(t.value)) else None
    case Source(t) => if t.Full? then Some(FieldValue.Text(t.value)) else None
    case Issues(t) => if t.Full? then Some(FieldValue.Text(t.value)) else None
    case Community(t) => if t.Full? then Some(FieldValue.Text(t.value)) else None
    case Icon(t) => if t.Full? then Some(FieldValue.Text(t.value)) else None
    case Banner(t) => if t.Full? then Some(FieldValue.Text(t.value)) else None
    case License(t) => if t.Full? then Some(FieldValue.Text(t.value)) else None
    case _ => None
  }

  /** An instruction the `meta` routine accepts: a metadata instruction with its argument. */
  predicate Accepted(k: Instructions.InstrKind) {
    FieldOf(k).Some? && ValueOf(k).Some?
  }

  /** One instruction sets exactly its own field, or fails when it is not an accepted metadata instruction. */
  lemma ApplySetsOwnField(m: PackageMetadata, k: Instructions.InstrKind, f: Field)
    ensures Apply(m, k).Ok? <==> Accepted(k)
    ensures !Instructions.IsMetadata(k) ==> Apply(m, k) == Err(NotAllowed)
    ensures Apply(m, k).Ok? ==>
              Get(Apply(m, k).value, f) == if FieldOf(k) == Some(f) then ValueOf(k) else Get(m, f)
  {
    ApplyOk(m, k);
    ApplyGet(m, k, f);
  }

  /** An instruction applies exactly when it is accepted; any other instruction is not allowed. */
  lemma ApplyOk(m: PackageMetadata, k: Instructions.InstrKind)
    ensures Apply(m, k).Ok? <==> Accepted(k)
    ensures !Instructions.IsMetadata(k) ==> Apply(m, k) == Err(NotAllowed)
  {
  }

  /** The field an instruction sets takes its value, and every other field keeps its own. */
  lemma ApplyGet(m: PackageMetadata, k: Instructions.InstrKind, f: Field)
    ensures Apply(m, k).Ok? ==>
              Get(Apply(m, k).value, f) == if FieldOf(k) == Some(f) then ValueOf(k) else Get(m, f)
  {
    if Apply(m, k).Ok? {
      if FieldOf(k) == Some(f) {
        ApplyGetOwn(m, k);
      } else {
        ApplyGetOther(m, k, f);
      }
    }
  }

  /** The field the instruction names holds its value. */
  lemma ApplyGetOwn(m: PackageMetadata, k: Instructions.InstrKind)
    requires Apply(m, k).Ok?
    ensures FieldOf(k).Some? && Get(Apply(m, k).value, FieldOf(k).value) == ValueOf(k)
  {
  }

  /** A field the instruction does not name is unchanged. */
  lemma ApplyGetOther(m: PackageMetadata, k: Instructions.InstrKind, f: Field)
    requires Apply(m, k).Ok? && FieldOf(k) != Some(f)
    ensures Get(Apply(m, k).value, f) == Get(m, f)
  {
  }

  /** The value of the last instruction of the sequence that sets field `f`, if any. */
  function Last(instrs: seq<Instructions.Instruction>, f: Field): Option<FieldValue>
    decreases |instrs|
  {
    if instrs == [] then None
    else if FieldOf(instrs[|instrs| - 1].kind) == Some(f) then ValueOf(instrs[|instrs| - 1].kind)
    else Last(instrs[..|instrs| - 1], f)
  }

  /** The loop succeeds exactly when every instruction is accepted. */
  lemma {:induction false} MetaFoldOk(m: PackageMetadata, instrs: seq<Instructions.Instruction>)
    ensures MetaFold(m, instrs).Ok? <==> forall i :: 0 <= i < |instrs| ==> Accepted(instrs[i].kind)
    decreases |instrs|
  {
    if instrs != [] {
      var init := instrs[..|instrs| - 1];
      MetaFoldOk(m, init);
      assert forall i :: 0 <= i < |init| ==> init[i] == instrs[i];
      if MetaFold(m, init).Ok? {
        ApplySetsOwnField(MetaFold(m, init).value, instrs[|instrs| - 1].kind, FName);
      }
    }
  }

  /** The last instruction of a field's kind wins; fields no instruction sets keep their value. */
  lemma {:induction false} LastWins(m: PackageMetadata, instrs: seq<Instructions.Instruction>, f: Field)
    ensures MetaFold(m, instrs).Ok? ==>
              Get(MetaFold(m, instrs).value, f) == if Last(instrs, f).Some? then Last(instrs, f) else Get(m, f)
    decreases |instrs|
  {
    if instrs != [] {
      var init := instrs[..|instrs| - 1];
      LastWins(m, init, f);
      if MetaFold(m, init).Ok? {
        ApplySetsOwnField(MetaFold(m, init).value, instrs[|instrs| - 1].kind, f);
      }
    }
  }

  /**
   * `eval_metadata`: without a `meta` routine or its block, the default;
   * otherwise each field holds the value of the last instruction that sets
   * it, or stays unset; any other instruction is an error.
   */
  lemma MetadataResult(parsed: Instructions.Parsed, f: Field)
    ensures Instructions.METADATA_ROUTINE !in parsed.routines ==> MetadataSpec(parsed) == Ok(DEFAULT_METADATA)
    ensures Instructions.METADATA_ROUTINE in parsed.routines && parsed.routines[Instructions.METADATA_ROUTINE] !in parsed.blocks ==>
              MetadataSpec(parsed) == Ok(DEFAULT_METADATA)
    ensures Instructions.METADATA_ROUTINE in parsed.routines && parsed.routines[Instructions.METADATA_ROUTINE] in parsed.blocks ==>
              var contents := parsed.blocks[parsed.routines[Instructions.METADATA_ROUTINE]].contents;
              && (MetadataSpec(parsed).Ok? <==> forall i :: 0 <= i < |contents| ==> Accepted(contents[i].kind))
              && (MetadataSpec(parsed).Ok? ==> Get(MetadataSpec(parsed).value, f) == Last(contents, f))
  {
    if Instructions.METADATA_ROUTINE in parsed.routines && parsed.routines[Instructions.METADATA_ROUTINE] in parsed.blocks {
      var contents := parsed.blocks[parsed.routines[Instructions.METADATA_ROUTINE]].contents;
      MetaFoldOk(DEFAULT_METADATA, contents);
      LastWins(DEFAULT_METADATA, contents, f);
    }
  }
}
