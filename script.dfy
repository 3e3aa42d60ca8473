/**
 * The script-package evaluator (`src/package/eval/script.rs`).
 *
 * `InstrSpec` and `SeqSpec` say what one instruction and a sequence of
 * instructions do to the accumulated fields of `EvalData`, and whether they
 * finish the routine; `ScriptSpec` is a whole routine. The methods
 * `EvalInstr`, `EvalBlock` and `EvalScriptPackage` are the source's loops
 * over the mutable `EvalData`, proved to follow them. After an error the
 * source has partly updated `EvalData`; its caller drops it, and the
 * contracts say nothing about it.
 *
 * `If` recursion: the blocks form a tree in the source, so every `If`
 * points to a block of smaller rank; the ghost `rank` map makes that
 * explicit (`Ranked`).
 */
module Script {
  import opened Wrappers
  import Shared
  import Values
  import Text
  import Instructions
  import opened Eval

  type Blocks = map<Instructions.BlockId, Instructions.Block>

  /** What evaluation reads besides the accumulator: the external functions, the input, the package and the level. */
  datatype Ctx = Ctx(x: Externals, input: EvalInput, id: Shared.PkgIdentifier, level: EvalLevel)

  /** An `If` points to a block of rank below `bound`. */
  predicate Below(instr: Instructions.Instruction, blocks: Blocks, rank: map<Instructions.BlockId, nat>, bound: nat) {
    instr.kind.If? && instr.kind.block in blocks ==> instr.kind.block in rank && rank[instr.kind.block] < bound
  }

  predicate AllBelow(instrs: seq<Instructions.Instruction>, blocks: Blocks, rank: map<Instructions.BlockId, nat>, bound: nat) {
    forall i :: 0 <= i < |instrs| ==> Below(instrs[i], blocks, rank, bound)
  }

  /** Every `If` of a block points to a block of smaller rank: the block graph is a tree. */
  predicate Ranked(blocks: Blocks, rank: map<Instructions.BlockId, nat>) {
    forall b :: b in blocks ==> b in rank && AllBelow(blocks[b].contents, blocks, rank, rank[b])
  }

  /** `EvalResult`: the accumulator after an instruction, and its `finish` flag. */
  datatype Outcome = Outcome(acc: Accum, finish: bool)

  /** `get_value_vec`: every value resolved, or the first error. */
  function GetValueVec(x: Externals, vals: seq<Values.Value>, vars: map<string, string>): (r: Result<seq<string>, EvalError>)
    ensures r.Ok? <==> forall i :: 0 <= i < |vals| ==> x.get(vals[i], vars).Ok?
    ensures r.Ok? ==> |r.value| == |vals| && forall i :: 0 <= i < |vals| ==> x.get(vals[i], vars) == Ok(r.value[i])
    ensures r.Err? ==> exists i :: 0 <= i < |vals| && x.get(vals[i], vars).Err?
                                   && r.error == ValueFailed(x.get(vals[i], vars).error)
                                   && forall j :: 0 <= j < i ==> x.get(vals[j], vars).Ok?
    decreases |vals|
  {
    if vals == [] then Ok([])
    else
      match x.get(vals[0], vars)
      case Err(m) => Err(ValueFailed(m))
      case Ok(s) =>
        match GetValueVec(x, vals[1..], vars)
        case Err(e) =>
          ghost var i :| 0 <= i < |vals[1..]| && x.get(vals[1..][i], vars).Err?
                         && e == ValueFailed(x.get(vals[1..][i], vars).error)
                         && forall j :: 0 <= j < i ==> x.get(vals[1..][j], vars).Ok?;
          assert x.get(vals[i + 1], vars).Err?;
          Err(e)
        case Ok(rest) => Ok([s] + rest)
  }

  /** The packages of one `require` group, resolved in order. */
  function ResolveGroup(x: Externals, group: seq<Instructions.RequiredValue>, vars: map<string, string>): (r: Result<seq<RequiredPackage>, EvalError>)
    ensures r.Ok? <==> forall i :: 0 <= i < |group| ==> x.get(group[i].value, vars).Ok?
    ensures r.Ok? ==> (|r.value| == |group| &&
              forall i :: 0 <= i < |group| ==>
                r.value[i] == RequiredPackage(x.get(group[i].value, vars).value, group[i].explicit))
    decreases |group|
  {
    if group == [] then Ok([])
    else
      match x.get(group[0].value, vars)
      case Err(m) => Err(ValueFailed(m))
      case Ok(s) =>
        match ResolveGroup(x, group[1..], vars)
        case Err(e) =>
          assert !x.get(group[1..][0].value, vars).Ok? || exists i :: 1 <= i < |group| && !x.get(group[i].value, vars).Ok? by {
            var i :| 0 <= i < |group[1..]| && !x.get(group[1..][i].value, vars).Ok?;
            assert group[1..][i] == group[i + 1];
          }
          Err(e)
        case Ok(rest) => Ok([RequiredPackage(s, group[0].explicit)] + rest)
  }

  /** The groups of a `require`, each resolved in order. */
  function ResolveGroups(x: Externals, groups: seq<seq<Instructions.RequiredValue>>, vars: map<string, string>): (r: Result<seq<seq<RequiredPackage>>, EvalError>)
    ensures r.Ok? <==> forall i :: 0 <= i < |groups| ==> ResolveGroup(x, groups[i], vars).Ok?
    ensures r.Ok? ==> (|r.value| == |groups| &&
              forall i :: 0 <= i < |groups| ==> ResolveGroup(x, groups[i], vars) == Ok(r.value[i]))
    decreases |groups|
  {
    if groups == [] then Ok([])
    else
      match ResolveGroup(x, groups[0], vars)
      case Err(e) => Err(e)
      case Ok(g) =>
        match ResolveGroups(x, groups[1..], vars)
        case Err(e) =>
          assert exists i :: 1 <= i < |groups| && !ResolveGroup(x, groups[i], vars).Ok? by {
            var i :| 0 <= i < |groups[1..]| && !ResolveGroup(x, groups[1..][i], vars).Ok?;
            assert groups[1..][i] == groups[i + 1];
          }
          Err(e)
        case Ok(rest) => Ok([g] + rest)
  }

  /** Some addon already requested has this id. */
  predicate HasAddonId(reqs: seq<AddonRequest>, id: string) {
    exists i :: 0 <= i < |reqs| && reqs[i].addon.id == id
  }

  /** The `addon` instruction at install level. */
  function AddonSpec(
    ctx: Ctx, acc: Accum, idVal: Values.Value, fileName: Values.Value, kind: Option<Shared.AddonKind>,
    url: Values.Value, path: Values.Value, version: Values.Value): (r: Result<Outcome, EvalError>)
    ensures r.Ok? ==> !r.value.finish && r.value.acc == acc.(addonReqs := r.value.acc.addonReqs)
    ensures r.Ok? ==>
              var reqs := r.value.acc.addonReqs;
              |reqs| == |acc.addonReqs| + 1 && reqs[..|acc.addonReqs|] == acc.addonReqs
              && ctx.x.get(idVal, acc.vars) == Ok(reqs[|acc.addonReqs|].addon.id)
              && !HasAddonId(acc.addonReqs, reqs[|acc.addonReqs|].addon.id)
    ensures ctx.x.get(idVal, acc.vars).Ok? && HasAddonId(acc.addonReqs, ctx.x.get(idVal, acc.vars).value) ==>
              r == Err(DuplicateAddon(ctx.x.get(idVal, acc.vars).value))
  {
    var x, vars := ctx.x, acc.vars;
    match x.get(idVal, vars)
    case Err(m) => Err(ValueFailed(m))
    case Ok(id) =>
      if HasAddonId(acc.addonReqs, id) then Err(DuplicateAddon(id))
      else if kind.None? then Err(Panic("Addon kind missing"))
      else
        match x.getOption(url, vars)
        case Err(m) => Err(ValueFailed(m))
        case Ok(u) =>
          match x.getOption(path, vars)
          case Err(m) => Err(ValueFailed(m))
          case Ok(p) =>
            match x.getOption(fileName, vars)
            case Err(m) => Err(ValueFailed(m))
            case Ok(f) =>
              match x.getOption(version, vars)
              case Err(m) => Err(ValueFailed(m))
              case Ok(v) =>
                match CreateValidAddonRequest(x, id, u, p, kind.value, f, v, ctx.id,
                                              AddonHashes(Option.None, Option.None), ctx.input.params.perms)
                case Err(e) => Err(e)
                case Ok(req) =>
                  assert (acc.addonReqs + [req])[..|acc.addonReqs|] == acc.addonReqs;
                  Ok(Outcome(acc.(addonReqs := acc.addonReqs + [req]), false))
  }

  /** A value resolved and appended to one of the relation lists. */
  function Push(x: Externals, v: Values.Value, vars: map<string, string>, list: seq<string>): (r: Result<seq<string>, EvalError>)
    ensures r.Ok? <==> x.get(v, vars).Ok?
    ensures r.Ok? ==> r.value == list + [x.get(v, vars).value]
  {
    match x.get(v, vars)
    case Err(m) => Err(ValueFailed(m))
    case Ok(s) => Ok(list + [s])
  }

  /** `set`: binds the variable to the value resolved against the current bindings. */
  function SetSpec(ctx: Ctx, acc: Accum, v: Shared.Later<string>, value: Values.Value): (r: Result<Outcome, EvalError>)
    ensures r.Ok? ==> v.Full? && ctx.x.get(value, acc.vars).Ok? &&
                      r.value == Outcome(acc.(vars := acc.vars[v.value := ctx.x.get(value, acc.vars).value]), false)
  {
    match v
    case Empty => Err(Panic("Later value is empty"))
    case Full(name) =>
      match ctx.x.get(value, acc.vars)
      case Err(m) => Err(ValueFailed(m))
      case Ok(s) => Ok(Outcome(acc.(vars := acc.vars[name := s]), false))
  }

  /** The relation instructions, evaluated only at resolve level. */
  predicate IsRelation(k: Instructions.InstrKind) {
    k.Require? || k.Refuse? || k.Recommend? || k.Bundle? || k.Compat? || k.Extend?
  }

  /** A relation instruction at resolve level: appends to its own list (any other kind changes nothing). */
  function RelationSpec(ctx: Ctx, acc: Accum, k: Instructions.InstrKind): (r: Result<Outcome, EvalError>)
    ensures r.Ok? ==> !r.value.finish
  {
    var x, vars := ctx.x, acc.vars;
    match k
    case Require(groups) =>
      (match ResolveGroups(x, groups, vars)
       case Err(e) => Err(e)
       case Ok(gs) => Ok(Outcome(acc.(deps := acc.deps + gs), false)))
    case Refuse(p) =>
      (match Push(x, p, vars, acc.conflicts)
       case Err(e) => Err(e)
       case Ok(l) => Ok(Outcome(acc.(conflicts := l), false)))
    case Recommend(p) =>
      (match Push(x, p, vars, acc.recommendations)
       case Err(e) => Err(e)
       case Ok(l) => Ok(Outcome(acc.(recommendations := l), false)))
    case Bundle(p) =>
      (match Push(x, p, vars, acc.bundled)
       case Err(e) => Err(e)
       case Ok(l) => Ok(Outcome(acc.(bundled := l), false)))
    case Compat(p, c) =>
      (match x.get(p, vars)
       case Err(m) => Err(ValueFailed(m))
       case Ok(s) =>
         match x.get(c, vars)
         case Err(m) => Err(ValueFailed(m))
         case Ok(t) => Ok(Outcome(acc.(compats := acc.compats + [(s, t)]), false)))
    case Extend(p) =>
      (match Push(x, p, vars, acc.extensions)
       case Err(e) => Err(e)
       case Ok(l) => Ok(Outcome(acc.(extensions := l), false)))
    case _ => Ok(Outcome(acc, false))
  }

  /** `notice`, at either level: at most ten recorded before, at most 128 bytes. */
  function NoticeSpec(ctx: Ctx, acc: Accum, m: Values.Value): (r: Result<Outcome, EvalError>)
    ensures |acc.notices| > MAX_NOTICE_INSTRUCTIONS ==> r == Err(TooManyNotices)
    ensures r.Ok? ==> ctx.x.get(m, acc.vars).Ok? && Text.Utf8Len(ctx.x.get(m, acc.vars).value) <= MAX_NOTICE_CHARACTERS
                      && r.value == Outcome(acc.(notices := acc.notices + [ctx.x.get(m, acc.vars).value]), false)
  {
    if |acc.notices| > MAX_NOTICE_INSTRUCTIONS then Err(TooManyNotices)
    else
      match ctx.x.get(m, acc.vars)
      case Err(e) => Err(ValueFailed(e))
      case Ok(s) =>
        if Text.Utf8Len(s) > MAX_NOTICE_CHARACTERS then Err(NoticeTooLong)
        else Ok(Outcome(acc.(notices := acc.notices + [s]), false))
  }

  /** `cmd`: needs elevated permission at either level; recorded only at install level. */
  function CmdSpec(ctx: Ctx, acc: Accum, args: seq<Values.Value>): (r: Result<Outcome, EvalError>)
    ensures ctx.input.params.perms != Elevated ==> r == Err(CommandNotPermitted)
    ensures r.Ok? && ctx.level == EvalLevel.Resolve ==> r.value == Outcome(acc, false)
    ensures r.Ok? && ctx.level == EvalLevel.Install ==>
              GetValueVec(ctx.x, args, acc.vars).Ok? &&
              r.value == Outcome(acc.(commands := acc.commands + [GetValueVec(ctx.x, args, acc.vars).value]), false)
  {
    if ctx.input.params.perms != Elevated then Err(CommandNotPermitted)
    else if ctx.level != EvalLevel.Install then Ok(Outcome(acc, false))
    else
      match GetValueVec(ctx.x, args, acc.vars)
      case Err(e) => Err(e)
      case Ok(cmd) => Ok(Outcome(acc.(commands := acc.commands + [cmd]), false))
  }

  /** `eval_instr`: one instruction. */
  function InstrSpec(
    ctx: Ctx, blocks: Blocks, rank: map<Instructions.BlockId, nat>, bound: nat,
    instr: Instructions.Instruction, acc: Accum): Result<Outcome, EvalError>
    requires Ranked(blocks, rank) && Below(instr, blocks, rank, bound)
    decreases bound, 0, 1
  {
    var resolve, install := ctx.level == EvalLevel.Resolve, ctx.level == EvalLevel.Install;
    var same := Ok(Outcome(acc, false));
    if IsRelation(instr.kind) then
      if resolve then RelationSpec(ctx, acc, instr.kind) else same
    else
    match instr.kind
    case If(cond, b) => IfSpec(ctx, blocks, rank, bound, cond, b, acc)
    case Set(v, value) => SetSpec(ctx, acc, v, value)
    case Finish => Ok(Outcome(acc, true))
    case Fail(reason) => Err(Failed(reason))
    case Notice(m) => NoticeSpec(ctx, acc, m)
    case Cmd(args) => CmdSpec(ctx, acc, args)
    case Addon(idVal, fileName, kind, url, path, version) =>
      if install then AddonSpec(ctx, acc, idVal, fileName, kind, url, path, version) else same
    case _ => Err(NotAllowed)
  }

  /** `if`: the block runs when the condition holds; a missing block is a panic in the source. */
  function IfSpec(
    ctx: Ctx, blocks: Blocks, rank: map<Instructions.BlockId, nat>, bound: nat,
    cond: Conditions.ConditionKind, b: Instructions.BlockId, acc: Accum): Result<Outcome, EvalError>
    requires Ranked(blocks, rank) && (b in blocks ==> b in rank && rank[b] < bound)
    decreases bound, 0, 0
  {
    match ctx.x.evalCondition(cond, ctx.input, acc.vars)
    case Err(m) => Err(ConditionFailed(m))
    case Ok(holds) =>
      if !holds then Ok(Outcome(acc, false))
      else if b !in blocks then Err(Panic("If block missing"))
      else SeqSpec(ctx, blocks, rank, rank[b], blocks[b].contents, acc)
  }

  /** `eval_block`: the instructions in order, up to the first that finishes. */
  function SeqSpec(
    ctx: Ctx, blocks: Blocks, rank: map<Instructions.BlockId, nat>, bound: nat,
    instrs: seq<Instructions.Instruction>, acc: Accum): Result<Outcome, EvalError>
    requires Ranked(blocks, rank) && AllBelow(instrs, blocks, rank, bound)
    decreases bound, 1, |instrs|
  {
    if instrs == [] then Ok(Outcome(acc, false))
    else
      match InstrSpec(ctx, blocks, rank, bound, instrs[0], acc)
      case Err(e) => Err(e)
      case Ok(o) =>
        if o.finish then Ok(Outcome(o.acc, true))
        else
          assert AllBelow(instrs[1..], blocks, rank, bound) by {
            forall i | 0 <= i < |instrs[1..]| ensures Below(instrs[1..][i], blocks, rank, bound) {
              assert instrs[1..][i] == instrs[i + 1];
            }
          }
          SeqSpec(ctx, blocks, rank, bound, instrs[1..], o.acc)
  }

  /** `eval_script_package`: the install routine from empty accumulators. */
  function ScriptSpec(
    x: Externals, pkgId: Shared.PkgIdentifier, parsed: Instructions.Parsed, routine: Routine,
    input: EvalInput, rank: map<Instructions.BlockId, nat>): Result<Accum, EvalError>
    requires Ranked(parsed.blocks, rank)
  {
    var name := RoutineName(routine);
    if name !in parsed.routines || parsed.routines[name] !in parsed.blocks then Err(RoutineMissing(name))
    else
      var b := parsed.routines[name];
      match SeqSpec(Ctx(x, input, pkgId, RoutineLevel(routine)), parsed.blocks, rank, rank[b],
                    parsed.blocks[b].contents, EMPTY_ACCUM)
      case Err(e) => Err(e)
      case Ok(o) => Ok(o.acc)
  }

  /** A method's result and new accumulator follow a specification outcome (nothing is said after an error). */
  predicate Follows(r: Result<bool, EvalError>, spec: Result<Outcome, EvalError>, acc: Accum) {
    match spec
    case Err(e) => r == Err(e)
    case Ok(o) => r == Ok(o.finish) && acc == o.acc
  }

  function CtxOf(x: Externals, eval: EvalData): Ctx
    reads eval
  {
    Ctx(x, eval.input, eval.id, eval.level)
  }

  /** `eval_instr` on the mutable `EvalData`. */
  method EvalInstr(
    x: Externals, instr: Instructions.Instruction, eval: EvalData, blocks: Blocks,
    ghost rank: map<Instructions.BlockId, nat>, ghost bound: nat) returns (r: Result<bool, EvalError>)
    requires Ranked(blocks, rank) && Below(instr, blocks, rank, bound)
    modifies eval
    decreases bound, 0, 1
    ensures Follows(r, InstrSpec(CtxOf(x, eval), blocks, rank, bound, instr, old(eval.Acc())), eval.Acc())
  {
    if IsRelation(instr.kind) {
      r := EvalRelationInstr(x, instr, eval, blocks, rank, bound);
      return;
    }
    if instr.kind.Notice? || instr.kind.Cmd? || instr.kind.Addon? {
      r := EvalEffectInstr(x, instr, eval, blocks, rank, bound);
      return;
    }
    match instr.kind {
      case If(cond, b) =>
        r := EvalIf(x, cond, b, eval, blocks, rank, bound);
      case Set(v, value) =>
        r := EvalSet(x, v, value, eval);
      case Finish =>
        r := Ok(true);
      case Fail(reason) =>
        r := Err(Failed(reason));
      case _ =>
        r := Err(NotAllowed);
    }
    ControlSpec(CtxOf(x, eval), blocks, rank, bound, instr, old(eval.Acc()));
  }

  /** The instructions with an effect outside the accumulated relations: `notice`, `cmd` and `addon`. */
  method EvalEffectInstr(
    x: Externals, instr: Instructions.Instruction, eval: EvalData, blocks: Blocks,
    ghost rank: map<Instructions.BlockId, nat>, ghost bound: nat) returns (r: Result<bool, EvalError>)
    requires Ranked(blocks, rank) && Below(instr, blocks, rank, bound)
    requires instr.kind.Notice? || instr.kind.Cmd? || instr.kind.Addon?
    modifies eval
    ensures Follows(r, InstrSpec(CtxOf(x, eval), blocks, rank, bound, instr, old(eval.Acc())), eval.Acc())
  {
    match instr.kind {
      case Notice(m) =>
        r := EvalNotice(x, m, eval);
      case Cmd(args) =>
        r := EvalCmd(x, args, eval);
      case Addon(idVal, fileName, kind, url, path, version) =>
        r := Ok(false);
        if eval.level == EvalLevel.Install {
          r := EvalAddon(x, idVal, fileName, kind, url, path, version, eval);
        }
    }
    EffectSpec(CtxOf(x, eval), blocks, rank, bound, instr, old(eval.Acc()));
  }

  /** What `InstrSpec` is for `notice`, `cmd` and `addon`. */
  lemma EffectSpec(
    ctx: Ctx, blocks: Blocks, rank: map<Instructions.BlockId, nat>, bound: nat,
    instr: Instructions.Instruction, acc: Accum)
    requires Ranked(blocks, rank) && Below(instr, blocks, rank, bound)
    ensures instr.kind.Notice? ==> InstrSpec(ctx, blocks, rank, bound, instr, acc) == NoticeSpec(ctx, acc, instr.kind.message)
    ensures instr.kind.Cmd? ==> InstrSpec(ctx, blocks, rank, bound, instr, acc) == CmdSpec(ctx, acc, instr.kind.command)
    ensures instr.kind.Addon? && ctx.level == EvalLevel.Install ==>
      var k := instr.kind;
      InstrSpec(ctx, blocks, rank, bound, instr, acc) == AddonSpec(ctx, acc, k.id, k.fileName, k.kind, k.url, k.path, k.version)
    ensures instr.kind.Addon? && ctx.level != EvalLevel.Install ==> InstrSpec(ctx, blocks, rank, bound, instr, acc) == Ok(Outcome(acc, false))
  {
  }

  /** What `InstrSpec` is for `if`, `set`, `finish`, `fail` and the instructions a script may not use. */
  lemma ControlSpec(
    ctx: Ctx, blocks: Blocks, rank: map<Instructions.BlockId, nat>, bound: nat,
    instr: Instructions.Instruction, acc: Accum)
    requires Ranked(blocks, rank) && Below(instr, blocks, rank, bound)
    requires !IsRelation(instr.kind) && !instr.kind.Notice? && !instr.kind.Cmd? && !instr.kind.Addon?
    ensures instr.kind.If? ==> InstrSpec(ctx, blocks, rank, bound, instr, acc) == IfSpec(ctx, blocks, rank, bound, instr.kind.condition, instr.kind.block, acc)
    ensures instr.kind.Set? ==> InstrSpec(ctx, blocks, rank, bound, instr, acc) == SetSpec(ctx, acc, instr.kind.variable, instr.kind.value)
    ensures instr.kind.Finish? ==> InstrSpec(ctx, blocks, rank, bound, instr, acc) == Ok(Outcome(acc, true))
    ensures instr.kind.Fail? ==> InstrSpec(ctx, blocks, rank, bound, instr, acc) == Err(Failed(instr.kind.reason))
    ensures !instr.kind.If? && !instr.kind.Set? && !instr.kind.Finish? && !instr.kind.Fail? ==>
      InstrSpec(ctx, blocks, rank, bound, instr, acc) == Err(NotAllowed)
  {
  }

  /** What `InstrSpec` is for a relation instruction. */
  lemma RelationInstrSpec(
    ctx: Ctx, blocks: Blocks, rank: map<Instructions.BlockId, nat>, bound: nat,
    instr: Instructions.Instruction, acc: Accum)
    requires Ranked(blocks, rank) && Below(instr, blocks, rank, bound) && IsRelation(instr.kind)
    ensures InstrSpec(ctx, blocks, rank, bound, instr, acc) ==
      if ctx.level == EvalLevel.Resolve then RelationSpec(ctx, acc, instr.kind) else Ok(Outcome(acc, false))
  {
  }

  /** A relation instruction: it takes effect at resolve level only. */
  method EvalRelationInstr(
    x: Externals, instr: Instructions.Instruction, eval: EvalData, blocks: Blocks,
    ghost rank: map<Instructions.BlockId, nat>, ghost bound: nat) returns (r: Result<bool, EvalError>)
    requires Ranked(blocks, rank) && Below(instr, blocks, rank, bound) && IsRelation(instr.kind)
    modifies eval
    ensures Follows(r, InstrSpec(CtxOf(x, eval), blocks, rank, bound, instr, old(eval.Acc())), eval.Acc())
  {
    r := Ok(false);
    if eval.level == EvalLevel.Resolve {
      r := EvalRelation(x, instr.kind, eval);
    }
    RelationInstrSpec(CtxOf(x, eval), blocks, rank, bound, instr, old(eval.Acc()));
  }

  /** `if` on the mutable `EvalData`. */
  method EvalIf(
    x: Externals, cond: Conditions.ConditionKind, b: Instructions.BlockId, eval: EvalData, blocks: Blocks,
    ghost rank: map<Instructions.BlockId, nat>, ghost bound: nat) returns (r: Result<bool, EvalError>)
    requires Ranked(blocks, rank) && (b in blocks ==> b in rank && rank[b] < bound)
    modifies eval
    decreases bound, 0, 0
    ensures Follows(r, IfSpec(CtxOf(x, eval), blocks, rank, bound, cond, b, old(eval.Acc())), eval.Acc())
  {
    var holds := x.evalCondition(cond, eval.input, eval.vars);
    if holds.Err? {
      return Err(ConditionFailed(holds.error));
    }
    if !holds.value {
      return Ok(false);
    }
    if b !in blocks {
      return Err(Panic("If block missing"));
    }
    r := EvalBlock(x, blocks[b], eval, blocks, rank, rank[b]);
  }

  /** `set` on the mutable `EvalData`. */
  method EvalSet(x: Externals, v: Shared.Later<string>, value: Values.Value, eval: EvalData) returns (r: Result<bool, EvalError>)
    modifies eval
    ensures Follows(r, SetSpec(CtxOf(x, eval), old(eval.Acc()), v, value), eval.Acc())
  {
    if v.Empty? {
      return Err(Panic("Later value is empty"));
    }
    var s := x.get(value, eval.vars);
    if s.Err? {
      return Err(ValueFailed(s.error));
    }
    eval.vars := eval.vars[v.value := s.value];
    r := Ok(false);
  }

  /** A relation instruction on the mutable `EvalData`. */
  method EvalRelation(x: Externals, k: Instructions.InstrKind, eval: EvalData) returns (r: Result<bool, EvalError>)
    modifies eval
    ensures Follows(r, RelationSpec(CtxOf(x, eval), old(eval.Acc()), k), eval.Acc())
  {
    match k {
      case Require(_) =>
        r := EvalRequire(x, k, eval);
      case Compat(_, _) =>
        r := EvalCompat(x, k, eval);
      case Refuse(_) =>
        r := EvalRefuseRecommend(x, k, eval);
      case Recommend(_) =>
        r := EvalRefuseRecommend(x, k, eval);
      case Bundle(_) =>
        r := EvalBundleExtend(x, k, eval);
      case Extend(_) =>
        r := EvalBundleExtend(x, k, eval);
      case _ =>
        r := Ok(false);
    }
  }

  /** `require`: every group resolved and appended to the dependencies. */
  method EvalRequire(x: Externals, k: Instructions.InstrKind, eval: EvalData) returns (r: Result<bool, EvalError>)
    requires k.Require?
    modifies eval
    ensures Follows(r, RelationSpec(CtxOf(x, eval), old(eval.Acc()), k), eval.Acc())
  {
    var e := RequireGroups(x, k.groups, eval);
    if e.Some? {
      return Err(e.value);
    }
    r := Ok(false);
  }

  /** `compat`: both values resolved and appended as a pair. */
  method EvalCompat(x: Externals, k: Instructions.InstrKind, eval: EvalData) returns (r: Result<bool, EvalError>)
    requires k.Compat?
    modifies eval
    ensures Follows(r, RelationSpec(CtxOf(x, eval), old(eval.Acc()), k), eval.Acc())
  {
    ghost var a := eval.Acc();
    var s := x.get(k.package, eval.vars);
    if s.Err? {
      return Err(ValueFailed(s.error));
    }
    var t := x.get(k.compat, eval.vars);
    if t.Err? {
      return Err(ValueFailed(t.error));
    }
    eval.compats := eval.compats + [(s.value, t.value)];
    assert eval.Acc() == a.(compats := a.compats + [(s.value, t.value)]);
    r := Ok(false);
  }

  /** `refuse` and `recommend`: each pushes one resolved value onto its own list. */
  method EvalRefuseRecommend(x: Externals, k: Instructions.InstrKind, eval: EvalData) returns (r: Result<bool, EvalError>)
    requires k.Refuse? || k.Recommend?
    modifies eval
    ensures Follows(r, RelationSpec(CtxOf(x, eval), old(eval.Acc()), k), eval.Acc())
  {
    ghost var a := eval.Acc();
    r := Ok(false);
    match k {
      case Refuse(p) =>
        var l := Push(x, p, eval.vars, eval.conflicts);
        if l.Err? {
          return Err(l.error);
        }
        eval.conflicts := l.value;
        assert eval.Acc() == a.(conflicts := l.value);
        assert RelationSpec(CtxOf(x, eval), a, k) == Ok(Outcome(a.(conflicts := l.value), false));
      case Recommend(p) =>
        var l := Push(x, p, eval.vars, eval.recommendations);
        if l.Err? {
          return Err(l.error);
        }
        eval.recommendations := l.value;
        assert eval.Acc() == a.(recommendations := l.value);
        assert RelationSpec(CtxOf(x, eval), a, k) == Ok(Outcome(a.(recommendations := l.value), false));
    }
  }

  /** `bundle` and `extend`: each pushes one resolved value onto its own list. */
  method EvalBundleExtend(x: Externals, k: Instructions.InstrKind, eval: EvalData) returns (r: Result<bool, EvalError>)
    requires k.Bundle? || k.Extend?
    modifies eval
    ensures Follows(r, RelationSpec(CtxOf(x, eval), old(eval.Acc()), k), eval.Acc())
  {
    ghost var a := eval.Acc();
    r := Ok(false);
    match k {
      case Bundle(p) =>
        var l := Push(x, p, eval.vars, eval.bundled);
        if l.Err? {
          return Err(l.error);
        }
        eval.bundled := l.value;
        assert eval.Acc() == a.(bundled := l.value);
        assert RelationSpec(CtxOf(x, eval), a, k) == Ok(Outcome(a.(bundled := l.value), false));
      case Extend(p) =>
        var l := Push(x, p, eval.vars, eval.extensions);
        if l.Err? {
          return Err(l.error);
        }
        eval.extensions := l.value;
        assert eval.Acc() == a.(extensions := l.value);
        assert RelationSpec(CtxOf(x, eval), a, k) == Ok(Outcome(a.(extensions := l.value), false));
    }
  }

  /** `addon` at install level on the mutable `EvalData`. */
  method EvalAddon(
    x: Externals, idVal: Values.Value, fileName: Values.Value, kind: Option<Shared.AddonKind>,
    url: Values.Value, path: Values.Value, version: Values.Value, eval: EvalData) returns (r: Result<bool, EvalError>)
    modifies eval
    ensures Follows(r, AddonSpec(CtxOf(x, eval), old(eval.Acc()), idVal, fileName, kind, url, path, version), eval.Acc())
  {
    var o := AddonSpec(CtxOf(x, eval), eval.Acc(), idVal, fileName, kind, url, path, version);
    if o.Err? {
      return Err(o.error);
    }
    eval.addonReqs := o.value.acc.addonReqs;
    r := Ok(false);
  }

  /** `notice` on the mutable `EvalData`. */
  method EvalNotice(x: Externals, m: Values.Value, eval: EvalData) returns (r: Result<bool, EvalError>)
    modifies eval
    ensures Follows(r, NoticeSpec(CtxOf(x, eval), old(eval.Acc()), m), eval.Acc())
  {
    if |eval.notices| > MAX_NOTICE_INSTRUCTIONS {
      return Err(TooManyNotices);
    }
    var s := x.get(m, eval.vars);
    if s.Err? {
      return Err(ValueFailed(s.error));
    }
    if Text.Utf8Len(s.value) > MAX_NOTICE_CHARACTERS {
      return Err(NoticeTooLong);
    }
    eval.notices := eval.notices + [s.value];
    r := Ok(false);
  }

  /** `cmd` on the mutable `EvalData`. */
  method EvalCmd(x: Externals, args: seq<Values.Value>, eval: EvalData) returns (r: Result<bool, EvalError>)
    modifies eval
    ensures Follows(r, CmdSpec(CtxOf(x, eval), old(eval.Acc()), args), eval.Acc())
  {
    if eval.input.params.perms != Elevated {
      return Err(CommandNotPermitted);
    }
    r := Ok(false);
    if eval.level == EvalLevel.Install {
      var cmd := GetValueVec(x, args, eval.vars);
      if cmd.Err? {
        return Err(cmd.error);
      }
      eval.commands := eval.commands + [cmd.value];
    }
  }

  /** The `require` loops: each group resolved and pushed in turn; the first error stops them. */
  method RequireGroups(x: Externals, groups: seq<seq<Instructions.RequiredValue>>, eval: EvalData) returns (e: Option<EvalError>)
    modifies eval
    ensures ResolveGroups(x, groups, old(eval.vars)).Err? ==> e == Some(ResolveGroups(x, groups, old(eval.vars)).error)
    ensures ResolveGroups(x, groups, old(eval.vars)).Ok? ==>
              e.None? && eval.Acc() == old(eval.Acc()).(deps := old(eval.deps) + ResolveGroups(x, groups, old(eval.vars)).value)
  {
    var vars, deps0 := eval.vars, eval.deps;
    ghost var done: seq<seq<RequiredPackage>> := [];
    var i := 0;
    while i < |groups|
      invariant 0 <= i <= |groups|
      invariant eval.Acc() == old(eval.Acc()).(deps := deps0 + done)
      invariant |done| == i && forall k :: 0 <= k < i ==> ResolveGroup(x, groups[k], vars) == Ok(done[k])
    {
      var resolved := ResolveRequiredGroup(x, groups[i], vars);
      if resolved.Err? {
        GroupsFirstError(x, groups, vars, i, resolved.error);
        return Some(resolved.error);
      }
      eval.deps := eval.deps + [resolved.value];
      done := done + [resolved.value];
      i := i + 1;
    }
    GroupsResolved(x, groups, vars, done);
    e := Option.None;
  }

  /** Groups that each resolve make the whole `require` resolve to their packages. */
  lemma GroupsResolved(x: Externals, groups: seq<seq<Instructions.RequiredValue>>, vars: map<string, string>, done: seq<seq<RequiredPackage>>)
    requires |done| == |groups| && forall k :: 0 <= k < |groups| ==> ResolveGroup(x, groups[k], vars) == Ok(done[k])
    ensures ResolveGroups(x, groups, vars) == Ok(done)
  {
    assert ResolveGroups(x, groups, vars).Ok?;
    assert ResolveGroups(x, groups, vars).value == done;
  }

  /** The inner loop of `require`: the values of one group resolved in order; the first error stops it. */
  method ResolveRequiredGroup(x: Externals, group: seq<Instructions.RequiredValue>, vars: map<string, string>)
    returns (r: Result<seq<RequiredPackage>, EvalError>)
    ensures r == ResolveGroup(x, group, vars)
  {
    var toPush: seq<RequiredPackage> := [];
    var j := 0;
    while j < |group|
      invariant 0 <= j <= |group|
      invariant forall k :: 0 <= k < j ==> x.get(group[k].value, vars).Ok?
      invariant |toPush| == j
      invariant forall k :: 0 <= k < j ==> toPush[k] == RequiredPackage(x.get(group[k].value, vars).value, group[k].explicit)
    {
      var s := x.get(group[j].value, vars);
      if s.Err? {
        GroupFirstError(x, group, vars, j);
        return Err(ValueFailed(s.error));
      }
      toPush := toPush + [RequiredPackage(s.value, group[j].explicit)];
      j := j + 1;
    }
    assert ResolveGroup(x, group, vars).Ok?;
    assert ResolveGroup(x, group, vars).value == toPush;
    r := Ok(toPush);
  }

  /** The first value that fails to resolve is the error of its group. */
  lemma {:induction false} GroupFirstError(x: Externals, group: seq<Instructions.RequiredValue>, vars: map<string, string>, j: nat)
    requires j < |group|
    requires forall k :: 0 <= k < j ==> x.get(group[k].value, vars).Ok?
    requires x.get(group[j].value, vars).Err?
    ensures ResolveGroup(x, group, vars) == Err(ValueFailed(x.get(group[j].value, vars).error))
    decreases j
  {
    if j > 0 {
      assert forall k :: 0 <= k < j - 1 ==> group[1..][k] == group[k + 1];
      assert group[1..][j - 1] == group[j];
      GroupFirstError(x, group[1..], vars, j - 1);
    }
  }

  /** The error of the first group that fails is the error of the whole `require`. */
  lemma {:induction false} GroupsFirstError(
    x: Externals, groups: seq<seq<Instructions.RequiredValue>>, vars: map<string, string>, i: nat, e: EvalError)
    requires i < |groups|
    requires forall k :: 0 <= k < i ==> ResolveGroup(x, groups[k], vars).Ok?
    requires ResolveGroup(x, groups[i], vars) == Err(e)
    ensures ResolveGroups(x, groups, vars) == Err(e)
    decreases i
  {
    if i > 0 {
      assert forall k :: 0 <= k < i - 1 ==> groups[1..][k] == groups[k + 1];
      assert groups[1..][i - 1] == groups[i];
      GroupsFirstError(x, groups[1..], vars, i - 1, e);
    }
  }

  /** `eval_block` on the mutable `EvalData`: runs the block's instructions until one finishes. */
  method EvalBlock(
    x: Externals, block: Instructions.Block, eval: EvalData, blocks: Blocks,
    ghost rank: map<Instructions.BlockId, nat>, ghost bound: nat) returns (r: Result<bool, EvalError>)
    requires Ranked(blocks, rank) && AllBelow(block.contents, blocks, rank, bound)
    modifies eval
    decreases bound, 1, 0
    ensures Follows(r, SeqSpec(CtxOf(x, eval), blocks, rank, bound, block.contents, old(eval.Acc())), eval.Acc())
  {
    var contents := block.contents;
    var i := 0;
    var finish := false;
    while i < |contents|
      invariant 0 <= i <= |contents|
      invariant AllBelow(contents[i..], blocks, rank, bound)
      invariant SeqSpec(CtxOf(x, eval), blocks, rank, bound, contents, old(eval.Acc()))
                == SeqSpec(CtxOf(x, eval), blocks, rank, bound, contents[i..], eval.Acc())
    {
      assert contents[i..][0] == contents[i];
      var res := EvalInstr(x, contents[i], eval, blocks, rank, bound);
      if res.Err? {
        return Err(res.error);
      }
      if res.value {
        finish := true;
        break;
      }
      assert contents[i..][1..] == contents[i + 1..];
      i := i + 1;
    }
    r := Ok(finish);
  }

  /** `eval_script_package`: looks up the install routine and runs its block on a new `EvalData`. */
  method EvalScriptPackage(
    x: Externals, pkgId: Shared.PkgIdentifier, parsed: Instructions.Parsed, routine: Routine, input: EvalInput,
    ghost rank: map<Instructions.BlockId, nat>) returns (r: Result<EvalData, EvalError>)
    requires Ranked(parsed.blocks, rank)
    ensures ScriptSpec(x, pkgId, parsed, routine, input, rank).Err? ==>
              r == Err(ScriptSpec(x, pkgId, parsed, routine, input, rank).error)
    ensures ScriptSpec(x, pkgId, parsed, routine, input, rank).Ok? ==>
              r.Ok? && fresh(r.value) && r.value.Acc() == ScriptSpec(x, pkgId, parsed, routine, input, rank).value
              && r.value.input == input && r.value.id == pkgId && r.value.level == RoutineLevel(routine)
  {
    var name := RoutineName(routine);
    if name !in parsed.routines {
      return Err(RoutineMissing(name));
    }
    var routineId := parsed.routines[name];
    if routineId !in parsed.blocks {
      return Err(RoutineMissing(name));
    }
    var contents := parsed.blocks[routineId].contents;
    ghost var bound := rank[routineId];
    var eval := new EvalData(input, pkgId, routine);
    var i := 0;
    while i < |contents|
      invariant 0 <= i <= |contents|
      invariant AllBelow(contents[i..], parsed.blocks, rank, bound)
      invariant SeqSpec(CtxOf(x, eval), parsed.blocks, rank, bound, contents, EMPTY_ACCUM)
                == SeqSpec(CtxOf(x, eval), parsed.blocks, rank, bound, contents[i..], eval.Acc())
    {
      assert contents[i..][0] == contents[i];
      var res := EvalInstr(x, contents[i], eval, parsed.blocks, rank, bound);
      if res.Err? {
        return Err(res.error);
      }
      if res.value {
        break;
      }
      assert contents[i..][1..] == contents[i + 1..];
      i := i + 1;
    }
    r := Ok(eval);
  }
}
