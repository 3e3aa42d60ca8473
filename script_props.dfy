/** Properties of the script evaluator's specification (`src/package/eval/script.rs`). */
module ScriptProps {
  import opened Wrappers
  import Shared
  import Values
  import Text
  import Lexer
  import Instructions
  import opened Eval
  import opened Script

  /** Running `a + b` is running `a`, then `b` from where `a` left off unless `a` finished or failed. */
  lemma {:induction false} SeqAppend(
    ctx: Ctx, blocks: Blocks, rank: map<Instructions.BlockId, nat>, bound: nat,
    a: seq<Instructions.Instruction>, b: seq<Instructions.Instruction>, acc: Accum)
    requires Ranked(blocks, rank) && AllBelow(a, blocks, rank, bound) && AllBelow(b, blocks, rank, bound)
    ensures AllBelow(a + b, blocks, rank, bound)
    ensures SeqSpec(ctx, blocks, rank, bound, a + b, acc) ==
              match SeqSpec(ctx, blocks, rank, bound, a, acc)
              case Err(e) => Err(e)
              case Ok(o) => if o.finish then Ok(o) else SeqSpec(ctx, blocks, rank, bound, b, o.acc)
    decreases |a|
  {
    assert AllBelow(a + b, blocks, rank, bound) by {
      forall i | 0 <= i < |a + b| ensures Below((a + b)[i], blocks, rank, bound) {
        if i < |a| { assert (a + b)[i] == a[i]; } else { assert (a + b)[i] == b[i - |a|]; }
      }
    }
    if a == [] {
      assert a + b == b;
    } else {
      assert (a + b)[0] == a[0];
      assert (a + b)[1..] == a[1..] + b;
      assert AllBelow(a[1..], blocks, rank, bound) by {
        forall i | 0 <= i < |a[1..]| ensures Below(a[1..][i], blocks, rank, bound) {
          assert a[1..][i] == a[i + 1];
        }
      }
      match InstrSpec(ctx, blocks, rank, bound, a[0], acc)
      case Err(_) =>
      case Ok(o) =>
        if !o.finish {
          SeqAppend(ctx, blocks, rank, bound, a[1..], b, o.acc);
        }
    }
  }

  /** A `finish` ends the routine: nothing after it runs, and the result says so. */
  lemma FinishStops(
    ctx: Ctx, blocks: Blocks, rank: map<Instructions.BlockId, nat>, bound: nat,
    a: seq<Instructions.Instruction>, b: seq<Instructions.Instruction>, pos: Lexer.TextPos, acc: Accum)
    requires Ranked(blocks, rank) && AllBelow(a, blocks, rank, bound) && AllBelow(b, blocks, rank, bound)
    ensures AllBelow(a + [Instructions.Instruction(Instructions.Finish, pos)] + b, blocks, rank, bound)
    ensures AllBelow(a + [Instructions.Instruction(Instructions.Finish, pos)], blocks, rank, bound)
    ensures SeqSpec(ctx, blocks, rank, bound, a + [Instructions.Instruction(Instructions.Finish, pos)] + b, acc)
            == SeqSpec(ctx, blocks, rank, bound, a + [Instructions.Instruction(Instructions.Finish, pos)], acc)
    ensures SeqSpec(ctx, blocks, rank, bound, a + [Instructions.Instruction(Instructions.Finish, pos)], acc).Ok? ==>
              SeqSpec(ctx, blocks, rank, bound, a + [Instructions.Instruction(Instructions.Finish, pos)], acc).value.finish
  {
    var f := [Instructions.Instruction(Instructions.Finish, pos)];
    assert AllBelow(f, blocks, rank, bound);
    SeqAppend(ctx, blocks, rank, bound, a, f, acc);
    SeqAppend(ctx, blocks, rank, bound, a + f, b, acc);
    match SeqSpec(ctx, blocks, rank, bound, a, acc)
    case Err(_) =>
    case Ok(o) =>
      if !o.finish {
        assert f[1..] == [];
      }
  }

  /** A false `if` changes nothing; a true one runs its block and passes on its finish flag. */
  lemma IfRules(
    ctx: Ctx, blocks: Blocks, rank: map<Instructions.BlockId, nat>, bound: nat,
    instr: Instructions.Instruction, acc: Accum)
    requires Ranked(blocks, rank) && Below(instr, blocks, rank, bound) && instr.kind.If?
    ensures ctx.x.evalCondition(instr.kind.condition, ctx.input, acc.vars) == Ok(false) ==>
              InstrSpec(ctx, blocks, rank, bound, instr, acc) == Ok(Outcome(acc, false))
    ensures ctx.x.evalCondition(instr.kind.condition, ctx.input, acc.vars) == Ok(true) && instr.kind.block in blocks ==>
              InstrSpec(ctx, blocks, rank, bound, instr, acc)
              == SeqSpec(ctx, blocks, rank, rank[instr.kind.block], blocks[instr.kind.block].contents, acc)
    ensures ctx.x.evalCondition(instr.kind.condition, ctx.input, acc.vars).Err? ==>
              InstrSpec(ctx, blocks, rank, bound, instr, acc)
              == Err(ConditionFailed(ctx.x.evalCondition(instr.kind.condition, ctx.input, acc.vars).error))
  {
  }

  /** `set` binds (or rebinds) the variable to the resolved value and changes nothing else. */
  lemma SetRule(
    ctx: Ctx, blocks: Blocks, rank: map<Instructions.BlockId, nat>, bound: nat,
    instr: Instructions.Instruction, acc: Accum)
    requires Ranked(blocks, rank) && instr.kind.Set? && instr.kind.variable.Full?
    requires ctx.x.get(instr.kind.value, acc.vars).Ok?
    ensures InstrSpec(ctx, blocks, rank, bound, instr, acc) ==
              Ok(Outcome(acc.(vars := acc.vars[instr.kind.variable.value := ctx.x.get(instr.kind.value, acc.vars).value]), false))
  {
  }

  /** `fail` is an error at either level. */
  lemma FailRule(
    ctx: Ctx, blocks: Blocks, rank: map<Instructions.BlockId, nat>, bound: nat,
    instr: Instructions.Instruction, acc: Accum)
    requires Ranked(blocks, rank) && instr.kind.Fail?
    ensures InstrSpec(ctx, blocks, rank, bound, instr, acc) == Err(Failed(instr.kind.reason))
  {
  }

  /** At install level the relation instructions change nothing. */
  lemma InstallIgnoresRelations(
    ctx: Ctx, blocks: Blocks, rank: map<Instructions.BlockId, nat>, bound: nat,
    instr: Instructions.Instruction, acc: Accum)
    requires Ranked(blocks, rank) && IsRelation(instr.kind) && ctx.level == EvalLevel.Install
    ensures InstrSpec(ctx, blocks, rank, bound, instr, acc) == Ok(Outcome(acc, false))
  {
  }

  /** At resolve level, `require` appends one resolved list per group, in order, and changes nothing else. */
  lemma RequireAppendsGroups(
    ctx: Ctx, blocks: Blocks, rank: map<Instructions.BlockId, nat>, bound: nat,
    instr: Instructions.Instruction, acc: Accum)
    requires Ranked(blocks, rank) && instr.kind.Require? && ctx.level == EvalLevel.Resolve
    ensures InstrSpec(ctx, blocks, rank, bound, instr, acc).Ok? <==>
              forall i :: 0 <= i < |instr.kind.groups| ==> ResolveGroup(ctx.x, instr.kind.groups[i], acc.vars).Ok?
    ensures InstrSpec(ctx, blocks, rank, bound, instr, acc).Ok? ==>
              var o := InstrSpec(ctx, blocks, rank, bound, instr, acc).value;
              && !o.finish
              && o.acc == acc.(deps := o.acc.deps)
              && |o.acc.deps| == |acc.deps| + |instr.kind.groups|
              && o.acc.deps[..|acc.deps|] == acc.deps
              && forall i :: 0 <= i < |instr.kind.groups| ==>
                   ResolveGroup(ctx.x, instr.kind.groups[i], acc.vars) == Ok(o.acc.deps[|acc.deps| + i])
  {
    var gs := ResolveGroups(ctx.x, instr.kind.groups, acc.vars);
    if gs.Ok? {
      assert (acc.deps + gs.value)[..|acc.deps|] == acc.deps;
      assert forall i :: 0 <= i < |gs.value| ==> (acc.deps + gs.value)[|acc.deps| + i] == gs.value[i];
    }
  }

  /** `require [a | b, c]` with constant names gives the groups `[a, b]` and `[c]`. */
  lemma RequireExample(
    ctx: Ctx, blocks: Blocks, rank: map<Instructions.BlockId, nat>, bound: nat, acc: Accum,
    a: string, b: string, c: string, pos: Lexer.TextPos)
    requires Ranked(blocks, rank) && ctx.level == EvalLevel.Resolve
    requires forall s :: ctx.x.get(Values.Constant(s), acc.vars) == Ok(s)
    ensures
      var groups := [[Instructions.RequiredValue(Values.Constant(a), true), Instructions.RequiredValue(Values.Constant(b), true)],
                     [Instructions.RequiredValue(Values.Constant(c), false)]];
      InstrSpec(ctx, blocks, rank, bound, Instructions.Instruction(Instructions.Require(groups), pos), acc)
      == Ok(Outcome(acc.(deps := acc.deps + [[RequiredPackage(a, true), RequiredPackage(b, true)], [RequiredPackage(c, false)]]), false))
  {
    var groups := [[Instructions.RequiredValue(Values.Constant(a), true), Instructions.RequiredValue(Values.Constant(b), true)],
                   [Instructions.RequiredValue(Values.Constant(c), false)]];
    assert ctx.x.get(Values.Constant(a), acc.vars) == Ok(a);
    assert ctx.x.get(Values.Constant(b), acc.vars) == Ok(b);
    assert ctx.x.get(Values.Constant(c), acc.vars) == Ok(c);
    var pa, pb, pc := RequiredPackage(a, true), RequiredPackage(b, true), RequiredPackage(c, false);
    var v0, v1 := ResolveGroup(ctx.x, groups[0], acc.vars).value, ResolveGroup(ctx.x, groups[1], acc.vars).value;
    assert |v0| == 2 && v0[0] == pa && v0[1] == pb;
    assert v0 == [pa, pb];
    assert |v1| == 1 && v1[0] == pc;
    assert v1 == [pc];
    var gs := ResolveGroups(ctx.x, groups, acc.vars).value;
    assert |gs| == 2 && gs[0] == v0 && gs[1] == v1;
    assert gs == [[pa, pb], [pc]];
  }

  /** `cmd` needs elevated permission at either level, and is recorded only at install level. */
  lemma CmdRules(
    ctx: Ctx, blocks: Blocks, rank: map<Instructions.BlockId, nat>, bound: nat,
    instr: Instructions.Instruction, acc: Accum)
    requires Ranked(blocks, rank) && instr.kind.Cmd?
    ensures ctx.input.params.perms != Elevated ==> InstrSpec(ctx, blocks, rank, bound, instr, acc) == Err(CommandNotPermitted)
    ensures ctx.input.params.perms == Elevated && ctx.level == EvalLevel.Resolve ==>
              InstrSpec(ctx, blocks, rank, bound, instr, acc) == Ok(Outcome(acc, false))
    ensures ctx.input.params.perms == Elevated && ctx.level == EvalLevel.Install &&
            GetValueVec(ctx.x, instr.kind.command, acc.vars).Ok? ==>
              InstrSpec(ctx, blocks, rank, bound, instr, acc) ==
                Ok(Outcome(acc.(commands := acc.commands + [GetValueVec(ctx.x, instr.kind.command, acc.vars).value]), false))
  {
  }

  /** `addon` changes nothing at resolve level; at install level a repeated id is an error. */
  lemma AddonRules(
    ctx: Ctx, blocks: Blocks, rank: map<Instructions.BlockId, nat>, bound: nat,
    instr: Instructions.Instruction, acc: Accum)
    requires Ranked(blocks, rank) && instr.kind.Addon?
    ensures ctx.level == EvalLevel.Resolve ==> InstrSpec(ctx, blocks, rank, bound, instr, acc) == Ok(Outcome(acc, false))
    ensures ctx.level == EvalLevel.Install && ctx.x.get(instr.kind.id, acc.vars).Ok?
            && HasAddonId(acc.addonReqs, ctx.x.get(instr.kind.id, acc.vars).value) ==>
              InstrSpec(ctx, blocks, rank, bound, instr, acc) == Err(DuplicateAddon(ctx.x.get(instr.kind.id, acc.vars).value))
  {
  }

  /** A metadata instruction is not allowed in the install routine. */
  lemma MetadataNotAllowed(
    ctx: Ctx, blocks: Blocks, rank: map<Instructions.BlockId, nat>, bound: nat,
    instr: Instructions.Instruction, acc: Accum)
    requires Ranked(blocks, rank) && Instructions.IsMetadata(instr.kind)
    ensures InstrSpec(ctx, blocks, rank, bound, instr, acc) == Err(NotAllowed)
  {
  }

  /** A missing routine, or a routine whose block is missing, is an error naming the routine. */
  lemma RoutineMissingRule(
    x: Externals, pkgId: Shared.PkgIdentifier, parsed: Instructions.Parsed, routine: Routine, input: EvalInput,
    rank: map<Instructions.BlockId, nat>)
    requires Ranked(parsed.blocks, rank)
    requires Instructions.INSTALL_ROUTINE !in parsed.routines
             || parsed.routines[Instructions.INSTALL_ROUTINE] !in parsed.blocks
    ensures ScriptSpec(x, pkgId, parsed, routine, input, rank) == Err(RoutineMissing(Instructions.INSTALL_ROUTINE))
  {
  }

  /** No two addon requests have the same id. */
  predicate UniqueAddonIds(reqs: seq<AddonRequest>) {
    forall i, j :: 0 <= i < j < |reqs| ==> reqs[i].addon.id != reqs[j].addon.id
  }

  /**
   * What evaluation keeps: at most eleven notices (ten recorded before the
   * last one that is accepted), each at most 128 bytes, and distinct addon ids.
   */
  predicate Bounded(acc: Accum) {
    && |acc.notices| <= MAX_NOTICE_INSTRUCTIONS + 1
    && (forall i :: 0 <= i < |acc.notices| ==> Text.Utf8Len(acc.notices[i]) <= MAX_NOTICE_CHARACTERS)
    && UniqueAddonIds(acc.addonReqs)
  }

  /**
   * How the accumulator may change: every list only grows at its end; at
   * install level the relation lists stay as they are, and at resolve level
   * the addon requests and commands do.
   */
  predicate Evolves(level: EvalLevel, a: Accum, b: Accum) {
    && a.addonReqs <= b.addonReqs && a.deps <= b.deps && a.conflicts <= b.conflicts
    && a.recommendations <= b.recommendations && a.bundled <= b.bundled && a.compats <= b.compats
    && a.extensions <= b.extensions && a.notices <= b.notices && a.commands <= b.commands
    && (level == EvalLevel.Install ==>
          && b.deps == a.deps && b.conflicts == a.conflicts && b.recommendations == a.recommendations
          && b.bundled == a.bundled && b.compats == a.compats && b.extensions == a.extensions)
    && (level == EvalLevel.Resolve ==> b.addonReqs == a.addonReqs && b.commands == a.commands)
  }

  lemma PrefixTrans<T>(a: seq<T>, b: seq<T>, c: seq<T>)
    requires a <= b && b <= c
    ensures a <= c
  {
    assert c[..|a|] == b[..|a|];
  }

  lemma EvolvesTrans(level: EvalLevel, a: Accum, b: Accum, c: Accum)
    requires Evolves(level, a, b) && Evolves(level, b, c)
    ensures Evolves(level, a, c)
  {
    PrefixTrans(a.addonReqs, b.addonReqs, c.addonReqs);
    PrefixTrans(a.deps, b.deps, c.deps);
    PrefixTrans(a.conflicts, b.conflicts, c.conflicts);
    PrefixTrans(a.recommendations, b.recommendations, c.recommendations);
    PrefixTrans(a.bundled, b.bundled, c.bundled);
    PrefixTrans(a.compats, b.compats, c.compats);
    PrefixTrans(a.extensions, b.extensions, c.extensions);
    PrefixTrans(a.notices, b.notices, c.notices);
    PrefixTrans(a.commands, b.commands, c.commands);
  }

  /** A relation instruction appends to a relation list and keeps the other fields. */
  lemma RelationKeeps(ctx: Ctx, acc: Accum, k: Instructions.InstrKind)
    requires Bounded(acc) && IsRelation(k) && ctx.level == EvalLevel.Resolve
    ensures RelationSpec(ctx, acc, k).Ok? ==>
              Bounded(RelationSpec(ctx, acc, k).value.acc) && Evolves(ctx.level, acc, RelationSpec(ctx, acc, k).value.acc)
  {
  }

  /** `addon` appends one request whose id is new. */
  lemma AddonKeeps(
    ctx: Ctx, acc: Accum, idVal: Values.Value, fileName: Values.Value, kind: Option<Shared.AddonKind>,
    url: Values.Value, path: Values.Value, version: Values.Value)
    requires Bounded(acc) && ctx.level == EvalLevel.Install
    ensures AddonSpec(ctx, acc, idVal, fileName, kind, url, path, version).Ok? ==>
              var b := AddonSpec(ctx, acc, idVal, fileName, kind, url, path, version).value.acc;
              Bounded(b) && Evolves(ctx.level, acc, b)
  {
    var r := AddonSpec(ctx, acc, idVal, fileName, kind, url, path, version);
    if r.Ok? {
      var reqs := r.value.acc.addonReqs;
      var n := |acc.addonReqs|;
      forall i, j | 0 <= i < j < |reqs| ensures reqs[i].addon.id != reqs[j].addon.id {
        if j < n {
          assert reqs[i] == acc.addonReqs[i] && reqs[j] == acc.addonReqs[j];
        } else {
          assert reqs[i] == acc.addonReqs[i];
        }
      }
    }
  }

  /** `notice` appends one notice of at most 128 bytes to at most ten. */
  lemma NoticeKeeps(ctx: Ctx, acc: Accum, m: Values.Value)
    requires Bounded(acc)
    ensures NoticeSpec(ctx, acc, m).Ok? ==>
              Bounded(NoticeSpec(ctx, acc, m).value.acc) && Evolves(ctx.level, acc, NoticeSpec(ctx, acc, m).value.acc)
  {
    var r := NoticeSpec(ctx, acc, m);
    if r.Ok? {
      var ns := r.value.acc.notices;
      assert forall i :: 0 <= i < |acc.notices| ==> ns[i] == acc.notices[i];
    }
  }

  /** One instruction keeps `Bounded` and changes the accumulator only as `Evolves` allows. */
  lemma {:induction false} InstrKeeps(
    ctx: Ctx, blocks: Blocks, rank: map<Instructions.BlockId, nat>, bound: nat,
    instr: Instructions.Instruction, acc: Accum)
    requires Ranked(blocks, rank) && Below(instr, blocks, rank, bound) && Bounded(acc)
    ensures InstrSpec(ctx, blocks, rank, bound, instr, acc).Ok? ==>
              Bounded(InstrSpec(ctx, blocks, rank, bound, instr, acc).value.acc)
              && Evolves(ctx.level, acc, InstrSpec(ctx, blocks, rank, bound, instr, acc).value.acc)
    decreases bound, 0, 1
  {
    var k := instr.kind;
    if IsRelation(k) {
      RelationInstrSpec(ctx, blocks, rank, bound, instr, acc);
      if ctx.level == EvalLevel.Resolve {
        RelationKeeps(ctx, acc, k);
      }
    } else if k.Notice? || k.Cmd? || k.Addon? {
      EffectInstrKeeps(ctx, blocks, rank, bound, instr, acc);
    } else {
      ControlInstrKeeps(ctx, blocks, rank, bound, instr, acc);
    }
  }

  /** `notice`, `cmd` and `addon` keep `Bounded` and change the accumulator only as `Evolves` allows. */
  lemma EffectInstrKeeps(
    ctx: Ctx, blocks: Blocks, rank: map<Instructions.BlockId, nat>, bound: nat,
    instr: Instructions.Instruction, acc: Accum)
    requires Ranked(blocks, rank) && Below(instr, blocks, rank, bound) && Bounded(acc)
    requires instr.kind.Notice? || instr.kind.Cmd? || instr.kind.Addon?
    ensures InstrSpec(ctx, blocks, rank, bound, instr, acc).Ok? ==>
              Bounded(InstrSpec(ctx, blocks, rank, bound, instr, acc).value.acc)
              && Evolves(ctx.level, acc, InstrSpec(ctx, blocks, rank, bound, instr, acc).value.acc)
  {
    EffectSpec(ctx, blocks, rank, bound, instr, acc);
    match instr.kind
    case Addon(idVal, fileName, kind, url, path, version) =>
      if ctx.level == EvalLevel.Install {
        AddonKeeps(ctx, acc, idVal, fileName, kind, url, path, version);
      }
    case Notice(m) =>
      NoticeKeeps(ctx, acc, m);
    case Cmd(_) =>
  }

  /** The other instructions keep `Bounded` and change the accumulator only as `Evolves` allows. */
  lemma {:induction false} ControlInstrKeeps(
    ctx: Ctx, blocks: Blocks, rank: map<Instructions.BlockId, nat>, bound: nat,
    instr: Instructions.Instruction, acc: Accum)
    requires Ranked(blocks, rank) && Below(instr, blocks, rank, bound) && Bounded(acc)
    requires !IsRelation(instr.kind) && !instr.kind.Notice? && !instr.kind.Cmd? && !instr.kind.Addon?
    ensures InstrSpec(ctx, blocks, rank, bound, instr, acc).Ok? ==>
              Bounded(InstrSpec(ctx, blocks, rank, bound, instr, acc).value.acc)
              && Evolves(ctx.level, acc, InstrSpec(ctx, blocks, rank, bound, instr, acc).value.acc)
    decreases bound, 0, 0
  {
    var k := instr.kind;
    ControlSpec(ctx, blocks, rank, bound, instr, acc);
    if k.If? && ctx.x.evalCondition(k.condition, ctx.input, acc.vars) == Ok(true) && k.block in blocks {
      SeqKeeps(ctx, blocks, rank, rank[k.block], blocks[k.block].contents, acc);
    }
  }

  /** A sequence of instructions keeps `Bounded` and changes the accumulator only as `Evolves` allows. */
  lemma {:induction false} SeqKeeps(
    ctx: Ctx, blocks: Blocks, rank: map<Instructions.BlockId, nat>, bound: nat,
    instrs: seq<Instructions.Instruction>, acc: Accum)
    requires Ranked(blocks, rank) && AllBelow(instrs, blocks, rank, bound) && Bounded(acc)
    ensures SeqSpec(ctx, blocks, rank, bound, instrs, acc).Ok? ==>
              Bounded(SeqSpec(ctx, blocks, rank, bound, instrs, acc).value.acc)
              && Evolves(ctx.level, acc, SeqSpec(ctx, blocks, rank, bound, instrs, acc).value.acc)
    decreases bound, 1, |instrs|
  {
    if instrs != [] {
      InstrKeeps(ctx, blocks, rank, bound, instrs[0], acc);
      match InstrSpec(ctx, blocks, rank, bound, instrs[0], acc)
      case Err(_) =>
      case Ok(o) =>
        if !o.finish {
          assert AllBelow(instrs[1..], blocks, rank, bound) by {
            forall i | 0 <= i < |instrs[1..]| ensures Below(instrs[1..][i], blocks, rank, bound) {
              assert instrs[1..][i] == instrs[i + 1];
            }
          }
          SeqKeeps(ctx, blocks, rank, bound, instrs[1..], o.acc);
          var rest := SeqSpec(ctx, blocks, rank, bound, instrs[1..], o.acc);
          if rest.Ok? {
            EvolvesTrans(ctx.level, acc, o.acc, rest.value.acc);
          }
        }
    }
  }

  /**
   * A whole install routine: at most eleven notices of at most 128 bytes,
   * distinct addon ids; at install level no relations are collected, and at
   * resolve level no addons and no commands.
   */
  lemma ScriptResult(
    x: Externals, pkgId: Shared.PkgIdentifier, parsed: Instructions.Parsed, routine: Routine, input: EvalInput,
    rank: map<Instructions.BlockId, nat>)
    requires Ranked(parsed.blocks, rank)
    ensures ScriptSpec(x, pkgId, parsed, routine, input, rank).Ok? ==>
              var acc := ScriptSpec(x, pkgId, parsed, routine, input, rank).value;
              && Bounded(acc)
              && (routine == Routine.Install ==>
                    acc.deps == [] && acc.conflicts == [] && acc.recommendations == [] && acc.bundled == []
                    && acc.compats == [] && acc.extensions == [])
              && (routine == Routine.InstallResolve ==> acc.addonReqs == [] && acc.commands == [])
  {
    var name := RoutineName(routine);
    if name in parsed.routines && parsed.routines[name] in parsed.blocks {
      var b := parsed.routines[name];
      SeqKeeps(Ctx(x, input, pkgId, RoutineLevel(routine)), parsed.blocks, rank, rank[b], parsed.blocks[b].contents, EMPTY_ACCUM);
    }
  }
}
