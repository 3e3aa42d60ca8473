# mcvm core, modelled in Dafny

This project models the core of mcvm, a command-line launcher and package manager for
Minecraft written in Rust. Every module below is a Dafny model of one source file of the
core, and proves things about it:

- **The package-script language.**
  - The lexer (`Lexer`, `LexerProps`).
  - The condition builder (`Conditions`).
  - The script evaluator (`Script`, `ScriptProps`, `Eval`).
  - The metadata evaluator (`Metadata`).
  - The parser's data types (`Values`, `Instructions`).
- **Instances and their files.**
  - Instance paths, addon links and teardown (`Instance`).
  - The update requirements of an instance (`Create`).
  - The update manager (`UpdateManager`).
  - Launch arguments (`Launch`).
- **Client options.**
  - The option enumerations and their defaults (`ClientOptions`).
  - The key-value map written to `options.txt` (`OptionsWrite`, `OptionsWriteProps`).
- **Minecraft files.**
  - Game jars and the data version table (`MinecraftIo`).
  - The version manifest, version json, library classpath and asset paths (`NetMinecraft`), read through typed JSON accessors (`Json`).
- **Configuration.**
  - Loading `mcvm.json` (`Config`).
  - The profile's game modifications (`ProfileConfig`).
  - Version patterns (`Versions`).
  - Assets and modloaders (`Asset`).
  - The bundled core packages (`CorePackages`).
- **The stats plugin.** Launch counting and playtime text (`Stats`).

The modelling choices:

- **State.** Operations that change state in the source are methods:
  - on classes (`Conditions.Condition`, `Eval.EvalData`, `Instance.FileSystem`, `UpdateManager.UpdateManager`, `Stats.StatsFile`);
  - or with loops (`Lexer.Lex`, `Script.EvalBlock`, `Metadata.EvalMetadata`, `Config.LoadFromObj`, `NetMinecraft.GetLibClasspath`, ...).

  Each method is proved equal to a specification function. That function's properties are lemmas.
- **Errors are values.** Every error path of the source is a `Result` error: a missing JSON key, a value of the wrong type, an unknown type name, a duplicate instance, a routine that does not exist, a forbidden command. A panic that a test input can reach is also an error value (`Panic`), or `None` where the source would index out of bounds.
- **Outside code is a parameter.** Code the core calls but that is not part of this model becomes a parameter of the function that uses it. This covers `Value::get`, `eval_condition`, `parse_arg`, version ordering, file existence, the OS name, Mojang's rule matcher and `ConfigPreferences::read`.

## Model

| member | source | states |
|---|---|---|
| Lexer.LexStringChar | crates/mcvm_parse/src/lex.rs:112-122 | after a backslash every character is appended; otherwise a quote ends the string and a backslash escapes |
| Lexer.Start | crates/mcvm_parse/src/lex.rs:173-239 | the arm for no open token: a punctuation character is one finished token, `"`, `#`, `$`, whitespace, a sign or digit and an identifier start open their tokens, anything else is an unexpected token (`PunctuationRun`, `NumStart`, `IdentStart`, `LexUnexpected`) |
| Lexer.ContinueNum | crates/mcvm_parse/src/lex.rs:290-301 | the arm for an open number: a digit extends it, a lone `-` before anything else is "Invalid number", and otherwise the number is pushed and the character dispatched again (`NumRun`, `MinusThenOther`, `LexMinusTen`) |
| Lexer.Run | crates/mcvm_parse/src/lex.rs:162-313 | the character loop as a fold of `CharStep`; lexing a concatenation is lexing its parts in turn (`FoldAppend`, `LexSpecErr`) |
| Lexer.Finish | crates/mcvm_parse/src/lex.rs:315-324 | after the loop an open number is parsed and any other open token is pushed at the final position (`LexSpecOk`, `FinishNum`, `UnterminatedString`, `LexCommentToEnd`) |
| Lexer.ParseI64 | crates/mcvm_parse/src/lex.rs:298 | an optional sign then ASCII digits parse to the number they denote when it fits in an i64; anything else fails |
| Lexer.Dispatch | crates/mcvm_parse/src/lex.rs:172-304 | one dispatch of a character against the open token: which token it opens, extends or ends, and whether it is dispatched again |
| Lexer.Redispatch | crates/mcvm_parse/src/lex.rs:170-308 | a character that ends a token is dispatched once more, against the empty token, which never asks for a third pass |
| Lexer.CharStep | crates/mcvm_parse/src/lex.rs:162-313 | the whole loop body: position, newline bookkeeping, dispatch, and the push of a finished token |
| Lexer.FoldAppend | crates/mcvm_parse/src/lex.rs:162 | lexing `a + b` is lexing `a`, then `b` from the state `a` ended in |
| Lexer.Lex | crates/mcvm_parse/src/lex.rs:147-325 | the imperative `lex` (a for loop with the inner repeat loop) returns exactly the specification `LexSpec` |
| Lexer.DispatchChar | crates/mcvm_parse/src/lex.rs:170-308 | the inner loop of `lex` with its `repeat` flag computes `Redispatch` |
| Lexer.LexChar | crates/mcvm_parse/src/lex.rs:163-313 | the loop body on mutable variables computes `CharStep` |
| Lexer.FinishTokens | crates/mcvm_parse/src/lex.rs:315-323 | the flush after the loop parses an open number and pushes any open token at the final position |
| Lexer.ReduceTokens | crates/mcvm_parse/src/lex.rs:328-332 | keeps exactly the significant tokens, in order |
| LexerProps.LexSpecErr | crates/mcvm_parse/src/lex.rs:147-325 | `lex` fails exactly with the error of the character loop |
| LexerProps.LexSpecOk | crates/mcvm_parse/src/lex.rs:315-324 | when the loop succeeds, `lex` returns the flush of the state it ends in |
| LexerProps.LexFirstErr | crates/mcvm_parse/src/lex.rs:239 | a first character whose dispatch fails is the error of the whole `lex` |
| LexerProps.PunctuationRun | crates/mcvm_parse/src/lex.rs:173-229 | each punctuation character emits exactly one finished token at its own column |
| LexerProps.LexAllPunctuation | crates/mcvm_parse/src/lex.rs:173-229 | a text of punctuation lexes to one token per character, in order |
| LexerProps.LexTwoSemicolons | crates/mcvm_parse/src/lex.rs:386-389 | `";;"` lexes to exactly two semicolons, at columns 0 and 1 |
| LexerProps.IdentRun | crates/mcvm_parse/src/lex.rs:281-289 | identifier characters extend an open identifier and emit nothing |
| LexerProps.IdentThenPunctuation | crates/mcvm_parse/src/lex.rs:281-307 | a character that cannot continue an identifier pushes it and is then lexed against a fresh token |
| LexerProps.IdentStart | crates/mcvm_parse/src/lex.rs:238 | a character that may start an identifier opens one |
| LexerProps.IdentEnd | crates/mcvm_parse/src/lex.rs:284-313 | punctuation after an identifier pushes the identifier, then itself, both at that position |
| LexerProps.LexIdentCurly | crates/mcvm_parse/src/lex.rs:426-450 | with ASCII character classes `ident{` lexes to `Ident("ident")` then `Curly(Left)` |
| LexerProps.NumRun | crates/mcvm_parse/src/lex.rs:290-293 | digits extend an open number and emit nothing |
| LexerProps.ParseNatToString | crates/mcvm_parse/src/lex.rs:298 | the decimal text of a magnitude parses back to it |
| LexerProps.ParseMinusNatToString | crates/mcvm_parse/src/lex.rs:298 | a `-` before a magnitude's text parses back to its negation |
| LexerProps.ParseIntToString | crates/mcvm_parse/src/lex.rs:298 | the decimal text of any i64 parses back to the same number |
| LexerProps.LexNumber | crates/mcvm_parse/src/lex.rs:290-320 | every i64 written in decimal lexes to one number token with that value |
| LexerProps.FinishNum | crates/mcvm_parse/src/lex.rs:317-320 | the flush of an open number whose text parses pushes that number |
| LexerProps.NumStart | crates/mcvm_parse/src/lex.rs:234-237 | a sign or digit at the start of the text opens a number |
| LexerProps.NumberRuns | crates/mcvm_parse/src/lex.rs:290-293 | a sign or digit followed by digits leaves one open number holding all of them |
| LexerProps.LexMinusTen | crates/mcvm_parse/src/lex.rs:467-480 | `"-10"` lexes to `Num(-10)` |
| LexerProps.MinusThenOther | crates/mcvm_parse/src/lex.rs:294-297 | after an open `-`, a character that is not numeric fails with "Invalid number" at its own position |
| LexerProps.LexInvalidNumber | crates/mcvm_parse/src/lex.rs:294-297 | `-` followed by anything that is not numeric is an invalid number at the second character |
| LexerProps.LexLoneMinus | crates/mcvm_parse/src/lex.rs:317-318 | a lone `-` at the end of the text reaches the panic of the number parse |
| LexerProps.StrRun | crates/mcvm_parse/src/lex.rs:241-251 | inside a string, escaped text is appended decoded and emits nothing |
| LexerProps.EscapedCharIsVerbatim | crates/mcvm_parse/src/lex.rs:113-114 | after a backslash any character, a quote too, is appended as it is |
| LexerProps.QuoteEndsString | crates/mcvm_parse/src/lex.rs:247-250 | an unescaped quote ends the string and is not part of it |
| LexerProps.StringRoundTrip | crates/mcvm_parse/src/lex.rs:241-251 | a quoted, escaped string lexes back to exactly the original string |
| LexerProps.UnterminatedString | crates/mcvm_parse/src/lex.rs:322 | an unterminated string is still emitted, with the characters read so far |
| LexerProps.CommentRun | crates/mcvm_parse/src/lex.rs:252-258 | characters other than a newline extend an open comment and emit nothing |
| LexerProps.LexCommentToEnd | crates/mcvm_parse/src/lex.rs:252-258 | a comment reaching the end of the text is emitted with its text without the `#` |
| LexerProps.LexCommentLine | crates/mcvm_parse/src/lex.rs:253-254 | the newline ends the comment, is consumed by it and is not part of its text |
| LexerProps.WhitespaceRun | crates/mcvm_parse/src/lex.rs:274-280 | further whitespace extends the open whitespace token |
| LexerProps.LexWhitespace | crates/mcvm_parse/src/lex.rs:274-280 | a run of whitespace of any length is a single whitespace token |
| LexerProps.LexUnexpected | crates/mcvm_parse/src/lex.rs:239 | a first character that starts no token is an unexpected-token error at 1:0 |
| LexerProps.LexTokensWellFormed | crates/mcvm_parse/src/lex.rs:147-325 | every token `lex` returns is well formed (never empty, identifiers non-empty with a non-numeric start) and sits at line 1 or later and a non-negative column |
| LexerProps.ReduceConcat | crates/mcvm_parse/src/lex.rs:331 | filtering distributes over concatenation, so kept tokens keep their order |
| LexerProps.ReduceSingle | crates/mcvm_parse/src/lex.rs:331 | a single token is kept exactly when it is not None, Whitespace or Comment |
| LexerProps.ReduceIdempotent | crates/mcvm_parse/src/lex.rs:331 | reducing twice is reducing once |
| Text.Utf8Len | crates/mcvm_parse/src/lex.rs:315 | the byte length of a text is the sum of its characters' UTF-8 lengths |
| Conditions.ParseOSExact | crates/mcvm_parse/src/conditions.rs:23-31 | the OS parse accepts exactly the four keywords, each naming its own value, and nothing else |
| Conditions.FromStrExact | crates/mcvm_parse/src/conditions.rs:52-66 | `from_str` recognises exactly ten keywords; every other string, the combinators included, gives None |
| Conditions.LanguageNotOpened | crates/mcvm_parse/src/conditions.rs:52-66 | `language` names a kind of condition but `from_str` does not open it |
| Conditions.CheckEnumArg | crates/mcvm_parse/src/conditions.rs:188-203 | an identifier the argument parser accepts is stored; any other is "Unknown condition argument" |
| Conditions.ParseFinished | crates/mcvm_parse/src/conditions.rs:93-108 | a finished condition takes only `and`/`or`, becoming an unfinished combination whose left side is the old tree; other identifiers and non-identifiers are errors |
| Conditions.ParseRoutesRight | crates/mcvm_parse/src/conditions.rs:111-126 | an unfinished combination routes the token into its right slot and never changes its left side |
| Conditions.ParseValueSides | crates/mcvm_parse/src/conditions.rs:178-181 | `value` fills its left operand first and its right operand after |
| Conditions.EnumArg | crates/mcvm_parse/src/conditions.rs:130-203 | an enum-argument leaf takes only an identifier its parser accepts; a non-identifier is an unexpected token, an unknown one an unknown argument |
| Conditions.NewCondition | crates/mcvm_parse/src/conditions.rs:111-126 | an empty `not`/`and`/`or` slot takes only a keyword `from_str` knows; a non-identifier is an unexpected token, an unknown one an unknown condition |
| Conditions.ParseOSLeaf | crates/mcvm_parse/src/conditions.rs:154-160 | an `os` leaf succeeds exactly on an identifier naming an OS, and stores that OS |
| Conditions.ParseSide | crates/mcvm_parse/src/conditions.rs:134-139 | the `side` leaf succeeds exactly on an identifier its vocabulary knows, storing that side and becoming finished; a rejected identifier is "Unknown condition argument" and any other token unexpected |
| Conditions.ParseModloaderLeaf | crates/mcvm_parse/src/conditions.rs:140-146 | the `modloader` leaf succeeds exactly on an identifier its vocabulary knows and becomes finished; a rejected identifier is "Unknown condition argument" and any other token unexpected |
| Conditions.ParsePluginLoaderLeaf | crates/mcvm_parse/src/conditions.rs:147-153 | the `plugin_loader` leaf succeeds exactly on an identifier its vocabulary knows and becomes finished; a rejected identifier is "Unknown condition argument" and any other token unexpected |
| Conditions.ParseStabilityLeaf | crates/mcvm_parse/src/conditions.rs:161-171 | the `stability` leaf succeeds exactly on an identifier its vocabulary knows and becomes finished; a rejected identifier is "Unknown condition argument" and any other token unexpected |
| Conditions.ParseLanguageLeaf | crates/mcvm_parse/src/conditions.rs:172-178 | the `language` leaf succeeds exactly on an identifier its vocabulary knows and becomes finished; a rejected identifier is "Unknown condition argument" and any other token unexpected |
| Conditions.ParseDefined | crates/mcvm_parse/src/conditions.rs:130-133 | `defined` takes the name of any identifier and nothing else |
| Conditions.FromStrShaped | crates/mcvm_parse/src/conditions.rs:52-66 | every condition `from_str` opens has the tree shape parsing keeps |
| Conditions.ParseKeepsShape | crates/mcvm_parse/src/conditions.rs:91-185 | parsing keeps the combination's left side finished and fills `value`'s right side only after its left |
| Conditions.Condition.constructor | crates/mcvm_parse/src/conditions.rs:211-213 | a new condition holds the kind it was given |
| Conditions.Condition.Parse | crates/mcvm_parse/src/conditions.rs:215-219 | the tree grows as `ParseKind` says on success and is left unchanged on an error |
| Eval.RoutineName | src/package/eval/mod.rs:79-84 | both routines run the install routine |
| Eval.RoutineLevel | src/package/eval/mod.rs:86-93 | `Install` evaluates at install level, `InstallResolve` at resolve level |
| Eval.CheckProperties | src/package/eval/mod.rs:190-223 | an unsupported modloader, then an unsupported plugin loader, is an error; otherwise the package is skipped exactly when its side is excluded |
| Eval.NoPropertiesEvaluated | src/package/eval/mod.rs:190-223 | a package that states no properties is always evaluated |
| Eval.LoaderCheckedBeforeSide | src/package/eval/mod.rs:196-215 | an unsupported loader fails even on an excluded side |
| Eval.NonEmptyVersion | src/package/eval/mod.rs:240-244 | an empty version counts as no version |
| Eval.CreateValidAddonRequest | src/package/eval/mod.rs:225-298 | the id, version, file name and hashes are checked in that order, then the addon goes to its url or, with elevation, to its path |
| Eval.InvalidIdFirst | src/package/eval/mod.rs:235-238 | an invalid identifier is rejected whatever the other arguments are |
| Eval.AddonLocationRules | src/package/eval/mod.rs:268-297 | with valid arguments, neither url nor path is an error, and so is a path without elevated permission |
| Eval.EvalData.constructor | src/package/eval/mod.rs:138-155 | every accumulator starts empty at the routine's level |
| Script.GetValueVec | src/package/eval/script.rs:205-210 | every value resolved in order, or the first error |
| Script.ResolveGroup | src/package/eval/script.rs:108-125 | one `require` group resolved in order, or its first error |
| Script.ResolveGroups | src/package/eval/script.rs:108-125 | every group of a `require` resolved in order, or the first failing group's error |
| Script.AddonSpec | src/package/eval/script.rs:176-197 | at install level an addon request is validated and appended; a repeated id is an error |
| Script.SetSpec | src/package/eval/script.rs:95-98 | `set` binds the variable to the value resolved against the current bindings |
| Script.RelationSpec | src/package/eval/script.rs:108-147 | each relation instruction appends to its own list at resolve level |
| Script.NoticeSpec | src/package/eval/script.rs:148-157 | a notice fails when more than ten are recorded or when its text is longer than 128 bytes |
| Script.CmdSpec | src/package/eval/script.rs:158-175 | `cmd` needs elevated permission at either level and is recorded only at install level |
| Script.EvalInstr | src/package/eval/script.rs:82-203 | the imperative `eval_instr` on a mutable `EvalData` follows `InstrSpec` |
| Script.EvalIf | src/package/eval/script.rs:90-94 | the mutable `if` follows its rule: a false condition changes nothing, a true one runs the block |
| Script.EvalRelationInstr | src/package/eval/script.rs:108-147 | the mutable relation instructions act at resolve level only, as `InstrSpec` says |
| Script.EvalEffectInstr | src/package/eval/script.rs:148-197 | the mutable `notice`, `cmd` and `addon` follow `InstrSpec` |
| Script.EffectSpec | src/package/eval/script.rs:148-197 | `notice` and `cmd` follow their rules at both levels; `addon` follows `AddonSpec` at install level and changes nothing at resolve level |
| Script.ControlSpec | src/package/eval/script.rs:90-107 | `if`, `set`, `finish` and `fail` follow their rules, and every other non-relation instruction is not allowed |
| Script.RelationInstrSpec | src/package/eval/script.rs:108-147 | a relation instruction follows `RelationSpec` at resolve level and changes nothing at install level |
| Script.EvalSet | src/package/eval/script.rs:95-98 | the mutable `set` follows `SetSpec` |
| Script.EvalRelation | src/package/eval/script.rs:108-147 | the mutable relation instructions follow `RelationSpec` |
| Script.EvalRequire | src/package/eval/script.rs:108-125 | the mutable `require` follows `RelationSpec`: every group resolved and appended, or the first error |
| Script.EvalCompat | src/package/eval/script.rs:137-142 | the mutable `compat` follows `RelationSpec`: both values resolved and appended as a pair |
| Script.EvalRefuseRecommend | src/package/eval/script.rs:122-131 | the mutable `refuse` and `recommend` follow `RelationSpec`, each pushing onto its own list |
| Script.EvalBundleExtend | src/package/eval/script.rs:132-147 | the mutable `bundle` and `extend` follow `RelationSpec`, each pushing onto its own list |
| Script.EvalAddon | src/package/eval/script.rs:176-197 | the mutable `addon` follows `AddonSpec` |
| Script.EvalNotice | src/package/eval/script.rs:148-157 | the mutable `notice` follows `NoticeSpec` |
| Script.EvalCmd | src/package/eval/script.rs:158-175 | the mutable `cmd` follows `CmdSpec` |
| Script.RequireGroups | src/package/eval/script.rs:108-125 | the nested `require` loops push each resolved group in turn; the first error stops them |
| Script.ResolveRequiredGroup | src/package/eval/script.rs:111-117 | the inner loop resolves one group's values in order and stops at the first error |
| Script.GroupsResolved | src/package/eval/script.rs:108-125 | when each group resolves, the whole `require` resolves to those groups in order |
| Script.GroupFirstError | src/package/eval/script.rs:110-118 | the first value that fails to resolve is the error of its group |
| Script.GroupsFirstError | src/package/eval/script.rs:108-125 | the first group that fails gives the error of the whole `require` |
| Script.EvalBlock | src/package/eval/script.rs:63-80 | the imperative `eval_block` follows `SeqSpec` |
| Script.EvalScriptPackage | src/package/eval/script.rs:34-61 | the imperative `eval_script_package` follows `ScriptSpec` |
| ScriptProps.SeqAppend | src/package/eval/script.rs:63-80 | running `a + b` is running `a`, then `b` unless `a` finished or failed |
| ScriptProps.FinishStops | src/package/eval/script.rs:52-57 | a `finish` ends the routine; nothing after it runs |
| ScriptProps.IfRules | src/package/eval/script.rs:90-94 | a false `if` changes nothing; a true one runs its block and passes on its finish flag |
| ScriptProps.SetRule | src/package/eval/script.rs:95-98 | `set` binds or rebinds the variable and changes nothing else |
| ScriptProps.FailRule | src/package/eval/script.rs:100-107 | `fail` is an error at either level |
| ScriptProps.InstallIgnoresRelations | src/package/eval/script.rs:108-147 | at install level the relation instructions change nothing |
| ScriptProps.RequireAppendsGroups | src/package/eval/script.rs:108-125 | at resolve level `require` appends one resolved list per group, in order |
| ScriptProps.RequireExample | src/package/eval/script.rs:108-125 | `require [a \| b, c]` gives the groups `[a, b]` and `[c]` |
| ScriptProps.CmdRules | src/package/eval/script.rs:158-175 | `cmd` needs elevation at either level and is recorded only at install level |
| ScriptProps.AddonRules | src/package/eval/script.rs:176-197 | `addon` does nothing at resolve level; at install level a repeated id is an error |
| ScriptProps.MetadataNotAllowed | src/package/eval/script.rs:198-201 | a metadata instruction is not allowed in the install routine |
| ScriptProps.RoutineMissingRule | src/package/eval/script.rs:40-48 | a missing routine, or a missing block, is an error naming the routine |
| ScriptProps.InstrKeeps | src/package/eval/script.rs:82-203 | one instruction keeps the notice and addon bounds and only appends to the lists its level allows |
| ScriptProps.EffectInstrKeeps | src/package/eval/script.rs:148-197 | `notice`, `cmd` and `addon` keep the notice and addon bounds and grow only the lists their level allows |
| ScriptProps.ControlInstrKeeps | src/package/eval/script.rs:90-107 | `if`, `set`, `finish` and `fail` keep those bounds and that growth |
| ScriptProps.SeqKeeps | src/package/eval/script.rs:63-80 | a block keeps those bounds and that growth |
| ScriptProps.ScriptResult | src/package/eval/script.rs:34-61 | a whole routine gives at most eleven notices of at most 128 bytes and distinct addon ids; install level collects no relations, resolve level no addons or commands |
| Metadata.EvalMetadata | crates/mcvm_parse/src/metadata.rs:25-61 | the imperative `eval_metadata` returns `MetadataSpec` |
| Metadata.Apply | crates/mcvm_parse/src/metadata.rs:36-57 | one metadata instruction sets its own field, and any other instruction is an error (`ApplySetsOwnField`, `ApplyOk`, `ApplyGet`) |
| Metadata.MetadataSpec | crates/mcvm_parse/src/metadata.rs:25-61 | the default when the `meta` routine or its block is missing, otherwise the block folded from the default (`MetadataResult`, `LastWins`, `MetaFoldOk`) |
| Metadata.ErrSticks | crates/mcvm_parse/src/metadata.rs:34-58 | the first error ends the loop |
| Metadata.ApplySetsOwnField | crates/mcvm_parse/src/metadata.rs:36-57 | one instruction sets exactly its own field and no other |
| Metadata.ApplyOk | crates/mcvm_parse/src/metadata.rs:36-57 | an instruction applies exactly when it is an accepted metadata instruction; any other is not allowed |
| Metadata.ApplyGet | crates/mcvm_parse/src/metadata.rs:36-57 | after one instruction its own field holds its value and every other field keeps its value |
| Metadata.MetaFoldOk | crates/mcvm_parse/src/metadata.rs:34-58 | the loop succeeds exactly when every instruction is an accepted metadata instruction |
| Metadata.LastWins | crates/mcvm_parse/src/metadata.rs:34-58 | the last instruction of a field's kind wins; unset fields keep their value |
| Metadata.MetadataResult | crates/mcvm_parse/src/metadata.rs:25-61 | each field holds the value of the last instruction that sets it, or stays unset |
| Versions.FromText | src/util/versions.rs:19-21 | `MinecraftVersion::from` keeps the text |
| Versions.AsString | src/util/versions.rs:23-28 | the version's text, which `FromText` gives back unchanged and which determines the version (`FromText`, `AsStringInjective`) |
| Versions.AsStringInjective | src/util/versions.rs:23-28 | two versions with the same text are the same |
| Versions.NewVersionNotFound | src/util/versions.rs:8-12 | the error stores exactly the version given |
| Versions.Matches | src/util/versions.rs:37-46 | a single pattern matches its own version exactly when the list has it |
| Versions.MatchesBySet | src/util/versions.rs:37-46 | matching depends only on which versions the list holds |
| Asset.KindFromStrExact | src/data/asset.rs:11-20 | exactly the five names are accepted, each giving its own kind |
| Asset.KindFromStr | src/data/asset.rs:11-20 | exactly the five configuration names give their kinds and all else is None (`KindFromStrExact`, `KindRoundTrip`, `KindCaseSensitive`) |
| Asset.KindRoundTrip | src/data/asset.rs:11-20 | reading a kind's name gives the kind back |
| Asset.KindCaseSensitive | src/data/asset.rs:11-20 | the match is case-sensitive |
| Asset.ModloaderFromStrExact | src/data/asset.rs:44-51 | exactly `forge` and `fabric` are accepted, each giving its own modloader |
| Asset.ModloaderFromStr | src/data/asset.rs:44-51 | exactly `forge` and `fabric` give their modloaders and all else is None (`ModloaderFromStrExact`, `ModloaderCaseSensitive`) |
| Asset.ModloaderCaseSensitive | src/data/asset.rs:44-51 | the match is case-sensitive |
| Asset.NewAsset | src/data/asset.rs:29-34 | stores the kind and the name unchanged |
| ProfileConfig.ClientSideModloader | src/data/config/profile.rs:36-45 | an unset client type falls back to the configured modloader; any other type gives the modloader of the same name |
| ProfileConfig.GetModloader | src/data/config/profile.rs:36-54 | the modloader one side runs: an unset type falls back to the configured modloader, a Paper server runs vanilla, any other type its same-named modloader (`ClientSideModloader`, `ServerSideModloader`) |
| ProfileConfig.ServerSideModloader | src/data/config/profile.rs:46-54 | an unset server type falls back to the modloader, Paper runs on vanilla, any other type gives its own modloader |
| ProfileConfig.CommonModloaderByName | src/data/config/profile.rs:57-68 | client and server share a modloader exactly when their types have the same name; a Paper server never does |
| ProfileConfig.CommonModloaderSameOnBothSides | src/data/config/profile.rs:36-68 | a common modloader is the same on both sides |
| ProfileConfig.ToProfile | src/data/config/profile.rs:94-101 | the modloader, client type and server type pass through unchanged |
| Instance.ToSide | src/data/instance/mod.rs:38-44 | client instances run the client side and server instances the server side |
| Instance.GetDir | src/data/instance/mod.rs:82-87 | the instance's directory under the kind's directory, named by its id |
| Instance.GetSubdir | src/data/instance/mod.rs:89-95 | a client's game files are in `.minecraft` inside its directory, a server's in the directory itself |
| Instance.LinkedAddonPath | src/data/instance/mod.rs:120-146 | the addon's link inside the subdirectory of its kind, when the instance kind supports it |
| Instance.AddonLink | src/data/instance/mod.rs:120-146 | the link's path ends with the addon's file name |
| Instance.AddonDirsDistinct | src/data/instance/mod.rs:120-146 | each addon kind has a directory of its own |
| Instance.AddonLinksIsolated | src/data/instance/mod.rs:120-146 | instances that differ in kind or id never share an addon link |
| Instance.TeardownTargetsShape | src/data/instance/mod.rs:192-218 | a client's game jar is beside the game directory, a server's inside it |
| Instance.TeardownKeepsAddons | src/data/instance/mod.rs:192-218 | tearing an instance down never removes an addon link |
| Instance.FileSystem.CreateDir | src/data/instance/mod.rs:158-159 | the directory exists afterwards and nothing else changes |
| Instance.FileSystem.CreateLeadingDirs | src/data/instance/mod.rs:150-151 | every proper prefix of the path exists as a directory afterwards |
| Instance.FileSystem.UpdateHardlink | src/data/instance/mod.rs:152 | the link holds the source's content, replacing any earlier file |
| Instance.FileSystem.RemoveIfExists | src/data/instance/mod.rs:171-176 | an existing file is gone afterwards; a missing one is no error |
| Instance.LinkAddon | src/data/instance/mod.rs:148-154 | the link is created with its leading directories |
| Instance.CreateAddon | src/data/instance/mod.rs:156-166 | the game directory exists and the addon is linked exactly when the instance can hold it |
| Instance.RemoveAddon | src/data/instance/mod.rs:168-179 | only the addon's own link is removed; directories stay |
| Instance.RemovePaper | src/data/instance/mod.rs:181-190 | the Paper jar is removed from a server's directory |
| Instance.Teardown | src/data/instance/mod.rs:192-218 | exactly the teardown targets are removed |
| Create.RequiredJava | src/data/instance/create.rs:27-62 | the Java requirement, with the Adoptium version left empty |
| Create.GetRequirements | src/data/instance/create.rs:27-62 | the requirements of a client or server with its Java and game modifications |
| UpdateManager.UpdateMethodResult.constructor | src/data/profile/update/manager.rs:301-304 | a new result lists no files |
| UpdateManager.UpdateMethodResult.FromPath | src/data/profile/update/manager.rs:306-311 | a result listing exactly the one path |
| UpdateManager.UpdateManager.constructor | src/data/profile/update/manager.rs:69-88 | a new manager keeps the force and offline flags and starts with no requirements, no files and nothing loaded |
| UpdateManager.UpdateMethodResult.Merge | src/data/profile/update/manager.rs:313-317 | the files of both results |
| UpdateManager.UpdateManager.SetClientId | src/data/profile/update/manager.rs:90-93 | stores the client id and changes nothing else |
| UpdateManager.UpdateManager.AddRequirement | src/data/profile/update/manager.rs:95-98 | afterwards the requirement is held, and nothing else has changed |
| UpdateManager.UpdateManager.AddRequirements | src/data/profile/update/manager.rs:100-103 | afterwards all the requirements are held |
| UpdateManager.UpdateManager.AddFiles | src/data/profile/update/manager.rs:110-113 | the files are added to those already written |
| UpdateManager.UpdateManager.AddResult | src/data/profile/update/manager.rs:115-118 | a result's files are added to those already written |
| UpdateManager.UpdateManager.ShouldUpdateFile | src/data/profile/update/manager.rs:120-128 | a file is fetched when it is missing, or when forced and not yet written by this update |
| UpdateManager.UpdateManager.SetVersion | src/data/profile/update/manager.rs:130-136 | the version is set and what was derived from the old one is cleared |
| UpdateManager.AddResultThenSkip | src/data/profile/update/manager.rs:115-128 | once an update step's files are added, a forced update does not fetch them again while they exist |
| ClientOptions.ToIntIsDeclarationIndex | src/io/options/client.rs:510-681 | each option enumeration's integer is the variant's position in its declaration |
| ClientOptions.GraphicsModeToInt | src/io/options/client.rs:516-520 | Fast, Fancy and Fabulous give 0, 1 and 2, their declaration positions (`ToIntIsDeclarationIndex`) |
| ClientOptions.ParticlesModeToInt | src/io/options/client.rs:530-534 | each mode gives its declaration position (`ToIntIsDeclarationIndex`) |
| ClientOptions.DifficultyToInt | src/io/options/client.rs:545-549 | Peaceful to Hard give 0 to 3 (`ToIntIsDeclarationIndex`) |
| ClientOptions.ChunkUpdatesModeToInt | src/io/options/client.rs:559-563 | each mode gives its declaration position (`ToIntIsDeclarationIndex`) |
| ClientOptions.ChatVisibilityToInt | src/io/options/client.rs:591-595 | each visibility gives its declaration position (`ToIntIsDeclarationIndex`) |
| ClientOptions.AttackIndicatorModeToInt | src/io/options/client.rs:621-625 | each mode gives its declaration position (`ToIntIsDeclarationIndex`) |
| ClientOptions.NarratorModeToInt | src/io/options/client.rs:636-640 | each mode gives its declaration position (`ToIntIsDeclarationIndex`) |
| ClientOptions.LogLevelToInt | src/io/options/client.rs:676-680 | each level gives its declaration position (`ToIntIsDeclarationIndex`) |
| ClientOptions.CloudRenderModeText | src/io/options/client.rs:567-583 | cloud modes are written `true`, `fast` and `false` |
| ClientOptions.MainHandText | src/io/options/client.rs:599-613 | the main hand is written `left` or `right` |
| ClientOptions.TutorialStepText | src/io/options/client.rs:644-666 | the variant name in snake case |
| ClientOptions.TutorialStepSnakeCase | src/io/options/client.rs:644-666 | each step's text is its variant name with `_` before each inner capital, lower-cased |
| ClientOptions.DisplayInjective | src/io/options/client.rs:567-666 | the written texts tell the variants apart |
| ClientOptions.DefaultValues | src/io/options/client.rs:474-508 | the defaults the options file relies on (render distance 12, max fps 120, language `en_us`, ...) |
| ClientOptions.DefaultRenderDistance | src/io/options/client.rs:718-725 | 12 on 64-bit targets and 8 otherwise, the simulation distance too (`DefaultValues`) |
| ClientOptions.DefaultKeyOptions | src/io/options/client.rs:81-120 | the default key bindings (part of `DefaultClientOptions`, whose values `DefaultValues` states) |
| ClientOptions.DefaultControlOptions | src/io/options/client.rs:146-161 | the default control settings (part of `DefaultClientOptions`) |
| ClientOptions.DefaultChatOptions | src/io/options/client.rs:199-220 | the default chat settings (part of `DefaultClientOptions`) |
| ClientOptions.DefaultVideoOptions | src/io/options/client.rs:282-315 | the default video settings: fov and gui scale 0, max fps 120, biome blend 2, mipmap levels 4, no fullscreen resolution (`DefaultValues`) |
| ClientOptions.DefaultVolumeOptions | src/io/options/client.rs:341-356 | every volume at full (part of `DefaultClientOptions`) |
| ClientOptions.DefaultSoundOptions | src/io/options/client.rs:370-379 | the default sound settings, with no device set (`DefaultValues`) |
| ClientOptions.DefaultSkinOptions | src/io/options/client.rs:399-411 | every skin part shown (part of `DefaultClientOptions`) |
| ClientOptions.DefaultClientOptions | src/io/options/client.rs:473-506 | data version 3337, no custom keys, no resource packs, language `en_us`, chunk writes synchronised except on Windows (`DefaultValues`) |
| OptionsWrite.WriteResourcePacks | src/io/options/write.rs:9-18 | the imperative list writer returns `ResourcePacksText` |
| OptionsWrite.QuotedListAppend | src/io/options/write.rs:9-18 | each pack adds its own `"name",` to the list text |
| OptionsWrite.ResourcePacksShape | src/io/options/write.rs:9-18 | an empty list is written `[]`; each name is quoted and followed by a comma, the last one too |
| OptionsWrite.FullscreenResolutionInjective | src/io/options/write.rs:20-29 | the resolution text determines the resolution |
| OptionsWrite.WriteKey | src/io/options/write.rs:239-243 | one `key:value` line |
| OptionsWrite.KeyLineReadBack | src/io/options/write.rs:239-243 | a key without a colon can be read back from its line, and so can the value |
| OptionsWrite.WriteBasic | src/io/options/write.rs:63-77 | the imperative section updates the map as `BasicKeys` |
| OptionsWrite.WriteVisual | src/io/options/write.rs:78-87 | the imperative section updates the map as `VisualKeys` |
| OptionsWrite.WriteEffects | src/io/options/write.rs:88-101 | the imperative section updates the map as `EffectsKeys` |
| OptionsWrite.WriteRendering | src/io/options/write.rs:102-120 | the imperative section updates the map as `RenderingKeys` |
| OptionsWrite.WriteChat | src/io/options/write.rs:121-140 | the imperative section updates the map as `ChatKeys` |
| OptionsWrite.WriteInterface | src/io/options/write.rs:141-152 | the imperative section updates the map as `InterfaceKeys` |
| OptionsWrite.WriteWarnings | src/io/options/write.rs:153-162 | the imperative section updates the map as `WarningsKeys` |
| OptionsWrite.WriteWorld | src/io/options/write.rs:163-170 | the imperative section updates the map as `WorldKeys` |
| OptionsWrite.WriteKeyBinds | src/io/options/write.rs:172-193 | the imperative section updates the map as `KeyBindsKeys` |
| OptionsWrite.WriteToolbarAndHotbar | src/io/options/write.rs:194-207 | the imperative section updates the map as `ToolbarAndHotbarKeys` |
| OptionsWrite.WriteVolumeAndSkin | src/io/options/write.rs:209-233 | the imperative section updates the map as `VolumeAndSkinKeys` |
| OptionsWrite.WriteKeys | src/io/options/write.rs:31-236 | the imperative `write_keys` never fails and returns `OptionsKeys` |
| OptionsWriteProps.BasicGrows | src/io/options/write.rs:63-77 | the section writes all its unconditional keys and keeps the earlier ones |
| OptionsWriteProps.VisualGrows | src/io/options/write.rs:78-87 | the same for its section |
| OptionsWriteProps.EffectsGrows | src/io/options/write.rs:88-101 | the same for its section |
| OptionsWriteProps.RenderingGrows | src/io/options/write.rs:102-120 | the same for its section |
| OptionsWriteProps.ChatGrows | src/io/options/write.rs:121-140 | the same for its section |
| OptionsWriteProps.InterfaceGrows | src/io/options/write.rs:141-152 | the same for its section |
| OptionsWriteProps.WarningsGrows | src/io/options/write.rs:153-162 | the same for its section |
| OptionsWriteProps.WorldGrows | src/io/options/write.rs:163-170 | the same for its section |
| OptionsWriteProps.KeyBindsGrows | src/io/options/write.rs:172-193 | the same for its section |
| OptionsWriteProps.ToolbarAndHotbarGrows | src/io/options/write.rs:194-207 | the same for its section |
| OptionsWriteProps.VolumeAndSkinGrows | src/io/options/write.rs:209-233 | the same for its section |
| OptionsWriteProps.AutoSuggestionsGate | src/io/options/write.rs:64-66 | `autoSuggestions` is written exactly for versions after 17w47a, with the chat setting |
| OptionsWriteProps.DirectionalAudioGate | src/io/options/write.rs:78-80 | `directionalAudio` is written exactly after 22w11a |
| OptionsWriteProps.DarkMojangStudiosBackgroundGate | src/io/options/write.rs:85-87 | `darkMojangStudiosBackground` is written exactly after 21w13a |
| OptionsWriteProps.HideLightningFlashesGate | src/io/options/write.rs:88-89 | `hideLightningFlashes` is written exactly after 21w37a |
| OptionsWriteProps.PrioritizeChunkUpdatesGate | src/io/options/write.rs:88-90 | `prioritizeChunkUpdates` is written exactly after 21w37a, as the mode's integer |
| OptionsWriteProps.SoundDeviceGate | src/io/options/write.rs:88-93 | `soundDevice` is written exactly after 21w37a when a device is set, with that device |
| OptionsWriteProps.DarknessEffectScaleGate | src/io/options/write.rs:99-101 | `darknessEffectScale` is written exactly after 22w15a |
| OptionsWriteProps.SimulationDistanceGate | src/io/options/write.rs:104-106 | `simulationDistance` is written exactly after 21w38a |
| OptionsWriteProps.BiomeBlendRadiusGate | src/io/options/write.rs:114-116 | `biomeBlendRadius` is written exactly after 18w15a |
| OptionsWriteProps.HeldItemTooltipsGate | src/io/options/write.rs:131-133 | `heldItemTooltips` is written exactly after 12w50a and before 1.19.4 |
| OptionsWriteProps.NarratorGate | src/io/options/write.rs:142-143 | `narrator` is written exactly after 17w06a, as the mode's integer |
| OptionsWriteProps.TutorialStepGate | src/io/options/write.rs:142-144 | `tutorialStep` is written exactly after 17w06a |
| OptionsWriteProps.MouseWheelSensitivityGate | src/io/options/write.rs:146-148 | `mouseWheelSensitivity` is written exactly after 18w21a |
| OptionsWriteProps.GlDebugVerbosityGate | src/io/options/write.rs:150-152 | `glDebugVerbosity` is written exactly after 1.13-pre2 |
| OptionsWriteProps.SkipMultiplayerWarningGate | src/io/options/write.rs:153-155 | `skipMultiplayerWarning` is written exactly after 1.15.2-pre1 |
| OptionsWriteProps.SkipRealms32bitWarningGate | src/io/options/write.rs:156-158 | `skipRealms32bitWarning` is written exactly after 1.18.2-pre1 |
| OptionsWriteProps.HideMatchedNamesGate | src/io/options/write.rs:159-160 | `hideMatchedNames` is written exactly after 1.16.4-rc1 |
| OptionsWriteProps.JoinedFirstServerGate | src/io/options/write.rs:159-161 | `joinedFirstServer` is written exactly after 1.16.4-rc1 |
| OptionsWriteProps.ShowAutosaveIndicatorGate | src/io/options/write.rs:165-167 | `showAutosaveIndicator` is written exactly after 21w42a |
| OptionsWriteProps.AllowServerListingGate | src/io/options/write.rs:168-170 | `allowServerListing` is written exactly after 1.18-pre2 |
| OptionsWriteProps.KeyKeySaveToolbarActivatorGate | src/io/options/write.rs:194-195 | `key_key.saveToolbarActivator` is written exactly after 17w06a |
| OptionsWriteProps.KeyKeyLoadToolbarActivatorGate | src/io/options/write.rs:194-196 | `key_key.loadToolbarActivator` is written exactly after 17w06a |
| OptionsWriteProps.KeyKeyAdvancementsGate | src/io/options/write.rs:194-197 | `key_key.advancements` is written exactly after 17w06a |
| OptionsWriteProps.AllowBlockAlternativesGate | src/io/options/write.rs:227-229 | `allowBlockAlternatives` is written exactly after 14w28a and before 15w31a |
| OptionsWriteProps.FullscreenResolutionGate | src/io/options/write.rs:231-233 | `fullscreenResolution` is written exactly when a resolution is set, as its text |
| OptionsWriteProps.BasicGated | src/io/options/write.rs:63-77 | every version-gated key of the section is present exactly when its gate holds |
| OptionsWriteProps.VisualGated | src/io/options/write.rs:78-87 | the same for its section |
| OptionsWriteProps.EffectsGated | src/io/options/write.rs:88-101 | the same for its section |
| OptionsWriteProps.RenderingGated | src/io/options/write.rs:102-120 | the same for its section |
| OptionsWriteProps.ChatGated | src/io/options/write.rs:121-140 | the same for its section |
| OptionsWriteProps.InterfaceGated | src/io/options/write.rs:141-152 | the same for its section |
| OptionsWriteProps.WarningsGated | src/io/options/write.rs:153-162 | the same for its section |
| OptionsWriteProps.WorldGated | src/io/options/write.rs:163-170 | the same for its section |
| OptionsWriteProps.ToolbarAndHotbarGated | src/io/options/write.rs:194-207 | the same for its section |
| OptionsWriteProps.VolumeAndSkinGated | src/io/options/write.rs:209-233 | the same for its section |
| OptionsWriteProps.UngatedPresent | src/io/options/write.rs:31-236 | every unconditional key is written for every version |
| OptionsWriteProps.FixedValues | src/io/options/write.rs:118-120 | `incompatibleResourcePacks` is `[]`, `resourcePacks` is the pack list's text and `lang` the language, for every version |
| MinecraftIo.SideText | src/io/minecraft.rs:51-54 | the two sides are written `client` and `server` |
| MinecraftIo.JarPath | src/io/minecraft.rs:51-54 | `{version}_{side}.jar` in the jars directory |
| MinecraftIo.JarPathsDistinct | src/io/minecraft.rs:51-54 | the client and server jars of a version are different files |
| MinecraftIo.ExistingJar | src/io/minecraft.rs:58-68 | the client jar when it exists, else the server jar, else an error |
| MinecraftIo.GetExistingPath | src/io/minecraft.rs:58-68 | the imperative lookup returns `ExistingJar` |
| MinecraftIo.ExtractVersionJson | src/io/minecraft.rs:26-35 | version.json is read from the existing jar, or the lookup's error |
| MinecraftIo.DataVersion | src/io/minecraft.rs:39-80 | versions after 18w47b read it from the jar; older ones use the fixed table |
| MinecraftIo.DataVersionNeedsJarOnlyWhenNew | src/io/minecraft.rs:72-80 | the jar is needed only for versions after 18w47b |
| MinecraftIo.OldDataVersion | src/io/minecraft.rs:84-577 | the fixed table; every listed version gives a data version between 100 and 3570 |
| MinecraftIo.OldDataVersionNewest | src/io/minecraft.rs:86-90 | `23w33a` gives 3570 and `1.19.4` gives 3337 |
| MinecraftIo.OldDataVersionOldest | src/io/minecraft.rs:572-576 | `18w47b` gives 1913 and `15w32a` gives 100 |
| MinecraftIo.OldDataVersionCaseSensitive | src/io/minecraft.rs:84-577 | the table is case-sensitive: "Pre-Release" is listed and "Pre-release" is not |
| MinecraftIo.OldDataVersionUnlisted | src/io/minecraft.rs:576-577 | unlisted versions, the empty one included, give None |
| MinecraftIo.OldDataVersionNotInjective | src/io/minecraft.rs:84-577 | two versions may share a data version (15w33a and 15w33b give 111) |
| Json.Get | src/data/config/mod.rs:117 | the value of the first member with the key, if any |
| Json.EnsureType | src/data/config/mod.rs:107 | a missing cast result is a type error naming the expected kind |
| Json.AccessObject | src/data/config/mod.rs:106 | an absent key is a missing-key error; a present one must be an object |
| Json.AccessArray | src/net/minecraft.rs:66 | an absent key is a missing-key error; a present one must be an array |
| Json.AccessStr | src/data/config/mod.rs:108 | an absent key is a missing-key error; a present one must be a string |
| Json.AccessStrOk | src/data/config/mod.rs:108 | a string accessor succeeds exactly on a key whose value is a string, and gives that string |
| Json.GetFirst | src/data/config/mod.rs:117 | the first member with a key is the one a lookup finds |
| NetMinecraft.Ids | src/net/minecraft.rs:66-70 | one id per entry in order, or the first entry's error |
| NetMinecraft.IdsOk | src/net/minecraft.rs:66-70 | the ids exist exactly when every entry is an object with a string `id` |
| NetMinecraft.MakeVersionList | src/net/minecraft.rs:62-73 | the imperative loop and reversal return `VersionList` |
| NetMinecraft.VersionList | src/net/minecraft.rs:62-73 | the manifest's ids in reverse order, or the first malformed entry's error (`VersionListReversed`, `VersionListNeedsArray`) |
| NetMinecraft.VersionListNeedsArray | src/net/minecraft.rs:66 | without a `versions` array there is no version list |
| NetMinecraft.VersionListReversed | src/net/minecraft.rs:62-73 | the list has one id per entry, in reverse order, and exists exactly when every entry has a string id |
| NetMinecraft.FindVersionUrl | src/net/minecraft.rs:92-107 | the imperative search of `get_version_json` returns `VersionUrl` |
| NetMinecraft.VersionUrl | src/net/minecraft.rs:92-107 | the url of the last entry with the version's id, VersionNotFound when none has it (`VersionNotFoundIffAbsent`, `LastUrlIsLastMatch`, `LastDuplicateWins`) |
| NetMinecraft.LastUrlNoneIffAbsent | src/net/minecraft.rs:92-107 | a successful scan finds nothing exactly when no entry has the id |
| NetMinecraft.LastUrlIsLastMatch | src/net/minecraft.rs:92-107 | a url found is that of the last entry with the id |
| NetMinecraft.EntryUrl | src/net/minecraft.rs:99-103 | an entry must be an object with a string id; one with the wanted id gives its own url, any other keeps the url found before |
| NetMinecraft.VersionNotFoundIffAbsent | src/net/minecraft.rs:104-107 | VersionNotFound exactly when no well-formed entry has the id |
| NetMinecraft.LastDuplicateWins | src/net/minecraft.rs:92-107 | of two entries for one version, the later one's url is used |
| NetMinecraft.LibraryAllowed | src/net/minecraft.rs:133-148 | a library without `rules` is allowed |
| NetMinecraft.IsLibraryAllowed | src/net/minecraft.rs:133-148 | the imperative rule loop returns `LibraryAllowed` |
| NetMinecraft.RuleWithoutOsHasNoEffect | src/net/minecraft.rs:137-145 | a rule without `os` never rejects, whatever its action |
| NetMinecraft.RuleRejects | src/net/minecraft.rs:136-146 | a rule with an `os` rejects when its action's verdict differs from whether it names this system; one without never does (`RuleWithoutOsHasNoEffect`) |
| NetMinecraft.RulesAllow | src/net/minecraft.rs:133-148 | the rule loop stops at the first rejection (`RulesAllowSpec`, `RulesAllowTrue`, `RulesAllowFalse`) |
| NetMinecraft.RulesAllowSpec | src/net/minecraft.rs:133-148 | the rules allow the library exactly when every rule is well formed and none rejects, and forbid it exactly when a rule rejects after well-formed ones |
| NetMinecraft.RulesAllowTrue | src/net/minecraft.rs:135-148 | the rules allow the library exactly when every rule is well formed and none rejects |
| NetMinecraft.RulesAllowFalse | src/net/minecraft.rs:135-145 | the rules forbid the library exactly when some rule rejects and every rule before it is well formed and does not |
| NetMinecraft.LibEntry | src/net/minecraft.rs:272-291 | a library's classpath entry lies under the natives or the libraries directory |
| NetMinecraft.NativesEntry | src/net/minecraft.rs:277-286 | a library with `natives` adds the classifier path named by this system's key, under the natives directory |
| NetMinecraft.ArtifactEntry | src/net/minecraft.rs:288-293 | a library without `natives` adds its artifact path under the libraries directory, or nothing without an artifact |
| NetMinecraft.Classpath | src/net/minecraft.rs:270-294 | at most one entry per library, each under one of the two directories |
| NetMinecraft.LibraryEntry | src/net/minecraft.rs:272-291 | the imperative loop body returns `LibEntry` |
| NetMinecraft.ClasspathStep | src/net/minecraft.rs:271-294 | one more library extends the classpath by its entry, if it has one, or the classpath fails with that library's error |
| NetMinecraft.GetLibClasspath | src/net/minecraft.rs:262-294 | the imperative `get_lib_classpath` returns `LibClasspath` |
| NetMinecraft.LibClasspath | src/net/minecraft.rs:262-294 | the classpath of the `libraries` array under the internal directory's `natives` and `libraries` (`Classpath`, `LibEntryChoices`, `GetLibClasspath`) |
| NetMinecraft.LibEntryChoices | src/net/minecraft.rs:272-291 | a forbidden library adds nothing; an allowed one with `natives` adds its classifier under `natives`; otherwise its artifact under `libraries` |
| NetMinecraft.AssetHashPath | src/net/minecraft.rs:366-368 | `hash[0..2]/hash`, and None for a hash shorter than two characters |
| NetMinecraft.AssetHashPathInjective | src/net/minecraft.rs:366-368 | the object path determines the hash |
| NetMinecraft.AssetUrl | src/net/minecraft.rs:366-367 | the resources prefix followed by the object path |
| NetMinecraft.AssetPath | src/net/minecraft.rs:366-369 | `objects/<first two characters>/<hash>` inside the assets directory, existing exactly when the hash has two characters |
| NetMinecraft.KindText | src/net/minecraft.rs:407-410 | an instance kind's text is that of its side |
| NetMinecraft.GameJarPathsAgree | src/net/minecraft.rs:407-410 | the download code and the version.json reader name the same jar |
| NetMinecraft.GameJarPath | src/net/minecraft.rs:407-410 | a single `{version}_{side}.jar` name inside the jars directory, the same file the version.json reader opens (`GameJarPathsAgree`) |
| CorePackages.GetCorePackage | src/package/core/mod.rs:23-45 | a package found is the one with that name |
| CorePackages.GetCorePackageContentType | src/package/core/mod.rs:48-70 | every core package is a script package |
| CorePackages.CorePackageFile | src/package/core/mod.rs:23-45 | a core package's contents come from the file named after it |
| CorePackages.CorePackageHasContentType | src/package/core/mod.rs:48-74 | a name is a core package exactly when it has a content type, and that type is Script |
| CorePackages.GetCorePackageByName | src/package/core/mod.rs:23-45 | every bundled package is found under its own name |
| CorePackages.IsCorePackageIffNamed | src/package/core/mod.rs:72-74 | a name is a core package exactly when it names one |
| CorePackages.IsCorePackage | src/package/core/mod.rs:72-74 | a name is a core package exactly when it names one of the bundled packages, and exactly when it has a content type (`IsCorePackageIffNamed`, `CorePackageHasContentType`) |
| CorePackages.CorePackagesDistinct | src/package/core/mod.rs:23-45 | different names give different packages |
| Config.UserKindOf | src/data/config/mod.rs:108-112 | `microsoft` and `demo` name the user kinds; any other type is a UserType error naming it and the user |
| Config.UserEntry | src/data/config/mod.rs:107-119 | the user's type is checked before its name is read; the user keeps its document id |
| Config.UsersFold | src/data/config/mod.rs:106-122 | the users map has exactly the document's user ids |
| Config.AuthStateFor | src/data/config/mod.rs:124-134 | no `default_user` means offline; a string names a configured user, else DefaultUserNotFound; a non-string is a type error |
| Config.LoadAuthUsers | src/data/config/mod.rs:106-134 | the loaded users are the document's, and an authenticated user is one of them |
| Config.InstKindOf | src/data/config/mod.rs:153-157 | `client` and `server` name the instance kinds; any other type is an InstType error |
| Config.InstanceStep | src/data/config/mod.rs:148-162 | an id registered anywhere before is DuplicateInstance; otherwise it is registered and appended to the profile |
| Config.InstancesFoldOk | src/data/config/mod.rs:145-163 | a profile's instances are registered and listed in document order |
| Config.InstancesFoldFresh | src/data/config/mod.rs:148-150 | no instance of a profile was registered before, and none repeats |
| Config.FeaturesFold | src/data/config/mod.rs:197-201 | every feature must be a string; the result lists them in order |
| Config.FeaturesFoldStrings | src/data/config/mod.rs:197-201 | a list of strings is always accepted |
| Config.FeaturesOf | src/data/config/mod.rs:194-205 | no features gives `[]`; a non-array is a type error |
| Config.VersionOf | src/data/config/mod.rs:169-174 | a given version is an exact version pattern, an absent one Latest |
| Config.PackageStepErrors | src/data/config/mod.rs:176-192 | an unknown package type is PkgType; a local package needs a path and then an exact version, else LocalPackageVersion |
| Config.PackageStepRemote | src/data/config/mod.rs:165-211 | a remote or untyped package is appended and leaves the registry alone |
| Config.PackageStepRequested | src/data/config/mod.rs:165-211 | one package entry appends one configuration and registers at most a local package of that exact request |
| Config.PackagesFoldRequested | src/data/config/mod.rs:165-213 | every local package registered belongs to its profile and is one of the profile's requests, with an exact version |
| Config.ProfileStepInstances | src/data/config/mod.rs:137-216 | a profile registers the instances it lists, none of them registered before |
| Config.ProfilesFoldRegisters | src/data/config/mod.rs:137-216 | every listed instance is registered, and no two profiles list the same id |
| Config.ListsDisjointPairwise | src/data/config/mod.rs:148-150 | the profiles' instance lists are pairwise disjoint |
| Config.LoadNoSharedInstances | src/data/config/mod.rs:96-225 | in a loaded configuration no instance is under two profiles, and every listed one is registered |
| Config.DefaultConfigLoads | src/data/config/mod.rs:20-45 | the default configuration loads: user `example` offline, profile `example` on 1.19.3 with a client and a server |
| Config.UsersFoldErrSticks | src/data/config/mod.rs:106-122 | the first user entry in error ends the loop with that error |
| Config.InstancesFoldErrSticks | src/data/config/mod.rs:145-163 | the first instance in error ends the loop with that error |
| Config.FeaturesFoldErrSticks | src/data/config/mod.rs:197-201 | the first feature in error ends the loop with that error |
| Config.PackagesFoldErrSticks | src/data/config/mod.rs:165-213 | the first package in error ends the loop with that error |
| Config.ProfilesFoldErrSticks | src/data/config/mod.rs:137-216 | the first profile in error ends the loop with that error |
| Config.LocalsRequestedTrans | src/data/config/mod.rs:165-213 | a registered local package stays one of its profile's requests as further packages are read |
| Config.DefaultAuth | src/data/config/mod.rs:106-134 | the default users section loads to the one Microsoft user `example`, named `ExampleUser441`, with no default user, so offline |
| Config.DefaultInstances | src/data/config/mod.rs:145-163 | the default profile registers the client `example-client` and the server `example-server` on 1.19.3, in that order |
| Config.DefaultProfiles | src/data/config/mod.rs:137-216 | the default profiles section loads to the single profile `example` on 1.19.3 with no packages |
| Config.DefaultNoPreferences | src/data/config/mod.rs:20-45 | the default configuration has no `preferences` section |
| Config.LoadUsers | src/data/config/mod.rs:106-122 | the imperative users loop returns `UsersFold` |
| Config.LoadInstances | src/data/config/mod.rs:145-163 | the imperative instances loop returns `InstancesFold` |
| Config.LoadFeatures | src/data/config/mod.rs:194-203 | the imperative features loop returns `FeaturesFold` |
| Config.LoadPackage | src/data/config/mod.rs:165-211 | the imperative package body returns `PackageStep` |
| Config.LoadPackages | src/data/config/mod.rs:165-213 | the imperative packages loop returns `PackagesFold` |
| Config.LoadProfile | src/data/config/mod.rs:138-215 | the imperative profile body returns `ProfileStep` |
| Config.LoadProfiles | src/data/config/mod.rs:137-216 | the imperative profiles loop returns `ProfilesFold` |
| Config.LoadFromObj | src/data/config/mod.rs:96-225 | the imperative `load_from_obj` returns `Load` |
| Config.Load | src/data/config/mod.rs:96-225 | preferences, then users, then profiles; the first error stops the load, and a loaded configuration lists no instance under two profiles (`LoadNoSharedInstances`, `LoadAuthUsers`, `DefaultConfigLoads`) |
| Launch.MemoryCount | src/data/instance/launch/mod.rs:60-70 | at most two memory arguments |
| Launch.GenerateJvmArgs | src/data/instance/launch/mod.rs:60-70 | the configured JVM arguments unchanged, then the initial memory argument when set, then the maximum one when set |
| Stats.FormatTimeAsWritten | plugins/plugins/stats/main.rs:61-69 | as written: from 3600 minutes the days count is the minutes divided by 3600 |
| Stats.FormatTimeAsWrittenMiscountsDays | plugins/plugins/stats/main.rs:66-67 | 3600 minutes, two and a half days, are shown as "1 days" |
| Stats.FormatTimeCountsWholeUnits | plugins/plugins/stats/main.rs:61-69 | corrected: each branch shows the whole minutes, hours or days (1440 minutes) in the playtime |
| Stats.FormatTime | plugins/plugins/stats/main.rs:61-69 | corrected: the whole minutes, hours or 1440-minute days in the playtime (`FormatTimeCountsWholeUnits`, `FormatTimeUnits`) |
| Stats.FormatTimeUnits | plugins/plugins/stats/main.rs:61-69 | an hours count is from 1 to 59, a days count at least 2 |
| Stats.IncrementU32 | plugins/plugins/stats/main.rs:35 | a u32 increment, which wraps around at 2^32 |
| Stats.Launched | plugins/plugins/stats/main.rs:30-37 | the launched instance's count goes up by one (a new entry is created with zero playtime); nothing else changes |
| Stats.LaunchesCommute | plugins/plugins/stats/main.rs:30-37 | launches of two instances can be recorded in either order |
| Stats.StatsFile.RecordLaunch | plugins/plugins/stats/main.rs:30-37 | the stored stats become `Launched` of the old ones |

## Left out

- The dependency resolver at src/package/eval/mod.rs:422-467 is not part of this model. The same holds for the package-script parser and the async `Package::eval` driver.
- `Value::get`, `eval_condition`, `parse_arg`, `is_valid_identifier`, version ordering (`VersionPattern::matches_single`), file existence, `mojang::is_allowed`, `OS_STRING`, `MemoryArg`'s text and `ConfigPreferences::read` are parameters.
- Downloads, the network, file reading and writing, zip extraction, printing and the progress output are left out. Their I/O errors are not modelled.
- Filesystem effects are modelled by `Instance.FileSystem`: a set of directories, a set of files and a map from each hard link created to the file it links to, without file contents, permissions or concurrency.
- Instance: a path is a sequence of components and each `join` adds exactly one; instance ids and addon file names are assumed to be single path components (no `/`, no `..`, not absolute), which `AddonLinksIsolated` and `TeardownKeepsAddons` rely on.
- Floating-point option values are kept as their display text.
- JSON objects are sequences of members in iteration order, and a lookup finds the first member with the key. The launcher's map type has unique keys, so that choice changes nothing.
- The JSON error variants of `util::json` are modelled as MissingKey and WrongType, because that module is not part of this model.
- OptionsWrite.WriteKeys: the 128 insertions are split into eleven section methods, one call each, in the source's order.
- MinecraftIo.OldDataVersion: the table is split into buckets by the first four characters, each its own match, which gives the same result as the single match of the source.
- Conditions.ParseKeepsShape: holds for an argument parser that never yields the empty value; whether `parse_arg` meets that is not part of this model.
- Lexer: a lone `-` at the end of the text reaches an `expect` in the source; the model returns `Panic` there instead of aborting.
- Script: the `if` recursion terminates only on a tree of blocks; the model requires the rank map `Ranked`, which a cyclic block graph would not have (the source would overflow its stack).
- Script.EvalInstr: the addon instruction validates its request with `create_valid_addon_request` as src/package/eval/mod.rs:225-298 defines it, which takes a `hashes` argument; the call at src/package/eval/script.rs:184-193 passes none, so the model passes `AddonHashes(None, None)`.
- Config.Load: the two offline warnings at src/data/config/mod.rs:130-133 are printed the wrong way round (users present vs. none). They only print, and the model leaves them out.
- Config.Load: a user's missing-uuid warning is print-only and left out; `Profile`, `Instance` and `PkgRegistry` are reduced to the fields `load_from_obj` fills.
- NetMinecraft.AssetHashPath: the source slices the hash by bytes and panics on a hash shorter than two bytes; the model slices by characters and returns None.
- NetMinecraft.GetLibClasspath: the `Classpath` type is a sequence of paths.
- Stats.IncrementU32: `launches += 1` wraps as in a release build; a debug build would panic instead.
- Stats.StatsFile: opening and writing the stats file, and printing them, are I/O and left out.
- Launch: `Instance::launch` starts a process and is left out; only `generate_jvm_args` is modelled.
- Create: the async `create`, `create_client`, `create_server` and `create_keypair` download and write files and are left out.
- OptionsEnum and the options reader are not part of this model.
- UpdateManager: `fulfill_requirements`, `setup_core`, `get_core_version`, `update_fabric_quilt` and `update_options` download files and are left out.

## Findings

| source | as written | input that shows it | evidently intended | confidence | as-written member | corrected member |
|---|---|---|---|---|---|---|
| plugins/plugins/stats/main.rs:66-67 | playtimes of 3600 minutes or more are shown as `time / 3600` " days", dividing minutes by the minutes in an hour times 60 | 3600 minutes (two and a half days) are shown as "1 days" | the number of whole days, `time / 1440` | not executed | Stats.FormatTimeAsWrittenMiscountsDays | Stats.FormatTimeCountsWholeUnits |
