/**
 * The condition builder of the package-script parser
 * (`crates/mcvm_parse/src/conditions.rs`): a boolean predicate tree that
 * grows one token at a time. `ParseKind` is `ConditionKind::parse` as a
 * function from the old tree to the new one; the class `Condition` holds the
 * tree and updates it in place.
 */
module Conditions {
  import opened Wrappers
  import opened Shared
  import opened Values
  import opened Lexer

  /** Value of the `os` condition. */
  datatype OSCondition = Windows | Linux | MacOS | Other

  /** `OSCondition::parse_from_str`. */
  function ParseOS(s: string): (r: Option<OSCondition>) {
    match s
    case "windows" => Some(Windows)
    case "linux" => Some(Linux)
    case "macos" => Some(MacOS)
    case "other" => Some(Other)
    case _ => Option.None
  }

  /** The keyword of each OS value. */
  function OSName(o: OSCondition): string {
    match o
    case Windows => "windows"
    case Linux => "linux"
    case MacOS => "macos"
    case Other => "other"
  }

  /** `OSCondition::parse_from_str` accepts exactly the four keywords, each naming its own value. */
  lemma ParseOSExact(s: string)
    ensures ParseOS(s).Some? <==> exists o: OSCondition :: OSName(o) == s
    ensures ParseOS(s).Some? ==> OSName(ParseOS(s).value) == s
  {
    if ParseOS(s).Some? {
      assert OSName(ParseOS(s).value) == s;
    }
  }

  /** The tree of a condition; an `Option` is a slot that no token has filled yet. */
  datatype ConditionKind =
    | Not(inner: Option<ConditionKind>)
    | And(left: ConditionKind, right: Option<ConditionKind>)
    | Or(left: ConditionKind, right: Option<ConditionKind>)
    | Version(version: Value)
    | Side(side: Option<Shared.Side>)
    | Modloader(loader: Option<ModloaderMatch>)
    | PluginLoader(pluginLoader: Option<PluginLoaderMatch>)
    | Feature(feature: Value)
    | Value(lhs: Values.Value, rhs: Values.Value)
    | Defined(variable: Option<string>)
    | OS(os: Option<OSCondition>)
    | Stability(stability: Option<PackageStability>)
    | Language(language: Option<Shared.Language>)

  /** `ConditionKind::from_str`: the empty condition a keyword opens. */
  function FromStr(s: string): (r: Option<ConditionKind>) {
    match s
    case "not" => Some(Not(Option.None))
    case "version" => Some(Version(Values.Value.None))
    case "side" => Some(Side(Option.None))
    case "modloader" => Some(Modloader(Option.None))
    case "plugin_loader" => Some(PluginLoader(Option.None))
    case "feature" => Some(Feature(Values.Value.None))
    case "value" => Some(Value(Values.Value.None, Values.Value.None))
    case "defined" => Some(Defined(Option.None))
    case "os" => Some(OS(Option.None))
    case "stability" => Some(Stability(Option.None))
    case _ => Option.None
  }

  /** The keyword that names each kind in a script. */
  function KindName(k: ConditionKind): string {
    match k
    case Not(_) => "not"
    case And(_, _) => "and"
    case Or(_, _) => "or"
    case Version(_) => "version"
    case Side(_) => "side"
    case Modloader(_) => "modloader"
    case PluginLoader(_) => "plugin_loader"
    case Feature(_) => "feature"
    case Value(_, _) => "value"
    case Defined(_) => "defined"
    case OS(_) => "os"
    case Stability(_) => "stability"
    case Language(_) => "language"
  }

  /** A kind with all of its arguments empty. */
  predicate IsEmpty(k: ConditionKind) {
    match k
    case Not(c) => c.None?
    case And(_, _) => false
    case Or(_, _) => false
    case Version(v) => v.None?
    case Side(v) => v.None?
    case Modloader(v) => v.None?
    case PluginLoader(v) => v.None?
    case Feature(v) => v.None?
    case Value(l, r) => l.None? && r.None?
    case Defined(v) => v.None?
    case OS(v) => v.None?
    case Stability(v) => v.None?
    case Language(v) => v.None?
  }

  /** `is_finished_parsing`. */
  predicate IsFinished(k: ConditionKind)
    decreases k
  {
    match k
    case Not(c) => c.Some? && IsFinished(c.value)
    case And(l, r) => IsFinished(l) && r.Some? && IsFinished(r.value)
    case Or(l, r) => IsFinished(l) && r.Some? && IsFinished(r.value)
    case Version(v) => v.IsPresent()
    case Feature(v) => v.IsPresent()
    case Side(v) => v.Some?
    case Modloader(v) => v.Some?
    case PluginLoader(v) => v.Some?
    case Defined(v) => v.Some?
    case OS(v) => v.Some?
    case Stability(v) => v.Some?
    case Language(v) => v.Some?
    case Value(l, r) => l.IsPresent() && r.IsPresent()
  }

  /**
   * `from_str` recognises exactly the keywords of every kind except the
   * combinators and `language`; the condition it opens is that kind, empty
   * and so unfinished.
   */
  lemma FromStrExact(s: string)
    ensures FromStr(s).Some? <==>
              exists k: ConditionKind :: IsEmpty(k) && !k.Language? && KindName(k) == s
    ensures FromStr(s).Some? ==>
              KindName(FromStr(s).value) == s && IsEmpty(FromStr(s).value) && !IsFinished(FromStr(s).value)
  {
    if FromStr(s).Some? {
      var k := FromStr(s).value;
      assert IsEmpty(k) && !k.Language? && KindName(k) == s;
    } else {
      forall k: ConditionKind | IsEmpty(k) && !k.Language?
        ensures KindName(k) != s
      {
        assert FromStr(KindName(k)).Some?;
      }
    }
  }

  /** `language` names a kind of condition, but `from_str` does not open it. */
  lemma LanguageNotOpened()
    ensures FromStr("language") == Option.None
    ensures KindName(Language(Option.None)) == "language"
  {
  }

  /** What can go wrong while adding a token to a condition. */
  datatype CondError =
    | UnknownCombinator(name: string)
    | UnexpectedToken(tok: Token, pos: TextPos)
    | UnknownCondition(name: string, pos: TextPos)
    | UnknownArgument(ident: string, pos: TextPos)
    | ArgError(message: string)

  /**
   * The functions the condition builder calls that are not part of this
   * model: `parse_arg` and the `parse_from_str` of the shared vocabularies.
   */
  datatype Parsers = Parsers(
    parseArg: (Token, TextPos) -> Result<Values.Value, string>,
    side: string -> Option<Shared.Side>,
    modloader: string -> Option<ModloaderMatch>,
    pluginLoader: string -> Option<PluginLoaderMatch>,
    stability: string -> Option<PackageStability>,
    language: string -> Option<Shared.Language>)

  /** `check_enum_condition_argument`: a parsed argument, or the error naming the rejected identifier. */
  function CheckEnumArg<T>(arg: Option<T>, ident: string, pos: TextPos): (r: Result<Option<T>, CondError>)
    ensures r.Ok? <==> arg.Some?
    ensures r.Ok? ==> r.value == arg
    ensures r.Err? ==> r.error == UnknownArgument(ident, pos)
  {
    match arg
    case Some(v) => Ok(Some(v))
    case None => Err(UnknownArgument(ident, pos))
  }

  /** An enum-argument leaf: only an identifier its parser accepts. */
  function EnumArg<T>(parse: string -> Option<T>, tok: Token, pos: TextPos): (r: Result<Option<T>, CondError>)
    ensures r.Ok? ==> tok.Ident? && r.value == parse(tok.name) && r.value.Some?
    ensures !tok.Ident? ==> r == Err(CondError.UnexpectedToken(tok, pos))
    ensures tok.Ident? && parse(tok.name).None? ==> r == Err(UnknownArgument(tok.name, pos))
  {
    if tok.Ident? then CheckEnumArg(parse(tok.name), tok.name, pos) else Err(CondError.UnexpectedToken(tok, pos))
  }

  /** An empty `Not`/`And`/`Or` slot: only an identifier that `from_str` knows. */
  function NewCondition(tok: Token, pos: TextPos): (r: Result<ConditionKind, CondError>)
    ensures r.Ok? ==> tok.Ident? && FromStr(tok.name) == Some(r.value)
    ensures !tok.Ident? ==> r == Err(CondError.UnexpectedToken(tok, pos))
    ensures tok.Ident? && FromStr(tok.name).None? ==> r == Err(UnknownCondition(tok.name, pos))
  {
    if tok.Ident? then
      match FromStr(tok.name)
      case Some(c) => Ok(c)
      case None => Err(UnknownCondition(tok.name, pos))
    else Err(CondError.UnexpectedToken(tok, pos))
  }

  /** The slot of a `Not`, `And` or `Or` after a token: routed into it when filled, opened when empty. */
  function FillSlot(p: Parsers, slot: Option<ConditionKind>, tok: Token, pos: TextPos): Result<ConditionKind, CondError>
    decreases slot, 1
  {
    match slot
    case Some(c) => ParseKind(p, c, tok, pos)
    case None => NewCondition(tok, pos)
  }

  /** `ConditionKind::parse`: the tree after one more token. */
  function ParseKind(p: Parsers, k: ConditionKind, tok: Token, pos: TextPos): Result<ConditionKind, CondError>
    decreases k, 0
  {
    if IsFinished(k) then
      if tok.Ident? then
        if tok.name == "and" then Ok(And(k, Option.None))
        else if tok.name == "or" then Ok(Or(k, Option.None))
        else Err(UnknownCombinator(tok.name))
      else Err(CondError.UnexpectedToken(tok, pos))
    else
      match k
      case Not(c) =>
        (match FillSlot(p, c, tok, pos)
         case Err(e) => Err(e)
         case Ok(c') => Ok(Not(Some(c'))))
      case And(l, c) =>
        (match FillSlot(p, c, tok, pos)
         case Err(e) => Err(e)
         case Ok(c') => Ok(And(l, Some(c'))))
      case Or(l, c) =>
        (match FillSlot(p, c, tok, pos)
         case Err(e) => Err(e)
         case Ok(c') => Ok(Or(l, Some(c'))))
      case Version(_) =>
        (match p.parseArg(tok, pos)
         case Err(m) => Err(ArgError(m))
         case Ok(v) => Ok(Version(v)))
      case Feature(_) =>
        (match p.parseArg(tok, pos)
         case Err(m) => Err(ArgError(m))
         case Ok(v) => Ok(Feature(v)))
      case Defined(_) =>
        if tok.Ident? then Ok(Defined(Some(tok.name))) else Err(CondError.UnexpectedToken(tok, pos))
      case Side(_) =>
        (match EnumArg(p.side, tok, pos)
         case Err(e) => Err(e)
         case Ok(v) => Ok(Side(v)))
      case Modloader(_) =>
        (match EnumArg(p.modloader, tok, pos)
         case Err(e) => Err(e)
         case Ok(v) => Ok(Modloader(v)))
      case PluginLoader(_) =>
        (match EnumArg(p.pluginLoader, tok, pos)
         case Err(e) => Err(e)
         case Ok(v) => Ok(PluginLoader(v)))
      case OS(_) =>
        (match EnumArg(ParseOS, tok, pos)
         case Err(e) => Err(e)
         case Ok(v) => Ok(OS(v)))
      case Stability(_) =>
        (match EnumArg(p.stability, tok, pos)
         case Err(e) => Err(e)
         case Ok(v) => Ok(Stability(v)))
      case Language(_) =>
        (match EnumArg(p.language, tok, pos)
         case Err(e) => Err(e)
         case Ok(v) => Ok(Language(v)))
      case Value(l, r) =>
        (match p.parseArg(tok, pos)
         case Err(m) => Err(ArgError(m))
         case Ok(v) => if l.None? then Ok(Value(v, r)) else Ok(Value(l, v)))
  }

  /**
   * A finished condition takes only a combinator: `and`/`or` make it the left
   * side of a new, unfinished combination; any other identifier is an unknown
   * combinator and any other token is unexpected.
   */
  lemma ParseFinished(p: Parsers, k: ConditionKind, tok: Token, pos: TextPos)
    requires IsFinished(k)
    ensures tok == Ident("and") ==> ParseKind(p, k, tok, pos) == Ok(And(k, Option.None))
    ensures tok == Ident("or") ==> ParseKind(p, k, tok, pos) == Ok(Or(k, Option.None))
    ensures ParseKind(p, k, tok, pos).Ok? ==> !IsFinished(ParseKind(p, k, tok, pos).value)
    ensures tok.Ident? && tok.name != "and" && tok.name != "or" ==>
              ParseKind(p, k, tok, pos) == Err(UnknownCombinator(tok.name))
    ensures !tok.Ident? ==> ParseKind(p, k, tok, pos) == Err(CondError.UnexpectedToken(tok, pos))
  {
    assert !IsFinished(And(k, Option.None)) && !IsFinished(Or(k, Option.None));
  }

  /**
   * An unfinished `and`/`or` routes the token into its right slot and never
   * touches its left side; the combination succeeds exactly when the slot does.
   */
  lemma ParseRoutesRight(p: Parsers, k: ConditionKind, tok: Token, pos: TextPos)
    requires k.And? || k.Or?
    requires !IsFinished(k)
    ensures ParseKind(p, k, tok, pos).Ok? <==> FillSlot(p, k.right, tok, pos).Ok?
    ensures ParseKind(p, k, tok, pos).Ok? ==>
              var r := ParseKind(p, k, tok, pos).value;
              r.And? == k.And? && (r.And? || r.Or?) && r.left == k.left
              && r.right == Some(FillSlot(p, k.right, tok, pos).value)
    ensures k.right.None? && !tok.Ident? ==> ParseKind(p, k, tok, pos) == Err(CondError.UnexpectedToken(tok, pos))
    ensures k.right.None? && tok.Ident? && FromStr(tok.name).None? ==>
              ParseKind(p, k, tok, pos) == Err(UnknownCondition(tok.name, pos))
  {
  }

  /** `value` fills its left side first, then its right side. */
  lemma ParseValueSides(p: Parsers, l: Values.Value, r: Values.Value, tok: Token, pos: TextPos)
    requires !IsFinished(Value(l, r))
    ensures p.parseArg(tok, pos).Err? ==>
              ParseKind(p, Value(l, r), tok, pos) == Err(ArgError(p.parseArg(tok, pos).error))
    ensures p.parseArg(tok, pos).Ok? && l.None? ==>
              ParseKind(p, Value(l, r), tok, pos) == Ok(Value(p.parseArg(tok, pos).value, r))
    ensures p.parseArg(tok, pos).Ok? && !l.None? ==>
              ParseKind(p, Value(l, r), tok, pos) == Ok(Value(l, p.parseArg(tok, pos).value))
  {
  }

  /**
   * The `side` leaf accepts only an identifier its vocabulary knows; a
   * rejected identifier is an unknown argument, any other token unexpected.
   * The `modloader`, `plugin_loader`, `stability` and `language` leaves below
   * behave the same way with their own vocabularies, and `os` with `ParseOS`.
   */
  lemma ParseSide(p: Parsers, tok: Token, pos: TextPos)
    ensures ParseKind(p, Side(Option.None), tok, pos).Ok? <==> tok.Ident? && p.side(tok.name).Some?
    ensures ParseKind(p, Side(Option.None), tok, pos).Ok? ==>
              ParseKind(p, Side(Option.None), tok, pos).value == Side(p.side(tok.name))
              && IsFinished(ParseKind(p, Side(Option.None), tok, pos).value)
    ensures tok.Ident? && p.side(tok.name).None? ==>
              ParseKind(p, Side(Option.None), tok, pos) == Err(UnknownArgument(tok.name, pos))
    ensures !tok.Ident? ==> ParseKind(p, Side(Option.None), tok, pos) == Err(CondError.UnexpectedToken(tok, pos))
  {
  }

  /** The `modloader` leaf accepts only an identifier its vocabulary knows. */
  lemma ParseModloaderLeaf(p: Parsers, tok: Token, pos: TextPos)
    ensures ParseKind(p, Modloader(Option.None), tok, pos).Ok? <==> tok.Ident? && p.modloader(tok.name).Some?
    ensures ParseKind(p, Modloader(Option.None), tok, pos).Ok? ==>
              ParseKind(p, Modloader(Option.None), tok, pos).value == Modloader(p.modloader(tok.name))
              && IsFinished(ParseKind(p, Modloader(Option.None), tok, pos).value)
    ensures tok.Ident? && p.modloader(tok.name).None? ==>
              ParseKind(p, Modloader(Option.None), tok, pos) == Err(UnknownArgument(tok.name, pos))
    ensures !tok.Ident? ==> ParseKind(p, Modloader(Option.None), tok, pos) == Err(CondError.UnexpectedToken(tok, pos))
  {
  }

  /** The `plugin_loader` leaf accepts only an identifier its vocabulary knows. */
  lemma ParsePluginLoaderLeaf(p: Parsers, tok: Token, pos: TextPos)
    ensures ParseKind(p, PluginLoader(Option.None), tok, pos).Ok? <==> tok.Ident? && p.pluginLoader(tok.name).Some?
    ensures ParseKind(p, PluginLoader(Option.None), tok, pos).Ok? ==>
              ParseKind(p, PluginLoader(Option.None), tok, pos).value == PluginLoader(p.pluginLoader(tok.name))
              && IsFinished(ParseKind(p, PluginLoader(Option.None), tok, pos).value)
    ensures tok.Ident? && p.pluginLoader(tok.name).None? ==>
              ParseKind(p, PluginLoader(Option.None), tok, pos) == Err(UnknownArgument(tok.name, pos))
    ensures !tok.Ident? ==> ParseKind(p, PluginLoader(Option.None), tok, pos) == Err(CondError.UnexpectedToken(tok, pos))
  {
  }

  /** The `stability` leaf accepts only an identifier its vocabulary knows. */
  lemma ParseStabilityLeaf(p: Parsers, tok: Token, pos: TextPos)
    ensures ParseKind(p, Stability(Option.None), tok, pos).Ok? <==> tok.Ident? && p.stability(tok.name).Some?
    ensures ParseKind(p, Stability(Option.None), tok, pos).Ok? ==>
              ParseKind(p, Stability(Option.None), tok, pos).value == Stability(p.stability(tok.name))
              && IsFinished(ParseKind(p, Stability(Option.None), tok, pos).value)
    ensures tok.Ident? && p.stability(tok.name).None? ==>
              ParseKind(p, Stability(Option.None), tok, pos) == Err(UnknownArgument(tok.name, pos))
    ensures !tok.Ident? ==> ParseKind(p, Stability(Option.None), tok, pos) == Err(CondError.UnexpectedToken(tok, pos))
  {
  }

  /** The `language` leaf accepts only an identifier its vocabulary knows. */
  lemma ParseLanguageLeaf(p: Parsers, tok: Token, pos: TextPos)
    ensures ParseKind(p, Language(Option.None), tok, pos).Ok? <==> tok.Ident? && p.language(tok.name).Some?
    ensures ParseKind(p, Language(Option.None), tok, pos).Ok? ==>
              ParseKind(p, Language(Option.None), tok, pos).value == Language(p.language(tok.name))
              && IsFinished(ParseKind(p, Language(Option.None), tok, pos).value)
    ensures tok.Ident? && p.language(tok.name).None? ==>
              ParseKind(p, Language(Option.None), tok, pos) == Err(UnknownArgument(tok.name, pos))
    ensures !tok.Ident? ==> ParseKind(p, Language(Option.None), tok, pos) == Err(CondError.UnexpectedToken(tok, pos))
  {
  }

  lemma ParseOSLeaf(p: Parsers, tok: Token, pos: TextPos)
    ensures ParseKind(p, OS(Option.None), tok, pos).Ok? <==> tok.Ident? && ParseOS(tok.name).Some?
    ensures ParseKind(p, OS(Option.None), tok, pos).Ok? ==>
              ParseKind(p, OS(Option.None), tok, pos).value == OS(ParseOS(tok.name))
    ensures tok.Ident? && ParseOS(tok.name).None? ==>
              ParseKind(p, OS(Option.None), tok, pos) == Err(UnknownArgument(tok.name, pos))
  {
  }

  /** `defined` takes the name of any identifier and nothing else. */
  lemma ParseDefined(p: Parsers, tok: Token, pos: TextPos)
    ensures tok.Ident? ==> ParseKind(p, Defined(Option.None), tok, pos) == Ok(Defined(Some(tok.name)))
    ensures !tok.Ident? ==> ParseKind(p, Defined(Option.None), tok, pos) == Err(CondError.UnexpectedToken(tok, pos))
  {
  }

  /**
   * The shape every tree built by `parse` has: the left side of a
   * combination is finished, and the right side of `value` is only given
   * once the left one is.
   */
  predicate Shaped(k: ConditionKind)
    decreases k
  {
    match k
    case Not(c) => c.Some? ==> Shaped(c.value)
    case And(l, r) => IsFinished(l) && Shaped(l) && (r.Some? ==> Shaped(r.value))
    case Or(l, r) => IsFinished(l) && Shaped(l) && (r.Some? ==> Shaped(r.value))
    case Value(l, r) => r.IsPresent() ==> l.IsPresent()
    case _ => true
  }

  /** Every condition `from_str` opens is shaped. */
  lemma FromStrShaped(s: string)
    ensures FromStr(s).Some? ==> Shaped(FromStr(s).value)
  {
  }

  /**
   * `parse` keeps the shape, provided the argument parser never yields the
   * empty value.
   */
  lemma {:induction false} ParseKeepsShape(p: Parsers, k: ConditionKind, tok: Token, pos: TextPos)
    requires Shaped(k)
    requires p.parseArg(tok, pos).Ok? ==> p.parseArg(tok, pos).value.IsPresent()
    requires ParseKind(p, k, tok, pos).Ok?
    ensures Shaped(ParseKind(p, k, tok, pos).value)
    decreases k
  {
    if IsFinished(k) {
    } else {
      match k
      case Not(c) =>
        if c.Some? { ParseKeepsShape(p, c.value, tok, pos); } else { FromStrShaped(tok.name); }
      case And(l, c) =>
        if c.Some? { ParseKeepsShape(p, c.value, tok, pos); } else { FromStrShaped(tok.name); }
      case Or(l, c) =>
        if c.Some? { ParseKeepsShape(p, c.value, tok, pos); } else { FromStrShaped(tok.name); }
      case _ =>
    }
  }

  /** `Condition`: holds the tree that `parse` grows in place. */
  class Condition {
    var kind: ConditionKind

    /** `Condition::new`. */
    constructor(kind: ConditionKind)
      ensures this.kind == kind
    {
      this.kind := kind;
    }

    /** `Condition::parse`: the tree grows on success and is left as it was on an error. */
    method Parse(p: Parsers, tok: Token, pos: TextPos) returns (r: Result<(), CondError>)
      modifies this
      ensures ParseKind(p, old(kind), tok, pos).Ok? ==> r.Ok? && kind == ParseKind(p, old(kind), tok, pos).value
      ensures ParseKind(p, old(kind), tok, pos).Err? ==>
                r == Err(ParseKind(p, old(kind), tok, pos).error) && kind == old(kind)
    {
      var next := ParseKind(p, kind, tok, pos);
      if next.Err? {
        return Err(next.error);
      }
      kind := next.value;
      r := Ok(());
    }
  }
}
