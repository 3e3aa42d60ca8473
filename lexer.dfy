/**
 * The package-script lexer (`lex.rs`): one pass over the characters of the
 * text, driven by the current token, that produces positioned tokens.
 *
 * The specification is `LexSpec`: `Run` folds `CharStep` over the characters
 * (tracking the character index, as `enumerate` does), and `Finish` flushes
 * the token still open at the end. `Lex` is the loop of the source, proved
 * equal to `LexSpec`.
 */
module Lexer {
  import opened Wrappers
  import Text

  /** Side of a bracket. */
  datatype Side = Left | Right

  datatype Token =
    | None
    | Whitespace
    | Semicolon
    | Colon
    | Comma
    | Pipe
    | At
    | Bang
    | Variable(name: string)
    | Curly(side: Side)
    | Square(side: Side)
    | Paren(side: Side)
    | Angle(side: Side)
    | Comment(text: string)
    | Ident(name: string)
    | Num(num: int)
    | Str(text: string)

  /**
   * Line (from 1) and column of a token. The column is the difference of two
   * `usize` indices in the source; it is an `int` here, and
   * `LexerProps.LexTokensWellFormed` shows the subtraction never goes below zero.
   */
  datatype TextPos = TextPos(line: nat, column: int)

  type TokenAndPos = (Token, TextPos)

  /** Range of Rust's `i64`. */
  const I64_MIN: int := -0x8000_0000_0000_0000
  const I64_MAX: int := 0x7FFF_FFFF_FFFF_FFFF

  datatype LexError =
    | UnexpectedToken(tok: Token, pos: TextPos)
    | InvalidNumber(numStr: string, pos: TextPos)
      /** The `expect` on the number parse, a panic in the source. */
    | Panic(message: string)

  /** What to do with a character inside a string literal. */
  datatype StrLexResult = Append | Escape | End

  function LexStringChar(c: char, escape: bool): (r: StrLexResult)
    ensures r == End <==> !escape && c == '"'
    ensures r == Escape <==> !escape && c == '\\'
  {
    if escape then Append
    else if c == '"' then End
    else if c == '\\' then Escape
    else Append
  }

  /** Rust's `char::is_whitespace`: the Unicode White_Space property. */
  predicate IsWhitespace(c: char) {
    ('\t' <= c <= '\r') || c == ' ' || c == '\U{85}' || c == '\U{A0}' || c == '\U{1680}'
    || ('\U{2000}' <= c <= '\U{200A}') || c == '\U{2028}' || c == '\U{2029}'
    || c == '\U{202F}' || c == '\U{205F}' || c == '\U{3000}'
  }

  /**
   * Rust's Unicode character classes `char::is_alphabetic` and
   * `char::is_numeric`, which are tables outside this model.
   */
  datatype CharClasses = CharClasses(alphabetic: char -> bool, numeric: char -> bool)

  /** The classes agree with ASCII letters and digits on ASCII characters. */
  ghost predicate AsciiFaithful(cc: CharClasses) {
    forall c: char :: (c as int) < 0x80 ==>
      (cc.alphabetic(c) <==> ('a' <= c <= 'z' || 'A' <= c <= 'Z'))
      && (cc.numeric(c) <==> '0' <= c <= '9')
  }

  predicate IsIdent(cc: CharClasses, c: char, first: bool) {
    if first && cc.numeric(c) then false
    else cc.alphabetic(c) || cc.numeric(c) || c == '_'
  }

  predicate IsNum(cc: CharClasses, c: char, first: bool) {
    if first then cc.numeric(c) || c == '-' else cc.numeric(c)
  }

  /** The single-character tokens. */
  function Punctuation(c: char): Option<Token> {
    match c
    case ';' => Some(Semicolon)
    case ':' => Some(Colon)
    case ',' => Some(Comma)
    case '|' => Some(Pipe)
    case '{' => Some(Curly(Left))
    case '}' => Some(Curly(Right))
    case '[' => Some(Square(Left))
    case ']' => Some(Square(Right))
    case '(' => Some(Paren(Left))
    case ')' => Some(Paren(Right))
    case '<' => Some(Angle(Left))
    case '>' => Some(Angle(Right))
    case '@' => Some(At)
    case '!' => Some(Bang)
    case _ => Option.None
  }

  predicate AllAsciiDigits(s: string) {
    forall i :: 0 <= i < |s| ==> Text.IsAsciiDigit(s[i])
  }

  /** `str::parse::<i64>`: an optional sign, then one or more ASCII digits, in range. */
  function ParseI64(s: string): (r: Option<int>)
    ensures r.Some? ==> I64_MIN <= r.value <= I64_MAX
    ensures r.Some? ==> s != [] && s != "-"
  {
    var signed := |s| > 0 && (s[0] == '-' || s[0] == '+');
    var digits := if signed then s[1..] else s;
    if digits == [] || !AllAsciiDigits(digits) then Option.None
    else
      var magnitude := Text.DigitsValue(digits);
      var v: int := if signed && s[0] == '-' then 0 - magnitude else magnitude;
      if I64_MIN <= v <= I64_MAX then Some(v) else Option.None
  }

  /** Lexer state between characters: the locals of `lex`. */
  datatype LexState = LexState(
    tokens: seq<TokenAndPos>,
    tok: Token,
    finished: bool,
    escape: bool,
    numStr: string,
    lineN: nat,
    lastLineI: nat)

  const Init: LexState := LexState([], Token.None, false, false, "", 1, 0)

  /** Pushes the current token and starts a fresh one; the character is dispatched again. */
  function Flush(st: LexState, pos: TextPos): LexState {
    st.(tokens := st.tokens + [(st.tok, pos)], tok := Token.None)
  }

  /** The arm of the dispatch for the empty token: `c` decides which token starts. */
  function Start(cc: CharClasses, st: LexState, c: char, pos: TextPos): (r: Result<(LexState, bool), LexError>)
    ensures r.Ok? ==> !r.value.1 && r.value.0.lineN == st.lineN && r.value.0.lastLineI == st.lastLineI
  {
    if Punctuation(c).Some? then Ok((st.(tok := Punctuation(c).value, finished := true), false))
    else if c == '"' then Ok((st.(tok := Str("")), false))
    else if c == '#' then Ok((st.(tok := Comment("")), false))
    else if c == '$' then Ok((st.(tok := Variable("")), false))
    else if IsWhitespace(c) then Ok((st.(tok := Whitespace), false))
    else if IsNum(cc, c, true) then Ok((st.(tok := Num(0), numStr := [c]), false))
    else if IsIdent(cc, c, true) then Ok((st.(tok := Ident([c])), false))
    else Err(UnexpectedToken(Token.None, pos))
  }

  /** The arm of the dispatch for an open number. */
  function ContinueNum(cc: CharClasses, st: LexState, c: char, pos: TextPos): (r: Result<(LexState, bool), LexError>)
    ensures r.Ok? && r.value.1 ==> r.value.0.tok.None? && r.value.0.finished == st.finished
    ensures r.Ok? ==> r.value.0.lineN == st.lineN && r.value.0.lastLineI == st.lastLineI
  {
    if IsNum(cc, c, false) then Ok((st.(numStr := st.numStr + [c]), false))
    else if st.numStr == "-" then Err(InvalidNumber(st.numStr, pos))
    else
      match ParseI64(st.numStr)
      case None => Err(Panic("Number contains invalid characters"))
      case Some(v) => Ok((Flush(st.(tok := Num(v)), pos), true))
  }

  /**
   * One pass of the `match &mut tok` of the source for character `c`: the new
   * state, and whether the character must be dispatched again.
   */
  function Dispatch(cc: CharClasses, st: LexState, c: char, pos: TextPos): (r: Result<(LexState, bool), LexError>)
    ensures r.Ok? && r.value.1 ==> r.value.0.tok.None? && r.value.0.finished == st.finished
    ensures r.Ok? && st.tok.None? ==> !r.value.1
    ensures r.Ok? ==> r.value.0.lineN == st.lineN && r.value.0.lastLineI == st.lastLineI
  {
    match st.tok
    case None => Start(cc, st, c, pos)
    case Str(s) =>
      (match LexStringChar(c, st.escape)
       case Append => Ok((st.(tok := Str(s + [c]), escape := false), false))
       case Escape => Ok((st.(escape := true), false))
       case End => Ok((st.(finished := true, escape := false), false)))
    case Comment(s) =>
      if c == '\n' then Ok((st.(finished := true), false))
      else Ok((st.(tok := Comment(s + [c])), false))
    case Variable(name) =>
      if IsIdent(cc, c, name == []) then Ok((st.(tok := Variable(name + [c])), false))
      else Ok((Flush(st, pos), true))
    case Whitespace =>
      if !IsWhitespace(c) then Ok((Flush(st, pos), true)) else Ok((st, false))
    case Ident(name) =>
      if IsIdent(cc, c, false) then Ok((st.(tok := Ident(name + [c])), false))
      else Ok((Flush(st, pos), true))
    case Num(_) => ContinueNum(cc, st, c, pos)
    case _ => Ok((st, false))
  }

  /** Position of the character with index `i`, before the newline bookkeeping. */
  function PosAt(st: LexState, i: nat): TextPos {
    TextPos(st.lineN, i - st.lastLineI)
  }

  /** The newline bookkeeping for the character with index `i`. */
  function Newline(st: LexState, i: nat, c: char): LexState {
    if c == '\n' then st.(lineN := st.lineN + 1, lastLineI := i) else st
  }

  /** The `loop` of the source: dispatch, and dispatch again against the fresh token if asked to. */
  function Redispatch(cc: CharClasses, st: LexState, c: char, pos: TextPos): (r: Result<LexState, LexError>)
    ensures r.Ok? ==> r.value.lineN == st.lineN && r.value.lastLineI == st.lastLineI
  {
    match Dispatch(cc, st, c, pos)
    case Err(e) => Err(e)
    case Ok((st2, repeat)) =>
      if !repeat then Ok(st2)
      else
        match Dispatch(cc, st2, c, pos)
        case Err(e) => Err(e)
        case Ok((st3, _)) => Ok(st3)
  }

  /** The whole body of the `for` loop for the character with index `i`. */
  function CharStep(cc: CharClasses, st: LexState, i: nat, c: char): (r: Result<LexState, LexError>)
    ensures r.Ok? ==> !r.value.finished
  {
    var pos := PosAt(st, i);
    match Redispatch(cc, Newline(st, i, c), c, pos)
    case Err(e) => Err(e)
    case Ok(st3) => Ok(if st3.finished then Flush(st3.(finished := false), pos) else st3)
  }

  /**
   * The `for (i, c) in text.chars().enumerate()` loop: applies `step` to the
   * characters `cs`, the first of which has index `i`, stopping at the first
   * error.
   */
  function Fold(step: (LexState, nat, char) -> Result<LexState, LexError>, st: LexState, cs: string, i: nat): Result<LexState, LexError>
    decreases |cs|
  {
    if cs == [] then Ok(st)
    else
      match step(st, i, cs[0])
      case Err(e) => Err(e)
      case Ok(st') => Fold(step, st', cs[1..], i + 1)
  }

  /** Folding over `a + b` is folding over `a`, then over `b` from where `a` ended. */
  lemma {:induction false} FoldAppend(step: (LexState, nat, char) -> Result<LexState, LexError>, st: LexState, a: string, b: string, i: nat)
    ensures Fold(step, st, a, i).Err? ==> Fold(step, st, a + b, i) == Fold(step, st, a, i)
    ensures Fold(step, st, a, i).Ok? ==> Fold(step, st, a + b, i) == Fold(step, Fold(step, st, a, i).value, b, i + |a|)
    decreases |a|
  {
    if a == [] {
      assert a + b == b;
    } else {
      assert (a + b)[0] == a[0] && (a + b)[1..] == a[1..] + b;
      var next := step(st, i, a[0]);
      if next.Ok? {
        FoldAppend(step, next.value, a[1..], b, i + 1);
      }
    }
  }

  /** The step of the lexer's loop. */
  function Step(cc: CharClasses): (LexState, nat, char) -> Result<LexState, LexError> {
    (st: LexState, i: nat, c: char) => CharStep(cc, st, i, c)
  }

  /** Lexes the characters `cs`, the first of which has index `i` in the text. */
  function Run(cc: CharClasses, st: LexState, cs: string, i: nat): (r: Result<LexState, LexError>) {
    Fold(Step(cc), st, cs, i)
  }

  /**
   * The flush after the loop: the open token is pushed at the final
   * position, whose column counts from the last newline to the end of the
   * text in bytes (`text.len()`), `byteLen`.
   */
  function Finish(st: LexState, byteLen: nat): Result<seq<TokenAndPos>, LexError> {
    var finalPos := TextPos(st.lineN, byteLen - st.lastLineI);
    match st.tok
    case Num(_) =>
      (match ParseI64(st.numStr)
       case None => Err(Panic("Number contains invalid characters"))
       case Some(v) => Ok(st.tokens + [(Num(v), finalPos)]))
    case None => Ok(st.tokens)
    case _ => Ok(st.tokens + [(st.tok, finalPos)])
  }

  /** What `lex` returns for `text`. */
  function LexSpec(cc: CharClasses, text: string): Result<seq<TokenAndPos>, LexError> {
    match Run(cc, Init, text, 0)
    case Err(e) => Err(e)
    case Ok(st) => Finish(st, Text.Utf8Len(text))
  }

  lemma LexSpecFinish(cc: CharClasses, text: string, st: LexState)
    requires Run(cc, Init, text, 0) == Ok(st)
    ensures LexSpec(cc, text) == Finish(st, Text.Utf8Len(text))
  {
  }

  lemma RunCons(cc: CharClasses, st: LexState, cs: string, i: nat)
    requires cs != []
    ensures Run(cc, st, cs, i) ==
      match CharStep(cc, st, i, cs[0])
      case Err(e) => Err(e)
      case Ok(st') => Run(cc, st', cs[1..], i + 1)
  {
  }

  lemma CharStepFrom(cc: CharClasses, before: LexState, i: nat, c: char, d: Result<LexState, LexError>)
    requires d == Redispatch(cc, Newline(before, i, c), c, PosAt(before, i))
    ensures d.Err? ==> CharStep(cc, before, i, c) == Err(d.error)
    ensures d.Ok? ==>
              CharStep(cc, before, i, c)
              == Ok(if d.value.finished then Flush(d.value.(finished := false), PosAt(before, i)) else d.value)
  {
  }

  /** The inner `loop` of `lex` for one character. */
  method DispatchChar(cc: CharClasses, st0: LexState, c: char, pos: TextPos) returns (r: Result<LexState, LexError>)
    ensures r == Redispatch(cc, st0, c, pos)
  {
    var st := st0;
    var again := true;
    ghost var rounds := 0;
    while again
      invariant 0 <= rounds <= 2 && (again ==> rounds < 2)
      invariant rounds == 0 ==> st == st0 && again
      invariant rounds == 1 ==> Dispatch(cc, st0, c, pos) == Ok((st, again))
      invariant rounds == 2 ==>
                  Dispatch(cc, st0, c, pos).Ok? && Dispatch(cc, st0, c, pos).value.1
                  && Dispatch(cc, Dispatch(cc, st0, c, pos).value.0, c, pos) == Ok((st, false))
      decreases 2 - rounds
    {
      var d := Dispatch(cc, st, c, pos);
      if d.Err? {
        return Err(d.error);
      }
      st, again := d.value.0, d.value.1;
      rounds := rounds + 1;
    }
    r := Ok(st);
  }

  /** The body of the `for` loop of `lex` for the character `c` with index `i`. */
  method LexChar(cc: CharClasses, st0: LexState, i: nat, c: char) returns (r: Result<LexState, LexError>)
    ensures r == CharStep(cc, st0, i, c)
  {
    var st := st0;
    var pos := TextPos(st.lineN, i - st.lastLineI);
    if c == '\n' {
      st := st.(lineN := st.lineN + 1, lastLineI := i);
    }
    var d := DispatchChar(cc, st, c, pos);
    CharStepFrom(cc, st0, i, c, d);
    if d.Err? {
      return Err(d.error);
    }
    st := d.value;
    if st.finished {
      st := st.(finished := false);
      st := st.(tokens := st.tokens + [(st.tok, pos)], tok := Token.None);
    }
    r := Ok(st);
  }

  /** `lex`: the loop over the characters, then the flush of the open token. */
  method Lex(cc: CharClasses, text: string) returns (r: Result<seq<TokenAndPos>, LexError>)
    ensures r == LexSpec(cc, text)
  {
    var st := Init;
    var i := 0;
    while i < |text|
      invariant 0 <= i <= |text|
      invariant Run(cc, Init, text, 0) == Run(cc, st, text[i..], i)
    {
      var d := LexChar(cc, st, i, text[i]);
      RunCons(cc, st, text[i..], i);
      assert text[i..][0] == text[i];
      if d.Err? {
        return Err(d.error);
      }
      st := d.value;
      assert text[i..][1..] == text[i + 1..];
      i := i + 1;
    }
    assert text[i..] == [];
    assert Run(cc, st, [], i) == Ok(st);
    var byteLen := Text.Utf8Len(text);
    LexSpecFinish(cc, text, st);
    r := FinishTokens(st, byteLen);
  }

  /** The end of `lex`: parses a number still open at the end of the text and pushes the open token. */
  method FinishTokens(st: LexState, byteLen: nat) returns (r: Result<seq<TokenAndPos>, LexError>)
    ensures r == Finish(st, byteLen)
  {
    var finalPos := TextPos(st.lineN, byteLen - st.lastLineI);
    match st.tok
    case Num(_) =>
      var parsed := ParseI64(st.numStr);
      if parsed.None? {
        return Err(Panic("Number contains invalid characters"));
      }
      r := Ok(st.tokens + [(Num(parsed.value), finalPos)]);
    case None =>
      r := Ok(st.tokens);
    case _ =>
      r := Ok(st.tokens + [(st.tok, finalPos)]);
  }

  /** Tokens that `reduce_tokens` drops. */
  predicate Insignificant(t: Token) {
    t.Comment? || t.Whitespace? || t.None?
  }

  /** `reduce_tokens`: drops whitespace, comments and empty tokens. */
  function ReduceTokens(ts: seq<TokenAndPos>): (r: seq<TokenAndPos>)
    ensures |r| <= |ts|
    ensures forall t :: t in r <==> t in ts && !Insignificant(t.0)
  {
    if ts == [] then []
    else if Insignificant(ts[0].0) then ReduceTokens(ts[1..])
    else [ts[0]] + ReduceTokens(ts[1..])
  }
}
