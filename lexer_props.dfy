/**
 * Properties of the lexer specification: what each kind of token does with
 * the characters that follow it, the shape of every token that `lex` emits,
 * and what `reduce_tokens` keeps.
 */
module LexerProps {
  import opened Wrappers
  import opened Lexer
  import Text

  /** The tokens of a lexed sequence, without positions. */
  function Kinds(ts: seq<TokenAndPos>): (r: seq<Token>)
    ensures |r| == |ts|
    ensures forall k :: 0 <= k < |ts| ==> r[k] == ts[k].0
  {
    seq(|ts|, k requires 0 <= k < |ts| => ts[k].0)
  }

  /** Running over `a + b` is running over `a`, then over `b` from where `a` ended. */
  lemma RunAppend(cc: CharClasses, st: LexState, a: string, b: string, i: nat)
    ensures Run(cc, st, a, i).Err? ==> Run(cc, st, a + b, i) == Run(cc, st, a, i)
    ensures Run(cc, st, a, i).Ok? ==> Run(cc, st, a + b, i) == Run(cc, Run(cc, st, a, i).value, b, i + |a|)
  {
    FoldAppend(Step(cc), st, a, b, i);
  }

  /** A character other than a newline whose dispatch neither finishes a token nor repeats. */
  lemma QuietChar(cc: CharClasses, st0: LexState, i: nat, c: char, st: LexState)
    requires c != '\n'
    requires Dispatch(cc, st0, c, PosAt(st0, i)) == Ok((st, false)) && !st.finished
    ensures Run(cc, st0, [c], i) == Ok(st)
  {
    assert Newline(st0, i, c) == st0;
    StepOnce(cc, st0, i, c, st);
    RunOne(cc, st0, c, i);
  }

  /** Running over `a` to `mid`, then over `b` to `fin`, runs over `a + b` to `fin`. */
  lemma RunSplit(cc: CharClasses, st: LexState, a: string, b: string, i: nat, mid: LexState, fin: LexState)
    requires Run(cc, st, a, i) == Ok(mid)
    requires Run(cc, mid, b, i + |a|) == Ok(fin)
    ensures Run(cc, st, a + b, i) == Ok(fin)
  {
    RunAppend(cc, st, a, b, i);
  }

  /** One character whose first dispatch asks for no second one. */
  lemma StepOnce(cc: CharClasses, st: LexState, i: nat, c: char, st2: LexState)
    requires Dispatch(cc, Newline(st, i, c), c, PosAt(st, i)) == Ok((st2, false))
    ensures CharStep(cc, st, i, c) == Ok(if st2.finished then Flush(st2.(finished := false), PosAt(st, i)) else st2)
  {
  }

  /** One character that ends the open token and is dispatched again. */
  lemma StepTwice(cc: CharClasses, st: LexState, i: nat, c: char, st2: LexState, st3: LexState)
    requires Dispatch(cc, Newline(st, i, c), c, PosAt(st, i)) == Ok((st2, true))
    requires Dispatch(cc, st2, c, PosAt(st, i)).Ok? && Dispatch(cc, st2, c, PosAt(st, i)).value.0 == st3
    ensures CharStep(cc, st, i, c) == Ok(if st3.finished then Flush(st3.(finished := false), PosAt(st, i)) else st3)
  {
  }

  /** `lex` fails with the error of the loop. */
  lemma LexSpecErr(cc: CharClasses, text: string, e: LexError)
    requires Run(cc, Init, text, 0) == Err(e)
    ensures LexSpec(cc, text) == Err(e)
  {
  }

  /** `lex` flushes the state the loop ends in. */
  lemma LexSpecOk(cc: CharClasses, text: string, st: LexState)
    requires Run(cc, Init, text, 0) == Ok(st)
    ensures LexSpec(cc, text) == Finish(st, Text.Utf8Len(text))
  {
  }

  /** A first character whose dispatch fails is the error of `lex`. */
  lemma LexFirstErr(cc: CharClasses, c: char, rest: string, e: LexError)
    requires Dispatch(cc, Newline(Init, 0, c), c, PosAt(Init, 0)) == Err(e)
    ensures LexSpec(cc, [c] + rest) == Err(e)
  {
    var text := [c] + rest;
    assert text[0] == c && text[1..] == rest;
    StepErr(cc, Init, 0, c, e);
    RunCons(cc, Init, text, 0);
    LexSpecErr(cc, text, e);
  }

  /** One character whose dispatch fails. */
  lemma StepErr(cc: CharClasses, st: LexState, i: nat, c: char, e: LexError)
    requires Dispatch(cc, Newline(st, i, c), c, PosAt(st, i)) == Err(e)
    ensures CharStep(cc, st, i, c) == Err(e)
  {
  }

  /** Running over one character is one step. */
  lemma RunOne(cc: CharClasses, st: LexState, c: char, i: nat)
    ensures Run(cc, st, [c], i) == CharStep(cc, st, i, c)
  {
    assert [c][1..] == [];
    RunCons(cc, st, [c], i);
    var r := CharStep(cc, st, i, c);
    if r.Ok? {
      assert Run(cc, r.value, [], i + 1) == Ok(r.value);
    }
  }

  // ---------------------------------------------------------------------------
  // Punctuation

  /** The tokens that a run of punctuation characters emits, the first at column `col`. */
  function PunctTokens(cs: string, line: nat, col: int): (r: seq<TokenAndPos>)
    requires forall k :: 0 <= k < |cs| ==> Punctuation(cs[k]).Some?
    ensures |r| == |cs|
    ensures forall k :: 0 <= k < |cs| ==> r[k] == (Punctuation(cs[k]).value, TextPos(line, col + k))
  {
    seq(|cs|, k requires 0 <= k < |cs| => (Punctuation(cs[k]).value, TextPos(line, col + k)))
  }

  /** Each punctuation character emits exactly one finished token at its own position. */
  lemma {:induction false} PunctuationRun(cc: CharClasses, st: LexState, cs: string, i: nat)
    requires !st.finished && st.tok == Token.None
    requires forall k :: 0 <= k < |cs| ==> Punctuation(cs[k]).Some?
    ensures Run(cc, st, cs, i) == Ok(st.(tokens := st.tokens + PunctTokens(cs, st.lineN, i - st.lastLineI)))
    decreases |cs|
  {
    if cs == [] {
      assert st.tokens + PunctTokens(cs, st.lineN, i - st.lastLineI) == st.tokens;
    } else {
      var pos := PosAt(st, i);
      var p := Punctuation(cs[0]).value;
      assert Newline(st, i, cs[0]) == st;
      StepOnce(cc, st, i, cs[0], st.(tok := p, finished := true));
      var st' := st.(tokens := st.tokens + [(p, pos)]);
      RunCons(cc, st, cs, i);
      PunctuationRun(cc, st', cs[1..], i + 1);
      PunctTokensCons(cs, st.lineN, i - st.lastLineI);
      assert st'.tokens + PunctTokens(cs[1..], st.lineN, i + 1 - st.lastLineI)
          == st.tokens + PunctTokens(cs, st.lineN, i - st.lastLineI);
    }
  }

  /** The tokens of a punctuation run are its first token followed by those of the rest. */
  lemma PunctTokensCons(cs: string, line: nat, col: int)
    requires |cs| > 0 && forall k :: 0 <= k < |cs| ==> Punctuation(cs[k]).Some?
    ensures PunctTokens(cs, line, col) == [(Punctuation(cs[0]).value, TextPos(line, col))] + PunctTokens(cs[1..], line, col + 1)
  {
    var rest := cs[1..];
    assert forall k :: 0 <= k < |rest| ==> rest[k] == cs[k + 1];
  }

  /** A text made only of punctuation lexes to one token per character. */
  lemma LexAllPunctuation(cc: CharClasses, text: string)
    requires forall k :: 0 <= k < |text| ==> Punctuation(text[k]).Some?
    ensures LexSpec(cc, text) == Ok(PunctTokens(text, 1, 0))
  {
    PunctuationRun(cc, Init, text, 0);
    var st := Init.(tokens := PunctTokens(text, 1, 0));
    assert Init.tokens + PunctTokens(text, 1, 0) == PunctTokens(text, 1, 0);
    assert Run(cc, Init, text, 0) == Ok(st);
    LexSpecOk(cc, text, st);
    assert st.tok == Token.None;
    assert Finish(st, Text.Utf8Len(text)) == Ok(st.tokens);
  }

  /** `";;"` lexes to two semicolons. */
  lemma LexTwoSemicolons(cc: CharClasses)
    ensures LexSpec(cc, ";;") == Ok([(Semicolon, TextPos(1, 0)), (Semicolon, TextPos(1, 1))])
  {
    var text := ";;";
    assert text[0] == ';' && text[1] == ';';
    LexAllPunctuation(cc, text);
    PairOfSemicolons(text);
  }

  lemma PairOfSemicolons(text: string)
    requires text == ";;"
    ensures forall k :: 0 <= k < |text| ==> Punctuation(text[k]).Some?
    ensures PunctTokens(text, 1, 0) == [(Semicolon, TextPos(1, 0)), (Semicolon, TextPos(1, 1))]
  {
    assert Punctuation(';') == Some(Semicolon);
    assert text[0] == ';' && text[1] == ';';
    var r := PunctTokens(text, 1, 0);
    assert r[0] == (Semicolon, TextPos(1, 0)) && r[1] == (Semicolon, TextPos(1, 1));
  }

  // ---------------------------------------------------------------------------
  // Identifiers and re-dispatch

  /** `c` opens an identifier when it is read against the empty token. */
  predicate StartsIdent(cc: CharClasses, c: char) {
    && Punctuation(c).None? && c != '"' && c != '#' && c != '$'
    && !IsWhitespace(c) && !IsNum(cc, c, true) && IsIdent(cc, c, true)
  }

  predicate IdentRest(cc: CharClasses, s: string) {
    forall k :: 0 <= k < |s| ==> IsIdent(cc, s[k], false) && s[k] != '\n'
  }

  /** Identifier characters extend an open identifier and emit nothing. */
  lemma {:induction false} IdentRun(cc: CharClasses, st: LexState, p: string, cs: string, i: nat)
    requires !st.finished && st.tok == Ident(p)
    requires IdentRest(cc, cs)
    ensures Run(cc, st, cs, i) == Ok(st.(tok := Ident(p + cs)))
    decreases |cs|
  {
    if cs == [] {
      assert p + cs == p;
    } else {
      var st' := st.(tok := Ident(p + [cs[0]]));
      assert Newline(st, i, cs[0]) == st;
      StepOnce(cc, st, i, cs[0], st');
      RunCons(cc, st, cs, i);
      IdentRun(cc, st', p + [cs[0]], cs[1..], i + 1);
      assert p + [cs[0]] + cs[1..] == p + cs;
    }
  }

  /**
   * A character that cannot continue an identifier ends it and is then lexed
   * against a fresh token: `name` followed by a punctuation character gives
   * the identifier and then that punctuation token.
   */
  lemma IdentThenPunctuation(cc: CharClasses, name: string, c: char)
    requires name != [] && StartsIdent(cc, name[0]) && IdentRest(cc, name[1..])
    requires Punctuation(c).Some? && !IsIdent(cc, c, false)
    ensures LexSpec(cc, name + [c]) ==
      Ok([(Ident(name), TextPos(1, |name|)), (Punctuation(c).value, TextPos(1, |name|))])
  {
    var pos := TextPos(1, |name|);
    var last := Init.(tokens := [(Ident(name), pos), (Punctuation(c).value, pos)]);
    IdentThenPunctuationRun(cc, name, c);
    LexSpecOk(cc, name + [c], last);
  }

  /** The character loop over an identifier and a punctuation character ends with both tokens pushed. */
  lemma IdentThenPunctuationRun(cc: CharClasses, name: string, c: char)
    requires name != [] && StartsIdent(cc, name[0]) && IdentRest(cc, name[1..])
    requires Punctuation(c).Some? && !IsIdent(cc, c, false)
    ensures Run(cc, Init, name + [c], 0) ==
      Ok(Init.(tokens := [(Ident(name), TextPos(1, |name|)), (Punctuation(c).value, TextPos(1, |name|))]))
  {
    var first := Init.(tok := Ident([name[0]]));
    IdentStart(cc, name[0]);
    IdentRun(cc, first, [name[0]], name[1..], 1);
    assert [name[0]] + name[1..] == name;
    var mid := first.(tok := Ident(name));
    RunSplit(cc, Init, [name[0]], name[1..], 0, first, mid);
    IdentEnd(cc, mid, name, c, |name|);
    var pos := TextPos(1, |name|);
    var last := mid.(tokens := [(Ident(name), pos), (Punctuation(c).value, pos)], tok := Token.None);
    assert PosAt(mid, |name|) == pos;
    assert mid.tokens + [(Ident(name), pos), (Punctuation(c).value, pos)] == last.tokens;
    RunSplit(cc, Init, name, [c], 0, mid, last);
    assert last == Init.(tokens := [(Ident(name), pos), (Punctuation(c).value, pos)]);
  }

  /** A character that starts an identifier at the start of the text opens one. */
  lemma IdentStart(cc: CharClasses, c: char)
    requires StartsIdent(cc, c)
    ensures Run(cc, Init, [c], 0) == Ok(Init.(tok := Ident([c])))
  {
    assert Newline(Init, 0, c) == Init;
    StepOnce(cc, Init, 0, c, Init.(tok := Ident([c])));
    RunOne(cc, Init, c, 0);
  }

  /** Punctuation after an identifier pushes the identifier, then itself, at the same position. */
  lemma IdentEnd(cc: CharClasses, st: LexState, name: string, c: char, i: nat)
    requires !st.finished && st.tok == Ident(name)
    requires Punctuation(c).Some? && !IsIdent(cc, c, false)
    ensures Run(cc, st, [c], i) ==
      Ok(st.(tokens := st.tokens + [(Ident(name), PosAt(st, i)), (Punctuation(c).value, PosAt(st, i))], tok := Token.None))
  {
    var pos := PosAt(st, i);
    assert Newline(st, i, c) == st;
    var flushed := Flush(st, pos);
    StepTwice(cc, st, i, c, flushed, flushed.(tok := Punctuation(c).value, finished := true));
    RunOne(cc, st, c, i);
    assert flushed.tokens + [(Punctuation(c).value, pos)]
        == st.tokens + [(Ident(name), pos), (Punctuation(c).value, pos)];
  }

  /** With ASCII character classes, `ident{` lexes to an identifier and a curly brace. */
  lemma LexIdentCurly(cc: CharClasses, text: string)
    requires AsciiFaithful(cc) && text == "ident{"
    ensures LexSpec(cc, text) == Ok([(Ident("ident"), TextPos(1, 5)), (Curly(Left), TextPos(1, 5))])
  {
    var name := "ident";
    assert cc.alphabetic('i') && cc.alphabetic('d') && cc.alphabetic('e') && cc.alphabetic('n') && cc.alphabetic('t');
    assert !cc.numeric('i') && !cc.numeric('{') && !cc.alphabetic('{');
    assert StartsIdent(cc, name[0]);
    assert IdentRest(cc, name[1..]);
    IdentThenPunctuation(cc, name, '{');
    assert name + ['{'] == text;
  }

  // ---------------------------------------------------------------------------
  // Numbers

  predicate DigitsRest(cc: CharClasses, s: string) {
    forall k :: 0 <= k < |s| ==> cc.numeric(s[k]) && s[k] != '\n'
  }

  /** Numeric characters extend an open number and emit nothing. */
  lemma {:induction false} NumRun(cc: CharClasses, st: LexState, cs: string, i: nat)
    requires !st.finished && st.tok.Num?
    requires DigitsRest(cc, cs)
    ensures Run(cc, st, cs, i) == Ok(st.(numStr := st.numStr + cs))
    decreases |cs|
  {
    if cs == [] {
      assert st.numStr + cs == st.numStr;
    } else {
      var st' := st.(numStr := st.numStr + [cs[0]]);
      assert Newline(st, i, cs[0]) == st;
      StepOnce(cc, st, i, cs[0], st');
      RunCons(cc, st, cs, i);
      NumRun(cc, st', cs[1..], i + 1);
      assert st.numStr + [cs[0]] + cs[1..] == st.numStr + cs;
    }
  }

  /** The decimal text of a magnitude parses back to it. */
  lemma ParseNatToString(n: nat)
    requires n <= I64_MAX
    ensures ParseI64(Text.NatToString(n)) == Some(n)
  {
    var s := Text.NatToString(n);
    Text.DigitsOfNatToString(n);
    assert Text.IsAsciiDigit(s[0]);
    assert AllAsciiDigits(s);
  }

  /** A `-` before the decimal text of a magnitude parses back to its negation. */
  lemma ParseMinusNatToString(n: nat)
    requires 0 < n <= -I64_MIN
    ensures ParseI64("-" + Text.NatToString(n)) == Some(-(n as int))
  {
    var digits := Text.NatToString(n);
    var s := "-" + digits;
    Text.DigitsOfNatToString(n);
    assert s[0] == '-' && s[1..] == digits;
    assert AllAsciiDigits(s[1..]);
    assert Text.DigitsValue(s[1..]) == n;
  }

  /** `to_string` of an `i64` parses back to the same number. */
  lemma ParseIntToString(x: int)
    requires I64_MIN <= x <= I64_MAX
    ensures ParseI64(Text.IntToString(x)) == Some(x)
  {
    if x < 0 {
      ParseMinusNatToString(-x);
    } else {
      ParseNatToString(x);
    }
  }

  /** Every `i64` written in decimal lexes to one number token with that value. */
  lemma LexNumber(cc: CharClasses, x: int)
    requires AsciiFaithful(cc)
    requires I64_MIN <= x <= I64_MAX
    ensures LexSpec(cc, Text.IntToString(x)) == Ok([(Num(x), TextPos(1, |Text.IntToString(x)|))])
  {
    var s := Text.IntToString(x);
    assert forall k :: 1 <= k < |s| ==> Text.IsAsciiDigit(s[k]) by {
      if x < 0 {
        assert s == "-" + Text.NatToString(-x);
      } else {
        assert s == Text.NatToString(x);
      }
    }
    assert s[0] == '-' || Text.IsAsciiDigit(s[0]) by {
      if x >= 0 {
        assert s == Text.NatToString(x);
      }
    }
    assert forall k :: 0 <= k < |s| ==> (s[k] as int) < 0x80;
    assert DigitsRest(cc, s[1..]) by {
      forall k | 0 <= k < |s[1..]| ensures cc.numeric(s[1..][k]) && s[1..][k] != '\n' {
        assert Text.IsAsciiDigit(s[k + 1]);
      }
    }
    NumberRuns(cc, s);
    var st := Init.(tok := Num(0), numStr := s);
    LexSpecOk(cc, s, st);
    ParseIntToString(x);
    FinishNum(st, Text.Utf8Len(s), x);
    assert Text.Utf8Len(s) == |s|;
    assert st.tokens + [(Num(x), TextPos(1, |s|))] == [(Num(x), TextPos(1, |s|))];
  }

  /** The flush of an open number whose text parses. */
  lemma FinishNum(st: LexState, byteLen: nat, v: int)
    requires st.tok.Num? && ParseI64(st.numStr) == Some(v)
    ensures Finish(st, byteLen) == Ok(st.tokens + [(Num(v), TextPos(st.lineN, byteLen - st.lastLineI))])
  {
  }

  /** A sign or digit opens a number when read against the empty token. */
  lemma StartsNum(cc: CharClasses, c: char)
    requires c == '-' || Text.IsAsciiDigit(c)
    ensures c != '\n' && Punctuation(c).None? && !IsWhitespace(c)
    ensures c != '"' && c != '#' && c != '$'
  {
  }

  /** A sign or digit at the start of the text opens a number. */
  lemma NumStart(cc: CharClasses, c: char)
    requires c == '-' || Text.IsAsciiDigit(c)
    requires IsNum(cc, c, true)
    ensures Run(cc, Init, [c], 0) == Ok(Init.(tok := Num(0), numStr := [c]))
  {
    var st := Init.(tok := Num(0), numStr := [c]);
    StartsNum(cc, c);
    assert Dispatch(cc, Init, c, PosAt(Init, 0)) == Ok((st, false));
    QuietChar(cc, Init, 0, c, st);
  }

  /** A sign or digit followed by numeric characters leaves one open number holding them all. */
  lemma NumberRuns(cc: CharClasses, s: string)
    requires s != [] && (s[0] == '-' || Text.IsAsciiDigit(s[0]))
    requires IsNum(cc, s[0], true) && DigitsRest(cc, s[1..])
    ensures Run(cc, Init, s, 0) == Ok(Init.(tok := Num(0), numStr := s))
  {
    var c := s[0];
    var first := Init.(tok := Num(0), numStr := [c]);
    NumStart(cc, c);
    NumRun(cc, first, s[1..], 1);
    assert [c] + s[1..] == s;
    RunSplit(cc, Init, [c], s[1..], 0, first, first.(numStr := s));
  }

  /** `"-10"` lexes to the number -10. */
  lemma LexMinusTen(cc: CharClasses, text: string)
    requires AsciiFaithful(cc) && text == "-10"
    ensures LexSpec(cc, text) == Ok([(Num(-10), TextPos(1, 3))])
  {
    LexNumber(cc, -10);
    assert Text.NatToString(10) == "10";
    assert Text.IntToString(-10) == text;
  }

  /** A `-` at the start of the text opens a number. */
  lemma MinusStart(cc: CharClasses)
    ensures Run(cc, Init, "-", 0) == Ok(Init.(tok := Num(0), numStr := "-"))
  {
    assert Newline(Init, 0, '-') == Init;
    StepOnce(cc, Init, 0, '-', Init.(tok := Num(0), numStr := "-"));
    RunOne(cc, Init, '-', 0);
  }

  /** After an open `-`, a character that is not numeric fails at its own position. */
  lemma MinusThenOther(cc: CharClasses, st: LexState, c: char, tail: string, i: nat)
    requires st.tok.Num? && st.numStr == "-" && !IsNum(cc, c, false)
    requires tail != [] && tail[0] == c
    ensures Run(cc, st, tail, i) == Err(InvalidNumber("-", PosAt(st, i)))
  {
    var e := InvalidNumber("-", PosAt(st, i));
    var st1 := Newline(st, i, c);
    assert st1.tok == st.tok && st1.numStr == "-";
    assert ContinueNum(cc, st1, c, PosAt(st, i)) == Err(e);
    StepErr(cc, st, i, c, e);
    RunCons(cc, st, tail, i);
  }

  /** A `-` followed by anything that is not numeric is an invalid number at the second character. */
  lemma LexInvalidNumber(cc: CharClasses, c: char, rest: string)
    requires !cc.numeric(c)
    ensures LexSpec(cc, ['-', c] + rest) == Err(InvalidNumber("-", TextPos(1, 1)))
  {
    var tail := [c] + rest;
    MinusStart(cc);
    assert PosAt(Init.(tok := Num(0), numStr := "-"), 1) == TextPos(1, 1);
    MinusThenOther(cc, Init.(tok := Num(0), numStr := "-"), c, tail, 1);
    assert ['-', c] + rest == "-" + tail;
    RunAppend(cc, Init, "-", tail, 0);
    LexSpecErr(cc, ['-', c] + rest, InvalidNumber("-", TextPos(1, 1)));
  }

  /** A lone `-` at the end of the text reaches the number parse's `expect`. */
  lemma LexLoneMinus(cc: CharClasses)
    ensures LexSpec(cc, "-") == Err(Panic("Number contains invalid characters"))
  {
    MinusStart(cc);
    assert ParseI64("-") == Option.None;
  }

  // ---------------------------------------------------------------------------
  // Strings

  /** Puts a backslash before every quote and backslash. */
  function Escape(s: string): (r: string)
    ensures |r| >= |s|
  {
    if s == [] then []
    else (if s[0] == '"' || s[0] == '\\' then ['\\', s[0]] else [s[0]]) + Escape(s[1..])
  }

  /** Inside a string, escaped text is appended decoded and emits nothing. */
  lemma {:induction false} StrRun(cc: CharClasses, st: LexState, p: string, s: string, i: nat)
    requires !st.finished && !st.escape && st.tok == Str(p)
    ensures Run(cc, st, Escape(s), i).Ok?
    ensures var st' := Run(cc, st, Escape(s), i).value;
      st'.tok == Str(p + s) && !st'.escape && st'.tokens == st.tokens && !st'.finished
    decreases |s|
  {
    if s == [] {
      assert p + s == p;
    } else {
      var c := s[0];
      var head := if c == '"' || c == '\\' then ['\\', c] else [c];
      assert Escape(s) == head + Escape(s[1..]);
      RunAppend(cc, st, head, Escape(s[1..]), i);
      var a: LexState;
      if c == '"' || c == '\\' {
        a := st.(tok := Str(p + [c]), escape := false);
        assert head == ['\\', c];
        StrEscapedHead(cc, st, p, c, i);
      } else {
        a := Newline(st, i, c).(tok := Str(p + [c]), escape := false);
        assert head == [c];
        StrPlainHead(cc, st, p, c, i);
      }
      assert Run(cc, st, head, i) == Ok(a);
      StrRun(cc, a, p + [c], s[1..], i + |head|);
      assert p + [c] + s[1..] == p + s;
    }
  }

  /** A quote or a backslash inside a string, escaped, is appended once. */
  lemma StrEscapedHead(cc: CharClasses, st: LexState, p: string, c: char, i: nat)
    requires !st.finished && !st.escape && st.tok == Str(p) && (c == '"' || c == '\\')
    ensures Run(cc, st, ['\\', c], i) == Ok(st.(tok := Str(p + [c]), escape := false))
  {
    var e := st.(escape := true);
    var a := e.(tok := Str(p + [c]), escape := false);
    assert Newline(st, i, '\\') == st;
    StepOnce(cc, st, i, '\\', e);
    assert Newline(e, i + 1, c) == e;
    StepOnce(cc, e, i + 1, c, a);
    RunOne(cc, e, c, i + 1);
    assert ['\\', c][1..] == [c];
    RunCons(cc, st, ['\\', c], i);
  }

  /** Any other character inside a string is appended as it is. */
  lemma StrPlainHead(cc: CharClasses, st: LexState, p: string, c: char, i: nat)
    requires !st.finished && !st.escape && st.tok == Str(p) && c != '"' && c != '\\'
    ensures Run(cc, st, [c], i) == Ok(Newline(st, i, c).(tok := Str(p + [c]), escape := false))
  {
    var a := Newline(st, i, c).(tok := Str(p + [c]), escape := false);
    StepOnce(cc, st, i, c, a);
    RunOne(cc, st, c, i);
  }

  /** After a backslash, any character is appended as it is. */
  lemma EscapedCharIsVerbatim(cc: CharClasses, st: LexState, p: string, c: char, pos: TextPos)
    requires !st.finished && st.tok == Str(p) && st.escape
    ensures Dispatch(cc, st, c, pos) == Ok((st.(tok := Str(p + [c]), escape := false), false))
  {
  }

  /** An unescaped quote ends the string and is not part of it. */
  lemma QuoteEndsString(cc: CharClasses, st: LexState, p: string, pos: TextPos)
    requires !st.finished && st.tok == Str(p) && !st.escape
    ensures Dispatch(cc, st, '"', pos) == Ok((st.(finished := true), false))
  {
  }

  /** A quote read against the empty token opens a string that the escaped text then fills. */
  lemma QuotedFrom(cc: CharClasses, st: LexState, s: string, i: nat)
    requires !st.finished && st.tok == Token.None && !st.escape
    ensures Run(cc, st, "\"" + Escape(s), i).Ok?
    ensures var st' := Run(cc, st, "\"" + Escape(s), i).value;
      st'.tok == Str(s) && !st'.escape && st'.tokens == st.tokens && !st'.finished
  {
    var text := "\"" + Escape(s);
    var open := st.(tok := Str(""));
    assert Newline(st, i, '"') == st;
    StepOnce(cc, st, i, '"', open);
    assert text[0] == '"' && text[1..] == Escape(s);
    RunCons(cc, st, text, i);
    StrRun(cc, open, "", s, i + 1);
    assert "" + s == s;
  }

  /** The closing quote pushes the string at its own position. */
  lemma CloseQuote(cc: CharClasses, st: LexState, p: string, i: nat)
    requires !st.finished && st.tok == Str(p) && !st.escape
    ensures Run(cc, st, "\"", i) == Ok(Flush(st, PosAt(st, i)))
  {
    assert Newline(st, i, '"') == st;
    QuoteEndsString(cc, st, p, PosAt(st, i));
    StepOnce(cc, st, i, '"', st.(finished := true));
    RunOne(cc, st, '"', i);
  }

  /** A quoted, escaped string lexes back to exactly the original string. */
  lemma StringRoundTrip(cc: CharClasses, s: string)
    ensures LexSpec(cc, "\"" + Escape(s) + "\"").Ok?
    ensures Kinds(LexSpec(cc, "\"" + Escape(s) + "\"").value) == [Str(s)]
  {
    var quoted := "\"" + Escape(s);
    QuotedFrom(cc, Init, s, 0);
    var body := Run(cc, Init, quoted, 0).value;
    CloseQuote(cc, body, s, |quoted|);
    var fin := Flush(body, PosAt(body, |quoted|));
    RunSplit(cc, Init, quoted, "\"", 0, body, fin);
    LexSpecOk(cc, quoted + "\"", fin);
    assert fin.tok == Token.None && fin.tokens == [(Str(s), PosAt(body, |quoted|))];
  }

  lemma {:induction false} EscapePlain(s: string)
    requires forall k :: 0 <= k < |s| ==> s[k] != '"' && s[k] != '\\'
    ensures Escape(s) == s
  {
    if s != [] {
      EscapePlain(s[1..]);
    }
  }

  /** An unterminated string is still emitted, with the characters read so far. */
  lemma UnterminatedString(cc: CharClasses, s: string)
    requires forall k :: 0 <= k < |s| ==> s[k] != '"' && s[k] != '\\'
    ensures LexSpec(cc, "\"" + s).Ok?
    ensures Kinds(LexSpec(cc, "\"" + s).value) == [Str(s)]
  {
    EscapePlain(s);
    QuotedFrom(cc, Init, s, 0);
    var fin := Run(cc, Init, "\"" + s, 0).value;
    LexSpecOk(cc, "\"" + s, fin);
    FinishOpen(fin, Text.Utf8Len("\"" + s));
  }

  // ---------------------------------------------------------------------------
  // Comments

  /** Characters other than a newline extend an open comment and emit nothing. */
  lemma {:induction false} CommentRun(cc: CharClasses, st: LexState, p: string, cs: string, i: nat)
    requires !st.finished && st.tok == Comment(p)
    requires forall k :: 0 <= k < |cs| ==> cs[k] != '\n'
    ensures Run(cc, st, cs, i) == Ok(st.(tok := Comment(p + cs)))
    decreases |cs|
  {
    if cs == [] {
      assert p + cs == p;
    } else {
      var st' := st.(tok := Comment(p + [cs[0]]));
      assert Newline(st, i, cs[0]) == st;
      StepOnce(cc, st, i, cs[0], st');
      RunCons(cc, st, cs, i);
      CommentRun(cc, st', p + [cs[0]], cs[1..], i + 1);
      assert p + [cs[0]] + cs[1..] == p + cs;
    }
  }

  /** The comment after a leading `#`, up to the first newline. */
  lemma OpenComment(cc: CharClasses, s: string)
    requires forall k :: 0 <= k < |s| ==> s[k] != '\n'
    ensures Run(cc, Init, "#" + s, 0) == Ok(Init.(tok := Comment(s)))
  {
    var open := Init.(tok := Comment(""));
    assert Newline(Init, 0, '#') == Init;
    StepOnce(cc, Init, 0, '#', open);
    RunOne(cc, Init, '#', 0);
    CommentRun(cc, open, "", s, 1);
    assert "" + s == s;
    RunAppend(cc, Init, "#", s, 0);
  }

  /** A comment up to the end of the text is emitted with its text, without the `#`. */
  lemma LexCommentToEnd(cc: CharClasses, s: string, text: string)
    requires forall k :: 0 <= k < |s| ==> s[k] != '\n'
    requires text == "#" + s
    ensures LexSpec(cc, text) == Ok([(Comment(s), TextPos(1, Text.Utf8Len(text)))])
  {
    OpenComment(cc, s);
    var st := Init.(tok := Comment(s));
    assert Run(cc, Init, text, 0) == Ok(st);
    assert st.tokens + [(st.tok, TextPos(1, Text.Utf8Len(text)))] == [(Comment(s), TextPos(1, Text.Utf8Len(text)))];
  }

  /** The newline ends the comment, is consumed by it and is not part of its text. */
  lemma LexCommentLine(cc: CharClasses, s: string, text: string)
    requires forall k :: 0 <= k < |s| ==> s[k] != '\n'
    requires text == "#" + s + "\n"
    ensures LexSpec(cc, text) == Ok([(Comment(s), TextPos(1, |s| + 1))])
  {
    OpenComment(cc, s);
    var body := Init.(tok := Comment(s));
    var n := |s| + 1;
    var nl := Newline(body, n, '\n');
    StepOnce(cc, body, n, '\n', nl.(finished := true));
    RunOne(cc, body, '\n', n);
    var fin := Flush(nl, TextPos(1, n));
    RunSplit(cc, Init, "#" + s, "\n", 0, body, fin);
    LexSpecOk(cc, text, fin);
    assert fin.tok == Token.None && fin.tokens == [(Comment(s), TextPos(1, n))];
  }

  // ---------------------------------------------------------------------------
  // Whitespace and unexpected characters

  predicate AllWhitespace(s: string) {
    forall k :: 0 <= k < |s| ==> IsWhitespace(s[k])
  }

  /** Further whitespace extends an open whitespace token and emits nothing. */
  lemma {:induction false} WhitespaceRun(cc: CharClasses, st: LexState, cs: string, i: nat)
    requires !st.finished && st.tok == Whitespace
    requires AllWhitespace(cs)
    ensures Run(cc, st, cs, i).Ok?
    ensures Run(cc, st, cs, i).value.tok == Whitespace && Run(cc, st, cs, i).value.tokens == st.tokens
    decreases |cs|
  {
    if cs != [] {
      var st' := Newline(st, i, cs[0]);
      StepOnce(cc, st, i, cs[0], st');
      RunCons(cc, st, cs, i);
      WhitespaceRun(cc, st', cs[1..], i + 1);
    }
  }

  /** Whitespace read against the empty token opens a whitespace token; the rest of the run extends it. */
  lemma {:induction false} WhitespaceText(cc: CharClasses, st: LexState, text: string, i: nat)
    requires !st.finished && st.tok == Token.None
    requires text != [] && AllWhitespace(text)
    ensures Run(cc, st, text, i).Ok?
    ensures Run(cc, st, text, i).value.tok == Whitespace && Run(cc, st, text, i).value.tokens == st.tokens
  {
    var c := text[0];
    var st' := Newline(st, i, c).(tok := Whitespace);
    assert Punctuation(c).None?;
    StepOnce(cc, st, i, c, st');
    RunCons(cc, st, text, i);
    WhitespaceRun(cc, st', text[1..], i + 1);
  }

  /** A run of whitespace, however long, is a single whitespace token. */
  lemma LexWhitespace(cc: CharClasses, text: string)
    requires text != [] && AllWhitespace(text)
    ensures LexSpec(cc, text).Ok? && Kinds(LexSpec(cc, text).value) == [Whitespace]
  {
    WhitespaceText(cc, Init, text, 0);
    var fin := Run(cc, Init, text, 0).value;
    LexSpecOk(cc, text, fin);
    FinishOpen(fin, Text.Utf8Len(text));
  }

  /** The flush of an open token other than a number, at the end of the text. */
  lemma FinishOpen(st: LexState, byteLen: nat)
    requires !st.tok.None? && !st.tok.Num?
    ensures Finish(st, byteLen) == Ok(st.tokens + [(st.tok, TextPos(st.lineN, byteLen - st.lastLineI))])
  {
  }

  /** A character that starts no token is unexpected against the empty token. */
  lemma DispatchUnexpected(cc: CharClasses, st: LexState, c: char, pos: TextPos)
    requires st.tok == Token.None
    requires Punctuation(c).None? && c != '"' && c != '#' && c != '$'
    requires !IsWhitespace(c) && !IsNum(cc, c, true) && !IsIdent(cc, c, true)
    ensures Dispatch(cc, st, c, pos) == Err(UnexpectedToken(Token.None, pos))
  {
  }

  lemma FirstDispatchUnexpected(cc: CharClasses, c: char)
    requires Punctuation(c).None? && c != '"' && c != '#' && c != '$'
    requires !IsWhitespace(c) && !IsNum(cc, c, true) && !IsIdent(cc, c, true)
    ensures Dispatch(cc, Newline(Init, 0, c), c, PosAt(Init, 0)) == Err(UnexpectedToken(Token.None, TextPos(1, 0)))
  {
    WhitespaceNewline(c);
    NewlineOther(Init, 0, c);
    InitPos();
    DispatchUnexpected(cc, Init, c, TextPos(1, 0));
  }

  /** The first character is at line 1, column 0. */
  lemma InitPos()
    ensures PosAt(Init, 0) == TextPos(1, 0)
  {
  }

  /** A newline is whitespace. */
  lemma WhitespaceNewline(c: char)
    requires !IsWhitespace(c)
    ensures c != '\n'
  {
  }

  /** A character other than a newline leaves the line bookkeeping alone. */
  lemma NewlineOther(st: LexState, i: nat, c: char)
    requires c != '\n'
    ensures Newline(st, i, c) == st
  {
  }

  /** A first character that starts no token is an unexpected-token error at (1:0). */
  lemma LexUnexpected(cc: CharClasses, c: char, rest: string)
    requires Punctuation(c).None? && c != '"' && c != '#' && c != '$'
    requires !IsWhitespace(c) && !IsNum(cc, c, true) && !IsIdent(cc, c, true)
    ensures LexSpec(cc, [c] + rest) == Err(UnexpectedToken(Token.None, TextPos(1, 0)))
  {
    FirstDispatchUnexpected(cc, c);
    LexFirstErr(cc, c, rest, UnexpectedToken(Token.None, TextPos(1, 0)));
  }


  // ---------------------------------------------------------------------------
  // Shape of every emitted token

  predicate IdentName(cc: CharClasses, name: string) {
    forall k :: 0 <= k < |name| ==> IsIdent(cc, name[k], k == 0)
  }

  /**
   * A token as `lex` emits it: never the empty token, an identifier is
   * non-empty and does not start with a numeric character, a variable name
   * is made of identifier characters, and a number fits in an `i64`.
   */
  predicate WellFormed(cc: CharClasses, t: Token) {
    && !t.None?
    && (t.Ident? ==> t.name != [] && IdentName(cc, t.name))
    && (t.Variable? ==> IdentName(cc, t.name))
    && (t.Num? ==> I64_MIN <= t.num <= I64_MAX)
  }

  /**
   * A token with its position as `lex` emits it: the token is well formed,
   * lines count from 1, and the column, a `usize` difference in the source,
   * never goes below zero.
   */
  predicate Emitted(cc: CharClasses, t: TokenAndPos) {
    WellFormed(cc, t.0) && t.1.line >= 1 && t.1.column >= 0
  }

  /** What stays true of the lexer state between characters. */
  predicate StateOk(cc: CharClasses, st: LexState) {
    && (forall k :: 0 <= k < |st.tokens| ==> Emitted(cc, st.tokens[k]))
    && st.lineN >= 1
    && (st.tok.Ident? ==> st.tok.name != [] && IdentName(cc, st.tok.name))
    && (st.tok.Variable? ==> IdentName(cc, st.tok.name))
    && (st.finished ==> !st.tok.None? && !st.tok.Ident? && !st.tok.Variable? && !st.tok.Num?)
  }

  /** Pushing an emitted token keeps every token emitted. */
  lemma PushKeepsShape(cc: CharClasses, ts: seq<TokenAndPos>, t: TokenAndPos)
    requires forall k :: 0 <= k < |ts| ==> Emitted(cc, ts[k])
    requires Emitted(cc, t)
    ensures forall k :: 0 <= k < |ts + [t]| ==> Emitted(cc, (ts + [t])[k])
  {
  }

  lemma DispatchKeepsShape(cc: CharClasses, st: LexState, c: char, pos: TextPos)
    requires !st.finished && StateOk(cc, st) && pos.line >= 1 && pos.column >= 0
    requires Dispatch(cc, st, c, pos).Ok?
    ensures StateOk(cc, Dispatch(cc, st, c, pos).value.0)
  {
    var st' := Dispatch(cc, st, c, pos).value.0;
    match st.tok
    case Ident(name) =>
      if IsIdent(cc, c, false) {
        assert st'.tok.name == name + [c];
      } else {
        PushKeepsShape(cc, st.tokens, (st.tok, pos));
        assert st'.tokens == st.tokens + [(st.tok, pos)];
      }
    case Variable(name) =>
      if IsIdent(cc, c, name == []) {
        assert st'.tok.name == name + [c];
      } else {
        PushKeepsShape(cc, st.tokens, (st.tok, pos));
        assert st'.tokens == st.tokens + [(st.tok, pos)];
      }
    case Num(_) =>
      if !IsNum(cc, c, false) {
        var v := ParseI64(st.numStr).value;
        PushKeepsShape(cc, st.tokens, (Num(v), pos));
        assert st'.tokens == st.tokens + [(Num(v), pos)];
      }
    case Whitespace =>
      if !IsWhitespace(c) {
        PushKeepsShape(cc, st.tokens, (st.tok, pos));
        assert st'.tokens == st.tokens + [(st.tok, pos)];
      }
    case _ =>
  }

  lemma CharStepKeepsShape(cc: CharClasses, st: LexState, i: nat, c: char)
    requires st.lastLineI <= i && !st.finished && StateOk(cc, st)
    requires CharStep(cc, st, i, c).Ok?
    ensures StateOk(cc, CharStep(cc, st, i, c).value)
    ensures CharStep(cc, st, i, c).value.lastLineI <= i
  {
    var pos := PosAt(st, i);
    var st1 := Newline(st, i, c);
    DispatchKeepsShape(cc, st1, c, pos);
    var (st2, repeat) := Dispatch(cc, st1, c, pos).value;
    if repeat {
      DispatchKeepsShape(cc, st2, c, pos);
    }
    var st3 := Redispatch(cc, st1, c, pos).value;
    if st3.finished {
      assert Flush(st3.(finished := false), pos).tokens == st3.tokens + [(st3.tok, pos)];
    }
  }

  lemma {:induction false} RunKeepsShape(cc: CharClasses, st: LexState, cs: string, i: nat)
    requires st.lastLineI <= i && !st.finished && StateOk(cc, st)
    requires Run(cc, st, cs, i).Ok?
    ensures StateOk(cc, Run(cc, st, cs, i).value)
    ensures Run(cc, st, cs, i).value.lastLineI <= i + |cs|
    decreases |cs|
  {
    if cs != [] {
      RunCons(cc, st, cs, i);
      CharStepKeepsShape(cc, st, i, cs[0]);
      RunKeepsShape(cc, CharStep(cc, st, i, cs[0]).value, cs[1..], i + 1);
    }
  }

  /**
   * Every token `lex` returns is well formed (in particular none is the
   * empty token) and sits at a line from 1 and a column that is not negative.
   */
  lemma LexTokensWellFormed(cc: CharClasses, text: string)
    requires LexSpec(cc, text).Ok?
    ensures forall k :: 0 <= k < |LexSpec(cc, text).value| ==> Emitted(cc, LexSpec(cc, text).value[k])
  {
    RunKeepsShape(cc, Init, text, 0);
    var st := Run(cc, Init, text, 0).value;
    LexSpecOk(cc, text, st);
    var out := LexSpec(cc, text).value;
    assert Text.Utf8Len(text) >= |text|;
    if !st.tok.None? {
      assert out[..|out| - 1] == st.tokens;
    }
  }

  // ---------------------------------------------------------------------------
  // reduce_tokens

  /** Filtering distributes over concatenation, so the kept tokens keep their order. */
  lemma {:induction false} ReduceConcat(a: seq<TokenAndPos>, b: seq<TokenAndPos>)
    ensures ReduceTokens(a + b) == ReduceTokens(a) + ReduceTokens(b)
  {
    if a == [] {
      assert a + b == b;
    } else {
      assert (a + b)[0] == a[0] && (a + b)[1..] == a[1..] + b;
      ReduceConcat(a[1..], b);
    }
  }

  /** A single token is kept exactly when it is significant. */
  lemma ReduceSingle(t: TokenAndPos)
    ensures ReduceTokens([t]) == if Insignificant(t.0) then [] else [t]
  {
    assert [t][1..] == [];
  }

  /** Filtering twice is filtering once. */
  lemma {:induction false} ReduceIdempotent(ts: seq<TokenAndPos>)
    ensures ReduceTokens(ReduceTokens(ts)) == ReduceTokens(ts)
  {
    if ts != [] {
      ReduceIdempotent(ts[1..]);
      if !Insignificant(ts[0].0) {
        ReduceConcat([ts[0]], ReduceTokens(ts[1..]));
        ReduceSingle(ts[0]);
      }
    }
  }
}
