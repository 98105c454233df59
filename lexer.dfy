/** The character-cursor tokenizer (Compilador/src/lexer/mod.rs) and the token
    type it produces. `Scan` states, as a function of the input and a cursor
    position, which token `next_token` returns and where it leaves the cursor;
    the `Lexer` class is proved to follow it. Character classes are ASCII. */
module Lexer {
  import opened Wrappers
  import opened Decimal
  import Ast

  datatype Token =
    | Let | Fn | If | Else | While | For | Return | True | False | Print
    | Ident(name: string)
    | Number(n: Ast.i64)
    | String(text: string)
    | Eq | EqEq | NotEq | Lt | LtEq | Gt | GtEq
    | Plus | Minus | Star | Slash
    | Semicolon | Comma | Colon
    | LParen | RParen | LBrace | RBrace | LBracket | RBracket
    | Eof

  // ----- Character classes (ASCII) -----

  /** `char::is_whitespace` on ASCII: space and the controls tab through carriage return. */
  predicate IsWhitespace(c: char) { c == ' ' || '\t' <= c <= '\r' }

  /** `char::is_alphabetic` on ASCII. */
  predicate IsAlphabetic(c: char) { 'a' <= c <= 'z' || 'A' <= c <= 'Z' }

  predicate IsIdentChar(c: char) { IsAlphabetic(c) || c == '_' }

  /** The loop condition of `skip_whitespace`. */
  predicate Skippable(c: char) { IsWhitespace(c) && c != '\0' }

  /** The loop condition of `read_string`. */
  predicate InString(c: char) { c != '"' && c != '\0' }

  /** The current character for a cursor position: `'\0'` past the end. */
  function CharAt(input: string, pos: nat): char {
    if pos < |input| then input[pos] else '\0'
  }

  /** Where a loop `while p(ch) { read_char() }` started at `pos` stops: the end
      of the maximal run of characters satisfying `p`. */
  function RunEnd(input: string, pos: nat, p: char -> bool): (r: nat)
    requires pos <= |input| && !p('\0')
    ensures pos <= r <= |input| && !p(CharAt(input, r))
    ensures forall k :: pos <= k < r ==> p(input[k])
    decreases |input| - pos
  {
    if p(CharAt(input, pos)) then RunEnd(input, pos + 1, p) else pos
  }

  /** The token for an identifier-shaped word: the ten keywords get their own
      tokens; the type names `int`, `bool`, `string` and `void`, like every other
      word, stay identifiers. */
  function Keyword(word: string): Token {
    if word == "let" then Let
    else if word == "fn" then Fn
    else if word == "if" then If
    else if word == "else" then Else
    else if word == "while" then While
    else if word == "for" then For
    else if word == "return" then Return
    else if word == "true" then True
    else if word == "false" then False
    else if word == "print" then Print
    else Ident(word)
  }

  predicate IsKeyword(word: string) {
    word in {"let", "fn", "if", "else", "while", "for", "return", "true", "false", "print"}
  }

  /** The value the digit run starting at `pos` denotes fits in `i64`. */
  predicate DigitRunFits(input: string, pos: nat)
    requires pos <= |input|
  {
    var e := RunEnd(input, pos, IsDigit);
    assert AllDigits(input[pos..e]) by {
      forall k | 0 <= k < e - pos ensures IsDigit(input[pos..e][k]) { assert input[pos..e][k] == input[pos + k]; }
    }
    Value(input[pos..e]) <= Ast.I64_MAX
  }

  /** The message of the panic `read_number`'s `unwrap` raises when the digit
      run does not fit in `i64`. */
  const OverflowPanic: string := "called `Result::unwrap()` on an `Err` value: ParseIntError { kind: PosOverflow }"

  /** The outcome of one `next_token` call started at cursor `pos`: the token or
      error, and the cursor afterwards. */
  datatype Step = Step(token: Result<Token>, next: nat)

  /** `read_number` at `p`: the value of the maximal digit run, or the `unwrap`
      panic, as an error, when that value does not fit in `i64`. */
  function NumberAt(input: string, p: nat): (r: Step)
    requires p <= |input|
  {
    var e := RunEnd(input, p, IsDigit);
    assert AllDigits(input[p..e]) by {
      forall k | 0 <= k < e - p ensures IsDigit(input[p..e][k]) { assert input[p..e][k] == input[p + k]; }
    }
    if DigitRunFits(input, p) then Step(Ok(Number(Value(input[p..e]))), e) else Step(Err(OverflowPanic), e)
  }

  /** `read_string`, started on the opening quote at `p`: the text up to the
      closing quote or the end of input, and the cursor after the closing quote
      when there is one. */
  function StringAt(input: string, p: nat): (r: Step)
    requires p < |input|
  {
    var e := RunEnd(input, p + 1, InString);
    Step(Ok(String(input[p + 1..e])), if CharAt(input, e) == '"' then e + 1 else e)
  }

  /** A token possibly followed by `=`: `two` when the next character is `=`, else `one`. */
  function WithEq(input: string, p: nat, one: Result<Token>, two: Token): Step
    requires p < |input|
  {
    if CharAt(input, p + 1) == '=' then Step(Ok(two), p + 2) else Step(one, p + 1)
  }

  /** The token a single character stands for, if it is one of the thirteen
      one-character tokens. */
  function SingleCharToken(c: char): Option<Token> {
    match c
    case '+' => Some(Plus)
    case '-' => Some(Minus)
    case '*' => Some(Star)
    case '/' => Some(Slash)
    case ';' => Some(Semicolon)
    case ',' => Some(Comma)
    case ':' => Some(Colon)
    case '(' => Some(LParen)
    case ')' => Some(RParen)
    case '{' => Some(LBrace)
    case '}' => Some(RBrace)
    case '[' => Some(LBracket)
    case ']' => Some(RBracket)
    case _ => None
  }

  /** `next_token`: skip whitespace, then dispatch on the current character. */
  function Scan(input: string, pos: nat): (r: Step)
    requires pos <= |input|
    ensures pos <= r.next <= |input|
  {
    Dispatch(input, RunEnd(input, pos, Skippable))
  }

  /** The `match self.ch` of `next_token`, with the cursor at `p`. */
  function Dispatch(input: string, p: nat): (r: Step)
    requires p <= |input|
    ensures p <= r.next <= |input|
  {
    var c := CharAt(input, p);
    if c == '=' then WithEq(input, p, Ok(Eq), EqEq)
    else if c == '!' then WithEq(input, p, Err("Carácter no válido después de !"), NotEq)
    else if c == '<' then WithEq(input, p, Ok(Lt), LtEq)
    else if c == '>' then WithEq(input, p, Ok(Gt), GtEq)
    else if SingleCharToken(c).Some? then Step(Ok(SingleCharToken(c).value), p + 1)
    else if c == '"' then StringAt(input, p)
    else if c == '\0' then Step(Ok(Eof), p)
    else if IsIdentChar(c) then WordAt(input, p)
    else if IsDigit(c) then NumberAt(input, p)
    else Step(Err("Carácter no válido: " + [c]), p)
  }

  /** `read_identifier` and the keyword table, started at `p`. */
  function WordAt(input: string, p: nat): Step
    requires p <= |input|
  {
    var e := RunEnd(input, p, IsIdentChar);
    Step(Ok(Keyword(input[p..e])), e)
  }

  /** The lexer: the input as characters, the cursor and the current character. */
  class Lexer {
    const input: string
    var pos: nat
    var ch: char

    /** `ch` is always the character under the cursor. */
    ghost predicate Valid()
      reads this
    {
      pos <= |input| && ch == CharAt(input, pos)
    }

    /** `Lexer::new`. */
    constructor(text: string)
      ensures Valid() && input == text && pos == 0
      ensures ch == (if text == [] then '\0' else text[0])
    {
      input := text;
      pos := 0;
      ch := '\0';
      if text != [] {
        ch := text[0];
      }
    }

    /** The copy `Parser::new` reads its first token from; `Lexer` declares no
        `Clone`, so the copy is modelled after the evident intent. */
    method Clone() returns (copy: Lexer)
      requires Valid()
      ensures fresh(copy) && copy.Valid()
      ensures copy.input == input && copy.pos == pos && copy.ch == ch
    {
      copy := new Lexer(input);
      copy.pos := pos;
      copy.ch := ch;
    }

    method ReadChar()
      requires Valid() && pos < |input|
      modifies this
      ensures Valid() && pos == old(pos) + 1
    {
      pos := pos + 1;
      if pos >= |input| {
        ch := '\0';
      } else {
        ch := input[pos];
      }
    }

    /** Steps over the run of characters satisfying `p`. */
    method SkipRun(p: char -> bool)
      requires Valid() && !p('\0')
      modifies this
      ensures Valid() && pos == RunEnd(input, old(pos), p)
    {
      ghost var start := pos;
      while p(ch)
        invariant Valid() && start <= pos
        invariant RunEnd(input, start, p) == RunEnd(input, pos, p)
        decreases |input| - pos
      {
        ReadChar();
      }
    }

    method SkipWhitespace()
      requires Valid()
      modifies this
      ensures Valid() && pos == RunEnd(input, old(pos), Skippable)
    {
      SkipRun(Skippable);
    }

    method ReadIdentifier() returns (word: string)
      requires Valid()
      modifies this
      ensures Valid() && pos == RunEnd(input, old(pos), IsIdentChar)
      ensures word == input[old(pos)..pos]
    {
      var start := pos;
      SkipRun(IsIdentChar);
      word := input[start..pos];
    }

    /** `read_number`; the panic of its `unwrap` is the error. */
    method ReadNumber() returns (n: Result<Ast.i64>)
      requires Valid()
      modifies this
      ensures Valid()
      ensures Step(if n.Ok? then Ok(Number(n.value)) else Err(n.msg), pos) == NumberAt(input, old(pos))
    {
      var start := pos;
      SkipRun(IsDigit);
      var digits := input[start..pos];
      assert AllDigits(digits) by {
        forall k | 0 <= k < |digits| ensures IsDigit(digits[k]) { assert digits[k] == input[start + k]; }
      }
      var value := Value(digits);
      if value <= Ast.I64_MAX {
        n := Ok(value);
      } else {
        n := Err(OverflowPanic);
      }
    }

    method ReadString() returns (text: string)
      requires Valid() && pos < |input|
      modifies this
      ensures Valid() && Step(Ok(String(text)), pos) == StringAt(input, old(pos))
    {
      ReadChar();
      var start := pos;
      SkipRun(InString);
      text := input[start..pos];
      if ch == '"' {
        ReadChar();
      }
    }

    /** An operator that may be followed by `=`. */
    method ReadWithEq(one: Result<Token>, two: Token) returns (tok: Result<Token>)
      requires Valid() && pos < |input|
      modifies this
      ensures Valid() && Step(tok, pos) == WithEq(input, old(pos), one, two)
    {
      ReadChar();
      if ch == '=' {
        ReadChar();
        tok := Ok(two);
      } else {
        tok := one;
      }
    }

    /** `next_token`. */
    method NextToken() returns (tok: Result<Token>)
      requires Valid()
      modifies this
      ensures Valid() && Step(tok, pos) == Scan(input, old(pos))
    {
      SkipWhitespace();
      var c := ch;
      if c == '=' {
        tok := ReadWithEq(Ok(Eq), EqEq);
      } else if c == '!' {
        tok := ReadWithEq(Err("Carácter no válido después de !"), NotEq);
      } else if c == '<' {
        tok := ReadWithEq(Ok(Lt), LtEq);
      } else if c == '>' {
        tok := ReadWithEq(Ok(Gt), GtEq);
      } else if SingleCharToken(c).Some? {
        ReadChar();
        tok := Ok(SingleCharToken(c).value);
      } else if c == '"' {
        var text := ReadString();
        tok := Ok(String(text));
      } else if c == '\0' {
        tok := Ok(Eof);
      } else if IsIdentChar(c) {
        var word := ReadIdentifier();
        tok := Ok(Keyword(word));
      } else if IsDigit(c) {
        var n := ReadNumber();
        if n.Ok? {
          tok := Ok(Number(n.value));
        } else {
          tok := Err(n.msg);
        }
      } else {
        tok := Err("Carácter no válido: " + [c]);
      }
    }
  }

  // ----- Properties -----

  /** A characterisation of `RunEnd` by where the run stops. */
  lemma {:induction false} RunEndStops(input: string, pos: nat, k: nat, p: char -> bool)
    requires pos <= k <= |input| && !p('\0')
    requires forall i :: pos <= i < k ==> p(input[i])
    requires !p(CharAt(input, k))
    ensures RunEnd(input, pos, p) == k
    decreases k - pos
  {
    if pos < k {
      RunEndStops(input, pos + 1, k, p);
    }
  }

  /** The text a token is written as; numbers are non-negative literals. */
  function TokenText(t: Token): string {
    match t
    case Let => "let"
    case Fn => "fn"
    case If => "if"
    case Else => "else"
    case While => "while"
    case For => "for"
    case Return => "return"
    case True => "true"
    case False => "false"
    case Print => "print"
    case Ident(name) => name
    case Number(n) => IntToString(n)
    case String(text) => "\"" + text + "\""
    case Eq => "="
    case EqEq => "=="
    case NotEq => "!="
    case Lt => "<"
    case LtEq => "<="
    case Gt => ">"
    case GtEq => ">="
    case Plus => "+"
    case Minus => "-"
    case Star => "*"
    case Slash => "/"
    case Semicolon => ";"
    case Comma => ","
    case Colon => ":"
    case LParen => "("
    case RParen => ")"
    case LBrace => "{"
    case RBrace => "}"
    case LBracket => "["
    case RBracket => "]"
    case Eof => ""
  }

  predicate IsWordToken(t: Token) {
    t.Let? || t.Fn? || t.If? || t.Else? || t.While? || t.For? || t.Return? || t.True? || t.False? || t.Print?
    || t.Ident?
  }

  /** Tokens that have a text of their own: identifiers that are words but not
      keywords, non-negative numbers and strings without quotes or NULs. */
  predicate Printable(t: Token) {
    match t
    case Ident(name) =>
      |name| > 0 && !IsKeyword(name) && forall i :: 0 <= i < |name| ==> IsIdentChar(name[i])
    case Number(n) => n >= 0
    case String(text) => forall i :: 0 <= i < |text| ==> InString(text[i])
    case Eof => false
    case _ => true
  }

  /** What may follow a token's text without extending the token. */
  predicate Separated(t: Token, rest: string) {
    var c := CharAt(rest, 0);
    (IsWordToken(t) ==> !IsIdentChar(c)) &&
    (t.Number? ==> !IsDigit(c)) &&
    (t.Eq? || t.Lt? || t.Gt? ==> c != '=')
  }

  predicate AllSkippable(gap: string) {
    forall i :: 0 <= i < |gap| ==> Skippable(gap[i])
  }

  lemma CharAtAfter(a: string, b: string, k: nat)
    requires k <= |b|
    ensures CharAt(a + b, |a| + k) == CharAt(b, k)
  {
  }

  /** Every printable token, written after blanks and before text that does not
      extend it, is read back as itself, with the cursor right after its text. */
  lemma ScanRoundTrip(gap: string, t: Token, rest: string)
    requires AllSkippable(gap) && Printable(t) && Separated(t, rest)
    ensures Scan(gap + TokenText(t) + rest, 0) == Step(Ok(t), |gap| + |TokenText(t)|)
  {
    var text := TokenText(t);
    var input := gap + text + rest;
    var p := |gap|;
    assert |text| > 0 && !Skippable(text[0]) by {
      if t.Number? { IntTextStart(t.n); }
    }
    assert input[p] == text[0];
    RunEndStops(input, 0, p, Skippable);
    assert input[p..p + |text|] == text;
    CharAtAfter(gap + text, rest, 0);
    DispatchRoundTrip(input, p, t, rest);
  }

  lemma DispatchRoundTrip(input: string, p: nat, t: Token, rest: string)
    requires Printable(t) && Separated(t, rest)
    requires p + |TokenText(t)| <= |input| && input[p..p + |TokenText(t)|] == TokenText(t)
    requires CharAt(input, p + |TokenText(t)|) == CharAt(rest, 0)
    ensures Dispatch(input, p) == Step(Ok(t), p + |TokenText(t)|)
  {
    var text := TokenText(t);
    if !IsWordToken(t) && !t.Number? && !t.String? {
      SymbolRoundTrip(input, p, t, rest);
      return;
    }
    if t.String? {
      assert CharAt(input, p) == input[p..p + |text|][0] == '"';
      StringRoundTrip(input, p, t.text);
      return;
    }
    assert forall i :: 0 <= i < |text| ==> input[p + i] == text[i] by {
      forall i | 0 <= i < |text| ensures input[p + i] == text[i] {
        assert input[p + i] == input[p..p + |text|][i];
      }
    }
    if IsWordToken(t) {
      WordRoundTrip(input, p, t);
    } else if t.Number? {
      IntTextStart(t.n);
      NumberRoundTrip(input, p, t.n);
    }
  }

  /** An operator or punctuation token whose text starts at `p` is read back. */
  lemma SymbolRoundTrip(input: string, p: nat, t: Token, rest: string)
    requires Printable(t) && !IsWordToken(t) && !t.Number? && !t.String? && Separated(t, rest)
    requires p + |TokenText(t)| <= |input| && input[p..p + |TokenText(t)|] == TokenText(t)
    requires CharAt(input, p + |TokenText(t)|) == CharAt(rest, 0)
    ensures Dispatch(input, p) == Step(Ok(t), p + |TokenText(t)|)
  {
    var text := TokenText(t);
    assert 0 < |text| <= 2;
    assert CharAt(input, p) == input[p..p + |text|][0] == text[0];
    if t.Eq? || t.EqEq? || t.NotEq? || t.Lt? || t.LtEq? || t.Gt? || t.GtEq? {
      if |text| == 2 {
        assert CharAt(input, p + 1) == input[p..p + |text|][1] == text[1];
      }
    } else {
      assert |text| == 1;
      assert SingleCharToken(text[0]) == Some(t);
    }
  }

  lemma IntTextStart(n: int)
    requires n >= 0
    ensures |IntToString(n)| > 0 && IsDigit(IntToString(n)[0])
  {
  }

  lemma WordRoundTrip(input: string, p: nat, t: Token)
    requires IsWordToken(t) && Printable(t)
    requires p + |TokenText(t)| <= |input|
    requires forall i :: 0 <= i < |TokenText(t)| ==> input[p + i] == TokenText(t)[i]
    requires !IsIdentChar(CharAt(input, p + |TokenText(t)|))
    ensures IsIdentChar(CharAt(input, p)) && !IsDigit(CharAt(input, p))
    ensures WordAt(input, p) == Step(Ok(t), p + |TokenText(t)|)
  {
    var w := TokenText(t);
    WordText(t);
    assert forall i :: p <= i < p + |w| ==> IsIdentChar(input[i]) by {
      forall i | p <= i < p + |w| ensures IsIdentChar(input[i]) { assert input[i] == w[i - p]; }
    }
    RunEndStops(input, p, p + |w|, IsIdentChar);
    assert input[p..p + |w|] == w;
  }

  /** The text of a keyword or identifier is a non-empty run of identifier
      characters that the keyword table maps back to the token. */
  lemma WordText(t: Token)
    requires IsWordToken(t) && Printable(t)
    ensures var w := TokenText(t);
      |w| > 0 && !IsDigit(w[0]) && (forall i :: 0 <= i < |w| ==> IsIdentChar(w[i])) && Keyword(w) == t
  {
    if t.Ident? {
      KeywordIff(t.name);
    }
  }

  lemma NumberRoundTrip(input: string, p: nat, n: Ast.i64)
    requires n >= 0
    requires p + |NatToString(n)| <= |input|
    requires forall i :: 0 <= i < |NatToString(n)| ==> input[p + i] == NatToString(n)[i]
    requires !IsDigit(CharAt(input, p + |NatToString(n)|))
    ensures NumberAt(input, p) == Step(Ok(Number(n)), p + |NatToString(n)|)
  {
    var d := NatToString(n);
    forall i | p <= i < p + |d| ensures IsDigit(input[i]) {
      assert input[i] == d[i - p];
    }
    RunEndStops(input, p, p + |d|, IsDigit);
    assert input[p..p + |d|] == d;
  }

  lemma StringRoundTrip(input: string, p: nat, text: string)
    requires forall i :: 0 <= i < |text| ==> InString(text[i])
    requires p + |text| + 2 <= |input| && input[p..p + |text| + 2] == "\"" + text + "\""
    ensures StringAt(input, p) == Step(Ok(String(text)), p + |text| + 2)
  {
    var quoted := "\"" + text + "\"";
    assert input[p] == quoted[0] == '"';
    assert input[p + 1 + |text|] == quoted[1 + |text|] == '"';
    forall i | p + 1 <= i < p + 1 + |text| ensures InString(input[i]) {
      assert input[i] == input[p..p + |text| + 2][i - p] == quoted[i - p] == text[i - p - 1];
    }
    RunEndStops(input, p + 1, p + 1 + |text|, InString);
    forall i | 0 <= i < |text| ensures input[p + 1..p + 1 + |text|][i] == text[i] {
      assert input[p + 1 + i] == input[p..p + |text| + 2][1 + i] == quoted[1 + i];
    }
    assert input[p + 1..p + 1 + |text|] == text;
  }

  /** A string literal whose closing quote is missing runs to the end of the
      input, without an error. */
  lemma UnterminatedString(gap: string, text: string)
    requires AllSkippable(gap) && forall i :: 0 <= i < |text| ==> InString(text[i])
    ensures Scan(gap + "\"" + text, 0) == Step(Ok(String(text)), |gap| + 1 + |text|)
  {
    var input := gap + "\"" + text;
    var p := |gap|;
    assert input[p] == '"';
    RunEndStops(input, 0, p, Skippable);
    forall i | p + 1 <= i < |input| ensures InString(input[i]) {
      assert input[i] == text[i - p - 1];
    }
    RunEndStops(input, p + 1, |input|, InString);
    assert input[p + 1..|input|] == text;
    assert CharAt(input, |input|) == '\0';
    assert Dispatch(input, p) == StringAt(input, p);
  }

  /** The characters a token can start with. */
  predicate StartsToken(c: char) {
    c == '=' || c == '!' || c == '<' || c == '>' || SingleCharToken(c).Some? || c == '"' || c == '\0'
    || IsIdentChar(c) || IsDigit(c)
  }

  /** `next_token` fails exactly on a `!` not followed by `=`, on a character no
      token starts with, and on a digit run too large for `i64` (the `unwrap`
      panic); an invalid character leaves the cursor on it. The end of the
      input, or a NUL character, gives `Eof` and does not move the cursor past
      the blanks. Every other token moves the cursor forward. */
  lemma ScanOutcome(input: string, pos: nat)
    requires pos <= |input|
    ensures var p := RunEnd(input, pos, Skippable);
      var c := CharAt(input, p);
      var r := Scan(input, pos);
      (r.token.Err? <==>
         (c == '!' && CharAt(input, p + 1) != '=') || !StartsToken(c) || (IsDigit(c) && !DigitRunFits(input, p))) &&
      (!StartsToken(c) ==> r == Step(Err("Carácter no válido: " + [c]), p)) &&
      (IsDigit(c) && !DigitRunFits(input, p) ==> r == Step(Err(OverflowPanic), RunEnd(input, p, IsDigit))) &&
      (r.token == Ok(Eof) <==> c == '\0') &&
      (r.token == Ok(Eof) ==> r.next == p) &&
      (r.token.Ok? && r.token.value != Eof ==> r.next > p)
  {
    var p := RunEnd(input, pos, Skippable);
    var c := CharAt(input, p);
    if IsIdentChar(c) {
      assert c != '\0';
      var e := RunEnd(input, p, IsIdentChar);
      assert e > p;
      if Keyword(input[p..e]) == Eof {
        assert false;
      }
    }
  }

  /** Exactly the ten keywords have tokens of their own; in particular the type
      names stay identifiers. */
  lemma KeywordIff(word: string)
    ensures Keyword(word) == Ident(word) <==> !IsKeyword(word)
    ensures Keyword(word).Ident? ==> Keyword(word) == Ident(word)
    ensures Keyword("int") == Ident("int") && Keyword("bool") == Ident("bool")
    ensures Keyword("string") == Ident("string") && Keyword("void") == Ident("void")
  {
  }

  /** An identifier token is a non-empty run of letters and underscores: digits
      never belong to it. */
  lemma IdentTokenShape(input: string, pos: nat)
    requires pos <= |input|
    requires Scan(input, pos).token.Ok? && Scan(input, pos).token.value.Ident?
    ensures var name := Scan(input, pos).token.value.name;
      |name| > 0 && forall i :: 0 <= i < |name| ==> IsIdentChar(name[i]) && !IsDigit(name[i])
  {
    var p := RunEnd(input, pos, Skippable);
    var e := RunEnd(input, p, IsIdentChar);
    var name := input[p..e];
    assert forall i :: 0 <= i < |name| ==> name[i] == input[p + i];
  }
}
