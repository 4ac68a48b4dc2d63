/** The numeric-literal lexer (lexer/lex.go): a state machine whose states each
    produce one token and the next state, over a sequence of UTF-16 code units. */
module Lexer {
  import opened Utf16
  import opened Wrappers
  import Token

  /** A token: its kind and its lexeme. */
  datatype Tokval = Tokval(typ: Token.Type, value: Str) {

    /** Two tokens are equal when kind and lexeme are equal. */
    function Equal(other: Tokval): (r: bool)
      ensures r <==> this == other
    {
      typ == other.typ && value == other.value
    }
  }

  /** The end-of-input token; its lexeme is empty. */
  const EOF: Tokval := Tokval(Token.EOF, [])

  /** A lexer state. The only state the lexer ever stores is the closure built by
      `initialState` over the code still to be lexed; `None` stands for Go's nil
      state, after which no more tokens are produced. */
  datatype LexerState = Initial(code: Str)

  /** "0123456789" */
  const Numbers: Str := [0x30, 0x31, 0x32, 0x33, 0x34, 0x35, 0x36, 0x37, 0x38, 0x39]
  /** "." */
  const DotUnit: Str := [0x2E]
  /** "eE" (declared by the lexer; no state reads it yet) */
  const Exponents: Str := [0x65, 0x45]
  /** "xX" */
  const HexStart: Str := [0x78, 0x58]

  /** A decimal digit. */
  function IsNumber(c: CodeUnit): (r: bool)
    ensures r <==> 0x30 <= c <= 0x39
  {
    c in Numbers
  }

  /** The code unit `.`. */
  function IsDot(c: CodeUnit): (r: bool)
    ensures r <==> c == 0x2E
  {
    [c] == DotUnit
  }

  /** `x` or `X`. */
  function IsHexStart(c: CodeUnit): (r: bool)
    ensures r <==> c == 0x78 || c == 0x58
  {
    c in HexStart
  }

  /** Position `position` is at or beyond the end of `code`: within the code, exactly
      when nothing remains to be scanned. */
  function IsEOF(code: Str, position: nat): (r: bool)
    ensures position <= |code| ==> (r <==> code[position..] == [])
    ensures position > |code| ==> r
  {
    position >= |code|
  }

  /** The outcome of a state that emits a token of kind `typ` whose lexeme is the
      whole input and resumes in the initial state on the (empty) rest. */
  predicate WholeInput(typ: Token.Type, code: Str, tok: Tokval, next: Option<LexerState>) {
    tok == Tokval(typ, code) && next == Some(Initial([]))
  }

  /** The outcome of `illegalToken`: an Illegal token for the whole input, and no next state. */
  predicate IllegalWhole(code: Str, tok: Tokval, next: Option<LexerState>) {
    tok == Tokval(Token.Illegal, code) && next == None
  }

  /** The Illegal token for the whole input; the stream ends after it. */
  function IllegalToken(code: Str): (r: (Tokval, Option<LexerState>))
    ensures IllegalWhole(code, r.0, r.1)
    ensures [r.0] + Pending(r.1) == [Tokval(Token.Illegal, code)]
  {
    (Tokval(Token.Illegal, code), None)
  }

  /** The closure built by `initialState(code)`, run: decide by the first code unit. */
  method InitialState(code: Str) returns (tok: Tokval, next: Option<LexerState>)
    ensures [tok] + Pending(next) == Tokens(code)
    ensures next == None || next == Some(Initial([]))
  {
    if |code| == 0 {
      return EOF, None;
    }
    if IsNumber(code[0]) {
      tok, next := NumberState(code, 1);
      return;
    }
    if IsDot(code[0]) {
      tok, next := DecimalState(code, 1);
      return;
    }
    return EOF, None;
  }

  /** After a leading digit: choose decimal, hexadecimal or Illegal by the code unit
      at `position`. */
  method NumberState(code: Str, position: nat) returns (tok: Tokval, next: Option<LexerState>)
    requires position <= |code|
    ensures IsEOF(code, position) ==> WholeInput(Token.Decimal, code, tok, next)
    ensures !IsEOF(code, position) && (IsNumber(code[position]) || IsDot(code[position])) ==>
              WholeInput(Token.Decimal, code, tok, next)
    ensures !IsEOF(code, position) && IsHexStart(code[position]) ==>
              if IsEOF(code, position + 1) then IllegalWhole(code, tok, next)
              else WholeInput(Token.Hexadecimal, code, tok, next)
    ensures (!IsEOF(code, position) && !IsNumber(code[position]) && !IsDot(code[position]) &&
             !IsHexStart(code[position])) ==> IllegalWhole(code, tok, next)
  {
    if IsEOF(code, position) {
      assert code[position..] == [];
      return Tokval(Token.Decimal, code), Some(Initial(code[position..]));
    }
    if IsNumber(code[position]) || IsDot(code[position]) {
      tok, next := DecimalState(code, position + 1);
      return;
    }
    if IsHexStart(code[position]) {
      if IsEOF(code, position + 1) {
        var r := IllegalToken(code);
        tok, next := r.0, r.1;
        return;
      }
      tok, next := HexadecimalState(code, position);
      return;
    }
    var r := IllegalToken(code);
    tok, next := r.0, r.1;
  }

  /** Scans to the end of the input and emits one Hexadecimal token for all of it. */
  method HexadecimalState(code: Str, position: nat) returns (tok: Tokval, next: Option<LexerState>)
    requires position <= |code|
    ensures WholeInput(Token.Hexadecimal, code, tok, next)
  {
    var pos := position;
    while !IsEOF(code, pos)
      invariant position <= pos <= |code|
      decreases |code| - pos
    {
      pos := pos + 1;
    }
    assert code[pos..] == [];
    return Tokval(Token.Hexadecimal, code), Some(Initial(code[pos..]));
  }

  /** Scans to the end of the input and emits one Decimal token for all of it. */
  method DecimalState(code: Str, position: nat) returns (tok: Tokval, next: Option<LexerState>)
    requires position <= |code|
    ensures WholeInput(Token.Decimal, code, tok, next)
  {
    var pos := position;
    while !IsEOF(code, pos)
      invariant position <= pos <= |code|
      decreases |code| - pos
    {
      pos := pos + 1;
    }
    assert code[pos..] == [];
    return Tokval(Token.Decimal, code), Some(Initial(code[pos..]));
  }

  // ---------------------------------------------------------------------------
  // The token stream

  /** The input starts a decimal literal the lexer accepts: a leading dot, a lone
      digit, or a digit followed by a digit or a dot (the rest is not inspected). */
  predicate DecimalShaped(code: Str) {
    |code| > 0 &&
    (IsDot(code[0]) ||
     (IsNumber(code[0]) && (|code| == 1 || IsNumber(code[1]) || IsDot(code[1]))))
  }

  /** A digit, then `x` or `X`, then at least one more code unit. */
  predicate HexShaped(code: Str) {
    |code| > 2 && IsNumber(code[0]) && IsHexStart(code[1])
  }

  /** A digit followed by a code unit that is neither a digit, a dot nor the start of
      a hexadecimal body with something after it. */
  predicate IllegalShaped(code: Str) {
    |code| > 1 && IsNumber(code[0]) && !IsNumber(code[1]) && !IsDot(code[1]) &&
    (IsHexStart(code[1]) ==> |code| == 2)
  }

  /** The whole token stream the lexer produces for `code`, as a reference table. */
  function Tokens(code: Str): seq<Tokval> {
    if DecimalShaped(code) then [Tokval(Token.Decimal, code), EOF]
    else if HexShaped(code) then [Tokval(Token.Hexadecimal, code), EOF]
    else if IllegalShaped(code) then [Tokval(Token.Illegal, code)]
    else [EOF]
  }

  /** The tokens still to come from a state (none after the nil state). */
  function Pending(s: Option<LexerState>): seq<Tokval> {
    match s
    case None => []
    case Some(Initial(c)) => Tokens(c)
  }

  /** A bound that every step of the lexer decreases. */
  function Remaining(s: Option<LexerState>): nat {
    match s
    case None => 0
    case Some(Initial(c)) => |c| + 1
  }

  /** Lex's drive loop: run states until the nil state, collecting every token
      produced (the tokens the original sends on its channel, in order). */
  method Lex(code: Str) returns (tokens: seq<Tokval>)
    ensures tokens == Tokens(code)
  {
    tokens := [];
    var current := Some(Initial(code));
    while current.Some?
      invariant tokens + Pending(current) == Tokens(code)
      decreases Remaining(current)
    {
      var tok, next := InitialState(current.value.code);
      tokens := tokens + [tok];
      current := next;
    }
  }
}
