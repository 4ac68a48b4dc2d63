/** Properties of the token stream the numeric-literal lexer produces. */
module LexerProperties {
  import opened Utf16
  import opened Lexer
  import Token

  /** Lexing the empty input yields exactly EOF, and the stream ends. */
  lemma EmptyInputYieldsEOF()
    ensures Tokens([]) == [EOF]
  {
  }

  /** Input that starts with neither a digit nor `.` yields only EOF. */
  lemma NonNumericStartYieldsEOF(code: Str)
    requires |code| > 0 && !IsNumber(code[0]) && !IsDot(code[0])
    ensures Tokens(code) == [EOF]
  {
  }

  /** A leading `.`, a lone digit, or a digit followed by a digit or `.` yields one
      Decimal token for the whole input, then EOF. */
  lemma DecimalStartYieldsDecimal(code: Str)
    requires |code| > 0
    requires IsDot(code[0]) ||
             (IsNumber(code[0]) && (|code| == 1 || IsNumber(code[1]) || IsDot(code[1])))
    ensures Tokens(code) == [Tokval(Token.Decimal, code), EOF]
  {
  }

  /** A digit, then `x` or `X`, then at least one more code unit yields one
      Hexadecimal token for the whole input, then EOF. */
  lemma HexStartYieldsHexadecimal(code: Str)
    requires |code| > 2 && IsNumber(code[0]) && IsHexStart(code[1])
    ensures Tokens(code) == [Tokval(Token.Hexadecimal, code), EOF]
  {
  }

  /** `0x` and `0X` with nothing after them are Illegal, and nothing follows. */
  lemma EmptyHexBodyIsIllegal(code: Str)
    requires code == [0x30, 0x78] || code == [0x30, 0x58]
    ensures Tokens(code) == [Tokval(Token.Illegal, code)]
  {
  }

  /** A digit followed by a code unit that is not a digit, `.`, `x` or `X` yields
      one Illegal token for the whole input, and nothing follows. */
  lemma BadSecondUnitIsIllegal(code: Str)
    requires |code| > 1 && IsNumber(code[0])
    requires !IsNumber(code[1]) && !IsDot(code[1]) && !IsHexStart(code[1])
    ensures Tokens(code) == [Tokval(Token.Illegal, code)]
  {
  }

  /** Every Decimal or Hexadecimal token has the whole input as lexeme, is the first
      token, and is followed by exactly one EOF that ends the stream. */
  lemma NumericTokenSpansInput(code: Str, i: nat)
    requires i < |Tokens(code)|
    requires Tokens(code)[i].typ == Token.Decimal || Tokens(code)[i].typ == Token.Hexadecimal
    ensures Tokens(code)[i].value == code
    ensures i == 0 && |Tokens(code)| == 2 && Tokens(code)[1] == EOF
  {
  }

  /** An Illegal token carries the whole input and is the last token: no EOF follows. */
  lemma IllegalIsLast(code: Str, i: nat)
    requires i < |Tokens(code)| && Tokens(code)[i].typ == Token.Illegal
    ensures Tokens(code)[i].value == code
    ensures i == |Tokens(code)| - 1
    ensures EOF !in Tokens(code)
  {
  }

  /** The stream always ends, after one or two tokens; its last token is EOF or
      Illegal, and no EOF comes before the end. */
  lemma StreamShape(code: Str)
    ensures 1 <= |Tokens(code)| <= 2
    ensures Tokens(code)[|Tokens(code)| - 1] == EOF ||
            Tokens(code)[|Tokens(code)| - 1] == Tokval(Token.Illegal, code)
    ensures forall i :: 0 <= i < |Tokens(code)| - 1 ==> Tokens(code)[i] != EOF
  {
  }

  /** The first token's kind says exactly which shape of number the input has. */
  lemma FirstTokenClassifies(code: Str)
    ensures Tokens(code)[0].typ == Token.Decimal <==> DecimalShaped(code)
    ensures Tokens(code)[0].typ == Token.Hexadecimal <==> HexShaped(code)
    ensures Tokens(code)[0].typ == Token.Illegal <==> IllegalShaped(code)
    ensures Tokens(code)[0].typ == Token.EOF <==>
              !DecimalShaped(code) && !HexShaped(code) && !IllegalShaped(code)
  {
  }

  /** Token equality is reflexive, symmetric and transitive. */
  lemma TokvalEqualIsEquivalence(t: Tokval, u: Tokval, v: Tokval)
    ensures t.Equal(t)
    ensures t.Equal(u) <==> u.Equal(t)
    ensures t.Equal(u) && u.Equal(v) ==> t.Equal(v)
  {
  }

  /** The original only looks at the first two code units: `0.1.2` is one Decimal
      token and `1e1` is Illegal, although ECMAScript's grammar says the opposite. */
  lemma OnlyTwoUnitsAreInspected()
    ensures Tokens([0x30, 0x2E, 0x31, 0x2E, 0x32]) == [Tokval(Token.Decimal, [0x30, 0x2E, 0x31, 0x2E, 0x32]), EOF]
    ensures Tokens([0x31, 0x65, 0x31]) == [Tokval(Token.Illegal, [0x31, 0x65, 0x31])]
    ensures Tokens([0x31, 0x31, 0x65, 0x31]) == [Tokval(Token.Decimal, [0x31, 0x31, 0x65, 0x31]), EOF]
  {
  }
}
