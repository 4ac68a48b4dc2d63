# abad core in Dafny

A model of three pieces of abad, an early ECMAScript 5 interpreter written in Go, with
proofs of what each promises:

- **the numeric-literal lexer** (`lexer/lex.go`). Each lexer state produces one token and
  the next state, over a sequence of UTF-16 code units. The initial state decides by the
  first code unit. The number state decides by the second (decimal, hexadecimal or Illegal).
  The decimal and hexadecimal states scan to the end of the input and emit one token whose
  lexeme is the whole input. The states are methods. `decimalState` and `hexadecimalState`
  keep their scanning loops. `Lex`'s drive loop becomes a method that collects the tokens
  into a sequence. It is proved equal to `Tokens`, a table of the stream for every shape of
  input, and the stream properties are lemmas about `Tokens`.
- **the Bool value type** (`types/bool.go`) and its coercions: ToBoolean, ToNumber and
  ToString (sections 9.2, 9.3 and 9.8 of ECMA-262 5.1), plus `IsTrue`, `IsFalse` and
  `Equal`. These are pure functions with lemmas about them.
- **the tree-walking evaluator** (`abad.go`). Class `Abad` holds the file name and the
  global object, a `map<Str, Value>` whose lookup gives `Undefined` for an absent name.
  - `evalExpr`, `evalUnaryExpr`, `evalIdentExpr`, `evalMemberExpr` and `evalCallExpr` are
    recursive dispatch with early error returns: they are functions reading the object.
  - `evalProgram` and `evalArgs` are loops: they are methods. Each is proved equal to a
    function (`ProgramOutcome`, `ArgValues`).
  - The pure dispatch calls those two functions, because a Dafny function cannot call a
    method.
  - `eval` is the function `EvalNode`. `Eval` parses and then runs `EvalProgram`.

An evaluation ends in one of three ways, written as the datatype `Outcome`:
- `Done`: a value.
- `Failed`: an error the original returns.
- `Unsupported`: a place where the original panics, or calls code this model does not
  contain.

`Outcome` works with `:-`, so "the first error aborts" is written the way the Go code
writes `if err != nil { return nil, err }`.

`parser.Parse` and `Function.Call` are function-typed parameters: `Parser` and `Invoke`.
The console builtin's constructor result is a parameter of `NewAbad` and `Setup`.

Files: `utf16.dfy` (code units and strings), `token.dfy` (token kinds), `wrappers.dfy`
(Option), `lexer.dfy` and `lexer_properties.dfy`, `types.dfy`, `bool_properties.dfy` and
`object_properties.dfy`,
`ast.dfy` (AST nodes), `abad.dfy` and `abad_properties.dfy`.

Where the repository's tests or ECMA-262 disagree with the code, the model
follows the code:
- The lexer looks at no more than the first two code units. So `0.1.2` is one Decimal
  token and `1e1` is Illegal (`LexerProperties.OnlyTwoUnitsAreInspected`).
  `0x123456G` and `0xI4K` are Hexadecimal.
- In a call, the arguments are evaluated only after the callee has been found to be a
  Function. Section 11.2.3 of ECMA-262 5.1 evaluates them first.
- The receiver of a call is the callee object itself.

## Model

| member | source | states |
|---|---|---|
| Lexer.Tokval.Equal | lexer/lex.go:15-17 | two tokens are Equal exactly when they are the same token (same kind and same lexeme) |
| Lexer.IsNumber | lexer/lex.go:127-130 | a code unit is a number exactly when it is one of the digits 0x30..0x39 |
| Lexer.IsDot | lexer/lex.go:136-139 | a code unit is a dot exactly when it is 0x2E |
| Lexer.IsHexStart | lexer/lex.go:141-144 | a hexadecimal start is exactly `x` (0x78) or `X` (0x58) |
| Lexer.IsEOF | lexer/lex.go:132-134 | a position within the code is at the end exactly when the rest of the code from it is empty, the rest the decimal and hexadecimal states hand to the initial state; a position past the code is at the end |
| Lexer.IllegalToken | lexer/lex.go:95-100 | an Illegal token whose lexeme is the whole input, and no next state, so that token is the whole remaining stream |
| Lexer.InitialState | lexer/lex.go:50-70 | the one token of this step, followed by all the tokens of the next state, is the input's whole stream; the next state is nil or the initial state on the empty rest |
| Lexer.NumberState | lexer/lex.go:72-93 | at the end, or before a digit or dot: a Decimal token for the whole input. Before `x`/`X`: Illegal when nothing follows it, else a Hexadecimal token for the whole input. Before anything else: Illegal for the whole input, with no next state |
| Lexer.HexadecimalState | lexer/lex.go:102-113 | the scan reaches the end: one Hexadecimal token for the whole input; lexing resumes on the empty rest |
| Lexer.DecimalState | lexer/lex.go:115-125 | the scan reaches the end: one Decimal token for the whole input; lexing resumes on the empty rest |
| Lexer.Lex | lexer/lex.go:29-46 | the drive loop ends, and the tokens it collects, in order, are exactly the reference stream `Tokens(code)` |
| LexerProperties.EmptyInputYieldsEOF | lexer/lex.go:55-57 | the empty input yields exactly `[EOF]` |
| LexerProperties.NonNumericStartYieldsEOF | lexer/lex.go:59-68 | input starting with neither a digit nor `.` yields only `EOF` |
| LexerProperties.DecimalStartYieldsDecimal | lexer/lex.go:59-83 | a leading `.`, a lone digit, or a digit followed by a digit or `.` yields one Decimal token for the whole input, then EOF |
| LexerProperties.HexStartYieldsHexadecimal | lexer/lex.go:85-90 | a digit, then `x`/`X`, then at least one more code unit, yields one Hexadecimal token for the whole input, then EOF |
| LexerProperties.EmptyHexBodyIsIllegal | lexer/lex.go:85-88 | `0x` and `0X` alone yield only an Illegal token carrying them |
| LexerProperties.BadSecondUnitIsIllegal | lexer/lex.go:92-100 | a digit followed by anything but a digit, `.`, `x` or `X` yields only an Illegal token for the whole input |
| LexerProperties.NumericTokenSpansInput | lexer/lex.go:102-125 | every Decimal or Hexadecimal token has the whole input as lexeme, comes first, and is followed by exactly one EOF that ends the stream |
| LexerProperties.IllegalIsLast | lexer/lex.go:95-100 | an Illegal token carries the whole input and is the last token; no EOF is produced |
| LexerProperties.StreamShape | lexer/lex.go:36-42 | the stream has one or two tokens, ends in EOF or Illegal, and has no EOF before its end |
| LexerProperties.FirstTokenClassifies | lexer/lex.go:50-93 | the first token's kind is Decimal, Hexadecimal, Illegal or EOF exactly when the input has the matching shape |
| LexerProperties.TokvalEqualIsEquivalence | lexer/lex.go:15-17 | token equality is reflexive, symmetric and transitive |
| LexerProperties.OnlyTwoUnitsAreInspected | lexer/lex.go:81-83 | `0.1.2` and `11e1` are one Decimal token; `1e1` is Illegal |
| Types.NewBool | types/bool.go:10-12 | no contract of its own; `NewBoolRoundTrip` states that it and IsTrue are inverse |
| Types.Bool.Kind | types/bool.go:14-16 | no contract of its own; `KindIsBool` states it |
| Types.Bool.IsTrue | types/bool.go:18-20 | no contract of its own; `NewBoolRoundTrip` and `IsFalseIntendedComplementsIsTrue` state it |
| Types.Bool.IsFalse | types/bool.go:22-24 | no contract of its own; `IsFalseAnswersLikeIsTrue` and `IsFalseDefectWitness` state it as written |
| Types.Bool.ToBool | types/bool.go:26-28 | no contract of its own; `ToBoolIsIdentity` states it |
| Types.Bool.ToNumber | types/bool.go:30-35 | no contract of its own; `ToNumberValues` states it |
| Types.Bool.ToString | types/bool.go:37-42 | no contract of its own; `ToStringValues` states it |
| Types.Bool.Equal | types/bool.go:44-46 | no contract of its own; `EqualIsSameTruthValue` states it |
| BoolProperties.KindIsBool | types/bool.go:14-16 | every Bool has kind KindBool |
| BoolProperties.NewBoolRoundTrip | types/bool.go:10-20 | `NewBool(b).IsTrue() == b`, and `NewBool(x.IsTrue()) == x` |
| BoolProperties.IsFalseAnswersLikeIsTrue | types/bool.go:22-24 | as written, IsFalse gives the same answer as IsTrue for both Bools |
| BoolProperties.IsFalseDefectWitness | types/bool.go:22-24 | IsFalse holds of true, where the intended predicate does not |
| Types.Bool.IsFalseIntended | types/bool.go:22-24 | the corrected IsFalse holds exactly when IsTrue does not |
| BoolProperties.IsFalseIntendedComplementsIsTrue | types/bool.go:22-24 | exactly one of IsTrue and the corrected IsFalse holds of each Bool |
| BoolProperties.ToBoolIsIdentity | types/bool.go:26-28 | ToBoolean of a Bool is that Bool |
| BoolProperties.ToNumberValues | types/bool.go:30-35 | true becomes 1 and false becomes +0, so ToNumber tells the two apart |
| BoolProperties.ToStringValues | types/bool.go:37-42 | true becomes "true" and false becomes "false", so ToString tells the two apart |
| BoolProperties.EqualIsSameTruthValue | types/bool.go:44-46 | Equal holds exactly when the truth values agree; it is reflexive, symmetric and transitive |
| Interpreter.Abad.Setup | abad.go:40-54 | the global object becomes a fresh object holding only `console`, or the console's error is returned and nothing changes (Put on the fresh object cannot fail here) |
| Interpreter.Abad.Init | abad.go:29-31 | the new interpreter has the given file name and no global bindings (Go's nil global object is the empty map), before setup |
| Interpreter.Abad.NewAbad | abad.go:28-38 | a fresh interpreter with the file name and a global object holding exactly `console`, or nil and the error of setup |
| Interpreter.Abad.Eval | abad.go:57-64 | a parse error is returned unchanged and nothing is evaluated; otherwise the result is the parsed program's outcome |
| Interpreter.Abad.EvalProgram | abad.go:84-97 | the loop computes the program's outcome: statements run in order, the last result is kept, and the first failure is returned; this equals `eval` on the Program |
| Interpreter.Abad.EvalArgs | abad.go:215-228 | the loop computes exactly `ArgValues`: the argument values, or the first failure |
| Interpreter.Abad.ArgValues | abad.go:215-228 | all arguments succeed exactly when each does. Then there is one value per argument node, in the same order. Otherwise the outcome is the failure of the first failing argument |
| Interpreter.Abad.EvalNode | abad.go:66-82 | no contract of its own; `EvalProgram` proves the loop equal to it on a Program, and `ProgramValueIsLastStatement`, `FirstStatementFailureAborts` and `ProgramSucceedsIffEveryStatementDoes` state its outcome on one |
| Interpreter.Abad.EvalExpr | abad.go:131-156 | no contract of its own; the lemmas below state its outcome for each expression kind: numbers, identifiers, unary, member and call expressions |
| Interpreter.Abad.EvalUnaryExpr | abad.go:99-129 | no contract of its own; `UnaryOperandFailurePropagates`, `UnaryNonNumberFails`, `UnaryOnNumber` and `SignChainValue` state its outcome |
| Interpreter.Abad.EvalMemberExpr | abad.go:172-188 | no contract of its own; `MemberOfObject` and `MemberTargetFailurePropagates` state its outcome |
| Interpreter.Abad.EvalCallExpr | abad.go:190-213 | no contract of its own; `CalleeFailurePropagates`, `NonFunctionCalleeFails`, `CallWithCalleeAsReceiver` and `ArgumentFailureAbortsCall` state its outcome |
| Interpreter.Abad.EvalIdentExpr | abad.go:158-170 | fails with "<name> is not defined" exactly when the global lookup gives Undefined, and otherwise returns the stored value |
| ObjectProperties.GetAfterPutSame | abad.go:46-47 | reading back the name just Put gives the value Put stored |
| ObjectProperties.GetAfterPutOther | abad.go:47 | Put of one name leaves every other name's value as it was |
| ObjectProperties.PutKeys | abad.go:47 | Put adds exactly its name to the object's properties |
| ObjectProperties.GetOfAbsentIsUndefined | abad.go:187 | Get of a name that is not a property is Undefined, and Get of a property is its stored value |
| InterpreterProperties.ProgramValueIsLastStatement | abad.go:84-97 | a program whose statements all succeed yields the value of its last statement (nil for the empty program) |
| InterpreterProperties.FirstStatementFailureAborts | abad.go:89-94 | the first failing statement's failure is the program's outcome, whatever statements follow it |
| InterpreterProperties.ProgramSucceedsIffEveryStatementDoes | abad.go:84-97 | a program succeeds exactly when every statement does |
| InterpreterProperties.NumberLiteralValue | abad.go:137-139 | a number literal evaluates to its Number and never fails |
| InterpreterProperties.IdentifierLookup | abad.go:158-170 | an unbound identifier, or one bound to Undefined, fails with NotDefined; a bound one is its stored value |
| InterpreterProperties.ConsoleIsBound | abad.go:46-52 | after setup, the identifier `console` evaluates to the console builtin |
| InterpreterProperties.UnaryOperandFailurePropagates | abad.go:99-104 | the operand's failure is the unary expression's failure |
| InterpreterProperties.UnaryNonNumberFails | abad.go:114-117 | an operand that is not a Number fails with "not a number", for every operator |
| InterpreterProperties.UnaryOnNumber | abad.go:119-128 | on a Number, `+` keeps it, `-` negates it, and any other operator is an unsupported-operator error |
| InterpreterProperties.SignChainValue | abad.go:99-129 | a chain of `+`/`-` over a Number negates it once per `-` |
| InterpreterProperties.MemberOfObject | abad.go:172-188 | a member of an Object is its stored property, or Undefined (not an error) when absent |
| InterpreterProperties.MemberTargetFailurePropagates | abad.go:172-176 | the failure of the object expression is the member access's failure |
| InterpreterProperties.NonFunctionCalleeFails | abad.go:202-205 | an Object callee without the Function capability fails with "object is not a function", whatever the arguments |
| InterpreterProperties.CalleeFailurePropagates | abad.go:192-195 | the failure of the callee is the call's failure |
| InterpreterProperties.CallWithCalleeAsReceiver | abad.go:207-212 | a Function callee is called with itself as receiver and with the argument values in argument order |
| InterpreterProperties.ArgumentFailureAbortsCall | abad.go:207-210 | the first failing argument is the call's outcome, and Call is not invoked |

## Left out

- Lex's goroutine and channel (lexer/lex.go:29-46) are concurrency. The drive loop is a method that collects the tokens into a sequence.
- Line and column positions, and the lexing of strings, identifiers, signs, punctuation, line terminators and exponents. lexer/lex.go implements none of these, although its tests expect them.
- Numbers are mathematical integers. IEEE-754 double precision, signed zero (ToNumber's +0, negation of 0) and NaN are not modelled. A number literal keeps no integer/real flavour.
- The types package is not part of this model, apart from types/bool.go. It holds `DataObject`, `Function`, `StrictEqual`, `ToObject` and `Kind`'s printed names.
  - Objects are values: a property map without attributes, plus a Function flag. `Put`'s `writable` argument is dropped.
  - `Get` on an object never fails here. The error branches after `global.Get` and `ToObject` on an object (abad.go:160-162, 182-185, 197-200) are not modelled.
  - `Put` on the fresh global object is total. So setup's second error return, where `global.Put` fails and the global object is left as it was (abad.go:47-50), is not modelled.
  - `ToObject` of a primitive callee is the `Unsupported` outcome `PrimitiveToObject`, because its behaviour is in that package.
- Before setup, Go's `global` field is a nil pointer. `Abad.Init` models it as the empty property map. Nothing can observe the difference, because NewAbad discards the interpreter when setup fails.
- Errors are structured values (`Interpreter.Error`) that carry what the message would print. The `fmt` formatting of messages is not modelled.
- The panics are the `Unsupported` outcome. They are: member access on a primitive (abad.go:178-180), `eval` of a node that is neither an expression nor a Program (abad.go:77-78), and `evalExpr` of a non-expression or of a String, Bool, Null or Undefined literal (abad.go:132-134, 154).
- `parser.Parse` is the `Parser` parameter. Only the parser's tests exist, so its grammar is not modelled.
- `Function.Call` is the `Invoke` parameter. `builtins.NewConsole` is the `console` argument of `NewAbad` and `Setup`.
- cmd/abad/main.go: the command line, the REPL, file reading and exit codes are I/O. `EvalFile`, which it calls, is not in abad.go.
- The UTF-16 string package (internal/utf16) is replaced by `seq<bv16>`. `Contains` on a one-code-unit string is membership.
- The lexer's `exponents` constant is declared, but no state reads it.

## Findings

| source | as written | input that shows it | evidently intended | confidence | as-written member | corrected member |
|---|---|---|---|---|---|---|
| types/bool.go:22-24 | `IsFalse` returns `bool(b)`, the same as `IsTrue` | `NewBool(true).IsFalse()` is true | `IsFalse` returns `!bool(b)` | high; not executed | BoolProperties.IsFalseDefectWitness | Types.Bool.IsFalseIntended |
