/** Strings as sequences of UTF-16 code units, the representation the interpreter
    uses for source text, lexemes, identifiers and property names. */
module Utf16 {

  /** A UTF-16 code unit. */
  type CodeUnit = bv16

  /** A UTF-16 string: a sequence of code units, compared element by element. */
  type Str = seq<CodeUnit>

  /** True when every character of `s` fits in one UTF-16 code unit. */
  ghost predicate InBasicPlane(s: string) {
    forall i :: 0 <= i < |s| ==> s[i] as int < 0x1_0000
  }

  /** The UTF-16 encoding of a string made of Basic Multilingual Plane characters,
      one code unit per character (used for the literals of the source). */
  function S(s: string): Str
    requires InBasicPlane(s)
  {
    seq(|s|, i requires 0 <= i < |s| => (s[i] as int) as CodeUnit)
  }
}
