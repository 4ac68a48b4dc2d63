/** Properties of the Bool value type and its coercions (types/bool.go). */
module BoolProperties {
  import opened Utf16
  import opened Types

  /** Every Bool reports the kind KindBool. */
  lemma KindIsBool(x: Bool)
    ensures x.Kind() == KindBool
  {
  }

  /** NewBool and IsTrue are inverse: the Go truth value survives the round trip,
      and so does the Bool. */
  lemma NewBoolRoundTrip(b: bool, x: Bool)
    ensures NewBool(b).IsTrue() == b
    ensures NewBool(x.IsTrue()) == x
  {
  }

  /** As written, IsFalse answers exactly like IsTrue, for both Bools. */
  lemma IsFalseAnswersLikeIsTrue(x: Bool)
    ensures x.IsFalse() == x.IsTrue()
    ensures True.IsFalse() && !False.IsFalse()
  {
  }

  /** The input that shows the defect: IsFalse holds of true, where its evident
      meaning (IsFalseIntended) does not. */
  lemma IsFalseDefectWitness()
    ensures NewBool(true).IsFalse() != NewBool(true).IsFalseIntended()
  {
  }

  /** The evident meaning: exactly one of IsTrue and IsFalseIntended holds. */
  lemma IsFalseIntendedComplementsIsTrue(x: Bool)
    ensures x.IsTrue() != x.IsFalseIntended()
    ensures False.IsFalseIntended() && !True.IsFalseIntended()
  {
  }

  /** ToBoolean of a Bool is the Bool itself, and keeps its truth value. */
  lemma ToBoolIsIdentity(x: Bool)
    ensures x.ToBool() == x
    ensures x.ToBool().IsTrue() == x.IsTrue()
  {
  }

  /** ToNumber maps true to 1 and false to +0, so it tells the two Bools apart. */
  lemma ToNumberValues(x: Bool, y: Bool)
    ensures x.IsTrue() ==> x.ToNumber() == 1
    ensures !x.IsTrue() ==> x.ToNumber() == 0
    ensures x.ToNumber() == y.ToNumber() <==> x.Equal(y)
  {
  }

  /** ToString maps true to "true" and false to "false", so it tells the two Bools apart. */
  lemma ToStringValues(x: Bool, y: Bool)
    ensures x.ToString() == (if x.IsTrue() then S("true") else S("false"))
    ensures |True.ToString()| == 4 && |False.ToString()| == 5
    ensures x.ToString() == y.ToString() <==> x.Equal(y)
  {
  }

  /** Equal holds exactly of Bools with the same truth value; it is reflexive,
      symmetric and transitive, and coincides with equality of Bool values. */
  lemma EqualIsSameTruthValue(x: Bool, y: Bool, z: Bool)
    ensures x.Equal(y) <==> x.IsTrue() == y.IsTrue()
    ensures x.Equal(y) <==> x == y
    ensures x.Equal(x)
    ensures x.Equal(y) ==> y.Equal(x)
    ensures x.Equal(y) && y.Equal(z) ==> x.Equal(z)
  {
  }
}
