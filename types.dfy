/** The value kinds of the interpreter (package types): the Bool value type of
    types/bool.go with its coercions, and the other kinds as far as the evaluator
    uses them. */
module Types {
  import opened Utf16

  /** The kind tag every value reports. */
  datatype Kind = KindUndefined | KindNull | KindBool | KindNumber | KindString | KindObject

  /** Numbers are modelled as mathematical integers (see the README for what this leaves out). */
  type Number = int

  /** The ECMAScript Boolean value type. */
  datatype Bool = Bool(b: bool) {

    /** The kind of a Bool. */
    function Kind(): Kind {
      KindBool
    }

    /** The Go truth value held by the Bool. */
    predicate IsTrue() {
      b
    }

    /** Meant to tell whether the Bool is false; as written it returns the same
        truth value as IsTrue. */
    predicate IsFalse() {
      b
    }

    /** What IsFalse evidently means: the negation of the held truth value. */
    function IsFalseIntended(): (r: bool)
      ensures r <==> !IsTrue()
    {
      !b
    }

    /** ToBoolean (section 9.2 of ECMA-262 5.1) on a Boolean: the value itself. */
    function ToBool(): Bool {
      this
    }

    /** ToNumber (section 9.3 of ECMA-262 5.1) on a Boolean: 1 for true, +0 for false. */
    function ToNumber(): Number {
      if b then 1 else 0
    }

    /** ToString (section 9.8 of ECMA-262 5.1) on a Boolean: "true" or "false". */
    function ToString(): Str {
      if b then S("true") else S("false")
    }

    /** Two Bools are equal when they hold the same truth value. */
    predicate Equal(a: Bool) {
      b == a.b
    }
  }

  const True: Bool := Bool(true)
  const False: Bool := Bool(false)

  /** The Bool holding `b`. */
  function NewBool(b: bool): Bool {
    Bool(b)
  }

  /** A value of the interpreter. An Object carries its property map (property
      attributes are not modelled) and whether it has the Function capability. */
  datatype Value =
    | Undefined
    | Null
    | BoolValue(boolean: Bool)
    | NumberValue(number: Number)
    | StringValue(str: Str)
    | ObjectValue(obj: Object)
  {
    function Kind(): Kind {
      match this
      case Undefined => KindUndefined
      case Null => KindNull
      case BoolValue(x) => x.Kind()
      case NumberValue(_) => KindNumber
      case StringValue(_) => KindString
      case ObjectValue(_) => KindObject
    }
  }

  /** An object: a flat property map and the Function capability flag. */
  datatype Object = Object(properties: map<Str, Value>, callable: bool)

  /** Get on a property map: the stored value, or Undefined when the name is absent. */
  function Get(properties: map<Str, Value>, name: Str): Value
  {
    if name in properties then properties[name] else Undefined
  }

  /** Put on a property map: insert or overwrite the property `name`. */
  function Put(properties: map<Str, Value>, name: Str, value: Value): map<Str, Value>
  {
    properties[name := value]
  }
}
