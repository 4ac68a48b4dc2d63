/** The property map of an object, as the evaluator uses it: what Get reads back
    after Put, and which names Put adds. */
module ObjectProperties {
  import opened Utf16
  import opened Types

  /** Get of the name just Put returns the value Put stored. */
  lemma GetAfterPutSame(m: map<Str, Value>, name: Str, v: Value)
    ensures Get(Put(m, name, v), name) == v
  {
  }

  /** Put of one name leaves Get of every other name as it was. */
  lemma GetAfterPutOther(m: map<Str, Value>, name: Str, other: Str, v: Value)
    requires other != name
    ensures Get(Put(m, name, v), other) == Get(m, other)
  {
  }

  /** Put adds exactly its name to the properties. */
  lemma PutKeys(m: map<Str, Value>, name: Str, v: Value)
    ensures Put(m, name, v).Keys == m.Keys + {name}
  {
  }

  /** Get of a name that is not a property is Undefined, and Get of a property
      is its stored value. */
  lemma GetOfAbsentIsUndefined(m: map<Str, Value>, name: Str)
    ensures name !in m ==> Get(m, name) == Undefined
    ensures name in m ==> Get(m, name) == m[name]
  {
  }
}
