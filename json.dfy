/** The values the store holds: JSON values with integer numbers, plus the
    `undefined` that JavaScript gives for a missing property. */
module Json {

  datatype Value =
    | Undefined
    | Null
    | Bool(b: bool)
    | Num(n: int)
    | Str(s: string)
    | Arr(items: seq<Value>)
    | Obj(fields: map<string, Value>)

  /** `obj[key]` on an object's own properties: `undefined` when absent. */
  function Get(fields: map<string, Value>, key: string): (v: Value)
    ensures key !in fields ==> v == Undefined
    ensures key in fields ==> v == fields[key]
  {
    if key in fields then fields[key] else Undefined
  }

  /** `typeof v === 'object'`: objects, arrays and `null`. */
  predicate IsObjectTyped(v: Value) {
    v.Obj? || v.Arr? || v.Null?
  }

  /** A mutable JavaScript object whose properties are updated in place. */
  class Container {
    var fields: map<string, Value>

    constructor (fields: map<string, Value>)
      ensures this.fields == fields
    {
      this.fields := fields;
    }
  }
}
