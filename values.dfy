/**
 * The values the key-value facade stores and the arguments its callers pass,
 * with the two JavaScript run-time tests the facade branches on: truthiness
 * and `typeof`.
 */
module Values {

  /** A JSON-like payload. JavaScript numbers are modelled as unbounded integers. */
  datatype Value =
    | Str(s: string)
    | Num(n: int)
    | Bool(b: bool)
    | Null
    | Arr(elems: seq<Value>)
    | Obj(fields: map<string, Value>)

  /** An argument as a caller passes it: omitted (`undefined`) or a value. */
  datatype Arg = Undefined | Given(v: Value)

  /** Every failure is re-raised as one error kind carrying only its message. */
  datatype Result<T> = Ok(value: T) | Err(msg: string) {

    predicate IsFailure() {
      Err?
    }

    function PropagateFailure<U>(): Result<U>
      requires Err?
    {
      Err(msg)
    }

    function Extract(): T
      requires Ok?
    {
      value
    }
  }

  datatype Option<T> = None | Some(value: T)

  const KeyRequired := "key is required"
  const KeyNotString := "key must be a string"
  const ValueRequired := "Value is required"
  const ValueNotNumber := "Value must be a number"
  const ValueNotArray := "Value must be an array"
  const LimitNotNumber := "$limit must be a number"
  const SkipNotNumber := "$skip must be a number"

  /** JavaScript truthiness: `""`, `0`, `false` and `null` are falsy; every array and object is truthy. */
  predicate Truthy(v: Value) {
    match v
    case Str(s) => s != ""
    case Num(n) => n != 0
    case Bool(b) => b
    case Null => false
    case Arr(_) => true
    case Obj(_) => true
  }

  /** Truthiness of an argument; an omitted argument is `undefined`, which is falsy. */
  predicate ArgTruthy(a: Arg) {
    a.Given? && Truthy(a.v)
  }

  /** The JavaScript `typeof` name of a value; arrays and `null` are both "object". */
  function TypeName(v: Value): string {
    match v
    case Str(_) => "string"
    case Num(_) => "number"
    case Bool(_) => "boolean"
    case Null => "object"
    case Arr(_) => "object"
    case Obj(_) => "object"
  }
}
