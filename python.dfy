/**
 * The few Python runtime notions the handlers and the exception tracker rely on:
 * optional values, raised exceptions seen as values, handler outcomes, and the
 * plain data a handler hands to `jsonify`, with Python's truthiness.
 */
module Python {

  /** `Optional[...]`: absent (`None`) or present. */
  datatype Option<+T> = None | Some(value: T)

  /**
   * A raised exception as the tracker sees it: `typeName` is the class name
   * (`type(e).__name__`), `message` is `str(e)`.
   */
  datatype Exception = Exception(typeName: string, message: string)

  /** The result of calling a handler: it returned `value`, or it raised `error`. */
  datatype Outcome<+T> = Ok(value: T) | Err(error: Exception)

  /** Plain Python data as a handler passes it to `jsonify`. */
  datatype Value =
    | NoneValue
    | Bool(b: bool)
    | Int(i: int)
    | Str(s: string)
    | List(items: seq<Value>)
    | Dict(entries: map<string, Value>)

  /** Python truthiness (`if v:`): false exactly for the "empty" value of each kind. */
  predicate Truthy(v: Value)
    ensures Truthy(v) <==>
      v !in {NoneValue, Bool(false), Int(0), Str(""), List([]), Dict(map[])}
  {
    match v
    case NoneValue => false
    case Bool(b) => b
    case Int(i) => i != 0
    case Str(s) => s != ""
    case List(items) => items != []
    case Dict(entries) => entries != map[]
  }

  /**
   * What Python raises when a function body reads a name that is bound
   * nowhere: the handlers below read `error_type`, which no scope defines.
   */
  const UndefinedErrorType := Exception("NameError", "name 'error_type' is not defined")
}
