/** JavaScript values as the relay's handlers receive them, and the request
    records that `JSON.parse` yields for the general namespaces. */
module Values {

  datatype Option<+T> = None | Some(value: T)

  /** A JavaScript value. Numbers are modelled as integers; `Fn` stands for a
      function value, which is what an acknowledgement callback is. */
  datatype Value =
    | Undefined
    | Null
    | Bool(b: bool)
    | Num(n: int)
    | Str(s: string)
    | Fn
    | Arr(items: seq<Value>)
    | Obj(fields: map<string, Value>)

  /** JavaScript truthiness: `!v` holds exactly when this is false. */
  predicate Truthy(v: Value) {
    match v
    case Undefined => false
    case Null => false
    case Bool(b) => b
    case Num(n) => n != 0
    case Str(s) => s != ""
    case _ => true
  }

  /** The loose comparison `v == null`, true for both null and undefined. */
  predicate IsNullish(v: Value) {
    v.Undefined? || v.Null?
  }

  /** A parsed JSON request `{room, name, message}`; a property the payload
      lacks reads as Undefined. A payload that fails to parse is `None`
      wherever a request is expected. */
  datatype Request = Request(room: Value, name: Value, message: Value)

  /** The value a handler sees in its `ack` parameter: the client's callback
      when it supplied one, otherwise undefined. */
  function AckValue(hasAck: bool): (v: Value)
    ensures v.Fn? <==> hasAck
    ensures !hasAck ==> v == Undefined
  {
    if hasAck then Fn else Undefined
  }
}
