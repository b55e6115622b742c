/** Values shared by the queue engine and the RPC layer. */
module Values {

  datatype Option<T> = None | Some(value: T)

  /** A JSON-serialisable value: job payloads, handler results, RPC arguments and errors. */
  datatype Json =
    | JNull
    | JBool(b: bool)
    | JNum(n: int)
    | JStr(s: string)
    | JArr(items: seq<Json>)
    | JObj(fields: map<string, Json>)

  /** JavaScript truthiness of a value, as tested by `if (x)`. */
  predicate Truthy(j: Json) {
    match j
    case JNull => false
    case JBool(b) => b
    case JNum(n) => n != 0
    case JStr(s) => s != ""
    case JArr(_) => true
    case JObj(_) => true
  }

  /** Truthiness of a value that may be `undefined` (None). */
  predicate Present(o: Option<Json>) {
    o.Some? && Truthy(o.value)
  }

  /** Node's `setTimeout` runs a delay outside 1 .. 2^31-1 ms after 1 ms. */
  const TimeoutMax := 2147483647

  function TimerDelay(ms: int): (d: int)
    ensures 1 <= d <= TimeoutMax
    ensures 1 <= ms <= TimeoutMax ==> d == ms
  {
    if 1 <= ms <= TimeoutMax then ms else 1
  }
}
