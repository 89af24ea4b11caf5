/** Values shared by the report store service and the conversation relay:
    the failure-carrying wrappers and the JSON documents exchanged over HTTP. */
module Common {

  datatype Option<+T> = None | Some(value: T)

  /** An operation that either produces a value or fails with an error. */
  datatype Result<+T, +E> = Success(value: T) | Failure(error: E)

  /** A JSON value as a request body may carry it. Numbers are kept as reals:
      the model does not follow floating-point rounding. */
  datatype Value =
    | Null
    | Bool(b: bool)
    | Num(n: real)
    | Str(s: string)
    | Arr(items: seq<Value>)
    | Obj(fields: map<string, Value>)

  /** A report body: a JSON object, keyed by field name. */
  type Payload = map<string, Value>

  /** The six fields every report must carry, in the order the store checks them. */
  const Required: seq<string> := ["category", "lat", "lon", "user", "timestamp", "action"]
}
