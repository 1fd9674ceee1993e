/** Values the backup script handles: decoded JSON documents, raw bytes, and the
    outcome of an operation that may raise a Python exception. */
module Values {

  datatype Option<+T> = None | Some(value: T)

  newtype byte = x: int | 0 <= x < 256

  /** A response body or a downloaded file (a Python 2 `str`). */
  type Bytes = seq<byte>

  /** A JSON document as `json.loads` returns it (floating-point numbers are left out). */
  datatype Json =
    | Null
    | Bool(b: bool)
    | Num(n: int)
    | Str(s: string)
    | Arr(items: seq<Json>)
    | Obj(fields: map<string, Json>)

  /** The `{}` that `graph_get` returns when it has nothing better. */
  const EmptyObject: Json := Obj(map[])

  /** Python's truth value of a decoded JSON value (`if x:` / `while x:`). */
  predicate Truthy(j: Json) {
    match j
    case Null => false
    case Bool(b) => b
    case Num(n) => n != 0
    case Str(s) => s != ""
    case Arr(items) => items != []
    case Obj(fields) => fields != map[]
  }

  /** The exceptions that can leave the connection's operations. */
  datatype Failure =
    | GraphError(code: Json, subcode: Json) // FbGenericException built from an error envelope
    | TypeFault                             // AttributeError / TypeError: a JSON value of the wrong kind
    | NameFault                             // NameError: a reference to an undefined name
    | TransportFault                        // an exception raised by the HTTP transport
    | IOFault                               // IOError: `open` on a path whose folder does not exist

  /** Either the value an operation returns or the exception it raises. */
  datatype Outcome<+T> = Ok(value: T) | Raise(failure: Failure)

  /** `j.get(path[0], {}).get(path[1], {}) ... .get(path[n-1])`: a missing key anywhere
      yields `None` (Null); calling `.get` on something that is not a dict raises. */
  function Lookup(j: Json, path: seq<string>): (r: Outcome<Json>)
    ensures path == [] ==> r == Ok(j)
    ensures path != [] && !j.Obj? ==> r == Raise(TypeFault)
    ensures path != [] && j.Obj? && path[0] !in j.fields ==> r == Ok(Null)
    ensures r.Raise? ==> r.failure == TypeFault
    decreases |path|
  {
    if path == [] then Ok(j)
    else match j
      case Obj(fields) =>
        if path[0] in fields then Lookup(fields[path[0]], path[1..]) else Ok(Null)
      case _ => Raise(TypeFault)
  }
}
