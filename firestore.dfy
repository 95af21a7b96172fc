/**
 * The shapes of the document database's values that the core reads:
 * timestamps, field values and query document snapshots.
 */
module Firestore {

  /** A server timestamp: seconds since the epoch plus a nanosecond part. */
  datatype Timestamp = Timestamp(seconds: int, nanoseconds: int)

  /** A field value of a stored document. */
  datatype Value =
    | Null
    | Bool(b: bool)
    | Number(n: real)
    | Str(s: string)
    | Stamp(ts: Timestamp)
    | Array(elements: seq<Value>)
    | Object(fields: map<string, Value>)

  /** The fields of a document, or a plain object built from them; a missing key reads as `undefined`. */
  type Fields = map<string, Value>

  /** A query document snapshot: the document's id and what its `data()` returns. */
  datatype DocSnapshot = DocSnapshot(id: string, data: Fields)

  /** JavaScript truthiness of a field value (`null`, `false`, `0` and `""` are falsy; objects are truthy). */
  predicate Truthy(v: Value)
  {
    match v
    case Null => false
    case Bool(b) => b
    case Number(n) => n != 0.0
    case Str(s) => s != ""
    case _ => true
  }
}
