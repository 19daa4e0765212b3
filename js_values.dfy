/**
  The JavaScript values the `sign` handler passes around: the entries of the
  argument record produced by the argument parser, the results of JSON.parse,
  and the entries of the options object handed to the signing library.
 */
module JsValues {

  /**
    A JavaScript value. `Undefined` is the value of a missing property. An
    object value lists its properties in their order, which JSON.parse keeps
    and the signing library serialises in.
   */
  datatype Value =
    | Undefined
    | Null
    | Bool(b: bool)
    | Number(x: real)
    | Str(s: string)
    | Array(items: seq<Value>)
    | Object(props: seq<(string, Value)>)

  datatype Option<+T> = None | Some(value: T)

  /** An object seen through its own properties: property name to value. */
  type Record = map<string, Value>

  /** Reading `record.key`: a key that is not an own property reads as undefined. */
  function Get(record: Record, key: string): Value
  {
    if key in record then record[key] else Undefined
  }
}
