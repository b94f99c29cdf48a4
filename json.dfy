/**
 * Message bodies as the handlers see them after JSON decoding into a `map[string]any`.
 * JSON numbers are the broadcast values, kept as an opaque type `V`.
 */
module Json {

  datatype Option<T> = None | Some(value: T)

  /** A decoded JSON value. `Null` also stands for Go's `nil`, the result of looking up a missing key. */
  datatype Json<V> =
    | Null
    | Bool(b: bool)
    | Num(n: V)
    | Str(s: string)
    | Arr(items: seq<Json<V>>)
    | Obj(fields: map<string, Json<V>>)

  /** A message body: the top-level JSON object of a message. */
  type Body<V> = map<string, Json<V>>

  /** What an inbound message's body decodes to; `Undecodable` is a `json.Unmarshal` error. */
  datatype Incoming<V> = Decoded(body: Body<V>) | Undecodable

  /** Field lookup with Go map semantics: a missing key reads as `nil`. */
  function Field<V>(fields: map<string, Json<V>>, key: string): Json<V>
  {
    if key in fields then fields[key] else Null
  }

  /** The JSON array a Go `[]float64` slice of values is sent as. */
  function NumArray<V>(vs: seq<V>): Json<V>
  {
    Arr(seq(|vs|, i requires 0 <= i < |vs| => Num(vs[i])))
  }

  /** The JSON array a Go `[]string` slice is sent as. */
  function StrArray<V>(ss: seq<string>): Json<V>
  {
    Arr(seq(|ss|, i requires 0 <= i < |ss| => Str(ss[i])))
  }
}
