/**
 * The boundary with Go's encoding/json package.  A frame is a sequence of bytes;
 * a parsed JSON document is an abstract value whose objects are key -> value maps
 * (the last occurrence of a duplicated key wins, as when Go decodes into a map).
 * Decoding bytes into a Go value is not modelled here: the decoders are given as
 * function parameters.
 */
module Json {
  import opened Wrappers

  newtype byte = b: int | 0 <= b < 256

  type Bytes = seq<byte>

  datatype Json =
    | Null
    | Bool(b: bool)
    | Number(literal: string)
    | String(s: string)
    | Array(items: seq<Json>)
    | Object(members: map<string, Json>)

  /** What a call of json.Unmarshal (or an UnmarshalJSON method) can report. */
  datatype DecodeError =
    | Syntax(message: string)                // *json.SyntaxError
    | TypeMismatch(value: string, target: string)  // *json.UnmarshalTypeError
    | UnknownType(tag: string)              // "unknown type: %s" from AisMultiple

  /** json.Unmarshal(frame, &res) for a result of type T. */
  type Decoder<T> = Bytes -> Result<T, DecodeError>
}
