/** Values that callers pass as keys, fields and values: Go strings and byte slices, both sequences of bytes. */
module Values {

  newtype byte = x: int | 0 <= x < 256

  datatype Value = String(text: seq<byte>) | Bytes(data: seq<byte>)

  /** `asBytes` of either kind of value: the same bytes, uninterpreted. */
  function AsBytes(v: Value): seq<byte> {
    match v
    case String(s) => s
    case Bytes(d) => d
  }

  /** A byte slice cannot be a Go map key: storing under it panics. */
  predicate Hashable(v: Value) {
    v.String?
  }
}
