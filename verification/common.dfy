/** Small shared vocabulary: optional values, bytes and credential maps. */
module Common {

  /** Python's `None` or a present value. */
  datatype Option<+T> = None | Some(value: T) {

    /** `x or default` / `dict.get(k, default)` for an optional value. */
    function GetOr(default: T): T {
      match this
      case Some(v) => v
      case None => default
    }
  }

  /** One byte of file content. */
  type Byte = b: int | 0 <= b < 256

  type Bytes = seq<Byte>

  /** The untyped `Dict[str, Any]` credential mapping, with string values. */
  type Credentials = map<string, string>

  /** `d.get(k)` on a string-keyed dictionary. */
  function Lookup<V>(d: map<string, V>, k: string): (r: Option<V>)
    ensures r.Some? <==> k in d
    ensures r.Some? ==> r.value == d[k]
  {
    if k in d then Some(d[k]) else None
  }
}
