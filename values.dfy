/** Python's dynamic values, as far as the configuration dictionaries and
    metadata records of snapshotplot use them, plus the Option and Result
    wrappers the rest of the model returns. */
module Values {

  datatype Option<+T> = None | Some(value: T)

  datatype Result<+T, +E> = Ok(value: T) | Err(error: E)

  /** A Python value as it appears in a configuration dict or a YAML
      mapping: None, bool, int, str, list or dict. Floats and dates are not
      distinguished from the other scalars the model needs. */
  datatype Value =
    | VNone
    | VBool(b: bool)
    | VInt(i: int)
    | VStr(s: string)
    | VList(items: seq<Value>)
    | VMap(m: map<string, Value>)

  /** A Python dict with string keys. Key order is not modelled. */
  type Dict = map<string, Value>

  /** Python truthiness: None, False, 0 and empty str/list/dict are falsy. */
  predicate Truthy(v: Value) {
    match v
    case VNone => false
    case VBool(b) => b
    case VInt(i) => i != 0
    case VStr(s) => s != ""
    case VList(items) => items != []
    case VMap(m) => m != map[]
  }

  /** `d.get(k, default)` */
  function Get(d: Dict, k: string, default: Value): (r: Value)
    ensures k in d ==> r == d[k]
    ensures k !in d ==> r == default
  {
    if k in d then d[k] else default
  }

  /** `a or b` on two Python values. */
  function Or(a: Value, b: Value): (r: Value)
    ensures Truthy(a) ==> r == a
    ensures !Truthy(a) ==> r == b
  {
    if Truthy(a) then a else b
  }

  /** An optional string argument as the Python value passed for it. */
  function OptStr(o: Option<string>): (r: Value)
    ensures o.None? <==> r == VNone
    ensures o.Some? ==> r == VStr(o.value)
  {
    match o
    case None => VNone
    case Some(s) => VStr(s)
  }

  function StrList(xs: seq<string>): (r: seq<Value>)
    ensures |r| == |xs|
    ensures forall i :: 0 <= i < |xs| ==> r[i] == VStr(xs[i])
  {
    if xs == [] then [] else [VStr(xs[0])] + StrList(xs[1..])
  }
}
