/**
 * JavaScript values as they cross the callable boundary and as they are stored in
 * a document, with the two coercions the endpoint applies to them: truthiness
 * and `Number(...)`.
 */
module Json {
  import opened Wrappers

  datatype Value =
    | Null
    | Bool(b: bool)
    | Num(n: real)
    | Str(s: string)
    | Arr(items: seq<Value>)
    | Obj(fields: map<string, Value>)
      /** `new Date(source)`: the date is kept opaque, as the value it was built from. */
    | DateOf(source: Value)
      /** The store's placeholder for "the server's time at write". */
    | ServerTimestamp

  /** A plain object: a key that is absent reads as `undefined`. */
  type Object = map<string, Value>

  /** `obj[key]`, with `None` for `undefined`. */
  function Get(obj: Object, key: string): (r: Option<Value>)
    ensures r.Some? <==> key in obj
    ensures r.Some? ==> r.value == obj[key]
  {
    if key in obj then Some(obj[key]) else None
  }

  /** Truthiness of a possibly undefined value (NaN is not represented). */
  predicate Truthy(v: Option<Value>)
  {
    match v
    case None => false
    case Some(Null) => false
    case Some(Bool(b)) => b
    case Some(Num(n)) => n != 0.0
    case Some(Str(s)) => s != ""
    case Some(_) => true
  }

  /** Strings as JavaScript values. */
  function Strings(ss: seq<string>): (r: seq<Value>)
    ensures |r| == |ss|
    ensures forall i :: 0 <= i < |ss| ==> r[i] == Str(ss[i])
  {
    seq(|ss|, i requires 0 <= i < |ss| => Str(ss[i]))
  }

  /**
   * `Number(v)`, with `None` for NaN. The numeric reading of a string is the
   * parameter `parseNumber`; an array goes through its string form, so `[]` is 0,
   * a one-element array is its element's number and a longer one is NaN.
   */
  function ToNumber(v: Option<Value>, parseNumber: string -> Option<real>): Option<real>
  {
    match v
    case None => None
    case Some(x) => ValueToNumber(x, parseNumber)
  }

  function ValueToNumber(v: Value, parseNumber: string -> Option<real>): Option<real>
  {
    match v
    case Null => Some(0.0)
    case Bool(b) => Some(if b then 1.0 else 0.0)
    case Num(n) => Some(n)
    case Str(s) => parseNumber(s)
    case Arr(items) =>
      if |items| == 0 then Some(0.0)
      else if |items| == 1 then
        (match items[0]
         case Null => Some(0.0)
         case Num(n) => Some(n)
         case Str(s) => parseNumber(s)
         case Arr(_) => ValueToNumber(items[0], parseNumber)
         case _ => None)
      else None
    case _ => None
  }
}
