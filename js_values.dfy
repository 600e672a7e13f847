/** JavaScript values as the handlers receive them in request bodies and JSON, and the
    conversions (`Number`, truthiness) the source applies to them. */
module JsValues {
  import opened Wrappers

  /** A JSON value. A property that is absent (`undefined`) is `None` of an `Option<Json>`. */
  datatype Json =
    | Null
    | Bool(b: bool)
    | Num(n: real)
    | Str(s: string)
    | Arr(items: seq<Json>)
    | Obj(fields: map<string, Json>)

  /** The number conversions of the JavaScript runtime, which the model takes as given.
      `None` stands for NaN. */
  datatype NumberOps = NumberOps(
    fromString: string -> Option<real>,  // Number(s)
    parseFloat: string -> Option<real>,  // parseFloat(s)
    parseInt: string -> Option<int>,     // parseInt(s)
    show: real -> string,                // n.toString()
    text: Json -> string)                // String(v)

  /** JavaScript truthiness of a property that may be absent. */
  predicate Truthy(v: Option<Json>) {
    match v
    case None => false
    case Some(Null) => false
    case Some(Bool(b)) => b
    case Some(Num(n)) => n != 0.0
    case Some(Str(s)) => s != ""
    case Some(_) => true
  }

  /** `Number(v)`. An array converts through its text: the empty array and an array of
      one `null` are 0, and an array of one element converts as that element; any other
      array, and an object, is NaN. */
  function ToNumber(v: Option<Json>, ops: NumberOps): Option<real> {
    match v
    case None => None
    case Some(j) => JsonToNumber(j, ops)
  }

  function JsonToNumber(j: Json, ops: NumberOps): Option<real> {
    match j
    case Null => Some(0.0)
    case Bool(b) => Some(if b then 1.0 else 0.0)
    case Num(n) => Some(n)
    case Str(s) => ops.fromString(s)
    case Arr(items) =>
      if |items| == 0 then Some(0.0)
      else if |items| == 1 && items[0].Null? then Some(0.0)
      else if |items| == 1 && (items[0].Num? || items[0].Str? || items[0].Arr?) then JsonToNumber(items[0], ops)
      else None
    case Obj(_) => None
  }

  /** `Number(v) || d`: the number, or `d` when it is 0 or NaN. */
  function NumberOr(v: Option<Json>, d: real, ops: NumberOps): (r: real)
    ensures ToNumber(v, ops).Some? && ToNumber(v, ops).value != 0.0 ==> r == ToNumber(v, ops).value
    ensures ToNumber(v, ops).None? || ToNumber(v, ops).value == 0.0 ==> r == d
  {
    match ToNumber(v, ops)
    case Some(n) => if n != 0.0 then n else d
    case None => d
  }

  /** The property `key` of `o`, or `None` when `o` is not an object or lacks it. */
  function Prop(o: Json, key: string): Option<Json> {
    if o.Obj? && key in o.fields then Some(o.fields[key]) else None
  }
}
