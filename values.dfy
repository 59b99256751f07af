/** JavaScript values as the TypeScript sources see them: JSON-shaped data,
    truthiness, property reads, `String(x)` conversion and thrown errors. */
module Values {

  datatype Option<+T> = None | Some(value: T)

  datatype Result<+T, +E> = Ok(value: T) | Err(error: E)

  /** A JSON-shaped JavaScript value. `undefined` is represented by `None`
      wherever a property may be missing; numbers are integers. */
  datatype Json =
    | JNull
    | JBool(b: bool)
    | JNum(n: int)
    | JStr(s: string)
    | JArr(items: seq<Json>)
    | JObj(fields: map<string, Json>)

  /** JavaScript truthiness: `null`, `false`, `0` and `""` are falsy; arrays and objects are truthy. */
  predicate Truthy(j: Json) {
    match j
    case JNull => false
    case JBool(b) => b
    case JNum(n) => n != 0
    case JStr(s) => s != ""
    case JArr(_) => true
    case JObj(_) => true
  }

  /** `key in j` for an object. */
  predicate Has(j: Json, key: string) {
    j.JObj? && key in j.fields
  }

  /** The property read `j[key]`; `None` is `undefined`. Only objects carry the
      keys read by the core (`type`, `text`, `content`, `token`, ...). */
  function Field(j: Json, key: string): (r: Option<Json>)
    ensures r.Some? <==> Has(j, key)
  {
    if Has(j, key) then Some(j.fields[key]) else None
  }

  /** Something thrown: an `Error` instance with its `message`, or any other value. */
  datatype Thrown = JsError(message: string) | NonError

  /** Stand-in for the engine-generated message of a `TypeError`
      (reading a property of `null`/`undefined`, calling a missing method). */
  const TYPE_ERROR: string := "TypeError"

  /** `e instanceof Error ? e.message : fallback`. */
  function ErrorText(t: Thrown, fallback: string): string {
    match t
    case JsError(m) => m
    case NonError => fallback
  }

  function DigitChar(d: nat): char
    requires d < 10
  {
    "0123456789"[d]
  }

  /** Decimal spelling of a natural number, most significant digit first. */
  function NatToDecimal(n: nat): (r: string)
    ensures |r| > 0
    ensures forall i :: 0 <= i < |r| ==> '0' <= r[i] <= '9'
    decreases n
  {
    if n < 10 then [DigitChar(n)] else NatToDecimal(n / 10) + [DigitChar(n % 10)]
  }

  function IntToDecimal(n: int): string {
    if n < 0 then "-" + NatToDecimal(-n) else NatToDecimal(n)
  }

  /** `String(j)`, as a template literal `${j}` renders it. */
  function JsString(j: Json): string
    decreases j, 1
  {
    match j
    case JNull => "null"
    case JBool(b) => if b then "true" else "false"
    case JNum(n) => IntToDecimal(n)
    case JStr(s) => s
    case JArr(items) => JoinElements(items, j)
    case JObj(_) => "[object Object]"
  }

  /** `Array.prototype.join(",")`: `null` elements render as the empty string. */
  function JoinElements(items: seq<Json>, ghost parent: Json): string
    requires forall i :: 0 <= i < |items| ==> items[i] < parent
    decreases parent, 0, |items|
  {
    if items == [] then ""
    else
      var first := if items[0].JNull? then "" else JsString(items[0]);
      if |items| == 1 then first else first + "," + JoinElements(items[1..], parent)
  }
}
