/** JavaScript values as the task manager's client code sees them, and the
    few language conversions the core relies on: truthiness, `new Date(v)`,
    `String(v)`, property access, and the outcome of an awaited request. */
module Js {

  datatype Option<+T> = None | Some(value: T)

  /** A JSON-like JavaScript value. `DateText(ms)` is a string that the `Date`
      constructor parses to the instant `ms` (milliseconds since the epoch):
      an ISO-8601 timestamp as `toISOString()` writes it, or a date-input
      value. `Str(s)` is any other string. Arrays are not modelled. */
  datatype Value =
    | Undefined
    | Null
    | Bool(b: bool)
    | Num(n: int)
    | Str(s: string)
    | DateText(ms: int)
    | Obj(fields: map<string, Value>)

  /** A plain object: its own enumerable properties. `{...a, ...b}` is `a + b`. */
  type Record = map<string, Value>

  /** `r.key`: a missing property reads as `undefined`. */
  function Get(r: Record, key: string): Value {
    if key in r then r[key] else Undefined
  }

  /** `v?.key`: `undefined` for anything that is not an object with that property. */
  function Member(v: Value, key: string): Value {
    match v
    case Obj(m) => Get(m, key)
    case _ => Undefined
  }

  /** `!!v` */
  predicate Truthy(v: Value) {
    match v
    case Undefined => false
    case Null => false
    case Bool(b) => b
    case Num(n) => n != 0
    case Str(s) => s != ""
    case DateText(_) => true
    case Obj(_) => true
  }

  /** The largest magnitude of a time value (ECMAScript, section 21.4.1.31 TimeClip). */
  const MaxTime: int := 8_640_000_000_000_000

  /** The time value of `new Date(v)`; `None` is an Invalid Date (NaN).
      `new Date(null)` is the epoch and `new Date(true)` one millisecond after it. */
  function ToTime(v: Value): Option<int> {
    match v
    case Undefined => None
    case Null => Some(0)
    case Bool(b) => Some(if b then 1 else 0)
    case Num(n) => if -MaxTime <= n <= MaxTime then Some(n) else None
    case Str(_) => None
    case DateText(ms) => Some(ms)
    case Obj(_) => None
  }

  /** The decimal digits of a natural number, most significant first. */
  function NatDigits(n: nat): string
    decreases n
  {
    if n < 10 then ["0123456789"[n]] else NatDigits(n / 10) + ["0123456789"[n % 10]]
  }

  /** `n.toString()` for an integer (below 10^21, where JavaScript switches to exponent form). */
  function Decimal(n: int): (s: string)
    ensures |s| > 0
  {
    if n < 0 then "-" + NatDigits(-n) else NatDigits(n)
  }

  /** `String(v)`, kept as a string value. */
  function StringOf(v: Value): Value {
    match v
    case Undefined => Str("undefined")
    case Null => Str("null")
    case Bool(b) => Str(if b then "true" else "false")
    case Num(n) => Str(Decimal(n))
    case Str(_) => v
    case DateText(_) => v
    case Obj(_) => Str("[object Object]")
  }

  /** How an awaited `fetch` ends, as the calling action sees it:
      `Answered(body)` is an ok response whose JSON body parsed to `body`;
      `NotOk` is a response whose status is outside 200-299; `Failed(m)` is a
      rejected promise (network error, unparsable body) with message `m`. */
  datatype Reply<T> = Answered(body: T) | NotOk | Failed(message: string)

  /** The `error.message` an action's catch block records for a reply that is
      not answered, where `thrown` is the message the action itself throws on
      a non-ok status. */
  function FailureMessage<T>(reply: Reply<T>, thrown: string): string {
    match reply
    case Failed(m) => m
    case _ => thrown
  }

  /** The settled result of a call that may throw: it returned a boolean or raised. */
  datatype Outcome = Returned(ok: bool) | Raised(message: string)
}
