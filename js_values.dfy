/** JavaScript values as the extension sees them once an attendance payload is
    decoded: truthiness, property lookup, Date time values and thrown errors. */
module JsValues {

  datatype Option<+T> = None | Some(value: T)

  /** A JSON-decoded value. Numbers are integers in this model. */
  datatype Value = Undefined | Null | Bool(b: bool) | Num(n: int) | Str(s: string) | Obj

  /** JavaScript truthiness: `undefined`, `null`, `false`, `0` and `""` are falsy. */
  predicate Truthy(v: Value)
  {
    match v
    case Undefined => false
    case Null => false
    case Bool(b) => b
    case Num(n) => n != 0
    case Str(s) => s != ""
    case Obj => true
  }

  /** A decoded attendance record: property name to value. */
  type Record = map<string, Value>

  /** `record[key]`: a missing property reads as `undefined`. */
  function Get(r: Record, key: string): (v: Value)
    ensures key !in r ==> v == Undefined
    ensures key in r ==> v == r[key]
  {
    if key in r then r[key] else Undefined
  }

  /** An exception escaping a JavaScript expression. */
  datatype JsError = TypeError | RangeError

  /** The outcome of JavaScript code that may throw. */
  datatype Result<+T> = Returned(value: T) | Threw(error: JsError)

  /** The truncating remainder `a % b` of JavaScript, for a positive divisor. */
  function JsRemainder(a: int, b: int): (r: int)
    requires b > 0
    ensures a >= 0 ==> r == a % b
    ensures a < 0 ==> -b < r <= 0 && (a - r) % b == 0
  {
    if a >= 0 then a % b
    else
      var r := -((-a) % b);
      var q := (-a) / b;
      assert a - r == (-q) * b;
      MultipleHasNoRemainder(-q, b);
      r
  }

  /** A non-zero multiple of `b` is at least `b` away from zero. */
  lemma MultipleIsFarFromZero(d: int, b: int)
    requires b > 0
    ensures d == 0 || d * b >= b || d * b <= -b
  {
    if d >= 1 {
      assert d * b == (d - 1) * b + b;
      assert (d - 1) * b >= 0;
    } else if d <= -1 {
      assert d * b == (d + 1) * b - b;
      assert (d + 1) * b <= 0;
    }
  }

  /** A multiple of `b` leaves no remainder. */
  lemma MultipleHasNoRemainder(k: int, b: int)
    requires b > 0
    ensures (k * b) % b == 0
  {
    var q := (k * b) / b;
    assert (k - q) * b == (k * b) % b;
    MultipleIsFarFromZero(k - q, b);
  }

  /** Milliseconds in a minute. */
  const MsPerMinute: int := 60 * 1000

  /** The largest magnitude of a valid Date time value (100,000,000 days). */
  const MaxTimeValue: int := 8_640_000_000_000_000

  /** The time value of a Date: milliseconds since the epoch, or NaN for an invalid Date. */
  datatype TimeValue = NaN | Time(ms: int)

  /** TimeClip: a time value outside the Date range becomes NaN. */
  function TimeClip(x: int): (t: TimeValue)
    ensures t.Time? <==> -MaxTimeValue <= x <= MaxTimeValue
    ensures t.Time? ==> t.ms == x
  {
    if -MaxTimeValue <= x <= MaxTimeValue then Time(x) else NaN
  }

  /** `new Date(t.getTime() + delta)`: NaN stays NaN, a valid value is shifted and clipped. */
  function Shift(t: TimeValue, delta: int): (r: TimeValue)
    ensures t.NaN? ==> r.NaN?
    ensures t.Time? ==> r == TimeClip(t.ms + delta)
  {
    match t
    case NaN => NaN
    case Time(ms) => TimeClip(ms + delta)
  }

  /** `new Date(v).getTime()`. String parsing is the host's date parser, passed in as
      `parseDate`; a number is a time value; a boolean or null converts to a number;
      `undefined` and objects give an invalid Date. */
  function ToDate(v: Value, parseDate: string -> TimeValue): (t: TimeValue)
    ensures t.Time? ==> -MaxTimeValue <= t.ms <= MaxTimeValue
    ensures v.Num? ==> t == TimeClip(v.n)
  {
    match v
    case Undefined => NaN
    case Null => TimeClip(0)
    case Bool(b) => TimeClip(if b then 1 else 0)
    case Num(n) => TimeClip(n)
    case Str(s) => Shift(parseDate(s), 0)
    case Obj => NaN
  }

  /** Clipping is idempotent: a value TimeClip accepted passes it unchanged. */
  lemma TimeClipIdempotent(x: int)
    ensures TimeClip(x).Time? ==> TimeClip(TimeClip(x).ms) == TimeClip(x)
  {
  }

  /** Shifting back undoes a shift that stayed inside the Date range. */
  lemma ShiftRoundTrip(t: TimeValue, delta: int)
    requires t.Time? && -MaxTimeValue <= t.ms <= MaxTimeValue
    requires Shift(t, delta).Time?
    ensures Shift(Shift(t, delta), -delta) == t
  {
  }

  /** A string whose parse lies in the Date range converts to exactly that
      time value; an unparsable one to an invalid Date. */
  lemma ToDateOfParsedString(s: string, parseDate: string -> TimeValue)
    requires parseDate(s).Time? ==> -MaxTimeValue <= parseDate(s).ms <= MaxTimeValue
    ensures ToDate(Str(s), parseDate) == parseDate(s)
  {
  }
}
