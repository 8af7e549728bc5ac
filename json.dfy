/** Values that travel from the database through the Flask server to the
    browser, and the two languages' views of them: Python's `isinstance`
    and truthiness on the server, JavaScript's truthiness, strict equality
    and string conversion in the browser. */
module Json {

  datatype Option<T> = None | Some(value: T)

  /** One scalar of a KPI record, a cursor row or a JSON body. */
  datatype Value =
    | Null                 // Python None, JSON null
    | Bool(b: bool)
    | Int(i: int)          // a Python int; JSON writes it without a fraction
    | Float(text: string)  // a Python float or a JavaScript number, carried by the text JavaScript shows for it
    | Str(s: string)
    | Opaque(text: string) // a Python value (decimal.Decimal, datetime) that jsonify writes as the JSON string `text`
    | Undefined            // JavaScript only: reading a property the object does not have

  /** A JSON object with scalar members (a Python dict, a JavaScript object). */
  type Record = map<string, Value>

  /** The two placeholder strings the server puts in place of a metric. */
  const NotAvailable: Value := Str("N/A")
  const ErrorMark: Value := Str("Error")

  /** Python's `isinstance(v, (int, float))`; `bool` is a subclass of `int`. */
  predicate IsNumber(v: Value) {
    v.Bool? || v.Int? || v.Float?
  }

  /** What JavaScript holds after the JSON round trip: jsonify writes an
      Opaque value as a string, and every other value arrives as it left.
      Integers are taken to be exact in JavaScript, which holds within
      plus or minus 2^53. */
  function Js(v: Value): (r: Value)
    ensures !r.Opaque?
    ensures r.Str? <==> v.Str? || v.Opaque?
    ensures v.Opaque? ==> r == Str(v.text)
    ensures !v.Opaque? ==> r == v
    ensures Truthy(r) <==> Truthy(v)
  {
    if v.Opaque? then Str(v.text) else v
  }

  /** JavaScript's `v === s` for a string literal `s`. */
  predicate JsEquals(v: Value, s: string) {
    Js(v) == Str(s)
  }

  /** JavaScript truthiness. A number is falsy exactly when it is 0, -0 or
      NaN, that is when JavaScript shows it as "0" or "NaN". */
  predicate Truthy(v: Value)
    ensures Truthy(v) ==> !v.Null? && !v.Undefined?
    ensures v.Str? || v.Opaque? ==> (Truthy(v) <==> Show(v) != "")
    ensures v.Int? ==> (Truthy(v) <==> Show(v) != "0")
  {
    match v
    case Null => false
    case Undefined => false
    case Bool(b) => b
    case Int(i) => i != 0
    case Float(t) => t != "0" && t != "NaN"
    case Str(s) => s != ""
    case Opaque(t) => t != ""
  }

  /** JavaScript's `String(v)`, which is what a template literal `${v}` inserts.
      An integer shows as its decimal digits, after a minus sign when negative. */
  function Show(v: Value): (s: string)
    ensures v.Str? ==> s == v.s
    ensures v.Opaque? || v.Float? ==> s == v.text
    ensures v.Int? && v.i >= 0 ==> IsDigits(s) && DigitsValue(s) == v.i
    ensures v.Int? && v.i < 0 ==> |s| > 1 && s[0] == '-' && IsDigits(s[1..]) && DigitsValue(s[1..]) == -v.i
  {
    match v
    case Null => "null"
    case Undefined => "undefined"
    case Bool(b) => if b then "true" else "false"
    case Int(i) => IntToString(i)
    case Float(t) => t
    case Str(s) => s
    case Opaque(t) => t
  }

  /** The text a DOM node shows after `node.textContent = v`: the setter
      takes null and undefined as the empty string. */
  function TextContent(v: Value): (s: string)
    ensures v.Null? || v.Undefined? ==> s == ""
    ensures !v.Null? && !v.Undefined? ==> s == Show(v)
  {
    if v.Null? || v.Undefined? then "" else Show(v)
  }

  /** JavaScript's `record[key]`. */
  function Field(r: Record, key: string): Value {
    if key in r then r[key] else Undefined
  }

  /** An optional string member read in a template literal. */
  function OptText(o: Option<string>): string {
    if o.Some? then o.value else "undefined"
  }

  function Digit(d: nat): (c: char)
    requires d < 10
    ensures '0' <= c <= '9' && c as int - '0' as int == d
  {
    ('0' as int + d) as char
  }

  function DigitValue(c: char): nat
    requires '0' <= c <= '9'
  {
    c as int - '0' as int
  }

  predicate IsDigits(s: string) {
    forall i :: 0 <= i < |s| ==> '0' <= s[i] <= '9'
  }

  /** Decimal digits of `n`, most significant first, without leading zeros. */
  function NatToString(n: nat): (s: string)
    ensures |s| > 0 && IsDigits(s)
    ensures |s| > 1 ==> s[0] != '0'
  {
    if n < 10 then [Digit(n)] else NatToString(n / 10) + [Digit(n % 10)]
  }

  /** Python's `str(i)` and JavaScript's `String(i)` for an integer: its
      decimal digits, after a minus sign when it is negative. */
  function IntToString(i: int): (s: string)
    ensures i >= 0 ==> IsDigits(s) && DigitsValue(s) == i
    ensures i < 0 ==> |s| > 1 && s[0] == '-' && IsDigits(s[1..]) && DigitsValue(s[1..]) == -i
  {
    var n := if i < 0 then -i else i;
    NatToStringRoundTrip(n);
    if i < 0 then
      assert ("-" + NatToString(n))[1..] == NatToString(n);
      "-" + NatToString(n)
    else NatToString(n)
  }

  /** The number a string of decimal digits denotes. */
  function DigitsValue(s: string): nat
    requires IsDigits(s)
  {
    if s == [] then 0 else DigitsValue(s[..|s| - 1]) * 10 + DigitValue(s[|s| - 1])
  }

  /** Reading back the digits gives the number: no two naturals print alike. */
  lemma {:induction false} NatToStringRoundTrip(n: nat)
    ensures DigitsValue(NatToString(n)) == n
  {
    var s := NatToString(n);
    if n >= 10 {
      NatToStringRoundTrip(n / 10);
      assert s[..|s| - 1] == NatToString(n / 10);
    }
  }
}

/** The JSON bodies the server's endpoints send and the browser reads. */
module Wire {
  import opened Json

  /** `memory_usage` of the KPI record. */
  datatype Memory = Memory(used: Value, total: Value)

  /** The body of /api/kpis: each metric is a value or a placeholder; `error`
      is None while nothing critical failed. */
  datatype Kpis = Kpis(cpuUsage: Value, memoryUsage: Memory, activeSessions: Value, error: Option<string>)

  /** The body of /api/execute-script; a member that is absent is None. */
  datatype Envelope = Envelope(
    success: Option<bool>,
    message: Option<string>,
    error: Option<string>,
    columns: Option<seq<string>>,
    rows: Option<seq<Record>>)

  /** The body of /api/sessions and /api/tables: an `{error}` object or an array of records. */
  datatype ListBody = ErrorBody(error: string) | Items(records: seq<Record>)

  /** One entry of the /api/health-check report. */
  datatype HealthEntry = HealthEntry(name: string, status: string, details: string)

  /** The body of /api/historical-kpis. */
  datatype Series = Series(labels: seq<string>, cpu: seq<Value>, memory: seq<Value>)

  /** An HTTP status and a body. */
  datatype Response<T> = Response(status: int, body: T)

  /** Whether an optional string member is truthy: present and not empty.
      Python's `not` and JavaScript's `if` agree on strings, so the server's
      `kpis.get('error')` and the browser's `data.error` read it alike. */
  predicate TruthyText(o: Option<string>) {
    o.Some? && o.value != ""
  }

  /** The envelope's shape: exactly one of the success payload (a message,
      or columns with rows) and the error is present, and `success` says which. */
  predicate WellFormed(e: Envelope) {
    && (e.columns.Some? <==> e.rows.Some?)
    && (e.error.Some? <==> e.success != Some(true))
    && (e.success == Some(true) ==> (e.message.Some? <==> e.rows.None?))
    && (e.success != Some(true) ==> e.message.None? && e.rows.None?)
  }
}
