/**
 * The Python values the lab devices and drivers pass around: decoded JSON
 * (command parameters, replies, WebSocket messages) and container metadata,
 * together with the few built-in operations they use on them.
 */
module PyValues {

  /**
   * A decoded JSON value or a metadata entry. Python's int and float are
   * both `Num` (an exact real), and `None` is `Null`.
   */
  datatype Value =
    | Null
    | Bool(b: bool)
    | Num(r: real)
    | Str(s: string)
    | List(items: seq<Value>)
    | Obj(fields: map<string, Value>)

  /** The exceptions the modelled code raises or catches. */
  datatype Exception =
    | NotConnected                                // ConnectionError: the client's socket is not open
    | NoData(command: string)                     // ConnectionError: the server closed without a reply line
    | ServerError(command: string, error: Value)  // RuntimeError: the reply is a dict with an "error" key
    | InvalidJson(command: string)                // ValueError: the reply line is not JSON
    | KeyError(key: string)                       // a missing dict key
    | TypeError                                   // an operation applied to a value of the wrong type
    | ZeroDivisionError
    | Raised(message: string)                     // any other exception, with its str()

  /** A Python call: it returns a value or raises. */
  datatype Outcome<T> = Ok(value: T) | Fail(error: Exception)

  /** Python truthiness (`if result:`). */
  predicate Truthy(v: Value) {
    match v
    case Null => false
    case Bool(b) => b
    case Num(r) => r != 0.0
    case Str(s) => |s| > 0
    case List(items) => |items| > 0
    case Obj(fields) => |fields| > 0
  }

  /** The values `+` accepts as numbers: numbers and booleans (True is 1). */
  predicate IsNumber(v: Value) {
    v.Num? || v.Bool?
  }

  function NumberOf(v: Value): real
    requires IsNumber(v)
  {
    if v.Num? then v.r else if v.b then 1.0 else 0.0
  }

  /**
   * `v + x` for a number `x`: a number or a boolean yields the sum, any other
   * value raises TypeError.
   */
  function Add(v: Value, x: real): (r: Outcome<Value>)
    ensures r.Ok? <==> IsNumber(v)
    ensures r.Fail? ==> r.error == TypeError
    ensures r.Ok? ==> r.value.Num? && r.value.r - x == NumberOf(v)
  {
    if IsNumber(v) then Ok(Num(NumberOf(v) + x)) else Fail(TypeError)
  }

  /** `d.get(k, default)`. */
  function Get(d: map<string, Value>, key: string, default: Value): Value {
    if key in d then d[key] else default
  }

  /**
   * `v[key]`: a dict yields the entry or raises KeyError, anything else
   * raises TypeError (lists and strings only take integer indices).
   */
  function Index(v: Value, key: string): (r: Outcome<Value>)
    ensures r.Ok? <==> v.Obj? && key in v.fields
    ensures r.Ok? ==> r.value == v.fields[key]
    ensures r.Fail? ==> r.error == (if v.Obj? then KeyError(key) else TypeError)
  {
    if !v.Obj? then Fail(TypeError)
    else if key in v.fields then Ok(v.fields[key])
    else Fail(KeyError(key))
  }

  // ---------------------------------------------------------------------
  // str(n) for a natural number
  // ---------------------------------------------------------------------

  function Digit(d: nat): char
    requires d < 10
  {
    "0123456789"[d]
  }

  predicate IsDigit(c: char) {
    '0' <= c <= '9'
  }

  function DigitValue(c: char): nat
    requires IsDigit(c)
  {
    (c as int - '0' as int) as nat
  }

  /** `str(n)`: the decimal digits of `n`, most significant first, without leading zeros. */
  function NatToString(n: nat): (s: string)
    ensures |s| >= 1
    ensures forall i | 0 <= i < |s| :: IsDigit(s[i])
    ensures s[0] == '0' ==> n == 0
    ensures n >= 10 ==> |s| >= 2
  {
    if n < 10 then [Digit(n)] else NatToString(n / 10) + [Digit(n % 10)]
  }

  /** The number a string of decimal digits denotes. */
  function DecimalValue(s: string): nat
    requires forall i | 0 <= i < |s| :: IsDigit(s[i])
  {
    if |s| == 0 then 0 else 10 * DecimalValue(s[..|s| - 1]) + DigitValue(s[|s| - 1])
  }

  /** Reading back `str(n)` gives `n`. */
  lemma {:induction false} DecimalRoundTrip(n: nat)
    ensures DecimalValue(NatToString(n)) == n
  {
    var s := NatToString(n);
    if n < 10 {
      assert s[..0] == [];
    } else {
      DecimalRoundTrip(n / 10);
      assert s[..|s| - 1] == NatToString(n / 10);
    }
  }

  /** Different numbers have different decimal strings. */
  lemma NatToStringInjective(a: nat, b: nat)
    requires NatToString(a) == NatToString(b)
    ensures a == b
  {
    DecimalRoundTrip(a);
    DecimalRoundTrip(b);
  }

  // ---------------------------------------------------------------------
  // str.capitalize on ASCII letters
  // ---------------------------------------------------------------------

  function Upper(c: char): char {
    if 'a' <= c <= 'z' then (c as int - 32) as char else c
  }

  function Lower(c: char): char {
    if 'A' <= c <= 'Z' then (c as int + 32) as char else c
  }

  function LowerAll(s: string): (r: string)
    ensures |r| == |s|
    ensures forall i | 0 <= i < |s| :: r[i] == Lower(s[i])
  {
    if |s| == 0 then [] else [Lower(s[0])] + LowerAll(s[1..])
  }

  /** `s.capitalize()`: the first character in upper case and the rest in lower case. */
  function Capitalize(s: string): (r: string)
    ensures |r| == |s|
  {
    if |s| == 0 then [] else [Upper(s[0])] + LowerAll(s[1..])
  }

  lemma LowerIdempotent(c: char)
    ensures Lower(Lower(c)) == Lower(c)
  { }

  /** Capitalising twice is capitalising once. */
  lemma {:induction false} CapitalizeIdempotent(s: string)
    ensures Capitalize(Capitalize(s)) == Capitalize(s)
  {
    if |s| > 0 {
      var t := LowerAll(s[1..]);
      assert Capitalize(s)[1..] == t;
      forall i | 0 <= i < |t|
        ensures Lower(t[i]) == t[i]
      {
        LowerIdempotent(s[1..][i]);
      }
      assert LowerAll(t) == t;
    }
  }
}
