/**
 * The slice of JavaScript's value semantics that the application code relies on:
 * JSON-like values, truthiness, object spread, property reads, exceptions, and
 * the `Number`/`String` conversions of integers used for Stripe metadata.
 */
module Js {

  datatype Option<+T> = None | Some(value: T)

  /** A JSON-like JavaScript value. Numbers are integers here (see README). */
  datatype JsValue =
    | Undefined
    | Null
    | Bool(b: bool)
    | Num(n: int)
    | Str(s: string)
    | Obj(props: map<string, JsValue>)

  /** ToBoolean: the values `if (v)`, `v && …` and `v || …` treat as true. */
  predicate Truthy(v: JsValue) {
    match v
    case Undefined => false
    case Null => false
    case Bool(b) => b
    case Num(n) => n != 0
    case Str(s) => s != ""
    case Obj(_) => true
  }

  /** `v == null`, loose equality with null: true of null and of undefined. */
  predicate Nullish(v: JsValue) {
    v.Undefined? || v.Null?
  }

  /** The result of `typeof v`. */
  function TypeOf(v: JsValue): string {
    match v
    case Undefined => "undefined"
    case Null => "object"
    case Bool(_) => "boolean"
    case Num(_) => "number"
    case Str(_) => "string"
    case Obj(_) => "object"
  }

  /** The guard `v && typeof v === 'object'`: holds exactly of non-null objects. */
  predicate IsObject(v: JsValue)
    ensures IsObject(v) <==> v.Obj?
  {
    Truthy(v) && TypeOf(v) == "object"
  }

  /** The own enumerable properties that `{...v}` copies and that `for…in` with
      `hasOwnProperty` visits. Primitives contribute none (see README on strings). */
  function Spread(v: JsValue): map<string, JsValue> {
    if v.Obj? then v.props else map[]
  }

  /** `v?.[key]`: the property's value, or undefined when it is absent. */
  function Get(v: JsValue, key: string): JsValue {
    if v.Obj? && key in v.props then v.props[key] else Undefined
  }

  /** `a || b`. */
  function Or(a: JsValue, b: JsValue): (r: JsValue)
    ensures Truthy(a) ==> r == a
    ensures !Truthy(a) ==> r == b
  {
    if Truthy(a) then a else b
  }

  /** A value that is thrown: an `Error` instance, a string, or anything else
      (kept as the text `JSON.stringify` gives for it). */
  datatype Thrown =
    | ErrorObject(message: string)
    | StringValue(s: string)
    | OtherValue(json: string)

  /** How a call ends: it returns a value or it throws. */
  datatype Completion<+T> = Returned(value: T) | Threw(thrown: Thrown)

  /** The TypeError a JavaScript engine (V8) throws when a property of null or
      undefined is read. */
  function PropertyReadError(receiver: JsValue, property: string): Thrown
    requires Nullish(receiver)
  {
    ErrorObject("Cannot read properties of " + (if receiver.Null? then "null" else "undefined")
                + " (reading '" + property + "')")
  }

  // ---------------------------------------------------------------------------
  // String(n) and Number(s) on decimal integers

  function DigitChar(d: int): char
    requires 0 <= d < 10
  {
    "0123456789"[d]
  }

  predicate IsDigit(c: char) {
    '0' <= c <= '9'
  }

  predicate AllDigits(s: string) {
    forall i :: 0 <= i < |s| ==> IsDigit(s[i])
  }

  /** The decimal digits of `n`, most significant first, as `String(n)` writes them. */
  function NatToString(n: nat): (s: string)
    decreases n
  {
    if n < 10 then [DigitChar(n)] else NatToString(n / 10) + [DigitChar(n % 10)]
  }

  /** `String(n)` for an integer `n`. */
  function IntToString(n: int): string {
    if n < 0 then "-" + NatToString(-n) else NatToString(n)
  }

  /** The value of a string of decimal digits. */
  function DigitsValue(s: string): nat
    requires AllDigits(s)
  {
    if s == [] then 0 else DigitsValue(s[..|s| - 1]) * 10 + (s[|s| - 1] as int - '0' as int)
  }

  /** `Number(s)` for strings made of an optional sign and decimal digits;
      `None` stands for NaN. The empty string is 0, as in JavaScript. */
  function NumberOf(s: string): Option<int> {
    if s == "" then Some(0)
    else if |s| > 1 && (s[0] == '-' || s[0] == '+') && AllDigits(s[1..]) then
      var magnitude: int := DigitsValue(s[1..]);
      Some(if s[0] == '-' then -magnitude else magnitude)
    else if AllDigits(s) then Some(DigitsValue(s))
    else None
  }

  lemma {:induction false} NatToStringDigits(n: nat)
    ensures |NatToString(n)| >= 1
    ensures AllDigits(NatToString(n))
    ensures DigitsValue(NatToString(n)) == n
    decreases n
  {
    if n >= 10 {
      NatToStringDigits(n / 10);
      var s := NatToString(n);
      assert s[..|s| - 1] == NatToString(n / 10);
    }
  }

  /** Reading back what `String` wrote gives the same integer: `Number(String(n)) == n`. */
  lemma NumberOfIntToString(n: int)
    ensures NumberOf(IntToString(n)) == Some(n)
  {
    if n < 0 {
      NatToStringDigits(-n);
      assert IntToString(n)[1..] == NatToString(-n);
    } else {
      NatToStringDigits(n);
    }
  }
}
