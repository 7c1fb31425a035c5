/** JavaScript values as the plugin's TypeScript code sees them: truthiness, the `||` and `&&`
    operators (which return one of their operands), `String(v)` and lodash's string coercion.
    Numbers are restricted to integers; the adapter only stores rows, columns, ids and pids. */
module Js {

  datatype Option<+T> = None | Some(value: T)

  /** The result of a JavaScript call: it returns a value or throws. */
  datatype Outcome<+T> = Returned(value: T) | Threw(error: string)

  /** A primitive JavaScript value (objects are modelled by their own datatypes or classes). */
  datatype JsValue = Undefined | Null | Bool(b: bool) | Num(n: int) | Str(s: string)

  /** A plain object literal: property name to value. */
  type Record = map<string, JsValue>

  /** JavaScript truthiness: undefined, null, false, 0 and "" are falsy. */
  predicate Truthy(v: JsValue) {
    match v
    case Undefined => false
    case Null => false
    case Bool(b) => b
    case Num(n) => n != 0
    case Str(s) => s != ""
  }

  /** `a || b`: the first operand when it is truthy, the second otherwise. */
  function Or(a: JsValue, b: JsValue): JsValue {
    if Truthy(a) then a else b
  }

  /** `a && b`: the second operand when the first is truthy, the first otherwise. */
  function And(a: JsValue, b: JsValue): JsValue {
    if Truthy(a) then b else a
  }

  /** Property access `o[k]`: undefined for a missing property. */
  function Get(o: Record, k: string): JsValue {
    if k in o then o[k] else Undefined
  }

  function DigitChar(d: nat): char
    requires d < 10
  {
    "0123456789"[d]
  }

  /** The decimal digits of a natural number, most significant first. */
  function Digits(n: nat): (r: string)
    ensures |r| >= 1
    decreases n
  {
    if n < 10 then [DigitChar(n)] else Digits(n / 10) + [DigitChar(n % 10)]
  }

  /** The decimal text JavaScript prints for an integer. */
  function DecimalText(n: int): string {
    if n < 0 then "-" + Digits(-n) else Digits(n)
  }

  /** Every character of the decimal text of a number is a digit or a minus sign. */
  lemma {:induction false} DecimalTextChars(n: int)
    ensures forall i :: 0 <= i < |DecimalText(n)| ==> DecimalText(n)[i] == '-' || '0' <= DecimalText(n)[i] <= '9'
  {
    var m: nat := if n < 0 then -n else n;
    DigitsChars(m);
  }

  lemma {:induction false} DigitsChars(n: nat)
    ensures forall i :: 0 <= i < |Digits(n)| ==> '0' <= Digits(n)[i] <= '9'
    decreases n
  {
    if n >= 10 {
      DigitsChars(n / 10);
    }
  }

  /** `String(v)`, or the implicit conversion of `"…" + v`. */
  function ToText(v: JsValue): string {
    match v
    case Undefined => "undefined"
    case Null => "null"
    case Bool(b) => if b then "true" else "false"
    case Num(n) => DecimalText(n)
    case Str(s) => s
  }

  /** lodash's string coercion (used by `_.endsWith`): null and undefined become "". */
  function LodashText(v: JsValue): (r: string)
    ensures v.Str? ==> r == v.s
    ensures v == Undefined || v == Null ==> r == ""
  {
    if v == Undefined || v == Null then "" else ToText(v)
  }

  /** The lodash text of a value that is not a string holds no '.' character. */
  lemma NonStringTextHasNoDot(v: JsValue)
    requires !v.Str?
    ensures forall i :: 0 <= i < |LodashText(v)| ==> LodashText(v)[i] != '.'
  {
    if v.Num? {
      DecimalTextChars(v.n);
    }
  }
}
