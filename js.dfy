/**
 * The few pieces of JavaScript value semantics the request handler relies on:
 * truthiness, logical `!`, the bitwise `&` applied to two booleans and the
 * value-returning `&&`.  Only the value kinds the handler can meet are modelled.
 */
module Js {
  import opened Wrappers

  /** A JavaScript value as far as the handler sees one. */
  datatype JsValue = Null | Bool(b: bool) | Number(n: int) | Str(s: string)

  /** ECMAScript ToBoolean: `null`, `false`, `0` and `""` are falsy. */
  predicate Truthy(v: JsValue) {
    match v
    case Null => false
    case Bool(b) => b
    case Number(n) => n != 0
    case Str(s) => s != ""
  }

  /** A JSON string field read from a parsed body; `None` is `null` or a missing key. */
  function OfOption(o: Option<string>): JsValue {
    match o
    case None => Null
    case Some(s) => Str(s)
  }

  /** A string field is truthy exactly when it is present and not empty. */
  predicate Present(o: Option<string>) {
    Truthy(OfOption(o))
  }

  /** Logical NOT `!v`: always a boolean. */
  function Not(v: JsValue): (r: JsValue)
    ensures r.Bool? && (Truthy(r) <==> !Truthy(v))
  {
    Bool(!Truthy(v))
  }

  /** ToInt32 of a boolean operand (ToNumber gives 1 or 0). */
  function BoolToInt32(b: bool): bv32 {
    if b then 1 else 0
  }

  /** The signed reading of a 32-bit pattern, as the result of a bitwise operator. */
  function Int32ToNumber(x: bv32): int {
    if x < 0x8000_0000 then x as int else x as int - 0x1_0000_0000
  }

  /**
   * Bitwise AND `a & b` of two boolean operands: both are converted to 32-bit
   * integers and the result is a number, not a boolean.  Its truthiness is
   * nevertheless that of the logical conjunction.
   */
  function BitAnd(a: JsValue, b: JsValue): (r: JsValue)
    requires a.Bool? && b.Bool?
    ensures r.Number? && (r.n == 0 || r.n == 1)
    ensures Truthy(r) <==> Truthy(a) && Truthy(b)
  {
    Number(Int32ToNumber(BoolToInt32(a.b) & BoolToInt32(b.b)))
  }

  /** Logical AND `a && b`: yields `a` itself when `a` is falsy, otherwise `b`. */
  function And(a: JsValue, b: JsValue): (r: JsValue)
    ensures Truthy(r) <==> Truthy(a) && Truthy(b)
    ensures r == a || r == b
  {
    if Truthy(a) then b else a
  }
}
