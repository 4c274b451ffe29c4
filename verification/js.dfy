/** The few JavaScript semantics the shopper-insights code relies on:
    truthiness of optional values, the `&&` / `||` operators on values,
    the line terminators excluded by the regular-expression `.`, the
    `\d` class, and `String.prototype.length` (UTF-16 code units). */
module Js {
  import opened Wrappers

  /** `Boolean(s)` for an optional string: present and non-empty. */
  predicate Truthy(s: Option<string>) {
    s.Some? && s.value != ""
  }

  /** The characters a regular-expression `.` does not match without the
      `s` flag: LF, CR, LINE SEPARATOR and PARAGRAPH SEPARATOR. */
  predicate IsLineTerminator(c: char) {
    c == '\n' || c == '\r' || c == '\U{2028}' || c == '\U{2029}'
  }

  /** The regular-expression class `\d` (ASCII digits only). */
  predicate IsAsciiDigit(c: char) {
    '0' <= c <= '9'
  }

  /** `s.length` in JavaScript: characters outside the Basic Multilingual
      Plane occupy two UTF-16 code units. */
  function Utf16Length(s: string): (n: nat)
    ensures |s| <= n <= 2 * |s|
    ensures (forall k :: 0 <= k < |s| ==> s[k] as int < 0x1_0000) ==> n == |s|
  {
    if s == [] then 0
    else (if s[0] as int < 0x1_0000 then 1 else 2) + Utf16Length(s[1..])
  }

  /** The JavaScript values that can flow through the optional boolean
      fields of a response: a missing field reads as `undefined`. */
  datatype Value = Undefined | Bool(b: bool)

  function FromOption(o: Option<bool>): Value {
    match o
    case None => Undefined
    case Some(b) => Bool(b)
  }

  predicate IsTruthy(v: Value) {
    v == Bool(true)
  }

  /** `a && b`: the left operand when it is falsy, otherwise the right one. */
  function And(a: Value, b: Value): (r: Value)
    ensures IsTruthy(r) <==> IsTruthy(a) && IsTruthy(b)
  {
    if IsTruthy(a) then b else a
  }

  /** `a || b`: the left operand when it is truthy, otherwise the right one. */
  function Or(a: Value, b: Value): (r: Value)
    ensures IsTruthy(r) <==> IsTruthy(a) || IsTruthy(b)
  {
    if IsTruthy(a) then a else b
  }
}
