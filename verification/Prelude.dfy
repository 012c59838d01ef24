/** Small value types and text functions shared by the models. */
module Prelude {

  datatype Option<+T> = None | Some(value: T)

  function Max(a: int, b: int): int {
    if a < b then b else a
  }

  function Min(a: int, b: int): int {
    if a < b then a else b
  }

  /** A UTF-16 code unit, and a string as JavaScript holds it. */
  type Unit = n: int | 0 <= n < 0x1_0000
  type Text = seq<Unit>

  predicate HighSurrogate(c: Unit) { 0xD800 <= c <= 0xDBFF }

  predicate LowSurrogate(c: Unit) { 0xDC00 <= c <= 0xDFFF }

  const NEWLINE: Unit := 0x0A
  const SPACE: Unit := 0x20
  const BACKSLASH: Unit := 0x5C

  /** Array.prototype.join */
  function Join(parts: seq<Text>, separator: Unit): Text {
    if parts == [] then []
    else if |parts| == 1 then parts[0]
    else parts[0] + [separator] + Join(parts[1..], separator)
  }
}
