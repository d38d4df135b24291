/**
 * The small part of PHP's semantics that the plugin leans on: loosely typed
 * values, the `(string)` cast, the truthiness of a string, `isset` and `??`
 * on array elements, and `implode`.
 */
module Php {

  /** PHP's nullable result (`?string`, `?array`). */
  datatype Option<+T> = None | Some(value: T)

  /**
   * A PHP value as WordPress can hand it to the plugin. Arrays are keyed by
   * strings; floats and objects are not modelled.
   */
  datatype Value =
    | Null
    | Bool(b: bool)
    | Int(i: int)
    | Str(s: string)
    | Arr(entries: map<string, Value>)

  function DigitChar(d: nat): char
    requires d < 10
  {
    "0123456789"[d]
  }

  /** The decimal spelling of a natural number, without leading zeros. */
  function Decimal(n: nat): string
  {
    if n < 10 then [DigitChar(n)] else Decimal(n / 10) + [DigitChar(n % 10)]
  }

  /** `(string) $v`: null and false give "", true gives "1", an array gives "Array". */
  function ToString(v: Value): string
  {
    match v
    case Null => ""
    case Bool(b) => if b then "1" else ""
    case Int(i) => if i < 0 then "-" + Decimal(-i) else Decimal(i)
    case Str(s) => s
    case Arr(_) => "Array"
  }

  /** `isset($a[$k])`: the key is present and its value is not null. */
  predicate Isset(a: map<string, Value>, k: string)
  {
    k in a && !a[k].Null?
  }

  /** `(string) ($a[$k] ?? '')`, which is also `isset($a[$k]) ? (string) $a[$k] : ''`. */
  function StringOrEmpty(a: map<string, Value>, k: string): string
  {
    if Isset(a, k) then ToString(a[k]) else ""
  }

  /** `if ($s)` on a string: only "" and "0" are falsy. */
  predicate Truthy(s: string)
  {
    s != "" && s != "0"
  }

  /** `implode($sep, $parts)`. */
  function Implode(sep: string, parts: seq<string>): string
  {
    if |parts| == 0 then ""
    else if |parts| == 1 then parts[0]
    else Implode(sep, parts[..|parts| - 1]) + sep + parts[|parts| - 1]
  }
}
