/**
 * The JavaScript values the adapter reads and writes: user snapshots from the
 * chat server, user records of the bot's brain, post payloads. A JS object is
 * a map from property names to values; a property that is absent reads as
 * `undefined` (see `Field`).
 */
module Js {

  datatype Option<T> = None | Some(value: T)

  /** A JS value. Numbers are integer-valued only. */
  datatype Value =
    | Undefined
    | Null
    | Bool(b: bool)
    | Num(n: int)
    | Str(s: string)
    | Arr(items: seq<Value>)
    | Obj(fields: map<string, Value>)

  /** A plain JS object: its own enumerable properties. */
  type Bag = map<string, Value>

  /** `o[key]`: the property, or `undefined` when it is absent. */
  function Field(o: Bag, key: string): Value
  {
    if key in o then o[key] else Undefined
  }

  /** `v == null` in JS (loose equality): true of `null` and `undefined` only. */
  predicate Nullish(v: Value)
  {
    v.Undefined? || v.Null?
  }

  /** JS truthiness, as used by `if (x)`, `!x` and `x || y`. */
  predicate Truthy(v: Value)
  {
    match v
    case Undefined => false
    case Null => false
    case Bool(b) => b
    case Num(n) => n != 0
    case Str(s) => s != ""
    case Arr(_) => true
    case Obj(_) => true
  }

  function DigitChar(d: nat): char
    requires d < 10
  {
    "0123456789"[d]
  }

  /** Decimal digits of a natural number, most significant first. */
  function Digits(n: nat): (r: string)
    ensures |r| > 0
    decreases n
  {
    if n < 10 then [DigitChar(n)] else Digits(n / 10) + [DigitChar(n % 10)]
  }

  function Decimal(n: int): string
  {
    if n < 0 then "-" + Digits(-n) else Digits(n)
  }

  /**
   * `String(v)`, as a template literal `${v}` and a property-name coercion
   * compute it. An array converts as `items.join(",")`, where `null` and
   * `undefined` items give the empty string.
   */
  function ToJsString(v: Value): (r: string)
    ensures v.Str? ==> r == v.s
    decreases v, 1
  {
    match v
    case Undefined => "undefined"
    case Null => "null"
    case Bool(b) => if b then "true" else "false"
    case Num(n) => Decimal(n)
    case Str(s) => s
    case Arr(items) => JoinFrom(v, 0)
    case Obj(_) => "[object Object]"
  }

  /** The comma-joined conversion of the items of array `v` from index `i` on. */
  function JoinFrom(v: Value, i: nat): string
    requires v.Arr? && i <= |v.items|
    decreases v, 0, |v.items| - i
  {
    if i == |v.items| then ""
    else
      var item := v.items[i];
      var head := if Nullish(item) then "" else ToJsString(item);
      if i + 1 == |v.items| then head else head + "," + JoinFrom(v, i + 1)
  }
}
