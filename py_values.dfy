/**
 * The slice of Python's dynamic values and built-ins that the rental manager
 * relies on: a tagged value type, the exceptions it raises, truthiness,
 * `isinstance(_, int)`, `==` across numeric types, `str.lower` and
 * `str.isidentifier` (both on ASCII text).
 */
module PyValues {

  /** A Python value as the menu engine and the entity classes see it. */
  datatype Value =
    | NoneV
    | Bool(b: bool)
    | Int(i: int)
    | Float(r: real)
    | Str(s: string)
    | Fn(name: string)    // any callable object

  /** The exceptions raised by the modelled code. */
  datatype Error =
    | ValueError(msg: string)
    | TypeError(msg: string)
    | KeyError
    | AttributeError(attr: string)
    | IndexError
    | EOFError           // an input prompt that receives no more answers

  /** `bool(v)` */
  predicate Truthy(v: Value) {
    match v
    case NoneV => false
    case Bool(b) => b
    case Int(i) => i != 0
    case Float(r) => r != 0.0
    case Str(s) => |s| > 0
    case Fn(_) => true
  }

  /** `isinstance(v, int)`: `bool` is a subclass of `int`. */
  predicate IsInstanceInt(v: Value) {
    v.Int? || v.Bool?
  }

  /** True for the numeric tower bool < int < float. */
  predicate IsNumber(v: Value) {
    v.Bool? || v.Int? || v.Float?
  }

  /** The integer an `isinstance(v, int)` value stands for (`True` is 1). */
  function IntOf(v: Value): int
    requires IsInstanceInt(v)
  {
    if v.Bool? then (if v.b then 1 else 0) else v.i
  }

  /** The number a numeric value stands for. */
  function RealOf(v: Value): real
    requires IsNumber(v)
  {
    if v.Float? then v.r else IntOf(v) as real
  }

  /** Python `a == b`: numbers compare by value (`True == 1 == 1.0`), everything else structurally. */
  predicate PyEq(a: Value, b: Value) {
    if IsNumber(a) && IsNumber(b) then RealOf(a) == RealOf(b) else a == b
  }

  /** `c.lower()` on one ASCII character; other characters are left alone. */
  function LowerChar(c: char): char {
    if 'A' <= c <= 'Z' then (c as int + 32) as char else c
  }

  /** `s.lower()`, character by character. */
  function Lower(s: string): (r: string)
    ensures |r| == |s|
    ensures forall i :: 0 <= i < |s| ==> r[i] == LowerChar(s[i])
  {
    if s == [] then [] else [LowerChar(s[0])] + Lower(s[1..])
  }

  predicate IsAsciiLetter(c: char) {
    'A' <= c <= 'Z' || 'a' <= c <= 'z'
  }

  predicate IsAsciiDigit(c: char) {
    '0' <= c <= '9'
  }

  /** `s.isidentifier()` restricted to ASCII: a letter or '_' followed by letters, digits and '_'. */
  predicate IsIdentifier(s: string) {
    && |s| > 0
    && (IsAsciiLetter(s[0]) || s[0] == '_')
    && forall i :: 0 < i < |s| ==> IsAsciiLetter(s[i]) || IsAsciiDigit(s[i]) || s[i] == '_'
  }
}
