/**
 * The few pieces of JavaScript value semantics the typing engine relies on:
 * numbers as `Number()` produces them, truthiness of `x || d`, `String.prototype.trim`,
 * `String.prototype.repeat` and ASCII case mapping.
 */
module Js {

  /** A JavaScript number as far as the engine can observe it. */
  datatype JsNumber = NaN | PosInf | NegInf | Finite(value: real)

  /** `!!n`: every number except `NaN` and zero is truthy. */
  predicate Truthy(n: JsNumber) {
    n != NaN && n != Finite(0.0)
  }

  /** `n || d` for a number `n` and a numeric default `d`. */
  function OrDefault(n: JsNumber, d: real): (r: JsNumber)
    ensures Truthy(n) ==> r == n
    ensures !Truthy(n) ==> r == Finite(d)
  {
    if Truthy(n) then n else Finite(d)
  }

  /** `Math.min(Math.max(n, lo), hi)` for a number that is not `NaN`. */
  function ClampNumber(n: JsNumber, lo: real, hi: real): (r: real)
    requires n != NaN && lo <= hi
    ensures lo <= r <= hi
    ensures n.Finite? && lo <= n.value <= hi ==> r == n.value
    ensures n == PosInf ==> r == hi
    ensures n == NegInf ==> r == lo
  {
    match n
    case PosInf => hi
    case NegInf => lo
    case Finite(v) => if v < lo then lo else if v > hi then hi else v
  }

  /** `i < n` for an integer counter and a number. */
  predicate LessThan(i: int, n: JsNumber) {
    match n
    case NaN => false
    case PosInf => true
    case NegInf => false
    case Finite(v) => (i as real) < v
  }

  /** `Math.ceil` on reals. */
  function Ceil(x: real): (r: int)
    ensures x <= r as real < x + 1.0
  {
    -((-x).Floor)
  }

  /**
   * How many times `for (let i = 0; i < n; i++)` runs; an infinite bound is excluded.
   * The counters that run are exactly those below the count.
   */
  function LoopCount(n: JsNumber): (r: nat)
    requires n != PosInf
    ensures forall i: nat :: LessThan(i, n) <==> i < r
  {
    match n
    case Finite(v) => if v <= 0.0 then 0 else Ceil(v)
    case NaN => 0
    case NegInf => 0
  }

  /** `Math.max(a, b)` and `Math.min(a, b)` on reals. */
  function MaxReal(a: real, b: real): real { if a >= b then a else b }
  function MinInt(a: int, b: int): int { if a <= b then a else b }
  function MaxInt(a: int, b: int): int { if a >= b then a else b }

  /** The characters `String.prototype.trim` removes: white space and line terminators. */
  predicate IsTrimmable(c: char) {
    || c == '\t' || c == '\n' || c == '\U{000B}' || c == '\U{000C}' || c == '\r' || c == ' '
    || c == '\U{00A0}' || c == '\U{1680}' || ('\U{2000}' <= c <= '\U{200A}')
    || c == '\U{2028}' || c == '\U{2029}' || c == '\U{202F}' || c == '\U{205F}'
    || c == '\U{3000}' || c == '\U{FEFF}'
  }

  function TrimStart(s: string): (r: string)
    ensures |r| <= |s| && r == s[|s| - |r|..]
    ensures |r| > 0 ==> !IsTrimmable(r[0])
    ensures forall i | 0 <= i < |s| - |r| :: IsTrimmable(s[i])
  {
    if |s| > 0 && IsTrimmable(s[0]) then TrimStart(s[1..]) else s
  }

  function TrimEnd(s: string): (r: string)
    ensures |r| <= |s| && r == s[..|r|]
    ensures |r| > 0 ==> !IsTrimmable(r[|r| - 1])
    ensures forall i | |r| <= i < |s| :: IsTrimmable(s[i])
  {
    if |s| > 0 && IsTrimmable(s[|s| - 1]) then TrimEnd(s[..|s| - 1]) else s
  }

  /** `s.trim()`. */
  function Trim(s: string): (r: string)
    ensures |r| <= |s|
    ensures |r| > 0 ==> !IsTrimmable(r[0]) && !IsTrimmable(r[|r| - 1])
    ensures r == [] <==> forall i | 0 <= i < |s| :: IsTrimmable(s[i])
  {
    var t := TrimStart(s);
    var r := TrimEnd(t);
    // A non-empty `t` starts with a kept character, which TrimEnd cannot remove.
    assert r == [] ==> t == [];
    r
  }

  /** `s.repeat(n)`. */
  function Repeat(s: string, n: nat): (r: string)
    ensures |r| == n * |s|
  {
    if n == 0 then [] else s + Repeat(s, n - 1)
  }

  /** `toLowerCase` / `toUpperCase`, of which only the ASCII letters are modelled. */
  function LowerChar(c: char): char {
    if 'A' <= c <= 'Z' then (c as int + 32) as char else c
  }
  function UpperChar(c: char): char {
    if 'a' <= c <= 'z' then (c as int - 32) as char else c
  }
  function ToLower(s: string): (r: string)
    ensures |r| == |s| && forall i | 0 <= i < |s| :: r[i] == LowerChar(s[i])
  {
    seq(|s|, i requires 0 <= i < |s| => LowerChar(s[i]))
  }
  function ToUpper(s: string): (r: string)
    ensures |r| == |s| && forall i | 0 <= i < |s| :: r[i] == UpperChar(s[i])
  {
    seq(|s|, i requires 0 <= i < |s| => UpperChar(s[i]))
  }
}
