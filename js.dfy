/** The small part of JavaScript's value semantics that the webhook handler relies on:
    the values `JSON.parse` produces (plus `undefined`), truthiness, the `||` operator,
    property access with and without `?.`, and `String.prototype.toLowerCase`. */
module Js {

  datatype Option<+T> = None | Some(value: T)

  /** A JavaScript value as `JSON.parse` builds it, plus `undefined`, which is what
      reading an absent property yields. JSON numbers are modelled as reals. */
  datatype Value =
    | Undefined
    | Null
    | Bool(b: bool)
    | Num(n: real)
    | Str(s: string)
    | Arr(elems: seq<Value>)
    | Obj(props: map<string, Value>)

  /** `null` and `undefined`: the values on which reading a property throws a TypeError. */
  predicate Nullish(v: Value) {
    v.Undefined? || v.Null?
  }

  /** JavaScript truthiness. The falsy values JSON can produce are `null`, `false`, `0`
      (and `-0`, the same real) and `""`; `undefined` is falsy too. Every array and every
      object, empty or not, is truthy. */
  predicate Truthy(v: Value)
    ensures Nullish(v) ==> !Truthy(v)
    ensures v.Arr? || v.Obj? ==> Truthy(v)
    ensures v.Str? ==> (Truthy(v) <==> |v.s| > 0)
    ensures v.Num? ==> (Truthy(v) <==> v.n != 0.0)
  {
    match v
    case Undefined => false
    case Null => false
    case Bool(b) => b
    case Num(n) => n != 0.0
    case Str(s) => s != ""
    case Arr(_) => true
    case Obj(_) => true
  }

  /** `a || b`: evaluates to `a` itself when `a` is truthy and to `b` otherwise
      (not to a boolean). */
  function Or(a: Value, b: Value): (r: Value)
    ensures r == a || r == b
    ensures Truthy(r) <==> Truthy(a) || Truthy(b)
    ensures Truthy(a) ==> r == a
    ensures !Truthy(a) ==> r == b
  {
    if Truthy(a) then a else b
  }

  /** `v.key` on a value that is neither `null` nor `undefined`. Only the own properties
      of plain objects are modelled: none of the keys the handler reads is inherited
      from a prototype, so on a string, number, boolean or array they are `undefined`. */
  function Prop(v: Value, key: string): (r: Value)
    requires !Nullish(v)
    ensures !v.Obj? ==> r == Undefined
    ensures v.Obj? ==> r == if key in v.props then v.props[key] else Undefined
  {
    if v.Obj? && key in v.props then v.props[key] else Undefined
  }

  /** `v?.key`: `undefined` when `v` is `null` or `undefined`, instead of a TypeError. */
  function OptProp(v: Value, key: string): (r: Value)
    ensures Nullish(v) ==> r == Undefined
    ensures !Nullish(v) ==> r == Prop(v, key)
    ensures !r.Undefined? ==> v.Obj? && key in v.props
  {
    if Nullish(v) then Undefined else Prop(v, key)
  }

  /** Converting `v` to a string, as `${v}` in a template literal does, throws a TypeError.
      For an object, the conversion calls the first of `toString` and `valueOf` that is a
      function and returns a primitive. An own `toString` key hides the inherited method
      behind a value that is never a function, and the inherited `valueOf` returns the
      object itself, so no primitive is found. An object without that key becomes
      "[object Object]". An array is converted by joining its elements, so it throws when
      one of them does. Strings, numbers, booleans and `null` never throw. */
  predicate ToStringThrows(v: Value)
    ensures ToStringThrows(v) ==> v.Obj? || v.Arr?
    ensures v.Obj? ==> (ToStringThrows(v) <==> "toString" in v.props)
  {
    match v
    case Obj(props) => "toString" in props
    case Arr(elems) => exists i :: 0 <= i < |elems| && ToStringThrows(elems[i])
    case _ => false
  }

  /** The lower-case mapping of one character, restricted to the characters whose lower
      case is an ASCII character other than themselves: `A`-`Z`, and U+212A KELVIN SIGN,
      whose lower case is `k`. Every other character is left as it is. */
  function LowerChar(c: char): char {
    if 'A' <= c <= 'Z' then (c as int + 32) as char
    else if c == '\U{212A}' then 'k'
    else c
  }

  /** `s.toLowerCase()`, character by character. */
  function ToLower(s: string): (r: string)
    ensures |r| == |s|
    ensures forall i :: 0 <= i < |s| ==> r[i] == LowerChar(s[i])
  {
    if s == [] then [] else [LowerChar(s[0])] + ToLower(s[1..])
  }

  /** A string of ASCII characters none of which is an upper-case letter. */
  predicate IsLowerAscii(p: string) {
    forall i :: 0 <= i < |p| ==> p[i] as int < 128 && !('A' <= p[i] <= 'Z')
  }

  /** `c` writes the ASCII character `d` (not an upper-case letter) in some letter case:
      `d` itself, the upper-case form of the letter `d`, or the Kelvin sign for `k`. */
  predicate SpellsLower(c: char, d: char) {
    || c == d
    || ('a' <= d <= 'z' && c as int == d as int - 32)
    || (d == 'k' && c == '\U{212A}')
  }

  /** `s` equals the lower-case ASCII phrase `p` when letter case is ignored. */
  predicate EqualsIgnoringCase(s: string, p: string) {
    |s| == |p| && forall i :: 0 <= i < |s| ==> SpellsLower(s[i], p[i])
  }

  /** Comparing `s.toLowerCase()` with a lower-case ASCII phrase is exactly a
      case-insensitive comparison of `s` with that phrase. */
  lemma ToLowerEqualsPhrase(s: string, p: string)
    requires IsLowerAscii(p)
    ensures ToLower(s) == p <==> EqualsIgnoringCase(s, p)
  {
  }
}
