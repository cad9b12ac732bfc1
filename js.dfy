/** The fragment of JavaScript's value semantics that the two views rely on:
    truthiness, the `||` operator, reading and writing object fields,
    `Object.keys(v).length` and `String.prototype.indexOf`. */
module Js {

  datatype Option<+T> = None | Some(value: T)

  /** A JavaScript value. Numbers are reals (NaN and the infinities are not
      modelled); an object is the map of its own enumerable fields. */
  datatype JsValue =
    | Undefined
    | Null
    | Bool(b: bool)
    | Num(n: real)
    | Str(s: string)
    | Obj(fields: map<string, JsValue>)

  /** The literal `{}`. */
  const EmptyObject: JsValue := Obj(map[])

  /** `undefined` and `null`: reading a field of either throws a TypeError. */
  predicate Nullish(v: JsValue) {
    v.Undefined? || v.Null?
  }

  /** `!!v`. Every object, the empty one included, is truthy. */
  predicate Truthy(v: JsValue) {
    match v
    case Undefined => false
    case Null => false
    case Bool(b) => b
    case Num(n) => n != 0.0
    case Str(s) => s != ""
    case Obj(_) => true
  }

  /** `a || b`: yields one of its operands, and is truthy iff either is. */
  function Or(a: JsValue, b: JsValue): (r: JsValue)
    ensures r == a || r == b
    ensures Truthy(r) <==> Truthy(a) || Truthy(b)
    ensures Truthy(a) ==> r == a
    ensures !Truthy(a) ==> r == b
  {
    if Truthy(a) then a else b
  }

  /** `v.key` on a value that is neither undefined nor null. A missing field
      reads as undefined; the primitives carry no own field with the names the
      views read (`data`, `meta`, `query`, `subreddit`, `useCache`). */
  function Field(v: JsValue, key: string): JsValue
    requires !Nullish(v)
  {
    if v.Obj? && key in v.fields then v.fields[key] else Undefined
  }

  /** `o.key = x` on an object: that field now reads as `x`, every other one
      as before. */
  function SetField(o: JsValue, key: string, x: JsValue): (r: JsValue)
    requires o.Obj?
    ensures r.Obj?
    ensures Field(r, key) == x
    ensures forall k :: k != key ==> Field(r, k) == Field(o, k)
  {
    Obj(o.fields[key := x])
  }

  /** `Object.keys(v).length`; `Object.keys` throws on undefined and null.
      JavaScript gives a string one key per UTF-16 code unit; here a string
      has one key per character. A number or a boolean has none. */
  function KeyCount(v: JsValue): (n: nat)
    requires !Nullish(v)
    ensures n > 0 ==> Truthy(v)
  {
    if v.Obj? then |v.fields|
    else if v.Str? then |v.s|
    else 0
  }

  /** `sub` occurs in `s` starting at index `i`. */
  predicate OccursAt(s: string, sub: string, i: int) {
    0 <= i && i + |sub| <= |s| && s[i..i + |sub|] == sub
  }

  predicate Contains(s: string, sub: string) {
    exists i :: 0 <= i <= |s| && OccursAt(s, sub, i)
  }

  /** The first index at or after `from` where `sub` occurs in `s`, or -1. */
  function IndexFrom(s: string, sub: string, from: nat): (r: int)
    requires from <= |s|
    ensures r == -1 || (from <= r && OccursAt(s, sub, r))
    ensures r == -1 <==> forall i :: from <= i ==> !OccursAt(s, sub, i)
    ensures forall i :: from <= i < r ==> !OccursAt(s, sub, i)
    decreases |s| - from
  {
    if from + |sub| > |s| then -1
    else if s[from..from + |sub|] == sub then from
    else IndexFrom(s, sub, from + 1)
  }

  /** `s.indexOf(sub)`: the first occurrence of `sub` in `s`, -1 when there is none. */
  function IndexOf(s: string, sub: string): (r: int)
    ensures r == -1 <==> !Contains(s, sub)
    ensures r != -1 ==> OccursAt(s, sub, r)
    ensures forall i :: 0 <= i < r ==> !OccursAt(s, sub, i)
  {
    IndexFrom(s, sub, 0)
  }
}
