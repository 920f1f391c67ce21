/** Values of the JavaScript runtime that the sketch's code works on: three.js `Vector2` and
    `Vector4` (held by value, since the sketch never shares one vector between two owners),
    option bags merged with `Object.assign` and read with the `value || default` idiom, array
    slots written by index, and the exception a call to a missing method raises.
    Numbers are `real`: floating-point rounding and NaN are not modelled. */
module Js {

  datatype Option<+T> = None | Some(value: T)

  datatype Vec2 = Vec2(x: real, y: real)

  datatype Vec4 = Vec4(x: real, y: real, z: real, w: real)

  /** A three.js `Color`: red, green and blue in [0, 1] by convention. */
  datatype Rgb = Rgb(r: real, g: real, b: real)

  /** `new Vector2()` */
  const Origin: Vec2 := Vec2(0.0, 0.0)

  /** `new Vector4()` */
  const Zero4: Vec4 := Vec4(0.0, 0.0, 0.0, 0.0)

  /** `Vector2.subVectors(a, b)` */
  function Sub(a: Vec2, b: Vec2): Vec2 {
    Vec2(a.x - b.x, a.y - b.y)
  }

  /** `Vector2.multiply(b)`: component-wise product */
  function Mul(a: Vec2, b: Vec2): Vec2 {
    Vec2(a.x * b.x, a.y * b.y)
  }

  /** `a.lerp(b, t)`: each component moves by `(b - a) * t` */
  function Lerp(a: Vec2, b: Vec2, t: real): Vec2 {
    Vec2(a.x + (b.x - a.x) * t, a.y + (b.y - a.y) * t)
  }

  /** No element occurs twice: the sketch's arrays of objects never hold one object in two
      places. */
  predicate Distinct<T(==)>(s: seq<T>) {
    forall a, b :: 0 <= a < b < |s| ==> s[a] != s[b]
  }

  /** `s.indexOf(x)`: the first position of `x`, or -1. */
  function IndexOf<T(==)>(s: seq<T>, x: T): (r: int)
    ensures -1 <= r < |s|
    ensures r == -1 <==> x !in s
    ensures r >= 0 ==> s[r] == x && forall j :: 0 <= j < r ==> s[j] != x
  {
    if |s| == 0 then -1
    else if s[0] == x then 0
    else var r := IndexOf(s[1..], x); if r == -1 then -1 else r + 1
  }

  /** In an array without repeats, an element's position is where `indexOf` finds it. */
  lemma IndexOfDistinct<T>(s: seq<T>, k: nat)
    requires Distinct(s) && k < |s|
    ensures IndexOf(s, s[k]) == k
  {
  }

  /** What a thrown exception carries, or the model's own budget running out. */
  datatype Failure =
    | TypeError(what: string)   // a call to a method the object lacks
    | Exhausted                 // a sampling loop used up its attempt budget

  datatype Outcome = Pass | Fail(failure: Failure)

  /** A plain options object: its numeric properties by name. A key that is absent is
      `undefined` in the source. */
  type Options = map<string, real>

  function Get(o: Options, key: string): Option<real> {
    if key in o then Some(o[key]) else None
  }

  /** `Object.assign(target, source)`: every property of `source` is copied over. */
  function Assign(target: Options, source: Options): (r: Options)
    ensures r.Keys == target.Keys + source.Keys
    ensures forall k :: k in source ==> r[k] == source[k]
    ensures forall k :: k in target && k !in source ==> r[k] == target[k]
  {
    target + source
  }

  /** `v || d` for a number-valued property: `undefined` and `0` are falsy. */
  function OrDefault(v: Option<real>, d: real): (r: real)
    ensures d != 0.0 ==> r != 0.0
    ensures r == d || v == Some(r)
    ensures v.Some? && v.value != 0.0 ==> r == v.value
  {
    if v.Some? && v.value != 0.0 then v.value else d
  }

  /** `len < v` where `v` may be `undefined` (the comparison is then false). */
  predicate LessThan(len: int, v: Option<real>) {
    v.Some? && (len as real) < v.value
  }

  /** `len >= v` where `v` may be `undefined` (the comparison is then false). */
  predicate AtLeast(len: int, v: Option<real>) {
    v.Some? && (len as real) >= v.value
  }

  /** The number of passes of `for (let i = 0; i < v; i++)`. */
  function SlotCount(v: Option<real>): (n: nat)
    ensures forall i: nat :: i < n <==> LessThan(i, v)
  {
    if v.Some? && v.value > 0.0 then
      var f := v.value.Floor;
      if f as real == v.value then f else f + 1
    else 0
  }

  /** `a[i] = x` on a JavaScript array, for an index at most one past the end. */
  function Put<T>(s: seq<T>, i: nat, x: T): (r: seq<T>)
    requires i <= |s|
    ensures |r| == if i < |s| then |s| else |s| + 1
    ensures r[i] == x
    ensures forall k :: 0 <= k < |s| && k != i ==> r[k] == s[k]
  {
    if i < |s| then s[i := x] else s + [x]
  }

  /** A capacity test `len >= v` that fails lets the length grow by one without passing the
      number of slots `v` stands for. */
  lemma {:induction false} BelowCapacity(len: nat, v: Option<real>)
    requires v.Some? && !AtLeast(len, v)
    ensures len + 1 <= SlotCount(v)
  {
    assert LessThan(len, v);
  }
}
