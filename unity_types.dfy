/**
 * The few Unity engine types and helpers that the game logic touches: a position vector,
 * a transform (a mutable, possibly absent reference whose position the engine moves), and
 * `Mathf.Clamp` / `Mathf.Min` / `Mathf.Max` on integers.
 */
module UnityTypes {

  /** A world position. The model only stores and compares positions; it does no arithmetic on them. */
  datatype Vector3 = Vector3(x: real, y: real, z: real)

  /** A scene transform. The engine moves it; the game logic only reads its position. */
  class Transform {
    var position: Vector3

    constructor (position: Vector3)
      ensures this.position == position
    {
      this.position := position;
    }
  }

  /** `Mathf.Clamp(value, min, max)` on integers. */
  function Clamp(value: int, lo: int, hi: int): (r: int)
    requires lo <= hi
    ensures lo <= r <= hi
    ensures lo <= value <= hi ==> r == value
    ensures value < lo ==> r == lo
    ensures hi < value ==> r == hi
  {
    if value < lo then lo else if value > hi then hi else value
  }

  /** Clamping a value twice into the same range is the same as clamping it once. */
  lemma ClampIdempotent(value: int, lo: int, hi: int)
    requires lo <= hi
    ensures Clamp(Clamp(value, lo, hi), lo, hi) == Clamp(value, lo, hi)
  {
  }

  /** Clamping preserves order: a larger raw value never yields a smaller stored value. */
  lemma ClampMonotonic(a: int, b: int, lo: int, hi: int)
    requires lo <= hi && a <= b
    ensures Clamp(a, lo, hi) <= Clamp(b, lo, hi)
  {
  }

  function Min(a: int, b: int): (r: int)
    ensures r <= a && r <= b && (r == a || r == b)
  {
    if a <= b then a else b
  }

  function Max(a: int, b: int): (r: int)
    ensures r >= a && r >= b && (r == a || r == b)
  {
    if a >= b then a else b
  }
}
