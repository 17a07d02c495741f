/**
 * `randomInt` and `randomArrayElem`. Each takes the value `u` that
 * `Math.random()` returned, a number in [0, 1), as an explicit input.
 */
module Random {
  import opened Wrappers

  /** A value `Math.random()` can return. */
  predicate Unit(u: real)
  {
    0.0 <= u < 1.0
  }

  /** Sign of a product with a non-negative left factor. */
  lemma ProductSign(a: real, b: real)
    requires 0.0 <= a && 0.0 <= b
    ensures 0.0 <= a * b
    ensures 0.0 < a && 0.0 < b ==> 0.0 < a * b
  {
  }

  /** `Math.floor(u * n)` stays in [0, n) for a positive n and in [n, 0] otherwise. */
  lemma ScaledFloor(u: real, n: int)
    requires Unit(u)
    ensures n > 0 ==> 0 <= (u * n as real).Floor < n
    ensures n <= 0 ==> n <= (u * n as real).Floor <= 0
  {
    var x := u * n as real;
    if n > 0 {
      ProductSign(u, n as real);
      ProductSign(1.0 - u, n as real);
      assert (n as real) - x == (1.0 - u) * (n as real);
    } else {
      ProductSign(u, -(n as real));
      ProductSign(1.0 - u, -(n as real));
      assert x - (n as real) == (1.0 - u) * -(n as real);
    }
  }

  /**
   * `randomInt(min, max)`: `Math.floor(u * (max - min + 1)) + min`. For
   * `min <= max` this lies in [min, max]; when the bounds are the wrong way
   * round it lies in (max, min].
   */
  function RandomInt(min: int, max: int, u: real): (r: int)
    requires Unit(u)
    ensures min <= max ==> min <= r <= max
    ensures max < min ==> max < r <= min
  {
    ScaledFloor(u, max - min + 1);
    (u * (max - min + 1) as real).Floor + min
  }

  /** Every integer of [min, max] is drawn for some `Math.random()` value. */
  lemma RandomIntReaches(min: int, max: int, v: int)
    requires min <= v <= max
    ensures exists u :: Unit(u) && RandomInt(min, max, u) == v
  {
    var n := (max - min + 1) as real;
    var u := (v - min) as real / n;
    assert u * n == (v - min) as real;
    assert Unit(u);
    assert RandomInt(min, max, u) == v;
  }

  /** The index `Math.floor(u * arr.length)` that `randomArrayElem` reads. */
  function RandomIndex(length: nat, u: real): (i: int)
    requires Unit(u)
    ensures length > 0 ==> 0 <= i < length
    ensures length == 0 ==> i == 0
  {
    ScaledFloor(u, length);
    (u * length as real).Floor
  }

  /**
   * `randomArrayElem(arr)`: the element at a random index, or `undefined`
   * (None) for an empty array.
   */
  function RandomArrayElem<T>(arr: seq<T>, u: real): (r: Option<T>)
    requires Unit(u)
    ensures r.None? <==> |arr| == 0
    ensures r.Some? ==> r.value in arr
  {
    var i := RandomIndex(|arr|, u);
    if 0 <= i < |arr| then Some(arr[i]) else None
  }

  /** Every element of a non-empty array is picked for some `Math.random()` value. */
  lemma RandomArrayElemReaches<T>(arr: seq<T>, i: nat)
    requires i < |arr|
    ensures exists u :: Unit(u) && RandomArrayElem(arr, u) == Some(arr[i])
  {
    var n := |arr| as real;
    var u := i as real / n;
    assert u * n == i as real;
    assert Unit(u);
    assert RandomIndex(|arr|, u) == i;
    assert RandomArrayElem(arr, u) == Some(arr[i]);
  }
}
