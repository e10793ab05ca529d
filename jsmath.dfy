/**
 * The arithmetic of JavaScript numbers that the engine relies on, over exact reals:
 * `Math.round`, `Math.ceil`, the truncating `%` operator and the
 * `((x % b) + b) % b` normalisation used for ages and clock hours.
 */
module JsMath {

  /** `Math.round`: the nearest integer, halves rounded towards +infinity. */
  function Round(x: real): (r: int)
    ensures r as real - 0.5 <= x < r as real + 0.5
  {
    (x + 0.5).Floor
  }

  /** `Math.ceil`. */
  function Ceil(x: real): (r: int)
    ensures r as real - 1.0 < x <= r as real
  {
    -((-x).Floor)
  }

  /** Truncation towards zero, which the numeric `%` operator uses. */
  function Trunc(x: real): (r: int)
    ensures 0.0 <= x ==> r as real <= x < r as real + 1.0
    ensures x < 0.0 ==> r as real - 1.0 < x <= r as real
  {
    if x >= 0.0 then x.Floor else -((-x).Floor)
  }

  /** b * k <= a < b * (k + 1) when k is the floor of a / b. */
  lemma FloorDivBounds(a: real, b: real, k: int)
    requires b > 0.0
    requires k as real <= a / b < k as real + 1.0
    ensures b * k as real <= a
    ensures a < b * k as real + b
  {
    var q := a / b;
    assert b * q == a;
    MulMonotone(b, k as real, q);
    assert b * k as real <= b * q;
    MulMonotone(b, q, k as real + 1.0);
    assert b * q < b * (k as real + 1.0);
    assert b * (k as real + 1.0) == b * k as real + b;
    assert a < b * k as real + b;
  }

  /** Conversely, k is the floor of a / b when b * k <= a < b * k + b. */
  lemma FloorDivOf(a: real, b: real, k: int)
    requires b > 0.0
    requires b * k as real <= a < b * k as real + b
    ensures (a / b).Floor == k
  {
    var q := a / b;
    assert b * q == a;
    if q < k as real {
      MulMonotone(b, q, k as real);
      assert false;
    }
    assert b * (k as real + 1.0) == b * k as real + b;
    if q >= k as real + 1.0 {
      MulMonotone(b, k as real + 1.0, q);
      assert false;
    }
  }

  lemma MulMonotone(b: real, x: real, y: real)
    requires b > 0.0 && x <= y
    ensures b * x <= b * y
    ensures x < y ==> b * x < b * y
  {
    assert b * y - b * x == b * (y - x);
  }

  /** The numeric `%` operator: `a - b * trunc(a / b)`, whose sign follows the dividend. */
  function Rem(a: real, b: real): (r: real)
    requires b > 0.0
    ensures 0.0 <= a ==> 0.0 <= r < b
    ensures a < 0.0 ==> -b < r <= 0.0
  {
    var t := Trunc(a / b);
    if a >= 0.0 then
      FloorDivBounds(a, b, t);
      a - b * t as real
    else
      assert (-a) / b == -(a / b);
      FloorDivBounds(-a, b, -t);
      a - b * t as real
  }

  /** The Euclidean remainder: a minus the largest multiple of b not above a. */
  function Mod(a: real, b: real): (r: real)
    requires b > 0.0
    ensures 0.0 <= r < b
  {
    FloorDivBounds(a, b, (a / b).Floor);
    a - b * (a / b).Floor as real
  }

  /** `((a % b) + b) % b` is the Euclidean remainder, whatever the sign of a. */
  function Wrap(a: real, b: real): (r: real)
    requires b > 0.0
    ensures r == Mod(a, b)
  {
    var w := Rem(Rem(a, b) + b, b);
    WrapIsMod(a, b);
    w
  }

  lemma WrapIsMod(a: real, b: real)
    requires b > 0.0
    ensures Rem(Rem(a, b) + b, b) == Mod(a, b)
  {
    if a >= 0.0 {
      WrapOfNonNegative(a, b);
    } else {
      WrapOfNegative(a, b);
    }
  }

  /** For a >= 0 the first `%` already is the Euclidean remainder, and the second undoes the added b. */
  lemma WrapOfNonNegative(a: real, b: real)
    requires b > 0.0 && a >= 0.0
    ensures Rem(Rem(a, b) + b, b) == Mod(a, b)
  {
    var t := Trunc(a / b);
    var f := (a / b).Floor;
    assert t == f;
    var r := Rem(a, b);
    assert r == a - b * t as real;
    assert Mod(a, b) == r;
    FloorDivOf(r + b, b, 1);
    assert Rem(r + b, b) == (r + b) - b * 1 as real;
  }

  /** For a < 0 the first `%` is the Euclidean remainder less b, or 0 on a multiple of b. */
  lemma WrapOfNegative(a: real, b: real)
    requires b > 0.0 && a < 0.0
    ensures Rem(Rem(a, b) + b, b) == Mod(a, b)
  {
    var t := Trunc(a / b);
    var r := Rem(a, b);
    assert r == a - b * t as real;
    assert 0.0 < r + b <= b;
    if r + b == b {
      FloorDivOf(b, b, 1);
      assert Rem(b, b) == b - b * 1 as real;
      FloorDivOf(a, b, t);
    } else {
      FloorDivOf(r + b, b, 0);
      assert Rem(r + b, b) == r + b;
      assert b * (t - 1) as real == b * t as real - b;
      FloorDivOf(a, b, t - 1);
    }
  }


  /** A shift of the argument by whole multiples of b leaves the remainder unchanged. */
  lemma ModShift(a: real, b: real, k: int)
    requires b > 0.0
    ensures Mod(a + b * k as real, b) == Mod(a, b)
  {
    var f := (a / b).Floor;
    FloorDivBounds(a, b, f);
    assert b * (f + k) as real == b * f as real + b * k as real;
    FloorDivOf(a + b * k as real, b, f + k);
  }

  /** Adding to a remainder and reducing again is reducing the plain sum. */
  lemma ModOfShiftedMod(a: real, c: real, b: real)
    requires b > 0.0
    ensures Mod(Mod(a, b) + c, b) == Mod(a + c, b)
  {
    var f := (a / b).Floor;
    var m := b * f as real;
    assert Mod(a, b) == a - m;
    assert b * (-f) as real == -m;
    ModShift(a + c, b, -f);
    assert (a + c) + b * (-f) as real == Mod(a, b) + c;
  }

  /** The Euclidean remainder of a value already in [0, b) is the value itself. */
  lemma ModOfInRange(a: real, b: real)
    requires 0.0 <= a < b
    ensures Mod(a, b) == a
  {
    FloorDivOf(a, b, 0);
  }

  /** The numeric `%` operator on integral operands (`Math.round(x) % 8` and the like). */
  function IntRem(a: int, b: int): (r: int)
    requires b > 0
    ensures 0 <= a ==> r == a % b
    ensures a < 0 ==> -b < r <= 0
  {
    if a >= 0 then a % b else -((-a) % b)
  }
}
