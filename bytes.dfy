/** Fixed-width integers and the small pieces of C and Arduino arithmetic the
    effects rely on: byte wrap-around, truncating division, Arduino `map`
    and the wrapping millisecond clock. */
module Bytes {

  /** An 8-bit unsigned value (`byte`, `uint8_t`). */
  type byte = x: int | 0 <= x < 256

  const U32_RANGE: int := 0x1_0000_0000

  /** A 32-bit unsigned value (`unsigned long` on the target). */
  type u32 = x: int | 0 <= x < U32_RANGE

  /** Storing an int into a byte keeps it modulo 256 (C unsigned conversion). */
  function Wrap8(v: int): (r: byte)
    ensures 0 <= v < 256 ==> r == v
    ensures (r - v) % 256 == 0
  {
    v % 256
  }

  function Abs(v: int): (r: nat)
    ensures r == v || r == -v
  {
    if v < 0 then -v else v
  }

  /** C integer division: rounds toward zero, unlike Dafny's Euclidean `/`. */
  function CDiv(a: int, b: int): (r: int)
    requires b != 0
    ensures a >= 0 && b > 0 ==> r == a / b
    ensures a < 0 && b > 0 ==> r == -((-a) / b)
  {
    if (a < 0) != (b < 0) then -(Abs(a) / Abs(b)) else Abs(a) / Abs(b)
  }

  /** Arduino `map(x, inMin, inMax, outMin, outMax)` evaluated with C division.
      Its properties are stated as lemmas rather than ensures, so that its
      nonlinear terms stay out of the proofs that merely use it: the range
      ends in `ArduinoMapEnds`, and each use's values and wrap-around in the
      lemmas beside that use (`HoldTimeRange`, `BrightnessScale`,
      `TargetExpansionScale`, ...). */
  function ArduinoMap(x: int, inMin: int, inMax: int, outMin: int, outMax: int): int
    requires inMax != inMin
  {
    CDiv((x - inMin) * (outMax - outMin), inMax - inMin) + outMin
  }

  /** `map` sends the ends of the input range to the ends of the output range. */
  lemma ArduinoMapEnds(inMin: int, inMax: int, outMin: int, outMax: int)
    requires inMax != inMin
    ensures ArduinoMap(inMin, inMin, inMax, outMin, outMax) == outMin
    ensures ArduinoMap(inMax, inMin, inMax, outMin, outMax) == outMax
  {
    CDivExact(outMax - outMin, inMax - inMin);
  }

  /** C division of an exact multiple gives the other factor, whatever the signs. */
  lemma CDivExact(k: int, d: int)
    requires d != 0
    ensures CDiv(d * k, d) == k
  {
    if k != 0 {
      var a, m := d * k, Abs(d) * Abs(k);
      AbsMul(d, k);
      assert a < 0 <==> (d < 0) != (k < 0);
      DivModUnique(m, Abs(d), Abs(k), 0);
      assert Abs(a) / Abs(d) == Abs(k);
    }
  }

  lemma AbsMul(d: int, k: int)
    ensures Abs(d * k) == Abs(d) * Abs(k)
    ensures d * k < 0 <==> (d < 0 && k > 0) || (d > 0 && k < 0)
  {
    if d < 0 && k < 0 {
      assert d * k == (-d) * (-k);
    } else if d < 0 {
      assert d * k == -((-d) * k);
    } else if k < 0 {
      assert d * k == -(d * (-k));
    }
  }

  /** `now - last` on `unsigned long`, which wraps when the clock does. */
  function Elapsed(now: u32, last: u32): (r: u32)
    ensures now >= last ==> r == now - last
    ensures now < last ==> r == now - last + U32_RANGE
  {
    (now - last) % U32_RANGE
  }

  /** 2 to the power i. */
  function Pow2(i: nat): (r: nat)
    ensures r >= 1
  {
    if i == 0 then 1 else 2 * Pow2(i - 1)
  }

  /** `bitRead(v, i)`: bit i of v. */
  predicate BitRead(v: byte, i: nat) {
    (v / Pow2(i)) % 2 == 1
  }

  /** `BitRead` reads binary digits: bit 0 is the parity, bit i + 1 is bit i
      of v halved, and a byte has no bit from 8 on. */
  lemma {:induction false} BitReadDigits(v: byte, i: nat)
    ensures BitRead(v, 0) <==> v % 2 == 1
    ensures BitRead(v, i + 1) <==> BitRead(v / 2, i)
    ensures i >= 8 ==> !BitRead(v, i)
  {
    DivDiv(v, 2, Pow2(i));
    if i >= 8 {
      Pow2AtLeast(i);
      DivModUnique(v, Pow2(i), 0, v);
    }
  }

  lemma {:induction false} Pow2AtLeast(i: nat)
    requires i >= 8
    ensures Pow2(i) >= 256
  {
    if i > 8 {
      Pow2AtLeast(i - 1);
    }
  }

  /** Dividing by b and then by c is dividing by b * c. */
  lemma DivDiv(a: nat, b: nat, c: nat)
    requires b > 0 && c > 0
    ensures a / (b * c) == (a / b) / c
  {
    var q1, r1 := a / b, a % b;
    var q2, r2 := q1 / c, q1 % c;
    assert a == b * q1 + r1;
    assert q1 == c * q2 + r2;
    assert b * q1 == (b * c) * q2 + b * r2 by {
      assert b * (c * q2 + r2) == b * (c * q2) + b * r2;
    }
    MulAtMost(b, r2, c - 1);
    assert b * (c - 1) == b * c - b;
    DivModUnique(a, b * c, q2, b * r2 + r1);
  }

  /** Clamping an int into [lo, hi], as the effects' paired `if` tests do. */
  function Clamp(v: int, lo: int, hi: int): (r: int)
    requires lo <= hi
    ensures lo <= r <= hi
    ensures lo <= v <= hi ==> r == v
    ensures v < lo ==> r == lo
    ensures v > hi ==> r == hi
  {
    if v > hi then hi else if v < lo then lo else v
  }

  lemma MulAtMost(b: nat, x: nat, y: nat)
    requires x <= y
    ensures b * x <= b * y
  {
    assert b * y == b * x + b * (y - x);
  }

  lemma MulAtLeast(d: int, k: int)
    requires d > 0 && k >= 1
    ensures d * k >= d
  {
  }

  /** Euclidean quotient and remainder are determined by `a == d * q + r`. */
  lemma DivModUnique(a: int, d: int, q: int, r: int)
    requires d > 0 && 0 <= r < d && a == d * q + r
    ensures a / d == q && a % d == r
  {
    var q0, r0 := a / d, a % d;
    assert a == d * q0 + r0;
    if q0 > q {
      MulAtLeast(d, q0 - q);
    } else if q0 < q {
      MulAtLeast(d, q - q0);
    }
  }

  /** Stepping e by one moves its remainder on by one, or wraps it to 0 and
      moves the quotient on. */
  lemma StepDivMod(e: nat, d: nat)
    requires d > 0
    ensures e % d < d - 1 ==> (e + 1) % d == e % d + 1 && (e + 1) / d == e / d
    ensures e % d == d - 1 ==> (e + 1) % d == 0 && (e + 1) / d == e / d + 1
  {
    var q, r := e / d, e % d;
    assert e == d * q + r;
    if r < d - 1 {
      DivModUnique(e + 1, d, q, r + 1);
    } else {
      assert e + 1 == d * (q + 1);
      DivModUnique(e + 1, d, q + 1, 0);
    }
  }

  /** Reducing a summand first does not change a sum modulo d. */
  lemma ModAddLeft(a: nat, b: nat, d: nat)
    requires d > 0
    ensures (a % d + b) % d == (a + b) % d
  {
    var q := a / d;
    assert a == d * q + a % d;
    var q2, r2 := (a % d + b) / d, (a % d + b) % d;
    assert a % d + b == d * q2 + r2;
    assert a + b == d * (q + q2) + r2;
    DivModUnique(a + b, d, q + q2, r2);
  }
}
