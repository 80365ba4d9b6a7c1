/** Integer arithmetic of the ESP32 target: 32-bit `int`, 8-bit `byte`,
    arithmetic right shifts and C's truncating division. Dafny's `int` is
    unbounded, so every width the firmware relies on is written out here. */
module Fixed {

  const Int32Min: int := -0x8000_0000
  const Int32Max: int := 0x7FFF_FFFF

  predicate IsInt32(x: int) { Int32Min <= x <= Int32Max }

  /** An `unsigned char` value. */
  predicate IsByte(x: int) { 0 <= x < 256 }

  /** A sample of one of the 8-bit wavetables. */
  predicate IsInt8(x: int) { -128 <= x < 128 }

  function Pow2(n: nat): (p: nat)
    ensures p >= 1
  {
    if n == 0 then 1 else 2 * Pow2(n - 1)
  }

  /** `x >> n` on a signed `int`: an arithmetic shift, which rounds toward
      minus infinity (so `-1 >> 8 == -1`, not 0). */
  function Asr(x: int, n: nat): (r: int)
    ensures r * Pow2(n) <= x < r * Pow2(n) + Pow2(n)
  {
    x / Pow2(n)
  }

  /** C's `a / b` for a positive divisor: the quotient rounds toward zero. */
  function CDiv(a: int, b: int): (q: int)
    requires b > 0
    ensures a >= 0 ==> 0 <= q * b <= a < q * b + b
    ensures a < 0 ==> q * b - b < a <= q * b <= 0
  {
    if a >= 0 then
      DivBounds(a, b);
      a / b
    else
      DivBounds(-a, b);
      -((-a) / b)
  }

  lemma DivBounds(a: nat, b: int)
    requires b > 0
    ensures 0 <= (a / b) * b <= a < (a / b) * b + b
  {
    assert a == (a / b) * b + a % b;
  }

  /** Conversion of an `int` to `byte`: reduction modulo 256. */
  function ToByte(x: int): (r: int)
    ensures IsByte(r)
  {
    x % 256
  }

  /** A value that fits in a byte is stored unchanged. */
  lemma ByteIdentity(x: int)
    requires IsByte(x)
    ensures ToByte(x) == x
  {
  }

  /** What `strtol` returns for a value outside the range of `long`. */
  function SaturateInt32(x: int): (r: int)
    ensures IsInt32(r)
    ensures IsInt32(x) ==> r == x
    ensures x > Int32Max ==> r == Int32Max
    ensures x < Int32Min ==> r == Int32Min
  {
    if x > Int32Max then Int32Max else if x < Int32Min then Int32Min else x
  }

  function Min(a: int, b: int): int { if a <= b then a else b }

  function Abs(x: int): nat { if x < 0 then -x else x }

  /** A product of two bounded factors is bounded by the product of the bounds. */
  lemma MulBound(a: int, boundA: nat, b: int, boundB: nat)
    requires Abs(a) <= boundA && Abs(b) <= boundB
    ensures Abs(a * b) <= boundA * boundB
  {
    assert Abs(a * b) == Abs(a) * Abs(b);
    MulMono(Abs(a), boundA, Abs(b), boundB);
  }

  lemma MulMono(x: nat, x': nat, y: nat, y': nat)
    requires x <= x' && y <= y'
    ensures x * y <= x' * y'
  {
    assert x * y <= x' * y;
    assert x' * y <= x' * y';
  }
}
