/** The C integer types the kernels are written in, and the arithmetic the
    AArch64 target performs on them: 32-bit two's-complement wrap-around and
    division and remainder that truncate toward zero. */
module MachineInt {

  const TwoTo31: int := 0x8000_0000
  const TwoTo32: int := 0x1_0000_0000

  /** C `short` (int16_t). */
  type Short = x: int | -0x8000 <= x < 0x8000

  /** C `int` (int32_t), also the type of one lane of `int32x4_t`. */
  type Int32 = x: int | -0x8000_0000 <= x < 0x8000_0000

  predicate IsInt32(x: int) {
    -0x8000_0000 <= x < 0x8000_0000
  }

  /** The 32-bit two's-complement value whose bit pattern is the low 32 bits
      of `x`: what a 32-bit add or multiply-accumulate leaves in a register.
      It is `x` moved into the `int` range by whole multiples of 2^32. */
  function Wrap32(x: int): Int32
    decreases if x < -TwoTo31 then -x else if x < TwoTo31 then 0 else x
  {
    if x < -TwoTo31 then Wrap32(x + TwoTo32)
    else if x < TwoTo31 then x
    else Wrap32(x - TwoTo32)
  }

  /** How many times `Wrap32` adds 2^32 to reach the `int` range (negative
      when it subtracts). */
  function WrapCount(x: int): int
    decreases if x < -TwoTo31 then -x else if x < TwoTo31 then 0 else x
  {
    if x < -TwoTo31 then WrapCount(x + TwoTo32) + 1
    else if x < TwoTo31 then 0
    else WrapCount(x - TwoTo32) - 1
  }

  /** The conversion of an `int` to `short`: the 16-bit two's-complement value
      whose bit pattern is the low 16 bits of `x` (modular since C++20, and
      what AArch64 compilers do before it). */
  function Wrap16(x: int): Short {
    (x + 0x8000) % 0x1_0000 - 0x8000
  }

  /** A value that fits in a `short` is left alone by the conversion. */
  lemma Wrap16FixesShort(x: int)
    requires -0x8000 <= x < 0x8000
    ensures Wrap16(x) == x
  {
  }

  /** A 32-bit add, as the ADD instruction performs it. */
  function Add32(x: int, y: int): Int32 {
    Wrap32(x + y)
  }

  /** A widening multiply-accumulate into a 32-bit lane, as SMLAL performs it. */
  function MulAdd32(acc: int, x: int, y: int): Int32 {
    Wrap32(acc + x * y)
  }

  /** A value that fits in an `int` is left alone by the wrap. */
  lemma WrapFixesInt32(x: int)
    requires IsInt32(x)
    ensures Wrap32(x) == x
  {
  }

  /** `Wrap32(x)` differs from `x` by a whole multiple of 2^32. */
  lemma {:induction false} WrapDecompose(x: int)
    ensures Wrap32(x) == x + TwoTo32 * WrapCount(x)
    decreases if x < -TwoTo31 then -x else if x < TwoTo31 then 0 else x
  {
    if x < -TwoTo31 {
      WrapDecompose(x + TwoTo32);
    } else if x >= TwoTo31 {
      WrapDecompose(x - TwoTo32);
    }
  }

  /** The wrap is the familiar `(x + 2^31) mod 2^32 - 2^31`. */
  lemma WrapIsModular(x: int)
    ensures Wrap32(x) == (x + TwoTo31) % TwoTo32 - TwoTo31
  {
    WrapDecompose(x);
    var c := WrapCount(x);
    assert x + TwoTo31 == TwoTo32 * -c + (Wrap32(x) + TwoTo31);
    ModUnique(x + TwoTo31, -c, Wrap32(x) + TwoTo31);
  }

  lemma ModUnique(n: int, q: int, r: int)
    requires 0 <= r < TwoTo32 && n == TwoTo32 * q + r
    ensures n % TwoTo32 == r
  {
  }

  /** Adding 2^32 does not change the wrapped value. */
  lemma WrapStep(z: int)
    ensures Wrap32(z + TwoTo32) == Wrap32(z)
  {
  }

  /** Adding any multiple of 2^32 does not change the wrapped value. */
  lemma {:induction false} WrapShift(z: int, d: int)
    ensures Wrap32(z + TwoTo32 * d) == Wrap32(z)
    decreases if d < 0 then -d else d
  {
    if d > 0 {
      WrapShift(z, d - 1);
      WrapStep(z + TwoTo32 * (d - 1));
    } else if d < 0 {
      WrapShift(z, d + 1);
      WrapStep(z + TwoTo32 * d);
    }
  }

  /** Two integers wrap to the same 32-bit value exactly when they agree
      modulo 2^32. */
  lemma WrapEqIff(x: int, y: int)
    ensures Wrap32(x) == Wrap32(y) <==> (x - y) % TwoTo32 == 0
  {
    WrapDecompose(x);
    WrapDecompose(y);
    var cx, cy := WrapCount(x), WrapCount(y);
    if Wrap32(x) == Wrap32(y) {
      assert x - y == TwoTo32 * (cy - cx) + 0;
      ModUnique(x - y, cy - cx, 0);
    }
    if (x - y) % TwoTo32 == 0 {
      var d := (x - y) / TwoTo32;
      assert x == y + TwoTo32 * d;
      WrapShift(y, d);
    }
  }

  /** Adding wrapped operands wraps to the same value as adding the exact
      ones: the order and grouping of 32-bit additions does not matter. */
  lemma WrapAdd(x: int, x': int, y: int, y': int)
    requires Wrap32(x) == Wrap32(x') && Wrap32(y) == Wrap32(y')
    ensures Wrap32(x + y) == Wrap32(x' + y')
  {
    WrapDecompose(x);
    WrapDecompose(x');
    WrapDecompose(y);
    WrapDecompose(y');
    var d := WrapCount(x) + WrapCount(y) - WrapCount(x') - WrapCount(y');
    assert x' + y' == (x + y) + TwoTo32 * d;
    WrapShift(x + y, d);
  }

  /** Adding two wrapped values wraps to the wrapped exact sum. */
  lemma AddWrapped(x: int, X: int, y: int, Y: int)
    requires x == Wrap32(X) && y == Wrap32(Y)
    ensures Add32(x, y) == Wrap32(X + Y)
  {
    WrapAdd(x, X, y, Y);
  }

  /** Four wrapped values add up, modulo 2^32, to their exact sum. */
  lemma WrapSum4(c0: int, c1: int, c2: int, c3: int, x0: int, x1: int, x2: int, x3: int)
    requires c0 == Wrap32(x0) && c1 == Wrap32(x1) && c2 == Wrap32(x2) && c3 == Wrap32(x3)
    ensures Wrap32(c0 + c1 + c2 + c3) == Wrap32(x0 + x1 + x2 + x3)
  {
    WrapAdd(c0, x0, c1, x1);
    WrapAdd(c0 + c1, x0 + x1, c2, x2);
    WrapAdd(c0 + c1 + c2, x0 + x1 + x2, c3, x3);
  }

  /** 32-bit addition is associative. */
  lemma Add32Associates(x: int, y: int, z: int)
    ensures Add32(Add32(x, y), z) == Add32(x, Add32(y, z))
  {
    WrapAdd(Wrap32(x + y), x + y, z, z);
    WrapAdd(x, x, Wrap32(y + z), y + z);
  }

  /** C++ `/` on `int`: the quotient truncated toward zero (C++ [expr.mul]). */
  function CDiv(x: int, k: int): int
    requires k > 0
  {
    if 0 <= x then x / k else -((-x) / k)
  }

  /** C++ `%` on `int`: the remainder that goes with `CDiv`. */
  function CRem(x: int, k: int): int
    requires k > 0
  {
    x - k * CDiv(x, k)
  }

  /** C++ division truncates toward zero, and `(x / k) * k + x % k == x` with
      the remainder taking the sign of `x`: `k * CDiv(x, k)` is the multiple of
      `k` nearest to zero on the same side as `x`. */
  lemma {:induction false} TruncatingDivision(x: int, k: int)
    requires k > 0
    ensures k * CDiv(x, k) + CRem(x, k) == x
    ensures 0 <= x ==> 0 <= k * CDiv(x, k) <= x && 0 <= CRem(x, k) < k
    ensures x < 0 ==> x <= k * CDiv(x, k) <= 0 && -k < CRem(x, k) <= 0
  {
    if 0 <= x {
      DivisionOfNonnegative(x, k);
    } else {
      DivisionOfNegative(x, k);
    }
  }

  lemma DivisionOfNonnegative(x: int, k: int)
    requires k > 0 && 0 <= x
    ensures 0 <= k * CDiv(x, k) <= x && 0 <= CRem(x, k) < k
  {
    var m := x / k;
    assert CDiv(x, k) == m;
    MulNonneg(k, m);
  }

  lemma DivisionOfNegative(x: int, k: int)
    requires k > 0 && x < 0
    ensures x <= k * CDiv(x, k) <= 0 && -k < CRem(x, k) <= 0
  {
    var m := (-x) / k;
    assert CDiv(x, k) == -m;
    MulNonneg(k, m);
    MulNegate(k, m);
  }

  lemma MulNonneg(a: int, b: int)
    requires 0 <= a && 0 <= b
    ensures 0 <= a * b
  {
  }

  lemma MulNegate(a: int, b: int)
    ensures a * -b == -(a * b)
  {
  }
}
