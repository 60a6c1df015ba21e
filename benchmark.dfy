/** The inputs the benchmark driver of `native-lib.cpp` feeds to the kernels,
    and what the kernels return on them. The driver builds two ramps of
    `short`s, `(0, 1, ..., 1026)` and `(100, 101, ..., 1126)`, and calls the
    kernels on them; timing, tracing, thread affinity and the report string
    are not part of this model. */
module Benchmark {
  import opened MachineInt
  import opened DotSpec
  import opened DotProd

  /** The ramp `generateRamp(startValue, len)` fills in, element by element:
      element `i` is `startValue + i` converted to `short`. */
  function Ramp(startValue: Short, len: nat): (r: seq<Short>)
    ensures |r| == len
  {
    if len == 0 then [] else Ramp(startValue, len - 1) + [Wrap16(startValue + len - 1)]
  }

  /** Element `i` of a ramp is `startValue + i` converted to `short`, and
      when the ramp stays below 2^15 it is exactly `startValue + i`. */
  lemma {:induction false} RampElements(startValue: Short, len: nat)
    ensures forall i :: 0 <= i < len ==> Ramp(startValue, len)[i] == Wrap16(startValue + i)
    ensures startValue + len <= 0x8000 ==>
              forall i :: 0 <= i < len ==> Ramp(startValue, len)[i] == startValue + i
  {
    if len > 0 {
      RampElements(startValue, len - 1);
      if startValue + len <= 0x8000 {
        Wrap16FixesShort(startValue + len - 1);
      }
    }
  }

  /** `generateRamp`: a fresh `short` array of `len` elements filled by a
      loop with `startValue + i`. The C `new short[len]` needs `len >= 0`. */
  method GenerateRamp(startValue: Short, len: Short) returns (ramp: array<Short>)
    requires 0 <= len
    ensures fresh(ramp)
    ensures ramp[..] == Ramp(startValue, len)
  {
    ramp := new Short[len];
    var i: Short := 0;
    while i < len
      invariant 0 <= i <= len
      invariant ramp[..i] == Ramp(startValue, i)
    {
      ramp[i] := Wrap16(startValue + i);
      assert ramp[..i + 1] == ramp[..i] + [ramp[i]];
      i := i + 1;
    }
    assert ramp[..] == ramp[..len];
  }

  /** The dot product of the ramps `(0, 1, ...)` and `(c, c + 1, ...)` over
      the first `n` elements is `c * Σ i + Σ i^2`, that is
      `(3c n(n-1) + (n-1) n (2n-1)) / 6`; with `c >= 0` every product is
      non-negative, so the sum of magnitudes is the same number. */
  lemma {:induction false} RampDot(a: seq<int>, b: seq<int>, c: int, n: int)
    requires 0 <= c && 0 <= n <= |a| && n <= |b|
    requires forall i :: 0 <= i < n ==> a[i] == i && b[i] == c + i
    ensures 6 * Dot(a, b, 0, n) == SixRampDot(c, n)
    ensures AbsDot(a, b, 0, n) == Dot(a, b, 0, n)
  {
    if n > 0 {
      var j := n - 1;
      RampDot(a, b, c, j);
      var t := a[j] * b[j];
      assert 0 <= t && SixRampDot(c, n) == SixRampDot(c, j) + 6 * t by {
        MulNonneg(j, c + j);
        SquareSumStep(c, j);
      }
    }
  }

  /** Six times `c * Σ_{i<n} i + Σ_{i<n} i^2`, in closed form. */
  function SixRampDot(c: int, n: int): int {
    3 * c * n * (n - 1) + (n - 1) * n * (2 * n - 1)
  }

  /** One step of the closed form: from `j` to `j + 1` elements it grows by
      six times the product `j * (c + j)`. */
  lemma SquareSumStep(c: int, j: int)
    ensures SixRampDot(c, j + 1) == SixRampDot(c, j) + 6 * (j * (c + j))
  {
    assert 3 * c * (j + 1) * j == 3 * c * j * (j - 1) + 6 * c * j;
    assert j * (j + 1) * (2 * j + 1) == (j - 1) * j * (2 * j - 1) + 6 * (j * j);
  }

  /** The driver's inputs: on `(0, ..., 1026)` and `(100, ..., 1126)` the
      dot product is 413226801, which fits in an `int` together with every
      running sum, so no 32-bit addition of any kernel overflows. */
  lemma DriverRampsDot(a: seq<int>, b: seq<int>)
    requires |a| == 1027 && |b| == 1027
    requires forall i :: 0 <= i < 1027 ==> a[i] == i && b[i] == 100 + i
    ensures Dot(a, b, 0, 1027) == 413226801
    ensures forall i :: 0 <= i <= 1027 ==> IsInt32(Dot(a, b, 0, i))
    ensures Wrap32(Dot(a, b, 0, 1027)) == 413226801
  {
    assert Dot(a, b, 0, 1027) == AbsDot(a, b, 0, 1027) == 413226801 by {
      RampDot(a, b, 100, 1027);
      assert SixRampDot(100, 1027) == 6 * 413226801;
    }
    PrefixesFitInt32(a, b, 1027);
  }

  /** Every kernel on the same inputs, in the driver's order followed by the
      two SMLAL2 kernels the driver does not call. All of them return the
      same value, and it is the exact dot product when no sum of magnitudes
      of the products leaves the `int` range. */
  method RunKernels(a: seq<Short>, b: seq<Short>, len: Short) returns (results: seq<Int32>)
    requires len <= |a| && len <= |b|
    requires CRem(len, 4) >= 0 && CRem(len, 8) >= 0 && CRem(len, 12) >= 0
    requires CRem(len, 16) >= 0 && CRem(len, 24) >= 0
    ensures |results| == 8
    ensures forall k :: 0 <= k < 8 ==> results[k] == Wrap32(Dot(a, b, 0, len))
    ensures 0 <= len && AbsDot(a, b, 0, len) < TwoTo31 ==>
              forall k :: 0 <= k < 8 ==> results[k] == Dot(a, b, 0, len)
  {
    var scalar := DotProductScalar(a, b, len);
    var neon := DotProductNeon(a, b, len);
    var neon2 := DotProductNeon2(a, b, len);
    var neon3 := DotProductNeon3(a, b, len);
    var neon4 := DotProductNeon4(a, b, len);
    var neon6 := DotProductNeon6(a, b, len);
    var twoWide := DotProductNeonWithSmlal2TwoWide(a, b, len);
    var fourWide := DotProductNeonWithSmlal2FourWide(a, b, len);
    results := [scalar, neon, neon2, neon3, neon4, neon6, twoWide, fourWide];
    if 0 <= len && AbsDot(a, b, 0, len) < TwoTo31 {
      PrefixesFitInt32(a, b, len);
    }
  }

  /** The driver: build the two ramps of length 1027 and run every kernel on
      them; each one returns 413226801. */
  method DriverResults() returns (results: seq<Int32>)
    ensures |results| == 8
    ensures forall k :: 0 <= k < 8 ==> results[k] == 413226801
  {
    var ramp1 := GenerateRamp(0, 1027);
    var ramp2 := GenerateRamp(100, 1027);
    RampElements(0, 1027);
    RampElements(100, 1027);
    DriverRampsDot(ramp1[..], ramp2[..]);
    results := RunKernels(ramp1[..], ramp2[..], 1027);
  }
}
