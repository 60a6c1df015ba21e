/** The dot-product kernels of `DotProd.cpp`: the scalar reference and the
    seven Neon variants. Each takes two read-only `short` buffers and a length
    and returns the 32-bit sum of the element-wise products.

    The two C pointers `inputArray1` and `inputArray2` always advance together,
    so one cursor `p` stands for both: `inputArray1 == a + p` and
    `inputArray2 == b + p`. Every 32-bit addition wraps modulo 2^32; with that,
    each kernel returns exactly `Wrap32(Dot(a, b, 0, len))`, so all of them
    agree with the scalar kernel on every input they accept, and equal the
    exact dot product whenever it fits in an `int` (`DotSpec.PrefixesFitInt32`). */
module DotProd {
  import opened MachineInt
  import opened Neon
  import opened DotSpec

  // ---- Accumulator lanes ----

  /** `acc` is the accumulator at offset `o` of a kernel that reads `k`
      elements per iteration and whose cursors stand at `p`: its lane `j`
      holds, modulo 2^32, the strided sum `LaneSum(a, b, o + j, k, p)`. */
  ghost predicate Collects(a: seq<Short>, b: seq<Short>, acc: Int32x4, k: int, p: int, o: int)
    requires 0 <= o && o + 4 <= k && 0 <= p && p <= |a| && p <= |b|
  {
    forall j {:trigger Lane(acc, j)} :: 0 <= j < 4 ==> Lane(acc, j) == Wrap32(LaneSum(a, b, o + j, k, p))
  }

  /** Lane `j` of an accumulator. Naming it keeps the lane facts of
      `Collects` from being unfolded wherever a lane is read. */
  ghost function Lane(acc: Int32x4, j: int): Int32
    requires 0 <= j < 4
  {
    acc[j]
  }

  /** `vdupq_n_s32(0)` is an accumulator that has collected nothing yet. */
  lemma ZeroCollects(a: seq<Short>, b: seq<Short>, k: int, o: int)
    requires 0 <= o && o + 4 <= k
    ensures Collects(a, b, VdupqNS32(0), k, 0, o)
  {
  }

  /** One `vmlal_s16` of the four elements at offset `o` of the current
      iteration's block keeps the accumulator's lanes equal to their strided
      sums once the cursors have moved on by `k`. */
  lemma MlalStep(a: seq<Short>, b: seq<Short>, acc: Int32x4, k: int, p: int, o: int)
    requires 0 <= o && o + 4 <= k && 0 <= p && p + k <= |a| && p + k <= |b|
    requires Collects(a, b, acc, k, p, o)
    ensures Collects(a, b, VmlalS16(acc, Vld1S16(a, p + o), Vld1S16(b, p + o)), k, p + k, o)
  {
    var x, y := Vld1S16(a, p + o), Vld1S16(b, p + o);
    var acc' := VmlalS16(acc, x, y);
    forall j | 0 <= j < 4
      ensures acc'[j] == Wrap32(LaneSum(a, b, o + j, k, p + k))
    {
      assert x[j] == a[p + o + j] && y[j] == b[p + o + j];
      var t := x[j] as int * y[j];
      WrapAdd(Lane(acc, j), LaneSum(a, b, o + j, k, p), t, t);
    }
  }

  /** `MlalStep` for the low half of a 128-bit load (`vget_low_s16` then
      `vmlal_s16`), the load being at offset `o` of the block. */
  lemma MlalLowStep(a: seq<Short>, b: seq<Short>, acc: Int32x4, k: int, p: int, o: int)
    requires 0 <= o && o + 8 <= k && 0 <= p && p + k <= |a| && p + k <= |b|
    requires Collects(a, b, acc, k, p, o)
    ensures Collects(a, b, VmlalS16(acc, VgetLowS16(Vld1qS16(a, p + o)), VgetLowS16(Vld1qS16(b, p + o))), k, p + k, o)
  {
    LowHalfOfWideLoad(a, p + o);
    LowHalfOfWideLoad(b, p + o);
    MlalStep(a, b, acc, k, p, o);
  }

  /** `MlalStep` for the high half of a 128-bit load (`vmlal_high_s16`), the
      load being at offset `o` of the block: the accumulator collects the
      lanes at offsets `o + 4 .. o + 7`. */
  lemma MlalHighStep(a: seq<Short>, b: seq<Short>, acc: Int32x4, k: int, p: int, o: int)
    requires 0 <= o && o + 8 <= k && 0 <= p && p + k <= |a| && p + k <= |b|
    requires Collects(a, b, acc, k, p, o + 4)
    ensures Collects(a, b, VmlalHighS16(acc, Vld1qS16(a, p + o), Vld1qS16(b, p + o)), k, p + k, o + 4)
  {
    HighHalfOfWideLoad(acc, a, b, p + o);
    MlalStep(a, b, acc, k, p, o + 4);
  }

  /** The four lanes of one accumulator add up, modulo 2^32, to its four
      strided sums. */
  lemma AccumulatorTotal(a: seq<Short>, b: seq<Short>, acc: Int32x4, k: int, p: int, o: int)
    requires 0 <= o && o + 4 <= k && 0 <= p && p <= |a| && p <= |b|
    requires Collects(a, b, acc, k, p, o)
    ensures Wrap32(LaneSumOf(acc)) == Wrap32(LaneTotal(a, b, k, p, o + 4) - LaneTotal(a, b, k, p, o))
  {
    var l0, l1, l2, l3 := LaneSum(a, b, o, k, p), LaneSum(a, b, o + 1, k, p), LaneSum(a, b, o + 2, k, p), LaneSum(a, b, o + 3, k, p);
    assert Lane(acc, 0) == Wrap32(l0) && Lane(acc, 1) == Wrap32(l1) && Lane(acc, 2) == Wrap32(l2) && Lane(acc, 3) == Wrap32(l3);
    WrapSum4(acc[0], acc[1], acc[2], acc[3], l0, l1, l2, l3);
    assert LaneTotal(a, b, k, p, o + 2) == LaneTotal(a, b, k, p, o) + l0 + l1;
    assert LaneTotal(a, b, k, p, o + 4) == LaneTotal(a, b, k, p, o + 2) + l2 + l3;
  }

  /** The accumulators of a `k`-element kernel, the one at index `m` covering
      offsets `4m .. 4m+3`, hold between them the first `4n` lane sums. */
  lemma {:induction false} AccumulatorsHoldLanes(a: seq<Short>, b: seq<Short>, accs: seq<Int32x4>, k: int, p: int, n: int)
    requires 0 <= n <= |accs| && 4 * |accs| == k && 0 <= p && p <= |a| && p <= |b|
    requires forall m :: 0 <= m < |accs| ==> Collects(a, b, accs[m], k, p, 4 * m)
    ensures Wrap32(AllLanes(accs[..n])) == Wrap32(LaneTotal(a, b, k, p, 4 * n))
  {
    if n > 0 {
      var o := 4 * (n - 1);
      AccumulatorsHoldLanes(a, b, accs, k, p, n - 1);
      AccumulatorTotal(a, b, accs[n - 1], k, p, o);
      assert accs[..n][..n - 1] == accs[..n - 1];
      assert AllLanes(accs[..n]) == AllLanes(accs[..n - 1]) + LaneSumOf(accs[n - 1]);
      var before, block := LaneTotal(a, b, k, p, o), LaneTotal(a, b, k, p, o + 4) - LaneTotal(a, b, k, p, o);
      WrapAdd(AllLanes(accs[..n - 1]), before, LaneSumOf(accs[n - 1]), block);
    }
  }

  /** Combining a kernel's accumulators with `vaddq_s32` and reducing with
      `vaddvq_s32` yields, modulo 2^32, the dot product of the `k * i` elements
      the main loop has consumed. */
  lemma KernelReduction(a: seq<Short>, b: seq<Short>, accs: seq<Int32x4>, k: int, i: int)
    requires accs != [] && 4 * |accs| == k && 0 <= i && k * i <= |a| && k * i <= |b|
    requires forall m :: 0 <= m < |accs| ==> Collects(a, b, accs[m], k, k * i, 4 * m)
    ensures VaddvqS32(Combine(accs)) == Wrap32(Dot(a, b, 0, k * i))
  {
    CombineReduces(accs);
    AccumulatorsHoldLanes(a, b, accs, k, k * i, |accs|);
    assert accs[..|accs|] == accs;
    LanesCoverPrefix(a, b, k, i);
  }

  /** The reduction of a kernel with 2 accumulators: `vaddq_s32` of the
      first two, then of the running sum with each further one, in order, and
      `vaddvq_s32` of the result, yields modulo 2^32 the dot product of the
      `8 * i` elements the main loop has consumed. */
  lemma ReduceTwo(a: seq<Short>, b: seq<Short>, u1: Int32x4, u2: Int32x4, i: int)
    requires 0 <= i && 8 * i <= |a| && 8 * i <= |b|
    requires Collects(a, b, u1, 8, 8 * i, 0)
    requires Collects(a, b, u2, 8, 8 * i, 4)
    ensures VaddvqS32(VaddqS32(u1, u2)) == Wrap32(Dot(a, b, 0, 8 * i))
  {
    var accs := [u1];
    CombineSnoc(accs, u2);
    accs := accs + [u2];
    KernelReduction(a, b, accs, 8, i);
  }

  /** The reduction of a kernel with 3 accumulators: `vaddq_s32` of the
      first two, then of the running sum with each further one, in order, and
      `vaddvq_s32` of the result, yields modulo 2^32 the dot product of the
      `12 * i` elements the main loop has consumed. */
  lemma ReduceThree(a: seq<Short>, b: seq<Short>, u1: Int32x4, u2: Int32x4, u3: Int32x4, i: int)
    requires 0 <= i && 12 * i <= |a| && 12 * i <= |b|
    requires Collects(a, b, u1, 12, 12 * i, 0)
    requires Collects(a, b, u2, 12, 12 * i, 4)
    requires Collects(a, b, u3, 12, 12 * i, 8)
    ensures VaddvqS32(VaddqS32(VaddqS32(u1, u2), u3)) == Wrap32(Dot(a, b, 0, 12 * i))
  {
    var accs := [u1];
    CombineSnoc(accs, u2);
    accs := accs + [u2];
    CombineSnoc(accs, u3);
    accs := accs + [u3];
    KernelReduction(a, b, accs, 12, i);
  }

  /** The reduction of a kernel with 4 accumulators: `vaddq_s32` of the
      first two, then of the running sum with each further one, in order, and
      `vaddvq_s32` of the result, yields modulo 2^32 the dot product of the
      `16 * i` elements the main loop has consumed. */
  lemma ReduceFour(a: seq<Short>, b: seq<Short>, u1: Int32x4, u2: Int32x4, u3: Int32x4, u4: Int32x4, i: int)
    requires 0 <= i && 16 * i <= |a| && 16 * i <= |b|
    requires Collects(a, b, u1, 16, 16 * i, 0)
    requires Collects(a, b, u2, 16, 16 * i, 4)
    requires Collects(a, b, u3, 16, 16 * i, 8)
    requires Collects(a, b, u4, 16, 16 * i, 12)
    ensures VaddvqS32(VaddqS32(VaddqS32(VaddqS32(u1, u2), u3), u4)) == Wrap32(Dot(a, b, 0, 16 * i))
  {
    var accs := [u1];
    CombineSnoc(accs, u2);
    accs := accs + [u2];
    CombineSnoc(accs, u3);
    accs := accs + [u3];
    CombineSnoc(accs, u4);
    accs := accs + [u4];
    KernelReduction(a, b, accs, 16, i);
  }

  /** The reduction of a kernel with 6 accumulators: `vaddq_s32` of the
      first two, then of the running sum with each further one, in order, and
      `vaddvq_s32` of the result, yields modulo 2^32 the dot product of the
      `24 * i` elements the main loop has consumed. */
  lemma ReduceSix(a: seq<Short>, b: seq<Short>, u1: Int32x4, u2: Int32x4, u3: Int32x4, u4: Int32x4, u5: Int32x4, u6: Int32x4, i: int)
    requires 0 <= i && 24 * i <= |a| && 24 * i <= |b|
    requires Collects(a, b, u1, 24, 24 * i, 0)
    requires Collects(a, b, u2, 24, 24 * i, 4)
    requires Collects(a, b, u3, 24, 24 * i, 8)
    requires Collects(a, b, u4, 24, 24 * i, 12)
    requires Collects(a, b, u5, 24, 24 * i, 16)
    requires Collects(a, b, u6, 24, 24 * i, 20)
    ensures VaddvqS32(VaddqS32(VaddqS32(VaddqS32(VaddqS32(VaddqS32(u1, u2), u3), u4), u5), u6)) == Wrap32(Dot(a, b, 0, 24 * i))
  {
    var accs := [u1];
    CombineSnoc(accs, u2);
    accs := accs + [u2];
    CombineSnoc(accs, u3);
    accs := accs + [u3];
    CombineSnoc(accs, u4);
    accs := accs + [u4];
    CombineSnoc(accs, u5);
    accs := accs + [u5];
    CombineSnoc(accs, u6);
    accs := accs + [u6];
    KernelReduction(a, b, accs, 24, i);
  }

  // ---- The tail shared by every vector kernel ----

  /** The scalar loop every vector kernel ends with (`while (tailLength--)`):
      starting at cursor `p`, it adds `tailLength` products, one element at a
      time in increasing order, to `result`, and leaves the cursor just past
      them. */
  method Tail(a: seq<Short>, b: seq<Short>, p: int, tailLength: int, result: Int32) returns (r: Int32, q: int)
    requires 0 <= p && 0 <= tailLength && p + tailLength <= |a| && p + tailLength <= |b|
    ensures q == p + tailLength
    ensures r == Wrap32(result + Dot(a, b, p, q))
  {
    var n := tailLength;
    r, q := result, p;
    while n != 0
      invariant 0 <= n && q == p + (tailLength - n)
      invariant r == Wrap32(result + Dot(a, b, p, q))
    {
      n := n - 1;
      var t := a[q] as int * b[q];
      assert Add32(r, t) == Wrap32(result + Dot(a, b, p, q + 1)) by {
        WrapAdd(r, result + Dot(a, b, p, q), t, t);
      }
      r := Add32(r, t);
      q := q + 1;
    }
  }

  /** A main loop that ends with the cursors at `p`, followed by the tail up
      to `q`, yields the dot product of the first `q` elements; when the tail
      ends at the length, or at 0 for a length of zero or less, that is the
      kernel's result. */
  lemma MainThenTail(a: seq<Short>, b: seq<Short>, len: int, p: int, q: int, result: Int32, r: Int32)
    requires 0 <= p <= q && q <= |a| && q <= |b|
    requires q == len || (len < 0 && q == 0)
    requires result == Wrap32(Dot(a, b, 0, p)) && r == Wrap32(result + Dot(a, b, p, q))
    ensures r == Wrap32(Dot(a, b, 0, len))
    ensures len <= 0 ==> r == 0
  {
    DotSplit(a, b, 0, p, q);
    WrapAdd(result, Dot(a, b, 0, p), Dot(a, b, p, q), Dot(a, b, p, q));
  }

  /** When a main loop of `k`-element iterations stops, `iterations` being
      `len / k` in C, its cursors stand at `len - len % k`, and the tail that
      follows ends exactly at `len`; a length of zero or less, when a multiple
      of `k`, runs neither loop. */
  lemma LoopExit(a: seq<Short>, b: seq<Short>, len: int, k: int, i: int, p: int)
    requires k > 0 && CRem(len, k) >= 0 && len <= |a| && len <= |b|
    requires 0 <= i && (i <= CDiv(len, k) || i == 0) && !(i < CDiv(len, k)) && p == k * i
    ensures 0 <= p && p + CRem(len, k) <= |a| && p + CRem(len, k) <= |b|
    ensures p + CRem(len, k) == len || (len < 0 && p + CRem(len, k) == 0)
  {
    TruncatingDivision(len, k);
  }

  /** The tail length `len % k` is negative exactly when `len` is negative
      and not a multiple of `k`. A negative `tailLength` never reaches 0 under
      `while (tailLength--)`, so the tail would read past both buffers: every
      vector kernel needs `len >= 0` or `len` a multiple of its block size. */
  lemma NegativeTailLength(len: int, k: int)
    requires k > 0
    ensures CRem(len, k) < 0 <==> len < 0 && len % k != 0
  {
    if len < 0 {
      var m, r := (-len) / k, (-len) % k;
      assert CDiv(len, k) == -m;
      assert len == k * -m - r;
      if r == 0 {
        assert len == k * -m + 0;
        ModOfMultiplePlus(k, -m, 0);
      } else {
        assert len == k * (-m - 1) + (k - r);
        ModOfMultiplePlus(k, -m - 1, k - r);
      }
    } else {
      TruncatingDivision(len, k);
    }
  }

  // ---- The kernels ----

  /** `dotProductScalar`: the reference, one multiply-accumulate per element,
      left to right. A length of zero or less gives 0. */
  method DotProductScalar(a: seq<Short>, b: seq<Short>, len: Short) returns (r: Int32)
    requires len <= |a| && len <= |b|
    ensures r == Wrap32(Dot(a, b, 0, len))
    ensures len <= 0 ==> r == 0
  {
    r := 0;
    var i: Short := 0;
    while i < len
      invariant 0 <= i && (i <= len || i == 0)
      invariant r == Wrap32(Dot(a, b, 0, i))
    {
      var t := a[i] as int * b[i];
      assert Add32(r, t) == Wrap32(Dot(a, b, 0, i + 1)) by {
        WrapAdd(r, Dot(a, b, 0, i), t, t);
      }
      r := Add32(r, t);
      i := i + 1;
    }
  }

  /** `dotProductNeon`: one accumulator, 4 elements per iteration. */
  method DotProductNeon(a: seq<Short>, b: seq<Short>, len: Short) returns (r: Int32)
    requires CRem(len, 4) >= 0
    requires len <= |a| && len <= |b|
    ensures r == Wrap32(Dot(a, b, 0, len))
    ensures len <= 0 ==> r == 0
  {
    TruncatingDivision(len, 4);
    var iterations := CDiv(len, 4);
    var partialSumsNeon := VdupqNS32(0);
    ZeroCollects(a, b, 4, 0);
    var p, i := 0, 0;
    while i < iterations
      invariant 0 <= i && (i <= iterations || i == 0) && p == 4 * i
      invariant Collects(a, b, partialSumsNeon, 4, p, 0)
    {
      var v1 := Vld1S16(a, p);
      var v2 := Vld1S16(b, p);
      MlalStep(a, b, partialSumsNeon, 4, p, 0);
      partialSumsNeon := VmlalS16(partialSumsNeon, v1, v2);
      p, i := p + 4, i + 1;
    }
    LoopExit(a, b, len, 4, i, p);
    var result := VaddvqS32(partialSumsNeon);
    assert result == Wrap32(Dot(a, b, 0, p)) by {
      KernelReduction(a, b, [partialSumsNeon], 4, i);
    }
    var tailLength := CRem(len, 4);
    var q;
    r, q := Tail(a, b, p, tailLength, result);
    MainThenTail(a, b, len, p, q, result, r);
  }

  /** `dotProductNeon2`: two accumulators, 8 elements per iteration; the
      accumulator `partialSum<m>` covers offsets `4(m-1) .. 4(m-1)+3` of each
      block. */
  method DotProductNeon2(a: seq<Short>, b: seq<Short>, len: Short) returns (r: Int32)
    requires CRem(len, 8) >= 0
    requires len <= |a| && len <= |b|
    ensures r == Wrap32(Dot(a, b, 0, len))
    ensures len <= 0 ==> r == 0
  {
    TruncatingDivision(len, 8);
    var iterations := CDiv(len, 8);
    var partialSum1 := VdupqNS32(0);
    var partialSum2 := VdupqNS32(0);
    ZeroCollects(a, b, 8, 0);
    ZeroCollects(a, b, 8, 4);
    var p, i := 0, 0;
    while i < iterations
      invariant 0 <= i && (i <= iterations || i == 0) && p == 8 * i
      invariant Collects(a, b, partialSum1, 8, p, 0)
      invariant Collects(a, b, partialSum2, 8, p, 4)
    {
      var v11 := Vld1S16(a, p);
      var v12 := Vld1S16(a, p + 4);
      var v21 := Vld1S16(b, p);
      var v22 := Vld1S16(b, p + 4);
      MlalStep(a, b, partialSum1, 8, p, 0);
      MlalStep(a, b, partialSum2, 8, p, 4);
      partialSum1 := VmlalS16(partialSum1, v11, v21);
      partialSum2 := VmlalS16(partialSum2, v12, v22);
      p, i := p + 8, i + 1;
    }
    LoopExit(a, b, len, 8, i, p);
    var partialSumsNeon := VaddqS32(partialSum1, partialSum2);
    var result := VaddvqS32(partialSumsNeon);
    assert result == Wrap32(Dot(a, b, 0, p)) by {
      ReduceTwo(a, b, partialSum1, partialSum2, i);
    }
    var tailLength := CRem(len, 8);
    var q;
    r, q := Tail(a, b, p, tailLength, result);
    MainThenTail(a, b, len, p, q, result, r);
  }

  /** `dotProductNeon3`: three accumulators, 12 elements per iteration. */
  method DotProductNeon3(a: seq<Short>, b: seq<Short>, len: Short) returns (r: Int32)
    requires CRem(len, 12) >= 0
    requires len <= |a| && len <= |b|
    ensures r == Wrap32(Dot(a, b, 0, len))
    ensures len <= 0 ==> r == 0
  {
    TruncatingDivision(len, 12);
    var iterations := CDiv(len, 12);
    var partialSum1 := VdupqNS32(0);
    var partialSum2 := VdupqNS32(0);
    var partialSum3 := VdupqNS32(0);
    ZeroCollects(a, b, 12, 0);
    ZeroCollects(a, b, 12, 4);
    ZeroCollects(a, b, 12, 8);
    var p, i := 0, 0;
    while i < iterations
      invariant 0 <= i && (i <= iterations || i == 0) && p == 12 * i
      invariant Collects(a, b, partialSum1, 12, p, 0)
      invariant Collects(a, b, partialSum2, 12, p, 4)
      invariant Collects(a, b, partialSum3, 12, p, 8)
    {
      var v11 := Vld1S16(a, p);
      var v12 := Vld1S16(a, p + 4);
      var v13 := Vld1S16(a, p + 8);
      var v21 := Vld1S16(b, p);
      var v22 := Vld1S16(b, p + 4);
      var v23 := Vld1S16(b, p + 8);
      MlalStep(a, b, partialSum1, 12, p, 0);
      MlalStep(a, b, partialSum2, 12, p, 4);
      MlalStep(a, b, partialSum3, 12, p, 8);
      partialSum1 := VmlalS16(partialSum1, v11, v21);
      partialSum2 := VmlalS16(partialSum2, v12, v22);
      partialSum3 := VmlalS16(partialSum3, v13, v23);
      p, i := p + 12, i + 1;
    }
    LoopExit(a, b, len, 12, i, p);
    var partialSumsNeon := VaddqS32(partialSum1, partialSum2);
    partialSumsNeon := VaddqS32(partialSumsNeon, partialSum3);
    var result := VaddvqS32(partialSumsNeon);
    assert result == Wrap32(Dot(a, b, 0, p)) by {
      ReduceThree(a, b, partialSum1, partialSum2, partialSum3, i);
    }
    var tailLength := CRem(len, 12);
    var q;
    r, q := Tail(a, b, p, tailLength, result);
    MainThenTail(a, b, len, p, q, result, r);
  }

  /** `dotProductNeon4`: four accumulators, 16 elements per iteration. */
  method DotProductNeon4(a: seq<Short>, b: seq<Short>, len: Short) returns (r: Int32)
    requires CRem(len, 16) >= 0
    requires len <= |a| && len <= |b|
    ensures r == Wrap32(Dot(a, b, 0, len))
    ensures len <= 0 ==> r == 0
  {
    TruncatingDivision(len, 16);
    var iterations := CDiv(len, 16);
    var partialSum1 := VdupqNS32(0);
    var partialSum2 := VdupqNS32(0);
    var partialSum3 := VdupqNS32(0);
    var partialSum4 := VdupqNS32(0);
    ZeroCollects(a, b, 16, 0);
    ZeroCollects(a, b, 16, 4);
    ZeroCollects(a, b, 16, 8);
    ZeroCollects(a, b, 16, 12);
    var p, i := 0, 0;
    while i < iterations
      invariant 0 <= i && (i <= iterations || i == 0) && p == 16 * i
      invariant Collects(a, b, partialSum1, 16, p, 0)
      invariant Collects(a, b, partialSum2, 16, p, 4)
      invariant Collects(a, b, partialSum3, 16, p, 8)
      invariant Collects(a, b, partialSum4, 16, p, 12)
    {
      var v11 := Vld1S16(a, p);
      var v12 := Vld1S16(a, p + 4);
      var v13 := Vld1S16(a, p + 8);
      var v14 := Vld1S16(a, p + 12);
      var v21 := Vld1S16(b, p);
      var v22 := Vld1S16(b, p + 4);
      var v23 := Vld1S16(b, p + 8);
      var v24 := Vld1S16(b, p + 12);
      MlalStep(a, b, partialSum1, 16, p, 0);
      MlalStep(a, b, partialSum2, 16, p, 4);
      MlalStep(a, b, partialSum3, 16, p, 8);
      MlalStep(a, b, partialSum4, 16, p, 12);
      partialSum1 := VmlalS16(partialSum1, v11, v21);
      partialSum2 := VmlalS16(partialSum2, v12, v22);
      partialSum3 := VmlalS16(partialSum3, v13, v23);
      partialSum4 := VmlalS16(partialSum4, v14, v24);
      p, i := p + 16, i + 1;
    }
    LoopExit(a, b, len, 16, i, p);
    var partialSumsNeon := VaddqS32(partialSum1, partialSum2);
    partialSumsNeon := VaddqS32(partialSumsNeon, partialSum3);
    partialSumsNeon := VaddqS32(partialSumsNeon, partialSum4);
    var result := VaddvqS32(partialSumsNeon);
    assert result == Wrap32(Dot(a, b, 0, p)) by {
      ReduceFour(a, b, partialSum1, partialSum2, partialSum3, partialSum4, i);
    }
    var tailLength := CRem(len, 16);
    var q;
    r, q := Tail(a, b, p, tailLength, result);
    MainThenTail(a, b, len, p, q, result, r);
  }

  /** `dotProductNeon_with_SMLAL2_2wide`: one 8-element load per input and
      iteration; its low half goes through `vget_low_s16` and `vmlal_s16` into
      `partialSumLow` (offsets 0-3), its high half through `vmlal_high_s16`
      into `partialSumHigh` (offsets 4-7), just as `dotProductNeon2`'s two
      accumulators. */
  method DotProductNeonWithSmlal2TwoWide(a: seq<Short>, b: seq<Short>, len: Short) returns (r: Int32)
    requires CRem(len, 8) >= 0
    requires len <= |a| && len <= |b|
    ensures r == Wrap32(Dot(a, b, 0, len))
    ensures len <= 0 ==> r == 0
  {
    TruncatingDivision(len, 8);
    var iterations := CDiv(len, 8);
    var partialSumLow := VdupqNS32(0);
    var partialSumHigh := VdupqNS32(0);
    ZeroCollects(a, b, 8, 0);
    ZeroCollects(a, b, 8, 4);
    var p, i := 0, 0;
    while i < iterations
      invariant 0 <= i && (i <= iterations || i == 0) && p == 8 * i
      invariant Collects(a, b, partialSumLow, 8, p, 0)
      invariant Collects(a, b, partialSumHigh, 8, p, 4)
    {
      var v1 := Vld1qS16(a, p);
      var v2 := Vld1qS16(b, p);
      MlalLowStep(a, b, partialSumLow, 8, p, 0);
      MlalHighStep(a, b, partialSumHigh, 8, p, 0);
      partialSumLow := VmlalS16(partialSumLow, VgetLowS16(v1), VgetLowS16(v2));
      partialSumHigh := VmlalHighS16(partialSumHigh, v1, v2);
      p, i := p + 8, i + 1;
    }
    LoopExit(a, b, len, 8, i, p);
    var partialSumsNeon := VaddqS32(partialSumLow, partialSumHigh);
    var result := VaddvqS32(partialSumsNeon);
    assert result == Wrap32(Dot(a, b, 0, p)) by {
      ReduceTwo(a, b, partialSumLow, partialSumHigh, i);
    }
    var tailLength := CRem(len, 8);
    var q;
    r, q := Tail(a, b, p, tailLength, result);
    MainThenTail(a, b, len, p, q, result, r);
  }

  /** `dotProductNeon_with_SMLAL2_4wide`: two 8-element loads per input and
      iteration, split into low and high halves; `partialSum1Low`,
      `partialSum1High`, `partialSum2Low` and `partialSum2High` cover offsets
      0-3, 4-7, 8-11 and 12-15, just as `dotProductNeon4`'s four accumulators. */
  method DotProductNeonWithSmlal2FourWide(a: seq<Short>, b: seq<Short>, len: Short) returns (r: Int32)
    requires CRem(len, 16) >= 0
    requires len <= |a| && len <= |b|
    ensures r == Wrap32(Dot(a, b, 0, len))
    ensures len <= 0 ==> r == 0
  {
    TruncatingDivision(len, 16);
    var iterations := CDiv(len, 16);
    var partialSum1Low := VdupqNS32(0);
    var partialSum1High := VdupqNS32(0);
    var partialSum2Low := VdupqNS32(0);
    var partialSum2High := VdupqNS32(0);
    ZeroCollects(a, b, 16, 0);
    ZeroCollects(a, b, 16, 4);
    ZeroCollects(a, b, 16, 8);
    ZeroCollects(a, b, 16, 12);
    var p, i := 0, 0;
    while i < iterations
      invariant 0 <= i && (i <= iterations || i == 0) && p == 16 * i
      invariant Collects(a, b, partialSum1Low, 16, p, 0)
      invariant Collects(a, b, partialSum1High, 16, p, 4)
      invariant Collects(a, b, partialSum2Low, 16, p, 8)
      invariant Collects(a, b, partialSum2High, 16, p, 12)
    {
      var v11 := Vld1qS16(a, p);
      var v12 := Vld1qS16(a, p + 8);
      var v21 := Vld1qS16(b, p);
      var v22 := Vld1qS16(b, p + 8);
      MlalLowStep(a, b, partialSum1Low, 16, p, 0);
      MlalHighStep(a, b, partialSum1High, 16, p, 0);
      MlalLowStep(a, b, partialSum2Low, 16, p, 8);
      MlalHighStep(a, b, partialSum2High, 16, p, 8);
      partialSum1Low := VmlalS16(partialSum1Low, VgetLowS16(v11), VgetLowS16(v21));
      partialSum1High := VmlalHighS16(partialSum1High, v11, v21);
      partialSum2Low := VmlalS16(partialSum2Low, VgetLowS16(v12), VgetLowS16(v22));
      partialSum2High := VmlalHighS16(partialSum2High, v12, v22);
      p, i := p + 16, i + 1;
    }
    LoopExit(a, b, len, 16, i, p);
    var partialSumsNeon := VaddqS32(partialSum1Low, partialSum1High);
    partialSumsNeon := VaddqS32(partialSumsNeon, partialSum2Low);
    partialSumsNeon := VaddqS32(partialSumsNeon, partialSum2High);
    var result := VaddvqS32(partialSumsNeon);
    assert result == Wrap32(Dot(a, b, 0, p)) by {
      ReduceFour(a, b, partialSum1Low, partialSum1High, partialSum2Low, partialSum2High, i);
    }
    var tailLength := CRem(len, 16);
    var q;
    r, q := Tail(a, b, p, tailLength, result);
    MainThenTail(a, b, len, p, q, result, r);
  }

  /** `dotProductNeon6`: six accumulators, 24 elements per iteration. */
  method DotProductNeon6(a: seq<Short>, b: seq<Short>, len: Short) returns (r: Int32)
    requires CRem(len, 24) >= 0
    requires len <= |a| && len <= |b|
    ensures r == Wrap32(Dot(a, b, 0, len))
    ensures len <= 0 ==> r == 0
  {
    TruncatingDivision(len, 24);
    var iterations := CDiv(len, 24);
    var partialSum1 := VdupqNS32(0);
    var partialSum2 := VdupqNS32(0);
    var partialSum3 := VdupqNS32(0);
    var partialSum4 := VdupqNS32(0);
    var partialSum5 := VdupqNS32(0);
    var partialSum6 := VdupqNS32(0);
    ZeroCollects(a, b, 24, 0);
    ZeroCollects(a, b, 24, 4);
    ZeroCollects(a, b, 24, 8);
    ZeroCollects(a, b, 24, 12);
    ZeroCollects(a, b, 24, 16);
    ZeroCollects(a, b, 24, 20);
    var p, i := 0, 0;
    while i < iterations
      invariant 0 <= i && (i <= iterations || i == 0) && p == 24 * i
      invariant Collects(a, b, partialSum1, 24, p, 0)
      invariant Collects(a, b, partialSum2, 24, p, 4)
      invariant Collects(a, b, partialSum3, 24, p, 8)
      invariant Collects(a, b, partialSum4, 24, p, 12)
      invariant Collects(a, b, partialSum5, 24, p, 16)
      invariant Collects(a, b, partialSum6, 24, p, 20)
    {
      var v11 := Vld1S16(a, p);
      var v12 := Vld1S16(a, p + 4);
      var v13 := Vld1S16(a, p + 8);
      var v14 := Vld1S16(a, p + 12);
      var v15 := Vld1S16(a, p + 16);
      var v16 := Vld1S16(a, p + 20);
      var v21 := Vld1S16(b, p);
      var v22 := Vld1S16(b, p + 4);
      var v23 := Vld1S16(b, p + 8);
      var v24 := Vld1S16(b, p + 12);
      var v25 := Vld1S16(b, p + 16);
      var v26 := Vld1S16(b, p + 20);
      MlalStep(a, b, partialSum1, 24, p, 0);
      MlalStep(a, b, partialSum2, 24, p, 4);
      MlalStep(a, b, partialSum3, 24, p, 8);
      MlalStep(a, b, partialSum4, 24, p, 12);
      MlalStep(a, b, partialSum5, 24, p, 16);
      MlalStep(a, b, partialSum6, 24, p, 20);
      partialSum1 := VmlalS16(partialSum1, v11, v21);
      partialSum2 := VmlalS16(partialSum2, v12, v22);
      partialSum3 := VmlalS16(partialSum3, v13, v23);
      partialSum4 := VmlalS16(partialSum4, v14, v24);
      partialSum5 := VmlalS16(partialSum5, v15, v25);
      partialSum6 := VmlalS16(partialSum6, v16, v26);
      p, i := p + 24, i + 1;
    }
    LoopExit(a, b, len, 24, i, p);
    var partialSumsNeon := VaddqS32(partialSum1, partialSum2);
    partialSumsNeon := VaddqS32(partialSumsNeon, partialSum3);
    partialSumsNeon := VaddqS32(partialSumsNeon, partialSum4);
    partialSumsNeon := VaddqS32(partialSumsNeon, partialSum5);
    partialSumsNeon := VaddqS32(partialSumsNeon, partialSum6);
    var result := VaddvqS32(partialSumsNeon);
    assert result == Wrap32(Dot(a, b, 0, p)) by {
      ReduceSix(a, b, partialSum1, partialSum2, partialSum3, partialSum4, partialSum5, partialSum6, i);
    }
    var tailLength := CRem(len, 24);
    var q;
    r, q := Tail(a, b, p, tailLength, result);
    MainThenTail(a, b, len, p, q, result, r);
  }
}
