# Neon dot-product kernels, modelled in Dafny

This project models `app/src/main/cpp/DotProd.cpp` from the Android
"NeonIntrinsics" sample. The file holds eight kernels that each compute the
dot product of two `short` buffers into a 32-bit `int`:

- the scalar reference `dotProductScalar`;
- `dotProductNeon`, `dotProductNeon2`, `dotProductNeon3`, `dotProductNeon4`
  and `dotProductNeon6`, which keep 1, 2, 3, 4 and 6 Neon accumulators of
  four 32-bit lanes and consume 4, 8, 12, 16 and 24 elements per main-loop
  iteration;
- `dotProductNeon_with_SMLAL2_2wide` and `_4wide`, which load 8 elements
  at a time and feed the low half to `vmlal_s16` and the high half to
  `vmlal_high_s16`.

Every vector kernel has the same ending. It adds its accumulators together
lane by lane with `vaddq_s32`, reduces the four lanes with `vaddvq_s32`, and
then runs a scalar tail loop over the `len % elementsPerIteration` leftover
elements.

The model is imperative, like the source:

- Each kernel is a method.
- Its accumulators are local `Int32x4` values, updated by the modelled
  intrinsics.
- One cursor `p` stands for both input pointers, which always advance
  together.

Each kernel is proved against the pure specification `DotSpec.Dot(a, b, lo, hi)`,
the exact sum of `a[i] * b[i]`, with loop invariants saying what every
accumulator lane holds.

Modules:

- `MachineInt` (machine_int.dfy): the C integer types.
  - `Wrap32` is the 32-bit two's-complement wrap that an AArch64 add
    performs.
  - `CDiv` and `CRem` model C++ `/` and `%`, which truncate toward zero.
  - `Wrap16` is the conversion to `short`.
- `Neon` (neon.dfy): the intrinsics, as functions on 4- and 8-lane
  sequences, and the algebra of combining and reducing accumulators.
- `DotSpec` (dot_spec.dfy): the dot product and the strided lane sums.
  - Lane `j` of the accumulator at offset `o` holds the products at indices
    `o + j`, `o + j + k`, `o + j + 2k`, and so on.
  - The lane index sets partition the processed prefix.
  - `PrefixesFitInt32` gives a bound under which no running sum overflows.
- `DotProd` (dot_prod.dfy): the eight kernels, the shared tail loop, and the
  lemmas that carry a main loop's accumulators to the final result.
- `Benchmark` (benchmark.dfy): the inputs of the benchmark driver in
  `native-lib.cpp` and what the kernels return on them.
  - The driver builds two 1027-element ramps with `generateRamp`.
  - The model proves that every kernel returns 413226801 on them.

The headline result is the same for every kernel: it returns
`Wrap32(Dot(a, b, 0, len))`, and 0 when `len <= 0`. It follows that:

- All eight kernels agree on every input they accept.
- Each of them equals the exact dot product whenever the magnitudes of the
  products add up to less than 2^31 (`DotSpec.PrefixesFitInt32`).
- That bound holds, for example, when `len * max|a| * max|b| < 2^31`
  (`DotSpec.AbsDotBound`).

The lane additions wrap, and their wrap is defined behaviour. Overflow of
the C `int +=` in the scalar loop and in the tail is undefined behaviour in
C++. It is modelled as the wrap the AArch64 `ADD` instruction performs, and
the bound above rules such overflow out.

A negative length is a point where the code differs from what one might
expect of it, and the model follows the code:

- A negative length gives 0 only when it is a multiple of the kernel's block
  size `k`: then both loops run zero times.
- For any other negative length, C++ `len % k` is negative, so
  `while (tailLength--)` starts below zero. It walks past both buffers
  instead of stopping.
- `DotProd.NegativeTailLength` characterises exactly when this happens.
- Each vector kernel therefore requires `CRem(len, k) >= 0`: a non-negative
  length, or a multiple of `k`.
- The scalar kernel has no such restriction, and returns 0 for every
  negative length.

## Model

| member | source | states |
|---|---|---|
| DotProd.DotProductScalar | app/src/main/cpp/DotProd.cpp:5-15 | Returns the 32-bit sum of `a[i] * b[i]` over `0 <= i < len`, accumulated left to right. It returns 0 for `len <= 0`, because the loop guard fails at once. |
| DotProd.DotProductNeon | app/src/main/cpp/DotProd.cpp:17-51 | The one-accumulator kernel returns the same value as the scalar kernel (`Wrap32(Dot(a, b, 0, len))`), and 0 for `len <= 0`. It requires `len % 4 >= 0` in C terms. Its loop invariant: after `i` iterations the cursor is at `4i`, and lane `j` holds the strided sum over indices `j, j+4, ...` below `4i`. |
| DotProd.DotProductNeon2 | app/src/main/cpp/DotProd.cpp:53-94 | Two accumulators, covering offsets 0-3 and 4-7 of each 8-element block. It returns the scalar kernel's value, and 0 for `len <= 0`. |
| DotProd.DotProductNeon3 | app/src/main/cpp/DotProd.cpp:96-142 | Three accumulators, covering offsets 0-3, 4-7 and 8-11 of each 12-element block. It returns the scalar kernel's value. |
| DotProd.DotProductNeon4 | app/src/main/cpp/DotProd.cpp:144-195 | Four accumulators, covering each 16-element block. It returns the scalar kernel's value. |
| DotProd.DotProductNeonWithSmlal2TwoWide | app/src/main/cpp/DotProd.cpp:197-239 | The low accumulator covers offsets 0-3 of each 8-element load. The high accumulator (`vmlal_high_s16`) covers offsets 4-7. It returns the same value as `dotProductNeon2` and the scalar kernel. |
| DotProd.DotProductNeonWithSmlal2FourWide | app/src/main/cpp/DotProd.cpp:241-291 | Two 8-element loads per iteration, each split into a low and a high accumulator. It returns the same value as `dotProductNeon4` and the scalar kernel. |
| DotProd.DotProductNeon6 | app/src/main/cpp/DotProd.cpp:293-354 | Six accumulators over 24-element blocks. It returns the scalar kernel's value, and 0 for `len <= 0`. |
| DotProd.Tail | app/src/main/cpp/DotProd.cpp:41-48 | The tail loop consumes exactly `tailLength` elements, starting at the cursor, in increasing order. It leaves the cursor at `p + tailLength` and adds exactly their products to `result`, modulo 2^32. |
| DotProd.LoopExit | app/src/main/cpp/DotProd.cpp:19-48 | When a main loop of `len / k` iterations stops, the cursor is at `k * (len / k)`. The tail of `len % k` elements then ends exactly at `len`, or at 0 for a non-positive multiple of `k`, and never reads at or past `len`. |
| DotProd.MainThenTail | app/src/main/cpp/DotProd.cpp:39-50 | The reduced main-loop result, followed by the tail, is `Wrap32(Dot(a, b, 0, len))`, and 0 when `len <= 0`. Main loop and tail together cover every index in `[0, len)` exactly once. |
| DotProd.NegativeTailLength | app/src/main/cpp/DotProd.cpp:42-43 | `len % k` in C++ is negative if and only if `len` is negative and not a multiple of `k`. That is the case in which `while (tailLength--)` does not stop. |
| DotProd.MlalStep | app/src/main/cpp/DotProd.cpp:29-35 | One `vld1_s16` pair and `vmlal_s16` at offset `o` of the block extends each lane `j` by the product at index `p + o + j`. This keeps the invariant that lane `j` holds the strided sum for offset `o + j`. |
| DotProd.MlalLowStep | app/src/main/cpp/DotProd.cpp:213-216 | `vmlal_s16` on `vget_low_s16` of an 8-element load extends lanes 0-3 by the products at offsets `o .. o+3` of the load. |
| DotProd.MlalHighStep | app/src/main/cpp/DotProd.cpp:213-217 | `vmlal_high_s16` on an 8-element load extends the lanes by the products at offsets `o+4 .. o+7` of the load. |
| DotProd.ZeroCollects | app/src/main/cpp/DotProd.cpp:23 | `vdupq_n_s32(0)` holds the empty lane sums, so the main-loop invariant holds before the first iteration. |
| DotProd.KernelReduction | app/src/main/cpp/DotProd.cpp:334-342 | Accumulators that hold their strided lane sums reduce to the dot product of the processed prefix, modulo 2^32. The reduction is `vaddq_s32` folded in order, then `vaddvq_s32`. |
| DotProd.ReduceTwo | app/src/main/cpp/DotProd.cpp:78-82 | The two-accumulator reduction `vaddvq_s32(vaddq_s32(s1, s2))` is the dot product of the first `8i` elements, modulo 2^32. |
| DotProd.ReduceThree | app/src/main/cpp/DotProd.cpp:125-130 | The three-accumulator reduction is the dot product of the first `12i` elements, modulo 2^32. |
| DotProd.ReduceFour | app/src/main/cpp/DotProd.cpp:177-183 | The four-accumulator reduction is the dot product of the first `16i` elements, modulo 2^32. |
| DotProd.ReduceSix | app/src/main/cpp/DotProd.cpp:334-342 | The six-accumulator reduction is the dot product of the first `24i` elements, modulo 2^32. |
| DotProd.AccumulatorsHoldLanes | app/src/main/cpp/DotProd.cpp:150-171 | Accumulator `m` covers offsets `4m .. 4m+3`. Together the accumulators hold the lane sums of offsets `0 .. 4n-1`. |
| DotSpec.LanesCoverPrefix | app/src/main/cpp/DotProd.cpp:156-175 | After `i` iterations of `k` elements, the `k` strided lane sums add up to exactly the dot product of the first `k * i` elements. |
| DotSpec.LanesPartitionPrefix | app/src/main/cpp/DotProd.cpp:156-175 | The lanes' index sets are pairwise disjoint. Every index below `k * i` lies in the lane of its residue modulo `k`. |
| DotSpec.LaneIndicesAre | app/src/main/cpp/DotProd.cpp:26-36 | The lane at offset `o` reads exactly the indices below `k * i` that are congruent to `o` modulo `k`. |
| DotSpec.DotSplit | app/src/main/cpp/DotProd.cpp:39-48 | The dot product over `[lo, hi)` is the dot product over `[lo, mid)` plus that over `[mid, hi)`. |
| DotSpec.PrefixesFitInt32 | app/src/main/cpp/DotProd.cpp:5-15 | If the magnitudes of the products add up to less than 2^31, every running sum fits in an `int`, so no `+=` overflows, and the wrapped result is the exact dot product. |
| DotSpec.AbsDotBound | app/src/main/cpp/DotProd.cpp:5-15 | If every `Abs(a[i]) <= ma` and `Abs(b[i]) <= mb`, the magnitudes of the first `n` products add up to at most `n * ma * mb`. |
| DotSpec.DotBoundedByAbsDot | app/src/main/cpp/DotProd.cpp:5-15 | The dot product is no larger in magnitude than the sum of the magnitudes of its products. |
| Neon.CombineReduces | app/src/main/cpp/DotProd.cpp:334-342 | `vaddvq_s32` of the in-order `vaddq_s32` fold of any non-empty list of accumulators is the sum of all their lanes, modulo 2^32. |
| Neon.CombineAnyOrder | app/src/main/cpp/DotProd.cpp:334-342 | Folding the accumulators with `vaddq_s32` in any order (any permutation of the list), then `vaddvq_s32`, gives the same 32-bit result. |
| Neon.AllLanesPermutation | app/src/main/cpp/DotProd.cpp:334-342 | The total of all lanes of a list of accumulators depends only on its multiset of accumulators. |
| Neon.CombineByColumns | app/src/main/cpp/DotProd.cpp:334-339 | Lane `j` of the combined accumulator is the sum of lane `j` of every accumulator, modulo 2^32. |
| Neon.VaddqAssociates | app/src/main/cpp/DotProd.cpp:335-339 | `vaddq_s32` is associative, although each lane wraps. |
| Neon.VaddqCommutes | app/src/main/cpp/DotProd.cpp:335-339 | `vaddq_s32` is commutative. |
| Neon.LowHalfOfWideLoad | app/src/main/cpp/DotProd.cpp:213-216 | `vget_low_s16(vld1q_s16(p))` is `vld1_s16(p)`. |
| Neon.HighHalfOfWideLoad | app/src/main/cpp/DotProd.cpp:213-217 | `vmlal_high_s16` on two 8-element loads at `p` equals `vmlal_s16` on two 4-element loads at `p + 4`. |
| MachineInt.WrapAdd | app/src/main/cpp/DotProd.cpp:44 | Adding values that agree modulo 2^32 gives sums that wrap to the same 32-bit value. So the order and grouping of wrapping additions does not change the result. |
| MachineInt.WrapEqIff | app/src/main/cpp/DotProd.cpp:44 | Two integers wrap to the same 32-bit value if and only if they agree modulo 2^32. |
| MachineInt.WrapIsModular | app/src/main/cpp/DotProd.cpp:44 | The 32-bit wrap is `(x + 2^31) mod 2^32 - 2^31`. |
| MachineInt.Add32Associates | app/src/main/cpp/DotProd.cpp:335-339 | 32-bit wrapping addition is associative. |
| MachineInt.TruncatingDivision | app/src/main/cpp/DotProd.cpp:20 | C++ `len / k` truncates toward zero, and `(len / k) * k + len % k == len`. The remainder lies in `[0, k)` for `len >= 0` and in `(-k, 0]` for `len < 0`. |
| Benchmark.GenerateRamp | app/src/main/cpp/native-lib.cpp:27-37 | Returns a fresh array of `len` shorts whose element `i` is `startValue + i` converted to `short`. |
| Benchmark.RampElements | app/src/main/cpp/native-lib.cpp:27-37 | Element `i` of a ramp is `startValue + i` converted to `short`. It is exactly `startValue + i` when the ramp stays below 2^15. |
| Benchmark.RampDot | app/src/main/cpp/native-lib.cpp:48-55 | For ramps `(0, 1, ...)` and `(c, c+1, ...)` with `c >= 0`, six times the dot product of the first `n` elements is `3c n(n-1) + (n-1) n (2n-1)`. The sum of the products' magnitudes is the same number. |
| Benchmark.DriverRampsDot | app/src/main/cpp/native-lib.cpp:48-55 | For the driver's 1027-element ramps starting at 0 and at 100, the dot product is 413226801, and every running sum fits in an `int`. |
| Benchmark.RunKernels | app/src/main/cpp/native-lib.cpp:61-139 | All eight kernels return the same value on the same inputs. When the magnitudes of the products add up to less than 2^31, it is the exact dot product. |
| Benchmark.DriverResults | app/src/main/cpp/native-lib.cpp:48-139 | On the driver's ramps, every kernel returns 413226801. |

## Left out

- `CpuThreadControl.cpp` (thread affinity, `sysconf`, logging) is not part of this model. It holds no algorithm.
- `native-lib.cpp` is modelled only for its inputs and results, for the same reason. Left out of it:
  - the JNI entry point;
  - the `Timer` class and its floating-point milliseconds;
  - the `ATrace_*` markers;
  - the warm-up loop;
  - the repetition of each call `trials` times, which recomputes the same value;
  - the `snprintf` report;
  - `delete[]`.
- `dotProductNeon5` is called by the driver (`native-lib.cpp:127`) but neither declared in `DotProd.h` nor defined anywhere. The model has no fifth variant. `Benchmark.RunKernels` calls the eight kernels that exist, including the two SMLAL2 kernels the driver does not call.
- Pointers are modelled as one cursor into two read-only sequences. Aliasing between the buffers, memory alignment, load counts and latency are not modelled. None of them is observable in the result.
- Overflow of `int +=` (scalar loop and tail) is undefined behaviour in C++. It is modelled as the AArch64 wrap, not as undefined behaviour. `DotSpec.PrefixesFitInt32` gives the condition under which it cannot happen.
- DotProd.DotProductNeon: not modelled for a negative length that is not a multiple of the block size (it requires `CRem(len, k) >= 0`), because on such lengths the C tail loop runs with a negative counter and reads past both buffers.
- DotProd.DotProductNeon2: not modelled for a negative length that is not a multiple of the block size (it requires `CRem(len, k) >= 0`), because on such lengths the C tail loop runs with a negative counter and reads past both buffers.
- DotProd.DotProductNeon3: not modelled for a negative length that is not a multiple of the block size (it requires `CRem(len, k) >= 0`), because on such lengths the C tail loop runs with a negative counter and reads past both buffers.
- DotProd.DotProductNeon4: not modelled for a negative length that is not a multiple of the block size (it requires `CRem(len, k) >= 0`), because on such lengths the C tail loop runs with a negative counter and reads past both buffers.
- DotProd.DotProductNeon6: not modelled for a negative length that is not a multiple of the block size (it requires `CRem(len, k) >= 0`), because on such lengths the C tail loop runs with a negative counter and reads past both buffers.
- DotProd.DotProductNeonWithSmlal2TwoWide: not modelled for a negative length that is not a multiple of the block size (it requires `CRem(len, k) >= 0`), because on such lengths the C tail loop runs with a negative counter and reads past both buffers.
- DotProd.DotProductNeonWithSmlal2FourWide: not modelled for a negative length that is not a multiple of the block size (it requires `CRem(len, k) >= 0`), because on such lengths the C tail loop runs with a negative counter and reads past both buffers.
- DotProd.Tail requires `tailLength >= 0` for the same reason.
- Benchmark.GenerateRamp requires `len >= 0`. `new short[len]` with a negative length does not produce an array.
