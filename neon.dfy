/** The Arm Neon (ACLE) vector types and intrinsics the kernels use, as pure
    functions on sequences of lanes. A 32-bit lane wraps modulo 2^32, as the
    SMLAL, SMLAL2, ADD and ADDV instructions do. */
module Neon {
  import opened MachineInt

  /** `int16x4_t`: four `short` lanes (a 64-bit D register). */
  type Int16x4 = v: seq<Short> | |v| == 4 witness [0, 0, 0, 0]

  /** `int16x8_t`: eight `short` lanes (a 128-bit Q register). */
  type Int16x8 = v: seq<Short> | |v| == 8 witness [0, 0, 0, 0, 0, 0, 0, 0]

  /** `int32x4_t`: four `int` lanes (a 128-bit Q register). */
  type Int32x4 = v: seq<Int32> | |v| == 4 witness [0, 0, 0, 0]

  /** `vdupq_n_s32(x)`: every lane set to `x`. */
  function VdupqNS32(x: Int32): Int32x4 {
    [x, x, x, x]
  }

  /** `vld1_s16(s + p)`: the four elements of `s` at `p`, `p+1`, `p+2`, `p+3`. */
  function Vld1S16(s: seq<Short>, p: int): Int16x4
    requires 0 <= p && p + 4 <= |s|
  {
    seq(4, j requires 0 <= j < 4 => s[p + j])
  }

  /** `vld1q_s16(s + p)`: the eight elements of `s` from `p` to `p+7`. */
  function Vld1qS16(s: seq<Short>, p: int): Int16x8
    requires 0 <= p && p + 8 <= |s|
  {
    seq(8, j requires 0 <= j < 8 => s[p + j])
  }

  /** `vget_low_s16(v)`: lanes 0 to 3 of an `int16x8_t`. */
  function VgetLowS16(v: Int16x8): Int16x4 {
    v[..4]
  }

  /** `vmlal_s16(acc, x, y)` (SMLAL): lane j becomes `acc[j] + x[j] * y[j]`,
      the 16x16-bit product widened to 32 bits before the add. */
  function VmlalS16(acc: Int32x4, x: Int16x4, y: Int16x4): Int32x4 {
    seq(4, j requires 0 <= j < 4 => MulAdd32(acc[j], x[j], y[j]))
  }

  /** `vmlal_high_s16(acc, x, y)` (SMLAL2): like `vmlal_s16`, on the upper
      four lanes of `x` and `y`: lane j becomes `acc[j] + x[4+j] * y[4+j]`. */
  function VmlalHighS16(acc: Int32x4, x: Int16x8, y: Int16x8): Int32x4 {
    seq(4, j requires 0 <= j < 4 => MulAdd32(acc[j], x[4 + j], y[4 + j]))
  }

  /** `vaddq_s32(u, v)`: lane-by-lane 32-bit addition. */
  function VaddqS32(u: Int32x4, v: Int32x4): Int32x4 {
    seq(4, j requires 0 <= j < 4 => Add32(u[j], v[j]))
  }

  /** `vaddvq_s32(v)` (ADDV): the 32-bit sum of the four lanes. */
  function VaddvqS32(v: Int32x4): Int32 {
    Wrap32(LaneSumOf(v))
  }

  /** The exact (unwrapped) sum of the four lanes of `v`. */
  function LaneSumOf(v: Int32x4): int {
    v[0] as int + v[1] + v[2] + v[3]
  }

  /** The exact sum of every lane of every accumulator in `accs`. */
  function AllLanes(accs: seq<Int32x4>): int {
    if accs == [] then 0 else AllLanes(accs[..|accs| - 1]) + LaneSumOf(accs[|accs| - 1])
  }

  /** The kernels' reduction of their accumulators: `vaddq_s32` of the first
      two, then `vaddq_s32` of that with each further one, in order. */
  function Combine(accs: seq<Int32x4>): Int32x4
    requires accs != []
  {
    if |accs| == 1 then accs[0] else VaddqS32(Combine(accs[..|accs| - 1]), accs[|accs| - 1])
  }

  // ---- Properties of the intrinsics ----

  /** One more accumulator is combined into the running sum with one more
      `vaddq_s32`. */
  lemma CombineSnoc(accs: seq<Int32x4>, x: Int32x4)
    requires accs != []
    ensures Combine(accs + [x]) == VaddqS32(Combine(accs), x)
  {
    assert (accs + [x])[..|accs|] == accs;
  }

  /** Taking the low half of a 128-bit load is a 64-bit load at the same place. */
  lemma LowHalfOfWideLoad(s: seq<Short>, p: int)
    requires 0 <= p && p + 8 <= |s|
    ensures VgetLowS16(Vld1qS16(s, p)) == Vld1S16(s, p)
  {
  }

  /** SMLAL2 on a 128-bit load at `p` is SMLAL on a 64-bit load at `p + 4`. */
  lemma HighHalfOfWideLoad(acc: Int32x4, a: seq<Short>, b: seq<Short>, p: int)
    requires 0 <= p && p + 8 <= |a| && p + 8 <= |b|
    ensures VmlalHighS16(acc, Vld1qS16(a, p), Vld1qS16(b, p))
         == VmlalS16(acc, Vld1S16(a, p + 4), Vld1S16(b, p + 4))
  {
  }

  /** `vaddq_s32` is commutative. */
  lemma VaddqCommutes(u: Int32x4, v: Int32x4)
    ensures VaddqS32(u, v) == VaddqS32(v, u)
  {
  }

  /** `vaddq_s32` is associative, despite each lane wrapping. */
  lemma VaddqAssociates(u: Int32x4, v: Int32x4, w: Int32x4)
    ensures VaddqS32(VaddqS32(u, v), w) == VaddqS32(u, VaddqS32(v, w))
  {
    forall j | 0 <= j < 4
      ensures VaddqS32(VaddqS32(u, v), w)[j] == VaddqS32(u, VaddqS32(v, w))[j]
    {
      Add32Associates(u[j], v[j], w[j]);
    }
  }

  /** Reducing the combined accumulators with `vaddvq_s32` gives the sum of
      all lanes of all accumulators, taken modulo 2^32. */
  lemma CombineReduces(accs: seq<Int32x4>)
    requires accs != []
    ensures VaddvqS32(Combine(accs)) == Wrap32(AllLanes(accs))
  {
    var c := Combine(accs);
    CombineByColumns(accs, 0);
    CombineByColumns(accs, 1);
    CombineByColumns(accs, 2);
    CombineByColumns(accs, 3);
    ColumnsMakeAllLanes(accs);
    var col0, col1, col2, col3 := LaneColumn(accs, 0), LaneColumn(accs, 1), LaneColumn(accs, 2), LaneColumn(accs, 3);
    WrapSum4(c[0], c[1], c[2], c[3], col0, col1, col2, col3);
  }

  /** Lane `j` of the combined accumulator is the sum, modulo 2^32, of lane
      `j` of every accumulator. */
  lemma {:induction false} CombineByColumns(accs: seq<Int32x4>, j: int)
    requires accs != [] && 0 <= j < 4
    ensures Combine(accs)[j] == Wrap32(LaneColumn(accs, j))
  {
    var init, last := accs[..|accs| - 1], accs[|accs| - 1];
    if |accs| == 1 {
      assert init == [];
    } else {
      CombineByColumns(init, j);
      AddWrapped(Combine(init)[j], LaneColumn(init, j), last[j], last[j]);
    }
  }

  /** The exact sum of lane `j` over every accumulator in `accs`. */
  function LaneColumn(accs: seq<Int32x4>, j: int): int
    requires 0 <= j < 4
  {
    if accs == [] then 0 else LaneColumn(accs[..|accs| - 1], j) + accs[|accs| - 1][j]
  }

  /** Summing column by column or accumulator by accumulator gives the same total. */
  lemma {:induction false} ColumnsMakeAllLanes(accs: seq<Int32x4>)
    ensures LaneColumn(accs, 0) + LaneColumn(accs, 1) + LaneColumn(accs, 2) + LaneColumn(accs, 3)
         == AllLanes(accs)
  {
    if accs != [] {
      ColumnsMakeAllLanes(accs[..|accs| - 1]);
    }
  }

  /** Summing the lanes of two lists of accumulators one after the other. */
  lemma {:induction false} AllLanesAppend(u: seq<Int32x4>, v: seq<Int32x4>)
    ensures AllLanes(u + v) == AllLanes(u) + AllLanes(v)
  {
    if v != [] {
      assert (u + v)[..|u + v| - 1] == u + v[..|v| - 1];
      AllLanesAppend(u, v[..|v| - 1]);
    } else {
      assert u + v == u;
    }
  }

  /** The total of all lanes does not depend on the order of the accumulators. */
  lemma {:induction false} AllLanesPermutation(s: seq<Int32x4>, t: seq<Int32x4>)
    requires multiset(s) == multiset(t)
    ensures AllLanes(s) == AllLanes(t)
    decreases |s|
  {
    if s == [] {
      assert |t| == |multiset(t)| == 0;
    } else {
      var x := s[|s| - 1];
      assert s == s[..|s| - 1] + [x];
      assert x in multiset(t);
      var k :| 0 <= k < |t| && t[k] == x;
      RemoveFromBoth(s[..|s| - 1], t, k);
      AllLanesPermutation(s[..|s| - 1], t[..k] + t[k + 1..]);
      AllLanesRemove(t, k);
    }
  }

  /** Removing the same accumulator from two lists with equal multisets
      leaves lists with equal multisets. */
  lemma RemoveFromBoth(init: seq<Int32x4>, t: seq<Int32x4>, k: int)
    requires 0 <= k < |t| && multiset(init + [t[k]]) == multiset(t)
    ensures multiset(init) == multiset(t[..k] + t[k + 1..])
  {
    var x, rest := t[k], t[..k] + t[k + 1..];
    assert t == t[..k] + [x] + t[k + 1..];
    assert multiset(t) == multiset(rest) + multiset{x};
    assert multiset(init + [x]) == multiset(init) + multiset{x};
    assert multiset(init) == multiset(init) + multiset{x} - multiset{x};
    assert multiset(rest) == multiset(rest) + multiset{x} - multiset{x};
  }

  /** The lanes of a list of accumulators are those of the list without its
      `k`-th accumulator, plus that accumulator's lanes. */
  lemma AllLanesRemove(t: seq<Int32x4>, k: int)
    requires 0 <= k < |t|
    ensures AllLanes(t) == AllLanes(t[..k] + t[k + 1..]) + LaneSumOf(t[k])
  {
    var front, x, back := t[..k], t[k], t[k + 1..];
    assert AllLanes(t) == AllLanes((front + [x]) + back) by {
      assert t == (front + [x]) + back;
    }
    AllLanesAppend(front + [x], back);
    AllLanesSnoc(front, x);
    AllLanesAppend(front, back);
  }

  lemma AllLanesSnoc(front: seq<Int32x4>, x: Int32x4)
    ensures AllLanes(front + [x]) == AllLanes(front) + LaneSumOf(x)
  {
    assert (front + [x])[..|front|] == front;
  }

  /** Reducing with `vaddq_s32` and then `vaddvq_s32` gives the same 32-bit
      result whatever order the accumulators are combined in. */
  lemma CombineAnyOrder(s: seq<Int32x4>, t: seq<Int32x4>)
    requires s != [] && multiset(s) == multiset(t)
    ensures t != [] && VaddvqS32(Combine(s)) == VaddvqS32(Combine(t))
  {
    assert |t| == |multiset(t)| == |multiset(s)| == |s|;
    CombineReduces(s);
    CombineReduces(t);
    AllLanesPermutation(s, t);
  }
}
