/** The mathematical dot product that every kernel computes, the strided
    partial sums one accumulator lane collects, and the facts that tie them
    together: the lanes of a kernel cover each index of a processed prefix
    exactly once, and the sums never leave the 32-bit range when the inputs
    are small enough. */
module DotSpec {
  import opened MachineInt

  /** The exact sum of `a[i] * b[i]` for `lo <= i < hi`, accumulated from left
      to right; 0 when the range is empty (in particular when `hi <= lo`). */
  function Dot(a: seq<int>, b: seq<int>, lo: int, hi: int): int
    requires 0 <= lo && hi <= |a| && hi <= |b|
    decreases hi - lo
  {
    if hi <= lo then 0 else Dot(a, b, lo, hi - 1) + a[hi - 1] * b[hi - 1]
  }

  /** The dot product over a range is the dot product over a prefix plus the
      dot product over the rest. */
  lemma {:induction false} DotSplit(a: seq<int>, b: seq<int>, lo: int, mid: int, hi: int)
    requires 0 <= lo <= mid <= hi && hi <= |a| && hi <= |b|
    ensures Dot(a, b, lo, hi) == Dot(a, b, lo, mid) + Dot(a, b, mid, hi)
    decreases hi - mid
  {
    if mid < hi {
      DotSplit(a, b, lo, mid, hi - 1);
    }
  }

  /** What lane `o % 4` of the accumulator at offset `o` holds once a kernel
      consuming `k` elements per iteration has advanced its cursors to `p`:
      the sum of `a[t] * b[t]` over `t = o, o + k, o + 2k, ...` below `p`,
      that is, over `t = k * m + o` for every `m < p / k`. */
  function LaneSum(a: seq<int>, b: seq<int>, o: int, k: int, p: int): int
    requires 0 <= o < k && 0 <= p && p <= |a| && p <= |b|
    decreases p
  {
    if p < k then 0 else LaneSum(a, b, o, k, p - k) + a[p - k + o] * b[p - k + o]
  }

  /** The exact total of the lane sums for offsets `0 .. c-1`. */
  function LaneTotal(a: seq<int>, b: seq<int>, k: int, p: int, c: int): int
    requires 0 <= c <= k && 0 <= p && p <= |a| && p <= |b|
  {
    if c == 0 then 0 else LaneTotal(a, b, k, p, c - 1) + LaneSum(a, b, c - 1, k, p)
  }

  /** One more iteration adds, over the lanes `0 .. c-1`, exactly the products
      of the block's first `c` elements. */
  lemma {:induction false} LaneTotalStep(a: seq<int>, b: seq<int>, k: int, p: int, c: int)
    requires 0 <= c <= k && 0 <= p && p + k <= |a| && p + k <= |b|
    ensures LaneTotal(a, b, k, p + k, c) == LaneTotal(a, b, k, p, c) + Dot(a, b, p, p + c)
  {
    if c > 0 {
      LaneTotalStep(a, b, k, p, c - 1);
    }
  }

  /** Before the first iteration every lane is empty. */
  lemma {:induction false} LaneTotalAtStart(a: seq<int>, b: seq<int>, k: int, c: int)
    requires 0 <= c <= k
    ensures LaneTotal(a, b, k, 0, c) == 0
  {
    if c > 0 {
      LaneTotalAtStart(a, b, k, c - 1);
    }
  }

  /** After `i` iterations of `k` elements, the `k` lanes together hold the dot
      product of the first `k * i` elements: no element is skipped and none is
      counted twice. */
  lemma {:induction false} LanesCoverPrefix(a: seq<int>, b: seq<int>, k: int, i: int)
    requires 0 < k && 0 <= i && k * i <= |a| && k * i <= |b|
    ensures LaneTotal(a, b, k, k * i, k) == Dot(a, b, 0, k * i)
  {
    if i == 0 {
      LaneTotalAtStart(a, b, k, k);
    } else {
      var p := k * (i - 1);
      assert p + k == k * i;
      LanesCoverPrefix(a, b, k, i - 1);
      LaneTotalStep(a, b, k, p, k);
      DotSplit(a, b, 0, p, p + k);
    }
  }

  // ---- The index sets of the lanes ----

  /** The indices whose products the lane sum `LaneSum(a, b, o, k, p)` adds. */
  function LaneIndices(o: int, k: int, p: int): set<int>
    requires 0 <= o < k && 0 <= p
    decreases p
  {
    if p < k then {} else LaneIndices(o, k, p - k) + {p - k + o}
  }

  /** Below a multiple `p` of `k`, the lane at offset `o` reads exactly the
      indices congruent to `o` modulo `k`. */
  lemma {:induction false} LaneIndicesAre(o: int, k: int, i: int)
    requires 0 <= o < k && 0 <= i
    ensures forall t :: t in LaneIndices(o, k, k * i) <==> 0 <= t < k * i && t % k == o
  {
    if i > 0 {
      var p := k * (i - 1);
      assert p + k == k * i;
      LaneIndicesAre(o, k, i - 1);
      forall t | p <= t < p + k
        ensures t % k == o <==> t == p + o
      {
        ModOfMultiplePlus(k, i - 1, t - p);
      }
    }
  }

  /** The lanes of a kernel that has processed `k * i` elements partition the
      indices `0 .. k*i - 1`: two different lanes never share an index, and
      every index belongs to one of them. */
  lemma LanesPartitionPrefix(k: int, i: int)
    requires 0 < k && 0 <= i
    ensures forall o1, o2 :: 0 <= o1 < o2 < k ==> LaneIndices(o1, k, k * i) !! LaneIndices(o2, k, k * i)
    ensures forall t :: 0 <= t < k * i ==> t in LaneIndices(t % k, k, k * i)
  {
    forall o | 0 <= o < k {
      LaneIndicesAre(o, k, i);
    }
  }

  /** `(k * q + r) % k == r` for a remainder `0 <= r < k`. */
  lemma ModOfMultiplePlus(k: int, q: int, r: int)
    requires 0 <= r < k
    ensures (k * q + r) % k == r
  {
    var t := k * q + r;
    var d := q - t / k;
    assert k * d == t % k - r;
    if d >= 1 {
      MulMonotone(k, 1, d);
    } else if d <= -1 {
      MulMonotone(k, 1, -d);
    }
  }

  lemma MulMonotone(k: int, x: int, y: int)
    requires 0 <= k && x <= y
    ensures k * x <= k * y
  {
  }

  // ---- Magnitudes: when the 32-bit sums are exact ----

  function Abs(x: int): nat {
    if x < 0 then -x else x
  }

  /** The sum of the magnitudes of the products `a[i] * b[i]`, `lo <= i < hi`. */
  function AbsDot(a: seq<int>, b: seq<int>, lo: int, hi: int): int
    requires 0 <= lo && hi <= |a| && hi <= |b|
    decreases hi - lo
  {
    if hi <= lo then 0 else AbsDot(a, b, lo, hi - 1) + Abs(a[hi - 1] * b[hi - 1])
  }

  /** A dot product is no larger in magnitude than its sum of magnitudes. */
  lemma {:induction false} DotBoundedByAbsDot(a: seq<int>, b: seq<int>, n: int)
    requires 0 <= n <= |a| && n <= |b|
    ensures Abs(Dot(a, b, 0, n)) <= AbsDot(a, b, 0, n)
  {
    if n > 0 {
      DotBoundedByAbsDot(a, b, n - 1);
    }
  }

  /** The sum of magnitudes only grows as the range is extended. */
  lemma {:induction false} AbsDotMonotone(a: seq<int>, b: seq<int>, i: int, n: int)
    requires 0 <= i <= n && n <= |a| && n <= |b|
    ensures AbsDot(a, b, 0, i) <= AbsDot(a, b, 0, n)
    decreases n - i
  {
    if i < n {
      AbsDotMonotone(a, b, i, n - 1);
    }
  }

  /** When the magnitudes of the products add up to at most `2^31 - 1`, every
      running sum of the products fits in an `int`: a left-to-right
      accumulation never overflows, and the 32-bit result is the exact one. */
  lemma PrefixesFitInt32(a: seq<int>, b: seq<int>, n: int)
    requires 0 <= n <= |a| && n <= |b|
    requires AbsDot(a, b, 0, n) < TwoTo31
    ensures forall i :: 0 <= i <= n ==> IsInt32(Dot(a, b, 0, i))
    ensures Wrap32(Dot(a, b, 0, n)) == Dot(a, b, 0, n)
  {
    forall i | 0 <= i <= n
      ensures IsInt32(Dot(a, b, 0, i))
    {
      DotBoundedByAbsDot(a, b, i);
      AbsDotMonotone(a, b, i, n);
    }
  }

  /** If every `|a[i]| <= ma` and `|b[i]| <= mb`, the magnitudes of the first
      `n` products add up to at most `n * (ma * mb)`. */
  lemma {:induction false} AbsDotBound(a: seq<int>, b: seq<int>, n: int, ma: int, mb: int)
    requires 0 <= n <= |a| && n <= |b|
    requires forall i :: 0 <= i < n ==> Abs(a[i]) <= ma && Abs(b[i]) <= mb
    ensures AbsDot(a, b, 0, n) <= n * (ma * mb)
  {
    if n > 0 {
      AbsDotBound(a, b, n - 1, ma, mb);
      ProductBound(a[n - 1], b[n - 1], ma, mb);
      MulSucc(n - 1, ma * mb);
    }
  }

  lemma MulSucc(n: int, c: int)
    ensures (n + 1) * c == n * c + c
  {
  }

  lemma ProductBound(x: int, y: int, ma: int, mb: int)
    requires Abs(x) <= ma && Abs(y) <= mb
    ensures Abs(x * y) <= ma * mb
  {
    assert Abs(x * y) == Abs(x) * Abs(y);
    MulMonotone(Abs(y), Abs(x), ma);
    MulMonotone(ma, Abs(y), mb);
  }
}
