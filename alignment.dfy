/**
 * Align-then-bump arithmetic of a command chunk's two argument heaps
 * (dxmt_command_queue.hpp, `align_forward_adjustment` and the bump rule
 * shared by `allocate_cpu_heap` and `allocate_gpu_heap`).
 *
 * Offsets are unbounded naturals. The source computes on 64-bit unsigned
 * integers; the two agree as long as an offset stays below 2^64 - alignment,
 * far beyond the 8 MiB heaps.
 */
module Alignment {

  /** The alignments the source is called with: `alignof(T)`, always 2^k. */
  predicate IsPowerOfTwo(n: nat)
  {
    if n <= 1 then n == 1 else n % 2 == 0 && IsPowerOfTwo(n / 2)
  }

  /**
   * `x & -alignment`. For a power-of-two alignment the mask `-alignment` has
   * every bit set except the low k, so the AND rounds `x` down to a multiple
   * of the alignment.
   */
  function ClearLowBits(x: nat, alignment: nat): nat
    requires alignment > 0
  {
    x - x % alignment
  }

  /**
   * `align_forward_adjustment(ptr, alignment)`: `aligned - iptr` where
   * `aligned = (iptr - 1 + alignment) & -alignment`. For iptr == 0 the
   * source's `iptr - 1` wraps to 2^64 - 1; adding the alignment wraps back
   * to `alignment - 1`, which is what the unbounded sum below yields.
   */
  function AlignForwardAdjustment(offset: nat, alignment: nat): (adjustment: nat)
    requires IsPowerOfTwo(alignment)
    ensures adjustment < alignment
    ensures (offset + adjustment) % alignment == 0
  {
    var q := (offset + alignment - 1) / alignment;
    AlignedIsMultiple(offset, alignment);
    DivModUnique(q * alignment, alignment, q, 0);
    ClearLowBits(offset + alignment - 1, alignment) - offset
  }

  lemma Distributes(q: int, p: int, d: int)
    ensures (q - p) * d == q * d - p * d
  {
  }

  lemma MulMonotonic(t: int, u: int, d: int)
    requires t <= u && d >= 0
    ensures t * d <= u * d
  {
    Distributes(u, t, d);
    assert (u - t) * d >= 0;
  }

  /** Euclidean division has one quotient and one remainder. */
  lemma DivModUnique(x: int, d: int, q: int, r: int)
    requires d > 0 && 0 <= r < d && x == q * d + r
    ensures x / d == q && x % d == r
  {
    var q', r' := x / d, x % d;
    assert x == q' * d + r';
    if q' < q {
      MulMonotonic(q' + 1, q, d);
      Distributes(q' + 1, 1, d);
      assert false;
    } else if q' > q {
      MulMonotonic(q + 1, q', d);
      Distributes(q + 1, 1, d);
      assert false;
    }
  }

  /** The aligned offset is the quotient of `offset + alignment - 1` times the alignment. */
  lemma AlignedIsMultiple(offset: nat, alignment: nat)
    requires alignment > 0
    ensures ClearLowBits(offset + alignment - 1, alignment)
            == ((offset + alignment - 1) / alignment) * alignment
  {
    var x := offset + alignment - 1;
    assert x == (x / alignment) * alignment + x % alignment;
  }

  /** No multiple of the alignment lies in `[offset, aligned)`. */
  lemma NoMultipleBelowAligned(offset: nat, alignment: nat, k: nat)
    requires alignment > 0 && offset <= k * alignment
    ensures ((offset + alignment - 1) / alignment) * alignment <= k * alignment
  {
    var x := offset + alignment - 1;
    var q := x / alignment;
    assert x == q * alignment + x % alignment;
    if k < q {
      MulMonotonic(k, q - 1, alignment);
      Distributes(q, 1, alignment);
      assert false;
    }
  }

  /**
   * For a power-of-two alignment the adjustment is the smallest padding that
   * makes `offset + adjustment` a multiple of the alignment: it is below the
   * alignment, it is 0 when the offset is already aligned (offset 0 included),
   * and every aligned position at or after `offset` is at or after
   * `offset + adjustment`.
   */
  lemma AlignForwardAdjustmentCorrect(offset: nat, alignment: nat)
    requires IsPowerOfTwo(alignment)
    ensures AlignForwardAdjustment(offset, alignment) < alignment
    ensures (offset + AlignForwardAdjustment(offset, alignment)) % alignment == 0
    ensures offset % alignment == 0 ==> AlignForwardAdjustment(offset, alignment) == 0
    ensures forall m: nat :: offset <= m && m % alignment == 0 ==>
              offset + AlignForwardAdjustment(offset, alignment) <= m
  {
    LeastAlignedAtOrAbove(offset, alignment);
  }

  /** Rounding `offset + alignment - 1` down gives the least multiple at or above `offset`. */
  lemma LeastAlignedAtOrAbove(offset: nat, a: nat)
    requires a > 0
    ensures offset <= ClearLowBits(offset + a - 1, a)
    ensures offset % a == 0 ==> ClearLowBits(offset + a - 1, a) == offset
    ensures forall m: nat :: offset <= m && m % a == 0 ==> ClearLowBits(offset + a - 1, a) <= m
  {
    var q := (offset + a - 1) / a;
    AlignedIsMultiple(offset, a);
    var aligned := ClearLowBits(offset + a - 1, a);
    assert aligned == q * a;
    if offset % a == 0 {
      var p := offset / a;
      assert offset == p * a + 0;
      NoMultipleBelowAligned(offset, a, p);
    }
    forall m: nat | offset <= m && m % a == 0
      ensures aligned <= m
    {
      assert m == (m / a) * a + m % a;
      NoMultipleBelowAligned(offset, a, m / a);
    }
  }

  /** Where one allocation lands: `[start, end)` with `end` the new offset. */
  datatype Allocation = Allocation(start: nat, end: nat)

  /**
   * The bump rule of `allocate_cpu_heap`/`allocate_gpu_heap`: align the
   * current offset forward, hand out the aligned offset, and move the offset
   * `size` bytes past it.
   */
  function Bump(offset: nat, size: nat, alignment: nat): (r: Allocation)
    requires IsPowerOfTwo(alignment)
    ensures offset <= r.start < offset + alignment
    ensures r.start % alignment == 0
    ensures r.end == r.start + size
  {
    var aligned := offset + AlignForwardAdjustment(offset, alignment);
    Allocation(aligned, aligned + size)
  }

  /**
   * Of all the blocks a bump could hand out, it hands out the lowest one: the
   * least aligned offset at or after the old one, which is the old offset
   * itself when that is already aligned.
   */
  lemma BumpLeastAligned(offset: nat, size: nat, alignment: nat)
    requires IsPowerOfTwo(alignment)
    ensures offset % alignment == 0 ==> Bump(offset, size, alignment).start == offset
    ensures forall m: nat :: offset <= m && m % alignment == 0 ==> Bump(offset, size, alignment).start <= m
  {
    AlignForwardAdjustmentCorrect(offset, alignment);
  }

  /** One `allocate_*_heap(size, alignment)` call. */
  datatype Request = Request(size: nat, alignment: nat)

  predicate PowerOfTwoAlignments(reqs: seq<Request>)
  {
    forall i :: 0 <= i < |reqs| ==> IsPowerOfTwo(reqs[i].alignment)
  }

  /** The allocations a run of requests receives, starting from `offset`. */
  function BumpAll(offset: nat, reqs: seq<Request>): (allocs: seq<Allocation>)
    requires PowerOfTwoAlignments(reqs)
    ensures |allocs| == |reqs|
    decreases |reqs|
  {
    if reqs == [] then []
    else
      var first := Bump(offset, reqs[0].size, reqs[0].alignment);
      [first] + BumpAll(first.end, reqs[1..])
  }

  /** The heap offset after a run of requests. */
  function EndOffset(offset: nat, reqs: seq<Request>): nat
    requires PowerOfTwoAlignments(reqs)
    decreases |reqs|
  {
    if reqs == [] then offset
    else EndOffset(Bump(offset, reqs[0].size, reqs[0].alignment).end, reqs[1..])
  }

  /**
   * Between two resets, successive allocations never overlap: every block is
   * aligned as requested, `size` bytes long, lies in `[offset, EndOffset)`,
   * and each ends no later than any later one starts.
   */
  lemma {:induction false} SuccessiveAllocationsDisjoint(offset: nat, reqs: seq<Request>)
    requires PowerOfTwoAlignments(reqs)
    ensures offset <= EndOffset(offset, reqs)
    ensures forall i :: 0 <= i < |reqs| ==>
              BumpAll(offset, reqs)[i].start % reqs[i].alignment == 0 &&
              BumpAll(offset, reqs)[i].end == BumpAll(offset, reqs)[i].start + reqs[i].size
    ensures forall i :: 0 <= i < |reqs| ==>
              offset <= BumpAll(offset, reqs)[i].start &&
              BumpAll(offset, reqs)[i].end <= EndOffset(offset, reqs)
    ensures forall i, j :: 0 <= i < j < |reqs| ==>
              BumpAll(offset, reqs)[i].end <= BumpAll(offset, reqs)[j].start
    decreases |reqs|
  {
    if reqs != [] {
      var first := Bump(offset, reqs[0].size, reqs[0].alignment);
      var rest := reqs[1..];
      assert PowerOfTwoAlignments(rest) by {
        forall i | 0 <= i < |rest| ensures IsPowerOfTwo(rest[i].alignment) {
          assert rest[i] == reqs[i + 1];
        }
      }
      SuccessiveAllocationsDisjoint(first.end, rest);
      var allocs := BumpAll(offset, reqs);
      var tail := BumpAll(first.end, rest);
      assert allocs == [first] + tail;
      forall i | 0 <= i < |reqs|
        ensures allocs[i].start % reqs[i].alignment == 0
        ensures allocs[i].end == allocs[i].start + reqs[i].size
        ensures offset <= allocs[i].start && allocs[i].end <= EndOffset(offset, reqs)
      {
        if i > 0 {
          assert allocs[i] == tail[i - 1] && reqs[i] == rest[i - 1];
        }
      }
      forall i, j | 0 <= i < j < |reqs|
        ensures allocs[i].end <= allocs[j].start
      {
        assert allocs[j] == tail[j - 1];
        if i > 0 {
          assert allocs[i] == tail[i - 1];
        }
      }
    }
  }
}
