/**
 The kernel heap: a bump allocator over one window (kernel/src/allocator.rs).
 */
module Heap {
  import opened Bits
  import opened Frames

  /** A block handed out and not yet given back. */
  datatype Block = Block(start: nat, size: nat, align: nat) {
    function End(): nat {
      start + size
    }
  }

  /** Blocks in the order they were handed out: aligned, inside [lo, hi) and apart. */
  ghost predicate Apart(live: seq<Block>, lo: nat, hi: nat) {
    && (forall i | 0 <= i < |live| ::
          && lo <= live[i].start && live[i].End() <= hi
          && live[i].align >= 1 && live[i].start % live[i].align == 0)
    && (forall i, j | 0 <= i < j < |live| :: live[i].End() <= live[j].start)
  }

  lemma ApartMore(live: seq<Block>, lo: nat, hi: nat, b: Block)
    requires Apart(live, lo, hi) && lo <= hi <= b.start && b.align >= 1 && b.start % b.align == 0
    ensures Apart(live + [b], lo, b.End())
  {}

  /** The least aligned address at or above `next`, as a word. */
  lemma NextAligned(next: nat, align: Word) returns (start: nat)
    requires next <= TWO64 / 2 && IsPowerOfTwo(align)
    ensures next + align - 1 < TWO64 && align >= 1 && start == AlignUp(next, align)
    ensures next <= start && start % align == 0
    ensures forall a: nat | next <= a && a % align == 0 :: start <= a
  {
    var k: nat :| k < 64 && align == Pow2(k);
    Pow2Values();
    Pow2Monotone(k, 63);
    AlignUpIsLeast(next, align);
    start := AlignUp(next, align);
  }

  /** A block fits somewhere exactly when it fits at the least aligned address. */
  lemma FitsIff(next: nat, align: nat, size: nat, end: nat, start: nat)
    requires align >= 1 && next <= start && start % align == 0
    requires forall a: nat | next <= a && a % align == 0 :: start <= a
    ensures start + size <= end <==> exists a: nat :: next <= a && a % align == 0 && a + size <= end
  {}

  class BumpAllocator {
    var heapStart: nat
    var heapEnd: nat
    var next: nat
    var allocations: nat
    ghost var live: seq<Block>

    constructor (start: Word, size: Word)
      requires start + size <= TWO64 / 2
      ensures Valid() && live == [] && heapStart == start && heapEnd == start + size
    {
      heapStart, heapEnd, next, allocations := start, start + size, start, 0;
      live := [];
    }

    /** Live blocks are pairwise disjoint, aligned and inside the window, below `next`. */
    ghost predicate Valid()
      reads this
    {
      && heapStart <= next <= heapEnd <= TWO64 / 2
      && allocations == |live|
      && Apart(live, heapStart, next)
    }

    /** The block starts at the least aligned address at or above `next`; the null result
        comes exactly when that block does not fit. */
    method Alloc(size: Word, align: Word) returns (at: Option<nat>)
      requires Valid() && IsPowerOfTwo(align)
      modifies this
      ensures Valid() && heapStart == old(heapStart) && heapEnd == old(heapEnd)
      ensures at.None? ==> next == old(next) && live == old(live)
      ensures at.Some? ==> old(next) <= at.value && at.value + size == next
      ensures at.Some? ==> live == old(live) + [Block(at.value, size, align)]
      ensures at.Some? <==> exists a: nat :: old(next) <= a && a % align == 0 && a + size <= heapEnd
      ensures forall a: nat | at.Some? && old(next) <= a && a % align == 0 :: at.value <= a
    {
      hide AlignUp;
      hide IsPowerOfTwo;
      hide Apart;
      ghost var least := NextAligned(next, align);
      var start := AlignUp(next, align);
      FitsIff(next, align, size, heapEnd, start);
      ApartMore(live, heapStart, next, Block(start, size, align));
      var end := start + size;
      if end >= TWO64 || end > heapEnd {
        return None;
      }
      next := end;
      allocations := allocations + 1;
      live := live + [Block(start, size, align)];
      at := Some(start);
    }

    /** `dealloc` of the live block with index i: the others stay, and `next` goes back to
        the start exactly when none is left. */
    method Dealloc(ghost i: nat)
      requires Valid() && i < |live|
      modifies this
      ensures Valid() && heapStart == old(heapStart) && heapEnd == old(heapEnd)
      ensures live == old(live)[..i] + old(live)[i + 1..]
      ensures next == if live == [] then heapStart else old(next)
    {
      allocations := allocations - 1;
      live := live[..i] + live[i + 1..];
      if allocations == 0 {
        next := heapStart;
      }
    }
  }
}
