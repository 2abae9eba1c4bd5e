/**
 Physical memory and the frame allocator (kernel/src/frames.rs).

 RAM is a map from the base address of each 4 KiB frame to its 512 words.  The free list
 is intrusive: word 0 of a free frame holds the address of the next one.
 */
module Frames {
  import opened Bits

  type Memory = map<nat, seq<Word>>

  datatype Option<+T> = None | Some(value: T)

  /** Frames hold 512 words and none of them is at address 0, which ends the free list. */
  ghost predicate MemoryOk(m: Memory) {
    forall f | f in m :: 0 < f < TWO48 && |m[f]| == 512
  }

  ghost predicate Aligned(m: Memory) {
    forall f | f in m :: f % 4096 == 0
  }

  function Put(row: seq<Word>, index: nat, value: Word): (r: seq<Word>)
    requires index < |row|
    ensures |r| == |row|
  {
    row[index := value]
  }

  /** `m` with word `index` of `frame` replaced. */
  function Stored(m: Memory, frame: nat, index: nat, value: Word): (r: Memory)
    requires frame in m && index < |m[frame]|
    ensures r.Keys == m.Keys
  {
    m[frame := Put(m[frame], index, value)]
  }

  /** Following the links from `head` through `m` until address 0 visits exactly `free`. */
  ghost predicate Linked(m: Memory, head: nat, free: seq<nat>)
    decreases free
  {
    if free == [] then head == 0
    else
      && head == free[0]
      && head != 0 && head in m && |m[head]| == 512
      && Linked(m, m[head][0], free[1..])
  }

  /** The list depends only on the frames it runs through. */
  lemma {:induction false} LinkedFrame(m: Memory, m': Memory, head: nat, free: seq<nat>)
    requires Linked(m, head, free)
    requires forall f | f in free :: f in m && f in m' && m'[f] == m[f]
    ensures Linked(m', head, free)
    decreases free
  {
    if free != [] {
      assert free[0] in free;
      LinkedFrame(m, m', m[head][0], free[1..]);
    }
  }

  lemma {:induction false} LinkedInside(m: Memory, head: nat, free: seq<nat>)
    requires Linked(m, head, free)
    ensures forall f | f in free :: f in m && f != 0
    decreases free
  {
    if free != [] { LinkedInside(m, m[head][0], free[1..]); }
  }

  /** The links leave no choice: one head starts one list. */
  lemma {:induction false} LinkedUnique(m: Memory, head: nat, free: seq<nat>, free': seq<nat>)
    requires Linked(m, head, free) && Linked(m, head, free')
    ensures free == free'
    decreases free
  {
    if free != [] && free' != [] { LinkedUnique(m, m[head][0], free[1..], free'[1..]); }
  }

  /** Every suffix of the list is the list from its first frame on. */
  lemma {:induction false} LinkedSuffix(m: Memory, head: nat, free: seq<nat>, i: nat)
    requires Linked(m, head, free) && i < |free|
    ensures Linked(m, free[i], free[i..])
    decreases i
  {
    if i == 0 {
      assert free[0..] == free;
    } else {
      LinkedSuffix(m, m[head][0], free[1..], i - 1);
      assert free[1..][i - 1..] == free[i..];
    }
  }

  /** The list has no cycle: a frame met twice would start two lists of different length, and both
      end at address 0. */
  lemma LinkedDistinct(m: Memory, head: nat, free: seq<nat>)
    requires Linked(m, head, free)
    ensures forall i, j | 0 <= i < j < |free| :: free[i] != free[j]
    ensures free != [] ==> free[0] !in free[1..]
  {
    hide Linked;
    forall i, j | 0 <= i < j < |free|
      ensures free[i] != free[j]
    {
      LinkedSuffix(m, head, free, i);
      LinkedSuffix(m, head, free, j);
      if free[i] == free[j] { LinkedUnique(m, free[i], free[i..], free[j..]); }
    }
  }

  /** Writing a frame that is not free leaves the list alone. */
  lemma LinkedStored(m: Memory, head: nat, free: seq<nat>, f: nat, i: nat, v: Word)
    requires Linked(m, head, free) && f in m && i < |m[f]| && f !in free
    ensures Linked(Stored(m, f, i, v), head, free)
  {
    LinkedInside(m, head, free);
    LinkedFrame(m, Stored(m, f, i, v), head, free);
  }

  lemma LinkedPush(m: Memory, head: Word, free: seq<nat>, frame: nat)
    requires Linked(m, head, free) && frame in m && frame != 0 && |m[frame]| == 512 && frame !in free
    ensures Linked(Stored(m, frame, 0, head), frame, [frame] + free)
  {
    var m' := Stored(m, frame, 0, head);
    LinkedInside(m, head, free);
    LinkedFrame(m, m', head, free);
    assert ([frame] + free)[1..] == free;
  }

  /** A whole frame inside [start, end). */
  ghost predicate Whole(f: nat, start: nat, end: nat) {
    f % 4096 == 0 && start <= f && f + 4096 <= end
  }

  /** The k frames from `first` on, the last one first. */
  ghost function Descending(first: nat, k: nat): (r: seq<nat>)
    ensures forall f | f in r :: first <= f < first + 4096 * k
  {
    if k == 0 then [] else [first + 4096 * (k - 1)] + Descending(first, k - 1)
  }

  lemma {:induction false} DescendingHolds(first: nat, k: nat, f: nat)
    requires first % 4096 == 0
    ensures f in Descending(first, k) <==> f % 4096 == 0 && first <= f < first + 4096 * k
  {
    if k > 0 { DescendingHolds(first, k - 1, f); }
  }

  lemma DescendingNext(first: nat, k: nat, rest: seq<nat>)
    ensures [first + 4096 * k] + (Descending(first, k) + rest) == Descending(first, k + 1) + rest
  {}

  lemma WholeAt(first: nat, k: nat)
    requires first % 4096 == 0
    ensures (first + 4096 * k) % 4096 == 0
  {}

  lemma RegionHolds(start: nat, end: nat, first: nat, k: nat, f: nat)
    requires first % 4096 == 0 && start <= first < start + 4096
    requires first + 4096 * k + 4096 > end && (k == 0 || first + 4096 * k <= end)
    ensures f in Descending(first, k) <==> Whole(f, start, end)
  {
    DescendingHolds(first, k, f);
  }

  /** `frame_align_up`: the least frame boundary at or above `addr`. */
  function FrameAlignUp(addr: nat): (r: nat)
    requires addr + 4096 - 1 < TWO64
    ensures r % 4096 == 0 && addr <= r < addr + 4096
  {
    AlignUpFrame(addr);
    AlignUp(addr, 4096)
  }

  class Ram {
    var words: Memory

    constructor (m: Memory)
      ensures words == m
    {
      words := m;
    }

    method Write(frame: nat, index: nat, value: Word)
      requires frame in words && index < |words[frame]|
      modifies this
      ensures words == Stored(old(words), frame, index, value)
    {
      words := words[frame := Put(words[frame], index, value)];
    }
  }

  class FrameAllocator {
    const ram: Ram
    var head: Word
    var freeCount: nat
    /** The free frames, first to be handed out first. */
    ghost var free: seq<nat>

    ghost predicate Valid()
      reads this, ram
    {
      && MemoryOk(ram.words)
      && Linked(ram.words, head, free)
      && freeCount == |free|
    }

    constructor (ram: Ram)
      requires MemoryOk(ram.words)
      ensures Valid() && free == [] && this.ram == ram
    {
      this.ram := ram;
      head, freeCount, free := 0, 0, [];
    }

    /** Push a frame: it stores the old head inside itself. */
    method Push(frame: nat)
      requires Valid() && frame in ram.words && frame !in free
      modifies this, ram
      ensures Valid()
      ensures free == [frame] + old(free)
      ensures ram.words == Stored(old(ram.words), frame, 0, old(head))
    {
      LinkedPush(ram.words, head, free, frame);
      ram.Write(frame, 0, head);
      head := frame;
      freeCount := freeCount + 1;
      free := [frame] + free;
    }

    /** Pop the head; None exactly when no frame is free. */
    method Pop() returns (r: Option<nat>)
      requires Valid()
      modifies this
      ensures Valid()
      ensures r.None? <==> old(free) == []
      ensures r.None? ==> free == []
      ensures r.Some? ==> free == old(free)[1..] && r.value == old(free)[0] && r.value in ram.words && r.value !in free
    {
      if head == 0 {
        return None;
      }
      LinkedDistinct(ram.words, head, free);
      var frame := head;
      head := ram.words[frame][0];
      freeCount := freeCount - 1;
      free := free[1..];
      return Some(frame);
    }

    /** Every whole frame of [start, end) joins the pool, and nothing else does. */
    method AddRegion(start: nat, end: nat)
      requires Valid() && 0 < start && start + 4096 < TWO64
      requires forall f: nat :: Whole(f, start, end) ==> f in ram.words && f !in free
      modifies this, ram
      ensures Valid() && ram.words.Keys == old(ram.words.Keys)
      ensures forall f: nat :: f in free <==> f in old(free) || Whole(f, start, end)
    {
      hide FrameAlignUp;
      hide Linked;
      var frame := FrameAlignUp(start);
      ghost var first, k := frame, 0;
      while frame + 4096 <= end
        invariant Valid() && ram.words.Keys == old(ram.words.Keys)
        invariant frame == first + 4096 * k && (k == 0 || frame <= end)
        invariant free == Descending(first, k) + old(free)
      {
        assert Whole(frame, start, end) by { WholeAt(first, k); }
        Push(frame);
        DescendingNext(first, k, old(free));
        frame, k := frame + 4096, k + 1;
      }
      forall f: nat {
        RegionHolds(start, end, first, k, f);
      }
    }
  }
}
