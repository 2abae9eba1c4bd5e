/**
 The gate for user pointers, `is_user_range` (kernel/src/process.rs), and what it promises.
 */
module Gate {
  import opened Bits
  import opened PageTables
  import opened Loader

  const USER_BASE: nat := 0x80_0000_0000
  const USER_STACK_VA: nat := 0x80_0010_0000
  const USER_RING_VA: nat := 0x80_0030_0000

  predicate OnStack(ptr: nat, end: nat) {
    USER_STACK_VA <= ptr && end <= USER_STACK_VA + 4096
  }

  predicate Inside(r: Range, ptr: nat, end: nat) {
    r.start <= ptr && end <= r.end
  }

  /** The answer of the first range that contains [ptr, end). */
  function FirstMatch(ranges: seq<Range>, ptr: nat, end: nat, needWrite: bool): bool {
    if ranges == [] then false
    else if Inside(ranges[0], ptr, end) then !needWrite || ranges[0].writable
    else FirstMatch(ranges[1..], ptr, end, needWrite)
  }

  /** Whether [ptr, ptr + len) is accepted: no overflow, on the stack or inside one range. */
  predicate Accepts(ranges: seq<Range>, ptr: nat, len: nat, needWrite: bool) {
    ptr + len < TWO64 && (OnStack(ptr, ptr + len) || FirstMatch(ranges, ptr, ptr + len, needWrite))
  }

  lemma AcceptedBelow(ranges: seq<Range>, ptr: nat, len: nat, needWrite: bool)
    ensures Accepts(ranges, ptr, len, needWrite) ==> ptr + len < TWO64
  {}

  /** `is_user_range`, with its scan of the recorded ranges. */
  method IsUserRange(ranges: seq<Range>, ptr: Word, len: Word, needWrite: bool) returns (ok: bool)
    ensures ok == Accepts(ranges, ptr, len, needWrite)
  {
    var end := ptr + len;
    if end >= TWO64 {
      return false;
    }
    if USER_STACK_VA <= ptr && end <= USER_STACK_VA + 4096 {
      return true;
    }
    var i := 0;
    while i < |ranges|
      invariant 0 <= i <= |ranges|
      invariant FirstMatch(ranges, ptr, end, needWrite) == FirstMatch(ranges[i..], ptr, end, needWrite)
    {
      assert ranges[i..][1..] == ranges[i + 1..];
      if Inside(ranges[i], ptr, end) {
        return !needWrite || ranges[i].writable;
      }
      i := i + 1;
    }
    return false;
  }

  predicate HasByte(r: Range, a: nat) {
    r.start <= a < r.end
  }

  /** No byte lies in two ranges. */
  ghost predicate RangesDisjoint(ranges: seq<Range>) {
    forall i, j, a: nat | 0 <= i < |ranges| && 0 <= j < |ranges| && HasByte(ranges[i], a) && HasByte(ranges[j], a) ::
      i == j
  }

  /** An accepted range that is not on the stack lies in one recorded range. */
  lemma {:induction false} MatchFound(ranges: seq<Range>, ptr: nat, end: nat, needWrite: bool) returns (i: nat)
    requires FirstMatch(ranges, ptr, end, needWrite)
    ensures i < |ranges| && Inside(ranges[i], ptr, end) && (needWrite ==> ranges[i].writable)
  {
    if Inside(ranges[0], ptr, end) {
      i := 0;
    } else {
      i := MatchFound(ranges[1..], ptr, end, needWrite);
      i := i + 1;
    }
  }

  lemma {:induction false} MatchOnly(ranges: seq<Range>, ptr: nat, end: nat, needWrite: bool, i: nat)
    requires i < |ranges| && Inside(ranges[i], ptr, end) && (needWrite ==> ranges[i].writable)
    requires forall j | 0 <= j < i :: !Inside(ranges[j], ptr, end)
    ensures FirstMatch(ranges, ptr, end, needWrite)
  {
    if i > 0 {
      assert !Inside(ranges[0], ptr, end);
      MatchOnly(ranges[1..], ptr, end, needWrite, i - 1);
    }
  }

  /** The first range that contains [ptr, end), or the number of ranges. */
  function First(ranges: seq<Range>, ptr: nat, end: nat): (i: nat)
    ensures i <= |ranges| && (i < |ranges| ==> Inside(ranges[i], ptr, end))
    ensures forall j | 0 <= j < i :: !Inside(ranges[j], ptr, end)
  {
    if ranges == [] then 0
    else if Inside(ranges[0], ptr, end) then 0
    else
      var rest := ranges[1..];
      assert forall j | 0 < j < |ranges| :: ranges[j] == rest[j - 1];
      1 + First(rest, ptr, end)
  }

  lemma {:induction false} FirstDecides(ranges: seq<Range>, ptr: nat, end: nat, needWrite: bool)
    ensures FirstMatch(ranges, ptr, end, needWrite)
      <==> First(ranges, ptr, end) < |ranges| && (needWrite ==> ranges[First(ranges, ptr, end)].writable)
  {
    if ranges != [] && !Inside(ranges[0], ptr, end) {
      FirstDecides(ranges[1..], ptr, end, needWrite);
    }
  }

  lemma FirstIs(ranges: seq<Range>, ptr: nat, end: nat, k: nat)
    requires k < |ranges| && Inside(ranges[k], ptr, end) && forall j | 0 <= j < k :: !Inside(ranges[j], ptr, end)
    ensures First(ranges, ptr, end) == k
  {
  }

  function Max(a: nat, b: nat): nat {
    if a < b then b else a
  }

  function Min(a: nat, b: nat): nat {
    if a < b then a else b
  }

  /** Read-only range i stands in front of writable range k: they share m bytes or more (or touch,
      for m = 0), neither what they share nor range k is on the stack page, and nothing in front of
      range i contains what they share, nothing in front of range k contains range k. */
  predicate Shadows(ranges: seq<Range>, m: nat, i: nat, k: nat) {
    && i < k < |ranges| && !ranges[i].writable && ranges[k].writable
    && var lo, hi := Max(ranges[i].start, ranges[k].start), Min(ranges[i].end, ranges[k].end);
       && lo + m <= hi && !OnStack(lo, hi) && (forall j | 0 <= j < i :: !Inside(ranges[j], lo, hi))
       && !OnStack(ranges[k].start, ranges[k].end)
       && (forall j | 0 <= j < k :: !Inside(ranges[j], ranges[k].start, ranges[k].end))
  }

  ghost predicate Shadowed(ranges: seq<Range>, m: nat) {
    exists i: nat, k: nat :: Shadows(ranges, m, i, k)
  }

  /** Ranges of 64-bit addresses. */
  predicate Bounded(ranges: seq<Range>) {
    forall i | 0 <= i < |ranges| :: ranges[i].end < TWO64
  }

  /** A part of an accepted range is accepted, unless a read-only range stands in front of a
      writable one and shares at least as much with it. */
  lemma PartOrShadow(ranges: seq<Range>, ptr: nat, len: nat, needWrite: bool, p: nat, n: nat)
    requires Accepts(ranges, ptr, len, needWrite) && ptr <= p && p + n <= ptr + len
    ensures Accepts(ranges, p, n, needWrite) || Shadowed(ranges, n)
  {
    if !OnStack(ptr, ptr + len) && !OnStack(p, p + n) {
      FirstDecides(ranges, ptr, ptr + len, needWrite);
      FirstDecides(ranges, p, p + n, needWrite);
      var k, i := First(ranges, ptr, ptr + len), First(ranges, p, p + n);
      assert Inside(ranges[k], p, p + n);
      if needWrite && !ranges[i].writable {
        assert Shadows(ranges, n, i, k);
      }
    }
  }

  /** A shadowed range is accepted for writing as a whole, and its overlap is turned away. */
  lemma ShadowRejectsPart(ranges: seq<Range>, m: nat, i: nat, k: nat)
    requires Bounded(ranges) && Shadows(ranges, m, i, k)
    ensures var r := ranges[k];
      var lo, hi := Max(ranges[i].start, r.start), Min(ranges[i].end, r.end);
      && r.start <= lo <= lo + m <= hi <= r.end
      && Accepts(ranges, r.start, r.end - r.start, true) && !Accepts(ranges, lo, hi - lo, true)
  {
    var r := ranges[k];
    var lo, hi := Max(ranges[i].start, r.start), Min(ranges[i].end, r.end);
    FirstIs(ranges, r.start, r.end, k);
    FirstDecides(ranges, r.start, r.end, true);
    FirstIs(ranges, lo, hi, i);
    FirstDecides(ranges, lo, hi, true);
  }

  /** Every part of at least m bytes of every accepted range is accepted. */
  ghost predicate PartsAccepted(ranges: seq<Range>, m: nat) {
    forall ptr: nat, len: nat, needWrite, p: nat, n: nat |
      Accepts(ranges, ptr, len, needWrite) && ptr <= p && n >= m && p + n <= ptr + len ::
        Accepts(ranges, p, n, needWrite)
  }

  lemma LargerShadow(ranges: seq<Range>, m: nat, n: nat)
    requires m <= n && Shadowed(ranges, n)
    ensures Shadowed(ranges, m)
  {
    var i: nat, k: nat :| Shadows(ranges, n, i, k);
    assert Shadows(ranges, m, i, k);
  }

  /** The exact condition for parts to be accepted: all parts for m = 0, all but the empty ones
      for m = 1. */
  lemma PartsAcceptedIff(ranges: seq<Range>, m: nat)
    requires Bounded(ranges)
    ensures PartsAccepted(ranges, m) <==> !Shadowed(ranges, m)
  {
    hide Accepts;
    if Shadowed(ranges, m) {
      var i: nat, k: nat :| Shadows(ranges, m, i, k);
      ShadowRejectsPart(ranges, m, i, k);
    } else {
      forall ptr: nat, len: nat, needWrite, p: nat, n: nat |
        Accepts(ranges, ptr, len, needWrite) && ptr <= p && n >= m && p + n <= ptr + len
        ensures Accepts(ranges, p, n, needWrite)
      {
        if Shadowed(ranges, n) {
          LargerShadow(ranges, m, n);
        }
        PartOrShadow(ranges, ptr, len, needWrite, p, n);
      }
    }
  }

  /** Disjoint ranges accept all non-empty parts, but ranges may overlap and do so too. */
  lemma DisjointNotShadowed(ranges: seq<Range>, m: nat)
    requires RangesDisjoint(ranges) && m > 0
    ensures !Shadowed(ranges, m)
  {
    if Shadowed(ranges, m) {
      var i: nat, k: nat :| Shadows(ranges, m, i, k);
      SharedByte(ranges, m, i, k);
    }
  }

  lemma SharedByte(ranges: seq<Range>, m: nat, i: nat, k: nat)
    requires m > 0 && Shadows(ranges, m, i, k)
    ensures HasByte(ranges[i], Max(ranges[i].start, ranges[k].start))
      && HasByte(ranges[k], Max(ranges[i].start, ranges[k].start))
  {
  }

  // ---------------------------------------------------------------- byte by byte

  /** Each of the first n bytes of every range accepted for writing is accepted on its own, as
      `copy_to_user` asks for it. */
  ghost predicate ByteSafe(ranges: seq<Range>, n: nat) {
    forall ptr: nat, len: nat, off: nat | Accepts(ranges, ptr, len, true) && off < len && off < n ::
      ByteAccepted(ranges, ptr, off)
  }

  predicate ByteAccepted(ranges: seq<Range>, ptr: nat, off: nat) {
    Accepts(ranges, ptr + off, 1, true)
  }

  /** Byte a of writable range k is held by a read-only range in front, off the stack page, although
      the end of range k from n - 1 bytes before a on is accepted for writing. */
  predicate Refuses(ranges: seq<Range>, n: nat, k: nat, a: nat) {
    && k < |ranges| && ranges[k].writable && HasByte(ranges[k], a)
    && var lo := if a + 1 < n then ranges[k].start else Max(ranges[k].start, a + 1 - n);
       && !OnStack(lo, ranges[k].end) && First(ranges, lo, ranges[k].end) == k
       && !OnStack(a, a + 1) && First(ranges, a, a + 1) < |ranges| && !ranges[First(ranges, a, a + 1)].writable
  }

  /** The exact condition on the ranges, without the gate. */
  lemma ByteSafeIff(ranges: seq<Range>, n: nat)
    requires Bounded(ranges) && n > 0
    ensures ByteSafe(ranges, n) <==> !exists k: nat, a: nat :: Refuses(ranges, n, k, a)
  {
    if exists k: nat, a: nat :: Refuses(ranges, n, k, a) {
      var k: nat, a: nat :| Refuses(ranges, n, k, a);
      RefusedByte(ranges, n, k, a);
    } else {
      forall ptr: nat, len: nat, off: nat | Accepts(ranges, ptr, len, true) && off < len && off < n
        ensures ByteAccepted(ranges, ptr, off)
      {
        var k, a := HeldOrRefused(ranges, n, ptr, len, off);
      }
    }
  }

  lemma RefusedByte(ranges: seq<Range>, n: nat, k: nat, a: nat)
    requires Bounded(ranges) && n > 0 && Refuses(ranges, n, k, a)
    ensures var lo := if a + 1 < n then ranges[k].start else Max(ranges[k].start, a + 1 - n);
      && lo <= a < ranges[k].end && a - lo < n
      && Accepts(ranges, lo, ranges[k].end - lo, true) && !ByteAccepted(ranges, lo, a - lo)
  {
    var lo := if a + 1 < n then ranges[k].start else Max(ranges[k].start, a + 1 - n);
    FirstDecides(ranges, lo, ranges[k].end, true);
    FirstDecides(ranges, a, a + 1, true);
  }

  /** A byte of an accepted range is accepted, or some range refuses it. */
  lemma HeldOrRefused(ranges: seq<Range>, n: nat, ptr: nat, len: nat, off: nat) returns (k: nat, a: nat)
    requires Accepts(ranges, ptr, len, true) && off < len && off < n
    ensures ByteAccepted(ranges, ptr, off) || Refuses(ranges, n, k, a)
  {
    a := ptr + off;
    k := First(ranges, ptr, ptr + len);
    FirstDecides(ranges, ptr, ptr + len, true);
    FirstDecides(ranges, a, a + 1, true);
    if !ByteAccepted(ranges, ptr, off) {
      var lo := if a + 1 < n then ranges[k].start else Max(ranges[k].start, a + 1 - n);
      assert lo <= ptr && ptr + len <= ranges[k].end;
      forall j | 0 <= j < k
        ensures !Inside(ranges[j], lo, ranges[k].end)
      {
        assert !Inside(ranges[j], ptr, ptr + len);
      }
      FirstIs(ranges, lo, ranges[k].end, k);
      assert Inside(ranges[k], a, a + 1);
    }
  }

  /** The simplest ranges that are not safe: a read-only one in front of a writable one that starts
      at the same address and goes on further. */
  lemma FrontPageRefuses(x: nat, n: nat)
    requires x + 8192 < TWO64 && n > 0 && (x + 8192 <= USER_STACK_VA || USER_STACK_VA + 4096 <= x)
    ensures !ByteSafe([Range(x, x + 4096, false), Range(x, x + 8192, true)], n)
  {
    var ranges := [Range(x, x + 4096, false), Range(x, x + 8192, true)];
    FirstIs(ranges, x, x + 8192, 1);
    FirstIs(ranges, x, x + 1, 0);
    assert Refuses(ranges, n, 1, x);
    ByteSafeIff(ranges, n);
  }

  /** Ranges whose parts are all accepted are safe at any length. */
  lemma PartsByteSafe(ranges: seq<Range>, n: nat)
    requires !Shadowed(ranges, 1)
    ensures ByteSafe(ranges, n)
  {
    forall ptr: nat, len: nat, off: nat | Accepts(ranges, ptr, len, true) && off < len && off < n
      ensures ByteAccepted(ranges, ptr, off)
    {
      PartOrShadow(ranges, ptr, len, true, ptr + off, 1);
    }
  }

  /** So even disjoint ranges turn empty parts away: with a read-only range just above a writable
      one, and recorded before it, the empty part between them is refused. */
  lemma AdjacentShadow(a: nat, b: nat, c: nat)
    requires a < b < c < TWO64 && !OnStack(a, b) && !OnStack(b, b)
    ensures var ranges := [Range(b, c, false), Range(a, b, true)];
      RangesDisjoint(ranges) && Accepts(ranges, a, b - a, true) && !Accepts(ranges, b, 0, true)
  {
    var ranges := [Range(b, c, false), Range(a, b, true)];
    assert Shadows(ranges, 0, 0, 1);
    ShadowRejectsPart(ranges, 0, 0, 1);
  }

  // ---------------------------------------------------------------- the ring page

  /** Address `a` lies in the page of the shared ring. */
  predicate InRing(a: nat) {
    USER_RING_VA <= a < USER_RING_VA + 4096
  }

  /** No byte that may be written through the gate lies in the ring page. */
  ghost predicate RingApart(ranges: seq<Range>) {
    forall ptr: nat, len: nat, a: nat | Accepts(ranges, ptr, len, true) && ptr <= a < ptr + len :: !InRing(a)
  }

  predicate MeetsRing(r: Range) {
    r.start < r.end && r.start < USER_RING_VA + 4096 && USER_RING_VA < r.end
  }

  /** Range `k` is writable, meets the ring page, and lies inside no earlier range. */
  predicate OpensRing(ranges: seq<Range>, k: nat)
    requires k < |ranges|
  {
    && ranges[k].writable && MeetsRing(ranges[k])
    && forall i | 0 <= i < k :: !Inside(ranges[i], ranges[k].start, ranges[k].end)
  }

  /** The gate keeps writes out of the ring page exactly when every writable range that meets it lies
      inside an earlier range. */
  lemma RingApartIff(ranges: seq<Range>)
    requires Bounded(ranges)
    ensures RingApart(ranges) <==> forall k | 0 <= k < |ranges| :: !OpensRing(ranges, k)
  {
    forall ptr: nat, len: nat, a: nat | Accepts(ranges, ptr, len, true) && ptr <= a < ptr + len && InRing(a)
      ensures exists k :: 0 <= k < |ranges| && OpensRing(ranges, k)
    {
      FirstDecides(ranges, ptr, ptr + len, true);
      assert OpensRing(ranges, First(ranges, ptr, ptr + len));
    }
    forall k | 0 <= k < |ranges| && OpensRing(ranges, k)
      ensures !RingApart(ranges)
    {
      var r := ranges[k];
      MatchOnly(ranges, r.start, r.end, true, k);
      assert Accepts(ranges, r.start, r.end - r.start, true);
      assert InRing(Max(r.start, USER_RING_VA));
    }
  }

  /** The failing input: a writable segment at the ring's address makes the ring page a buffer. */
  lemma RingNamed(a: nat)
    requires InRing(a)
    ensures var ranges := [Range(USER_RING_VA, USER_RING_VA + 4096, true)];
      Accepts(ranges, a, 1, true) && !RingApart(ranges)
  {
    var ranges := [Range(USER_RING_VA, USER_RING_VA + 4096, true)];
    assert Accepts(ranges, a, 1, true);
  }

  // ---------------------------------------------------------------- pages behind the ranges

  const STACK_PAGE: nat := USER_STACK_VA / 4096
  const RING_PAGE: nat := USER_RING_VA / 4096
  const WINDOW: nat := USER_BASE / 4096

  /** Page `v` holds a byte of the range, bits above 47 not being translated. */
  predicate RangeCovers(r: Range, v: nat) {
    PageOf(r.start) <= v && v * 4096 < r.start % TWO48 + (r.end - r.start)
  }

  /** What the loader records: page-aligned, and inside one window of 2^48 bytes. */
  predicate RangeOk(r: Range) {
    r.start % 4096 == 0 && r.start <= r.end < TWO64 && r.start % TWO48 + (r.end - r.start) <= TWO48
  }

  ghost predicate RangesOk(ranges: seq<Range>) {
    forall i | 0 <= i < |ranges| :: RangeOk(ranges[i])
  }

  /** Index of the last range with a byte in page `v`, or -1: the segment loaded last wins. */
  function LastRange(ranges: seq<Range>, v: nat): (i: int)
    ensures -1 <= i < |ranges| && (i >= 0 ==> RangeCovers(ranges[i], v))
    ensures forall j | i < j < |ranges| :: !RangeCovers(ranges[j], v)
  {
    if ranges == [] then -1
    else if RangeCovers(ranges[|ranges| - 1], v) then |ranges| - 1
    else LastRange(ranges[..|ranges| - 1], v)
  }

  /** EL0 may store to page `v` of a process with these ranges: the stack, the ring once it is set
      up, and the pages whose last range is writable. */
  predicate PageWritable(ranges: seq<Range>, ring: bool, v: nat) {
    || v == STACK_PAGE || (ring && v == RING_PAGE)
    || (LastRange(ranges, v) >= 0 && ranges[LastRange(ranges, v)].writable)
  }

  lemma PageLow(a: nat)
    ensures PageOf(a) == a % TWO48 / 4096
  {
    var h, r := a / TWO48, a % TWO48;
    assert a / 4096 == 0x10_0000_0000 * h + r / 4096;
    PageHigh(r / 4096, h);
  }

  lemma PageHigh(x: nat, h: nat)
    requires x < 0x10_0000_0000
    ensures (0x10_0000_0000 * h + x) % 0x10_0000_0000 == x
  {}

  lemma LowOffset(start: nat, a: nat)
    requires start <= a && start % TWO48 + (a - start) < TWO48
    ensures a % TWO48 == start % TWO48 + (a - start)
  {
    var h := start / TWO48;
    assert a == TWO48 * h + (start % TWO48 + (a - start));
  }

  /** A byte of a range lies in a page of the range. */
  lemma ByteCovered(r: Range, a: nat)
    requires RangeOk(r) && HasByte(r, a)
    ensures RangeCovers(r, PageOf(a))
  {
    hide PageOf;
    LowOffset(r.start, a);
    PageLow(a);
    PageLow(r.start);
  }

  /** And a page of a range has a byte of it. */
  lemma PageByte(r: Range, v: nat) returns (a: nat)
    requires RangeOk(r) && RangeCovers(r, v)
    ensures HasByte(r, a) && PageOf(a) == v
  {
    hide PageOf;
    PageLow(r.start);
    a := r.start + (v * 4096 - r.start % TWO48);
    LowOffset(r.start, a);
    PageLow(a);
  }

  // ---------------------------------------------------------------- what acceptance means

  /** The stack page and every recorded page at or above `USER_BASE` are mapped, and are writable
      exactly where the last range says so.  Below lie the shared pages, which another load may
      replace. */
  ghost predicate RangesMapped(pages: map<(nat, nat), Mapping>, root: nat, ranges: seq<Range>, ring: bool) {
    && (root, STACK_PAGE) in pages && El0Writable(pages[(root, STACK_PAGE)].flags)
    && forall v: nat | v >= WINDOW && LastRange(ranges, v) >= 0 ::
         (root, v) in pages && (El0Writable(pages[(root, v)].flags) <==> PageWritable(ranges, ring, v))
  }

  /** Gate soundness: the page of every accepted byte, if it lies at or above `USER_BASE`, is mapped in
      the process's own space, and is EL0-writable exactly where the last range over it says so. */
  lemma AcceptedIsMapped(pages: map<(nat, nat), Mapping>, root: nat, ranges: seq<Range>, ring: bool,
                         ptr: nat, len: nat, needWrite: bool, a: nat)
    requires RangesMapped(pages, root, ranges, ring) && RangesOk(ranges) && Accepts(ranges, ptr, len, needWrite)
    requires ptr <= a < ptr + len
    ensures PageOf(a) >= WINDOW ==>
      && (root, PageOf(a)) in pages
      && (El0Writable(pages[(root, PageOf(a))].flags) <==> PageWritable(ranges, ring, PageOf(a)))
  {
    hide El0Writable;
    if OnStack(ptr, ptr + len) {
      assert PageOf(a) == STACK_PAGE;
    } else {
      var i := MatchFound(ranges, ptr, ptr + len, needWrite);
      ByteCovered(ranges[i], a);
    }
  }

  /** Every byte that may be written through the gate and lies at or above `USER_BASE` is on a page
      that EL0 may store to. */
  ghost predicate WritesLand(ranges: seq<Range>, ring: bool) {
    forall ptr: nat, len: nat, a: nat
      | Accepts(ranges, ptr, len, true) && ptr <= a < ptr + len && PageOf(a) >= WINDOW ::
      PageWritable(ranges, ring, PageOf(a))
  }

  /** Range `k` is writable, lies inside no earlier range, and covers page `v` that a later range made
      read-only. */
  predicate Overlaid(ranges: seq<Range>, ring: bool, k: nat, v: nat) {
    && k < |ranges| && ranges[k].writable && RangeCovers(ranges[k], v) && v >= WINDOW
    && (forall i | 0 <= i < k :: !Inside(ranges[i], ranges[k].start, ranges[k].end))
    && !PageWritable(ranges, ring, v)
  }

  ghost predicate NoneOverlaid(ranges: seq<Range>, ring: bool) {
    forall k: nat, v: nat :: !Overlaid(ranges, ring, k, v)
  }

  /** Accepted writes land exactly when no writable range that the gate goes by is overlaid. */
  lemma WritesLandIff(ranges: seq<Range>, ring: bool)
    requires RangesOk(ranges)
    ensures WritesLand(ranges, ring) <==> NoneOverlaid(ranges, ring)
  {
    hide PageOf;
    hide PageWritable;
    forall ptr: nat, len: nat, a: nat
      | Accepts(ranges, ptr, len, true) && ptr <= a < ptr + len && PageOf(a) >= WINDOW
        && !PageWritable(ranges, ring, PageOf(a))
      ensures exists k: nat, v: nat :: Overlaid(ranges, ring, k, v)
    {
      NotOnStack(ranges, ring, ptr, len, a);
      FirstDecides(ranges, ptr, ptr + len, true);
      var k := First(ranges, ptr, ptr + len);
      ByteCovered(ranges[k], a);
      assert Overlaid(ranges, ring, k, PageOf(a));
    }
    forall k: nat, v: nat | Overlaid(ranges, ring, k, v)
      ensures !WritesLand(ranges, ring)
    {
      var r := ranges[k];
      var a := PageByte(r, v);
      MatchOnly(ranges, r.start, r.end, true, k);
      assert Accepts(ranges, r.start, r.end - r.start, true);
    }
  }

  lemma NotOnStack(ranges: seq<Range>, ring: bool, ptr: nat, len: nat, a: nat)
    requires ptr <= a < ptr + len && !PageWritable(ranges, ring, PageOf(a))
    ensures !OnStack(ptr, ptr + len)
  {}

  /** The failing input: a read-only segment loaded over the first page of a writable one.  The gate
      goes by the first range and takes every byte alone, yet a store to that page faults. */
  lemma CodeOverData(x: nat, n: nat)
    requires x % 4096 == 0 && USER_BASE <= x && x + 8192 <= USER_STACK_VA
    ensures var ranges := [Range(x, x + 8192, true), Range(x, x + 4096, false)];
      && ByteSafe(ranges, n) && Accepts(ranges, x, 1, true) && !PageWritable(ranges, true, PageOf(x))
      && !WritesLand(ranges, true)
  {
    var ranges := [Range(x, x + 8192, true), Range(x, x + 4096, false)];
    forall i: nat, k: nat
      ensures !Shadows(ranges, 1, i, k)
    {}
    PartsByteSafe(ranges, n);
    assert RangeCovers(ranges[1], x / 4096) && PageOf(x) == x / 4096;
    assert LastRange(ranges, x / 4096) == 1;
    assert Accepts(ranges, x, 1, true);
  }
}
