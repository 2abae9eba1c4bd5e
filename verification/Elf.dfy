/**
 The ELF64 loader (kernel/src/elf.rs): header parsing, the reference picture of what a
 loaded image looks like, and the page-by-page loader proved against it.
 */
module Elf {
  import opened Bits
  import opened Frames
  import opened PageTables

  // ---------------------------------------------------------------- bytes of words

  function Pow256(n: nat): (p: nat)
    ensures p >= 1
  {
    if n == 0 then 1 else 256 * Pow256(n - 1)
  }

  /** Byte `k` of a little-endian word. */
  function ByteOf(w: nat, k: nat): (b: Byte) {
    if k == 0 then w % 256 else ByteOf(w / 256, k - 1)
  }

  /** `w` with byte `k` replaced. */
  function WithByte(w: nat, k: nat, b: Byte): nat {
    if k == 0 then w / 256 * 256 + b else 256 * WithByte(w / 256, k - 1, b) + w % 256
  }

  lemma {:induction false} WithByteAt(w: nat, k: nat, b: Byte, j: nat)
    ensures ByteOf(WithByte(w, k, b), j) == if j == k then b else ByteOf(w, j)
  {
    var w' := WithByte(w, k, b);
    if k > 0 {
      assert w' / 256 == WithByte(w / 256, k - 1, b) && w' % 256 == w % 256;
      if j > 0 { WithByteAt(w / 256, k - 1, b, j - 1); }
    } else {
      assert w' / 256 == w / 256 && w' % 256 == b;
    }
  }

  lemma {:induction false} WithByteBound(w: nat, k: nat, b: Byte, n: nat)
    requires k < n && w < Pow256(n)
    ensures WithByte(w, k, b) < Pow256(n)
  {
    var p := Pow256(n - 1);
    assert w / 256 < p;
    if k > 0 {
      WithByteBound(w / 256, k - 1, b, n - 1);
    }
  }

  lemma WordBytes(w: Word, k: nat, b: Byte)
    requires k < 8
    ensures WithByte(w, k, b) < TWO64
  {
    assert Pow256(4) == 0x1_0000_0000;
    assert Pow256(8) == TWO64;
    WithByteBound(w, k, b, 8);
  }

  /** Byte `off` of frame `f`. */
  function ByteAt(m: Memory, f: nat, off: nat): Byte
    requires f in m && |m[f]| == 512 && off < 4096
  {
    ByteOf(m[f][off / 8], off % 8)
  }

  /** A byte store changes that byte and no other. */
  lemma ByteStored(m: Memory, f: nat, off: nat, b: Byte, o: nat)
    requires f in m && |m[f]| == 512 && off < 4096 && o < 4096
    requires WithByte(m[f][off / 8], off % 8, b) < TWO64
    ensures ByteAt(Stored(m, f, off / 8, WithByte(m[f][off / 8], off % 8, b)), f, o)
      == if o == off then b else ByteAt(m, f, o)
  {
    WithByteAt(m[f][off / 8], off % 8, b, o % 8);
  }

  // ---------------------------------------------------------------- headers

  function U16(b: seq<Byte>, off: nat): nat
    requires off + 2 <= |b|
  {
    (b[off] as int) + 256 * (b[off + 1] as int)
  }

  function U32(b: seq<Byte>, off: nat): nat
    requires off + 4 <= |b|
  {
    U16(b, off) + 0x1_0000 * U16(b, off + 2)
  }

  function U64(b: seq<Byte>, off: nat): nat
    requires off + 8 <= |b|
  {
    U32(b, off) + 0x1_0000_0000 * U32(b, off + 4)
  }

  /** A 64-bit AArch64 ET_EXEC image; None where `validate` panics. */
  function Validate(image: seq<Byte>): (entry: Option<nat>)
    ensures entry.Some? ==> |image| >= 64
  {
    if |image| < 64 then None
    else if image[0..4] != [0x7F, 0x45, 0x4C, 0x46] || image[4] != 2 then None
    else if U16(image, 16) != 2 || U16(image, 18) != 0xB7 then None
    else Some(U64(image, 24))
  }

  datatype Segment = Segment(offset: nat, vaddr: nat, filesz: nat, memsz: nat, executable: bool, writable: bool) {

    /** Pages that `while page < align_up(memsz)` maps. */
    function Pages(): nat { (memsz + 4095) / 4096 }

    /** The page of the first byte: bits of `vaddr` above 47 are not translated. */
    function First(): nat { PageOf(vaddr) }

    /** Page `v` belongs to the segment. */
    predicate Covers(v: nat) { First() <= v < First() + Pages() }

    function Flags(): Word { if executable then PAGE_USER_RX else PAGE_USER_RW }
  }

  function Product(a: nat, b: nat): nat {
    a * b
  }

  function HeaderAt(image: seq<Byte>, i: nat): nat
    requires |image| >= 64
  {
    U64(image, 32) + Product(i, U16(image, 54))
  }

  /** The loop over program headers reads only inside the image. */
  predicate HeaderOk(image: seq<Byte>, i: nat)
    requires |image| >= 64
  {
    var ph := HeaderAt(image, i);
    ph + 4 <= |image| && (U32(image, ph) == 1 ==> ph + 48 <= |image|)
  }

  function SegmentAt(image: seq<Byte>, i: nat): Segment
    requires |image| >= 64 && HeaderAt(image, i) + 48 <= |image|
  {
    var ph := HeaderAt(image, i);
    var flags := U32(image, ph + 4);
    Segment(U64(image, ph + 8), U64(image, ph + 16), U64(image, ph + 32), U64(image, ph + 40),
      flags % 2 == 1, flags / 2 % 2 == 1)
  }

  predicate IsLoad(image: seq<Byte>, i: nat)
    requires |image| >= 64 && HeaderOk(image, i)
  {
    U32(image, HeaderAt(image, i)) == 1 && SegmentAt(image, i).memsz != 0
  }

  /** The non-empty PT_LOAD segments among the first n headers. */
  function Segments(image: seq<Byte>, n: nat): (segs: seq<Segment>)
    requires |image| >= 64 && forall i | 0 <= i < n :: HeaderOk(image, i)
    ensures |segs| <= n && forall s | s in segs :: s.memsz != 0
  {
    if n == 0 then []
    else if IsLoad(image, n - 1) then Segments(image, n - 1) + [SegmentAt(image, n - 1)]
    else Segments(image, n - 1)
  }

  /** The loader accepts the segment: aligned, not both W and X, file bytes present, no overflow, and
      no page of it under a boot block, modulo 2^48. */
  predicate SegmentOk(image: seq<Byte>, seg: Segment) {
    && seg.vaddr % 4096 == 0 && seg.vaddr + seg.memsz < TWO64
    && !(seg.executable && seg.writable)
    && 0x4_8000 <= seg.First() && seg.First() + seg.Pages() <= 0x10_0000_0000
    && (seg.filesz != 0 ==>
          seg.offset + (if seg.filesz < seg.Pages() * 4096 then seg.filesz else seg.Pages() * 4096) <= |image|)
  }

  /** Page `page` of a segment. */
  lemma PageAt(seg: Segment, page: nat)
    requires seg.vaddr % 4096 == 0
    ensures PageOf(seg.vaddr + page * 4096) == (seg.First() + page) % 0x10_0000_0000
  {
    var q := seg.vaddr / 4096;
    assert (seg.vaddr + page * 4096) / 4096 == q + page;
    ModSum(q, page);
  }

  lemma ModSum(a: nat, b: nat)
    ensures (a + b) % 0x10_0000_0000 == (a % 0x10_0000_0000 + b) % 0x10_0000_0000
  {
    var h, r := a / 0x10_0000_0000, a % 0x10_0000_0000;
    assert a + b == 0x10_0000_0000 * h + (r + b);
    DropHigh2(r + b, h);
  }

  lemma DropHigh2(x: nat, h: nat)
    ensures (0x10_0000_0000 * h + x) % 0x10_0000_0000 == x % 0x10_0000_0000
  {}

  /** The bounds in `SegmentOk` are what the walks ask for: no page of the segment lies under a boot
      block exactly when the segment starts above them and does not reach the end of a 2^48 window. */
  lemma PagesClear(seg: Segment)
    requires seg.vaddr % 4096 == 0 && seg.memsz != 0
    ensures (forall page: nat | page < seg.Pages() :: PageOf(seg.vaddr + page * 4096) >= 0x4_8000)
      <==> 0x4_8000 <= seg.First() && seg.First() + seg.Pages() <= 0x10_0000_0000
  {
    hide PageOf;
    forall page: nat | page < seg.Pages()
      ensures PageOf(seg.vaddr + page * 4096) == (seg.First() + page) % 0x10_0000_0000
    {
      PageAt(seg, page);
    }
    assert PageOf(seg.vaddr + 0 * 4096) == seg.First();
    if seg.First() + seg.Pages() > 0x10_0000_0000 {
      var page := 0x10_0000_0000 - seg.First();
      assert PageOf(seg.vaddr + page * 4096) == 0;
    }
  }

  const MAX_SEGMENTS: nat := 8

  /** Images on which `load` does not panic. */
  predicate Loadable(image: seq<Byte>) {
    && Validate(image).Some?
    && (forall i | 0 <= i < U16(image, 56) :: HeaderOk(image, i))
    && |LoadSegments(image)| <= MAX_SEGMENTS
    && (forall s | s in LoadSegments(image) :: SegmentOk(image, s))
  }

  function LoadSegments(image: seq<Byte>): seq<Segment>
    requires |image| >= 64 && forall i | 0 <= i < U16(image, 56) :: HeaderOk(image, i)
  {
    Segments(image, U16(image, 56))
  }

  // ---------------------------------------------------------------- what a loaded image looks like

  datatype PageImage = PageImage(flags: nat, bytes: seq<Byte>)

  /** Byte `off` of a segment: the file's below `filesz`, zero from there to the page end. */
  function SegByte(image: seq<Byte>, seg: Segment, off: nat): Byte
    requires SegmentOk(image, seg) && off < seg.Pages() * 4096
  {
    if off < seg.filesz then image[seg.offset + off] else 0
  }

  function PageContent(image: seq<Byte>, seg: Segment, page: nat): (r: seq<Byte>)
    requires SegmentOk(image, seg) && page < seg.Pages()
    ensures |r| == 4096
  {
    seq<Byte>(4096, b requires 0 <= b < 4096 => SegByte(image, seg, page * 4096 + b))
  }

  /** The first n pages of a segment. */
  function SegmentMap(image: seq<Byte>, seg: Segment, n: nat): (r: map<nat, PageImage>)
    requires SegmentOk(image, seg) && n <= seg.Pages()
    ensures forall v | v in r :: seg.First() <= v < seg.First() + n
    ensures forall v | seg.First() <= v < seg.First() + n ::
              v in r && r[v] == PageImage(seg.Flags(), PageContent(image, seg, v - seg.First()))
  {
    if n == 0 then map[]
    else SegmentMap(image, seg, n - 1)[seg.First() + n - 1 := PageImage(seg.Flags(), PageContent(image, seg, n - 1))]
  }

  /** All segments in order; where two share a page the later one wins. */
  function ImageMap(image: seq<Byte>, segs: seq<Segment>): map<nat, PageImage>
    requires forall s | s in segs :: SegmentOk(image, s)
  {
    if segs == [] then map[]
    else
      var k := |segs| - 1;
      ImageMap(image, segs[..k]) + SegmentMap(image, segs[k], segs[k].Pages())
  }

  ghost predicate PageDisjoint(segs: seq<Segment>) {
    forall i, j, v | 0 <= i < |segs| && 0 <= j < |segs| && segs[i].Covers(v) && segs[j].Covers(v) :: i == j
  }

  /** Index of the last segment covering page `v`, or -1. */
  function LastCover(segs: seq<Segment>, v: nat): (i: int)
    ensures -1 <= i < |segs| && (i >= 0 ==> segs[i].Covers(v))
    ensures forall j | i < j < |segs| :: !segs[j].Covers(v)
  {
    if segs == [] then -1
    else if segs[|segs| - 1].Covers(v) then |segs| - 1
    else LastCover(segs[..|segs| - 1], v)
  }

  /** The last segment covering page `v` decides it. */
  lemma {:induction false} ImageMapAt(image: seq<Byte>, segs: seq<Segment>, v: nat)
    requires forall s | s in segs :: SegmentOk(image, s)
    ensures v in ImageMap(image, segs) <==> LastCover(segs, v) >= 0
    ensures var i := LastCover(segs, v);
            i >= 0 ==>
              && segs[i] in segs
              && ImageMap(image, segs)[v]
                 == PageImage(segs[i].Flags(), PageContent(image, segs[i], v - segs[i].First()))
  {
    hide PageContent;
    hide SegmentMap;
    hide SegmentOk;
    if segs != [] {
      var k := |segs| - 1;
      ImageMapAt(image, segs[..k], v);
    }
  }

  /** Page-disjoint segments all appear: every byte of each is where the header puts it. */
  lemma SegmentsAppear(image: seq<Byte>, segs: seq<Segment>, i: nat, off: nat)
    requires forall s | s in segs :: SegmentOk(image, s)
    requires PageDisjoint(segs) && i < |segs| && off < segs[i].Pages() * 4096
    ensures SegmentOk(image, segs[i])
    ensures var va := segs[i].vaddr + off;
            && PageOf(va) in ImageMap(image, segs)
            && var p := ImageMap(image, segs)[PageOf(va)];
            && p.flags == segs[i].Flags() && |p.bytes| == 4096
            && p.bytes[va % 4096] == SegByte(image, segs[i], off)
  {
    hide ImageMap;
    assert segs[i] in segs;
    var seg := segs[i];
    OffsetPage(seg.vaddr, off);
    PageAt(seg, off / 4096);
    var v := PageOf(seg.vaddr + off);
    assert v == PageOf(seg.vaddr + off / 4096 * 4096);
    assert seg.Covers(v);
    assert LastCover(segs, v) == i;
    ImageMapAt(image, segs, v);
    assert PageContent(image, seg, off / 4096)[off % 4096] == SegByte(image, seg, off / 4096 * 4096 + off % 4096);
  }

  lemma OffsetPage(base: nat, off: nat)
    requires base % 4096 == 0
    ensures (base + off) / 4096 == base / 4096 + off / 4096 && (base + off) % 4096 == off % 4096
  {}
}
