/**
 The image format, written (kernel/src/elf.rs): the file header and the program headers of ELF64 as
 bytes (chapters 4 and 5 of the System V gABI), and that the loader reads out of an image exactly
 what was written into it.
 */
module Headers {
  import opened Bits
  import opened Frames
  import opened PageTables
  import opened Elf
  import opened Loader

  /** `x` as `n` bytes, the low ones first. */
  function Little(x: nat, n: nat): (r: seq<Byte>)
    ensures |r| == n
  {
    if n == 0 then [] else [x % 256] + Little(x / 256, n - 1)
  }

  /** A program header: `kind` 1 is PT_LOAD, `flags` has X in bit 0, W in bit 1 and R in bit 2. */
  datatype Header = Header(
    kind: nat, flags: nat, offset: nat, vaddr: nat, paddr: nat, filesz: nat, memsz: nat, align: nat)

  predicate HeaderFits(h: Header) {
    && h.kind < TWO32 && h.flags < TWO32 && h.offset < TWO64 && h.vaddr < TWO64 && h.paddr < TWO64
    && h.filesz < TWO64 && h.memsz < TWO64 && h.align < TWO64
  }

  /** Its 56 bytes. */
  function HeaderBytes(h: Header): (r: seq<Byte>)
    ensures |r| == 56
  {
    Little(h.kind, 4) + Little(h.flags, 4) + Little(h.offset, 8) + Little(h.vaddr, 8) + Little(h.paddr, 8)
    + Little(h.filesz, 8) + Little(h.memsz, 8) + Little(h.align, 8)
  }

  /** A file header: what the identification says beyond magic and class, what the kernel uses, and the
      fields it does not look at. */
  datatype FileHeader = FileHeader(
    ident: seq<Byte>, version: nat, entry: nat, phoff: nat, shoff: nat, flags: nat, ehsize: nat,
    phentsize: nat, phnum: nat, sections: seq<Byte>)

  predicate FileFits(f: FileHeader) {
    && |f.ident| == 11 && |f.sections| == 6 && f.version < TWO32 && f.flags < TWO32 && f.ehsize < 0x1_0000
    && f.entry < TWO64 && f.phoff < TWO64 && f.shoff < TWO64 && f.phentsize < 0x1_0000 && f.phnum < 0x1_0000
  }

  /** The 64 bytes of the file header of a 64-bit AArch64 executable. */
  function FileBytes(f: FileHeader): (r: seq<Byte>)
    requires FileFits(f)
    ensures |r| == 64
  {
    [0x7F, 0x45, 0x4C, 0x46, 2] + f.ident
    + Little(2, 2) + Little(0xB7, 2) + Little(f.version, 4)
    + Little(f.entry, 8) + Little(f.phoff, 8) + Little(f.shoff, 8)
    + Little(f.flags, 4) + Little(f.ehsize, 2) + Little(f.phentsize, 2) + Little(f.phnum, 2) + f.sections
  }

  ghost predicate Begins(image: seq<Byte>, f: FileHeader) {
    FileFits(f) && |image| >= 64 && image[..64] == FileBytes(f)
  }

  /** The image starts with that file header and has these program headers in its table; all other
      bytes may be anything. */
  ghost predicate Written(image: seq<Byte>, f: FileHeader, hs: seq<Header>) {
    && Begins(image, f) && f.phnum == |hs|
    && (forall h | h in hs :: HeaderFits(h))
    && (forall i | 0 <= i < |hs| :: HasHeader(image, f.phoff + Product(i, f.phentsize), hs[i]))
  }

  predicate HasHeader(image: seq<Byte>, at: nat, h: Header) {
    at + 56 <= |image| && image[at..at + 56] == HeaderBytes(h)
  }

  /** What is to be loaded: the non-empty PT_LOAD headers, in order. */
  function Wanted(hs: seq<Header>): seq<Header> {
    if hs == [] then []
    else
      var k := |hs| - 1;
      if hs[k].kind == 1 && hs[k].memsz != 0 then Wanted(hs[..k]) + [hs[k]] else Wanted(hs[..k])
  }

  function SegmentOf(h: Header): Segment {
    Segment(h.offset, h.vaddr, h.filesz, h.memsz, h.flags % 2 == 1, h.flags / 2 % 2 == 1)
  }

  function SegmentsOf(hs: seq<Header>): (r: seq<Segment>)
    ensures |r| == |hs|
  {
    seq(|hs|, i requires 0 <= i < |hs| => SegmentOf(hs[i]))
  }

  // ---------------------------------------------------------------- words read back

  /** The bytes of `x` stand at `at`. */
  predicate Holds(b: seq<Byte>, at: nat, x: nat, n: nat) {
    at + n <= |b| && b[at..at + n] == Little(x, n)
  }

  lemma LittleTwo(x: nat)
    ensures Little(x, 2) == [x % 256, x / 256 % 256]
  {
    assert Little(x / 256 / 256, 0) == [];
  }

  lemma ReadTwo(b: seq<Byte>, at: nat, x: nat)
    requires Holds(b, at, x, 2) && x < 0x1_0000
    ensures U16(b, at) == x
  {
    LittleTwo(x);
    assert b[at] == b[at..at + 2][0] && b[at + 1] == b[at..at + 2][1];
  }

  function Low(x: nat, p: nat): nat
    requires p >= 1
  {
    x % p
  }

  function High(x: nat, p: nat): nat
    requires p >= 1
  {
    x / p
  }

  /** A wide word is its low part and its high part. */
  lemma {:induction false} LittleSplit(x: nat, k: nat, n: nat)
    requires k <= n
    ensures Little(x, n) == Little(Low(x, Pow256(k)), k) + Little(High(x, Pow256(k)), n - k)
  {
    if k == 0 {
      assert Little(Low(x, 1), 0) == [];
    } else {
      LittleSplit(x / 256, k - 1, n - 1);
      Digits(x, Pow256(k - 1));
      hide Pow256;
      hide Low;
      hide High;
      assert Little(x, n) == [x % 256] + Little(x / 256, n - 1);
    }
  }

  lemma Digits(x: nat, p: nat)
    requires p >= 1
    ensures Low(x, 256 * p) % 256 == x % 256 && Low(x, 256 * p) / 256 == Low(x / 256, p)
    ensures High(x / 256, p) == High(x, 256 * p)
  {
    var a, r := x / 256, x % 256;
    var q, d := a / p, a % p;
    assert x == 256 * a + r && a == p * q + d;
    assert x == (256 * p) * q + (256 * d + r) by { assert 256 * (p * q) == (256 * p) * q; }
    assert 256 * d + r < 256 * p;
    ModUnique(x, 256 * p, q, 256 * d + r);
    ModUnique(256 * d + r, 256, d, r);
  }

  lemma HoldsSplit(b: seq<Byte>, at: nat, x: nat, k: nat, n: nat)
    requires k <= n && Holds(b, at, x, n)
    ensures Holds(b, at, Low(x, Pow256(k)), k) && Holds(b, at + k, High(x, Pow256(k)), n - k)
  {
    LittleSplit(x, k, n);
    hide Little;
    hide Pow256;
    hide Low;
    hide High;
    var lo, hi := Little(Low(x, Pow256(k)), k), Little(High(x, Pow256(k)), n - k);
    assert b[at..at + n] == lo + hi;
    assert b[at..at + k] == (lo + hi)[..k] == lo;
    assert b[at + k..at + n] == (lo + hi)[k..] == hi;
  }

  lemma ReadFour(b: seq<Byte>, at: nat, x: nat)
    requires Holds(b, at, x, 4) && x < TWO32
    ensures U32(b, at) == x
  {
    hide Little;
    assert Pow256(2) == 0x1_0000;
    HoldsSplit(b, at, x, 2, 4);
    ReadTwo(b, at, x % 0x1_0000);
    ReadTwo(b, at + 2, x / 0x1_0000);
  }

  lemma ReadEight(b: seq<Byte>, at: nat, x: nat)
    requires Holds(b, at, x, 8) && x < TWO64
    ensures U64(b, at) == x
  {
    hide Little;
    assert Pow256(4) == TWO32 by { assert Pow256(2) == 0x1_0000; }
    HoldsSplit(b, at, x, 4, 8);
    ReadFour(b, at, x % TWO32);
    ReadFour(b, at + 4, x / TWO32);
  }

  lemma SubSlice(b: seq<Byte>, lo: nat, hi: nat, i: nat, j: nat)
    requires lo <= hi <= |b| && i <= j <= hi - lo
    ensures b[lo..hi][i..j] == b[lo + i..lo + j]
  {
    var x, y := b[lo..hi][i..j], b[lo + i..lo + j];
    forall k | 0 <= k < j - i ensures x[k] == y[k] {
      assert x[k] == b[lo..hi][i + k];
    }
  }

  lemma SliceHolds(b: seq<Byte>, at: nat, bytes: seq<Byte>, k: nat, x: nat, n: nat)
    requires at + |bytes| <= |b| && b[at..at + |bytes|] == bytes
    requires k + n <= |bytes| && bytes[k..k + n] == Little(x, n)
    ensures Holds(b, at + k, x, n)
  {
    SubSlice(b, at, at + |bytes|, k, k + n);
  }

  /** Where the fields of a program header are. */
  lemma HeaderFields(h: Header)
    ensures var r := HeaderBytes(h);
      && r[0..4] == Little(h.kind, 4) && r[4..8] == Little(h.flags, 4) && r[8..16] == Little(h.offset, 8)
      && r[16..24] == Little(h.vaddr, 8) && r[32..40] == Little(h.filesz, 8) && r[40..48] == Little(h.memsz, 8)
  {
    hide Little;
  }

  /** And of the file header. */
  lemma FileFields(f: FileHeader)
    requires FileFits(f)
    ensures var r := FileBytes(f);
      && r[0..4] == [0x7F, 0x45, 0x4C, 0x46] && r[4] == 2
      && r[16..18] == Little(2, 2) && r[18..20] == Little(0xB7, 2) && r[24..32] == Little(f.entry, 8)
      && r[32..40] == Little(f.phoff, 8) && r[54..56] == Little(f.phentsize, 2) && r[56..58] == Little(f.phnum, 2)
  {
    hide Little;
  }

  /** The loader reads a program header as it was written. */
  lemma ReadHeader(image: seq<Byte>, at: nat, h: Header)
    requires HasHeader(image, at, h) && HeaderFits(h)
    ensures U32(image, at) == h.kind && U32(image, at + 4) == h.flags
    ensures U64(image, at + 8) == h.offset && U64(image, at + 16) == h.vaddr
    ensures U64(image, at + 32) == h.filesz && U64(image, at + 40) == h.memsz
  {
    HeaderFields(h);
    hide HeaderBytes;
    hide Little;
    hide U32;
    hide U64;
    hide Holds;
    var r := HeaderBytes(h);
    SliceHolds(image, at, r, 0, h.kind, 4);
    SliceHolds(image, at, r, 4, h.flags, 4);
    SliceHolds(image, at, r, 8, h.offset, 8);
    SliceHolds(image, at, r, 16, h.vaddr, 8);
    SliceHolds(image, at, r, 32, h.filesz, 8);
    SliceHolds(image, at, r, 40, h.memsz, 8);
    ReadFour(image, at, h.kind);
    ReadFour(image, at + 4, h.flags);
    ReadEight(image, at + 8, h.offset);
    ReadEight(image, at + 16, h.vaddr);
    ReadEight(image, at + 32, h.filesz);
    ReadEight(image, at + 40, h.memsz);
  }

  lemma ReadFile(image: seq<Byte>, f: FileHeader)
    requires Begins(image, f)
    ensures image[0..4] == [0x7F, 0x45, 0x4C, 0x46] && image[4] == 2
    ensures U16(image, 16) == 2 && U16(image, 18) == 0xB7 && U64(image, 24) == f.entry
    ensures U64(image, 32) == f.phoff && U16(image, 54) == f.phentsize && U16(image, 56) == f.phnum
  {
    FileFields(f);
    hide FileBytes;
    hide Little;
    hide U16;
    hide U64;
    hide Holds;
    var r := FileBytes(f);
    assert image[0..64] == image[..64] && image[0..4] == r[0..4] && image[4] == r[4];
    SliceHolds(image, 0, r, 16, 2, 2);
    SliceHolds(image, 0, r, 18, 0xB7, 2);
    SliceHolds(image, 0, r, 24, f.entry, 8);
    SliceHolds(image, 0, r, 32, f.phoff, 8);
    SliceHolds(image, 0, r, 54, f.phentsize, 2);
    SliceHolds(image, 0, r, 56, f.phnum, 2);
    ReadTwo(image, 16, 2);
    ReadTwo(image, 18, 0xB7);
    ReadEight(image, 24, f.entry);
    ReadEight(image, 32, f.phoff);
    ReadTwo(image, 54, f.phentsize);
    ReadTwo(image, 56, f.phnum);
  }

  // ---------------------------------------------------------------- the round trip

  lemma ReadEach(image: seq<Byte>, f: FileHeader, hs: seq<Header>, i: nat)
    requires Written(image, f, hs) && i < |hs|
    ensures HeaderOk(image, i) && HeaderAt(image, i) + 48 <= |image|
    ensures SegmentAt(image, i) == SegmentOf(hs[i])
    ensures IsLoad(image, i) <==> hs[i].kind == 1 && hs[i].memsz != 0
  {
    hide FileBytes;
    hide HeaderBytes;
    hide U16;
    hide U32;
    hide U64;
    hide Product;
    ReadFile(image, f);
    assert hs[i] in hs;
    ReadHeader(image, HeaderAt(image, i), hs[i]);
  }

  lemma {:induction false} ReadSome(image: seq<Byte>, f: FileHeader, hs: seq<Header>, n: nat)
    requires Written(image, f, hs) && n <= |hs|
    ensures forall i | 0 <= i < n :: HeaderOk(image, i)
    ensures Segments(image, n) == SegmentsOf(Wanted(hs[..n]))
  {
    hide Written;
    hide HeaderOk;
    hide SegmentAt;
    hide IsLoad;
    hide HeaderAt;
    hide SegmentOf;
    assert |image| >= 64 by { WrittenLong(image, f, hs); }
    if n > 0 {
      ReadSome(image, f, hs, n - 1);
      ReadEach(image, f, hs, n - 1);
      assert hs[..n][..n - 1] == hs[..n - 1];
      var w := Wanted(hs[..n - 1]);
      assert SegmentsOf(w + [hs[n - 1]]) == SegmentsOf(w) + [SegmentOf(hs[n - 1])];
    }
  }

  lemma WrittenLong(image: seq<Byte>, f: FileHeader, hs: seq<Header>)
    requires Written(image, f, hs)
    ensures |image| >= 64
  {}

  /** Whatever the list of headers, the place of the table and the size of its entries: the loader finds
      the entry point, and exactly the non-empty PT_LOAD segments in order, each with its fields. */
  lemma LoaderReads(image: seq<Byte>, f: FileHeader, hs: seq<Header>)
    requires Written(image, f, hs)
    ensures Validate(image) == Some(f.entry)
    ensures U16(image, 56) == |hs| && forall i | 0 <= i < |hs| :: HeaderOk(image, i)
    ensures LoadSegments(image) == SegmentsOf(Wanted(hs))
  {
    hide FileBytes;
    hide U16;
    hide U64;
    hide HeaderOk;
    hide Segments;
    ReadFile(image, f);
    ReadSome(image, f, hs, |hs|);
    assert hs[..|hs|] == hs;
  }

  // ---------------------------------------------------------------- a writer

  /** Byte `b` of an image with its table after the file header and before `rest`. */
  function ByteIn(f: FileHeader, hs: seq<Header>, rest: seq<Byte>, b: nat): Byte
    requires FileFits(f) && f.phentsize >= 56
  {
    if b < 64 then FileBytes(f)[b]
    else if f.phoff <= b < f.phoff + Product(|hs|, f.phentsize) then
      var k, r := High(b - f.phoff, f.phentsize), Low(b - f.phoff, f.phentsize);
      if r < 56 && k < |hs| then HeaderBytes(hs[k])[r] else 0
    else
      var k := b - f.phoff - Product(|hs|, f.phentsize);
      if 0 <= k < |rest| then rest[k] else 0
  }

  function ImageOf(f: FileHeader, hs: seq<Header>, rest: seq<Byte>): (r: seq<Byte>)
    requires FileFits(f) && f.phentsize >= 56
  {
    var n := f.phoff + Product(|hs|, f.phentsize) + |rest|;
    seq<Byte>(n, b requires 0 <= b < n => ByteIn(f, hs, rest, b))
  }

  lemma OneTimeMore(k: nat, size: nat)
    ensures Product(k + 1, size) == Product(k, size) + size
  {}

  lemma {:induction false} MoreTimes(i: nat, n: nat, size: nat)
    requires i <= n
    ensures Product(i, size) <= Product(n, size)
  {
    hide Product;
    if i < n {
      MoreTimes(i, n - 1, size);
      OneTimeMore(n - 1, size);
    }
  }

  lemma InTable(i: nat, n: nat, size: nat, r: nat)
    requires i < n && r < size
    ensures Product(i, size) + r < Product(n, size)
    ensures High(Product(i, size) + r, size) == i && Low(Product(i, size) + r, size) == r
  {
    OneTimeMore(i, size);
    MoreTimes(i + 1, n, size);
    TimesApart(i, size, r);
    hide Product;
    hide High;
    hide Low;
  }

  lemma TimesApart(i: nat, size: nat, r: nat)
    requires r < size
    ensures High(Product(i, size) + r, size) == i && Low(Product(i, size) + r, size) == r
  {
    ModUnique(Product(i, size) + r, size, i, r);
  }

  /** Every list of headers can be written, at every place behind the file header and with every size of
      entries that has room. */
  lemma Writable(f: FileHeader, hs: seq<Header>, rest: seq<Byte>)
    requires FileFits(f) && 64 <= f.phoff && 56 <= f.phentsize && f.phnum == |hs|
    requires forall h | h in hs :: HeaderFits(h)
    ensures Written(ImageOf(f, hs, rest), f, hs)
  {
    hide FileBytes;
    hide HeaderBytes;
    hide High;
    hide Low;
    hide Product;
    var image := ImageOf(f, hs, rest);
    assert image[..64] == FileBytes(f);
    forall i | 0 <= i < |hs| ensures HasHeader(image, f.phoff + Product(i, f.phentsize), hs[i]) {
      var at := f.phoff + Product(i, f.phentsize);
      InTable(i, |hs|, f.phentsize, 55);
      var bytes := image[at..at + 56];
      forall r | 0 <= r < 56 ensures bytes[r] == HeaderBytes(hs[i])[r] {
        InTable(i, |hs|, f.phentsize, r);
      }
    }
  }

  // ---------------------------------------------------------------- what is loaded

  /** The ranges a process gets are those of the headers: the bytes in memory of each segment, writable
      unless it is executable. */
  lemma RangesRead(image: seq<Byte>, f: FileHeader, hs: seq<Header>, i: nat)
    requires Written(image, f, hs) && i < |Wanted(hs)|
    ensures Recorded(image, i, Range(Wanted(hs)[i].vaddr, Wanted(hs)[i].vaddr + Wanted(hs)[i].memsz,
                                     Wanted(hs)[i].flags % 2 == 0))
  {
    hide Written;
    hide HeaderOk;
    hide U16;
    hide LoadSegments;
    LoaderReads(image, f, hs);
    WrittenLong(image, f, hs);
  }

  /** Range `i` of the loaded image. */
  ghost predicate Recorded(image: seq<Byte>, i: nat, r: Range) {
    && |image| >= 64 && (forall j | 0 <= j < U16(image, 56) :: HeaderOk(image, j))
    && i < |LoadSegments(image)| && Ranges(LoadSegments(image))[i] == r
  }

  /** A size in whole pages. */
  function Rounded(size: nat): nat {
    (size + 4095) / 4096 * 4096
  }

  ghost predicate ByteShown(shown: map<nat, PageImage>, image: seq<Byte>, h: Header, off: nat) {
    var v := PageOf(h.vaddr + off);
    && v in shown && |shown[v].bytes| == 4096
    && (off < h.filesz ==> h.offset + off < |image|)
    && shown[v].bytes[(h.vaddr + off) % 4096] == (if off < h.filesz then image[h.offset + off] else 0)
    && shown[v].flags == (if h.flags % 2 == 1 then PAGE_USER_RX else PAGE_USER_RW)
  }

  /** Every byte of a segment is where its header puts it: the one at `p_offset` plus its place in the
      segment, and zero behind the file's part, up to the end of its last page. */
  lemma BytesAppear(image: seq<Byte>, f: FileHeader, hs: seq<Header>, i: nat, off: nat)
    requires Written(image, f, hs) && i < |Wanted(hs)| && off < Rounded(Wanted(hs)[i].memsz)
    requires Loadable(image) && PageDisjoint(SegmentsOf(Wanted(hs)))
    ensures ByteShown(ImageMap(image, LoadSegments(image)), image, Wanted(hs)[i], off)
  {
    hide Written;
    hide HeaderOk;
    hide U16;
    LoaderReads(image, f, hs);
    hide LoadSegments;
    hide ImageMap;
    hide Validate;
    hide PageDisjoint;
    hide Wanted;
    hide PageOf;
    SegmentsAppear(image, LoadSegments(image), i, off);
    assert LoadSegments(image)[i] == SegmentOf(Wanted(hs)[i]);
    hide SegmentsOf;
    hide Loadable;
  }

  // ---------------------------------------------------------------- which images are accepted

  lemma WriteTwo(b: seq<Byte>, at: nat)
    requires at + 2 <= |b|
    ensures U16(b, at) < 0x1_0000 && Holds(b, at, U16(b, at), 2)
  {
    LittleTwo(U16(b, at));
  }

  lemma HoldsJoin(b: seq<Byte>, at: nat, lo: nat, hi: nat, k: nat, n: nat)
    requires k <= n && lo < Pow256(k) && Holds(b, at, lo, k) && Holds(b, at + k, hi, n - k)
    ensures Holds(b, at, lo + Pow256(k) * hi, n)
  {
    var x := lo + Pow256(k) * hi;
    ModUnique(x, Pow256(k), hi, lo);
    LittleSplit(x, k, n);
    hide Little;
    hide Pow256;
    assert b[at..at + n] == b[at..at + k] + b[at + k..at + n];
  }

  lemma WriteFour(b: seq<Byte>, at: nat)
    requires at + 4 <= |b|
    ensures U32(b, at) < TWO32 && Holds(b, at, U32(b, at), 4)
  {
    hide Little;
    assert Pow256(2) == 0x1_0000;
    WriteTwo(b, at);
    WriteTwo(b, at + 2);
    HoldsJoin(b, at, U16(b, at), U16(b, at + 2), 2, 4);
  }

  lemma WriteEight(b: seq<Byte>, at: nat)
    requires at + 8 <= |b|
    ensures U64(b, at) < TWO64 && Holds(b, at, U64(b, at), 8)
  {
    hide Little;
    assert Pow256(4) == TWO32 by { assert Pow256(2) == 0x1_0000; }
    WriteFour(b, at);
    WriteFour(b, at + 4);
    HoldsJoin(b, at, U32(b, at), U32(b, at + 4), 4, 8);
  }

  /** The file header an image starts with, if it starts with one. */
  function FileHeaderOf(image: seq<Byte>): FileHeader
    requires |image| >= 64
  {
    FileHeader(image[5..16], U32(image, 20), U64(image, 24), U64(image, 32), U64(image, 40), U32(image, 48),
      U16(image, 52), U16(image, 54), U16(image, 56), image[58..64])
  }

  lemma Rewritten(image: seq<Byte>)
    requires |image| >= 64 && image[0..4] == [0x7F, 0x45, 0x4C, 0x46] && image[4] == 2
    requires U16(image, 16) == 2 && U16(image, 18) == 0xB7
    ensures Begins(image, FileHeaderOf(image))
  {
    hide Little;
    hide U16;
    hide U32;
    hide U64;
    WriteTwo(image, 16);
    WriteTwo(image, 18);
    WriteFour(image, 20);
    WriteEight(image, 24);
    WriteEight(image, 32);
    WriteEight(image, 40);
    WriteFour(image, 48);
    WriteTwo(image, 52);
    WriteTwo(image, 54);
    WriteTwo(image, 56);
    assert image[..64] == image[0..4] + [image[4]] + image[5..16] + image[16..18] + image[18..20] + image[20..24]
      + image[24..32] + image[32..40] + image[40..48] + image[48..52] + image[52..54] + image[54..56] + image[56..58]
      + image[58..64];
  }

  /** `validate` accepts exactly the images that start with such a file header, and gives its entry. */
  lemma ValidIff(image: seq<Byte>)
    ensures Validate(image).Some? <==> exists f :: Begins(image, f)
    ensures forall f | Begins(image, f) :: Validate(image) == Some(f.entry)
  {
    forall f | Begins(image, f) ensures Validate(image) == Some(f.entry) {
      ReadFile(image, f);
    }
    if Validate(image).Some? { Rewritten(image); }
  }

  /** What the loader insists on for one segment: page-aligned, not both writable and executable, no
      overflow, every byte of the file's part in the image, and no page under a boot block. */
  ghost predicate HeaderLoads(image: seq<Byte>, h: Header) {
    && h.vaddr % 4096 == 0 && h.vaddr + h.memsz < TWO64
    && !(h.flags % 2 == 1 && h.flags / 2 % 2 == 1)
    && (forall off: nat | off < h.filesz && off < Rounded(h.memsz) :: InFile(image, h, off))
    && (forall page: nat | page * 4096 < h.memsz :: PageOf(h.vaddr + page * 4096) >= 0x4_8000)
  }

  predicate InFile(image: seq<Byte>, h: Header, off: nat) {
    h.offset + off < |image|
  }

  /** An image as written is loaded, rather than panicked on, if and only if it has at most eight segments
      to load and every one of them meets that. */
  lemma LoadableIff(image: seq<Byte>, f: FileHeader, hs: seq<Header>)
    requires Written(image, f, hs)
    ensures Loadable(image) <==> |Wanted(hs)| <= 8 && forall h | h in Wanted(hs) :: HeaderLoads(image, h)
  {
    hide Written;
    hide HeaderOk;
    hide U16;
    hide LoadSegments;
    hide Validate;
    LoaderReads(image, f, hs);
    WantedLoads(hs);
    var w := Wanted(hs);
    hide Wanted;
    forall h | h in w ensures SegmentOk(image, SegmentOf(h)) <==> HeaderLoads(image, h) {
      SegmentIff(image, h);
    }
    hide SegmentOk;
    hide HeaderLoads;
    assert forall i | 0 <= i < |w| :: w[i] in w && SegmentsOf(w)[i] in SegmentsOf(w);
  }

  lemma {:induction false} WantedLoads(hs: seq<Header>)
    ensures forall h | h in Wanted(hs) :: h.memsz != 0
  {
    if hs != [] { WantedLoads(hs[..|hs| - 1]); }
  }

  lemma SegmentIff(image: seq<Byte>, h: Header)
    requires h.memsz != 0
    ensures SegmentOk(image, SegmentOf(h)) <==> HeaderLoads(image, h)
  {
    var seg := SegmentOf(h);
    if h.vaddr % 4096 == 0 {
      PagesClear(seg);
      PagesIn(seg);
    }
    var n := if h.filesz < seg.Pages() * 4096 then h.filesz else seg.Pages() * 4096;
    if n > 0 && (forall off: nat | off < h.filesz && off < Rounded(h.memsz) :: InFile(image, h, off)) {
      assert InFile(image, h, n - 1);
    }
  }

  lemma PagesIn(seg: Segment)
    ensures forall page: nat {:trigger PageOf(seg.vaddr + page * 4096)} ::
      page < seg.Pages() <==> page * 4096 < seg.memsz
  {}
}
