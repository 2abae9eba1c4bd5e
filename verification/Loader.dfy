/**
 `elf::load` over an address space (kernel/src/elf.rs): fill a frame byte by byte, map it,
 record it, page after page and segment after segment.
 */
module Loader {
  import opened Bits
  import opened Frames
  import opened PageTables
  import opened AddressSpaces
  import opened Elf
  import opened Ownership

  /** A loaded segment's range, as `is_user_range` consults it. */
  datatype Range = Range(start: nat, end: nat, writable: bool)

  function RangeOf(seg: Segment): Range {
    Range(seg.vaddr, seg.vaddr + seg.memsz, !seg.executable)
  }

  /** From `root` one sees the pages of `img`: same flags, same bytes. */
  ghost predicate Shows(m: Memory, pages: map<(nat, nat), Mapping>, root: nat, img: map<nat, PageImage>) {
    forall v | v in img :: var k := (SpaceOf(root, v), v); k in pages && PageShown(m, pages[k], img[v])
  }

  ghost predicate PageShown(m: Memory, e: Mapping, p: PageImage) {
    && e.flags == p.flags && |p.bytes| == 4096
    && e.pa in m && |m[e.pa]| == 512
    && (forall b | 0 <= b < 4096 :: ByteAt(m, e.pa, b) == p.bytes[b])
  }

  /** The pages of `dom`, as seen from `root`, show frames of its own. */
  ghost predicate OwnFrames(role: map<nat, Role>, pages: map<(nat, nat), Mapping>, root: nat, dom: set<nat>) {
    forall v | v in dom ::
      var k := (SpaceOf(root, v), v); k in pages && pages[k].pa in role && role[pages[k].pa] == Page(root)
  }

  /** No private page of `root` is mapped outside `dom`. */
  ghost predicate Within(pages: map<(nat, nat), Mapping>, root: nat, dom: set<nat>) {
    forall k | k in pages && k.0 == root :: k.1 in dom
  }

  /** Progress of a load into `root` since snapshot `s0`: the pages of `img` and no others are
      mapped, owned and shown, and beyond `root` only the shared pages among them changed. */
  ghost predicate Loading(s0: Snap, s: Snap, root: nat, owned: seq<(nat, nat)>, img: map<nat, PageImage>) {
    && Confined(s0, s, root, Shared(img.Keys))
    && OwnedOk(s.role, s.t.pages, root, owned)
    && SlotsMatch(s.t, root, owned)
    && Shows(s.m, s.t.pages, root, img)
    && OwnFrames(s.role, s.t.pages, root, img.Keys)
    && Within(s.t.pages, root, img.Keys)
    && PagesOf(owned) == img.Keys
  }

  /** Fill frame `f` with `content`. */
  method FillFrame(mmu: Mmu, f: nat, image: seq<Byte>, seg: Segment, page: nat)
    requires mmu.Valid() && f in mmu.role && mmu.role[f].Page?
    requires SegmentOk(image, seg) && page < seg.Pages()
    modifies mmu.ram
    ensures mmu.Valid() && mmu.ram.words.Keys == old(mmu.ram.words.Keys)
    ensures f in mmu.ram.words && |mmu.ram.words[f]| == 512
    ensures forall g | g in mmu.ram.words && g != f :: mmu.ram.words[g] == old(mmu.ram.words)[g]
    ensures forall b | 0 <= b < 4096 :: ByteAt(mmu.ram.words, f, b) == PageContent(image, seg, page)[b]
  {
    hide PoolOk;
    hide Linked;
    hide TlbOk;
    hide MemoryOk;
    hide SegmentOk;
    hide ByteOf;
    hide WithByte;
    PageFacts(mmu.ram.words, mmu.frames.free, mmu.t, mmu.role, f);
    var b := 0;
    while b < 4096
      invariant 0 <= b <= 4096
      invariant mmu.Valid() && mmu.ram.words.Keys == old(mmu.ram.words.Keys)
      invariant |mmu.ram.words[f]| == 512
      invariant forall g | g in mmu.ram.words && g != f :: mmu.ram.words[g] == old(mmu.ram.words)[g]
      invariant forall o | 0 <= o < b :: ByteAt(mmu.ram.words, f, o) == SegByte(image, seg, page * 4096 + o)
    {
      var byte := SegByte(image, seg, page * 4096 + b);
      ghost var m := mmu.ram.words;
      WordBytes(m[f][b / 8], b % 8, byte);
      mmu.StorePage(f, b / 8, WithByte(mmu.ram.words[f][b / 8], b % 8, byte));
      forall o | 0 <= o <= b
        ensures ByteAt(mmu.ram.words, f, o) == SegByte(image, seg, page * 4096 + o)
      {
        ByteStored(m, f, b, byte, o);
      }
      b := b + 1;
    }
  }

  /** Pages shown before are shown after a new frame is filled and mapped at page `v`. */
  lemma ShowsStep(m: Memory, m': Memory, pages: map<(nat, nat), Mapping>, root: nat, img: map<nat, PageImage>,
                  v: nat, e: Mapping, p: PageImage)
    requires Shows(m, pages, root, img) && PageShown(m', e, p)
    requires forall k | k in pages :: pages[k].pa in m && pages[k].pa in m' && m'[pages[k].pa] == m[pages[k].pa]
    ensures Shows(m', pages[(SpaceOf(root, v), v) := e], root, img[v := p])
  {
    hide PageShown;
    forall u | u in img && u != v
      ensures var k := (SpaceOf(root, u), u); k in pages && PageShown(m', pages[k], img[u])
    {
      var k := (SpaceOf(root, u), u);
      assert k in pages && PageShown(m, pages[k], img[u]);
      PageShownSame(m, m', pages[k], img[u]);
    }
  }

  /** One page of a load: `a` before, `b` with the frame taken, `c` filled, `d` mapped. */
  lemma LoadStep(s0: Snap, a: Snap, b: Snap, c: Snap, free: seq<nat>, d: Snap, free': seq<nat>, root: nat,
                 owned: seq<(nat, nat)>, img: map<nat, PageImage>, va: nat, f: nat, p: PageImage)
    requires Loading(s0, a, root, owned, img) && Held(a.t.pages, a.role) && root != 0
    requires a.role.Keys == a.m.Keys && f in a.role && a.role[f].Free?
    requires b == a.(role := a.role[f := Page(root)])
    requires c == b.(m := c.m) && c.m.Keys == a.m.Keys && forall g | g in a.m && g != f :: c.m[g] == a.m[g]
    requires PoolOk(c.m, free, c.t, c.role) && PoolOk(d.m, free', d.t, d.role)
    requires PageShown(c.m, Mapping(f, p.flags), p)
    requires Grew(c.m, d.m, c.t, d.t, c.role, d.role, SpaceOf(root, PageOf(va)))
    requires d.t.pages == c.t.pages[(SpaceOf(root, PageOf(va)), PageOf(va)) := Mapping(f, p.flags)]
    requires UserVa(va)
    requires forall level | 1 <= level <= 3 :: Path(root, PageOf(va), level) in d.t.nodes
    requires forall n | n in d.t.nodes :: n in c.t.nodes || OnPath(root, PageOf(va), n)
    ensures Loading(s0, d, root, owned + [(va, f)], img[PageOf(va) := p])
  {
    hide OwnedOk;
    hide SlotsMatch;
    hide Confined;
    hide PageShown;
    hide Shows;
    hide Within;
    hide OwnFrames;
    hide PoolOk;
    hide Path;
    hide OnPath;
    hide PagesOf;
    hide PageOf;
    var v := PageOf(va);
    NewPageStep(a, b, c, free, d, free', root, owned, va, f, p.flags);
    ConfinedTrans(s0, a, d, root, Shared(img.Keys), Shared({v}), Shared(img[v := p].Keys));
    DataStep(a, c, d, root, v, f);
    FramesStep(a, d, root, img, v, f, p);
    hide Grew;
    PageShownSame(c.m, d.m, Mapping(f, p.flags), p);
    ShowsStep(a.m, d.m, a.t.pages, root, img, v, Mapping(f, p.flags), p);
    DomainStep(a.t.pages, root, img, v, f, p);
    SlotsMore(owned, va, f);
  }

  /** Frames mapped before keep their role and data while frame `f` is filled and mapped. */
  lemma DataStep(a: Snap, c: Snap, d: Snap, root: nat, v: nat, f: nat)
    requires Held(a.t.pages, a.role)
    requires a.role.Keys == a.m.Keys && f in a.role && a.role[f].Free? && c.role == a.role[f := Page(root)]
    requires c.m.Keys == a.m.Keys && forall g | g in a.m && g != f :: c.m[g] == a.m[g]
    requires Grew(c.m, d.m, c.t, d.t, c.role, d.role, SpaceOf(root, v))
    ensures f in d.m && d.m[f] == c.m[f] && f in d.role && d.role[f] == Page(root)
    ensures forall k | k in a.t.pages ::
      var g := a.t.pages[k].pa;
      g in a.m && g in d.m && d.m[g] == a.m[g] && g in a.role && g in d.role && d.role[g] == a.role[g]
  {
    forall k | k in a.t.pages
      ensures var g := a.t.pages[k].pa;
        g in a.m && g in d.m && d.m[g] == a.m[g] && g in a.role && g in d.role && d.role[g] == a.role[g]
    {
      var g := a.t.pages[k].pa;
      assert g != f && c.role[g].Page?;
    }
  }

  lemma FramesStep(a: Snap, d: Snap, root: nat, img: map<nat, PageImage>, v: nat, f: nat, p: PageImage)
    requires OwnFrames(a.role, a.t.pages, root, img.Keys) && f in d.role && d.role[f] == Page(root)
    requires forall k | k in a.t.pages ::
      a.t.pages[k].pa in a.role && a.t.pages[k].pa in d.role && d.role[a.t.pages[k].pa] == a.role[a.t.pages[k].pa]
    requires d.t.pages == a.t.pages[(SpaceOf(root, v), v) := Mapping(f, p.flags)]
    ensures OwnFrames(d.role, d.t.pages, root, img[v := p].Keys)
  {}

  lemma DomainStep(pages: map<(nat, nat), Mapping>, root: nat, img: map<nat, PageImage>, v: nat, f: nat, p: PageImage)
    requires Within(pages, root, img.Keys) && root != 0
    ensures Within(pages[(SpaceOf(root, v), v) := Mapping(f, p.flags)], root, img[v := p].Keys)
  {}

  lemma PageShownSame(m: Memory, m': Memory, e: Mapping, p: PageImage)
    requires PageShown(m, e, p) && e.pa in m' && m'[e.pa] == m[e.pa]
    ensures PageShown(m', e, p)
  {
    forall b | 0 <= b < 4096 ensures ByteAt(m', e.pa, b) == p.bytes[b] {
      assert ByteAt(m, e.pa, b) == p.bytes[b];
    }
  }

  /** A page above the identity-mapped RAM can be walked to and shows its own frames. */
  lemma UserPage(m: Memory, free: seq<nat>, t: Tables, role: map<nat, Role>, root: nat, va: nat)
    requires PoolOk(m, free, t, role) && Root(root) in t.nodes && UserVa(va)
    ensures Walkable(m, t, root, PageOf(va)) && root != 0
    ensures MayShow(SpaceOf(root, PageOf(va)), Page(root))
    ensures role.Keys == m.Keys && Held(t.pages, role) && Placed(t.pages)
  {
    TableFacts(m, free, t, role, Root(root));
    WalkableIff(m, free, t, role, root, PageOf(va));
    PagesPlaced(t);
  }

  lemma SegmentPage(seg: Segment, page: nat)
    requires seg.vaddr % 4096 == 0 && page < seg.Pages()
    requires 0x4_8000 <= seg.First() && seg.First() + seg.Pages() <= 0x10_0000_0000
    ensures var va := seg.vaddr + page * 4096;
      UserVa(va) && PageOf(va) == seg.First() + page && (seg.vaddr < TWO48 ==> va < TWO48)
  {
    PageAt(seg, page);
  }

  /** Load page `page` of a segment: take a frame, fill it, map it, record it. */
  method LoadPage(mmu: Mmu, image: seq<Byte>, seg: Segment, page: nat, root: nat, owned: seq<(nat, nat)>,
                  ghost s0: Snap, ghost img: map<nat, PageImage>) returns (owned': seq<(nat, nat)>)
    requires mmu.Valid() && Root(root) in mmu.t.nodes && |mmu.frames.free| >= 4
    requires SegmentOk(image, seg) && page < seg.Pages()
    requires Loading(s0, mmu.View(), root, owned, img)
    modifies mmu`t, mmu`role, mmu`tlb, mmu`stale, mmu.ram, mmu.frames
    ensures mmu.Valid() && Root(root) in mmu.t.nodes && |mmu.frames.free| >= old(|mmu.frames.free|) - 4
    ensures seg.vaddr < TWO48 ==> mmu.stale <= old(mmu.stale)
    ensures KnownPages(old(mmu.t.pages)) ==> KnownPages(mmu.t.pages)
    ensures Loading(s0, mmu.View(), root, owned',
      img[seg.First() + page := PageImage(seg.Flags(), PageContent(image, seg, page))])
  {
    hide PoolOk;
    hide Linked;
    hide TlbOk;
    hide MemoryOk;
    hide Loading;
    hide PageContent;
    hide PageOf;
    hide SpaceOf;
    hide Walkable;
    hide Grew;
    hide OnPath;
    hide Path;
    hide TlbAfter;
    hide KnownPages;
    SegmentPage(seg, page);
    UserFlags();
    var va := seg.vaddr + page * 4096;
    UserPage(mmu.ram.words, mmu.frames.free, mmu.t, mmu.role, root, va);
    ghost var a := mmu.View();
    var f := mmu.AllocPage(root);
    ghost var b := mmu.View();
    FillFrame(mmu, f, image, seg, page);
    ghost var c, free := mmu.View(), mmu.frames.free;
    UserPage(mmu.ram.words, mmu.frames.free, mmu.t, mmu.role, root, va);
    mmu.MapPageIn(root, va, f, seg.Flags());
    if KnownPages(a.t.pages) {
      KnownMore(a.t.pages, (SpaceOf(root, PageOf(va)), PageOf(va)), Mapping(f, seg.Flags()));
    }
    LoadStep(s0, a, b, c, free, mmu.View(), mmu.frames.free, root, owned, img, va, f,
      PageImage(seg.Flags(), PageContent(image, seg, page)));
    assert Root(root) in mmu.t.nodes by {
      GrewKeeps(c.m, mmu.ram.words, c.t, mmu.t, c.role, mmu.role, SpaceOf(root, PageOf(va)));
    }
    owned' := owned + [(va, f)];
  }

  lemma SegmentMapNext(image: seq<Byte>, seg: Segment, n: nat, img: map<nat, PageImage>)
    requires SegmentOk(image, seg) && n < seg.Pages()
    ensures img + SegmentMap(image, seg, n + 1)
         == (img + SegmentMap(image, seg, n))[seg.First() + n := PageImage(seg.Flags(), PageContent(image, seg, n))]
  {}

  /** Load a segment page by page. */
  method LoadSegment(mmu: Mmu, image: seq<Byte>, seg: Segment, root: nat, owned: seq<(nat, nat)>,
                     ghost s0: Snap, ghost img: map<nat, PageImage>) returns (owned': seq<(nat, nat)>)
    requires mmu.Valid() && Root(root) in mmu.t.nodes && |mmu.frames.free| >= 4 * seg.Pages()
    requires SegmentOk(image, seg) && Loading(s0, mmu.View(), root, owned, img)
    modifies mmu`t, mmu`role, mmu`tlb, mmu`stale, mmu.ram, mmu.frames
    ensures mmu.Valid() && Root(root) in mmu.t.nodes && |mmu.frames.free| >= old(|mmu.frames.free|) - 4 * seg.Pages()
    ensures seg.vaddr < TWO48 ==> mmu.stale <= old(mmu.stale)
    ensures KnownPages(old(mmu.t.pages)) ==> KnownPages(mmu.t.pages)
    ensures Loading(s0, mmu.View(), root, owned', img + SegmentMap(image, seg, seg.Pages()))
  {
    hide PoolOk;
    hide Linked;
    hide TlbOk;
    hide MemoryOk;
    hide Loading;
    hide PageContent;
    hide SegmentOk;
    hide KnownPages;
    owned' := owned;
    assert img + SegmentMap(image, seg, 0) == img;
    var page := 0;
    while page < seg.Pages()
      invariant 0 <= page <= seg.Pages()
      invariant mmu.Valid() && Root(root) in mmu.t.nodes
      invariant |mmu.frames.free| >= old(|mmu.frames.free|) - 4 * page
      invariant seg.vaddr < TWO48 ==> mmu.stale <= old(mmu.stale)
      invariant KnownPages(old(mmu.t.pages)) ==> KnownPages(mmu.t.pages)
      invariant Loading(s0, mmu.View(), root, owned', img + SegmentMap(image, seg, page))
    {
      owned' := LoadPage(mmu, image, seg, page, root, owned', s0, img + SegmentMap(image, seg, page));
      SegmentMapNext(image, seg, page, img);
      page := page + 1;
    }
  }

  /** No segment lies at or above 2^48. */
  predicate Plain(segs: seq<Segment>) {
    forall s | s in segs :: s.vaddr < TWO48
  }

  function TotalPages(segs: seq<Segment>): nat {
    if segs == [] then 0 else TotalPages(segs[..|segs| - 1]) + segs[|segs| - 1].Pages()
  }

  function Ranges(segs: seq<Segment>): (r: seq<Range>)
    ensures |r| == |segs| && forall i | 0 <= i < |segs| :: r[i] == RangeOf(segs[i])
  {
    if segs == [] then [] else Ranges(segs[..|segs| - 1]) + [RangeOf(segs[|segs| - 1])]
  }

  lemma {:induction false} SegmentsPrefix(image: seq<Byte>, i: nat, n: nat)
    requires |image| >= 64 && i <= n && forall j | 0 <= j < n :: HeaderOk(image, j)
    ensures Segments(image, i) <= Segments(image, n)
    ensures TotalPages(Segments(image, i)) <= TotalPages(Segments(image, n))
    decreases n
  {
    hide IsLoad;
    hide SegmentAt;
    hide HeaderAt;
    hide HeaderOk;
    if i < n {
      SegmentsPrefix(image, i, n - 1);
      var s, s' := Segments(image, n - 1), Segments(image, n);
      if IsLoad(image, n - 1) { assert s'[..|s'| - 1] == s; }
    }
  }

  lemma LoadHeader(image: seq<Byte>, i: nat)
    requires |image| >= 64 && HeaderOk(image, i) && IsLoad(image, i)
    ensures HeaderAt(image, i) + 48 <= |image|
  {}

  lemma SegmentsStep(image: seq<Byte>, i: nat)
    requires Loadable(image) && i < U16(image, 56)
    ensures forall s | s in Segments(image, i) :: SegmentOk(image, s)
    ensures forall s | s in Segments(image, i + 1) :: SegmentOk(image, s)
    ensures HeaderOk(image, i)
    ensures IsLoad(image, i) ==> (
              var segs, seg := Segments(image, i), SegmentAt(image, i);
              && SegmentOk(image, seg)
              && ImageMap(image, Segments(image, i + 1)) == ImageMap(image, segs) + SegmentMap(image, seg, seg.Pages())
              && Ranges(Segments(image, i + 1)) == Ranges(segs) + [RangeOf(seg)]
              && (Plain(Segments(image, i + 1)) <==> Plain(segs) && seg.vaddr < TWO48)
              && TotalPages(Segments(image, i + 1)) == TotalPages(segs) + seg.Pages())
    ensures !IsLoad(image, i) ==> Segments(image, i + 1) == Segments(image, i)
    ensures TotalPages(Segments(image, i + 1)) <= TotalPages(LoadSegments(image))
  {
    hide SegmentOk;
    hide SegmentAt;
    hide HeaderAt;
    hide HeaderOk;
    hide IsLoad;
    hide U16;
    hide Validate;
    hide SegmentMap;
    var n := U16(image, 56);
    SegmentsPrefix(image, i, n);
    SegmentsPrefix(image, i + 1, n);
    var s, s' := Segments(image, i), Segments(image, i + 1);
    if IsLoad(image, i) {
      LoadHeader(image, i);
      assert s' == s + [SegmentAt(image, i)] && s'[..|s'| - 1] == s;
      assert s'[|s'| - 1] in s';
    }
  }

  /** `load`: after it, space `root` shows exactly the image, frames and ranges recorded. */
  method Load(mmu: Mmu, image: seq<Byte>, root: nat) returns (entry: nat, ranges: seq<Range>, owned: seq<(nat, nat)>)
    requires mmu.Valid() && Root(root) in mmu.t.nodes && Loadable(image)
    requires OwnedOk(mmu.role, mmu.t.pages, root, []) && SlotsMatch(mmu.t, root, []) && Within(mmu.t.pages, root, {})
    requires |mmu.frames.free| >= 4 * TotalPages(LoadSegments(image))
    modifies mmu`t, mmu`role, mmu`tlb, mmu`stale, mmu.ram, mmu.frames
    ensures mmu.Valid() && Root(root) in mmu.t.nodes
    ensures |mmu.frames.free| >= old(|mmu.frames.free|) - 4 * TotalPages(LoadSegments(image))
    ensures Validate(image) == Some(entry) && ranges == Ranges(LoadSegments(image))
    ensures Plain(LoadSegments(image)) ==> mmu.stale <= old(mmu.stale)
    ensures KnownPages(old(mmu.t.pages)) ==> KnownPages(mmu.t.pages)
    ensures Loading(old(mmu.View()), mmu.View(), root, owned, ImageMap(image, LoadSegments(image)))
  {
    hide PoolOk;
    hide Linked;
    hide TlbOk;
    hide MemoryOk;
    hide SegmentOk;
    hide SegmentAt;
    hide HeaderOk;
    hide IsLoad;
    hide Segments;
    hide U16;
    hide HeaderAt;
    hide Loading;
    hide ImageMap;
    hide Ranges;
    hide TotalPages;
    hide RangeOf;
    hide KnownPages;
    entry := U64(image, 24);
    ranges, owned := [], [];
    ghost var s0 := mmu.View();
    LoadStart(mmu.ram.words, mmu.frames.free, mmu.t, mmu.role, root);
    SegmentsNone(image);
    var i := 0;
    while i < U16(image, 56)
      invariant 0 <= i <= U16(image, 56)
      invariant mmu.Valid() && Root(root) in mmu.t.nodes
      invariant forall s | s in Segments(image, i) :: SegmentOk(image, s)
      invariant |mmu.frames.free| >= old(|mmu.frames.free|) - 4 * TotalPages(Segments(image, i))
      invariant ranges == Ranges(Segments(image, i))
      invariant Plain(Segments(image, i)) ==> mmu.stale <= old(mmu.stale)
      invariant KnownPages(old(mmu.t.pages)) ==> KnownPages(mmu.t.pages)
      invariant Loading(s0, mmu.View(), root, owned, ImageMap(image, Segments(image, i)))
    {
      SegmentsStep(image, i);
      if IsLoad(image, i) {
        LoadHeader(image, i);
        var seg := SegmentAt(image, i);
        owned := LoadSegment(mmu, image, seg, root, owned, s0, ImageMap(image, Segments(image, i)));
        ranges := ranges + [RangeOf(seg)];
      }
      i := i + 1;
    }
  }

  lemma SegmentsNone(image: seq<Byte>)
    requires |image| >= 64
    ensures Segments(image, 0) == [] && Ranges([]) == [] && TotalPages([]) == 0 && ImageMap(image, []) == map[]
  {}

  lemma LoadStart(m: Memory, free: seq<nat>, t: Tables, role: map<nat, Role>, root: nat)
    requires PoolOk(m, free, t, role) && OwnedOk(role, t.pages, root, []) && SlotsMatch(t, root, [])
      && Within(t.pages, root, {})
    ensures Loading(Snap(m, t, role), Snap(m, t, role), root, [], map[])
  {}
}
