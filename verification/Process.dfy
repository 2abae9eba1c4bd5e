/**
 The life of a process's memory (kernel/src/process.rs, ring.rs `setup`, user.rs `teardown`).
 */
module Process {
  import opened Bits
  import opened Frames
  import opened PageTables
  import opened AddressSpaces
  import opened Elf
  import opened Ownership
  import opened Loader
  import opened Gate

  /** The memory side of a process-table entry; an exited process stays as a husk. */
  datatype Process = Process(root: nat, entry: nat, ranges: seq<Range>, owned: seq<(nat, nat)>, ringPa: nat,
    exited: bool)

  /** Frames that creating a process from `image` may take: its pages, stack, root and tables. */
  function FramesNeeded(image: seq<Byte>): nat
    requires Loadable(image)
  {
    4 * TotalPages(LoadSegments(image)) + 5
  }

  /** A live process: its root, its owned frames and its recorded ranges fit its space. */
  ghost predicate ProcessOk(s: Snap, p: Process) {
    && Root(p.root) in s.t.nodes && p.root != 0
    && OwnedOk(s.role, s.t.pages, p.root, p.owned)
    && SlotsMatch(s.t, p.root, p.owned)
    && RangesOk(p.ranges) && RangesMapped(s.t.pages, p.root, p.ranges, p.ringPa != 0)
  }

  /** Another space's step leaves a process alone. */
  lemma ProcessKept(a: Snap, b: Snap, root: nat, low: set<nat>, p: Process)
    requires Left(a, b, root, low) && ProcessOk(a, p) && p.root != root && root != 0 && Held(b.t.pages, b.role)
    ensures ProcessOk(b, p)
  {
    hide LeadsInto;
    OwnedKept(a, b, root, low, p);
    SlotsKept(a, b, root, low, p);
    assert forall k: (nat, nat) | k.0 == p.root && k in a.t.pages :: k in b.t.pages && b.t.pages[k] == a.t.pages[k];
  }

  lemma OwnedKept(a: Snap, b: Snap, root: nat, low: set<nat>, p: Process)
    requires Left(a, b, root, low) && ProcessOk(a, p) && p.root != root && root != 0 && Held(b.t.pages, b.role)
    ensures OwnedOk(b.role, b.t.pages, p.root, p.owned)
  {
    hide RangesMapped;
    hide SlotsMatch;
    hide NodesMove;
    hide PagesMove;
    hide Distinct;
    hide LeadsInto;
    hide FramesOf;
    hide Held;
    hide PageOf;
    RoleKept(a, b, root, low, p.root);
    forall k, q | k in b.t.pages && q in p.owned && b.t.pages[k].pa == q.1
      ensures k.1 == PageOf(q.0)
    {
      OwnedHas(p.owned, q);
      PageKept(a, b, root, low, p.root, k);
    }
  }

  lemma OwnedHas(owned: seq<(nat, nat)>, q: (nat, nat))
    requires q in owned
    ensures q.1 in FramesOf(owned)
  {}

  lemma RoleKept(a: Snap, b: Snap, root: nat, low: set<nat>, other: nat)
    requires RolesMove(a, b, root, low, true) && other != root
    ensures forall f | f in a.role :: a.role[f] == Page(other) <==> b.role[f] == Page(other)
  {
    hide LeadsInto;
    forall f | f in a.role
      ensures a.role[f] == Page(other) <==> b.role[f] == Page(other)
    {
      assert RoleMoves(a.role[f], b.role[f], root, low, true);
    }
  }

  lemma PageKept(a: Snap, b: Snap, root: nat, low: set<nat>, other: nat, k: (nat, nat))
    requires PagesMove(a, b, root, low) && other != root && root != 0 && Held(b.t.pages, b.role)
    requires k in b.t.pages && b.t.pages[k].pa in a.role
      && a.role[b.t.pages[k].pa] == b.role[b.t.pages[k].pa] == Page(other)
    ensures k in a.t.pages && b.t.pages[k] == a.t.pages[k]
  {
    assert MayShow(k.0, b.role[b.t.pages[k].pa]);
  }

  lemma SlotsKept(a: Snap, b: Snap, root: nat, low: set<nat>, p: Process)
    requires Left(a, b, root, low) && ProcessOk(a, p) && p.root != root && root != 0
    ensures SlotsMatch(b.t, p.root, p.owned) && Root(p.root) in b.t.nodes
  {
    hide RangesMapped;
    hide OwnedOk;
    hide RolesMove;
    hide PagesMove;
    forall n | n in b.t.nodes && n.space == p.root
      ensures n in a.t.nodes
    {
      assert !LeadsInto(n, low);
    }
  }

  /** A segment covers the pages its range has a byte in. */
  lemma CoveredByte(image: seq<Byte>, seg: Segment, v: nat)
    requires SegmentOk(image, seg)
    ensures RangeOk(RangeOf(seg)) && (seg.Covers(v) <==> RangeCovers(RangeOf(seg), v))
  {
    hide PageOf;
    PageLow(seg.vaddr);
    PageSpan(seg.vaddr % TWO48, seg.memsz, v);
    SegmentEnd(seg.vaddr % TWO48, seg.memsz);
  }

  lemma PageSpan(lo: nat, memsz: nat, v: nat)
    requires lo % 4096 == 0
    ensures lo / 4096 <= v < lo / 4096 + (memsz + 4095) / 4096 <==> lo / 4096 <= v && v * 4096 < lo + memsz
  {}

  lemma SegmentEnd(lo: nat, memsz: nat)
    requires lo % 4096 == 0 && lo / 4096 + (memsz + 4095) / 4096 <= 0x10_0000_0000
    ensures lo + memsz <= TWO48
  {}

  /** The last range over a page is the range of the last segment over it. */
  lemma {:induction false} LastSame(image: seq<Byte>, segs: seq<Segment>, v: nat)
    requires forall x | x in segs :: SegmentOk(image, x)
    ensures LastRange(Ranges(segs), v) == LastCover(segs, v) && RangesOk(Ranges(segs))
  {
    hide SegmentOk;
    hide RangeCovers;
    hide RangeOk;
    hide RangeOf;
    if segs != [] {
      var k := |segs| - 1;
      LastSame(image, segs[..k], v);
      CoveredByte(image, segs[k], v);
      assert Ranges(segs)[..k] == Ranges(segs[..k]);
    }
  }

  /** After a load, pages are mapped as the last range over them says. */
  lemma LoadedMapped(s: Snap, root: nat, image: seq<Byte>, segs: seq<Segment>, v: nat)
    requires forall x | x in segs :: SegmentOk(image, x)
    requires Shows(s.m, s.t.pages, root, ImageMap(image, segs)) && LastRange(Ranges(segs), v) >= 0
    ensures var k := (SpaceOf(root, v), v);
      && k in s.t.pages
      && (El0Writable(s.t.pages[k].flags) <==> Ranges(segs)[LastRange(Ranges(segs), v)].writable)
  {
    hide ImageMap;
    hide PageContent;
    hide SegmentOk;
    UserFlags();
    LastSame(image, segs, v);
    ImageMapAt(image, segs, v);
    assert PageShown(s.m, s.t.pages[(SpaceOf(root, v), v)], ImageMap(image, segs)[v]);
  }

  /** The loader accepts a read-only segment over the first page of a writable one, and that page
      shows the read-only one, while the gate takes writes there (`Gate.CodeOverData`). */
  lemma CodeOverDataLoads(image: seq<Byte>, x: nat)
    requires x % 4096 == 0 && USER_BASE <= x && x + 8192 <= USER_STACK_VA
    ensures var segs := [Segment(0, x, 0, 8192, false, true), Segment(0, x, 0, 4096, true, false)];
      && (forall s | s in segs :: SegmentOk(image, s))
      && Ranges(segs) == [Range(x, x + 8192, true), Range(x, x + 4096, false)]
      && x / 4096 in ImageMap(image, segs) && !El0Writable(ImageMap(image, segs)[x / 4096].flags)
  {
    hide ImageMap;
    hide PageContent;
    var data, code := Segment(0, x, 0, 8192, false, true), Segment(0, x, 0, 4096, true, false);
    var segs := [data, code];
    assert segs[..1] == [data] && [data][..0] == [];
    assert code.Covers(x / 4096) && LastCover(segs, x / 4096) == 1;
    ImageMapAt(image, segs, x / 4096);
    UserFlags();
  }

  /** Mapping the ring page keeps the ranges mapped. */
  lemma RingMapped(pages: map<(nat, nat), Mapping>, root: nat, ranges: seq<Range>, e: Mapping)
    requires RangesMapped(pages, root, ranges, false) && El0Writable(e.flags)
    ensures RangesMapped(pages[(root, RING_PAGE) := e], root, ranges, true)
  {
    hide El0Writable;
    hide LastRange;
  }

  // ---------------------------------------------------------------- the whole table

  /** Live processes own distinct spaces; every other space is the kernel's, and every page
      belongs to the kernel heap (space 0) or to a live process. */
  ghost predicate TableOk(s: Snap, procs: seq<Process>, owner: map<nat, nat>, kernelRoot: nat) {
    && (forall pid | 0 <= pid < |procs| && !procs[pid].exited ::
          procs[pid].root in owner && owner[procs[pid].root] == pid && ProcessOk(s, procs[pid]))
    && (forall r | r in owner ::
          owner[r] < |procs| && !procs[owner[r]].exited && procs[owner[r]].root == r && r != kernelRoot)
    && (forall r: nat | Root(r) in s.t.nodes :: r == kernelRoot || r in owner)
    && (forall f | f in s.role && s.role[f].Page? :: s.role[f].space == 0 || s.role[f].space in owner)
    && KnownPages(s.t.pages)
  }

  lemma OthersKept(a: Snap, b: Snap, root: nat, low: set<nat>, procs: seq<Process>, owner: map<nat, nat>,
    kernelRoot: nat)
    requires TableOk(a, procs, owner, kernelRoot) && Left(a, b, root, low) && root != 0 && Held(b.t.pages, b.role)
    ensures forall pid | 0 <= pid < |procs| && !procs[pid].exited && procs[pid].root != root :: ProcessOk(b, procs[pid])
    ensures forall r: nat | Root(r) in b.t.nodes :: r == root || r == kernelRoot || r in owner
    ensures forall f | f in b.role && b.role[f].Page? ::
      b.role[f].space == 0 || b.role[f].space == root || b.role[f].space in owner
  {
    hide ProcessOk;
    hide LeadsInto;
    forall pid | 0 <= pid < |procs| && !procs[pid].exited && procs[pid].root != root
      ensures ProcessOk(b, procs[pid])
    {
      ProcessKept(a, b, root, low, procs[pid]);
    }
    RootsKept(a, b, root, low);
    forall f | f in b.role && b.role[f].Page?
      ensures b.role[f].space == 0 || b.role[f].space == root || b.role[f].space in owner
    {
      assert RoleMoves(a.role[f], b.role[f], root, low, true);
    }
  }

  lemma RootsKept(a: Snap, b: Snap, root: nat, low: set<nat>)
    requires Left(a, b, root, low)
    ensures forall r: nat | Root(r) in b.t.nodes :: r == root || Root(r) in a.t.nodes
  {
    forall r: nat | Root(r) in b.t.nodes && r != root
      ensures Root(r) in a.t.nodes
    {
      assert !LeadsInto(Root(r), low);
    }
  }

  lemma TableKnown(s: Snap, procs: seq<Process>, owner: map<nat, nat>, kernelRoot: nat)
    requires TableOk(s, procs, owner, kernelRoot)
    ensures KnownPages(s.t.pages)
  {}

  lemma TableGrows(a: Snap, b: Snap, low: set<nat>, procs: seq<Process>, p: Process, owner: map<nat, nat>,
    kernelRoot: nat)
    requires TableOk(a, procs, owner, kernelRoot) && Confined(a, b, p.root, low) && Held(b.t.pages, b.role)
    requires p.root !in owner && p.root != kernelRoot && p.root != 0 && !p.exited && ProcessOk(b, p)
    requires KnownPages(b.t.pages)
    ensures TableOk(b, procs + [p], owner[p.root := |procs|], kernelRoot)
  {
    hide ProcessOk;
    hide Confined;
    hide Left;
    ConfinedIsLeft(a, b, p.root, low);
    OthersKept(a, b, p.root, low, procs, owner, kernelRoot);
  }

  lemma TableUpdates(a: Snap, b: Snap, procs: seq<Process>, pid: nat, p: Process, owner: map<nat, nat>, kernelRoot: nat)
    requires TableOk(a, procs, owner, kernelRoot) && Confined(a, b, p.root, {}) && Held(b.t.pages, b.role)
    requires pid < |procs| && !procs[pid].exited && procs[pid].root == p.root && p.root != 0 && !p.exited
      && ProcessOk(b, p)
    requires KnownPages(b.t.pages)
    ensures TableOk(b, procs[pid := p], owner, kernelRoot)
  {
    hide ProcessOk;
    hide Confined;
    hide Left;
    ConfinedIsLeft(a, b, p.root, {});
    OthersKept(a, b, p.root, {}, procs, owner, kernelRoot);
  }

  lemma TableShrinks(a: Snap, b: Snap, low: set<nat>, procs: seq<Process>, pid: nat, p: Process, owner: map<nat, nat>,
    kernelRoot: nat)
    requires TableOk(a, procs, owner, kernelRoot) && Left(a, b, p.root, low) && Held(b.t.pages, b.role)
    requires pid < |procs| && !procs[pid].exited && procs[pid].root == p.root && p.root != 0 && p.exited
    requires Root(p.root) !in b.t.nodes && forall f | f in b.role :: b.role[f] != Page(p.root)
    requires KnownPages(b.t.pages)
    ensures TableOk(b, procs[pid := p], owner - {p.root}, kernelRoot)
  {
    hide ProcessOk;
    hide Confined;
    hide Left;
    OthersKept(a, b, p.root, low, procs, owner, kernelRoot);
  }

  /** A root that no table and no process uses has left nothing behind. */
  ghost predicate Unused(s: Snap, root: nat) {
    && (forall f | f in s.role :: s.role[f] != Page(root) && !(s.role[f].Table? && s.role[f].node.space == root))
    && (forall n | n in s.t.nodes :: n.space != root)
    && (forall k | k in s.t.pages :: k.0 != root)
  }

  /** A root that was just allocated names a space with nothing in it. */
  lemma FreshSpace(a: Snap, free: seq<nat>, b: Snap, procs: seq<Process>, owner: map<nat, nat>, kernelRoot: nat,
    root: nat)
    requires TableOk(a, procs, owner, kernelRoot) && PoolOk(a.m, free, a.t, a.role)
    requires Root(root) !in a.t.nodes && Root(kernelRoot) in a.t.nodes && root != 0
    requires b.t.nodes == a.t.nodes[Root(root) := root] && b.t.pages == a.t.pages
    requires forall n | n in a.t.nodes :: n.space != root
    requires forall k | k in a.t.pages :: k.0 != root
    requires Grew(a.m, b.m, a.t, b.t, a.role, b.role, root)
    ensures root !in owner && root != kernelRoot && Unused(a, root)
    ensures Confined(a, b, root, {}) && OwnedOk(b.role, b.t.pages, root, []) && SlotsMatch(b.t, root, [])
      && Within(b.t.pages, root, {})
  {
    hide Contents;
    hide Trees;
    hide OwnedOk;
    hide Confined;
    hide RangesMapped;
    forall r | r in owner
      ensures r != root
    {
      assert ProcessOk(a, procs[owner[r]]);
    }
    RootConfined(a, b, root);
    assert Unused(a, root);
    NothingOwned(a, b, root);
  }

  lemma NothingOwned(a: Snap, b: Snap, root: nat)
    requires Unused(a, root) && Grew(a.m, b.m, a.t, b.t, a.role, b.role, root)
    ensures OwnedOk(b.role, b.t.pages, root, [])
  {
  }

  /** The state after load (`c`) and after the stack (`d`) is that of a live process. */
  lemma Created(c: Snap, d: Snap, root: nat, image: seq<Byte>, entry: nat, owned: seq<(nat, nat)>, stack: nat)
    requires Loadable(image) && root != 0 && Root(root) in d.t.nodes
    requires Shows(c.m, c.t.pages, root, ImageMap(image, LoadSegments(image)))
    requires d.t.pages == c.t.pages[(root, STACK_PAGE) := Mapping(stack, PAGE_USER_RW)]
    requires OwnedOk(d.role, d.t.pages, root, owned) && SlotsMatch(d.t, root, owned)
    ensures ProcessOk(d, Process(root, entry, Ranges(LoadSegments(image)), owned, 0, false))
  {
    hide ImageMap;
    hide Shows;
    hide OwnedOk;
    hide SlotsMatch;
    hide SegmentOk;
    hide HeaderOk;
    hide Segments;
    hide Validate;
    hide LastRange;
    hide Ranges;
    UserFlags();
    hide El0Writable;
    var segs := LoadSegments(image);
    LastSame(image, segs, 0);
    forall v: nat | v >= WINDOW && LastRange(Ranges(segs), v) >= 0
      ensures (root, v) in d.t.pages
      ensures El0Writable(d.t.pages[(root, v)].flags) <==> PageWritable(Ranges(segs), false, v)
    {
      LoadedMapped(c, root, image, segs, v);
    }
  }

  // ---------------------------------------------------------------- images that leave the user slot

  /** No segment starts below the private window, modulo 2^48: none reaches into the shared L0 slot 0. */
  predicate NoLowSegment(image: seq<Byte>)
    requires Loadable(image)
  {
    forall s | s in LoadSegments(image) :: s.First() >= WINDOW
  }

  /** No segment ends above the user window, L0 slot 1, modulo 2^48. */
  predicate NoHighSegment(image: seq<Byte>)
    requires Loadable(image)
  {
    forall s | s in LoadSegments(image) :: s.First() + s.Pages() <= 2 * WINDOW
  }

  /** The shared pages an image is loaded into. */
  function SharedOf(image: seq<Byte>): set<nat>
    requires Loadable(image)
  {
    Shared(ImageMap(image, LoadSegments(image)).Keys)
  }

  lemma FirstPage(image: seq<Byte>, seg: Segment)
    requires SegmentOk(image, seg) && seg.memsz != 0
    ensures seg.Covers(seg.First())
  {}

  /** An image is loaded into shared pages exactly when a segment starts below the private window. */
  lemma SharedIff(image: seq<Byte>)
    requires Loadable(image)
    ensures SharedOf(image) == {} <==> NoLowSegment(image)
  {
    hide ImageMap;
    hide SegmentOk;
    hide HeaderOk;
    hide Validate;
    hide Segments;
    hide PageContent;
    var segs := LoadSegments(image);
    if v :| v in SharedOf(image) {
      ImageMapAt(image, segs, v);
    }
    forall s | s in segs && s.First() < WINDOW
      ensures s.First() in SharedOf(image)
    {
      FirstPage(image, s);
      var i :| 0 <= i < |segs| && segs[i] == s;
      assert segs[i].Covers(s.First());
      ImageMapAt(image, segs, s.First());
    }
  }

  lemma ImageInside(image: seq<Byte>, v: nat)
    requires Loadable(image) && NoHighSegment(image) && v in ImageMap(image, LoadSegments(image))
    ensures v / 0x800_0000 <= 1
  {
    hide ImageMap;
    var segs := LoadSegments(image);
    ImageMapAt(image, segs, v);
  }

  lemma ImageOutside(image: seq<Byte>) returns (v: nat)
    requires Loadable(image) && !NoHighSegment(image)
    ensures v in ImageMap(image, LoadSegments(image)) && v / 0x800_0000 > 1
  {
    hide ImageMap;
    var segs := LoadSegments(image);
    var seg :| seg in segs && seg.First() + seg.Pages() > 2 * WINDOW;
    var i :| 0 <= i < |segs| && segs[i] == seg;
    v := seg.First() + seg.Pages() - 1;
    assert segs[i].Covers(v);
    ImageMapAt(image, segs, v);
  }

  lemma SlotsOfPages(owned: seq<(nat, nat)>)
    ensures forall s :: s in SlotsOf(owned) <==> exists v :: v in PagesOf(owned) && v / 0x800_0000 == s
  {
    hide PageOf;
    forall s | s in SlotsOf(owned)
      ensures exists v :: v in PagesOf(owned) && v / 0x800_0000 == s
    {
      var p :| p in owned && PageOf(p.0) / 0x800_0000 == s;
      assert PageOf(p.0) in PagesOf(owned);
    }
    forall v | v in PagesOf(owned)
      ensures v / 0x800_0000 in SlotsOf(owned)
    {
      var p :| p in owned && PageOf(p.0) == v;
    }
  }

  /** The owned pages of a fresh process: the image's, and the stack in slot 1. */
  lemma ImageSlots(image: seq<Byte>, owned: seq<(nat, nat)>, stack: nat)
    requires Loadable(image) && PagesOf(owned) == ImageMap(image, LoadSegments(image)).Keys
    ensures SlotsOf(owned + [(USER_STACK_VA, stack)]) <= {0, 1} <==> NoHighSegment(image)
    ensures Shared(PagesOf(owned + [(USER_STACK_VA, stack)])) == SharedOf(image)
  {
    hide ImageMap;
    hide Loadable;
    hide NoHighSegment;
    hide SlotsOf;
    hide PagesOf;
    SlotsMore(owned, USER_STACK_VA, stack);
    assert PageOf(USER_STACK_VA) == STACK_PAGE;
    SlotsOfPages(owned);
    if NoHighSegment(image) {
      forall s | s in SlotsOf(owned)
        ensures s <= 1
      {
        var v :| v in PagesOf(owned) && v / 0x800_0000 == s;
        ImageInside(image, v);
      }
    } else {
      var v := ImageOutside(image);
      assert v / 0x800_0000 in SlotsOf(owned);
    }
  }

  /** The page-map keys of shared pages. */
  function SharedKeys(low: set<nat>): set<(nat, nat)> {
    set v | v in low :: (0, v)
  }

  /** Every space but `root` translates as before. */
  ghost predicate OthersSee(pages: map<(nat, nat), Mapping>, pages': map<(nat, nat), Mapping>, root: nat) {
    forall other: nat, v: nat | other != root :: Lookup(pages', other, v) == Lookup(pages, other, v)
  }

  /** A load into a fresh space changes no translation of another space if and only if no segment
      starts below the private window. */
  lemma SeenIff(a: Snap, free: seq<nat>, b: Snap, image: seq<Byte>, root: nat, kernelRoot: nat)
    requires Loadable(image) && Confined(a, b, root, SharedOf(image)) && root != 0 && kernelRoot != root
    requires Unused(a, root) && PoolOk(a.m, free, a.t, a.role)
    requires OwnFrames(b.role, b.t.pages, root, ImageMap(image, LoadSegments(image)).Keys)
    ensures OthersSee(a.t.pages, b.t.pages, root) <==> NoLowSegment(image)
  {
    hide Loadable;
    hide NoLowSegment;
    hide ImageMap;
    hide Confined;
    hide Left;
    hide Contents;
    hide Trees;
    SharedIff(image);
    ConfinedIsLeft(a, b, root, SharedOf(image));
    if NoLowSegment(image) {
      forall other: nat, v: nat | other != root
        ensures Lookup(b.t.pages, other, v) == Lookup(a.t.pages, other, v)
      {
        OthersUntouched(a, b, root, {}, other, v);
      }
    } else {
      var v :| v in SharedOf(image);
      SharedSeen(a, b, root, kernelRoot, v, SharedOf(image));
    }
  }

  /** A shared page that now shows a frame of `root` is seen from every root, and is new to it. */
  lemma SharedSeen(a: Snap, b: Snap, root: nat, other: nat, v: nat, low: set<nat>)
    requires Confined(a, b, root, low) && v < SHARED_PAGES && Unused(a, root) && Held(a.t.pages, a.role)
    requires (0, v) in b.t.pages && b.t.pages[(0, v)].pa in b.role && b.role[b.t.pages[(0, v)].pa] == Page(root)
    ensures Lookup(b.t.pages, other, v) == Lookup(b.t.pages, root, v) == Some(b.t.pages[(0, v)])
    ensures Lookup(b.t.pages, other, v) != Lookup(a.t.pages, other, v)
  {
    hide LeadsInto;
    var f := b.t.pages[(0, v)].pa;
    assert RoleMoves(a.role[f], b.role[f], root, low, false);
  }

  /** What becomes of a frame when the process of space `root` is torn down. */
  function Returned(root: nat, r: Role): Role {
    if r == Page(root) then Free
    else if r.Table? && r.node.space == root then (if Lost(root, r.node) then Leaked else Free)
    else r
  }

  /** The tables after teardown: those of `root` are gone, and so are the shared pages it owned. */
  ghost function Torn(t: Tables, root: nat, owned: seq<(nat, nat)>): Tables {
    var w := Without(t, root);
    w.(pages := w.pages - SharedKeys(Shared(PagesOf(owned))))
  }

  /** Zero a whole frame (`write_bytes`). */
  method ZeroFrame(mmu: Mmu, f: nat)
    requires mmu.Valid() && f in mmu.role && mmu.role[f].Page?
    modifies mmu.ram
    ensures mmu.Valid() && mmu.ram.words.Keys == old(mmu.ram.words.Keys)
    ensures forall g | g in mmu.ram.words && g != f :: mmu.ram.words[g] == old(mmu.ram.words)[g]
    ensures f in mmu.ram.words && mmu.ram.words[f] == ZEROES
  {
    hide PoolOk;
    hide Linked;
    hide TlbOk;
    hide MemoryOk;
    PageFacts(mmu.ram.words, mmu.frames.free, mmu.t, mmu.role, f);
    var i := 0;
    while i < 512
      invariant 0 <= i <= 512
      invariant mmu.Valid() && mmu.ram.words.Keys == old(mmu.ram.words.Keys) && |mmu.ram.words[f]| == 512
      invariant forall g | g in mmu.ram.words && g != f :: mmu.ram.words[g] == old(mmu.ram.words)[g]
      invariant forall j | 0 <= j < i :: mmu.ram.words[f][j] == 0
    {
      mmu.StorePage(f, i, 0);
      i := i + 1;
    }
  }

  /** A private page address: slot 1 and above. */
  predicate PrivateVa(va: nat) {
    va % 4096 == 0 && USER_BASE <= va < 0x1_0000_0000_0000
  }

  lemma PrivateSpace(root: nat, va: nat)
    requires PrivateVa(va)
    ensures UserVa(va) && PageOf(va) == va / 4096 && SpaceOf(root, PageOf(va)) == root && Shared({PageOf(va)}) == {}
    ensures Flushes(va)
  {}

  /** Take a frame for space `root`, zero it if asked, and map it EL0-writable at `va`. */
  method MapNew(mmu: Mmu, root: nat, va: nat, zero: bool, ghost owned: seq<(nat, nat)>) returns (f: nat)
    requires mmu.Valid() && Root(root) in mmu.t.nodes && PrivateVa(va) && |mmu.frames.free| >= 4
    requires OwnedOk(mmu.role, mmu.t.pages, root, owned) && SlotsMatch(mmu.t, root, owned)
    modifies mmu`t, mmu`role, mmu`tlb, mmu`stale, mmu.ram, mmu.frames
    ensures mmu.Valid() && Root(root) in mmu.t.nodes && |mmu.frames.free| >= old(|mmu.frames.free|) - 4
    ensures Confined(old(mmu.View()), mmu.View(), root, {})
    ensures OwnedOk(mmu.role, mmu.t.pages, root, owned + [(va, f)]) && SlotsMatch(mmu.t, root, owned + [(va, f)])
    ensures mmu.t.pages == old(mmu.t.pages)[(root, va / 4096) := Mapping(f, PAGE_USER_RW)]
    ensures mmu.ram.words.Keys == mmu.role.Keys == old(mmu.role.Keys) && f in mmu.role && mmu.role[f] == Page(root)
    ensures forall g | g in old(mmu.role) && old(mmu.role)[g].Page? ::
      mmu.role[g] == old(mmu.role)[g] && mmu.ram.words[g] == old(mmu.ram.words)[g]
    ensures f != 0 && (zero ==> mmu.ram.words[f] == ZEROES)
    ensures mmu.stale <= old(mmu.stale)
  {
    hide PoolOk;
    hide Linked;
    hide TlbOk;
    hide MemoryOk;
    hide Confined;
    hide OwnedOk;
    hide SlotsMatch;
    hide Grew;
    hide Walkable;
    hide OnPath;
    hide Path;
    hide PageOf;
    hide SpaceOf;
    hide Shared;
    PrivateSpace(root, va);
    UserPage(mmu.ram.words, mmu.frames.free, mmu.t, mmu.role, root, va);
    UserFlags();
    ghost var a := mmu.View();
    f := mmu.AllocPage(root);
    ghost var b := mmu.View();
    PageFacts(mmu.ram.words, mmu.frames.free, mmu.t, mmu.role, f);
    if zero {
      ZeroFrame(mmu, f);
    }
    ghost var c, free := mmu.View(), mmu.frames.free;
    UserPage(mmu.ram.words, mmu.frames.free, mmu.t, mmu.role, root, va);
    mmu.MapPageIn(root, va, f, PAGE_USER_RW);
    NewPageStep(a, b, c, free, mmu.View(), mmu.frames.free, root, owned, va, f, PAGE_USER_RW);
    GrewKeeps(c.m, mmu.ram.words, c.t, mmu.t, c.role, mmu.role, root);
    GrewData(c, mmu.View(), root);
  }

  lemma GrewData(a: Snap, b: Snap, s: nat)
    requires Grew(a.m, b.m, a.t, b.t, a.role, b.role, s)
    ensures a.m.Keys == b.m.Keys == a.role.Keys == b.role.Keys
    ensures forall g | g in a.role && a.role[g].Page? :: b.m[g] == a.m[g] && b.role[g] == a.role[g]
  {}

  class ProcessTable {
    const mmu: Mmu
    var procs: seq<Process>
    /** The process that each live private space belongs to. */
    ghost var owner: map<nat, nat>

    ghost predicate Valid()
      reads this, mmu, mmu.ram, mmu.frames
    {
      mmu.Valid() && TableOk(mmu.View(), procs, owner, mmu.kernelRoot)
    }

    /** An empty table over freshly booted memory. */
    constructor (mmu: Mmu)
      requires mmu.Valid() && (forall r: nat | Root(r) in mmu.t.nodes :: r == mmu.kernelRoot)
      requires forall f | f in mmu.role && mmu.role[f].Page? :: mmu.role[f].space == 0
      requires KnownPages(mmu.t.pages)
      ensures Valid() && procs == [] && this.mmu == mmu
    {
      this.mmu, this.procs, this.owner := mmu, [], map[];
    }

    /** A fresh space with the image loaded and a stack mapped. */
    method LoadSpace(image: seq<Byte>) returns (p: Process)
      requires Valid() && Loadable(image) && |mmu.frames.free| >= FramesNeeded(image)
      modifies mmu`t, mmu`role, mmu`tlb, mmu`stale, mmu.ram, mmu.frames
      ensures mmu.Valid() && ProcessOk(mmu.View(), p) && !p.exited && p.ringPa == 0
      ensures p.root !in owner && p.root != mmu.kernelRoot && p.root != 0 && Unused(old(mmu.View()), p.root)
      ensures p.ranges == Ranges(LoadSegments(image)) && Validate(image) == Some(p.entry)
      ensures KnownPages(mmu.t.pages)
      ensures Confined(old(mmu.View()), mmu.View(), p.root, SharedOf(image))
      ensures Shows(mmu.ram.words, mmu.t.pages, p.root, ImageMap(image, LoadSegments(image)) - {STACK_PAGE})
      ensures OwnFrames(mmu.role, mmu.t.pages, p.root, ImageMap(image, LoadSegments(image)).Keys)
      ensures SlotsOf(p.owned) <= {0, 1} <==> NoHighSegment(image)
      ensures Shared(PagesOf(p.owned)) == SharedOf(image)
      ensures Plain(LoadSegments(image)) ==> mmu.stale <= old(mmu.stale)
      ensures |mmu.frames.free| >= old(|mmu.frames.free|) - FramesNeeded(image)
    {
      hide PoolOk;
      hide Linked;
      hide TlbOk;
      hide MemoryOk;
      hide TableOk;
      hide Confined;
      hide OwnedOk;
      hide SlotsMatch;
      hide Shows;
      hide ProcessOk;
      hide Grew;
      hide Segments;
      hide HeaderOk;
      hide Validate;
      hide SegmentOk;
      hide U16;
      hide ImageMap;
      hide Ranges;
      hide Within;
      hide OwnFrames;
      hide PagesOf;
      hide SlotsOf;
      hide NoHighSegment;
      hide Unused;
      hide KnownPages;
      ghost var a := mmu.View();
      TableKnown(a, procs, owner, mmu.kernelRoot);
      var root := mmu.NewAddressSpace();
      ghost var b := mmu.View();
      FreshRoot(mmu.ram.words, mmu.frames.free, mmu.t, mmu.role, root);
      FreshSpace(a, old(mmu.frames.free), b, procs, owner, mmu.kernelRoot, root);
      var entry, ranges, owned := Load(mmu, image, root);
      ghost var c := mmu.View();
      PagesHeld(mmu.ram.words, mmu.frames.free, mmu.t, mmu.role);
      PoolKeys(mmu.ram.words, mmu.frames.free, mmu.t, mmu.role);
      ConfinedTrans(a, b, c, root, {}, SharedOf(image), SharedOf(image));
      ImageSlots(image, owned, 0);
      var stack := MapNew(mmu, root, USER_STACK_VA, false, owned);
      ConfinedTrans(a, c, mmu.View(), root, SharedOf(image), {}, SharedOf(image));
      KnownMore(c.t.pages, (root, STACK_PAGE), Mapping(stack, PAGE_USER_RW));
      StackOver(c, mmu.View(), root, ImageMap(image, LoadSegments(image)), stack);
      ImageSlots(image, owned, stack);
      owned := owned + [(USER_STACK_VA, stack)];
      Created(c, mmu.View(), root, image, entry, owned, stack);
      p := Process(root, entry, ranges, owned, 0, false);
    }

    /** `new_address_space` and `create`: a new live process from whose root one sees the image.
        Other spaces translate as before if and only if no segment starts below the private window:
        every shared page of the image is seen from every root. */
    method Spawn(image: seq<Byte>) returns (pid: nat)
      requires Valid() && Loadable(image) && |mmu.frames.free| >= FramesNeeded(image)
      modifies this, mmu`t, mmu`role, mmu`tlb, mmu`stale, mmu.ram, mmu.frames
      ensures Valid() && pid == |old(procs)| && |procs| == pid + 1 && procs[..pid] == old(procs)
      ensures !procs[pid].exited && procs[pid].root !in old(owner) && procs[pid].ringPa == 0
      ensures Unused(old(mmu.View()), procs[pid].root) && owner == old(owner)[procs[pid].root := pid]
      ensures procs[pid].ranges == Ranges(LoadSegments(image)) && Validate(image) == Some(procs[pid].entry)
      ensures Confined(old(mmu.View()), mmu.View(), procs[pid].root, SharedOf(image))
      ensures Shows(mmu.ram.words, mmu.t.pages, procs[pid].root, ImageMap(image, LoadSegments(image)) - {STACK_PAGE})
      ensures OwnFrames(mmu.role, mmu.t.pages, procs[pid].root, ImageMap(image, LoadSegments(image)).Keys)
      ensures OthersSee(old(mmu.t.pages), mmu.t.pages, procs[pid].root) <==> NoLowSegment(image)
      ensures SlotsOf(procs[pid].owned) <= {0, 1} <==> NoHighSegment(image)
      ensures Shared(PagesOf(procs[pid].owned)) == SharedOf(image)
      ensures Plain(LoadSegments(image)) ==> mmu.stale <= old(mmu.stale)
      ensures |mmu.frames.free| >= old(|mmu.frames.free|) - FramesNeeded(image)
    {
      hide PoolOk;
      hide Linked;
      hide TlbOk;
      hide MemoryOk;
      hide TableOk;
      hide Confined;
      hide Shows;
      hide ProcessOk;
      hide Segments;
      hide HeaderOk;
      hide Validate;
      hide SegmentOk;
      hide U16;
      hide ImageMap;
      hide Ranges;
      hide NoHighSegment;
      hide NoLowSegment;
      hide OwnFrames;
      hide PagesOf;
      hide SlotsOf;
      hide Unused;
      hide OthersSee;
      hide KnownPages;
      var p := LoadSpace(image);
      PagesHeld(mmu.ram.words, mmu.frames.free, mmu.t, mmu.role);
      SeenIff(old(mmu.View()), old(mmu.frames.free), mmu.View(), image, p.root, mmu.kernelRoot);
      TableGrows(old(mmu.View()), mmu.View(), SharedOf(image), procs, p, owner, mmu.kernelRoot);
      pid := |procs|;
      procs := procs + [p];
      owner := owner[p.root := pid];
    }

    /** `ring::setup`: a zeroed page mapped once at the ring address; later calls change nothing. */
    method SetupRing(pid: nat)
      requires Valid() && pid < |procs| && !procs[pid].exited && |mmu.frames.free| >= 4
      modifies this`procs, mmu`t, mmu`role, mmu`tlb, mmu`stale, mmu.ram, mmu.frames
      ensures Valid() && |procs| == |old(procs)|
      ensures !procs[pid].exited && procs[pid].root == old(procs[pid].root) && procs[pid].ringPa != 0
      ensures forall q | 0 <= q < |procs| && q != pid :: procs[q] == old(procs)[q]
      ensures Confined(old(mmu.View()), mmu.View(), procs[pid].root, {}) && mmu.stale <= old(mmu.stale)
      ensures old(procs[pid].ringPa) != 0 ==> procs == old(procs) && mmu.View() == old(mmu.View())
      ensures old(procs[pid].ringPa) == 0 ==>
                var f := procs[pid].ringPa;
                && Lookup(mmu.t.pages, procs[pid].root, RING_PAGE) == Some(Mapping(f, PAGE_USER_RW))
                && f in mmu.ram.words && mmu.ram.words[f] == ZEROES
                && procs[pid].owned == old(procs[pid].owned) + [(USER_RING_VA, f)]
    {
      hide PoolOk;
      hide Linked;
      hide TlbOk;
      hide MemoryOk;
      hide Confined;
      hide OwnedOk;
      hide SlotsMatch;
      hide RangesMapped;
      hide Held;
      hide KnownPages;
      ghost var a := mmu.View();
      var p := procs[pid];
      if p.ringPa != 0 {
        ConfinedRefl(mmu.ram.words, mmu.frames.free, mmu.t, mmu.role, p.root);
        return;
      }
      assert ProcessOk(a, p);
      var f := MapNew(mmu, p.root, USER_RING_VA, true, p.owned);
      PagesHeld(mmu.ram.words, mmu.frames.free, mmu.t, mmu.role);
      var p' := p.(ringPa := f, owned := p.owned + [(USER_RING_VA, f)]);
      UserFlags();
      KnownMore(a.t.pages, (p.root, RING_PAGE), Mapping(f, PAGE_USER_RW));
      RingMapped(a.t.pages, p.root, p.ranges, Mapping(f, PAGE_USER_RW));
      TableUpdates(a, mmu.View(), procs, pid, p', owner, mmu.kernelRoot);
      procs := procs[pid := p'];
    }

    /** Unmap the first owned page from the live space and free its frame. */
    method FreeOne(root: nat, va: nat, frame: nat, ghost owned: seq<(nat, nat)>)
      requires mmu.Valid() && Root(root) in mmu.t.nodes && mmu.live == root
      requires OwnedOk(mmu.role, mmu.t.pages, root, owned) && owned != [] && owned[0] == (va, frame) && UserVa(va)
      modifies mmu`t, mmu`role, mmu`tlb, mmu`stale, mmu.ram, mmu.frames
      ensures mmu.Valid() && mmu.t.nodes == old(mmu.t.nodes)
      ensures mmu.t.pages == old(mmu.t.pages) - {(SpaceOf(root, PageOf(va)), PageOf(va))}
      ensures OwnedOk(mmu.role, mmu.t.pages, root, owned[1..])
      ensures Confined(old(mmu.View()), mmu.View(), root, Shared({PageOf(va)}))
      ensures frame in old(mmu.role) && mmu.role == old(mmu.role)[frame := Free]
    {
      hide PoolOk;
      hide Linked;
      hide TlbOk;
      hide MemoryOk;
      hide Confined;
      hide OwnedOk;
      hide Grew;
      hide PageOf;
      hide SpaceOf;
      hide Walkable;
      hide Held;
      hide Shared;
      ghost var a, free := mmu.View(), mmu.frames.free;
      UserPage(mmu.ram.words, mmu.frames.free, mmu.t, mmu.role, root, va);
      OwnedShrinks(mmu.role, mmu.t.pages, root, owned, PageOf(va));
      mmu.UnmapPageIn(mmu.live, va);
      ghost var b := mmu.View();
      MapConfined(a, free, b, mmu.frames.free, root, PageOf(va), Mapping(0, 0));
      GrewData(a, b, SpaceOf(root, PageOf(va)));
      mmu.FreePage(frame);
      RoleConfined(b, mmu.role, frame, root);
      DataConfined(b.(role := mmu.role), mmu.ram.words, frame, root);
      ConfinedTrans(b, b.(role := mmu.role), mmu.View(), root, {}, {}, {});
      ConfinedTrans(a, b, mmu.View(), root, Shared({PageOf(va)}), {}, Shared({PageOf(va)}));
    }

    /** Unmap and free every page of the live space `root`. */
    method FreePages(root: nat, owned: seq<(nat, nat)>)
      requires mmu.Valid() && Root(root) in mmu.t.nodes && mmu.live == root && root != 0
      requires OwnedOk(mmu.role, mmu.t.pages, root, owned)
      modifies mmu`t, mmu`role, mmu`tlb, mmu`stale, mmu.ram, mmu.frames
      ensures mmu.Valid() && mmu.t.nodes == old(mmu.t.nodes)
      ensures mmu.t.pages == old(mmu.t.pages) - PageKeys(root, PagesOf(owned))
      ensures OwnedOk(mmu.role, mmu.t.pages, root, [])
      ensures Confined(old(mmu.View()), mmu.View(), root, Shared(PagesOf(owned)))
      ensures mmu.role.Keys == old(mmu.role.Keys)
      ensures forall f | f in mmu.role ::
        mmu.role[f] == (if old(mmu.role)[f] == Page(root) then Free else old(mmu.role)[f])
    {
      hide PoolOk;
      hide Linked;
      hide TlbOk;
      hide MemoryOk;
      hide Confined;
      hide OwnedOk;
      hide Grew;
      hide PageOf;
      hide SpaceOf;
      hide PagesOf;
      hide Shared;
      hide PageKeys;
      ghost var a := mmu.View();
      ConfinedRefl(mmu.ram.words, mmu.frames.free, mmu.t, mmu.role, root);
      OwnedRoles(mmu.role, mmu.t.pages, root, owned);
      NoPages(root, owned);
      assert owned[0..] == owned;
      var i := 0;
      while i < |owned|
        invariant 0 <= i <= |owned|
        invariant mmu.Valid() && mmu.t.nodes == a.t.nodes
        invariant mmu.t.pages == a.t.pages - PageKeys(root, PagesOf(owned[..i]))
        invariant OwnedOk(mmu.role, mmu.t.pages, root, owned[i..])
        invariant Confined(a, mmu.View(), root, Shared(PagesOf(owned[..i])))
        invariant mmu.role.Keys == a.role.Keys
        invariant forall f | f in mmu.role ::
          mmu.role[f] == (if a.role[f] == Page(root) && f !in FramesOf(owned[i..]) then Free else a.role[f])
      {
        ghost var b := mmu.View();
        OwnedRoles(mmu.role, mmu.t.pages, root, owned[i..]);
        assert owned[i..][0] == owned[i] && owned[i..][1..] == owned[i + 1..];
        FreeOne(root, owned[i].0, owned[i].1, owned[i..]);
        PagesMore(a.t.pages, root, owned, i);
        ConfinedTrans(a, b, mmu.View(), root, Shared(PagesOf(owned[..i])), Shared({PageOf(owned[i].0)}),
          Shared(PagesOf(owned[..i + 1])));
        i := i + 1;
      }
      assert owned[i..] == [] && owned[..i] == owned;
    }

    /** `teardown`: unmap and free what the process owns, leave its space, free the tables,
        and keep the entry as a husk. */
    method Teardown(pid: nat)
      requires Valid() && pid < |procs| && !procs[pid].exited && mmu.live == procs[pid].root
      modifies this, mmu, mmu.ram, mmu.frames
      ensures Valid() && mmu.kernelRoot == old(mmu.kernelRoot) && mmu.live == mmu.kernelRoot && mmu.stale == {}
      ensures procs == old(procs)[pid := old(procs[pid]).(owned := [], ringPa := 0, exited := true)]
      ensures owner == old(owner) - {old(procs[pid].root)}
      ensures mmu.t == Torn(old(mmu.t), old(procs[pid].root), old(procs[pid].owned))
      ensures mmu.role.Keys == old(mmu.role.Keys)
      ensures forall f | f in mmu.role :: mmu.role[f] == Returned(old(procs[pid].root), old(mmu.role)[f])
      ensures Left(old(mmu.View()), mmu.View(), old(procs[pid].root), Shared(PagesOf(old(procs[pid].owned))))
    {
      hide PoolOk;
      hide Linked;
      hide TlbOk;
      hide MemoryOk;
      hide Confined;
      hide OwnedOk;
      hide SlotsMatch;
      hide RangesMapped;
      hide Left;
      hide PagesOf;
      hide Shared;
      hide Torn;
      hide Held;
      hide Without;
      hide Reclaimed;
      hide Returned;
      hide PageKeys;
      hide KnownPages;
      ghost var a := mmu.View();
      var p := procs[pid];
      var root := p.root;
      assert ProcessOk(a, p) && root in owner && root != mmu.kernelRoot;
      hide TableOk;
      FreePages(root, p.owned);
      hide ProcessOk;
      ghost var b := mmu.View();
      PoolKeys(mmu.ram.words, mmu.frames.free, mmu.t, mmu.role);
      PagesHeld(mmu.ram.words, mmu.frames.free, mmu.t, mmu.role);
      mmu.Activate(mmu.kernelRoot);
      mmu.FreeAddressSpace(root);
      PagesHeld(mmu.ram.words, mmu.frames.free, mmu.t, mmu.role);
      TornDown(a, b, mmu.View(), root, p.owned);
      TornKnown(a.t, root, p.owned);
      var husk := p.(owned := [], ringPa := 0, exited := true);
      TableShrinks(a, mmu.View(), Shared(PagesOf(p.owned)), procs, pid, husk, owner, mmu.kernelRoot);
      procs := procs[pid := husk];
      owner := owner - {root};
    }

    /** Create a process, run it and optionally set up its ring. */
    method Launch(image: seq<Byte>, ring: bool) returns (pid: nat)
      requires Valid() && Loadable(image) && |mmu.frames.free| >= FramesNeeded(image) + 4
      modifies this, mmu, mmu.ram, mmu.frames
      ensures Valid() && pid < |procs| && !procs[pid].exited && mmu.live == procs[pid].root
      ensures (procs[pid].ringPa != 0 <==> ring) && pid == |old(procs)| && |procs| == pid + 1
      ensures procs[pid].root !in old(owner) && owner == old(owner)[procs[pid].root := pid]
      ensures Unused(old(mmu.View()), procs[pid].root)
        && Confined(old(mmu.View()), mmu.View(), procs[pid].root, SharedOf(image))
      ensures SlotsOf(procs[pid].owned) <= {0, 1} <==> NoHighSegment(image)
      ensures Shared(PagesOf(procs[pid].owned)) == SharedOf(image)
    {
      hide PoolOk;
      hide Linked;
      hide TlbOk;
      hide MemoryOk;
      hide TableOk;
      hide Confined;
      hide Left;
      hide Shows;
      hide ProcessOk;
      hide Loadable;
      hide NoHighSegment;
      hide NoLowSegment;
      hide SharedOf;
      hide ImageMap;
      hide Ranges;
      hide FramesNeeded;
      hide Without;
      hide Returned;
      hide Unused;
      hide OwnFrames;
      hide OthersSee;
      hide PagesOf;
      hide SlotsOf;
      ghost var a := mmu.View();
      pid := Spawn(image);
      var root := procs[pid].root;
      LiveRoot(mmu.View(), procs, owner, mmu.kernelRoot, pid);
      mmu.Activate(root);
      ghost var b, p := mmu.View(), procs[pid];
      if ring {
        SetupRing(pid);
        RingSlot(p.owned, procs[pid].ringPa);
        ConfinedTrans(a, b, mmu.View(), root, SharedOf(image), {}, SharedOf(image));
      }
    }

    /** Create, optionally set up the ring, tear down.  The mappings are those of before without the
        shared pages of the image, and the tables those of before with the shared tables that lead
        to them.  So everything is as before if and only if those tables were there and those pages
        were not mapped; and every frame comes back if and only if those tables were there and no
        segment lies above the user slot. */
    method Lifecycle(image: seq<Byte>, ring: bool)
      requires Valid() && Loadable(image) && |mmu.frames.free| >= FramesNeeded(image) + 4
      modifies this, mmu, mmu.ram, mmu.frames
      ensures Valid() && owner == old(owner)
      ensures mmu.t.pages == old(mmu.t.pages) - SharedKeys(SharedOf(image))
      ensures forall n :: n in mmu.t.nodes <==> n in old(mmu.t.nodes) || LeadsInto(n, SharedOf(image))
      ensures forall n | n in old(mmu.t.nodes) :: mmu.t.nodes[n] == old(mmu.t.nodes)[n]
      ensures mmu.t == old(mmu.t) <==>
        Built(old(mmu.t), SharedOf(image)) && forall v | v in SharedOf(image) :: (0, v) !in old(mmu.t.pages)
      ensures mmu.role == old(mmu.role) <==> Built(old(mmu.t), SharedOf(image)) && NoHighSegment(image)
      ensures mmu.role == old(mmu.role) ==> forall f :: f in mmu.frames.free <==> f in old(mmu.frames.free)
      ensures mmu.role != old(mmu.role) ==> exists f :: f in old(mmu.frames.free) && f !in mmu.frames.free
      ensures NoLowSegment(image) ==> mmu.t == old(mmu.t) && Built(old(mmu.t), SharedOf(image))
    {
      hide PoolOk;
      hide Linked;
      hide TlbOk;
      hide MemoryOk;
      hide TableOk;
      hide Confined;
      hide Left;
      hide Shows;
      hide ProcessOk;
      hide Loadable;
      hide NoHighSegment;
      hide NoLowSegment;
      hide SharedOf;
      hide ImageMap;
      hide Ranges;
      hide FramesNeeded;
      hide Without;
      hide Returned;
      hide Unused;
      hide LeadsInto;
      hide Built;
      hide Torn;
      hide PagesOf;
      hide SlotsOf;
      hide Shared;
      ghost var a, free := mmu.View(), mmu.frames.free;
      PoolKeys(mmu.ram.words, mmu.frames.free, mmu.t, mmu.role);
      var pid := Launch(image, ring);
      ghost var c, root, owned, free' := mmu.View(), procs[pid].root, procs[pid].owned, mmu.frames.free;
      LiveRoot(c, procs, owner, mmu.kernelRoot, pid);
      LeakIff(c, mmu.frames.free, procs[pid]);
      SharedBuilt(c, procs[pid]);
      Teardown(pid);
      PoolKeys(mmu.ram.words, mmu.frames.free, mmu.t, mmu.role);
      TablesBack(a, c, mmu.View(), root, SharedOf(image), owned);
      RolesBack(a, free, c, free', mmu.View(), root, SharedOf(image));
      SharedIff(image);
      NoneBuilt(a.t);
    }
  }

  lemma NoneBuilt(t: Tables)
    ensures Built(t, {})
  {}

  lemma LiveRoot(s: Snap, procs: seq<Process>, owner: map<nat, nat>, kernelRoot: nat, pid: nat)
    requires TableOk(s, procs, owner, kernelRoot) && pid < |procs| && !procs[pid].exited
    ensures ProcessOk(s, procs[pid]) && Root(procs[pid].root) in s.t.nodes && procs[pid].root != 0
  {}

  lemma SharedBuilt(s: Snap, p: Process)
    requires ProcessOk(s, p)
    ensures Built(s.t, Shared(PagesOf(p.owned)))
  {}

  lemma RingSlot(owned: seq<(nat, nat)>, f: nat)
    ensures SlotsOf(owned + [(USER_RING_VA, f)]) <= {0, 1} <==> SlotsOf(owned) <= {0, 1}
    ensures Shared(PagesOf(owned + [(USER_RING_VA, f)])) == Shared(PagesOf(owned))
  {
    hide SlotsOf;
    hide PagesOf;
    SlotsMore(owned, USER_RING_VA, f);
    assert PageOf(USER_RING_VA) == RING_PAGE;
  }

  lemma TableAttached(m: Memory, free: seq<nat>, t: Tables, role: map<nat, Role>, f: nat)
    requires PoolOk(m, free, t, role) && f in role
    ensures role[f].Table? ==> role[f].node in t.nodes && Attached(t, role[f].node)
  {}

  /** Teardown loses a table exactly when the process owns a page above slot 1. */
  lemma LeakIff(s: Snap, free: seq<nat>, p: Process)
    requires PoolOk(s.m, free, s.t, s.role) && ProcessOk(s, p)
    ensures (forall f | f in s.role :: Returned(p.root, s.role[f]).Leaked? ==> s.role[f].Leaked?) <==>
      SlotsOf(p.owned) <= {0, 1}
  {
    hide OwnedOk;
    hide RangesMapped;
    hide Contents;
    hide SlotsOf;
    hide PagesOf;
    if !(SlotsOf(p.owned) <= {0, 1}) {
      var i :| i in SlotsOf(p.owned) && i > 1;
      var n := Node(p.root, 1, i);
      var f := s.t.nodes[n];
      assert s.role[f] == Table(n) && Lost(p.root, n);
      assert Returned(p.root, s.role[f]).Leaked?;
    } else {
      forall f | f in s.role
        ensures Returned(p.root, s.role[f]).Leaked? ==> s.role[f].Leaked?
      {
        TableAttached(s.m, free, s.t, s.role, f);
      }
    }
  }

  /** The page-map keys of the pages `dom` as seen from `root`. */
  function PageKeys(root: nat, dom: set<nat>): set<(nat, nat)> {
    set v | v in dom :: (SpaceOf(root, v), v)
  }

  lemma NoPages(root: nat, owned: seq<(nat, nat)>)
    ensures owned[..0] == [] && PagesOf([]) == {} && PageKeys(root, {}) == {} && Shared({}) == {}
  {}

  lemma PagesMore(pages: map<(nat, nat), Mapping>, root: nat, owned: seq<(nat, nat)>, i: nat)
    requires i < |owned|
    ensures var done, v, more := PagesOf(owned[..i]), PageOf(owned[i].0), PagesOf(owned[..i + 1]);
      && pages - PageKeys(root, done) - {(SpaceOf(root, v), v)} == pages - PageKeys(root, more)
      && Shared(done) <= Shared(more) && Shared({v}) <= Shared(more)
  {
    var s, s' := owned[..i], owned[..i + 1];
    assert s' == s + [owned[i]] && owned[i] in s' && forall q | q in s :: q in s';
    assert PagesOf(s') == PagesOf(s) + {PageOf(owned[i].0)};
  }

  /** After a whole life of space `root`: the tables of before and those into `low`, and the pages
      of before without those of `low`. */
  lemma TablesBack(a: Snap, c: Snap, d: Snap, root: nat, low: set<nat>, owned: seq<(nat, nat)>)
    requires Unused(a, root) && Confined(a, c, root, low) && root != 0 && Built(c.t, low)
    requires d.t == Torn(c.t, root, owned) && Shared(PagesOf(owned)) == low
    ensures d.t.pages == a.t.pages - SharedKeys(low)
    ensures forall n :: n in d.t.nodes <==> n in a.t.nodes || LeadsInto(n, low)
    ensures forall n | n in a.t.nodes :: d.t.nodes[n] == a.t.nodes[n]
    ensures d.t == a.t <==> Built(a.t, low) && forall v | v in low :: (0, v) !in a.t.pages
  {
    hide RolesMove;
    hide PagesOf;
    NodesBack(a.t, c.t, root, low);
    PagesBack(a, c, root, low);
    assert d.t.nodes == Without(c.t, root).nodes && d.t.pages == Without(c.t, root).pages - SharedKeys(low);
    BuiltIff(a.t, d.t, low);
    assert d.t.pages == a.t.pages <==> forall v | v in low :: (0, v) !in a.t.pages by { KeysGone(a.t.pages, low); }
  }

  lemma KeysGone(pages: map<(nat, nat), Mapping>, low: set<nat>)
    ensures pages - SharedKeys(low) == pages <==> forall v | v in low :: (0, v) !in pages
  {
    if pages - SharedKeys(low) == pages {
      forall v | v in low ensures (0, v) !in pages { assert (0, v) in SharedKeys(low); }
    }
  }

  lemma NodesBack(a: Tables, c: Tables, root: nat, low: set<nat>)
    requires (forall n | n in a.nodes :: n.space != root) && NodesMove(a, c, root, low) && root != 0 && Built(c, low)
    ensures var nodes := Without(c, root).nodes;
      && (forall n :: n in nodes <==> n in a.nodes || LeadsInto(n, low))
      && (forall n | n in a.nodes :: nodes[n] == a.nodes[n])
  {
    hide LeadsInto;
    hide Built;
    forall n
      ensures LeadsInto(n, low) ==> n in c.nodes && n.space == 0
    {
      BuiltLeads(c, low, n);
    }
  }

  lemma PagesBack(a: Snap, c: Snap, root: nat, low: set<nat>)
    requires (forall k | k in a.t.pages :: k.0 != root) && PagesMove(a, c, root, low) && root != 0
    ensures Without(c.t, root).pages - SharedKeys(low) == a.t.pages - SharedKeys(low)
  {
    var p, q := Without(c.t, root).pages - SharedKeys(low), a.t.pages - SharedKeys(low);
    forall k
      ensures k in p <==> k in q
      ensures k in p ==> p[k] == q[k]
    {
      assert k.0 == 0 && k.1 in low <==> k in SharedKeys(low);
    }
  }

  lemma BuiltIff(a: Tables, d: Tables, low: set<nat>)
    requires forall n :: n in d.nodes <==> n in a.nodes || LeadsInto(n, low)
    requires forall n | n in a.nodes :: d.nodes[n] == a.nodes[n]
    ensures d.nodes == a.nodes <==> Built(a, low)
  {
    if d.nodes == a.nodes {
      forall v | v in low
        ensures Node(0, 2, Prefix(v, 2)) in a.nodes && Node(0, 3, Prefix(v, 3)) in a.nodes
      {
        assert Leads(Node(0, 2, Prefix(v, 2)), v) && Leads(Node(0, 3, Prefix(v, 3)), v);
        assert LeadsInto(Node(0, 2, Prefix(v, 2)), low) && LeadsInto(Node(0, 3, Prefix(v, 3)), low);
      }
    }
    if Built(a, low) {
      forall n | n in d.nodes ensures n in a.nodes { BuiltLeads(a, low, n); }
    }
  }

  lemma BuiltLeads(t: Tables, low: set<nat>, n: Node)
    requires Built(t, low)
    ensures LeadsInto(n, low) ==> n in t.nodes && n.space == 0
  {
    if LeadsInto(n, low) {
      var v :| v in low && Leads(n, v);
      assert n == Node(0, n.level, Prefix(v, n.level));
    }
  }

  /** After a whole life every frame has its role back, exactly when no table was lost and none was
      added to the shared subtree; otherwise a free frame is gone. */
  lemma RolesBack(a: Snap, free: seq<nat>, c: Snap, free': seq<nat>, d: Snap, root: nat, low: set<nat>)
    requires Unused(a, root) && Confined(a, c, root, low) && root != 0 && Built(c.t, low)
    requires PoolOk(a.m, free, a.t, a.role) && PoolOk(c.m, free', c.t, c.role)
    requires d.role.Keys == c.role.Keys && forall f | f in d.role :: d.role[f] == Returned(root, c.role[f])
    ensures d.role == a.role <==>
      Built(a.t, low) && forall f | f in c.role :: Returned(root, c.role[f]).Leaked? ==> c.role[f].Leaked?
    ensures d.role != a.role ==> exists f :: f in a.role && a.role[f].Free? && !(f in d.role && d.role[f].Free?)
  {
    hide Contents;
    hide Trees;
    hide Roles;
    hide RolesMove;
    hide NodesMove;
    hide PagesMove;
    hide Built;
    hide Unused;
    hide LeadsInto;
    assert a.role.Keys == c.role.Keys by { SameFrames(a, c, root, low); }
    forall f | f in a.role
      ensures d.role[f] == a.role[f] || (a.role[f].Free? && !d.role[f].Free? && FrameGone(a, c, root, low, f))
    {
      RoleBack(a, c, root, low, f);
    }
    hide FrameGone;
    hide Returned;
    if d.role == a.role {
      BackBuilt(a, free, c, free', d, root, low);
      NoneLost(a, c, root, low);
    }
    if d.role != a.role {
      var f :| f in a.role && d.role[f] != a.role[f];
      assert a.role[f].Free? && !d.role[f].Free?;
      if Built(a.t, low) { GoneUnbuilt(a, free, c, free', root, low, f); }
    }
  }

  lemma NoneLost(a: Snap, c: Snap, root: nat, low: set<nat>)
    requires RolesMove(a, c, root, low, false) && forall f | f in a.role :: a.role[f] == Returned(root, c.role[f])
    ensures forall f | f in c.role :: Returned(root, c.role[f]).Leaked? ==> c.role[f].Leaked?
  {
    hide LeadsInto;
    forall f | f in c.role && Returned(root, c.role[f]).Leaked?
      ensures c.role[f].Leaked?
    {
      assert RoleMoves(a.role[f], c.role[f], root, low, false);
    }
  }

  lemma SameFrames(a: Snap, c: Snap, root: nat, low: set<nat>)
    requires RolesMove(a, c, root, low, false)
    ensures a.role.Keys == c.role.Keys
  {}

  /** Frame `f`, free at first, ends as a lost table or as a new shared one. */
  ghost predicate FrameGone(a: Snap, c: Snap, root: nat, low: set<nat>, f: nat) {
    && f in a.role && f in c.role && a.role[f].Free? && c.role[f].Table?
    && (Returned(root, c.role[f]).Leaked? || LeadsInto(c.role[f].node, low))
  }

  lemma RoleBack(a: Snap, c: Snap, root: nat, low: set<nat>, f: nat)
    requires Unused(a, root) && RolesMove(a, c, root, low, false) && root != 0 && f in a.role
    ensures var r := Returned(root, c.role[f]);
      || r == a.role[f]
      || (a.role[f].Free? && !r.Free? && FrameGone(a, c, root, low, f))
  {
    assert RoleMoves(a.role[f], c.role[f], root, low, false);
  }

  lemma GoneUnbuilt(a: Snap, free: seq<nat>, c: Snap, free': seq<nat>, root: nat, low: set<nat>, f: nat)
    requires Roles(a.m, free, a.t, a.role) && Roles(c.m, free', c.t, c.role)
    requires NodesMove(a.t, c.t, root, low) && root != 0 && Built(a.t, low) && FrameGone(a, c, root, low, f)
    ensures Returned(root, c.role[f]).Leaked? && !c.role[f].Leaked?
  {
    if LeadsInto(c.role[f].node, low) { SharedBefore(a, free, c, free', root, low, f); }
  }

  /** A shared table into `low` was a table before, when all of those were there. */
  lemma SharedBefore(a: Snap, free: seq<nat>, c: Snap, free': seq<nat>, root: nat, low: set<nat>, f: nat)
    requires Roles(a.m, free, a.t, a.role) && Roles(c.m, free', c.t, c.role)
    requires NodesMove(a.t, c.t, root, low) && root != 0 && Built(a.t, low)
    requires f in a.role && f in c.role && c.role[f].Table? && LeadsInto(c.role[f].node, low)
    ensures a.role[f] == c.role[f]
  {
    var n := c.role[f].node;
    BuiltLeads(a.t, low, n);
    assert n in a.t.nodes && c.t.nodes[n] == a.t.nodes[n];
  }

  lemma BackBuilt(a: Snap, free: seq<nat>, c: Snap, free': seq<nat>, d: Snap, root: nat, low: set<nat>)
    requires Roles(a.m, free, a.t, a.role) && Roles(c.m, free', c.t, c.role) && root != 0 && Built(c.t, low)
    requires d.role.Keys == c.role.Keys && forall f | f in d.role :: d.role[f] == Returned(root, c.role[f])
    requires d.role == a.role
    ensures Built(a.t, low)
  {
    forall n | n in c.t.nodes && n.space == 0
      ensures n in a.t.nodes
    {
      assert c.role[c.t.nodes[n]] == Table(n) && d.role[c.t.nodes[n]] == Table(n);
    }
  }

  lemma PoolKeys(m: Memory, free: seq<nat>, t: Tables, role: map<nat, Role>)
    requires PoolOk(m, free, t, role)
    ensures role.Keys == m.Keys
    ensures forall f :: f in free <==> f in role && role[f].Free?
  {}

  /** Freeing the pages (`b`) and then the tables (`c`) leaves no trace of the space. */
  lemma TornKnown(t: Tables, root: nat, owned: seq<(nat, nat)>)
    requires KnownPages(t.pages)
    ensures KnownPages(Torn(t, root, owned).pages)
  {}

  lemma TornDown(a: Snap, b: Snap, c: Snap, root: nat, owned: seq<(nat, nat)>)
    requires b.t.nodes == a.t.nodes && b.t.pages == a.t.pages - PageKeys(root, PagesOf(owned)) && root != 0
    requires a.role.Keys == b.role.Keys && forall f | f in b.role ::
      b.role[f] == (if a.role[f] == Page(root) then Free else a.role[f])
    requires c.t == Without(b.t, root) && c.role == Reclaimed(b.role, root)
    requires Confined(a, b, root, Shared(PagesOf(owned))) && b.role.Keys == b.m.Keys == c.m.Keys
    requires forall f | f in b.role && b.role[f].Page? :: c.m[f] == b.m[f]
    ensures Left(a, c, root, Shared(PagesOf(owned)))
    ensures c.t == Torn(a.t, root, owned)
    ensures c.role.Keys == a.role.Keys && forall f | f in c.role :: c.role[f] == Returned(root, a.role[f])
    ensures Root(root) !in c.t.nodes && forall f | f in c.role :: c.role[f] != Page(root)
  {
    hide PagesOf;
    hide Confined;
    hide Left;
    FreedLeft(b, c, root);
    ConfinedThenLeft(a, b, c, root, Shared(PagesOf(owned)));
    var w := Torn(a.t, root, owned);
    assert c.t.nodes == w.nodes;
    forall k
      ensures k in c.t.pages <==> k in w.pages
      ensures k in c.t.pages ==> c.t.pages[k] == w.pages[k]
    {
      assert k.0 != root ==> (k in PageKeys(root, PagesOf(owned)) <==> k in SharedKeys(Shared(PagesOf(owned))));
    }
    assert c.t.pages == w.pages;
  }

  lemma OwnedRoles(role: map<nat, Role>, pages: map<(nat, nat), Mapping>, root: nat, owned: seq<(nat, nat)>)
    requires OwnedOk(role, pages, root, owned)
    ensures forall f | f in role :: role[f] == Page(root) <==> f in FramesOf(owned)
    ensures owned != [] ==>
      && FramesOf(owned) == {owned[0].1} + FramesOf(owned[1..])
      && owned[0].1 !in FramesOf(owned[1..]) && UserVa(owned[0].0)
  {
    if owned != [] {
      assert owned[0] in owned;
      assert forall p | p in owned :: p == owned[0] || p in owned[1..];
    }
  }

  lemma FreshRoot(m: Memory, free: seq<nat>, t: Tables, role: map<nat, Role>, root: nat)
    requires PoolOk(m, free, t, role) && Root(root) in t.nodes
    ensures root != 0
  {
    TableFacts(m, free, t, role, Root(root));
  }

  lemma PagesHeld(m: Memory, free: seq<nat>, t: Tables, role: map<nat, Role>)
    requires PoolOk(m, free, t, role)
    ensures Held(t.pages, role)
  {}

  /** The stack page replaces the image there and leaves the rest shown. */
  lemma StackOver(c: Snap, d: Snap, root: nat, img: map<nat, PageImage>, stack: nat)
    requires Shows(c.m, c.t.pages, root, img) && OwnFrames(c.role, c.t.pages, root, img.Keys) && Held(c.t.pages, c.role)
    requires d.m.Keys == d.role.Keys == c.role.Keys && stack in d.role && d.role[stack] == Page(root)
    requires forall g | g in c.role && c.role[g].Page? :: g in c.m && d.m[g] == c.m[g] && d.role[g] == c.role[g]
    requires d.t.pages == c.t.pages[(root, STACK_PAGE) := Mapping(stack, PAGE_USER_RW)]
    ensures Shows(d.m, d.t.pages, root, img - {STACK_PAGE})
    ensures OwnFrames(d.role, d.t.pages, root, img.Keys)
  {
    hide PageShown;
    forall v | v in img - {STACK_PAGE}
      ensures var k := (SpaceOf(root, v), v); k in d.t.pages && PageShown(d.m, d.t.pages[k], img[v])
    {
      var k := (SpaceOf(root, v), v);
      assert k in c.t.pages && PageShown(c.m, c.t.pages[k], img[v]);
      PageShownSame(c.m, d.m, c.t.pages[k], img[v]);
    }
  }
}
