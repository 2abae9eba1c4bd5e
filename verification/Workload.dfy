/**
 Whole workloads over the memory model: any sequence of process creation, ring setup, space
 switches, TLB fills and exits keeps every frame accounted for; loaded bytes and gated pointers
 are seen through the translation.
 */
module Workload {
  import opened Bits
  import opened Frames
  import opened PageTables
  import opened AddressSpaces
  import opened Hardware
  import opened Elf
  import opened Ownership
  import opened Loader
  import opened Headers
  import opened Gate
  import opened Process

  datatype Op = Launch(image: seq<Byte>) | SetUp(pid: nat) | SwitchTo(pid: nat) | Touch(v: nat) | Exit(pid: nat)

  /** What the kernel can do without a panic: enough frames, a live process. */
  predicate CanDo(table: ProcessTable, op: Op)
    reads table, table.mmu, table.mmu.frames
  {
    match op
    case Launch(image) => Loadable(image) && table.mmu.frames.freeCount >= FramesNeeded(image)
    case SetUp(pid) => pid < |table.procs| && !table.procs[pid].exited && table.mmu.frames.freeCount >= 4
    case SwitchTo(pid) => pid < |table.procs| && !table.procs[pid].exited
    case Touch(v) => v < 0x10_0000_0000
    case Exit(pid) => pid < |table.procs| && !table.procs[pid].exited
  }

  /** The frames of the kernel heap, and what is in them. */
  ghost function Heap(s: Snap): map<nat, seq<Word>> {
    map f | f in s.role && s.role[f] == Page(0) && f in s.m :: s.m[f]
  }

  /** A process's step leaves the frames of the kernel heap alone. */
  lemma HeapKept(a: Snap, b: Snap, root: nat, low: set<nat>)
    requires Left(a, b, root, low) && root != 0
    ensures Heap(b) == Heap(a)
  {
    hide LeadsInto;
    RoleKept(a, b, root, low, 0);
  }

  /** `init_mmu`, `init_heap` and an empty process table: every frame is free, a table or one of the
      512 frames of the heap. */
  method Start(ram: Ram, frames: FrameAllocator) returns (table: ProcessTable)
    requires frames.ram == ram && frames.Valid() && Aligned(ram.words) && |frames.free| >= 3 + 4 * HEAP_PAGES
    requires forall f | f in ram.words :: f in frames.free
    modifies ram, frames
    ensures fresh(table) && fresh(table.mmu) && table.mmu.ram == ram && table.mmu.frames == frames
    ensures table.Valid() && table.procs == []
    ensures forall k :: k in table.mmu.t.pages <==>
      k.0 == 0 && HEAP_VBASE / 4096 <= k.1 < HEAP_VBASE / 4096 + HEAP_PAGES
    ensures forall f | f in table.mmu.role ::
      table.mmu.role[f] == Page(0) <==> exists k :: k in table.mmu.t.pages && table.mmu.t.pages[k].pa == f
    ensures forall f | f in table.mmu.role :: table.mmu.role[f].Page? ==> table.mmu.role[f] == Page(0)
  {
    hide PoolOk;
    hide Linked;
    hide TlbOk;
    hide MemoryOk;
    var mmu := new Mmu.Boot(ram, frames);
    mmu.InitHeap();
    HeapRoles(mmu.ram.words, mmu.frames.free, mmu.t, mmu.role);
    table := new ProcessTable(mmu);
  }

  lemma HeapRoles(m: Memory, free: seq<nat>, t: Tables, role: map<nat, Role>)
    requires PoolOk(m, free, t, role)
    requires forall f | f in role && role[f].Page? ::
      role[f] == Page(0) && exists k :: k in t.pages && t.pages[k].pa == f
    ensures forall f | f in role :: role[f] == Page(0) <==> exists k :: k in t.pages && t.pages[k].pa == f
  {}

  /** No image of the operation has a segment at or above 2^48. */
  predicate Ordinary(op: Op) {
    op.Launch? && Loadable(op.image) ==> Plain(LoadSegments(op.image))
  }

  /** What an operation does to the process table, and to the live root. */
  ghost predicate Done(before: seq<Process>, after: seq<Process>, live: nat, op: Op) {
    match op
    case Launch(image) =>
      && |after| == |before| + 1 && after[..|before|] == before && !after[|before|].exited
      && Validate(image) == Some(after[|before|].entry)
    case SetUp(pid) =>
      && pid < |before| == |after| && after[pid].ringPa != 0 && after[pid].root == before[pid].root
      && forall q | 0 <= q < |before| && q != pid :: after[q] == before[q]
    case SwitchTo(pid) => pid < |before| && after == before && live == after[pid].root
    case Touch(_) => after == before
    case Exit(pid) => pid < |before| && after == before[pid := before[pid].(owned := [], ringPa := 0, exited := true)]
  }

  method Create(table: ProcessTable, image: seq<Byte>)
    requires table.Valid() && Loadable(image) && |table.mmu.frames.free| >= FramesNeeded(image)
    modifies table, table.mmu, table.mmu.ram, table.mmu.frames
    ensures table.Valid() && Heap(table.mmu.View()) == old(Heap(table.mmu.View()))
    ensures Plain(LoadSegments(image)) ==> table.mmu.stale <= old(table.mmu.stale)
    ensures Done(old(table.procs), table.procs, table.mmu.live, Launch(image))
  {
    hide Heap;
    hide OthersSee;
    hide OwnFrames;
    hide NoLowSegment;
    hide NoHighSegment;
    hide SharedOf;
    hide Unused;
    hide ImageMap;
    hide Ranges;
    hide PoolOk;
    hide Linked;
    hide TlbOk;
    hide MemoryOk;
    hide TableOk;
    hide Loadable;
    hide FramesNeeded;
    hide Confined;
    hide Left;
    hide Shows;
    ghost var a := table.mmu.View();
    var pid := table.Spawn(image);
    Activated(table, pid);
    ConfinedIsLeft(a, table.mmu.View(), table.procs[pid].root, SharedOf(image));
    HeapKept(a, table.mmu.View(), table.procs[pid].root, SharedOf(image));
  }

  /** One operation does what it is for, and keeps the table, and the heap frames with all they hold. */
  method Do(table: ProcessTable, op: Op)
    requires table.Valid() && CanDo(table, op)
    modifies table, table.mmu, table.mmu.ram, table.mmu.frames
    ensures table.Valid() && Heap(table.mmu.View()) == old(Heap(table.mmu.View()))
    ensures Ordinary(op) ==> table.mmu.stale <= old(table.mmu.stale)
    ensures Done(old(table.procs), table.procs, table.mmu.live, op)
  {
    hide PoolOk;
    hide Linked;
    hide TlbOk;
    hide MemoryOk;
    hide TableOk;
    hide Loadable;
    hide FramesNeeded;
    hide Confined;
    hide Left;
    hide Shows;
    hide Heap;
    hide Torn;
    hide Returned;
    hide PagesOf;
    hide Shared;
    ghost var a := table.mmu.View();
    match op {
      case Launch(image) =>
        Create(table, image);
      case SetUp(pid) =>
        table.SetupRing(pid);
        Activated(table, pid);
        ConfinedIsLeft(a, table.mmu.View(), table.procs[pid].root, {});
        HeapKept(a, table.mmu.View(), table.procs[pid].root, {});
      case SwitchTo(pid) =>
        Activated(table, pid);
        table.mmu.Activate(table.procs[pid].root);
      case Touch(v) =>
        table.mmu.Fill(v);
      case Exit(pid) =>
        Activated(table, pid);
        table.mmu.Activate(table.procs[pid].root);
        ghost var root, low := table.procs[pid].root, Shared(PagesOf(table.procs[pid].owned));
        table.Teardown(pid);
        HeapKept(a, table.mmu.View(), root, low);
    }
  }

  lemma Activated(table: ProcessTable, pid: nat)
    requires table.Valid() && pid < |table.procs| && !table.procs[pid].exited
    ensures Root(table.procs[pid].root) in table.mmu.t.nodes && table.procs[pid].root != 0
  {
    hide PoolOk;
    hide Linked;
    hide TlbOk;
    hide MemoryOk;
    assert ProcessOk(table.mmu.View(), table.procs[pid]);
  }

  /** Every run: operations that cannot be done are skipped, the others happen in order. */
  method Run(table: ProcessTable, script: seq<Op>) returns (done: seq<bool>, ghost states: seq<(seq<Process>, nat)>)
    requires table.Valid()
    modifies table, table.mmu, table.mmu.ram, table.mmu.frames
    ensures |done| == |script| && |states| == |script| + 1
    ensures states[0] == old((table.procs, table.mmu.live)) && states[|script|] == (table.procs, table.mmu.live)
    ensures forall i | 0 <= i < |script| ::
      if done[i] then Done(states[i].0, states[i + 1].0, states[i + 1].1, script[i]) else states[i + 1] == states[i]
    ensures script != [] ==> done[0] == old(CanDo(table, script[0]))
    ensures table.Valid() && Heap(table.mmu.View()) == old(Heap(table.mmu.View()))
    ensures (forall op | op in script :: Ordinary(op)) ==> table.mmu.stale <= old(table.mmu.stale)
  {
    hide PoolOk;
    hide Linked;
    hide TlbOk;
    hide MemoryOk;
    hide TableOk;
    hide Loadable;
    hide FramesNeeded;
    hide Heap;
    hide Ordinary;
    hide CanDo;
    hide Done;
    done, states := [], [(table.procs, table.mmu.live)];
    ghost var first := script != [] && CanDo(table, script[0]);
    var i := 0;
    while i < |script|
      invariant i <= |script| && |done| == i && |states| == i + 1
      invariant states[0] == old((table.procs, table.mmu.live)) && states[i] == (table.procs, table.mmu.live)
      invariant forall j | 0 <= j < i ::
        if done[j] then Done(states[j].0, states[j + 1].0, states[j + 1].1, script[j]) else states[j + 1] == states[j]
      invariant if i > 0 then done[0] == first else script != [] ==> CanDo(table, script[0]) == first
      invariant table.Valid() && Heap(table.mmu.View()) == old(Heap(table.mmu.View()))
      invariant (forall op | op in script :: Ordinary(op)) ==> table.mmu.stale <= old(table.mmu.stale)
    {
      var ok := CanDo(table, script[i]);
      if ok {
        Do(table, script[i]);
      }
      done, states := done + [ok], states + [(table.procs, table.mmu.live)];
      i := i + 1;
    }
  }

  /** What holds in every state of every such run: each frame has exactly one role; the free list
      is the free frames, without repetition; a page frame is the kernel heap's or is owned by
      exactly one live process; and a frame that is free is no table and no page, so linking it
      cannot hurt one. */
  lemma FramesPartitioned(table: ProcessTable, f: nat)
    requires table.Valid() && f in table.mmu.ram.words
    ensures f in table.mmu.role
    ensures forall i, j | 0 <= i < j < |table.mmu.frames.free| :: table.mmu.frames.free[i] != table.mmu.frames.free[j]
    ensures table.mmu.frames.freeCount == |table.mmu.frames.free|
    ensures f in table.mmu.frames.free <==> table.mmu.role[f] == Free
    ensures table.mmu.role[f].Table? <==> exists n :: n in table.mmu.t.nodes && table.mmu.t.nodes[n] == f
    ensures table.mmu.role[f].Page? <==> table.mmu.role[f] == Page(0) || exists pid: nat :: Owns(table.procs, pid, f)
    ensures forall pid: nat, q: nat | Owns(table.procs, pid, f) && Owns(table.procs, q, f) ::
      pid == q && table.mmu.role[f] != Page(0)
  {
    hide TlbOk;
    hide Linked;
    LinkedDistinct(table.mmu.ram.words, table.mmu.frames.head, table.mmu.frames.free);
    RolesOf(table.mmu.ram.words, table.mmu.frames.free, table.mmu.t, table.mmu.role, f);
    hide PoolOk;
    hide MemoryOk;
    forall pid: nat | Owns(table.procs, pid, f)
      ensures table.mmu.role[f] == Page(table.procs[pid].root) && table.procs[pid].root != 0
    {
      assert ProcessOk(table.mmu.View(), table.procs[pid]);
    }
    var r := table.mmu.role[f];
    if r.Page? && r != Page(0) {
      var pid := table.owner[r.space];
      assert ProcessOk(table.mmu.View(), table.procs[pid]);
      assert Owns(table.procs, pid, f);
    }
  }

  /** Live process `pid` owns frame `f`. */
  predicate Owns(procs: seq<Process>, pid: nat, f: nat) {
    pid < |procs| && !procs[pid].exited && f in FramesOf(procs[pid].owned)
  }

  lemma RolesOf(m: Memory, free: seq<nat>, t: Tables, role: map<nat, Role>, f: nat)
    requires PoolOk(m, free, t, role) && f in m
    ensures f in role && (f in free <==> role[f] == Free)
    ensures role[f].Table? <==> exists n :: n in t.nodes && t.nodes[n] == f
  {
    if role[f].Table? {
      assert role[f].node in t.nodes && t.nodes[role[f].node] == f;
    }
  }

  /** The page of a byte accepted by the gate, if it lies in the private window, shows a frame the
      process owns, and takes EL0 stores exactly where the last range over it is writable. */
  lemma AcceptedIsOwned(table: ProcessTable, pid: nat, ptr: nat, len: nat, needWrite: bool, a: nat)
    requires table.Valid() && pid < |table.procs| && !table.procs[pid].exited
    requires Accepts(table.procs[pid].ranges, ptr, len, needWrite) && ptr <= a < ptr + len
    ensures var p := table.procs[pid];
      PageOf(a) >= WINDOW ==>
        && (p.root, PageOf(a)) in table.mmu.t.pages
        && var e := table.mmu.t.pages[(p.root, PageOf(a))];
           && e.pa in FramesOf(p.owned) && e.pa in table.mmu.role && table.mmu.role[e.pa] == Page(p.root)
           && (El0Writable(e.flags) <==> PageWritable(p.ranges, p.ringPa != 0, PageOf(a)))
  {
    hide PoolOk;
    hide Linked;
    hide TlbOk;
    hide Accepts;
    hide RangesMapped;
    hide El0Writable;
    hide PageWritable;
    hide PageOf;
    hide Held;
    var p := table.procs[pid];
    assert ProcessOk(table.mmu.View(), p);
    AcceptedIsMapped(table.mmu.t.pages, p.root, p.ranges, p.ringPa != 0, ptr, len, needWrite, a);
    if PageOf(a) >= WINDOW {
      PagesHeld(table.mmu.ram.words, table.mmu.frames.free, table.mmu.t, table.mmu.role);
      ShownIsOwned(table.mmu.t.pages, table.mmu.role, p, (p.root, PageOf(a)));
    }
  }

  /** A private page of a process shows a frame of its own. */
  lemma ShownIsOwned(pages: map<(nat, nat), Mapping>, role: map<nat, Role>, p: Process, k: (nat, nat))
    requires Held(pages, role) && OwnedOk(role, pages, p.root, p.owned) && k in pages && k.0 == p.root != 0
    ensures pages[k].pa in FramesOf(p.owned) && pages[k].pa in role && role[pages[k].pa] == Page(p.root)
  {
    assert MayShow(k.0, role[pages[k].pa]);
  }

  /** In every state of every run, all that a process may write through the gate in its private window
      takes EL0 stores, if and only if no writable range that the gate goes by is overlaid. */
  lemma WritesLandFor(table: ProcessTable, pid: nat)
    requires table.Valid() && pid < |table.procs| && !table.procs[pid].exited
    ensures var p := table.procs[pid];
      (forall ptr: nat, len: nat, a: nat
         | Accepts(p.ranges, ptr, len, true) && ptr <= a < ptr + len && PageOf(a) >= WINDOW ::
         (p.root, PageOf(a)) in table.mmu.t.pages && El0Writable(table.mmu.t.pages[(p.root, PageOf(a))].flags))
      <==> NoneOverlaid(p.ranges, p.ringPa != 0)
  {
    hide PoolOk;
    hide Linked;
    hide TlbOk;
    hide Accepts;
    hide RangesMapped;
    hide El0Writable;
    hide PageWritable;
    hide NoneOverlaid;
    hide PageOf;
    hide OwnedOk;
    hide SlotsMatch;
    hide Held;
    var p := table.procs[pid];
    assert ProcessOk(table.mmu.View(), p);
    WritesLandIff(p.ranges, p.ringPa != 0);
    forall ptr: nat, len: nat, a: nat | Accepts(p.ranges, ptr, len, true) && ptr <= a < ptr + len && PageOf(a) >= WINDOW
      ensures (p.root, PageOf(a)) in table.mmu.t.pages
      ensures El0Writable(table.mmu.t.pages[(p.root, PageOf(a))].flags) <==>
        PageWritable(p.ranges, p.ringPa != 0, PageOf(a))
    {
      AcceptedIsMapped(table.mmu.t.pages, p.root, p.ranges, p.ringPa != 0, ptr, len, true, a);
    }
  }

  lemma ShownByte(m: Memory, pages: map<(nat, nat), Mapping>, root: nat, image: seq<Byte>, i: nat, off: nat)
    requires Loadable(image) && PageDisjoint(LoadSegments(image)) && i < |LoadSegments(image)|
    requires off < LoadSegments(image)[i].Pages() * 4096
    requires PageOf(LoadSegments(image)[i].vaddr + off) != STACK_PAGE
    requires Shows(m, pages, root, ImageMap(image, LoadSegments(image)) - {STACK_PAGE})
    ensures SegmentOk(image, LoadSegments(image)[i])
    ensures var seg := LoadSegments(image)[i];
      var va := seg.vaddr + off;
      && Lookup(pages, root, PageOf(va)).Some?
      && var e := Lookup(pages, root, PageOf(va)).value;
         && e.pa in m && |m[e.pa]| == 512 && ByteAt(m, e.pa, va % 4096) == SegByte(image, seg, off)
         && (El0Executable(e.flags) <==> seg.executable) && (El0Writable(e.flags) <==> !seg.executable)
  {
    hide ImageMap;
    hide ByteAt;
    hide SegByte;
    hide PageDisjoint;
    var segs := LoadSegments(image);
    assert segs[i] in segs;
    SegmentsAppear(image, segs, i, off);
    UserFlags();
    var va := segs[i].vaddr + off;
    assert PageShown(m, pages[(SpaceOf(root, PageOf(va)), PageOf(va))], ImageMap(image, segs)[PageOf(va)]);
  }

  /** In every state of every run, at every address of every space, as the hardware sees it: nothing can be
      both written and executed by user code, the kernel executes nothing but its own RAM, and what user
      code reaches at all is a page mapped for it above that RAM. */
  lemma WriteXorExecute(table: ProcessTable, root: nat, va: nat)
    requires table.Valid() && Root(root) in table.mmu.t.nodes && va < TWO48
    ensures var r := Walk(table.mmu.ram.words, root, 0, va);
      r.Some? ==>
        && !(El0Writable(r.value.attributes) && El0Executable(r.value.attributes))
        && (El1Executable(r.value.attributes) ==> RAM_BASE <= va < RAM_END)
        && (El0Accessible(r.value.attributes) ==>
              va >= RAM_END && r == Mapped(Lookup(table.mmu.t.pages, root, PageOf(va)), va))
  {
    hide PoolOk;
    hide Linked;
    hide TlbOk;
    hide MemoryOk;
    hide Walk;
    TableKnown(table.mmu.View(), table.procs, table.owner, table.mmu.kernelRoot);
    hide TableOk;
    HardwareSees(table.mmu.ram.words, table.mmu.frames.free, table.mmu.t, table.mmu.role, root, va);
    BlockFlags();
    KindFlags();
    hide KnownPages;
    KnownAt(table.mmu.t.pages, (SpaceOf(root, PageOf(va)), PageOf(va)));
  }

  lemma KnownAt(pages: map<(nat, nat), Mapping>, k: (nat, nat))
    requires KnownPages(pages)
    ensures k in pages ==> Kind(pages[k].flags)
  {}

  lemma KindFlags()
    ensures forall flags | Kind(flags) ::
      !(El0Writable(flags) && El0Executable(flags)) && !El1Executable(flags)
  {}

  /** Create a process from an image as written and look up one byte of one of its segments: the translation
      leads to the byte at `p_offset` plus its place, or to zero past the file part; the process starts at
      the entry point of the file header. */
  method SpawnAndRead(table: ProcessTable, image: seq<Byte>, ghost f: FileHeader, ghost hs: seq<Header>, i: nat,
    off: nat)
    returns (pid: nat, pa: nat, ghost e: Mapping)
    requires table.Valid() && Loadable(image) && |table.mmu.frames.free| >= FramesNeeded(image)
    requires Written(image, f, hs) && PageDisjoint(SegmentsOf(Wanted(hs)))
    requires i < |Wanted(hs)| && off < Rounded(Wanted(hs)[i].memsz) && PageOf(Wanted(hs)[i].vaddr + off) != STACK_PAGE
    modifies table, table.mmu, table.mmu.ram, table.mmu.frames
    ensures table.Valid() && pid < |table.procs| && table.procs[pid].entry == f.entry
    ensures var h := Wanted(hs)[i];
      && pa == e.pa + (h.vaddr + off) % 4096 && e.pa in table.mmu.ram.words && |table.mmu.ram.words[e.pa]| == 512
      && (off < h.filesz ==> h.offset + off < |image|)
      && ByteAt(table.mmu.ram.words, e.pa, (h.vaddr + off) % 4096)
         == (if off < h.filesz then image[h.offset + off] else 0)
      && (El0Executable(e.flags) <==> h.flags % 2 == 1) && (El0Writable(e.flags) <==> h.flags % 2 == 0)
  {
    hide PoolOk;
    hide Linked;
    hide TlbOk;
    hide MemoryOk;
    hide TableOk;
    hide Written;
    hide HeaderOk;
    hide U16;
    hide Validate;
    hide PageDisjoint;
    LoaderReads(image, f, hs);
    pid, pa, e := SpawnAndFind(table, image, i, off);
  }

  /** Create a process and look up one byte of one of its segments: the translation leads to the
      file's byte, or to zero past the file part, and the page is executable or writable as the
      header says, never both. */
  method SpawnAndFind(table: ProcessTable, image: seq<Byte>, i: nat, off: nat)
    returns (pid: nat, pa: nat, ghost e: Mapping)
    requires table.Valid() && Loadable(image) && |table.mmu.frames.free| >= FramesNeeded(image)
    requires PageDisjoint(LoadSegments(image)) && i < |LoadSegments(image)|
      && off < LoadSegments(image)[i].Pages() * 4096
    requires PageOf(LoadSegments(image)[i].vaddr + off) != STACK_PAGE
    modifies table, table.mmu, table.mmu.ram, table.mmu.frames
    ensures table.Valid() && SegmentOk(image, LoadSegments(image)[i])
    ensures pid < |table.procs| && Validate(image) == Some(table.procs[pid].entry)
    ensures var seg := LoadSegments(image)[i];
      var va := seg.vaddr + off;
      && pa == e.pa + va % 4096 && e.pa in table.mmu.ram.words && |table.mmu.ram.words[e.pa]| == 512
      && ByteAt(table.mmu.ram.words, e.pa, va % 4096) == SegByte(image, seg, off)
      && (El0Executable(e.flags) <==> seg.executable) && (El0Writable(e.flags) <==> !seg.executable)
  {
    hide PoolOk;
    hide Linked;
    hide TlbOk;
    hide MemoryOk;
    hide TableOk;
    hide FramesNeeded;
    hide Confined;
    hide NoLowSegment;
    hide NoHighSegment;
    hide OthersSee;
    hide OwnFrames;
    hide Unused;
    hide ImageMap;
    hide ByteAt;
    hide SegByte;
    hide PageDisjoint;
    hide HeaderOk;
    hide Segments;
    hide Validate;
    hide Shows;
    hide El0Executable;
    hide El0Writable;
    hide SegmentOk;
    hide PageOf;
    pid := table.Spawn(image);
    var root := table.procs[pid].root;
    Activated(table, pid);
    ShownByte(table.mmu.ram.words, table.mmu.t.pages, root, image, i, off);
    var va := LoadSegments(image)[i].vaddr + off;
    e := Lookup(table.mmu.t.pages, root, PageOf(va)).value;
    var r := table.mmu.Translate(root, va);
    pa := r.value;
  }

  // ---------------------------------------------------------------- a segment in the shared slot

  /** A writable segment of one zeroed page, at 0x8000_0000 modulo 2^48. */
  function OnePage(hi: Byte): Segment {
    Segment(0, 0x8000_0000 + hi * TWO48, 0, 4096, false, true)
  }

  /** The bytes of an image with that one segment. */
  function SharedByte(i: nat, hi: Byte): Byte {
    if i == 0 then 0x7F else if i == 1 then 0x45 else if i == 2 then 0x4C else if i == 3 then 0x46
    else if i == 4 then 2
    else if i == 16 then 2 else if i == 18 then 0xB7
    else if i == 32 then 64 else if i == 54 then 56 else if i == 56 then 1
    else if i == 64 then 1 else if i == 68 then 6
    else if i == 83 then 0x80 else if i == 86 then hi
    else if i == 105 then 0x10
    else 0
  }

  function SharedImage(hi: Byte): (image: seq<Byte>)
    ensures |image| == 120 && forall i | 0 <= i < 120 :: image[i] == SharedByte(i, hi)
  {
    seq<Byte>(120, i requires 0 <= i < 120 => SharedByte(i, hi))
  }

  lemma SharedValid(hi: Byte)
    ensures Validate(SharedImage(hi)) == Some(0)
  {
    var image := SharedImage(hi);
    assert image[0..4] == [0x7F, 0x45, 0x4C, 0x46];
    assert U16(image, 16) == 2 && U16(image, 18) == 0xB7 && U64(image, 24) == 0;
  }

  lemma SharedTable(hi: Byte)
    ensures U16(SharedImage(hi), 56) == 1 && HeaderAt(SharedImage(hi), 0) == 64
  {
    var image := SharedImage(hi);
    assert U64(image, 32) == 64 && U16(image, 54) == 56;
  }

  lemma SharedType(hi: Byte)
    ensures U32(SharedImage(hi), 64) == 1 && U32(SharedImage(hi), 68) == 6
  {}

  lemma SharedPlace(hi: Byte)
    ensures U64(SharedImage(hi), 72) == 0 && U64(SharedImage(hi), 80) == 0x8000_0000 + hi * TWO48
  {}

  lemma SharedSize(hi: Byte)
    ensures U64(SharedImage(hi), 96) == 0 && U64(SharedImage(hi), 104) == 4096
  {}

  lemma SharedHeader(hi: Byte)
    ensures Validate(SharedImage(hi)) == Some(0)
    ensures U16(SharedImage(hi), 56) == 1 && HeaderAt(SharedImage(hi), 0) == 64 && HeaderOk(SharedImage(hi), 0)
    ensures SegmentAt(SharedImage(hi), 0) == OnePage(hi) && IsLoad(SharedImage(hi), 0)
  {
    hide U16;
    hide U32;
    hide U64;
    hide Validate;
    hide SharedByte;
    SharedValid(hi);
    SharedTable(hi);
    SharedType(hi);
    SharedPlace(hi);
    SharedSize(hi);
  }

  lemma SharedLoads(hi: Byte)
    ensures |SharedImage(hi)| >= 64 && forall i | 0 <= i < U16(SharedImage(hi), 56) :: HeaderOk(SharedImage(hi), i)
    ensures LoadSegments(SharedImage(hi)) == [OnePage(hi)]
  {
    hide Validate;
    hide SegmentAt;
    hide HeaderAt;
    hide U16;
    hide HeaderOk;
    hide IsLoad;
    hide SharedByte;
    SharedHeader(hi);
    assert Segments(SharedImage(hi), 0) == [];
  }

  lemma OnePageOk(image: seq<Byte>, hi: Byte)
    ensures SegmentOk(image, OnePage(hi))
  {}

  lemma SharedLoadable(hi: Byte)
    ensures Loadable(SharedImage(hi))
  {
    hide Validate;
    hide HeaderOk;
    hide HeaderAt;
    hide IsLoad;
    hide SegmentAt;
    hide SegmentOk;
    hide U16;
    hide LoadSegments;
    hide SharedImage;
    SharedHeader(hi);
    SharedLoads(hi);
    OnePageOk(SharedImage(hi), hi);
  }

  lemma OnePageMap(image: seq<Byte>, hi: Byte, v: nat)
    requires SegmentOk(image, OnePage(hi))
    ensures v in ImageMap(image, [OnePage(hi)]) <==> v == 0x8_0000
  {
    hide ImageMap;
    hide PageContent;
    ImageMapAt(image, [OnePage(hi)], v);
  }

  /** The loader accepts that image, and loads it into a page every space shares. */
  lemma SharedImageLoads(hi: Byte)
    ensures Loadable(SharedImage(hi)) && !NoLowSegment(SharedImage(hi)) && NoHighSegment(SharedImage(hi))
    ensures SharedOf(SharedImage(hi)) == {0x8_0000} && FramesNeeded(SharedImage(hi)) == 9
  {
    SharedLoadable(hi);
    SharedLoads(hi);
    hide Loadable;
    hide LoadSegments;
    hide ImageMap;
    hide SharedImage;
    hide TotalPages;
    var image := SharedImage(hi);
    assert SegmentOk(image, OnePage(hi));
    forall v: nat
      ensures v in ImageMap(image, [OnePage(hi)]) <==> v == 0x8_0000
    {
      OnePageMap(image, hi, v);
    }
    OnePageTotal(OnePage(hi));
  }

  lemma OnePageTotal(seg: Segment)
    requires seg.memsz == 4096
    ensures TotalPages([seg]) == 1
  {
    assert [seg][..0] == [];
  }

  /** A witness, at 0x8000_0000 and at every alias of it above 2^48: a process created from that image
      changes what every other space sees there.  A buffer there that an earlier process may name is
      now in that frame. */
  method ShareAPage(table: ProcessTable, hi: Byte) returns (pid: nat)
    requires table.Valid() && |table.mmu.frames.free| >= 9
    modifies table, table.mmu, table.mmu.ram, table.mmu.frames
    ensures table.Valid() && pid < |table.procs|
    ensures forall other: nat ::
      && Lookup(table.mmu.t.pages, other, 0x8_0000) == Lookup(table.mmu.t.pages, table.procs[pid].root, 0x8_0000)
      && Lookup(table.mmu.t.pages, other, 0x8_0000) != old(Lookup(table.mmu.t.pages, other, 0x8_0000))
    ensures var e := Lookup(table.mmu.t.pages, table.procs[pid].root, 0x8_0000);
      && e.Some? && e.value.pa in table.mmu.role && table.mmu.role[e.value.pa] == Page(table.procs[pid].root)
      && e.value.pa in FramesOf(table.procs[pid].owned)
  {
    hide PoolOk;
    hide Linked;
    hide TlbOk;
    hide MemoryOk;
    hide TableOk;
    hide Confined;
    hide Shows;
    hide Loadable;
    hide ImageMap;
    hide NoLowSegment;
    hide NoHighSegment;
    hide OthersSee;
    hide Unused;
    hide SharedImage;
    SharedImageLoads(hi);
    ghost var a := table.mmu.View();
    PagesHeld(table.mmu.ram.words, table.mmu.frames.free, table.mmu.t, table.mmu.role);
    pid := table.Spawn(SharedImage(hi));
    forall other: nat
      ensures Lookup(table.mmu.t.pages, other, 0x8_0000) == Lookup(table.mmu.t.pages, table.procs[pid].root, 0x8_0000)
      ensures Lookup(table.mmu.t.pages, other, 0x8_0000) != Lookup(a.t.pages, other, 0x8_0000)
    {
      assert 0x8_0000 in SharedOf(SharedImage(hi));
      SharedSeen(a, table.mmu.View(), table.procs[pid].root, other, 0x8_0000, {0x8_0000});
    }
    OwnedFrame(table, pid, Lookup(table.mmu.t.pages, table.procs[pid].root, 0x8_0000).value.pa);
  }

  lemma OwnedFrame(table: ProcessTable, pid: nat, f: nat)
    requires table.Valid() && pid < |table.procs| && !table.procs[pid].exited
    requires f in table.mmu.role && table.mmu.role[f] == Page(table.procs[pid].root)
    ensures f in FramesOf(table.procs[pid].owned)
  {
    hide PoolOk;
    hide Linked;
    hide TlbOk;
    hide MemoryOk;
    assert ProcessOk(table.mmu.View(), table.procs[pid]);
  }

  /** A witness: where the shared table of that GiB is still missing, a whole life of such a process
      loses a frame to it. */
  method LoseAFrame(table: ProcessTable, hi: Byte, ring: bool)
    requires table.Valid() && |table.mmu.frames.free| >= 13 && Node(0, 2, 2) !in table.mmu.t.nodes
    modifies table, table.mmu, table.mmu.ram, table.mmu.frames
    ensures table.Valid() && Node(0, 2, 2) in table.mmu.t.nodes
    ensures exists f :: f in old(table.mmu.frames.free) && f !in table.mmu.frames.free
  {
    hide PoolOk;
    hide Linked;
    hide TlbOk;
    hide MemoryOk;
    hide TableOk;
    hide Loadable;
    hide NoLowSegment;
    hide NoHighSegment;
    hide SharedImage;
    hide ImageMap;
    hide LoadSegments;
    SharedImageLoads(hi);
    assert Leads(Node(0, 2, 2), 0x8_0000) && 0x8_0000 in SharedOf(SharedImage(hi));
    assert LeadsInto(Node(0, 2, 2), SharedOf(SharedImage(hi)));
    assert !Built(table.mmu.t, SharedOf(SharedImage(hi)));
    hide SharedOf;
    hide LeadsInto;
    hide Built;
    hide Shared;
    hide SharedKeys;
    hide FramesNeeded;
    table.Lifecycle(SharedImage(hi), ring);
  }
}
