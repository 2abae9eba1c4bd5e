/**
 What the hardware makes of the tables: the translation walk of the Arm architecture (VMSAv8-64,
 4 KiB granule, 48-bit addresses, as `init_mmu` sets TCR) over the raw words of memory.  It is written
 independently of the kernel's own walks and of the reference picture, and proved to agree with the
 latter everywhere, the boot blocks included (kernel/src/mmu.rs).
 */
module Hardware {
  import opened Bits
  import opened Frames
  import opened PageTables
  import opened AddressSpaces

  /** A translated access: the physical address, and the attribute bits of the descriptor it came by. */
  datatype Access = Access(pa: nat, attributes: nat)

  /** Everything in a descriptor but bits [47:12]. */
  function Attributes(e: nat): nat {
    e % 0x1000 + e / TWO48 * TWO48
  }

  /** The output address of a block of `size` bytes: bits [47:n] of its descriptor. */
  function BlockAddr(e: nat, size: nat): nat
    requires size > 0
  {
    e % TWO48 / size * size
  }

  /** The walk from the table at `table`, at `level`; None is a translation fault. */
  function Walk(m: Memory, table: nat, level: nat, va: nat): Option<Access>
    requires level <= 3
    decreases 3 - level
  {
    if table !in m || |m[table]| != 512 then None
    else
      var e := m[table][Index(PageOf(va), level)];
      if !IsValid(e) then None
      else if level == 3 then
        if IsTable(e) then Some(Access(TableAddr(e) + va % 0x1000, Attributes(e))) else None
      else if IsTable(e) then Walk(m, TableAddr(e), level + 1, va)
      else if level == 0 then None
      else Some(Access(BlockAddr(e, Shift(level)) + va % Shift(level), Attributes(e)))
  }

  /** AP[1]: EL0 has access at all. */
  predicate El0Accessible(flags: nat) { flags / 0x40 % 2 == 1 }

  /** Bit 53 (PXN) clear: EL1 may execute. */
  predicate El1Executable(flags: nat) { flags / 0x20_0000_0000_0000 % 2 == 0 }

  /** AttrIndx: 0 is Normal memory, 1 is Device memory in the MAIR of `init_mmu`. */
  function MemoryType(flags: nat): nat { flags / 4 % 8 }

  /** The kernel's own map is out of reach for user code; RAM is Normal and executable for the kernel,
      devices are Device memory and executable for nobody. */
  lemma BlockFlags()
    ensures !El0Accessible(NORMAL_BLOCK) && !El0Executable(NORMAL_BLOCK) && El1Executable(NORMAL_BLOCK)
    ensures !El0Accessible(DEVICE_BLOCK) && !El0Executable(DEVICE_BLOCK) && !El1Executable(DEVICE_BLOCK)
    ensures MemoryType(NORMAL_BLOCK) == 0 && MemoryType(DEVICE_BLOCK) == 1
  {}

  /** `pa | NORMAL_BLOCK` for block i of RAM. */
  lemma BlockBits(i: nat)
    requires i < 64
    ensures Or(RAM_BASE + i * BLOCK_2MIB, NORMAL_BLOCK) == BootBlock(RAM_L2, i)
  {
    hide Or;
    OrAddr(RAM_BASE + i * BLOCK_2MIB, NORMAL_BLOCK);
  }

  lemma AttributesOfPage(pa: nat, flags: nat)
    requires FrameAddr(pa) && PageFlags(flags)
    ensures Attributes(pa + flags) == flags
  {
    var h, low, q := flags / TWO48, flags % TWO48, pa / 0x1000;
    assert flags == h * TWO48 + low && pa == q * 0x1000;
    assert (pa + flags) % 0x1000 == low by { DropFrames(q + 0x10_0000_0000 * h, low); }
    assert (pa + flags) / TWO48 == h;
  }

  lemma DropFrames(q: nat, low: nat)
    requires low < 0x1000
    ensures (q * 0x1000 + low) % 0x1000 == low
  {}

  /** Block i of RAM sends its addresses to themselves. */
  lemma RamBlockWalk(va: nat)
    requires RAM_BASE <= va < RAM_END
    ensures var e := BootBlock(RAM_L2, Index(PageOf(va), 2));
      && BlockAddr(e, Shift(2)) + va % Shift(2) == va && Attributes(e) == NORMAL_BLOCK
      && IsValid(e) && !IsTable(e)
  {
    var i := (va - RAM_BASE) / BLOCK_2MIB;
    assert PageOf(va) == va / 0x1000;
    assert PageOf(va) / 512 == 512 + i;
    assert Index(PageOf(va), 2) == i;
    assert i < 64;
    var e := BootBlock(RAM_L2, i);
    assert e == 0x40 * TWO48 + 0x701 + RAM_BASE + i * BLOCK_2MIB;
    assert e % TWO48 == RAM_BASE + i * BLOCK_2MIB + 0x701;
    assert e % TWO48 / BLOCK_2MIB == 512 + i;
    assert va % BLOCK_2MIB == va - RAM_BASE - i * BLOCK_2MIB;
    BlockWord(i);
  }

  lemma BlockWord(i: nat)
    requires i < 64
    ensures var e := BootBlock(RAM_L2, i); Attributes(e) == NORMAL_BLOCK && IsValid(e) && !IsTable(e)
  {
    var e := BootBlock(RAM_L2, i);
    assert e == 0x1000 * (0x4_0000 + i * 512 + 0x40 * 0x10_0000_0000) + 0x701;
    assert e / TWO48 == 0x40;
  }

  lemma DeviceBlockWalk(va: nat)
    requires va < RAM_BASE
    ensures BlockAddr(DEVICE_BLOCK, Shift(1)) + va % Shift(1) == va && Attributes(DEVICE_BLOCK) == DEVICE_BLOCK
  {}

  /** One turn of the walk along the tables of the reference picture. */
  lemma WalkDown(m: Memory, free: seq<nat>, t: Tables, role: map<nat, Role>, root: nat, va: nat, level: nat)
    requires PoolOk(m, free, t, role) && level < 3 && root != 0
    requires Path(root, PageOf(va), level) in t.nodes
    ensures var n, next := Path(root, PageOf(va), level), Path(root, PageOf(va), level + 1);
      var i := Index(PageOf(va), level);
      && t.nodes[n] in m && |m[t.nodes[n]]| == 512
      && (next in t.nodes ==> Walk(m, t.nodes[n], level, va) == Walk(m, t.nodes[next], level + 1, va))
      && (next !in t.nodes && !Blocked(n, i) ==> Walk(m, t.nodes[n], level, va) == None)
      && (Blocked(n, i) ==> m[t.nodes[n]][i] == BootBlock(n, i))
  {
    var v := PageOf(va);
    var n := Path(root, v, level);
    EntryFacts(m, free, t, role, n, Index(v, level));
    PathStep(root, v, level);
    hide PoolOk;
    hide Index;
    hide PageOf;
    hide Path;
    hide Child;
    hide TableAddr;
  }

  /** At the last level the walk gives what the page map says. */
  lemma WalkLeaf(m: Memory, free: seq<nat>, t: Tables, role: map<nat, Role>, root: nat, va: nat)
    requires PoolOk(m, free, t, role) && root != 0 && Path(root, PageOf(va), 3) in t.nodes
    ensures Walk(m, t.nodes[Path(root, PageOf(va), 3)], 3, va) == Mapped(Lookup(t.pages, root, PageOf(va)), va)
  {
    var v := PageOf(va);
    var n := Path(root, v, 3);
    EntryFacts(m, free, t, role, n, Index(v, 3));
    LeafKey(root, v);
    var k := (SpaceOf(root, v), v);
    if k in t.pages {
      PageShape(m, free, t, role, k);
      var e := t.pages[k];
      AddrOfSum(e.pa, e.flags);
      SumBounds(e.pa, e.flags);
      AttributesOfPage(e.pa, e.flags);
    }
    hide PoolOk;
    hide Index;
    hide PageOf;
    hide Path;
    hide TableAddr;
    hide Attributes;
  }

  lemma PageShape(m: Memory, free: seq<nat>, t: Tables, role: map<nat, Role>, k: (nat, nat))
    requires PoolOk(m, free, t, role) && k in t.pages
    ensures FrameAddr(t.pages[k].pa) && PageFlags(t.pages[k].flags)
  {}

  /** A mapping as an access through it. */
  function Mapped(e: Option<Mapping>, va: nat): Option<Access> {
    match e
    case None => None
    case Some(x) => Some(Access(x.pa + va % 0x1000, x.flags))
  }

  /** What the hardware answers for an address: devices and RAM are where they are, out of reach for
      user code, and everything else is as the page map of the space says. */
  function Seen(t: Tables, root: nat, va: nat): Option<Access> {
    if va < RAM_BASE then Some(Access(va, DEVICE_BLOCK))
    else if va < RAM_END then Some(Access(va, NORMAL_BLOCK))
    else Mapped(Lookup(t.pages, root, PageOf(va)), va)
  }

  /** From every root, at every address: the words in memory spell out exactly that. */
  lemma HardwareSees(m: Memory, free: seq<nat>, t: Tables, role: map<nat, Role>, root: nat, va: nat)
    requires PoolOk(m, free, t, role) && Root(root) in t.nodes && va < TWO48
    ensures Walk(m, root, 0, va) == Seen(t, root, va)
  {
    TableFacts(m, free, t, role, Root(root));
    if va < RAM_END {
      KernelWalk(m, free, t, role, root, va);
    } else {
      PageWalk(m, free, t, role, root, va);
    }
  }

  /** The boot blocks are met in every space. */
  lemma KernelWalk(m: Memory, free: seq<nat>, t: Tables, role: map<nat, Role>, root: nat, va: nat)
    requires PoolOk(m, free, t, role) && Root(root) in t.nodes && root != 0 && t.nodes[Root(root)] == root
    requires va < RAM_END
    ensures Walk(m, root, 0, va) == Seen(t, root, va)
  {
    KernelPath(root, va);
    KernelTables(m, free, t, role);
    WalkDown(m, free, t, role, root, va, 0);
    WalkDown(m, free, t, role, root, va, 1);
    if va < RAM_BASE {
      DeviceBlockWalk(va);
    } else {
      WalkDown(m, free, t, role, root, va, 2);
      RamBlockWalk(va);
    }
    hide PoolOk;
    hide Index;
    hide PageOf;
    hide Path;
    hide BlockAddr;
    hide Attributes;
  }

  lemma KernelTables(m: Memory, free: seq<nat>, t: Tables, role: map<nat, Role>)
    requires PoolOk(m, free, t, role)
    ensures KERNEL_L1 in t.nodes && RAM_L2 in t.nodes
  {}

  lemma KernelPath(root: nat, va: nat)
    requires va < RAM_END && root != 0
    ensures Path(root, PageOf(va), 0) == Root(root) && Path(root, PageOf(va), 1) == KERNEL_L1
    ensures va < RAM_BASE ==> Index(PageOf(va), 1) == 0
    ensures va >= RAM_BASE ==> Path(root, PageOf(va), 2) == RAM_L2 && Index(PageOf(va), 2) < 64
    ensures Index(PageOf(va), 1) != 0 || va < RAM_BASE
  {
    var v := PageOf(va);
    assert v == va / 0x1000;
  }

  lemma AboveBlocks(root: nat, va: nat)
    requires RAM_END <= va < TWO48 && root != 0
    ensures Path(root, PageOf(va), 0) == Root(root)
    ensures forall level | 0 <= level < 3 :: !Blocked(Path(root, PageOf(va), level), Index(PageOf(va), level))
  {
    assert PageOf(va) == va / 0x1000;
    BlockedPages(root, PageOf(va));
  }

  /** Above the blocks the walk goes as far as there are tables. */
  lemma PageWalk(m: Memory, free: seq<nat>, t: Tables, role: map<nat, Role>, root: nat, va: nat)
    requires PoolOk(m, free, t, role) && Root(root) in t.nodes && root != 0 && t.nodes[Root(root)] == root
    requires RAM_END <= va < TWO48
    ensures Walk(m, root, 0, va) == Mapped(Lookup(t.pages, root, PageOf(va)), va)
  {
    var v := PageOf(va);
    AboveBlocks(root, va);
    hide PoolOk;
    hide Blocked;
    hide Path;
    hide Index;
    hide PageOf;
    hide Walk;
    MappedPath(m, free, t, role, root, v);
    WalkDown(m, free, t, role, root, va, 0);
    if Path(root, v, 1) in t.nodes {
      WalkDown(m, free, t, role, root, va, 1);
      if Path(root, v, 2) in t.nodes {
        WalkDown(m, free, t, role, root, va, 2);
        if Path(root, v, 3) in t.nodes { WalkLeaf(m, free, t, role, root, va); }
      }
    }
  }

  lemma MappedPath(m: Memory, free: seq<nat>, t: Tables, role: map<nat, Role>, root: nat, v: nat)
    requires PoolOk(m, free, t, role) && v < 0x10_0000_0000 && root != 0
    ensures (SpaceOf(root, v), v) in t.pages ==>
      forall level | 1 <= level <= 3 :: Path(root, v, level) in t.nodes
  {
    if (SpaceOf(root, v), v) in t.pages { PathPresent(t, root, v); }
  }

  /** The kernel reaches every frame of RAM at the frame's own address, in whatever space it runs. */
  lemma FramesReached(m: Memory, free: seq<nat>, t: Tables, role: map<nat, Role>, root: nat, f: nat, off: nat)
    requires PoolOk(m, free, t, role) && Root(root) in t.nodes
    requires f % 0x1000 == 0 && RAM_BASE <= f < RAM_END && off < 0x1000
    ensures Walk(m, root, 0, f + off) == Some(Access(f + off, NORMAL_BLOCK))
  {
    hide PoolOk;
    hide Walk;
    HardwareSees(m, free, t, role, root, f + off);
  }

  /** What user code can reach at all is in the page map: never the kernel's own blocks. */
  lemma UserReach(m: Memory, free: seq<nat>, t: Tables, role: map<nat, Role>, root: nat, va: nat)
    requires PoolOk(m, free, t, role) && Root(root) in t.nodes && va < TWO48
    ensures var r := Walk(m, root, 0, va);
      r.Some? && El0Accessible(r.value.attributes) ==>
        va >= RAM_END && r == Mapped(Lookup(t.pages, root, PageOf(va)), va)
  {
    hide PoolOk;
    hide Walk;
    HardwareSees(m, free, t, role, root, va);
    BlockFlags();
  }
}
