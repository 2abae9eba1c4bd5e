/**
 The four-level page tables of kernel/src/mmu.rs as values.

 `Tables` is the reference picture the table walks are proved against: which frame holds
 the table at each node of the tree, and a plain map from (address space, page number) to
 (frame, flags).  An address space is named by its root frame; the subtree under L0 slot 0
 is shared by all of them and belongs to space 0.
 */
module PageTables {
  import opened Bits
  import opened Frames

  // ---------------------------------------------------------------- descriptors

  const PAGE_KERNEL_RW: Word := 0x0060_0000_0000_0703
  const PAGE_USER_RW: Word := 0x0060_0000_0000_0743
  const PAGE_USER_RX: Word := 0x0020_0000_0000_07C3

  const NORMAL_BLOCK: Word := 0x0040_0000_0000_0701
  const DEVICE_BLOCK: Word := 0x0060_0000_0000_0405

  const RAM_BASE: nat := 0x4000_0000
  const RAM_END: nat := 0x4800_0000
  const BLOCK_2MIB: nat := 0x20_0000

  predicate IsValid(e: nat) { e % 2 == 1 }

  predicate IsTable(e: nat) { e % 4 == 3 }

  /** The output address of a descriptor. */
  function TableAddr(e: nat): nat { e / 0x1000 % 0x10_0000_0000 * 0x1000 }

  /** Page-descriptor flags: bits [1:0] are 11 and no output-address bit is set. */
  predicate PageFlags(flags: nat) {
    flags < TWO64 && flags % 4 == 3 && flags % 0x1_0000_0000_0000 < 0x1000
  }

  predicate FrameAddr(pa: nat) { pa % 0x1000 == 0 && pa < 0x1_0000_0000_0000 }

  /** Bits [7:6] are 01: EL0 may write. */
  predicate El0Writable(flags: nat) { flags / 0x40 % 4 == 1 }

  /** Bit 54 (UXN) clear: EL0 may execute. */
  predicate El0Executable(flags: nat) { flags / 0x40_0000_0000_0000 % 2 == 0 }

  /** The masks of mmu.rs select what the functions above compute. */
  lemma DescriptorBits(e: nat)
    ensures And(e, ADDR_MASK) == TableAddr(e)
    ensures (And(e, 3) == 3 <==> IsTable(e)) && (And(e, 1) != 0 <==> IsValid(e))
  {
    AndAddrField(e);
    assert And(e, 3) == e % 4 by { AndThree(e); }
    assert And(e, 1) == e % 2 by { AndOne(e); }
  }

  lemma DropLow(a: nat, low: nat)
    requires low < 0x1000
    ensures (0x1000 * a + low) / 0x1000 == a
  {}

  lemma DropHigh(q: nat, h: nat)
    requires q < 0x10_0000_0000
    ensures (q + 0x10_0000_0000 * h) % 0x10_0000_0000 == q
  {}

  lemma AddrOfSum(pa: nat, flags: nat)
    requires FrameAddr(pa) && PageFlags(flags)
    ensures TableAddr(pa) == pa && TableAddr(pa + flags) == pa
  {
    var q, h, low := pa / 0x1000, flags / 0x1_0000_0000_0000, flags % 0x1_0000_0000_0000;
    assert pa == 0x1000 * q && pa + flags == 0x1000 * (q + 0x10_0000_0000 * h) + low;
    DropLow(q, 0);
    DropLow(q + 0x10_0000_0000 * h, low);
    DropHigh(q, 0);
    DropHigh(q, h);
  }

  lemma AddFour(a: nat, b: nat)
    ensures (4 * a + b) % 4 == b % 4
  {}

  lemma SumBounds(pa: nat, flags: nat)
    requires FrameAddr(pa) && PageFlags(flags)
    ensures pa + flags < TWO64 && IsTable(pa + flags) && IsValid(pa + flags)
  {
    var h := flags / 0x1_0000_0000_0000;
    assert h <= 0xFFFF && pa <= 0xFFFF_FFFF_F000;
    var q := pa / 0x1000;
    assert pa == 4 * (0x400 * q);
    AddFour(0x400 * q, flags);
    Odd(pa + flags);
  }

  lemma Odd(x: nat)
    requires x % 4 == 3
    ensures x % 2 == 1
  {}

  /** `(pa & ADDR_MASK) | flags` keeps the frame address and is a valid page entry. */
  lemma EncodeDecode(pa: nat, flags: nat)
    requires FrameAddr(pa) && PageFlags(flags)
    ensures Or(And(pa, ADDR_MASK), flags) == pa + flags < TWO64
    ensures TableAddr(pa + flags) == pa && IsTable(pa + flags) && IsValid(pa + flags)
  {
    AddrOfSum(pa, flags);
    SumBounds(pa, flags);
    assert Or(And(pa, ADDR_MASK), flags) == pa + flags by {
      AndAddrField(pa);
      OrAddr(pa, flags);
    }
  }

  /** `(entry & ADDR_MASK) | (va & 0xFFF)`: the output address with the offset in the page. */
  lemma OffsetBits(e: nat, va: nat)
    ensures Or(And(e, ADDR_MASK), And(va, 0xFFF)) == TableAddr(e) + va % 0x1000
  {
    hide And;
    hide Or;
    AndAddrField(e);
    AndOffset(va);
    AddrBounds(e);
    SmallOffset(va % 0x1000);
    hide TableAddr;
    OrAddr(TableAddr(e), va % 0x1000);
  }

  lemma AddrBounds(e: nat)
    ensures TableAddr(e) == e / 0x1000 % 0x10_0000_0000 * 0x1000
    ensures TableAddr(e) % TWO12 == 0 && TableAddr(e) < TWO48
  {}

  lemma SmallOffset(off: nat)
    requires off < 0x1000
    ensures off % TWO48 < TWO12
  {}

  lemma UserFlags()
    ensures PageFlags(PAGE_USER_RW) && PageFlags(PAGE_USER_RX) && PageFlags(PAGE_KERNEL_RW)
    ensures El0Writable(PAGE_USER_RW) && !El0Executable(PAGE_USER_RW)
    ensures !El0Writable(PAGE_USER_RX) && El0Executable(PAGE_USER_RX)
    ensures !El0Writable(PAGE_KERNEL_RW) && !El0Executable(PAGE_KERNEL_RW)
  {}

  /** The kinds of pages the kernel maps. */
  predicate Kind(flags: nat) {
    flags == PAGE_KERNEL_RW || flags == PAGE_USER_RW || flags == PAGE_USER_RX
  }

  // ---------------------------------------------------------------- addresses

  /** The 36-bit page number of a virtual address; bits above 47 are not translated. */
  function PageOf(va: nat): (v: nat)
    ensures v < 0x10_0000_0000
  { va / 0x1000 % 0x10_0000_0000 }

  /** Table index of page `v` at each level. */
  function Index(v: nat, level: nat): (i: nat)
    requires level <= 3 && v < 0x10_0000_0000
    ensures i < 512
  {
    if level == 0 then v / 0x800_0000
    else if level == 1 then v / 0x4_0000 % 512
    else if level == 2 then v / 512 % 512
    else v % 512
  }

  /** Part of page number `v` that selects its table at each level. */
  function Prefix(v: nat, level: nat): (p: nat)
    requires level <= 3
  {
    if level == 0 then 0
    else if level == 1 then v / 0x800_0000
    else if level == 2 then v / 0x4_0000
    else v / 512
  }

  function Shift(level: nat): nat
    requires level <= 3
  {
    if level == 0 then 0x80_0000_0000
    else if level == 1 then 0x4000_0000
    else if level == 2 then 0x20_0000
    else 0x1000
  }

  lemma IndexShift(va: nat, level: nat)
    requires level <= 3
    ensures va / Shift(level) % 512 == Index(PageOf(va), level)
  {
    var q := va / 0x1000;
    assert va / 0x80_0000_0000 == q / 0x800_0000;
    assert va / 0x4000_0000 == q / 0x4_0000;
    assert va / 0x20_0000 == q / 512;
    FieldOf(q);
  }

  lemma DropMultiple(a: nat, b: nat)
    ensures (512 * a + b) % 512 == b % 512
  {}

  lemma FieldOf(q: nat)
    ensures q / 0x800_0000 % 512 == q % 0x10_0000_0000 / 0x800_0000
    ensures q / 0x4_0000 % 512 == q % 0x10_0000_0000 / 0x4_0000 % 512
    ensures q / 512 % 512 == q % 0x10_0000_0000 / 512 % 512
    ensures q % 512 == q % 0x10_0000_0000 % 512
  {
    var h, r := q / 0x10_0000_0000, q % 0x10_0000_0000;
    assert q / 0x800_0000 == 512 * h + r / 0x800_0000;
    DropMultiple(h, r / 0x800_0000);
    assert q / 0x4_0000 == 512 * (512 * h) + r / 0x4_0000;
    DropMultiple(512 * h, r / 0x4_0000);
    assert q / 512 == 512 * (0x4_0000 * h) + r / 512;
    DropMultiple(0x4_0000 * h, r / 512);
    assert q == 512 * (0x800_0000 * h) + r;
    DropMultiple(0x800_0000 * h, r);
  }

  /** `(va >> shift) & 0x1FF` at each of the four shifts 39, 30, 21 and 12. */
  lemma IndexBits(va: nat, level: nat)
    requires level <= 3
    ensures And(va / Shift(level), 0x1FF) == Index(PageOf(va), level)
  {
    AndIndex(va / Shift(level));
    IndexShift(va, level);
  }

  lemma PageFromIndices(v: nat)
    requires v < 0x10_0000_0000
    ensures v == ((Index(v, 0) * 512 + Index(v, 1)) * 512 + Index(v, 2)) * 512 + Index(v, 3)
  {
    assert v / 0x4_0000 == v / 512 / 512 && v / 0x800_0000 == v / 0x4_0000 / 512;
  }

  /** The four indices and the page offset determine the low 48 bits of an address. */
  lemma IndexSplit(va: nat, vb: nat)
    requires va < 0x1_0000_0000_0000 && vb < 0x1_0000_0000_0000
    requires forall level | 0 <= level <= 3 :: Index(PageOf(va), level) == Index(PageOf(vb), level)
    requires va % 0x1000 == vb % 0x1000
    ensures va == vb
  {
    assert PageOf(va) == PageOf(vb) by {
      PageFromIndices(PageOf(va));
      PageFromIndices(PageOf(vb));
    }
    assert PageOf(va) == va / 0x1000 && PageOf(vb) == vb / 0x1000;
  }

  // ---------------------------------------------------------------- nodes

  /** A table: the space it belongs to, its level, and the page-number prefix that leads to it. */
  datatype Node = Node(space: nat, level: nat, prefix: nat)

  datatype Mapping = Mapping(pa: nat, flags: nat)

  datatype Tables = Tables(nodes: map<Node, nat>, pages: map<(nat, nat), Mapping>)

  function Root(space: nat): Node { Node(space, 0, 0) }

  /** The L1 table that every L0 slot 0 points at. */
  const KERNEL_L1: Node := Node(0, 1, 0)

  function Child(n: Node, i: nat): Node {
    if n.level == 0 && i == 0 then KERNEL_L1 else Node(n.space, n.level + 1, n.prefix * 512 + i)
  }

  function Parent(n: Node): Node
    requires n.level > 0
  {
    Node(n.space, n.level - 1, n.prefix / 512)
  }

  predicate HasParent(n: Node) { n.level > 0 && n != KERNEL_L1 }

  /** L0 slot of a table below the root. */
  function Slot(n: Node): nat {
    if n.level <= 1 then n.prefix else if n.level == 2 then n.prefix / 512 else n.prefix / 0x4_0000
  }

  predicate WellPlaced(n: Node) {
    && n.level <= 3
    && (n.level == 0 ==> n.space != 0 && n.prefix == 0)
    && (n.level > 0 ==> if n.space == 0 then Slot(n) == 0 else 1 <= Slot(n) < 512)
  }

  /** Space that page `v` belongs to when translated from `root`. */
  function SpaceOf(root: nat, v: nat): nat { if v < 0x800_0000 then 0 else root }

  /** The table at `level` on the walk of page `v` from `root`. */
  function Path(root: nat, v: nat, level: nat): Node
    requires level <= 3
  {
    if level == 0 then Root(root) else Node(SpaceOf(root, v), level, Prefix(v, level))
  }

  lemma PathStep(root: nat, v: nat, level: nat)
    requires level < 3 && v < 0x10_0000_0000 && root != 0
    ensures Child(Path(root, v, level), Index(v, level)) == Path(root, v, level + 1)
    ensures WellPlaced(Path(root, v, level)) && WellPlaced(Path(root, v, level + 1))
    ensures HasParent(Path(root, v, level + 1)) ==> Parent(Path(root, v, level + 1)) == Path(root, v, level)
  {}

  /** The L3 entry at the end of the walk of page `v` is the one that maps `v`. */
  lemma LeafKey(root: nat, v: nat)
    requires v < 0x10_0000_0000
    ensures Path(root, v, 0) == Root(root) && Path(root, v, 3).level == 3 && Path(root, v, 3).space == SpaceOf(root, v)
    ensures PageKey(Path(root, v, 3), Index(v, 3)) == (SpaceOf(root, v), v)
  {}

  /** What translation from `root` must answer for page `v`. */
  function Lookup(pages: map<(nat, nat), Mapping>, root: nat, v: nat): Option<Mapping> {
    var k := (SpaceOf(root, v), v);
    if k in pages then Some(pages[k]) else None
  }

  /** Every mapping is of one of those kinds. */
  ghost predicate KnownPages(pages: map<(nat, nat), Mapping>) {
    forall k | k in pages :: Kind(pages[k].flags)
  }

  lemma KnownMore(pages: map<(nat, nat), Mapping>, k: (nat, nat), e: Mapping)
    requires KnownPages(pages) && Kind(e.flags)
    ensures KnownPages(pages[k := e])
  {}

  // ---------------------------------------------------------------- the invariant

  /** The L2 table of the RAM identity map. */
  const RAM_L2: Node := Node(0, 2, 1)

  /** The entries `init_mmu` fills with blocks: the devices' GiB and 64 blocks of RAM. */
  predicate Blocked(n: Node, i: nat) {
    (n == KERNEL_L1 && i == 0) || (n == RAM_L2 && i < 64)
  }

  /** What `init_mmu` writes there. */
  function BootBlock(n: Node, i: nat): nat {
    if n == KERNEL_L1 then DEVICE_BLOCK else RAM_BASE + i * BLOCK_2MIB + NORMAL_BLOCK
  }

  /** Entry `i` of a table that points at tables: a table, a boot block, or nothing. */
  ghost predicate EntryOk(t: Tables, n: Node, i: nat, e: nat) {
    && (IsTable(e) <==> Child(n, i) in t.nodes)
    && (IsTable(e) ==> TableAddr(e) == t.nodes[Child(n, i)])
    && (if Blocked(n, i) then e == BootBlock(n, i) && IsValid(e) && !IsTable(e) else !IsTable(e) ==> e == 0)
  }

  /** The page that entry `i` of an L3 table maps. */
  function PageKey(n: Node, i: nat): (nat, nat) { (n.space, n.prefix * 512 + i) }

  /** Entry `i` of an L3 table. */
  ghost predicate LeafOk(t: Tables, n: Node, i: nat, e: nat) {
    var k := PageKey(n, i);
    && (IsValid(e) <==> k in t.pages)
    && (IsValid(e) ==> e == t.pages[k].pa + t.pages[k].flags)
  }

  ghost predicate NodeOk(m: Memory, t: Tables, n: Node)
    requires n in t.nodes
  {
    var f := t.nodes[n];
    && f in m && |m[f]| == 512
    && (forall i | 0 <= i < 512 :: if n.level < 3 then EntryOk(t, n, i, m[f][i]) else LeafOk(t, n, i, m[f][i]))
  }

  ghost predicate Contents(m: Memory, t: Tables) {
    forall n {:trigger NodeOk(m, t, n)} | n in t.nodes :: NodeOk(m, t, n)
  }

  ghost predicate Attached(t: Tables, n: Node) {
    WellPlaced(n) && (HasParent(n) ==> Parent(n) in t.nodes)
  }

  /** The tables form trees: every table below a root hangs from its parent. */
  ghost predicate Trees(t: Tables) {
    && KERNEL_L1 in t.nodes && RAM_L2 in t.nodes
    && (forall n {:trigger Attached(t, n)} | n in t.nodes :: Attached(t, n))
    && (forall k | k in t.pages :: Node(k.0, 3, k.1 / 512) in t.nodes)
    && (forall k | k in t.pages :: FrameAddr(t.pages[k].pa) && PageFlags(t.pages[k].flags))
  }

  /** What a frame of the pool is used for; `Page(s)` is data held by space s, and `Page(0)` the kernel heap's. */
  datatype Role = Free | Table(node: Node) | Page(space: nat) | Leaked

  /** A page of space `s` may show a frame with role `r`: its own data, or anyone's in shared space 0. */
  predicate MayShow(s: nat, r: Role) {
    r.Page? && (s == 0 || r.space == s)
  }

  ghost predicate Held(pages: map<(nat, nat), Mapping>, role: map<nat, Role>) {
    forall k | k in pages :: pages[k].pa in role && MayShow(k.0, role[pages[k].pa])
  }

  /** Every frame has one role, and the roles are the free list, the tables and the pages. */
  ghost predicate Roles(m: Memory, free: seq<nat>, t: Tables, role: map<nat, Role>) {
    && role.Keys == m.Keys
    && (forall f | f in free :: f in role && role[f].Free?)
    && (forall f | f in role && role[f].Free? :: f in free)
    && (forall n | n in t.nodes :: t.nodes[n] in role && role[t.nodes[n]] == Table(n))
    && (forall f | f in role :: role[f].Table? ==> role[f].node in t.nodes && t.nodes[role[f].node] == f)
    && Held(t.pages, role)
    && (forall n | n in t.nodes :: n.level == 0 ==> t.nodes[n] == n.space)
  }

  ghost predicate PoolOk(m: Memory, free: seq<nat>, t: Tables, role: map<nat, Role>) {
    MemoryOk(m) && Aligned(m) && Trees(t) && Contents(m, t) && Roles(m, free, t, role)
  }

  lemma TableFacts(m: Memory, free: seq<nat>, t: Tables, role: map<nat, Role>, n: Node)
    requires PoolOk(m, free, t, role) && n in t.nodes
    ensures t.nodes[n] in m && |m[t.nodes[n]]| == 512 && FrameAddr(t.nodes[n])
    ensures t.nodes[n] !in free && role.Keys == m.Keys && role[t.nodes[n]] == Table(n)
    ensures WellPlaced(n) && (n.level == 0 ==> t.nodes[n] == n.space)
    ensures KERNEL_L1 in t.nodes
  {
    assert NodeOk(m, t, n) && Attached(t, n);
  }

  lemma EntryFacts(m: Memory, free: seq<nat>, t: Tables, role: map<nat, Role>, n: Node, i: nat)
    requires PoolOk(m, free, t, role) && n in t.nodes && i < 512
    ensures t.nodes[n] in m && |m[t.nodes[n]]| == 512
    ensures n.level < 3 ==> EntryOk(t, n, i, m[t.nodes[n]][i])
    ensures IsTable(m[t.nodes[n]][i]) ==> IsValid(m[t.nodes[n]][i])
    ensures n.level >= 3 ==> LeafOk(t, n, i, m[t.nodes[n]][i])
  {
    assert NodeOk(m, t, n);
  }

  /** Two tables never share a frame. */
  lemma TablesApart(m: Memory, free: seq<nat>, t: Tables, role: map<nat, Role>, n: Node)
    requires PoolOk(m, free, t, role) && n in t.nodes
    ensures forall x | x in t.nodes && x != n :: t.nodes[x] in m && t.nodes[x] != t.nodes[n]
  {
    forall x | x in t.nodes && x != n
      ensures t.nodes[x] in m && t.nodes[x] != t.nodes[n]
    {
      assert NodeOk(m, t, x);
    }
  }

  // ---------------------------------------------------------------- facts about trees

  /** A mapped page has all four tables on its walk. */
  lemma PathPresent(t: Tables, root: nat, v: nat)
    requires Trees(t) && v < 0x10_0000_0000 && root != 0
    requires Path(root, v, 3) in t.nodes
    ensures Path(root, v, 2) in t.nodes && Path(root, v, 1) in t.nodes
  {
    PathStep(root, v, 2);
    PathStep(root, v, 1);
    assert Attached(t, Path(root, v, 3));
    assert Attached(t, Path(root, v, 2));
  }

  lemma ChildInjective(a: Node, i: nat, b: Node, j: nat)
    requires WellPlaced(a) && WellPlaced(b) && i < 512 && j < 512
    requires Child(a, i) == Child(b, j) && Child(a, i) != KERNEL_L1
    ensures a == b && i == j
  {}

  lemma ChildParent(n: Node, i: nat)
    requires WellPlaced(n) && n.level < 3 && i < 512 && Child(n, i) != KERNEL_L1
    ensures HasParent(Child(n, i)) && Parent(Child(n, i)) == n
    ensures WellPlaced(Child(n, i))
  {}

  // ---------------------------------------------------------------- what each write keeps

  /** Frames that hold the tables of `t` other than `n`'s are the same in both memories. */
  ghost predicate SameElsewhere(m: Memory, m': Memory, t: Tables, n: Node) {
    forall x | x in t.nodes && x != n :: t.nodes[x] in m && t.nodes[x] in m' && m'[t.nodes[x]] == m[t.nodes[x]]
  }

  /** Installing a zeroed table at an empty entry. */
  lemma InstallTable(m: Memory, m': Memory, t: Tables, n: Node, i: nat, f: nat)
    requires Contents(m, t) && Trees(t) && n in t.nodes && NodeOk(m, t, n) && n.level < 3 && i < 512
    requires Child(n, i) !in t.nodes && !Blocked(n, i) && FrameAddr(f)
    requires SameElsewhere(m, m', t, n)
    requires t.nodes[n] in m' && m'[t.nodes[n]] == m[t.nodes[n]][i := f + 3]
    requires f in m' && |m'[f]| == 512 && forall j | 0 <= j < 512 :: m'[f][j] == 0
    ensures Contents(m', t.(nodes := t.nodes[Child(n, i) := f]))
  {
    var c := Child(n, i);
    var t' := t.(nodes := t.nodes[c := f]);
    assert Attached(t, n);
    ChildParent(n, i);
    assert IsTable(f + 3) && TableAddr(f + 3) == f by {
      AddrOfSum(f, 3);
      SumBounds(f, 3);
    }
    forall x | x in t'.nodes
      ensures NodeOk(m', t', x)
    {
      if x == c {
        FreshTable(t, c);
        FreshNode(m', t', c, f);
      } else {
        InstallOther(m, m', t, n, i, f, x);
      }
    }
  }

  lemma InstallTrees(t: Tables, n: Node, i: nat, f: nat)
    requires Trees(t) && n in t.nodes && n.level < 3 && i < 512 && Child(n, i) !in t.nodes
    ensures Trees(t.(nodes := t.nodes[Child(n, i) := f]))
  {
    assert Attached(t, n);
    ChildParent(n, i);
    var t' := t.(nodes := t.nodes[Child(n, i) := f]);
    forall x | x in t'.nodes
      ensures Attached(t', x)
    {
      assert x in t.nodes ==> Attached(t, x);
    }
  }

  lemma FreshNode(m: Memory, t: Tables, c: Node, f: nat)
    requires c in t.nodes && t.nodes[c] == f && c.level > 0 && c != KERNEL_L1 && c != RAM_L2
    requires f in m && |m[f]| == 512 && forall j | 0 <= j < 512 :: m[f][j] == 0
    requires forall j | 0 <= j < 512 :: c.level < 3 ==> Child(c, j) !in t.nodes
    requires forall j | 0 <= j < 512 :: c.level >= 3 ==> PageKey(c, j) !in t.pages
    ensures NodeOk(m, t, c)
  {}

  lemma InstallOther(m: Memory, m': Memory, t: Tables, n: Node, i: nat, f: nat, x: Node)
    requires Contents(m, t) && Trees(t) && n in t.nodes && NodeOk(m, t, n) && n.level < 3 && i < 512
    requires Child(n, i) !in t.nodes && !Blocked(n, i) && IsTable(f + 3) && TableAddr(f + 3) == f
    requires SameElsewhere(m, m', t, n) && x in t.nodes
    requires t.nodes[n] in m' && m'[t.nodes[n]] == m[t.nodes[n]][i := f + 3]
    ensures NodeOk(m', t.(nodes := t.nodes[Child(n, i) := f]), x)
  {
    var c := Child(n, i);
    var t' := t.(nodes := t.nodes[c := f]);
    assert NodeOk(m, t, x) && Attached(t, x) && Attached(t, n);
    forall j | 0 <= j < 512
      ensures if x.level < 3 then EntryOk(t', x, j, m'[t.nodes[x]][j]) else LeafOk(t', x, j, m'[t.nodes[x]][j])
    {
      if x.level < 3 && Child(x, j) == c { ChildInjective(x, j, n, i); }
    }
  }

  /** Nothing hangs below a table that is not there. */
  lemma FreshTable(t: Tables, c: Node)
    requires Trees(t) && WellPlaced(c) && c !in t.nodes && c.level > 0
    ensures forall j | 0 <= j < 512 :: c.level < 3 ==> Child(c, j) !in t.nodes
    ensures forall j | 0 <= j < 512 :: c.level >= 3 ==> PageKey(c, j) !in t.pages
  {
    forall j | 0 <= j < 512 && c.level < 3
      ensures Child(c, j) !in t.nodes
    {
      ChildParent(c, j);
      assert Child(c, j) in t.nodes ==> Attached(t, Child(c, j));
    }
    forall j | 0 <= j < 512 && c.level == 3
      ensures PageKey(c, j) !in t.pages
    {
      assert (c.prefix * 512 + j) / 512 == c.prefix;
    }
  }

  /** Writing entry `i` of an L3 table sets the mapping of that one page. */
  lemma WriteLeaf(m: Memory, m': Memory, t: Tables, n: Node, i: nat, e: Word, pages: map<(nat, nat), Mapping>)
    requires Contents(m, t) && Trees(t) && n in t.nodes && NodeOk(m, t, n) && n.level == 3 && i < 512
    requires SameElsewhere(m, m', t, n)
    requires t.nodes[n] in m' && m'[t.nodes[n]] == m[t.nodes[n]][i := e]
    requires forall k | k != PageKey(n, i) ::
               (k in pages <==> k in t.pages) && (k in pages ==> pages[k] == t.pages[k])
    requires LeafOk(t.(pages := pages), n, i, e)
    ensures Contents(m', t.(pages := pages))
  {
    var t' := t.(pages := pages);
    var key := PageKey(n, i);
    forall x | x in t'.nodes
      ensures NodeOk(m', t', x)
    {
      assert NodeOk(m, t, x) && Attached(t, x);
      forall j | 0 <= j < 512
        ensures if x.level < 3 then EntryOk(t', x, j, m'[t.nodes[x]][j]) else LeafOk(t', x, j, m'[t.nodes[x]][j])
      {
        if x.level == 3 && PageKey(x, j) == key {
          assert x == n && j == i;
        }
      }
    }
  }

  /** Writes that touch no table keep the tables. */
  lemma SameTables(m: Memory, m': Memory, t: Tables)
    requires Contents(m, t)
    requires forall x | x in t.nodes :: t.nodes[x] in m && t.nodes[x] in m' && m'[t.nodes[x]] == m[t.nodes[x]]
    ensures Contents(m', t)
  {
    forall x | x in t.nodes
      ensures NodeOk(m', t, x)
    {
      assert NodeOk(m, t, x);
    }
  }

  /** A fresh L0 whose slot 0 points at the kernel's L1. */
  lemma AddRoot(m: Memory, m': Memory, t: Tables, r: nat)
    requires Contents(m, t) && Trees(t) && Root(r) !in t.nodes && r != 0
    requires FrameAddr(t.nodes[KERNEL_L1])
    requires forall x | x in t.nodes :: t.nodes[x] in m && t.nodes[x] in m' && m'[t.nodes[x]] == m[t.nodes[x]]
    requires r in m' && |m'[r]| == 512 && m'[r][0] == t.nodes[KERNEL_L1] + 3
    requires forall j | 0 < j < 512 :: m'[r][j] == 0
    ensures Contents(m', t.(nodes := t.nodes[Root(r) := r]))
    ensures Trees(t.(nodes := t.nodes[Root(r) := r]))
  {
    var t' := t.(nodes := t.nodes[Root(r) := r]);
    forall x | x in t'.nodes
      ensures Attached(t', x)
    {
      assert x in t.nodes ==> Attached(t, x);
    }
    AddrOfSum(t.nodes[KERNEL_L1], 3);
    SumBounds(t.nodes[KERNEL_L1], 3);
    forall x | x in t'.nodes
      ensures NodeOk(m', t', x)
    {
      if x == Root(r) {
        forall j | 0 < j < 512
          ensures Child(x, j) !in t'.nodes
        {
          ChildParent(x, j);
          assert Child(x, j) in t.nodes ==> Attached(t, Child(x, j));
        }
      } else {
        assert NodeOk(m, t, x);
        forall j | 0 <= j < 512
          ensures if x.level < 3 then EntryOk(t', x, j, m'[t.nodes[x]][j]) else LeafOk(t', x, j, m'[t.nodes[x]][j])
        {}
      }
    }
  }

  /** `t` without the tables and pages of space `s`. */
  ghost function Without(t: Tables, s: nat): Tables {
    Tables(map n | n in t.nodes && n.space != s :: t.nodes[n], map k | k in t.pages && k.0 != s :: t.pages[k])
  }

  lemma DropSpace(m: Memory, m': Memory, t: Tables, s: nat)
    requires Contents(m, t) && Trees(t) && s != 0
    requires forall x | x in t.nodes && x.space != s ::
      t.nodes[x] in m && t.nodes[x] in m' && m'[t.nodes[x]] == m[t.nodes[x]]
    ensures Contents(m', Without(t, s)) && Trees(Without(t, s))
  {
    var t' := Without(t, s);
    forall x | x in t'.nodes
      ensures Attached(t', x)
    {
      assert Attached(t, x);
    }
    forall x | x in t'.nodes
      ensures NodeOk(m', t', x)
    {
      assert NodeOk(m, t, x);
    }
  }

  // ---------------------------------------------------------------- what each step does to the roles

  /** Taking the first free frame for a use that is not a page or a listed table breaks nothing. */
  lemma TakeForTable(m: Memory, m': Memory, free: seq<nat>, t: Tables, role: map<nat, Role>, c: Node)
    requires Roles(m, free, t, role) && m'.Keys == m.Keys
    requires free != [] && free[0] !in free[1..]
    requires c !in t.nodes && (c.level == 0 ==> c.space == free[0])
    ensures free[0] in role && role[free[0]].Free?
    ensures Roles(m', free[1..], t.(nodes := t.nodes[c := free[0]]), role[free[0] := Table(c)])
  {
    assert free[0] in free;
    assert forall f :: f in free[1..] <==> f in free && f != free[0];
    HeldAfterTake(t.pages, role, free[0], Table(c));
    hide Held;
  }

  lemma HeldAfterTake(pages: map<(nat, nat), Mapping>, role: map<nat, Role>, f: nat, r: Role)
    requires Held(pages, role) && f in role && role[f].Free?
    ensures Held(pages, role[f := r])
  {}

  lemma TakeForPage(m: Memory, free: seq<nat>, t: Tables, role: map<nat, Role>, s: nat)
    requires Roles(m, free, t, role)
    requires free != [] && free[0] !in free[1..]
    ensures free[0] in role && role[free[0]].Free?
    ensures Roles(m, free[1..], t, role[free[0] := Page(s)])
  {
    assert free[0] in free;
    assert forall f :: f in free[1..] <==> f in free && f != free[0];
  }

  lemma GivePage(m: Memory, m': Memory, free: seq<nat>, t: Tables, role: map<nat, Role>, f: nat)
    requires Roles(m, free, t, role) && m'.Keys == m.Keys
    requires f in role && role[f].Page?
    requires forall k | k in t.pages :: t.pages[k].pa != f
    ensures Roles(m', [f] + free, t, role[f := Free])
  {}

  // ---------------------------------------------------------------- subtrees

  /** The prefix of `c`'s ancestor at `level`. */
  function Above(c: Node, level: nat): nat
    requires level <= c.level <= 3
  {
    var d := c.level - level;
    if d == 0 then c.prefix
    else if d == 1 then c.prefix / 512
    else if d == 2 then c.prefix / 0x4_0000
    else c.prefix / 0x800_0000
  }

  /** `c` is `n` or hangs below it. */
  predicate Under(n: Node, c: Node) {
    c.space == n.space && n.level <= c.level <= 3 && Above(c, n.level) == n.prefix
  }

  /** The entry of `n` that leads towards `c`. */
  function Branch(n: Node, c: Node): nat
    requires n.level < c.level <= 3
  {
    Above(c, n.level + 1) % 512
  }

  lemma UnderChild(n: Node, c: Node, i: nat)
    requires 1 <= n.level < 3 && i < 512
    ensures Under(Child(n, i), c) <==> Under(n, c) && c.level > n.level && Branch(n, c) == i
  {}

  lemma UnderSelf(n: Node)
    requires n.level <= 3
    ensures Under(n, n)
    ensures forall c | Under(n, c) && c.level == n.level :: c == n
  {}

  /** An attached table's ancestors are all there. */
  lemma AncestorPresent(t: Tables, n: Node, c: Node)
    requires Trees(t) && c in t.nodes && 1 <= n.level < c.level && n.space != 0 && Under(n, c)
    ensures Child(n, Branch(n, c)) in t.nodes
  {
    assert Attached(t, c);
    UnderChild(n, c, Branch(n, c));
    if c.level == n.level + 1 {
      UnderSelf(Child(n, Branch(n, c)));
    } else {
      assert Attached(t, Parent(c));
    }
  }

  /** A table below a root belongs to a space whose root is there. */
  lemma {:induction false} SpaceRooted(t: Tables, n: Node)
    requires Trees(t) && n in t.nodes && n.space != 0
    ensures Root(n.space) in t.nodes
    decreases n.level
  {
    assert Attached(t, n);
    if n.level > 0 { SpaceRooted(t, Parent(n)); }
  }
}
