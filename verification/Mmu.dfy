/**
 Address spaces over the frame pool (kernel/src/mmu.rs).

 Table walks read and write words of RAM in place.  Each operation is proved against the
 reference picture `t` (PageTables.Tables) and against `role`, which gives every frame of
 the pool exactly one use.  The TLB is a hardware cache that may load any current
 translation of the live root at any time (`Fill`).
 */
module AddressSpaces {
  import opened Bits
  import opened Frames
  import opened PageTables

  const ZEROES: seq<Word> := seq(512, _ => 0)

  /** Memory, its tables and the use of every frame at one moment. */
  datatype Snap = Snap(m: Memory, t: Tables, role: map<nat, Role>)

  /** `n` is one of the tables below the root on the walk of page `v`. */
  predicate OnPath(root: nat, v: nat, n: Node) {
    n == Path(root, v, 1) || n == Path(root, v, 2) || n == Path(root, v, 3)
  }

  /** Only frees became tables of space `s`, and no page's data moved. */
  ghost predicate Grew(m: Memory, m': Memory, t: Tables, t': Tables, role: map<nat, Role>, role': map<nat, Role>,
    s: nat) {
    && role'.Keys == role.Keys && m.Keys == m'.Keys == role.Keys
    && (forall f | f in role ::
          role'[f] == role[f] || (role[f].Free? && role'[f].Table? && role'[f].node.space == s))
    && (forall n | n in t.nodes :: n in t'.nodes && t'.nodes[n] == t.nodes[n])
    && (forall n | n in t'.nodes :: n in t.nodes || n.space == s)
    && (forall f | f in role && role[f].Page? :: m'[f] == m[f])
  }

  /** No block descriptor lies on the walk of page `v` from `level` on: `get_or_create` would
      panic on one. */
  ghost predicate WalkableFrom(m: Memory, t: Tables, root: nat, v: nat, level: nat) {
    forall j | level <= j < 3 :: WalkableAt(m, t, root, v, j)
  }

  ghost predicate Walkable(m: Memory, t: Tables, root: nat, v: nat) {
    WalkableFrom(m, t, root, v, 0)
  }

  ghost predicate WalkableAt(m: Memory, t: Tables, root: nat, v: nat, level: nat)
    requires level < 3
  {
    var n := Path(root, v, level);
    v < 0x10_0000_0000 && (n in t.nodes && t.nodes[n] in m && |m[t.nodes[n]]| == 512
      ==> EntryWalkable(m[t.nodes[n]][Index(v, level)]))
  }

  predicate EntryWalkable(e: nat) { IsValid(e) ==> IsTable(e) }

  /** The walk of page `v` meets no block exactly when `v` lies above the identity-mapped RAM, so
      that is when `map_page_in` does not panic. */
  lemma WalkableIff(m: Memory, free: seq<nat>, t: Tables, role: map<nat, Role>, root: nat, v: nat)
    requires PoolOk(m, free, t, role) && Root(root) in t.nodes && v < 0x10_0000_0000
    ensures Walkable(m, t, root, v) <==> v >= 0x4_8000
  {
    TableFacts(m, free, t, role, Root(root));
    TableFacts(m, free, t, role, KERNEL_L1);
    TableFacts(m, free, t, role, RAM_L2);
    forall level | 0 <= level < 3
      ensures WalkableAt(m, t, root, v, level) <==>
        !(Path(root, v, level) in t.nodes && Blocked(Path(root, v, level), Index(v, level)))
    {
      var n := Path(root, v, level);
      if n in t.nodes { EntryFacts(m, free, t, role, n, Index(v, level)); }
    }
    BlockedPages(root, v);
  }

  /** The pages whose walk ends at a block. */
  lemma BlockedPages(root: nat, v: nat)
    requires v < 0x10_0000_0000 && root != 0
    ensures !Blocked(Path(root, v, 0), Index(v, 0))
    ensures Blocked(Path(root, v, 1), Index(v, 1)) <==> v < 0x4_0000
    ensures Blocked(Path(root, v, 2), Index(v, 2)) <==> 0x4_0000 <= v < 0x4_8000
  {}

  lemma GrewRefl(m: Memory, free: seq<nat>, t: Tables, role: map<nat, Role>, s: nat)
    requires PoolOk(m, free, t, role)
    ensures Grew(m, m, t, t, role, role, s)
    ensures forall n | n in t.nodes :: t.nodes[n] in m && SameElsewhere(m, m, t, n)
  {
    forall n | n in t.nodes ensures t.nodes[n] in m { assert NodeOk(m, t, n); }
  }

  /** Creating the table below level k leaves the rest of the walk free of blocks. */
  lemma StillWalkable(m: Memory, m': Memory, t: Tables, t': Tables, root: nat, v: nat, k: nat, j: nat)
    requires k < j < 3 && v < 0x10_0000_0000 && root != 0
    requires WalkableAt(m, t, root, v, j) && SameElsewhere(m, m', t, Path(root, v, k))
    requires forall n | n in t.nodes :: n in t'.nodes && t'.nodes[n] == t.nodes[n]
    requires forall n | n in t'.nodes :: n in t.nodes || n == Path(root, v, k + 1)
    requires var c := Path(root, v, k + 1);
             c in t'.nodes && t'.nodes[c] in m' && (c !in t.nodes ==> m'[t'.nodes[c]] == ZEROES)
    requires forall n | n in t.nodes :: t.nodes[n] in m && |m[t.nodes[n]]| == 512
    ensures WalkableAt(m', t', root, v, j)
  {
    var n := Path(root, v, j);
    if n in t.nodes {
      assert n != Path(root, v, k);
    }
  }

  lemma WalkFrom(m: Memory, free: seq<nat>, t: Tables, role: map<nat, Role>, root: nat, v: nat, k: nat)
    requires PoolOk(m, free, t, role) && Root(root) in t.nodes && k < 3 && v < 0x10_0000_0000
    requires Path(root, v, k) in t.nodes && WalkableAt(m, t, root, v, k)
    ensures root != 0 && Path(root, v, 0) == Root(root) && t.nodes[Root(root)] == root
    ensures Path(root, v, k).level == k && Index(v, k) < 512
    ensures var n := Path(root, v, k);
            && t.nodes[n] in m && |m[t.nodes[n]]| == 512 && EntryWalkable(m[t.nodes[n]][Index(v, k)])
            && Child(n, Index(v, k)) == Path(root, v, k + 1)
            && Path(root, v, k + 1).space == SpaceOf(root, v)
  {
    TableFacts(m, free, t, role, Root(root));
    TableFacts(m, free, t, role, Path(root, v, k));
    PathStep(root, v, k);
  }

  lemma NodesInside(m: Memory, free: seq<nat>, t: Tables, role: map<nat, Role>)
    requires PoolOk(m, free, t, role)
    ensures forall n | n in t.nodes :: t.nodes[n] in m && |m[t.nodes[n]]| == 512
  {
    forall n | n in t.nodes ensures t.nodes[n] in m && |m[t.nodes[n]]| == 512 { TableFacts(m, free, t, role, n); }
  }

  lemma GrewKeeps(m: Memory, m': Memory, t: Tables, t': Tables, role: map<nat, Role>, role': map<nat, Role>, s: nat)
    requires Grew(m, m', t, t', role, role', s)
    ensures forall n | n in t.nodes :: n in t'.nodes && t'.nodes[n] == t.nodes[n]
    ensures forall f | f in role && role[f].Page? :: f in role' && role'[f] == role[f]
  {}

  lemma GrewTrans(m: Memory, m1: Memory, m2: Memory, t: Tables, t1: Tables, t2: Tables,
                  role: map<nat, Role>, role1: map<nat, Role>, role2: map<nat, Role>, s: nat)
    requires Grew(m, m1, t, t1, role, role1, s) && Grew(m1, m2, t1, t2, role1, role2, s)
    ensures Grew(m, m2, t, t2, role, role2, s)
  {}

  lemma InstallStep(m: Memory, m': Memory, free: seq<nat>, t: Tables, role: map<nat, Role>, n: Node, i: nat)
    requires PoolOk(m, free, t, role)
    requires free != [] && free[0] !in free[1..] && free[0] in m && free[0] + 3 < TWO64
    requires n in t.nodes && t.nodes[n] in m && |m[t.nodes[n]]| == 512 && n.level < 3 && i < 512
      && Child(n, i) !in t.nodes
    requires !Blocked(n, i)
    requires m' == Stored(m[free[0] := ZEROES], t.nodes[n], i, free[0] + 3)
    ensures var c := Child(n, i); var t' := t.(nodes := t.nodes[c := free[0]]); var role' := role[free[0] := Table(c)];
            && PoolOk(m', free[1..], t', role')
            && Grew(m, m', t, t', role, role', c.space)
            && SameElsewhere(m, m', t, n) && m'[free[0]] == ZEROES
  {
    assert Child(n, i).level > 0;
    hide Child;
    assert free[0] in free;
    assert t.nodes[n] != free[0];
    assert NodeOk(m, t, n) && Attached(t, n);
    assert m'[free[0]] == ZEROES && m'[t.nodes[n]] == m[t.nodes[n]][i := free[0] + 3];
    InstallTable(m, m', t, n, i, free[0]);
    InstallTrees(t, n, i, free[0]);
    TakeForTable(m, m', free, t, role, Child(n, i));
  }

  ghost function BootTables(l0: nat, l1: nat, l2: nat): Tables {
    Tables(map[Root(l0) := l0, KERNEL_L1 := l1, RAM_L2 := l2], map[])
  }

  lemma LinkedTake3(m: Memory, head: nat, free: seq<nat>)
    requires Linked(m, head, free) && |free| >= 3
    ensures forall f | f in free :: f in m && f != 0
    ensures free[0] != free[1] && free[0] != free[2] && free[1] != free[2]
    ensures forall f | f in free :: f == free[0] || f == free[1] || f == free[2] || f in free[3..]
    ensures free[0] !in free[3..] && free[1] !in free[3..] && free[2] !in free[3..]
    ensures free[1..][1..][1..] == free[3..]
  {
    LinkedInside(m, head, free);
    LinkedDistinct(m, head, free);
  }

  /** What `init_mmu` leaves in memory: L0 -> L1 -> L2, a device block and 64 RAM blocks. */
  ghost predicate BootMemory(m: Memory, free: seq<nat>, l0: nat, l1: nat, l2: nat) {
    && MemoryOk(m) && Aligned(m)
    && l0 in m && l1 in m && l2 in m && l0 != l1 && l0 != l2 && l1 != l2
    && (forall f | f in free :: f in m && f != l0 && f != l1 && f != l2)
    && (forall f | f in m :: f == l0 || f == l1 || f == l2 || f in free)
    && m[l0][0] == l1 + 3 && (forall j | 1 <= j < 512 :: m[l0][j] == 0)
    && m[l1][0] == DEVICE_BLOCK && m[l1][1] == l2 + 3 && (forall j | 2 <= j < 512 :: m[l1][j] == 0)
    && RamBlocks(m[l2], 64)
  }

  /** The first `n` entries are the blocks of RAM, the rest are empty. */
  ghost predicate RamBlocks(row: seq<Word>, n: nat) {
    && |row| == 512
    && (forall j | 0 <= j < 512 :: if j < n then row[j] == BootBlock(RAM_L2, j) else row[j] == 0)
  }

  lemma BootBuilt(m: Memory, free: seq<nat>, l0: nat, l1: nat, l2: nat)
    requires MemoryOk(m) && Aligned(m)
    requires l0 in m && l1 in m && l2 in m && l0 != l1 && l0 != l2 && l1 != l2
    requires forall f | f in free :: f in m && f != l0 && f != l1 && f != l2
    requires forall f | f in m :: f == l0 || f == l1 || f == l2 || f in free
    requires m[l0] == ZEROES && m[l1] == ZEROES && RamBlocks(m[l2], 64)
    ensures BootMemory(Stored(Stored(Stored(m, l1, 0, DEVICE_BLOCK), l1, 1, l2 + 3), l0, 0, l1 + 3), free, l0, l1, l2)
  {
    var m' := Stored(Stored(m, l1, 0, DEVICE_BLOCK), l1, 1, l2 + 3);
    assert m'[l1] == ZEROES[0 := DEVICE_BLOCK][1 := l2 + 3];
    assert Stored(m', l0, 0, l1 + 3)[l0] == ZEROES[0 := l1 + 3];
  }

  ghost function BootRoles(m: Memory, l0: nat, l1: nat, l2: nat): map<nat, Role> {
    map f | f in m ::
      if f == l0 then Table(Root(l0)) else if f == l1 then Table(KERNEL_L1) else if f == l2 then Table(RAM_L2) else Free
  }

  lemma BootContents(m: Memory, free: seq<nat>, l0: nat, l1: nat, l2: nat)
    requires BootMemory(m, free, l0, l1, l2)
    ensures Contents(m, BootTables(l0, l1, l2))
  {
    var t := BootTables(l0, l1, l2);
    assert IsTable(l1 + 3) && TableAddr(l1 + 3) == l1 by { AddrOfSum(l1, 3); SumBounds(l1, 3); }
    assert IsTable(l2 + 3) && TableAddr(l2 + 3) == l2 by { AddrOfSum(l2, 3); SumBounds(l2, 3); }
    forall n | n in t.nodes
      ensures NodeOk(m, t, n)
    {
      forall i | 0 <= i < 512
        ensures EntryOk(t, n, i, m[t.nodes[n]][i])
      {}
    }
  }

  /** The boot tables satisfy the invariant. */
  lemma BootOk(m: Memory, free: seq<nat>, l0: nat, l1: nat, l2: nat)
    requires BootMemory(m, free, l0, l1, l2)
    ensures PoolOk(m, free, BootTables(l0, l1, l2), BootRoles(m, l0, l1, l2))
    ensures var roles := BootRoles(m, l0, l1, l2); forall f | f in roles :: roles[f].Free? || roles[f].Table?
    ensures var t := BootTables(l0, l1, l2);
      && KERNEL_L1 in t.nodes && t.nodes[KERNEL_L1] == l1 && Root(l0) in t.nodes && t.pages == map[]
      && forall r: nat | Root(r) in t.nodes :: r == l0
  {
    BootContents(m, free, l0, l1, l2);
    assert Trees(BootTables(l0, l1, l2)) by {
      assert Parent(RAM_L2) == KERNEL_L1;
    }
  }

  lemma RootStep(m: Memory, m': Memory, free: seq<nat>, t: Tables, role: map<nat, Role>)
    requires PoolOk(m, free, t, role)
    requires free != [] && free[0] !in free[1..] && free[0] in m
    requires KERNEL_L1 in t.nodes && t.nodes[KERNEL_L1] + 3 < TWO64
    requires m' == Stored(m[free[0] := ZEROES], free[0], 0, t.nodes[KERNEL_L1] + 3)
    ensures var r := free[0]; var t', role' := t.(nodes := t.nodes[Root(r) := r]), role[r := Table(Root(r))];
            && Root(r) !in t.nodes && (forall n | n in t.nodes :: n.space != r) && (forall k | k in t.pages :: k.0 != r)
            && PoolOk(m', free[1..], t', role')
            && Grew(m, m', t, t', role, role', r)
  {
    var r := free[0];
    assert r in free && r != 0;
    TableFacts(m, free, t, role, KERNEL_L1);
    NodesInside(m, free, t, role);
    forall n | n in t.nodes ensures n.space != r { if n.space == r { SpaceRooted(t, n); } }
    assert m'[r] == ZEROES[0 := t.nodes[KERNEL_L1] + 3];
    AddRoot(m, m', t, r);
    TakeForTable(m, m', free, t, role, Root(r));
  }

  lemma TakePage(m: Memory, free: seq<nat>, t: Tables, role: map<nat, Role>, s: nat)
    requires PoolOk(m, free, t, role) && free != [] && free[0] !in free[1..]
    ensures free[0] in role && role[free[0]].Free? && FrameAddr(free[0])
    ensures PoolOk(m, free[1..], t, role[free[0] := Page(s)])
  {
    TakeForPage(m, free, t, role, s);
  }

  lemma PageFacts(m: Memory, free: seq<nat>, t: Tables, role: map<nat, Role>, f: nat)
    requires PoolOk(m, free, t, role) && f in role && role[f].Page?
    ensures f in m && f !in free && |m[f]| == 512 && f != 0 && forall n | n in t.nodes :: t.nodes[n] != f
  {}

  lemma GivePageOk(m: Memory, free: seq<nat>, t: Tables, role: map<nat, Role>, f: nat, head: Word)
    requires PoolOk(m, free, t, role) && f in role && role[f].Page? && f in m && |m[f]| == 512
    requires forall k | k in t.pages :: t.pages[k].pa != f
    ensures PoolOk(Stored(m, f, 0, head), [f] + free, t, role[f := Free])
  {
    var m' := Stored(m, f, 0, head);
    PageFacts(m, free, t, role, f);
    NodesInside(m, free, t, role);
    SameTables(m, m', t);
    GivePage(m, m', free, t, role, f);
  }

  lemma WritePageOk(m: Memory, free: seq<nat>, t: Tables, role: map<nat, Role>, f: nat, i: nat, v: Word)
    requires PoolOk(m, free, t, role) && f in role && role[f].Page? && f in m && i < |m[f]|
    ensures PoolOk(Stored(m, f, i, v), free, t, role)
  {
    var m' := Stored(m, f, i, v);
    PageFacts(m, free, t, role, f);
    NodesInside(m, free, t, role);
    SameTables(m, m', t);
  }

  // ---------------------------------------------------------------- freeing a subtree

  /** Frame `f` holds a table at or below `n`. */
  ghost predicate TableUnder(role: map<nat, Role>, n: Node, f: nat) {
    f in role && role[f].Table? && Under(n, role[f].node)
  }

  /** Frame `f` holds a table strictly below `n`, reached through an entry before `i`. */
  ghost predicate TableBelow(role: map<nat, Role>, n: Node, f: nat, i: nat) {
    TableUnder(role, n, f) && role[f].node.level > n.level && Branch(n, role[f].node) < i
  }

  lemma SelfOrBelow(m: Memory, free: seq<nat>, t: Tables, role: map<nat, Role>, n: Node)
    requires PoolOk(m, free, t, role) && n in t.nodes && 1 <= n.level
    ensures forall f :: TableUnder(role, n, f) <==> f == t.nodes[n] || TableBelow(role, n, f, 512)
    ensures forall i :: !TableBelow(role, n, t.nodes[n], i)
    ensures forall f :: !TableBelow(role, n, f, 0)
    ensures forall f, i :: TableBelow(role, n, f, i) ==> TableUnder(role, n, f)
    ensures n.level == 3 ==> forall f, i :: !TableBelow(role, n, f, i)
  {
    assert Attached(t, n);
    UnderSelf(n);
  }

  lemma BranchStep(m: Memory, free: seq<nat>, t: Tables, role: map<nat, Role>, n: Node, i: nat)
    requires PoolOk(m, free, t, role) && n in t.nodes && 1 <= n.level < 3 && n.space != 0 && i < 512
    ensures t.nodes[n] in m && |m[t.nodes[n]]| == 512
    ensures var c, e := Child(n, i), m[t.nodes[n]][i];
            && c.level == n.level + 1 && c.space == n.space
            && (IsTable(e) ==> c in t.nodes && t.nodes[c] == TableAddr(e))
            && (forall f :: TableUnder(role, c, f)
                 ==> TableUnder(role, n, f) && !TableBelow(role, n, f, i) && IsTable(e))
            && (forall f :: TableBelow(role, n, f, i + 1) <==> TableBelow(role, n, f, i) || TableUnder(role, c, f))
  {
    EntryFacts(m, free, t, role, n, i);
    var c := Child(n, i);
    forall f | f in role && role[f].Table?
      ensures TableUnder(role, c, f) ==> TableUnder(role, n, f) && !TableBelow(role, n, f, i) && c in t.nodes
      ensures TableBelow(role, n, f, i + 1) <==> TableBelow(role, n, f, i) || TableUnder(role, c, f)
    {
      UnderChild(n, role[f].node, i);
      if TableUnder(role, c, f) { AncestorPresent(t, n, role[f].node); }
    }
  }

  /** A table of space `root` that `free_address_space` does not reach. */
  predicate Lost(root: nat, n: Node) {
    n.space == root && n.level > 0 && Slot(n) != 1
  }

  /** What becomes of each frame when the tables of `root` are freed. */
  ghost function Reclaimed(role: map<nat, Role>, root: nat): map<nat, Role> {
    map f | f in role ::
      if role[f].Table? && role[f].node.space == root then (if Lost(root, role[f].node) then Leaked else Free)
        else role[f]
  }

  /** What L0 slot 1 of `root` leads to. */
  lemma SlotOne(m: Memory, free: seq<nat>, t: Tables, role: map<nat, Role>, root: nat)
    requires PoolOk(m, free, t, role) && Root(root) in t.nodes
    ensures root in m && |m[root]| == 512 && root !in free && root in role && role[root] == Table(Root(root))
      && root != 0
    ensures var c, e := Node(root, 1, 1), m[root][1];
            && (IsTable(e) ==> c in t.nodes && t.nodes[c] == TableAddr(e))
            && (forall f :: TableUnder(role, c, f) ==> IsTable(e) && f != root && f !in free && f in m)
  {
    TableFacts(m, free, t, role, Root(root));
    EntryFacts(m, free, t, role, Root(root), 1);
    var c := Node(root, 1, 1);
    forall f | TableUnder(role, c, f)
      ensures c in t.nodes
    {
      assert Attached(t, role[f].node);
      SlotPresent(t, role[f].node);
    }
  }

  /** A private table at slot `i` hangs from the L1 table of that slot. */
  lemma {:induction false} SlotPresent(t: Tables, n: Node)
    requires Trees(t) && n in t.nodes && n.level > 0 && n.space != 0
    ensures Node(n.space, 1, Slot(n)) in t.nodes
    decreases n.level
  {
    assert Attached(t, n);
    if n.level > 1 {
      assert Slot(Parent(n)) == Slot(n);
      SlotPresent(t, Parent(n));
    }
  }

  lemma SlotUnder(root: nat, n: Node)
    requires WellPlaced(n) && n.level > 0
    ensures Under(Node(root, 1, 1), n) <==> n.space == root && Slot(n) == 1
  {}

  lemma ReclaimOk(m: Memory, m': Memory, free: seq<nat>, free': seq<nat>, t: Tables, role: map<nat, Role>, root: nat)
    requires PoolOk(m, free, t, role) && MemoryOk(m') && Root(root) in t.nodes && m'.Keys == m.Keys
    requires forall f :: f in free' <==> f in free || f == root || TableUnder(role, Node(root, 1, 1), f)
    requires forall f | f in m && f != root && !TableUnder(role, Node(root, 1, 1), f) :: m'[f] == m[f]
    ensures PoolOk(m', free', Without(t, root), Reclaimed(role, root))
    ensures forall f | f in role && role[f].Page? :: m'[f] == m[f]
  {
    TableFacts(m, free, t, role, Root(root));
    forall f | f in role && role[f].Table?
      ensures TableUnder(role, Node(root, 1, 1), f) || f == root <==>
        role[f].node.space == root && !Lost(root, role[f].node)
    {
      assert Attached(t, role[f].node);
      if role[f].node.level > 0 { SlotUnder(root, role[f].node); }
    }
    NodesInside(m, free, t, role);
    DropSpace(m, m', t, root);
    ReclaimRoles(m, m', free, free', t, role, root);
  }

  lemma ReclaimRoles(m: Memory, m': Memory, free: seq<nat>, free': seq<nat>, t: Tables, role: map<nat, Role>, root: nat)
    requires Roles(m, free, t, role) && m'.Keys == m.Keys
    requires forall f :: f in free' <==>
      f in free || (f in role && role[f].Table? && role[f].node.space == root && !Lost(root, role[f].node))
    ensures Roles(m', free', Without(t, root), Reclaimed(role, root))
  {}

  lemma TlbKept(tlb: map<nat, Mapping>, t: Tables, live: nat, stale: set<nat>, root: nat)
    requires TlbOk(tlb, t.pages, live, stale) && live != root && root != 0
    ensures TlbOk(tlb, Without(t, root).pages, live, stale)
  {}

  lemma WithoutKeeps(m: Memory, free: seq<nat>, t: Tables, role: map<nat, Role>, root: nat, other: nat)
    requires PoolOk(m, free, t, role) && Root(other) in t.nodes && other != root && root != 0
    ensures Root(other) in Without(t, root).nodes && KERNEL_L1 in Without(t, root).nodes
    ensures Without(t, root).nodes[KERNEL_L1] == t.nodes[KERNEL_L1]
  {}

  /** A write to a table entry changes no page and no role. */
  lemma TableWritten(m: Memory, free: seq<nat>, t: Tables, role: map<nat, Role>, n: Node, i: nat, e: Word,
    pages: map<(nat, nat), Mapping>)
    requires PoolOk(m, free, t, role) && n in t.nodes && i < 512
    requires t.nodes[n] in m && |m[t.nodes[n]]| == 512
    requires Held(pages, role)
    ensures var m', t' := Stored(m, t.nodes[n], i, e), t.(pages := pages);
            && MemoryOk(m') && Aligned(m') && Roles(m', free, t', role)
            && Grew(m, m', t, t', role, role, n.space)
  {
    hide Contents;
    hide Trees;
  }

  /** Writing a page descriptor at an L3 entry. */
  lemma MapLeaf(m: Memory, free: seq<nat>, t: Tables, role: map<nat, Role>, n: Node, i: nat, pa: nat, flags: nat)
    requires PoolOk(m, free, t, role) && n in t.nodes && n.level == 3 && i < 512
    requires t.nodes[n] in m && |m[t.nodes[n]]| == 512
    requires FrameAddr(pa) && PageFlags(flags) && pa + flags < TWO64 && pa in role && MayShow(n.space, role[pa])
    ensures var m', t' := Stored(m, t.nodes[n], i, pa + flags),
      t.(pages := t.pages[PageKey(n, i) := Mapping(pa, flags)]);
            && PoolOk(m', free, t', role)
            && Grew(m, m', t, t', role, role, n.space)
  {
    var m' := Stored(m, t.nodes[n], i, pa + flags);
    var t' := t.(pages := t.pages[PageKey(n, i) := Mapping(pa, flags)]);
    hide Grew;
    assert NodeOk(m, t, n) && Attached(t, n);
    assert LeafOk(t', n, i, pa + flags) by { SumBounds(pa, flags); }
    assert SameElsewhere(m, m', t, n) by { TablesApart(m, free, t, role, n); }
    TableWritten(m, free, t, role, n, i, pa + flags, t'.pages);
    hide LeafOk;
    hide FrameAddr;
    hide PageFlags;
    hide Roles;
    WriteLeaf(m, m', t, n, i, pa + flags, t'.pages);
    MapTrees(t, n, i, pa, flags);
  }

  lemma MapTrees(t: Tables, n: Node, i: nat, pa: nat, flags: nat)
    requires Trees(t) && n in t.nodes && n.level == 3 && i < 512 && FrameAddr(pa) && PageFlags(flags)
    ensures Trees(t.(pages := t.pages[PageKey(n, i) := Mapping(pa, flags)]))
  {
    var t' := t.(pages := t.pages[PageKey(n, i) := Mapping(pa, flags)]);
    assert (n.prefix * 512 + i) / 512 == n.prefix;
    forall x | x in t'.nodes ensures Attached(t', x) { assert Attached(t, x); }
  }

  /** Clearing an L3 entry. */
  lemma ClearLeaf(m: Memory, free: seq<nat>, t: Tables, role: map<nat, Role>, n: Node, i: nat)
    requires PoolOk(m, free, t, role) && n in t.nodes && n.level == 3 && i < 512
    requires t.nodes[n] in m && |m[t.nodes[n]]| == 512
    ensures var m', t' := Stored(m, t.nodes[n], i, 0), t.(pages := t.pages - {PageKey(n, i)});
            && PoolOk(m', free, t', role)
            && Grew(m, m', t, t', role, role, n.space)
  {
    var m' := Stored(m, t.nodes[n], i, 0);
    var t' := t.(pages := t.pages - {PageKey(n, i)});
    assert NodeOk(m, t, n) && Attached(t, n);
    hide Grew;
    assert SameElsewhere(m, m', t, n) by { TablesApart(m, free, t, role, n); }
    TableWritten(m, free, t, role, n, i, 0, t'.pages);
    WriteLeaf(m, m', t, n, i, 0, t'.pages);
    forall x | x in t'.nodes ensures Attached(t', x) { assert Attached(t, x); }
  }

  /** One step of a read-only walk: either the next table, or the page is not mapped. */
  lemma WalkStep(m: Memory, free: seq<nat>, t: Tables, role: map<nat, Role>, root: nat, v: nat, k: nat)
    requires PoolOk(m, free, t, role) && Root(root) in t.nodes && k < 3 && v < 0x10_0000_0000
    requires Path(root, v, k) in t.nodes
    ensures var n := Path(root, v, k);
            && t.nodes[n] in m && |m[t.nodes[n]]| == 512
            && var e := m[t.nodes[n]][Index(v, k)];
            && (IsTable(e) ==> Path(root, v, k + 1) in t.nodes && t.nodes[Path(root, v, k + 1)] == TableAddr(e))
            && (!IsTable(e) ==> (SpaceOf(root, v), v) !in t.pages)
  {
    TableFacts(m, free, t, role, Root(root));
    PathStep(root, v, k);
    EntryFacts(m, free, t, role, Path(root, v, k), Index(v, k));
    if (SpaceOf(root, v), v) in t.pages {
      assert Node(SpaceOf(root, v), 3, v / 512) in t.nodes;
      PathPresent(t, root, v);
    }
  }

  lemma WalkEnd(m: Memory, free: seq<nat>, t: Tables, role: map<nat, Role>, root: nat, v: nat)
    requires PoolOk(m, free, t, role) && v < 0x10_0000_0000 && Path(root, v, 3) in t.nodes
    ensures var n := Path(root, v, 3); var k := (SpaceOf(root, v), v);
            && n.level == 3 && t.nodes[n] in m && |m[t.nodes[n]]| == 512 && t.nodes[n] !in free
            && var e := m[t.nodes[n]][Index(v, 3)];
            && (IsValid(e) <==> k in t.pages)
            && (IsValid(e) ==> TableAddr(e) == t.pages[k].pa)
  {
    LeafKey(root, v);
    TableFacts(m, free, t, role, Path(root, v, 3));
    EntryFacts(m, free, t, role, Path(root, v, 3), Index(v, 3));
    var k := (SpaceOf(root, v), v);
    if k in t.pages { AddrOfSum(t.pages[k].pa, t.pages[k].flags); }
  }

  /** Every cached translation is the current one of the live root, but for the pages in `stale`. */
  ghost predicate TlbOk(tlb: map<nat, Mapping>, pages: map<(nat, nat), Mapping>, live: nat, stale: set<nat>) {
    forall v | v in tlb && v !in stale :: v < 0x10_0000_0000 && Lookup(pages, live, v) == Some(tlb[v])
  }

  /** `tlbi` names an address by more bits than the walk looks at: only below 2^48 does it name the page. */
  predicate Flushes(va: nat) {
    va < TWO48
  }

  /** The pages that may be stale once page `va` has been changed and `tlbi` executed. */
  function StaleAfter(stale: set<nat>, va: nat): set<nat> {
    if Flushes(va) then stale - {PageOf(va)} else stale + {PageOf(va)}
  }

  function TlbAfter(tlb: map<nat, Mapping>, va: nat): map<nat, Mapping> {
    if Flushes(va) then tlb - {PageOf(va)} else tlb
  }

  lemma TlbEmpty(pages: map<(nat, nat), Mapping>, live: nat)
    ensures TlbOk(map[], pages, live, {})
  {}

  /** Changing page `va` and flushing it leaves no entry wrong but the stale ones. */
  lemma TlbDrop(tlb: map<nat, Mapping>, pages: map<(nat, nat), Mapping>, live: nat, stale: set<nat>, s: nat, va: nat,
    e: Mapping)
    requires TlbOk(tlb, pages, live, stale)
    ensures TlbOk(TlbAfter(tlb, va), pages[(s, PageOf(va)) := e], live, StaleAfter(stale, va))
    ensures TlbOk(TlbAfter(tlb, va), pages - {(s, PageOf(va))}, live, StaleAfter(stale, va))
  {
    hide PageOf;
  }

  /** Replacing a shared page through an address at or above 2^48 does leave a wrong entry behind, if
      the page was cached. */
  lemma StaleEntry(tlb: map<nat, Mapping>, pages: map<(nat, nat), Mapping>, live: nat, va: nat, e: Mapping)
    requires TlbOk(tlb, pages, live, {}) && !Flushes(va) && PageOf(va) < 0x800_0000
    requires PageOf(va) in tlb && tlb[PageOf(va)] != e
    ensures !TlbOk(TlbAfter(tlb, va), pages[(0, PageOf(va)) := e], live, {})
  {
    assert PageOf(va) in TlbAfter(tlb, va);
  }

  // ---------------------------------------------------------------- the kernel heap

  const HEAP_VBASE: nat := 0x1_0000_0000
  const HEAP_PAGES: nat := 512

  /** The first `n` pages of the heap window are the only pages, each on a kernel frame of its own. */
  ghost predicate HeapMapped(pages: map<(nat, nat), Mapping>, role: map<nat, Role>, n: nat) {
    && (forall k :: k in pages <==> k.0 == 0 && HEAP_VBASE / 4096 <= k.1 < HEAP_VBASE / 4096 + n)
    && (forall k | k in pages :: pages[k].flags == PAGE_KERNEL_RW)
    && (forall k, j | k in pages && j in pages && k != j :: pages[k].pa != pages[j].pa)
    && (forall f | f in role && role[f].Page? :: role[f] == Page(0) && exists k :: k in pages && pages[k].pa == f)
    && (forall k | k in pages :: pages[k].pa in role && role[pages[k].pa].Page?)
  }

  lemma HeapPage(root: nat, i: nat)
    requires i < HEAP_PAGES
    ensures var v := PageOf(HEAP_VBASE + i * 4096); v == HEAP_VBASE / 4096 + i && v >= 0x4_8000 && SpaceOf(root, v) == 0
  {}

  lemma HeapMore(m: Memory, m': Memory, t: Tables, t': Tables, role: map<nat, Role>, role1: map<nat, Role>,
    role': map<nat, Role>, n: nat, f: nat)
    requires HeapMapped(t.pages, role, n) && f in role && role[f].Free? && role1 == role[f := Page(0)]
    requires Grew(m, m', t, t', role1, role', 0)
    requires t'.pages == t.pages[(0, HEAP_VBASE / 4096 + n) := Mapping(f, PAGE_KERNEL_RW)]
    ensures HeapMapped(t'.pages, role', n + 1)
  {
    var v := HEAP_VBASE / 4096 + n;
    assert (0, v) in t'.pages && t'.pages[(0, v)].pa == f;
    forall g | g in role' && role'[g].Page?
      ensures role'[g] == Page(0) && exists k :: k in t'.pages && t'.pages[k].pa == g
    {
      assert role1[g] == role'[g];
      if g != f {
        var k :| k in t.pages && t.pages[k].pa == g;
        assert k in t'.pages && t'.pages[k].pa == g;
      }
    }
  }

  class Mmu {
    const ram: Ram
    const frames: FrameAllocator
    var kernelL1: nat
    var kernelRoot: nat
    /** `INSTALLED`: the root `activate` last installed, 0 before the first call. */
    var installed: nat
    /** `TTBR0_EL1`. */
    var live: nat
    /** The hardware's translation cache. */
    ghost var tlb: map<nat, Mapping>
    /** Pages changed through an address at or above 2^48 since the cache was last emptied. */
    ghost var stale: set<nat>
    ghost var t: Tables
    ghost var role: map<nat, Role>

    ghost predicate Pool()
      reads this, ram, frames
    {
      frames.ram == ram && frames.Valid() && PoolOk(ram.words, frames.free, t, role)
    }

    ghost predicate Valid()
      reads this, ram, frames
    {
      && Pool()
      && KERNEL_L1 in t.nodes && t.nodes[KERNEL_L1] == kernelL1
      && Root(kernelRoot) in t.nodes && Root(live) in t.nodes
      && (installed == 0 || installed == live)
      && TlbOk(tlb, t.pages, live, stale)
    }

    ghost function View(): Snap
      reads this, ram
    {
      Snap(ram.words, t, role)
    }

    /** `init_mmu`: the boot tables, with the RAM identity map as 2 MiB blocks. */
    constructor Boot(ram: Ram, frames: FrameAllocator)
      requires frames.ram == ram && frames.Valid() && Aligned(ram.words) && |frames.free| >= 3
      requires forall f | f in ram.words :: f in frames.free
      modifies ram, frames
      ensures Valid() && this.ram == ram && this.frames == frames
      ensures live == kernelRoot && stale == {} && t.pages == map[]
        && (forall r: nat | Root(r) in t.nodes :: r == kernelRoot)
      ensures |frames.free| == |old(frames.free)| - 3
      ensures forall f | f in role :: role[f].Free? || role[f].Table?
    {
      this.ram, this.frames, this.installed, this.tlb, this.stale := ram, frames, 0, map[], {};
      new;
      hide PoolOk;
      hide BootMemory;
      hide BootRoles;
      hide Linked;
      hide MemoryOk;
      hide Aligned;
      hide TlbOk;
      var l0, l1, l2 := BuildBoot();
      kernelL1, kernelRoot, live := l1, l0, l0;
      t := BootTables(l0, l1, l2);
      role := BootRoles(ram.words, l0, l1, l2);
      hide BootTables;
      BootOk(ram.words, frames.free, l0, l1, l2);
      TlbEmpty(t.pages, live);
    }

    /** 64 Normal blocks of 2 MiB: exactly the 128 MiB of RAM. */
    method MapRam(l2: nat)
      requires frames.ram == ram && frames.Valid() && l2 in ram.words && l2 !in frames.free
      requires ram.words[l2] == ZEROES
      modifies ram
      ensures frames.Valid() && ram.words.Keys == old(ram.words.Keys) && RamBlocks(ram.words[l2], 64)
      ensures forall g | g in ram.words && g != l2 :: ram.words[g] == old(ram.words)[g]
    {
      hide Linked;
      var i := 0;
      while i < 64
        invariant 0 <= i <= 64
        invariant frames.Valid() && ram.words.Keys == old(ram.words.Keys) && RamBlocks(ram.words[l2], i)
        invariant forall g | g in ram.words && g != l2 :: ram.words[g] == old(ram.words)[g]
      {
        Store(l2, i, RAM_BASE + i * BLOCK_2MIB + NORMAL_BLOCK);
        i := i + 1;
      }
    }

    method AllocThree() returns (l0: nat, l1: nat, l2: nat)
      requires frames.ram == ram && frames.Valid() && Aligned(ram.words) && |frames.free| >= 3
      requires forall f | f in ram.words :: f in frames.free
      modifies ram, frames
      ensures frames.Valid() && Aligned(ram.words) && |frames.free| == |old(frames.free)| - 3
      ensures l0 in ram.words && l1 in ram.words && l2 in ram.words && l0 != l1 && l0 != l2 && l1 != l2
      ensures forall f | f in frames.free :: f in ram.words && f != l0 && f != l1 && f != l2
      ensures forall f | f in ram.words :: f == l0 || f == l1 || f == l2 || f in frames.free
      ensures ram.words[l0] == ZEROES && ram.words[l1] == ZEROES && ram.words[l2] == ZEROES
    {
      hide Linked;
      LinkedTake3(ram.words, frames.head, frames.free);
      l0 := AllocTable();
      l1 := AllocTable();
      l2 := AllocTable();
      assert frames.free == old(frames.free)[3..];
    }

    method BuildBoot() returns (l0: nat, l1: nat, l2: nat)
      requires frames.ram == ram && frames.Valid() && Aligned(ram.words) && |frames.free| >= 3
      requires forall f | f in ram.words :: f in frames.free
      modifies ram, frames
      ensures frames.Valid() && BootMemory(ram.words, frames.free, l0, l1, l2)
      ensures |frames.free| == |old(frames.free)| - 3
    {
      hide Linked;
      hide BootMemory;
      hide RamBlocks;
      l0, l1, l2 := AllocThree();
      MapRam(l2);
      BootBuilt(ram.words, frames.free, l0, l1, l2);
      hide MemoryOk;
      Store(l1, 0, DEVICE_BLOCK);
      Store(l1, 1, l2 + 3);
      Store(l0, 0, l1 + 3);
    }

    /** Write a word of a frame that is not free. */
    method Store(f: nat, i: nat, v: Word)
      requires frames.ram == ram && frames.Valid() && f in ram.words && f !in frames.free && i < 512
      modifies ram
      ensures frames.Valid() && |old(ram.words)[f]| == 512
      ensures ram.words == Stored(old(ram.words), f, i, v)
    {
      LinkedStored(ram.words, frames.head, frames.free, f, i, v);
      ram.Write(f, i, v);
    }

    /** Allocate a frame and zero it for use as a page table. */
    method AllocTable() returns (f: nat)
      requires frames.ram == ram && frames.Valid() && frames.free != []
      modifies ram, frames
      ensures frames.Valid() && frames.free == old(frames.free)[1..]
      ensures f == old(frames.free)[0] && f in old(ram.words) && f !in frames.free && f < TWO48
      ensures ram.words == old(ram.words)[f := ZEROES]
    {
      var r := frames.Pop();
      f := r.value;
      var i := 0;
      while i < 512
        invariant 0 <= i <= 512
        invariant ram.words.Keys == old(ram.words.Keys) && |ram.words[f]| == 512
        invariant forall g | g in ram.words && g != f :: ram.words[g] == old(ram.words)[g]
        invariant forall j | 0 <= j < i :: ram.words[f][j] == 0
        modifies ram
      {
        ram.Write(f, i, 0);
        i := i + 1;
      }
      assert ram.words[f] == ZEROES;
      assert ram.words == old(ram.words)[f := ZEROES];
      LinkedInside(old(ram.words), frames.head, frames.free);
      LinkedFrame(old(ram.words), ram.words, frames.head, frames.free);
    }

    /** Install a fresh table at the empty entry `table[index]`. */
    method Install(table: nat, index: nat, ghost n: Node) returns (next: nat)
      requires Valid() && n in t.nodes && t.nodes[n] == table && n.level < 3 && index < 512
      requires Child(n, index) !in t.nodes && !Blocked(n, index) && frames.free != []
      modifies this`t, this`role, ram, frames
      ensures Valid() && t.pages == old(t.pages)
      ensures t.nodes == old(t.nodes)[Child(n, index) := next]
      ensures Grew(old(ram.words), ram.words, old(t), t, old(role), role, Child(n, index).space)
      ensures SameElsewhere(old(ram.words), ram.words, old(t), n)
      ensures next in ram.words && ram.words[next] == ZEROES
      ensures |frames.free| >= |old(frames.free)| - 1
    {
      hide PoolOk;
      hide Grew;
      hide Linked;
      hide SameElsewhere;
      hide TlbOk;
      hide MemoryOk;
      hide Child;
      hide WellPlaced;
      hide FrameAddr;
      TableFacts(ram.words, frames.free, t, role, n);
      next := AllocTable();
      Store(table, index, next + 3);
      InstallStep(old(ram.words), ram.words, old(frames.free), t, role, n, index);
      t := t.(nodes := t.nodes[Child(n, index) := next]);
      role := role[next := Table(Child(n, index))];
    }

    /** Follow the entry at `table[index]`, installing a fresh table if it is empty. */
    method GetOrCreate(table: nat, index: nat, ghost n: Node) returns (next: nat)
      requires Valid() && n in t.nodes && t.nodes[n] == table && n.level < 3 && index < 512
      requires table in ram.words && |ram.words[table]| == 512 && EntryWalkable(ram.words[table][index])
      requires !IsValid(ram.words[table][index]) ==> frames.free != []
      modifies this`t, this`role, ram, frames
      ensures Valid() && t.pages == old(t.pages)
      ensures Child(n, index) in t.nodes && t.nodes[Child(n, index)] == next
      ensures Grew(old(ram.words), ram.words, old(t), t, old(role), role, Child(n, index).space)
      ensures SameElsewhere(old(ram.words), ram.words, old(t), n)
      ensures next in ram.words && (Child(n, index) !in old(t.nodes) ==> ram.words[next] == ZEROES)
      ensures forall x | x in t.nodes :: x in old(t.nodes) || x == Child(n, index)
      ensures |frames.free| >= |old(frames.free)| - 1
    {
      hide PoolOk;
      hide Grew;
      hide Linked;
      hide MemoryOk;
      hide SameElsewhere;
      hide TlbOk;
      hide TableAddr;
      hide IsValid;
      hide IsTable;
      var entry := ram.words[table][index];
      EntryFacts(ram.words, frames.free, t, role, n, index);
      if IsValid(entry) {
        next := TableAddr(entry);
        GrewRefl(ram.words, frames.free, t, role, Child(n, index).space);
      } else {
        next := Install(table, index, n);
      }
    }

    /** One level of the walk of `va`'s page. */
    method StepDown(l0: nat, va: nat, level: nat, table: nat) returns (next: nat)
      requires Valid() && Root(l0) in t.nodes && level < 3 && frames.free != []
      requires Path(l0, PageOf(va), level) in t.nodes && t.nodes[Path(l0, PageOf(va), level)] == table
      requires WalkableFrom(ram.words, t, l0, PageOf(va), level)
      modifies this`t, this`role, ram, frames
      ensures Valid() && t.pages == old(t.pages)
      ensures Path(l0, PageOf(va), level + 1) in t.nodes && t.nodes[Path(l0, PageOf(va), level + 1)] == next
      ensures WalkableFrom(ram.words, t, l0, PageOf(va), level + 1)
      ensures Grew(old(ram.words), ram.words, old(t), t, old(role), role, SpaceOf(l0, PageOf(va)))
      ensures forall n | n in old(t.nodes) :: n in t.nodes
      ensures forall n | n in t.nodes :: n in old(t.nodes) || OnPath(l0, PageOf(va), n)
      ensures |frames.free| >= |old(frames.free)| - 1
    {
      hide PoolOk;
      hide Grew;
      hide Linked;
      hide MemoryOk;
      hide SameElsewhere;
      hide TlbOk;
      hide Index;
      hide Path;
      hide Child;
      hide WellPlaced;
      hide EntryWalkable;
      hide WalkableAt;
      hide PageOf;
      ghost var v := PageOf(va);
      WalkFrom(ram.words, frames.free, t, role, l0, v, level);
      NodesInside(ram.words, frames.free, t, role);
      next := GetOrCreate(table, Index(PageOf(va), level), Path(l0, v, level));
      GrewKeeps(old(ram.words), ram.words, old(t), t, old(role), role, SpaceOf(l0, v));
      forall j | level < j < 3
        ensures WalkableAt(ram.words, t, l0, v, j)
      {
        StillWalkable(old(ram.words), ram.words, old(t), t, l0, v, level, j);
      }
    }

    /** Follow or create the three tables on the way to `va`'s L3. */
    method WalkCreate(l0: nat, va: nat) returns (l3: nat)
      requires Valid() && Root(l0) in t.nodes
      requires Walkable(ram.words, t, l0, PageOf(va))
      requires |frames.free| >= 3
      modifies this`t, this`role, ram, frames
      ensures Valid() && t.pages == old(t.pages)
      ensures Path(l0, PageOf(va), 3) in t.nodes && t.nodes[Path(l0, PageOf(va), 3)] == l3
      ensures Path(l0, PageOf(va), 1) in t.nodes && Path(l0, PageOf(va), 2) in t.nodes
      ensures forall n | n in t.nodes :: n in old(t.nodes) || OnPath(l0, PageOf(va), n)
      ensures Grew(old(ram.words), ram.words, old(t), t, old(role), role, SpaceOf(l0, PageOf(va)))
      ensures |frames.free| >= |old(frames.free)| - 3
    {
      hide PoolOk;
      hide Grew;
      hide Linked;
      hide MemoryOk;
      hide TlbOk;
      hide Path;
      hide OnPath;
      hide WalkableFrom;
      hide PageOf;
      ghost var v := PageOf(va);
      LeafKey(l0, v);
      TableFacts(ram.words, frames.free, t, role, Root(l0));
      ghost var m0, t0, r0 := ram.words, t, role;
      var l1 := StepDown(l0, va, 0, l0);
      ghost var m1, t1, r1 := ram.words, t, role;
      var l2 := StepDown(l0, va, 1, l1);
      ghost var m2, t2, r2 := ram.words, t, role;
      l3 := StepDown(l0, va, 2, l2);
      GrewTrans(m0, m1, m2, t0, t1, t2, r0, r1, r2, SpaceOf(l0, v));
      GrewTrans(m0, m2, ram.words, t0, t2, t, r0, r2, role, SpaceOf(l0, v));
    }

    /** Write the page descriptor of `va` into its L3 table and drop its TLB entry. */
    method SetLeaf(l0: nat, va: nat, l3: nat, pa: nat, flags: nat)
      requires Valid() && PageFlags(flags) && FrameAddr(pa)
      requires pa in role && MayShow(SpaceOf(l0, PageOf(va)), role[pa])
      requires Path(l0, PageOf(va), 3) in t.nodes && t.nodes[Path(l0, PageOf(va), 3)] == l3
      modifies this`t, this`tlb, this`stale, ram
      ensures Valid() && t.nodes == old(t.nodes)
      ensures t.pages == old(t.pages)[(SpaceOf(l0, PageOf(va)), PageOf(va)) := Mapping(pa, flags)]
      ensures Grew(old(ram.words), ram.words, old(t), t, role, role, SpaceOf(l0, PageOf(va)))
      ensures stale == StaleAfter(old(stale), va) && tlb == TlbAfter(old(tlb), va)
    {
      hide PoolOk;
      hide Grew;
      hide Linked;
      hide MemoryOk;
      hide TlbOk;
      hide Path;
      hide Index;
      hide PageOf;
      hide PageKey;
      hide WellPlaced;
      hide PageFlags;
      hide FrameAddr;
      hide SpaceOf;
      ghost var v := PageOf(va);
      ghost var s := SpaceOf(l0, v);
      LeafKey(l0, v);
      ghost var n := Path(l0, v, 3);
      TableFacts(ram.words, frames.free, t, role, n);
      SumBounds(pa, flags);
      MapLeaf(ram.words, frames.free, t, role, n, Index(v, 3), pa, flags);
      TlbDrop(tlb, t.pages, live, stale, s, va, Mapping(pa, flags));
      Store(l3, Index(PageOf(va), 3), pa + flags);
      t := t.(pages := t.pages[(s, v) := Mapping(pa, flags)]);
      tlb, stale := TlbAfter(tlb, va), StaleAfter(stale, va);
    }

    /** Map one page: exactly the mapping of `va`'s page changes, and its TLB entry is dropped if the
        address is below 2^48. */
    method MapPageIn(l0: nat, va: nat, pa: nat, flags: nat)
      requires Valid() && Root(l0) in t.nodes && PageFlags(flags) && FrameAddr(pa)
      requires pa in role && MayShow(SpaceOf(l0, PageOf(va)), role[pa])
      requires Walkable(ram.words, t, l0, PageOf(va))
      requires |frames.free| >= 3
      modifies this`t, this`role, this`tlb, this`stale, ram, frames
      ensures Valid()
      ensures t.pages == old(t.pages)[(SpaceOf(l0, PageOf(va)), PageOf(va)) := Mapping(pa, flags)]
      ensures Grew(old(ram.words), ram.words, old(t), t, old(role), role, SpaceOf(l0, PageOf(va)))
      ensures forall level | 1 <= level <= 3 :: Path(l0, PageOf(va), level) in t.nodes
      ensures forall n | n in t.nodes :: n in old(t.nodes) || OnPath(l0, PageOf(va), n)
      ensures |frames.free| >= |old(frames.free)| - 3
      ensures stale == StaleAfter(old(stale), va) && tlb == TlbAfter(old(tlb), va)
    {
      hide PoolOk;
      hide Grew;
      hide Linked;
      hide MemoryOk;
      hide TlbOk;
      hide OnPath;
      hide Path;
      hide PageOf;
      hide PageFlags;
      hide FrameAddr;
      hide SpaceOf;
      hide Walkable;
      var l3 := WalkCreate(l0, va);
      ghost var s, m, t1, r1 := SpaceOf(l0, PageOf(va)), ram.words, t, role;
      GrewKeeps(old(ram.words), m, old(t), t1, old(role), r1, s);
      SetLeaf(l0, va, l3, pa, flags);
      GrewTrans(old(ram.words), m, ram.words, old(t), t1, t, old(role), r1, role, s);
    }

    /** The walk L0 -> L3 that creates nothing: None if a level is absent. */
    method Walk(root: nat, va: nat) returns (r: Option<nat>)
      requires Valid() && Root(root) in t.nodes
      ensures r.Some? ==> Path(root, PageOf(va), 3) in t.nodes && t.nodes[Path(root, PageOf(va), 3)] == r.value
      ensures r.None? ==> (SpaceOf(root, PageOf(va)), PageOf(va)) !in t.pages
    {
      hide PoolOk;
      hide Linked;
      hide MemoryOk;
      hide TlbOk;
      hide Path;
      hide Index;
      hide PageOf;
      hide IsTable;
      hide TableAddr;
      ghost var v := PageOf(va);
      LeafKey(root, v);
      TableFacts(ram.words, frames.free, t, role, Root(root));
      var table := root;
      var level := 0;
      while level < 3
        invariant 0 <= level <= 3
        invariant Path(root, v, level) in t.nodes && t.nodes[Path(root, v, level)] == table
      {
        WalkStep(ram.words, frames.free, t, role, root, v, level);
        var entry := ram.words[table][Index(PageOf(va), level)];
        if !IsTable(entry) {
          return None;
        }
        table := TableAddr(entry);
        level := level + 1;
      }
      return Some(table);
    }

    /** Remove the mapping of `va`: exactly that page goes, whether or not it was mapped. */
    method UnmapPageIn(l0: nat, va: nat)
      requires Valid() && Root(l0) in t.nodes
      modifies this`t, this`tlb, this`stale, ram
      ensures Valid() && t.nodes == old(t.nodes)
      ensures t.pages == old(t.pages) - {(SpaceOf(l0, PageOf(va)), PageOf(va))}
      ensures stale <= old(stale) + if Flushes(va) then {} else {PageOf(va)}
      ensures Grew(old(ram.words), ram.words, old(t), t, role, role, SpaceOf(l0, PageOf(va)))
    {
      hide PoolOk;
      hide Grew;
      hide Linked;
      hide MemoryOk;
      hide TlbOk;
      hide Path;
      hide Index;
      hide PageOf;
      hide PageKey;
      ghost var v := PageOf(va);
      ghost var s := SpaceOf(l0, v);
      var table := Walk(l0, va);
      if table == None {
        GrewRefl(ram.words, frames.free, t, role, s);
        return;
      }
      LeafKey(l0, v);
      WalkEnd(ram.words, frames.free, t, role, l0, v);
      ClearLeaf(ram.words, frames.free, t, role, Path(l0, v, 3), Index(v, 3));
      Store(table.value, Index(PageOf(va), 3), 0);
      TlbDrop(tlb, t.pages, live, stale, s, va, Mapping(0, 0));
      t := t.(pages := t.pages - {(s, v)});
      tlb, stale := TlbAfter(tlb, va), StaleAfter(stale, va);
    }

    /** Walk the tables of `root`: the answer is the reference map's. */
    method Translate(root: nat, va: nat) returns (r: Option<nat>)
      requires Valid() && Root(root) in t.nodes
      ensures match Lookup(t.pages, root, PageOf(va))
              case None => r == None
              case Some(e) => r == Some(e.pa + va % 0x1000)
    {
      hide PoolOk;
      hide Linked;
      hide MemoryOk;
      hide TlbOk;
      hide Path;
      hide Index;
      hide PageOf;
      hide IsValid;
      hide TableAddr;
      var table := Walk(root, va);
      if table == None {
        return None;
      }
      WalkEnd(ram.words, frames.free, t, role, root, PageOf(va));
      var entry := ram.words[table.value][Index(PageOf(va), 3)];
      if !IsValid(entry) {
        return None;
      }
      return Some(TableAddr(entry) + va % 0x1000);
    }

    /** A fresh space: slot 0 aliases the kernel's L1 and nothing else is mapped. */
    method NewAddressSpace() returns (root: nat)
      requires Valid() && frames.free != []
      modifies this`t, this`role, ram, frames
      ensures Valid() && t.pages == old(t.pages)
      ensures Root(root) !in old(t.nodes) && t.nodes == old(t.nodes)[Root(root) := root]
      ensures forall n | n in old(t.nodes) :: n.space != root
      ensures forall k | k in t.pages :: k.0 != root
      ensures Grew(old(ram.words), ram.words, old(t), t, old(role), role, root)
      ensures |frames.free| >= |old(frames.free)| - 1
    {
      hide PoolOk;
      hide Grew;
      hide Linked;
      hide MemoryOk;
      hide TlbOk;
      TableFacts(ram.words, frames.free, t, role, KERNEL_L1);
      root := AllocTable();
      Store(root, 0, kernelL1 + 3);
      RootStep(old(ram.words), ram.words, old(frames.free), t, role);
      t := t.(nodes := t.nodes[Root(root) := root]);
      role := role[root := Table(Root(root))];
    }

    /** Install `root`; the switch and the flush are skipped when it is already live. */
    method Activate(root: nat)
      requires Valid() && Root(root) in t.nodes
      modifies this`installed, this`live, this`tlb, this`stale
      ensures Valid() && live == root && stale <= old(stale)
      ensures old(live) != root ==> stale == {}
    {
      hide PoolOk;
      hide Linked;
      hide MemoryOk;
      TableFacts(ram.words, frames.free, t, role, Root(root));
      if installed != root {
        installed := root;
        live := root;
        tlb, stale := map[], {};
      }
    }

    /** The hardware may cache any current translation of the live root. */
    ghost method Fill(v: nat)
      requires Valid() && v < 0x10_0000_0000
      modifies this`tlb
      ensures Valid()
      ensures match Lookup(t.pages, live, v)
              case None => tlb == old(tlb)
              case Some(e) => tlb == old(tlb)[v := e]
    {
      hide PoolOk;
      hide Linked;
      hide MemoryOk;
      if Lookup(t.pages, live, v).Some? {
        tlb := tlb[v := Lookup(t.pages, live, v).value];
      }
    }

    /** A frame for a page of space `s`. */
    method AllocPage(ghost s: nat) returns (f: nat)
      requires Valid() && frames.free != []
      modifies this`role, frames
      ensures Valid() && FrameAddr(f)
      ensures f in old(role) && old(role)[f].Free? && role == old(role)[f := Page(s)]
      ensures frames.free == old(frames.free)[1..]
    {
      hide PoolOk;
      hide Linked;
      hide TlbOk;
      var r := frames.Pop();
      f := r.value;
      TakePage(ram.words, old(frames.free), t, role, s);
      role := role[f := Page(s)];
    }

    /** One page of the heap window. */
    method MapHeapPage(i: nat)
      requires Valid() && i < HEAP_PAGES && |frames.free| >= 4 && HeapMapped(t.pages, role, i)
      modifies this`t, this`role, this`tlb, this`stale, ram, frames
      ensures Valid() && |frames.free| >= |old(frames.free)| - 4 && HeapMapped(t.pages, role, i + 1)
      ensures stale <= old(stale)
      ensures forall r: nat | Root(r) in t.nodes :: Root(r) in old(t.nodes)
    {
      hide PoolOk;
      hide Linked;
      hide MemoryOk;
      hide TlbOk;
      hide Grew;
      hide HeapMapped;
      hide Walkable;
      hide PageOf;
      hide PageFlags;
      HeapPage(live, i);
      UserFlags();
      var f := AllocPage(0);
      ghost var m, t1, role1 := ram.words, t, role;
      WalkableIff(ram.words, frames.free, t, role, live, PageOf(HEAP_VBASE + i * 4096));
      MapPageIn(live, HEAP_VBASE + i * 4096, f, PAGE_KERNEL_RW);
      HeapMore(m, ram.words, t1, t, old(role), role1, role, i, f);
    }

    /** `init_heap`: 512 frames of the kernel's, mapped one after the other at the heap window. */
    method InitHeap()
      requires Valid() && t.pages == map[] && |frames.free| >= 4 * HEAP_PAGES
      requires forall f | f in role :: !role[f].Page?
      modifies this`t, this`role, this`tlb, this`stale, ram, frames
      ensures Valid() && stale <= old(stale)
      ensures forall r: nat | Root(r) in t.nodes :: Root(r) in old(t.nodes)
      ensures forall k :: k in t.pages <==> k.0 == 0 && HEAP_VBASE / 4096 <= k.1 < HEAP_VBASE / 4096 + HEAP_PAGES
      ensures forall k | k in t.pages :: t.pages[k].flags == PAGE_KERNEL_RW
      ensures forall k, j | k in t.pages && j in t.pages && k != j :: t.pages[k].pa != t.pages[j].pa
      ensures forall f | f in role && role[f].Page? ::
        role[f] == Page(0) && exists k :: k in t.pages && t.pages[k].pa == f
    {
      hide PoolOk;
      hide Linked;
      hide MemoryOk;
      hide TlbOk;
      hide Grew;
      hide OnPath;
      var i := 0;
      while i < HEAP_PAGES
        invariant 0 <= i <= HEAP_PAGES && Valid() && |frames.free| >= 4 * (HEAP_PAGES - i) && stale <= old(stale)
        invariant forall r: nat | Root(r) in t.nodes :: Root(r) in old(t.nodes)
        invariant HeapMapped(t.pages, role, i)
      {
        MapHeapPage(i);
        i := i + 1;
      }
    }

    /** Give a page's frame back; nothing may map it any more. */
    method FreePage(f: nat)
      requires Valid() && f in role && role[f].Page?
      requires forall k | k in t.pages :: t.pages[k].pa != f
      modifies this`role, ram, frames
      ensures Valid()
      ensures role == old(role)[f := Free] && frames.free == [f] + old(frames.free)
      ensures ram.words.Keys == old(ram.words.Keys)
      ensures forall g | g in ram.words && g != f :: ram.words[g] == old(ram.words)[g]
    {
      hide PoolOk;
      hide Linked;
      hide TlbOk;
      PageFacts(ram.words, frames.free, t, role, f);
      GivePageOk(ram.words, frames.free, t, role, f, frames.head);
      frames.Push(f);
      role := role[f := Free];
    }

    /** Write a word of a page. */
    method StorePage(f: nat, i: nat, v: Word)
      requires Valid() && f in role && role[f].Page? && i < 512
      modifies ram
      ensures Valid() && f in old(ram.words) && |old(ram.words)[f]| == 512
      ensures ram.words == Stored(old(ram.words), f, i, v)
    {
      hide PoolOk;
      hide Linked;
      hide TlbOk;
      PageFacts(ram.words, frames.free, t, role, f);
      WritePageOk(ram.words, frames.free, t, role, f, i, v);
      Store(f, i, v);
    }

    /** Free a subtree depth-first: exactly the tables at and below `n` join the free list. */
    method FreeSubtree(table: nat, levelsBelow: nat, ghost n: Node, ghost m0: Memory, ghost free0: seq<nat>)
      requires frames.ram == ram && frames.Valid() && PoolOk(m0, free0, t, role)
      requires n in t.nodes && t.nodes[n] == table && n.level + levelsBelow == 3 && 1 <= n.level && n.space != 0
      requires ram.words.Keys == m0.Keys
      requires forall f | TableUnder(role, n, f) :: f !in frames.free && f in m0 && ram.words[f] == m0[f]
      modifies ram, frames
      ensures frames.Valid() && ram.words.Keys == m0.Keys
      ensures forall f :: f in frames.free <==> f in old(frames.free) || TableUnder(role, n, f)
      ensures forall f | f in m0 && !TableUnder(role, n, f) :: ram.words[f] == old(ram.words)[f]
      decreases levelsBelow
    {
      hide PoolOk;
      hide Linked;
      hide MemoryOk;
      hide TableUnder;
      hide TableBelow;
      hide TableAddr;
      hide IsTable;
      hide Child;
      TableFacts(m0, free0, t, role, n);
      SelfOrBelow(m0, free0, t, role, n);
      if levelsBelow > 0 {
        var i := 0;
        while i < 512
          invariant 0 <= i <= 512
          invariant frames.Valid() && ram.words.Keys == m0.Keys
          invariant forall f :: f in frames.free <==> f in old(frames.free) || TableBelow(role, n, f, i)
          invariant forall f | f in m0 && !TableBelow(role, n, f, i) :: ram.words[f] == old(ram.words)[f]
        {
          var entry := ram.words[table][i];
          BranchStep(m0, free0, t, role, n, i);
          if IsTable(entry) {
            FreeSubtree(TableAddr(entry), levelsBelow - 1, Child(n, i), m0, free0);
          }
          i := i + 1;
        }
      }
      frames.Push(table);
    }

    /** Reclaim the L0 and the slot-1 tables of a dead space.  Tables under other slots of
        its own are lost, and the shared slot-0 subtree is never followed. */
    method FreeAddressSpace(root: nat)
      requires Valid() && Root(root) in t.nodes && root != live && root != kernelRoot
      modifies this`t, this`role, ram, frames
      ensures Valid() && t == Without(old(t), root) && role == Reclaimed(old(role), root)
      ensures ram.words.Keys == old(ram.words.Keys)
      ensures forall f | f in old(role) && old(role)[f].Page? :: ram.words[f] == old(ram.words)[f]
    {
      hide PoolOk;
      hide Linked;
      hide MemoryOk;
      hide TlbOk;
      hide TableUnder;
      hide TableAddr;
      hide IsTable;
      hide Lost;
      hide Without;
      hide Reclaimed;
      ghost var m, free := ram.words, frames.free;
      ghost var l1n := Node(root, 1, 1);
      SlotOne(m, free, t, role, root);
      var e1 := ram.words[root][1];
      if IsTable(e1) {
        FreeSubtree(TableAddr(e1), 2, l1n, m, free);
      }
      frames.Push(root);
      assert forall f :: f in frames.free <==> f in free || f == root || TableUnder(role, l1n, f);
      ReclaimOk(m, ram.words, free, frames.free, t, role, root);
      TlbKept(tlb, t, live, stale, root);
      WithoutKeeps(m, free, t, role, root, live);
      WithoutKeeps(m, free, t, role, root, kernelRoot);
      t := Without(t, root);
      role := Reclaimed(role, root);
    }
  }
}
