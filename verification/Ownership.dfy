/**
 What one process may change: its own tables and pages, the free frames, and the shared pages
 its image reaches into, nothing else.

 `Confined` is the isolation property that every step of a process's life keeps;
 `OwnedOk` ties the list of frames a process owns to the pages that show them.
 */
module Ownership {
  import opened Frames
  import opened PageTables
  import opened AddressSpaces

  // ---------------------------------------------------------------- the shared slot

  /** Pages below this one lie under L0 slot 0, which every space shares. */
  const SHARED_PAGES: nat := 0x800_0000

  /** The shared pages among `dom`. */
  function Shared(dom: set<nat>): set<nat> {
    set v | v in dom && v < SHARED_PAGES
  }

  /** `n` is one of the two shared tables below the kernel's L1 that lead to page `v`. */
  predicate Leads(n: Node, v: nat) {
    n.space == 0 && 2 <= n.level <= 3 && n.prefix == Prefix(v, n.level)
  }

  ghost predicate LeadsInto(n: Node, low: set<nat>) {
    exists v :: v in low && Leads(n, v)
  }

  /** Both tables leading to each page of `low` are there. */
  ghost predicate Built(t: Tables, low: set<nat>) {
    forall v | v in low :: Node(0, 2, Prefix(v, 2)) in t.nodes && Node(0, 3, Prefix(v, 3)) in t.nodes
  }

  // ---------------------------------------------------------------- what a space's own steps change

  predicate Mine(root: nat, r: Role) {
    r.Free? || r == Page(root) || (r.Table? && r.node.space == root)
  }

  /** A frame of space `root` or a free one may become the other, a table into `low`, or (if `lost`) be lost. */
  ghost predicate RoleMoves(r: Role, r': Role, root: nat, low: set<nat>, lost: bool) {
    r' == r || (Mine(root, r) && (Mine(root, r') || (lost && r'.Leaked?) || (r'.Table? && LeadsInto(r'.node, low))))
  }

  ghost predicate RolesMove(a: Snap, b: Snap, root: nat, low: set<nat>, lost: bool) {
    && a.role.Keys == b.role.Keys == a.m.Keys == b.m.Keys
    && (forall f | f in a.role :: RoleMoves(a.role[f], b.role[f], root, low, lost))
    && (forall f | f in a.role && a.role[f].Page? && a.role[f] != Page(root) :: b.m[f] == a.m[f])
  }

  /** Tables of other spaces stay; only shared tables into `low` are added. */
  ghost predicate NodesMove(t: Tables, t': Tables, root: nat, low: set<nat>) {
    && (forall n | n in t.nodes && n.space != root :: n in t'.nodes && t'.nodes[n] == t.nodes[n])
    && (forall n | n in t'.nodes && n.space != root :: n in t.nodes || LeadsInto(n, low))
  }

  /** Pages of other spaces stay; shared pages of `low` may go or show frames of `root`. */
  ghost predicate PagesMove(a: Snap, b: Snap, root: nat, low: set<nat>) {
    && (forall k | k in a.t.pages && k.0 != root :: k in b.t.pages || (k.0 == 0 && k.1 in low))
    && (forall k | k in b.t.pages && k.0 != root ::
          || (k in a.t.pages && b.t.pages[k] == a.t.pages[k])
          || (k.0 == 0 && k.1 in low && b.t.pages[k].pa in a.role && Mine(root, a.role[b.t.pages[k].pa])))
  }

  /** From `a` to `b` only space `root`, the free frames and the shared pages `low` changed. */
  ghost predicate Changes(a: Snap, b: Snap, root: nat, low: set<nat>, lost: bool) {
    RolesMove(a, b, root, low, lost) && NodesMove(a.t, b.t, root, low) && PagesMove(a, b, root, low)
  }

  ghost predicate Confined(a: Snap, b: Snap, root: nat, low: set<nat>) {
    Changes(a, b, root, low, false)
  }

  /** The same, except that tables of `root` may have been lost for good. */
  ghost predicate Left(a: Snap, b: Snap, root: nat, low: set<nat>) {
    Changes(a, b, root, low, true)
  }

  lemma RolesTrans(a: Snap, b: Snap, c: Snap, root: nat, low1: set<nat>, low2: set<nat>, low: set<nat>, lost1: bool,
    lost2: bool)
    requires RolesMove(a, b, root, low1, lost1) && RolesMove(b, c, root, low2, lost2)
    requires low1 <= low && low2 <= low && root != 0
    ensures RolesMove(a, c, root, low, lost1 || lost2)
  {
    forall f | f in a.role
      ensures RoleMoves(a.role[f], c.role[f], root, low, lost1 || lost2)
    {
      assert RoleMoves(a.role[f], b.role[f], root, low1, lost1) && RoleMoves(b.role[f], c.role[f], root, low2, lost2);
    }
    forall f | f in a.role && a.role[f].Page? && a.role[f] != Page(root)
      ensures c.m[f] == a.m[f]
    {
      assert RoleMoves(a.role[f], b.role[f], root, low1, lost1);
    }
  }

  lemma PagesTrans(a: Snap, b: Snap, c: Snap, root: nat, low1: set<nat>, low2: set<nat>, low: set<nat>, lost: bool)
    requires RolesMove(a, b, root, low1, lost) && PagesMove(a, b, root, low1) && PagesMove(b, c, root, low2)
    requires low1 <= low && low2 <= low
    ensures PagesMove(a, c, root, low)
  {
    forall k | k in c.t.pages && k.0 != root
      ensures || (k in a.t.pages && c.t.pages[k] == a.t.pages[k])
              || (k.0 == 0 && k.1 in low && c.t.pages[k].pa in a.role && Mine(root, a.role[c.t.pages[k].pa]))
    {
      var f := c.t.pages[k].pa;
      assert f in a.role ==> RoleMoves(a.role[f], b.role[f], root, low1, lost);
    }
  }

  /** Steps compose, and the shared pages they reach into add up. */
  lemma ChangesTrans(a: Snap, b: Snap, c: Snap, root: nat, low1: set<nat>, low2: set<nat>, low: set<nat>, lost1: bool,
    lost2: bool)
    requires Changes(a, b, root, low1, lost1) && Changes(b, c, root, low2, lost2)
    requires low1 <= low && low2 <= low && root != 0
    ensures Changes(a, c, root, low, lost1 || lost2)
  {
    RolesTrans(a, b, c, root, low1, low2, low, lost1, lost2);
    PagesTrans(a, b, c, root, low1, low2, low, lost1);
  }

  lemma ConfinedTrans(a: Snap, b: Snap, c: Snap, root: nat, low1: set<nat>, low2: set<nat>, low: set<nat>)
    requires Confined(a, b, root, low1) && Confined(b, c, root, low2) && low1 <= low && low2 <= low && root != 0
    ensures Confined(a, c, root, low)
  {
    hide Changes;
    ChangesTrans(a, b, c, root, low1, low2, low, false, false);
  }

  lemma ConfinedThenLeft(a: Snap, b: Snap, c: Snap, root: nat, low: set<nat>)
    requires Confined(a, b, root, low) && Left(b, c, root, {}) && root != 0
    ensures Left(a, c, root, low)
  {
    hide Changes;
    ChangesTrans(a, b, c, root, low, {}, low, false, true);
  }

  lemma ConfinedIsLeft(a: Snap, b: Snap, root: nat, low: set<nat>)
    requires Confined(a, b, root, low)
    ensures Left(a, b, root, low)
  {
    forall f | f in a.role
      ensures RoleMoves(a.role[f], b.role[f], root, low, true)
    {
      assert RoleMoves(a.role[f], b.role[f], root, low, false);
    }
  }

  lemma ConfinedRefl(m: Memory, free: seq<nat>, t: Tables, role: map<nat, Role>, root: nat)
    requires PoolOk(m, free, t, role)
    ensures Confined(Snap(m, t, role), Snap(m, t, role), root, {})
  {}

  /** Isolation: every other translation stays what it was, except of the shared pages reached into. */
  lemma OthersUntouched(a: Snap, b: Snap, root: nat, low: set<nat>, other: nat, v: nat)
    requires Left(a, b, root, low) && root != 0 && (other != root || v < SHARED_PAGES)
    requires v !in low
    ensures Lookup(b.t.pages, other, v) == Lookup(a.t.pages, other, v)
  {
    var k := (SpaceOf(other, v), v);
    assert k.0 != root;
  }

  /** A table that appears while page `v` is mapped leads to `v`. */
  lemma NewTable(a: Snap, free: seq<nat>, b: Snap, free': seq<nat>, root: nat, v: nat, f: nat)
    requires Roles(a.m, free, a.t, a.role) && Roles(b.m, free', b.t, b.role) && KERNEL_L1 in a.t.nodes
    requires Grew(a.m, b.m, a.t, b.t, a.role, b.role, SpaceOf(root, v))
    requires forall n | n in b.t.nodes :: n in a.t.nodes || OnPath(root, v, n)
    requires f in a.role && b.role[f] != a.role[f] && v < SHARED_PAGES
    ensures b.role[f].Table? && LeadsInto(b.role[f].node, Shared({v}))
  {
    var n := b.role[f].node;
    assert n in b.t.nodes && b.t.nodes[n] == f;
    assert n !in a.t.nodes && OnPath(root, v, n);
    assert Path(root, v, 1) == KERNEL_L1;
    assert v in Shared({v}) && Leads(n, v);
  }

  lemma NewNode(root: nat, v: nat, n: Node)
    requires OnPath(root, v, n) && n != KERNEL_L1 && n.space != root
    ensures v < SHARED_PAGES && LeadsInto(n, Shared({v}))
  {
    assert v < SHARED_PAGES;
    assert v in Shared({v}) && Leads(n, v);
  }

  /** Mapping or unmapping page `v` from `root`. */
  lemma MapConfined(a: Snap, free: seq<nat>, b: Snap, free': seq<nat>, root: nat, v: nat, e: Mapping)
    requires PoolOk(a.m, free, a.t, a.role) && PoolOk(b.m, free', b.t, b.role)
    requires Grew(a.m, b.m, a.t, b.t, a.role, b.role, SpaceOf(root, v))
    requires forall n | n in b.t.nodes :: n in a.t.nodes || OnPath(root, v, n)
    requires var k := (SpaceOf(root, v), v);
      || (b.t.pages == a.t.pages[k := e] && e.pa in a.role && Mine(root, a.role[e.pa]))
      || b.t.pages == a.t.pages - {k}
    ensures Confined(a, b, root, Shared({v}))
  {
    hide Contents;
    hide MemoryOk;
    hide Aligned;
    hide RolesMove;
    hide NodesMove;
    hide PagesMove;
    hide Roles;
    hide Grew;
    MapRoles(a, free, b, free', root, v);
    MapNodes(a, b, root, v);
    MapPages(a, b, root, v, e);
  }

  lemma MapRoles(a: Snap, free: seq<nat>, b: Snap, free': seq<nat>, root: nat, v: nat)
    requires Roles(a.m, free, a.t, a.role) && Roles(b.m, free', b.t, b.role) && KERNEL_L1 in a.t.nodes
    requires Grew(a.m, b.m, a.t, b.t, a.role, b.role, SpaceOf(root, v))
    requires forall n | n in b.t.nodes :: n in a.t.nodes || OnPath(root, v, n)
    ensures RolesMove(a, b, root, Shared({v}), false)
  {
    hide Roles;
    hide OnPath;
    hide LeadsInto;
    forall f | f in a.role
      ensures RoleMoves(a.role[f], b.role[f], root, Shared({v}), false)
    {
      if b.role[f] != a.role[f] && v < SHARED_PAGES { NewTable(a, free, b, free', root, v, f); }
    }
  }

  lemma MapNodes(a: Snap, b: Snap, root: nat, v: nat)
    requires KERNEL_L1 in a.t.nodes && Grew(a.m, b.m, a.t, b.t, a.role, b.role, SpaceOf(root, v))
    requires forall n | n in b.t.nodes :: n in a.t.nodes || OnPath(root, v, n)
    ensures NodesMove(a.t, b.t, root, Shared({v}))
  {
    hide LeadsInto;
    hide OnPath;
    forall n | n in b.t.nodes && n.space != root && n !in a.t.nodes
      ensures LeadsInto(n, Shared({v}))
    {
      NewNode(root, v, n);
    }
  }

  lemma MapPages(a: Snap, b: Snap, root: nat, v: nat, e: Mapping)
    requires var k := (SpaceOf(root, v), v);
      || (b.t.pages == a.t.pages[k := e] && e.pa in a.role && Mine(root, a.role[e.pa]))
      || b.t.pages == a.t.pages - {k}
    ensures PagesMove(a, b, root, Shared({v}))
  {}

  /** A fresh root. */
  lemma RootConfined(a: Snap, b: Snap, root: nat)
    requires Grew(a.m, b.m, a.t, b.t, a.role, b.role, root) && b.t.pages == a.t.pages
    ensures Confined(a, b, root, {})
  {}

  lemma RoleConfined(a: Snap, role: map<nat, Role>, f: nat, root: nat)
    requires a.role.Keys == a.m.Keys && f in a.role && Mine(root, a.role[f])
    requires role == a.role[f := Page(root)] || role == a.role[f := Free]
    ensures Confined(a, a.(role := role), root, {})
  {}

  lemma DataConfined(a: Snap, m: Memory, f: nat, root: nat)
    requires a.role.Keys == a.m.Keys == m.Keys && f in a.role && Mine(root, a.role[f])
    requires forall g | g in m && g != f :: m[g] == a.m[g]
    ensures Confined(a, a.(m := m), root, {})
  {}

  lemma FreedLeft(a: Snap, b: Snap, root: nat)
    requires a.role.Keys == a.m.Keys == b.m.Keys
    requires b.t == Without(a.t, root) && b.role == Reclaimed(a.role, root)
    requires forall f | f in a.role && a.role[f].Page? :: b.m[f] == a.m[f]
    ensures Left(a, b, root, {})
  {}

  // ---------------------------------------------------------------- owned frames

  /** The frames of a list of (va, frame) pairs. */
  function FramesOf(owned: seq<(nat, nat)>): set<nat> {
    set p | p in owned :: p.1
  }

  ghost predicate Distinct(owned: seq<(nat, nat)>) {
    owned == [] || (owned[0].1 !in FramesOf(owned[1..]) && Distinct(owned[1..]))
  }

  lemma {:induction false} DistinctAppend(owned: seq<(nat, nat)>, p: (nat, nat))
    requires Distinct(owned) && p.1 !in FramesOf(owned)
    ensures Distinct(owned + [p]) && FramesOf(owned + [p]) == FramesOf(owned) + {p.1}
  {
    if owned != [] {
      var rest := owned[1..];
      assert owned[0] in owned && forall q | q in rest :: q in owned;
      DistinctAppend(rest, p);
      assert (owned + [p])[1..] == rest + [p];
    }
  }

  /** The pages of a list of (va, frame) pairs. */
  function PagesOf(owned: seq<(nat, nat)>): set<nat> {
    set p | p in owned :: PageOf(p.0)
  }

  /** A page address that can be mapped: its page lies above the identity-mapped RAM. */
  predicate UserVa(va: nat) {
    va % 4096 == 0 && PageOf(va) >= 0x4_8000
  }

  /** Shared and private pages keep apart, as the tables do. */
  ghost predicate Placed(pages: map<(nat, nat), Mapping>) {
    forall k | k in pages :: k.0 == 0 <==> k.1 < SHARED_PAGES
  }

  lemma PagesPlaced(t: Tables)
    requires Trees(t)
    ensures Placed(t.pages)
  {
    forall k | k in t.pages
      ensures k.0 == 0 <==> k.1 < SHARED_PAGES
    {
      assert Attached(t, Node(k.0, 3, k.1 / 512));
    }
  }

  /** The frames `root` holds are those listed in `owned`, and a page shows one only where the list says. */
  ghost predicate OwnedOk(role: map<nat, Role>, pages: map<(nat, nat), Mapping>, root: nat, owned: seq<(nat, nat)>) {
    && Distinct(owned)
    && (forall p | p in owned :: UserVa(p.0))
    && (forall f | f in FramesOf(owned) :: f in role && role[f] == Page(root))
    && (forall f | f in role && role[f] == Page(root) :: f in FramesOf(owned))
    && (forall k, p | k in pages && p in owned && pages[k].pa == p.1 :: k.1 == PageOf(p.0))
  }

  /** A new page joins the list when it is mapped. */
  lemma OwnedGrows(role: map<nat, Role>, role': map<nat, Role>, pages: map<(nat, nat), Mapping>, root: nat,
                   owned: seq<(nat, nat)>, s: nat, va: nat, f: nat, flags: nat)
    requires OwnedOk(role, pages, root, owned) && f in role && role[f].Free? && role.Keys == role'.Keys
      && Held(pages, role)
    requires role'[f] == Page(root) && UserVa(va)
    requires forall g | g in role && g != f :: role'[g] == role[g] || (role[g].Free? && role'[g].Table?)
    ensures OwnedOk(role', pages[(s, PageOf(va)) := Mapping(f, flags)], root, owned + [(va, f)])
  {
    hide PageOf;
    assert f !in FramesOf(owned);
    DistinctAppend(owned, (va, f));
    var owned', pages' := owned + [(va, f)], pages[(s, PageOf(va)) := Mapping(f, flags)];
    forall k | k in pages
      ensures pages[k].pa != f
    {
      assert MayShow(k.0, role[pages[k].pa]);
    }
    forall k, p | k in pages' && p in owned' && pages'[k].pa == p.1
      ensures k.1 == PageOf(p.0)
    {
      if p in owned { assert p.1 in FramesOf(owned); }
    }
  }

  /** Page `v` of `root` is one key of the page map. */
  lemma OnePlace(k: (nat, nat), root: nat, v: nat)
    requires MayShow(k.0, Page(root)) && (k.0 == 0 <==> k.1 < SHARED_PAGES)
    ensures k.1 == v ==> k == (SpaceOf(root, v), v)
  {}

  /** Unmapping the first owned page leaves nothing that maps its frame. */
  lemma OwnedShrinks(role: map<nat, Role>, pages: map<(nat, nat), Mapping>, root: nat, owned: seq<(nat, nat)>, v: nat)
    requires OwnedOk(role, pages, root, owned) && owned != [] && PageOf(owned[0].0) == v
    requires Held(pages, role) && Placed(pages)
    ensures var f, k0 := owned[0].1, (SpaceOf(root, v), v);
            && f in role && role[f] == Page(root)
            && (forall k | k in pages - {k0} :: pages[k].pa != f)
            && OwnedOk(role[f := Free], pages - {k0}, root, owned[1..])
  {
    hide PageOf;
    var f, rest, pages' := owned[0].1, owned[1..], pages - {(SpaceOf(root, v), v)};
    assert owned[0] in owned;
    assert forall q | q in owned :: q == owned[0] || q in rest;
    assert FramesOf(owned) == {f} + FramesOf(rest);
    forall k | k in pages'
      ensures pages[k].pa != f
    {
      assert MayShow(k.0, role[pages[k].pa]);
      if pages[k].pa == f { OnePlace(k, root, v); }
    }
  }

  // ---------------------------------------------------------------- which L0 slots are in use

  /** The L0 slots of the owned pages. */
  function SlotsOf(owned: seq<(nat, nat)>): set<nat> {
    set p | p in owned :: PageOf(p.0) / 0x800_0000
  }

  /** The private tables of `root` hang under exactly the slots its owned pages lie in, and the
      shared tables to its shared pages are there. */
  ghost predicate SlotsMatch(t: Tables, root: nat, owned: seq<(nat, nat)>) {
    && (forall n | n in t.nodes && n.space == root && n.level > 0 :: Slot(n) in SlotsOf(owned))
    && (forall s | s in SlotsOf(owned) && s != 0 :: Node(root, 1, s) in t.nodes)
    && Built(t, Shared(PagesOf(owned)))
  }

  lemma PathSlot(root: nat, v: nat, n: Node)
    requires OnPath(root, v, n)
    ensures Slot(n) == v / 0x800_0000 && n.level > 0
  {}

  lemma SlotsMore(owned: seq<(nat, nat)>, va: nat, f: nat)
    ensures SlotsOf(owned + [(va, f)]) == SlotsOf(owned) + {PageOf(va) / 0x800_0000}
    ensures PagesOf(owned + [(va, f)]) == PagesOf(owned) + {PageOf(va)}
  {
    var p := (va, f);
    assert p in owned + [p];
    assert forall q | q in owned :: q in owned + [p];
  }

  /** Mapping a page adds its slot and no other. */
  lemma SlotsGrow(t: Tables, t': Tables, root: nat, owned: seq<(nat, nat)>, va: nat, f: nat)
    requires SlotsMatch(t, root, owned) && root != 0
    requires forall n | n in t.nodes :: n in t'.nodes
    requires forall n | n in t'.nodes :: n in t.nodes || OnPath(root, PageOf(va), n)
    requires forall level | 1 <= level <= 3 :: Path(root, PageOf(va), level) in t'.nodes
    ensures SlotsMatch(t', root, owned + [(va, f)])
  {
    hide SlotsOf;
    hide PagesOf;
    hide PageOf;
    var v := PageOf(va);
    SlotsMore(owned, va, f);
    assert Path(root, v, 1) in t'.nodes && Path(root, v, 2) in t'.nodes && Path(root, v, 3) in t'.nodes;
    forall n | n in t'.nodes && n.space == root && n.level > 0
      ensures Slot(n) in SlotsOf(owned + [(va, f)])
    {
      if n !in t.nodes { PathSlot(root, v, n); }
    }
  }

  /** Taking a frame, filling it and mapping it in `root`. */
  lemma NewPageStep(a: Snap, b: Snap, c: Snap, free: seq<nat>, d: Snap, free': seq<nat>, root: nat,
                    owned: seq<(nat, nat)>, va: nat, f: nat, flags: nat)
    requires OwnedOk(a.role, a.t.pages, root, owned) && root != 0 && Held(a.t.pages, a.role)
    requires a.role.Keys == a.m.Keys && f in a.role && a.role[f].Free?
    requires b == a.(role := a.role[f := Page(root)])
    requires c == b.(m := c.m) && c.m.Keys == a.m.Keys && forall g | g in a.m && g != f :: c.m[g] == a.m[g]
    requires PoolOk(c.m, free, c.t, c.role) && PoolOk(d.m, free', d.t, d.role)
    requires Grew(c.m, d.m, c.t, d.t, c.role, d.role, SpaceOf(root, PageOf(va)))
    requires d.t.pages == c.t.pages[(SpaceOf(root, PageOf(va)), PageOf(va)) := Mapping(f, flags)]
    requires SlotsMatch(a.t, root, owned) && UserVa(va)
    requires forall level | 1 <= level <= 3 :: Path(root, PageOf(va), level) in d.t.nodes
    requires forall n | n in d.t.nodes :: n in c.t.nodes || OnPath(root, PageOf(va), n)
    ensures Confined(a, d, root, Shared({PageOf(va)})) && OwnedOk(d.role, d.t.pages, root, owned + [(va, f)])
    ensures SlotsMatch(d.t, root, owned + [(va, f)])
  {
    hide PoolOk;
    hide Changes;
    hide OwnedOk;
    hide SlotsMatch;
    hide Path;
    hide OnPath;
    hide PageOf;
    var v := PageOf(va);
    RoleConfined(a, b.role, f, root);
    DataConfined(b, c.m, f, root);
    MapConfined(c, free, d, free', root, v, Mapping(f, flags));
    ConfinedTrans(a, b, c, root, {}, {}, {});
    ConfinedTrans(a, c, d, root, {}, Shared({v}), Shared({v}));
    GrewKeeps(c.m, d.m, c.t, d.t, c.role, d.role, SpaceOf(root, v));
    SlotsGrow(a.t, d.t, root, owned, va, f);
    OwnedGrows(a.role, d.role, a.t.pages, root, owned, SpaceOf(root, v), va, f, flags);
  }
}
