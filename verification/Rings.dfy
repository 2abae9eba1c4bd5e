/**
 The shared ring page (abi/src/lib.rs) and the traffic over it: the client's stores
 (user/src/uring.rs) interleaved one by one with the kernel's side (kernel/src/ring.rs).

 Single core, so stores are seen in program order; the store of a tail is the publish step.
 */
module Rings {
  import opened Bits

  const ENTRIES: nat := 16

  /** A free-running u32 index. */
  type Index = i: nat | i < 0x1_0000_0000

  datatype Sqe = Sqe(op: Word, arg0: Word, arg1: Word, tag: Word)

  datatype Cqe = Cqe(tag: Word, result: int)

  datatype Page = Page(
    sqHead: Index, sqTail: Index, cqHead: Index, cqTail: Index, flags: Index,
    sq: seq<Sqe>, cq: seq<Cqe>)

  predicate PageOk(p: Page) {
    |p.sq| == 16 && |p.cq| == 16
  }

  /** The zeroed frame that `setup` maps. */
  function ZeroPage(): (p: Page)
    ensures PageOk(p)
  {
    Page(0, 0, 0, 0, 0, seq(16, _ => Sqe(0, 0, 0, 0)), seq(16, _ => Cqe(0, 0)))
  }

  /** `wrapping_sub`. */
  function Sub(a: Index, b: Index): (d: Index) {
    if a >= b then a - b else a + TWO32 - b
  }

  /** `wrapping_add(1)`. */
  function Inc(a: Index): (r: Index) {
    if a == TWO32 - 1 then 0 else a + 1
  }

  /** `index & RING_MASK`. */
  function Slot(i: Index): (s: nat)
    ensures s == i % 16
  {
    AndFifteen(i);
    And(i, 15)
  }

  function U32(n: nat): (i: Index) {
    n % 0x1_0000_0000
  }

  /** Free-running counters behave as if they never wrapped: distance, step and slot. */
  lemma Wrap(a: nat, b: nat)
    requires b <= a < b + TWO32
    ensures Sub(U32(a), U32(b)) == a - b
    ensures Inc(U32(a)) == U32(a + 1)
    ensures Slot(U32(a)) == a % 16
    ensures U32(a) == U32(b) <==> a == b
  {
    hide Slot;
  }

  // ---------------------------------------------------------------- kernel side

  /** `complete`: whether there was room, and the page afterwards. */
  predicate CqFull(p: Page) {
    Sub(p.cqTail, p.cqHead) >= ENTRIES
  }

  function Post(p: Page, c: Cqe): (r: Page)
    requires PageOk(p)
    ensures PageOk(r) && r.sq == p.sq && r.sqHead == p.sqHead && r.sqTail == p.sqTail
    ensures r.cqHead == p.cqHead && r.flags == p.flags
  {
    if CqFull(p) then p
    else p.(cq := p.cq[Slot(p.cqTail) := c], cqTail := Inc(p.cqTail))
  }

  predicate Empty(p: Page) {
    p.sqHead == p.sqTail
  }

  function Unreaped(p: Page): Index {
    Sub(p.cqTail, p.cqHead)
  }

  function NextSqe(p: Page): Sqe
    requires PageOk(p)
  {
    p.sq[Slot(p.sqHead)]
  }

  function Took(p: Page): (r: Page)
    requires PageOk(p)
    ensures PageOk(r)
  {
    p.(sqHead := Inc(p.sqHead))
  }

  // ---------------------------------------------------------------- both sides

  /** Where the client is between two stores: writing an entry with k of its four fields
      stored, or reading a completion whose tag, or tag and result, it has loaded. */
  datatype At = Idle | Writing(e: Sqe, k: nat) | TagRead(tag: Word) | Read(c: Cqe)

  /** The page with everything that ever passed over it. */
  datatype Wire = Wire(
    page: Page, at: At,
    published: seq<Sqe>, consumed: seq<Sqe>, posted: seq<Cqe>, reaped: seq<Cqe>)

  /** The first k fields of the draft are in its slot. */
  predicate Drafted(e: Sqe, k: nat, s: Sqe) {
    && k <= 4
    && (k >= 1 ==> s.op == e.op)
    && (k >= 2 ==> s.arg0 == e.arg0)
    && (k >= 3 ==> s.arg1 == e.arg1)
    && (k >= 4 ==> s.tag == e.tag)
  }

  /** The entries of a ring that hold items lo, lo + 1, ... of a log. */
  predicate Holds<T(==)>(cells: seq<T>, log: seq<T>, lo: nat) {
    |cells| == 16 && lo <= |log| <= lo + 16 && forall i | lo <= i < |log| :: cells[i % 16] == log[i]
  }

  /** Both rings are bounded FIFO queues: the kernel has consumed a prefix of what the client
      published and the rest sits in the ring unharmed; same for completions. */
  ghost predicate WireOk(w: Wire) {
    && PageOk(w.page)
    && w.consumed <= w.published
    && w.page.sqHead == U32(|w.consumed|) && w.page.sqTail == U32(|w.published|)
    && Holds(w.page.sq, w.published, |w.consumed|)
    && w.reaped <= w.posted
    && w.page.cqHead == U32(|w.reaped|) && w.page.cqTail == U32(|w.posted|)
    && Holds(w.page.cq, w.posted, |w.reaped|)
    && (w.at.Writing? ==>
          |w.published| < |w.consumed| + 16 && Drafted(w.at.e, w.at.k, w.page.sq[|w.published| % 16]))
    && (w.at.TagRead? ==> |w.reaped| < |w.posted| && w.posted[|w.reaped|].tag == w.at.tag)
    && (w.at.Read? ==> |w.reaped| < |w.posted| && w.posted[|w.reaped|] == w.at.c)
  }

  /** One load or store of the client, or one entry's worth of work of the kernel. */
  datatype Event =
    | Begin(e: Sqe)      // sqe() is called
    | StoreField         // the next of the four field stores
    | Publish            // the store of sq_tail
    | LoadTag            // reap() saw head != tail and loads user_data
    | LoadResult         // ... and result
    | StoreHead          // the store of cq_head
    | Take               // drain consumes one entry
    | Deposit(c: Cqe)    // complete() posts or drops

  /** The program order of the client, and the one rule it has to keep: it starts an entry
      only with fewer than 16 unconsumed. */
  predicate Enabled(w: Wire, v: Event) {
    && PageOk(w.page)
    && match v
       case Begin(_) => w.at.Idle? && Sub(w.page.sqTail, w.page.sqHead) < ENTRIES
       case StoreField => w.at.Writing? && w.at.k < 4
       case Publish => w.at.Writing? && w.at.k == 4
       case LoadTag => w.at.Idle? && w.page.cqHead != w.page.cqTail
       case LoadResult => w.at.TagRead?
       case StoreHead => w.at.Read?
       case Take => !Empty(w.page)
       case Deposit(_) => true
  }

  function WithField(s: Sqe, e: Sqe, k: nat): Sqe {
    match k
    case 0 => s.(op := e.op)
    case 1 => s.(arg0 := e.arg0)
    case 2 => s.(arg1 := e.arg1)
    case _ => s.(tag := e.tag)
  }

  function Happen(w: Wire, v: Event): Wire
    requires Enabled(w, v)
  {
    var p := w.page;
    match v
    case Begin(e) => w.(at := Writing(e, 0))
    case StoreField =>
      var i := Slot(p.sqTail);
      w.(page := p.(sq := p.sq[i := WithField(p.sq[i], w.at.e, w.at.k)]), at := Writing(w.at.e, w.at.k + 1))
    case Publish =>
      w.(page := p.(sqTail := Inc(p.sqTail)), at := Idle, published := w.published + [w.at.e])
    case LoadTag => w.(at := TagRead(p.cq[Slot(p.cqHead)].tag))
    case LoadResult => w.(at := Read(Cqe(w.at.tag, p.cq[Slot(p.cqHead)].result)))
    case StoreHead =>
      w.(page := p.(cqHead := Inc(p.cqHead)), at := Idle, reaped := w.reaped + [w.at.c])
    case Take => w.(page := Took(p), consumed := w.consumed + [NextSqe(p)])
    case Deposit(c) =>
      w.(page := Post(p, c), posted := if CqFull(p) then w.posted else w.posted + [c])
  }

  lemma Distinct16(i: nat, j: nat)
    requires i < j < i + 16
    ensures i % 16 != j % 16
  {
  }

  lemma HoldsPut<T>(cells: seq<T>, log: seq<T>, lo: nat, x: T)
    requires Holds(cells, log, lo) && |log| < lo + 16
    ensures Holds(cells[|log| % 16 := x], log + [x], lo)
    ensures Holds(cells[|log| % 16 := x], log, lo)
  {
    forall i | lo <= i < |log| ensures i % 16 != |log| % 16 {
      Distinct16(i, |log|);
    }
  }

  lemma SqFacts(w: Wire)
    requires WireOk(w)
    ensures Sub(w.page.sqTail, w.page.sqHead) == |w.published| - |w.consumed|
    ensures Inc(w.page.sqTail) == U32(|w.published| + 1) && Inc(w.page.sqHead) == U32(|w.consumed| + 1)
    ensures Slot(w.page.sqTail) == |w.published| % 16 && Slot(w.page.sqHead) == |w.consumed| % 16
    ensures Empty(w.page) <==> w.consumed == w.published
  {
    hide Slot;
    Wrap(|w.published|, |w.consumed|);
    Wrap(|w.consumed|, |w.consumed|);
  }

  lemma CqFacts(w: Wire)
    requires WireOk(w)
    ensures Unreaped(w.page) == |w.posted| - |w.reaped|
    ensures Inc(w.page.cqTail) == U32(|w.posted| + 1) && Inc(w.page.cqHead) == U32(|w.reaped| + 1)
    ensures Slot(w.page.cqTail) == |w.posted| % 16 && Slot(w.page.cqHead) == |w.reaped| % 16
    ensures w.page.cqHead == w.page.cqTail <==> w.reaped == w.posted
  {
    hide Slot;
    Wrap(|w.posted|, |w.reaped|);
    Wrap(|w.reaped|, |w.reaped|);
  }

  lemma StoreKeepsFifo(w: Wire)
    requires WireOk(w) && Enabled(w, StoreField)
    ensures WireOk(Happen(w, StoreField))
  {
    hide Slot;
    hide Sub;
    hide Inc;
    SqFacts(w);
    var i := |w.published| % 16;
    HoldsPut(w.page.sq, w.published, |w.consumed|, WithField(w.page.sq[i], w.at.e, w.at.k));
  }

  lemma PublishKeepsFifo(w: Wire)
    requires WireOk(w) && Enabled(w, Publish)
    ensures WireOk(Happen(w, Publish))
  {
    hide Slot;
    hide Sub;
    SqFacts(w);
    assert w.page.sq[|w.published| % 16] == w.at.e;
  }

  lemma DepositKeepsFifo(w: Wire, c: Cqe)
    requires WireOk(w) && Enabled(w, Deposit(c))
    ensures WireOk(Happen(w, Deposit(c)))
  {
    hide Slot;
    hide Sub;
    CqFacts(w);
    if !CqFull(w.page) {
      HoldsPut(w.page.cq, w.posted, |w.reaped|, c);
    }
  }

  /** Every step of either side keeps both rings FIFO, across wrap-around of the indices. */
  lemma StepKeepsFifo(w: Wire, v: Event)
    requires WireOk(w) && Enabled(w, v)
    ensures WireOk(Happen(w, v))
  {
    match v
    case StoreField => StoreKeepsFifo(w);
    case Publish => PublishKeepsFifo(w);
    case Deposit(c) => DepositKeepsFifo(w, c);
    case _ =>
      hide Slot;
      hide Sub;
      hide Inc;
      SqFacts(w);
      CqFacts(w);
  }

  /** What the kernel takes is the oldest published entry it has not taken, whole. */
  lemma TakesOldest(w: Wire)
    requires WireOk(w) && !Empty(w.page)
    ensures |w.consumed| < |w.published| && NextSqe(w.page) == w.published[|w.consumed|]
  {
    hide Slot;
    SqFacts(w);
  }

  /** A completion is dropped exactly when 16 are unreaped; otherwise it joins the queue
      and no unreaped one is touched. */
  lemma DropsWhenFull(w: Wire, c: Cqe)
    requires WireOk(w)
    ensures CqFull(w.page) <==> |w.posted| == |w.reaped| + 16
    ensures Happen(w, Deposit(c)).posted == if CqFull(w.page) then w.posted else w.posted + [c]
    ensures Holds(Happen(w, Deposit(c)).page.cq, Happen(w, Deposit(c)).posted, |w.reaped|)
  {
    CqFacts(w);
    StepKeepsFifo(w, Deposit(c));
  }

  ghost predicate Possible(w: Wire, vs: seq<Event>)
    decreases |vs|
  {
    |vs| > 0 ==> Enabled(w, vs[0]) && Possible(Happen(w, vs[0]), vs[1..])
  }

  ghost function Later(w: Wire, vs: seq<Event>): Wire
    requires Possible(w, vs)
    decreases |vs|
  {
    if vs == [] then w else Later(Happen(w, vs[0]), vs[1..])
  }

  function Fresh(): Wire {
    Wire(ZeroPage(), Idle, [], [], [], [])
  }

  lemma FreshOk()
    ensures WireOk(Fresh())
  {
  }

  lemma {:induction false} RunKeepsFifo(w: Wire, vs: seq<Event>)
    requires WireOk(w) && Possible(w, vs)
    ensures WireOk(Later(w, vs))
    decreases |vs|
  {
    if vs != [] {
      StepKeepsFifo(w, vs[0]);
      RunKeepsFifo(Happen(w, vs[0]), vs[1..]);
    }
  }

  /** Over every interleaving from a fresh page: what was consumed is a prefix of what was
      published, what was reaped a prefix of what was posted, and never more than 16 between. */
  lemma AllRunsFifo(vs: seq<Event>)
    requires Possible(Fresh(), vs)
    ensures var w := Later(Fresh(), vs);
      && w.consumed <= w.published && |w.published| <= |w.consumed| + 16
      && w.reaped <= w.posted && |w.posted| <= |w.reaped| + 16
  {
    FreshOk();
    RunKeepsFifo(Fresh(), vs);
  }

  /** The client's rule is needed: with 16 unconsumed, the next entry's first store hits the
      oldest one, whatever the state. */
  lemma OverrunClobbers(w: Wire, e: Sqe)
    requires WireOk(w) && w.at.Idle? && |w.published| == |w.consumed| + 16
    requires e.op != w.published[|w.consumed|].op
    ensures var broken := Happen(w.(at := Writing(e, 0)), StoreField);
      NextSqe(broken.page) != w.published[|w.consumed|] && !WireOk(broken)
  {
    hide Slot;
    hide Sub;
    hide Inc;
    SqFacts(w);
    SameSlot(|w.consumed|);
    var broken := Happen(w.(at := Writing(e, 0)), StoreField);
    assert broken.page.sq[|w.consumed| % 16].op == e.op;
  }

  lemma SameSlot(n: nat)
    ensures (n + 16) % 16 == n % 16
  {}
}
