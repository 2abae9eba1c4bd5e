/**
 Console input is ordered; whether it is lossless, and whether it can wait beside a parked read of
 the foreground process, is up to the gate (kernel/src/input.rs, kernel/src/ring.rs).
 */
module Consoles {
  import opened Bits
  import opened Frames
  import opened Loader
  import opened Gate
  import opened Rings
  import opened Kernel
  import opened Draining
  import opened Steps
  import opened Layouts
  import Input

  function Bytes(given: seq<Delivery>): (r: seq<Byte>)
    ensures |r| == |given|
  {
    seq(|given|, i requires 0 <= i < |given| => given[i].byte)
  }

  /** Every byte taken from the UART was taken out of the buffer or is still in it, in order;
      reception is masked exactly when the buffer is full. */
  ghost predicate InOrder(con: Console) {
    && con.popped + con.input == con.taken
    && |con.input| <= Input.CAPACITY
    && (con.rxOn <==> |con.input| < Input.CAPACITY)
  }

  /** Every byte stored for a read was let through the gate, for process 0 and in its own space. */
  ghost predicate Gated(given: seq<Delivery>, root: nat, ranges: seq<Range>) {
    forall i | 0 <= i < |given| :: given[i].pid == 0 && given[i].root == root && Accepts(ranges, given[i].addr, 1, true)
  }

  /** Whatever other processes do, a store the gate accepts lands: it goes to a page of the process's
      own window, and that page is not overlaid by a read-only range. */
  predicate Steady(ranges: seq<Range>, a: nat) {
    a < TWO48 && a / 4096 >= WINDOW && PageWritable(ranges, true, a / 4096)
  }

  ghost predicate AllLand(ranges: seq<Range>) {
    forall a: nat | Accepts(ranges, a, 1, true) :: Steady(ranges, a)
  }

  /** And every byte taken out was stored for a read, if the gate lets the keyboard's process have
      each of the first 255 bytes of every range it accepts and all of these stores land. */
  ghost predicate Lossless(con: Console, root: nat, ranges: seq<Range>) {
    && InOrder(con) && Gated(con.given, root, ranges)
    && (AllLand(ranges) ==> !con.halted)
    && (AllLand(ranges) && ByteSafe(ranges, Input.CAPACITY) ==> Bytes(con.given) == con.popped)
  }

  /** The ranges of process 0, the only one that can have the keyboard. */
  function Keyboard(procs: seq<Proc>): seq<Range> {
    if procs == [] then [] else procs[0].ranges
  }

  function Home(procs: seq<Proc>): nat {
    if procs == [] then 0 else procs[0].root
  }

  /** A parked read was checked, is not empty, and has its request on record. */
  ghost predicate ReadOk(q: Proc, l: Log, j: nat)
    requires j < |q.pending| && j < |l.slots|
  {
    q.pending[j].Some? ==>
      && q.pending[j].value.len > 0 && Accepts(q.ranges, q.pending[j].value.buf, q.pending[j].value.len, true)
      && l.slots[j] < |l.fate|
  }

  ghost predicate ReadsOk(q: Proc, l: Log) {
    && |q.pending| == 8 && |l.slots| == 8
    && forall j | 0 <= j < 8 :: ReadOk(q, l, j)
  }

  /** If a foreground read waits, there is nothing to give it; for this the gate need only let the
      process have the first byte of every range it accepts. */
  ghost predicate Satisfied(q: Proc, con: Console) {
    ByteSafe(q.ranges, 1) && !con.halted ==>
      forall j | 0 <= j < |q.pending| && q.foreground && q.pending[j].Some? :: con.input == []
  }

  ghost predicate ConsoleOk(s: State) {
    && Lossless(s.console, Home(s.procs), Keyboard(s.procs))
    && |s.logs| == |s.procs|
    && (forall p | 0 <= p < |s.procs| :: ReadsOk(s.procs[p], s.logs[p]))
    && (forall p | 0 <= p < |s.procs| :: Satisfied(s.procs[p], s.console))
  }

  // ---------------------------------------------------------------- delivery

  /** How many bytes a delivery took out of the buffer and did not store. */
  function Lost(con: Console, r: Console, moved: int): int {
    |con.input| - |r.input| - moved
  }

  /** Byte `c` of the read is taken. */
  predicate TakenAt(m: Target, buf: nat, c: nat) {
    Takes(m, buf + c)
  }

  lemma OneMore(popped: seq<Byte>, input: seq<Byte>, k: nat)
    requires k < |input|
    ensures popped + [input[0]] + input[1..][..k] == popped + input[..k + 1]
    ensures input[1..][k..] == input[k + 1..]
  {
  }

  /** A delivery takes bytes out from the front of the buffer. */
  lemma {:induction false} DeliverPops(con: Console, m: Target, p: nat, id: nat, buf: nat, len: nat, count: nat)
    requires count <= len
    ensures var r := Deliver(con, m, p, id, buf, len, count).0;
      var k := |con.input| - |r.input|;
      0 <= k && r.input == con.input[k..] && r.popped == con.popped + con.input[..k]
    decreases len - count
  {
    hide Accepts;
    hide Lands;
    hide Deliver;
    DeliverOne(con, m, p, id, buf, len, count);
    if count < len && con.input != [] && !con.halted {
      var r := Deliver(con, m, p, id, buf, len, count).0;
      if Takes(m, buf + count) {
        DeliverPops(Landed(con, m, p, id, buf + count), m, p, id, buf, len, count + 1);
      }
      OneMore(con.popped, con.input, |con.input| - 1 - |r.input|);
    }
  }

  /** It takes out one more than it stores if it stops before the read is full or the buffer empty,
      and otherwise as many. */
  lemma {:induction false} DeliverCounts(con: Console, m: Target, p: nat, id: nat, buf: nat, len: nat, count: nat)
    requires count <= len && !con.halted
    ensures var (r, n) := Deliver(con, m, p, id, buf, len, count);
      && count <= n <= len
      && Lost(con, r, n - count) == (if n < len && n - count < |con.input| then 1 else 0)
    decreases len - count
  {
    hide Accepts;
    hide Lands;
    hide Deliver;
    DeliverOne(con, m, p, id, buf, len, count);
    if count < len && con.input != [] && Takes(m, buf + count) {
      DeliverCounts(Landed(con, m, p, id, buf + count), m, p, id, buf, len, count + 1);
    }
  }

  lemma DeliverTakes(con: Console, m: Target, p: nat, id: nat, buf: nat, len: nat, count: nat)
    requires count <= len && !con.halted
    ensures var (r, n) := Deliver(con, m, p, id, buf, len, count);
      var lost := Lost(con, r, n - count);
      && count <= n <= len && n - count + lost <= |con.input|
      && lost == (if n < len && n - count < |con.input| then 1 else 0)
      && r.input == con.input[n - count + lost..] && r.popped == con.popped + con.input[..n - count + lost]
  {
    hide Deliver;
    DeliverCounts(con, m, p, id, buf, len, count);
    DeliverPops(con, m, p, id, buf, len, count);
  }

  /** It stops there exactly because the next byte is not taken; that byte, and only that byte, is
      lost.  If the gate had accepted it, its store faulted and the machine stops. */
  lemma {:induction false} DeliverStops(con: Console, m: Target, p: nat, id: nat, buf: nat, len: nat, count: nat)
    requires count <= len && !con.halted
    ensures var (r, n) := Deliver(con, m, p, id, buf, len, count);
      var short := n < len && n - count < |con.input|;
      && (short ==> !TakenAt(m, buf, n)) && (forall c | count <= c < n :: TakenAt(m, buf, c))
      && (r.halted <==> short && ByteAccepted(m.ranges, buf, n))
    decreases len - count
  {
    hide Accepts;
    hide Lands;
    if count < len && con.input != [] && TakenAt(m, buf, count) {
      DeliverStops(Landed(con, m, p, id, buf + count), m, p, id, buf, len, count + 1);
    }
  }

  /** Taking bytes out keeps the order and the mask right. */
  lemma {:induction false} DeliverOrder(con: Console, m: Target, p: nat, id: nat, buf: nat, len: nat, count: nat)
    requires count <= len && InOrder(con)
    ensures InOrder(Deliver(con, m, p, id, buf, len, count).0)
    decreases len - count
  {
    hide Accepts;
    hide Lands;
    if count < len && con.input != [] && !con.halted {
      assert con.popped + con.input == Popped(con).popped + Popped(con).input;
      if Takes(m, buf + count) {
        DeliverOrder(Landed(con, m, p, id, buf + count), m, p, id, buf, len, count + 1);
      }
    }
  }

  /** It stores them at consecutive addresses of the read, in the space of the live root. */
  lemma {:induction false} DeliverStores(con: Console, m: Target, p: nat, id: nat, buf: nat, len: nat, count: nat)
    requires count <= len
    ensures var (r, n) := Deliver(con, m, p, id, buf, len, count);
      && count <= n && n - count <= |con.input| && con.given <= r.given && |r.given| == |con.given| + n - count
      && (forall i | |con.given| <= i < |r.given| ::
            r.given[i] == Delivery(p, id, m.root, buf + count + i - |con.given|, con.input[i - |con.given|]))
    decreases len - count
  {
    hide Accepts;
    hide Lands;
    if count < len && con.input != [] && !con.halted && Takes(m, buf + count) {
      DeliverStores(Landed(con, m, p, id, buf + count), m, p, id, buf, len, count + 1);
    }
  }

  lemma DeliverMoves(con: Console, m: Target, p: nat, id: nat, buf: nat, len: nat)
    requires InOrder(con) && !con.halted
    ensures var (r, n) := Deliver(con, m, p, id, buf, len, 0);
      var lost := Lost(con, r, n);
      && InOrder(r) && n <= len && n + lost <= |con.input|
      && lost == (if n < len && n < |con.input| then 1 else 0)
      && r.input == con.input[n + lost..] && r.popped == con.popped + con.input[..n + lost]
      && (lost == 1 ==> !TakenAt(m, buf, n)) && (forall c | 0 <= c < n :: TakenAt(m, buf, c))
      && (r.halted <==> lost == 1 && ByteAccepted(m.ranges, buf, n))
      && con.given <= r.given && |r.given| == |con.given| + n
      && (forall i | |con.given| <= i < |r.given| ::
            r.given[i] == Delivery(p, id, m.root, buf + i - |con.given|, con.input[i - |con.given|]))
  {
    hide Accepts;
    hide Lands;
    hide Deliver;
    hide InOrder;
    DeliverOrder(con, m, p, id, buf, len, 0);
    DeliverTakes(con, m, p, id, buf, len, 0);
    DeliverStops(con, m, p, id, buf, len, 0);
    DeliverStores(con, m, p, id, buf, len, 0);
  }

  /** A byte is lost if and only if one that the read and the buffer reach is not taken. */
  lemma DeliverLoses(con: Console, m: Target, p: nat, id: nat, buf: nat, len: nat)
    requires InOrder(con) && !con.halted
    ensures var (r, n) := Deliver(con, m, p, id, buf, len, 0);
      Lost(con, r, n) == 1 <==> exists c :: 0 <= c < len && c < |con.input| && !TakenAt(m, buf, c)
  {
    hide Accepts;
    hide Lands;
    DeliverMoves(con, m, p, id, buf, len);
  }

  lemma BytesMore(given: seq<Delivery>, more: seq<Delivery>)
    ensures Bytes(given + more) == Bytes(given) + Bytes(more)
  {
  }

  /** Nothing is delivered once the machine has stopped. */
  lemma DeliverHalted(con: Console, m: Target, p: nat, id: nat, buf: nat, len: nat)
    requires con.halted
    ensures Deliver(con, m, p, id, buf, len, 0) == (con, 0)
  {}

  /** The stores go to the process itself: the live root is its own and its ring is set up. */
  ghost predicate AtHome(m: Target, root: nat, ranges: seq<Range>) {
    m.root == root && m.ranges == ranges && m.image == Some(ranges) && m.ring
  }

  lemma SteadyTakes(m: Target, root: nat, ranges: seq<Range>, a: nat)
    requires AtHome(m, root, ranges) && AllLand(ranges) && Accepts(ranges, a, 1, true)
    ensures Takes(m, a)
  {
    hide Accepts;
    assert Steady(ranges, a);
  }

  /** For an accepted read of process 0 nothing is lost, and a byte that waits is given, as far as the
      gate takes the single bytes of what it accepts and their stores land. */
  lemma DeliverSafe(con: Console, m: Target, root: nat, ranges: seq<Range>, id: nat, buf: nat, len: nat)
    requires Lossless(con, root, ranges) && Accepts(ranges, buf, len, true) && AtHome(m, root, ranges)
    ensures var (r, n) := Deliver(con, m, 0, id, buf, len, 0);
      && Lossless(r, root, ranges)
      && (ByteSafe(ranges, 1) && len > 0 && n == 0 && !r.halted ==> r.input == [])
  {
    hide Accepts;
    hide Deliver;
    hide AllLand;
    if con.halted {
      DeliverHalted(con, m, 0, id, buf, len);
    } else {
      DeliverGated(con, m, root, ranges, id, buf, len);
      DeliverPrompt(con, m, root, ranges, id, buf, len);
      if AllLand(ranges) { DeliverLands(con, m, root, ranges, id, buf, len); }
      hide InOrder;
      hide Gated;
      if AllLand(ranges) && ByteSafe(ranges, Input.CAPACITY) { DeliverKeeps(con, m, root, ranges, id, buf, len); }
    }
  }

  /** What it stores has passed the gate. */
  lemma DeliverGated(con: Console, m: Target, root: nat, ranges: seq<Range>, id: nat, buf: nat, len: nat)
    requires InOrder(con) && Gated(con.given, root, ranges) && !con.halted && AtHome(m, root, ranges)
    ensures InOrder(Deliver(con, m, 0, id, buf, len, 0).0)
    ensures Gated(Deliver(con, m, 0, id, buf, len, 0).0.given, root, ranges)
  {
    hide Accepts;
    hide Deliver;
    hide InOrder;
    hide Takes;
    DeliverMoves(con, m, 0, id, buf, len);
    var (r, n) := Deliver(con, m, 0, id, buf, len, 0);
    TakenAccepted(m, buf, n);
    StoresGated(con.given, r.given, root, ranges, buf, n);
  }

  /** If the first byte is accepted, it is stored or the machine stops. */
  lemma DeliverPrompt(con: Console, m: Target, root: nat, ranges: seq<Range>, id: nat, buf: nat, len: nat)
    requires InOrder(con) && !con.halted && AtHome(m, root, ranges) && Accepts(ranges, buf, len, true)
    ensures var (r, n) := Deliver(con, m, 0, id, buf, len, 0);
      ByteSafe(ranges, 1) && len > 0 && n == 0 && !r.halted ==> r.input == []
  {
    hide Accepts;
    hide Deliver;
    hide InOrder;
    hide Takes;
    DeliverMoves(con, m, 0, id, buf, len);
    if ByteSafe(ranges, 1) && len > 0 {
      assert ByteAccepted(ranges, buf, 0);
    }
  }

  /** If all accepted stores land, the machine does not stop. */
  lemma DeliverLands(con: Console, m: Target, root: nat, ranges: seq<Range>, id: nat, buf: nat, len: nat)
    requires InOrder(con) && !con.halted && AtHome(m, root, ranges) && AllLand(ranges)
    ensures !Deliver(con, m, 0, id, buf, len, 0).0.halted
  {
    hide Accepts;
    hide Deliver;
    hide InOrder;
    hide Takes;
    hide AllLand;
    DeliverMoves(con, m, 0, id, buf, len);
    var n := Deliver(con, m, 0, id, buf, len, 0).1;
    if ByteAccepted(ranges, buf, n) { SteadyTakes(m, root, ranges, buf + n); }
  }

  lemma SafeTakes(m: Target, root: nat, ranges: seq<Range>, buf: nat, len: nat, c: nat)
    requires AtHome(m, root, ranges) && Accepts(ranges, buf, len, true)
    requires AllLand(ranges) && ByteSafe(ranges, Input.CAPACITY)
    ensures c < len && c < Input.CAPACITY ==> TakenAt(m, buf, c)
  {
    hide Accepts;
    hide AllLand;
    if c < len && c < Input.CAPACITY {
      assert ByteAccepted(ranges, buf, c);
      SteadyTakes(m, root, ranges, buf + c);
    }
  }

  /** And if the gate takes every single byte, all that is taken out is stored. */
  lemma DeliverKeeps(con: Console, m: Target, root: nat, ranges: seq<Range>, id: nat, buf: nat, len: nat)
    requires InOrder(con) && !con.halted && AtHome(m, root, ranges) && Accepts(ranges, buf, len, true)
    requires AllLand(ranges) && ByteSafe(ranges, Input.CAPACITY) && Bytes(con.given) == con.popped
    ensures var r := Deliver(con, m, 0, id, buf, len, 0).0; Bytes(r.given) == r.popped
  {
    assert |con.input| <= Input.CAPACITY;
    hide Accepts;
    hide Deliver;
    hide InOrder;
    hide Takes;
    hide AllLand;
    DeliverMoves(con, m, 0, id, buf, len);
    var (r, n) := Deliver(con, m, 0, id, buf, len, 0);
    SafeTakes(m, root, ranges, buf, len, n);
    StoresBytes(con.given, r.given, con.input, n);
  }

  lemma TakenAccepted(m: Target, buf: nat, n: nat)
    ensures forall c | 0 <= c < n && TakenAt(m, buf, c) :: ByteAccepted(m.ranges, buf, c)
  {
    hide Accepts;
    hide Lands;
  }

  lemma StoresGated(given: seq<Delivery>, given': seq<Delivery>, root: nat, ranges: seq<Range>, buf: nat, n: nat)
    requires Gated(given, root, ranges) && given <= given' && |given'| == |given| + n
    requires forall c | 0 <= c < n :: ByteAccepted(ranges, buf, c)
    requires forall i | |given| <= i < |given'| ::
      given'[i].addr == buf + i - |given| && given'[i].pid == 0 && given'[i].root == root
    ensures Gated(given', root, ranges)
  {
    hide Accepts;
    forall i | |given| <= i < |given'| ensures Accepts(ranges, given'[i].addr, 1, true) {
      assert ByteAccepted(ranges, buf, i - |given|);
    }
  }

  lemma StoresBytes(given: seq<Delivery>, given': seq<Delivery>, input: seq<Byte>, n: nat)
    requires given <= given' && |given'| == |given| + n && n <= |input|
    requires forall i | |given| <= i < |given'| :: given'[i].byte == input[i - |given|]
    ensures Bytes(given') == Bytes(given) + input[..n]
  {
    var more := given'[|given|..];
    assert given' == given + more;
    assert Bytes(more) == input[..n];
    BytesMore(given, more);
  }

  // ---------------------------------------------------------------- requests

  /** What the console depends on did not change. */
  lemma SameConsole(s: State, r: State)
    requires ConsoleOk(s) && |r.procs| == |s.procs| == |r.logs| && r.console == s.console
    requires forall p | 0 <= p < |s.procs| :: SameReads(s.procs[p], r.procs[p])
    requires forall p | 0 <= p < |s.procs| :: r.logs[p].slots == s.logs[p].slots && |s.logs[p].fate| <= |r.logs[p].fate|
    ensures ConsoleOk(r)
  {
    hide Accepts;
    forall p | 0 <= p < |r.procs| ensures ReadsOk(r.procs[p], r.logs[p]) && Satisfied(r.procs[p], r.console) {
      assert ReadsOk(s.procs[p], s.logs[p]) && Satisfied(s.procs[p], s.console);
      forall j | 0 <= j < 8 ensures ReadOk(r.procs[p], r.logs[p], j) {
        assert ReadOk(s.procs[p], s.logs[p], j);
      }
    }
  }

  predicate SameReads(a: Proc, b: Proc) {
    a.root == b.root && a.ranges == b.ranges && a.pending == b.pending && a.foreground == b.foreground
  }

  lemma CompleteConsole(s: State, p: nat, id: nat, c: Cqe)
    requires ConsoleOk(s) && Ringed(s, p) && id < |s.logs[p].fate|
    ensures ConsoleOk(Complete(s, p, id, c))
  {
    SameConsole(s, Complete(s, p, id, c));
  }

  /** Giving the buffered bytes to p, the only process with the foreground. */
  lemma GivenConsole(s: State, con: Console)
    requires ConsoleOk(s) && Lossless(con, Home(s.procs), Keyboard(s.procs))
    requires con.input == [] || con.halted ||
      forall p, j | 0 <= p < |s.procs| && 0 <= j < 8 && s.procs[p].foreground && ByteSafe(s.procs[p].ranges, 1) ::
        s.procs[p].pending[j].None?
    ensures ConsoleOk(s.(console := con))
  {
    var r := s.(console := con);
    forall p | 0 <= p < |r.procs| ensures ReadsOk(r.procs[p], r.logs[p]) && Satisfied(r.procs[p], r.console) {
      assert ReadsOk(s.procs[p], s.logs[p]);
    }
  }

  lemma ParkConsole(s: State, p: nat, id: nat, q: Pending)
    requires ConsoleOk(s) && Ringed(s, p) && id < |s.logs[p].fate|
    requires q.len > 0 && Accepts(s.procs[p].ranges, q.buf, q.len, true)
    requires s.procs[p].foreground && ByteSafe(s.procs[p].ranges, 1) && !s.console.halted ==> s.console.input == []
    ensures ConsoleOk(Park(s, p, id, q))
  {
    hide Accepts;
    var slot := FreeSlotFrom(s.procs[p].pending, 0);
    if slot.None? {
      CompleteConsole(s, p, id, Cqe(q.tag, ERR));
    } else {
      var r := Park(s, p, id, q);
      forall u | 0 <= u < |r.procs| ensures ReadsOk(r.procs[u], r.logs[u]) && Satisfied(r.procs[u], r.console) {
        assert ReadsOk(s.procs[u], s.logs[u]) && Satisfied(s.procs[u], s.console);
        if u == p {
          forall j | 0 <= j < 8 ensures ReadOk(r.procs[p], r.logs[p], j) {
            assert ReadOk(s.procs[p], s.logs[p], j);
          }
        }
      }
    }
  }

  lemma {:induction false} ForegroundIs(procs: seq<Proc>, i: nat, p: nat)
    requires i <= p < |procs| && procs[p].foreground
    requires forall q | 0 <= q < |procs| && procs[q].foreground :: q == p
    ensures ForegroundFrom(procs, i) == Some(p)
    decreases |procs| - i
  {
    if i < p {
      ForegroundIs(procs, i + 1, p);
    }
  }

  /** Only process 0 can have the keyboard. */
  ghost predicate OneForeground(procs: seq<Proc>) {
    forall q | 0 <= q < |procs| && procs[q].foreground :: q == 0
  }

  lemma ForegroundOnly(procs: seq<Proc>, p: nat)
    requires OneForeground(procs) && p < |procs|
    ensures Foreground(procs) == Some(p) <==> procs[p].foreground
  {
    if procs[p].foreground {
      ForegroundIs(procs, 0, p);
    }
  }

  /** The space of process p is installed. */
  predicate Live(s: State, p: nat)
    requires p < |s.procs|
  {
    s.cpu.live == s.procs[p].root
  }

  /** A running user task has its own space installed. */
  ghost predicate OwnLive(s: State) {
    s.boot.base <= s.cpu.current < s.boot.base + |s.procs| ==> Live(s, s.cpu.current - s.boot.base)
  }

  lemma ReadConsole(s: State, p: nat, id: nat, e: Sqe)
    requires ConsoleOk(s) && Ringed(s, p) && id < |s.logs[p].fate| && OneForeground(s.procs) && Live(s, p)
    ensures ConsoleOk(ReadOp(s, p, id, e))
  {
    hide ConsoleOk;
    hide Complete;
    hide Park;
    hide Accepts;
    hide Lossless;
    hide ByteSafe;
    if !Accepts(s.procs[p].ranges, e.arg0, e.arg1, true) {
      CompleteConsole(s, p, id, Cqe(e.tag, ERR));
    } else if e.arg1 == 0 {
      CompleteConsole(s, p, id, Cqe(e.tag, 0));
    } else {
      var (con, count) :=
        if Foreground(s.procs) == Some(p) then Deliver(s.console, Facing(s, p), p, id, e.arg0, e.arg1, 0)
        else (s.console, 0);
      var s1 := s.(console := con);
      ForegroundOnly(s.procs, p);
      ReadGives(s, p, id, e);
      if count > 0 {
        CompleteConsole(s1, p, id, Cqe(e.tag, count));
      } else {
        ParkConsole(s1, p, id, Pending(e.arg0, e.arg1, e.tag));
      }
    }
  }

  lemma ReadGives(s: State, p: nat, id: nat, e: Sqe)
    requires ConsoleOk(s) && Ringed(s, p) && OneForeground(s.procs) && Live(s, p)
    requires Accepts(s.procs[p].ranges, e.arg0, e.arg1, true) && e.arg1 > 0
    ensures var (con, count) :=
        if Foreground(s.procs) == Some(p) then Deliver(s.console, Facing(s, p), p, id, e.arg0, e.arg1, 0)
        else (s.console, 0);
      && ConsoleOk(s.(console := con))
      && (count == 0 && s.procs[p].foreground && ByteSafe(s.procs[p].ranges, 1) && !con.halted ==> con.input == [])
  {
    hide Accepts;
    hide InOrder;
    hide ByteSafe;
    hide AllLand;
    hide Deliver;
    assert ReadsOk(s.procs[p], s.logs[p]);
    ForegroundOnly(s.procs, p);
    if Foreground(s.procs) == Some(p) {
      var m := Facing(s, p);
      DeliverSafe(s.console, m, s.procs[p].root, s.procs[p].ranges, id, e.arg0, e.arg1);
      var (con, count) := Deliver(s.console, m, p, id, e.arg0, e.arg1, 0);
      assert Satisfied(s.procs[p], s.console);
      if !s.console.halted {
        DeliverMoves(s.console, m, p, id, e.arg0, e.arg1);
      } else {
        DeliverHalted(s.console, m, p, id, e.arg0, e.arg1);
      }
      GivenConsole(s, con);
    } else {
      assert s.(console := s.console) == s;
    }
  }

  lemma BornConsole(s: State, p: nat, root: nat, ranges: seq<Range>)
    requires ConsoleOk(s) && s.procs != []
    ensures ConsoleOk(Born(s, p, root, ranges))
  {
    hide Accepts;
    var r := Born(s, p, root, ranges);
    forall u | 0 <= u < |r.procs| ensures ReadsOk(r.procs[u], r.logs[u]) && Satisfied(r.procs[u], r.console) {
      if u < |s.procs| {
        assert ReadsOk(s.procs[u], s.logs[u]) && Satisfied(s.procs[u], s.console);
      }
    }
  }

  lemma SpawnConsole(s: State, p: nat, id: nat, e: Sqe, env: Env)
    requires ConsoleOk(s) && Ringed(s, p) && id < |s.logs[p].fate|
    ensures ConsoleOk(SpawnOp(s, p, id, e, env))
  {
    hide ConsoleOk;
    hide Complete;
    hide Accepts;
    if !Accepts(s.procs[p].ranges, e.arg0, e.arg1, false) || env.image(id).None? {
      CompleteConsole(s, p, id, Cqe(e.tag, ERR));
    } else {
      var r := Born(s, p, env.root(|s.procs|), env.image(id).value);
      BornConsole(s, p, env.root(|s.procs|), env.image(id).value);
      CompleteConsole(r, p, id, Cqe(e.tag, |s.procs|));
    }
  }

  lemma WaitConsole(s: State, p: nat, id: nat, e: Sqe)
    requires ConsoleOk(s) && Ringed(s, p) && id < |s.logs[p].fate| && !IsChild(s.procs, p, p)
    ensures ConsoleOk(WaitOp(s, p, id, e))
  {
    hide ConsoleOk;
    hide Complete;
    var h := e.arg0;
    if !IsChild(s.procs, p, h) {
      CompleteConsole(s, p, id, Cqe(e.tag, ERR));
    } else if s.procs[h].exitCode.Some? {
      CompleteConsole(s, p, id, Cqe(e.tag, s.procs[h].exitCode.value));
    } else {
      SameConsole(s, Register(s, p, id, h, e.tag));
    }
  }

  lemma ProcessConsole(s: State, p: nat, e: Sqe, env: Env)
    requires ConsoleOk(s) && Ringed(s, p) && !IsChild(s.procs, p, p) && OneForeground(s.procs) && Live(s, p)
    ensures ConsoleOk(Process(s, p, e, env))
  {
    hide ConsoleOk;
    hide Complete;
    hide ReadOp;
    hide SpawnOp;
    hide WaitOp;
    hide Accepts;
    var id := |s.logs[p].reqs|;
    var l := Noted(s.logs[p], e, Able(s.procs, p, id, e, env));
    var s1 := s.(logs := s.logs[p := l]);
    SameConsole(s, s1);
    if e.op == OP_NOP {
      CompleteConsole(s1, p, id, Cqe(e.tag, 0));
    } else if e.op == OP_PRINT {
      CompleteConsole(s1, p, id, Cqe(e.tag, if Accepts(s.procs[p].ranges, e.arg0, e.arg1, false) then 0 else ERR));
    } else if e.op == OP_READ {
      ReadConsole(s1, p, id, e);
    } else if e.op == OP_SPAWN {
      SpawnConsole(s1, p, id, e, env);
    } else if e.op == OP_WAIT {
      WaitConsole(s1, p, id, e);
    } else {
      CompleteConsole(s1, p, id, Cqe(e.tag, ERR));
    }
  }

  lemma ConsumeConsole(s: State, p: nat, env: Env)
    requires ConsoleOk(s) && Ringed(s, p) && !IsChild(s.procs, p, p) && OneForeground(s.procs) && Live(s, p)
    ensures ConsoleOk(Consume(s, p, env))
  {
    hide ConsoleOk;
    hide Process;
    var e := NextSqe(s.procs[p].ring.value);
    ProcessConsole(s, p, e, env);
    SameConsole(Process(s, p, e, env), Consume(s, p, env));
  }

  lemma KeptForeground(s: State, r: State, p: nat, env: Env)
    requires p < |s.procs| == |s.logs| && |s.clients| == |s.procs|
    requires Kept(s, r, p, env) && OneForeground(s.procs)
    ensures OneForeground(r.procs)
  {
    forall q | 0 <= q < |r.procs| && r.procs[q].foreground ensures q == 0 {
      assert q < |s.procs| && q != p ==> OtherKept(s.procs[q], r.procs[q], p);
      assert q >= |s.procs| ==> Child(r, q, p, env);
    }
  }

  lemma {:induction false} DrainConsole(s: State, p: nat, env: Env)
    requires ConsoleOk(s) && Ringed(s, p) && !IsChild(s.procs, p, p) && OneForeground(s.procs) && Live(s, p)
    ensures ConsoleOk(Drain(s, p, env))
    decreases Sub(s.procs[p].ring.value.sqTail, s.procs[p].ring.value.sqHead)
  {
    hide ConsoleOk;
    hide Consume;
    hide OneForeground;
    if !Empty(s.procs[p].ring.value) {
      var r := Consume(s, p, env);
      ConsumeKept(s, p, env);
      TailKept(s, r, p, env);
      KeptForeground(s, r, p, env);
      ConsumeConsole(s, p, env);
      DrainConsole(r, p, env);
    }
  }

  // ---------------------------------------------------------------- steps

  lemma LayoutForeground(s: State)
    requires Layout(s)
    ensures OneForeground(s.procs)
  {
    forall q | 0 <= q < |s.procs| && s.procs[q].foreground ensures q == 0 {
      assert ProcShape(s.procs[q], q);
    }
  }

  lemma EnterConsole(s: State, p: nat, min: nat, env: Env)
    requires Shape(s) && ConsoleOk(s) && Ringed(s, p) && Live(s, p)
    ensures Callable(s, p) && ConsoleOk(Enter(s, p, min, env))
  {
    hide Layout;
    hide ConsoleOk;
    hide Drain;
    hide Switch;
    Basics(s);
    RousedLayout(s, p);
    var s1 := Roused(s, p);
    SameConsole(s, s1);
    LayoutForeground(s1);
    Basics(s1);
    DrainConsole(s1, p, env);
    DrainEnds(s1, p, env);
    var s2 := Drain(s1, p, env);
    SameConsole(s2, Check(s2, p, min));
  }

  lemma ToldConsole(s: State, p: nat, code: int)
    requires ConsoleOk(s) && |s.clients| == |s.procs| && p < |s.procs|
    ensures |s.logs| == |s.procs| && ConsoleOk(Told(s, p, code))
  {
    assert |s.logs| == |s.procs|;
    hide ConsoleOk;
    var me := s.procs[p];
    if me.exitWaiter.Some? && me.parent.Some? && me.parent.value < |s.procs| {
      var q, id := me.parent.value, s.logs[p].asked;
      hide Complete;
      if Ringed(s, q) && id < |s.logs[q].fate| {
        CompleteConsole(s, q, id, Cqe(me.exitWaiter.value, code));
        NotifyConsole(Complete(s, q, id, Cqe(me.exitWaiter.value, code)), q);
      } else {
        NotifyConsole(s, q);
      }
    }
  }

  lemma NotifyConsole(s: State, p: nat)
    requires ConsoleOk(s) && p < |s.procs|
    ensures ConsoleOk(Notify(s, p))
  {
    SameConsole(s, Notify(s, p));
  }

  lemma RetiredConsole(s: State, p: nat, code: int)
    requires ConsoleOk(s) && p < |s.procs| && s.cpu.current < |s.cpu.tasks|
    ensures ConsoleOk(Retired(s, p, code)) && |Retired(s, p, code).logs| == |s.procs|
  {
    hide Accepts;
    var r := Retired(s, p, code);
    forall u | 0 <= u < |r.procs| ensures ReadsOk(r.procs[u], r.logs[u]) && Satisfied(r.procs[u], r.console) {
      assert ReadsOk(s.procs[u], s.logs[u]) && Satisfied(s.procs[u], s.console);
    }
  }

  lemma ExitConsole(s: State, p: nat, code: int)
    requires Layout(s) && ConsoleOk(s) && p < |s.procs|
    ensures |s.logs| == |s.procs| && |s.clients| == |s.procs| && ConsoleOk(Exit(s, p, code))
  {
    hide Layout;
    hide ConsoleOk;
    hide Told;
    hide Exit;
    hide Switch;
    Basics(s);
    ExitIs(s, p, code);
    ToldConsole(s, p, code);
    var s1 := Told(s, p, code);
    RetiredConsole(s1, p, code);
    SameConsole(Retired(s1, p, code), Exit(s, p, code));
  }

  lemma ArrivedLossless(con: Console, bytes: seq<Byte>, root: nat, ranges: seq<Range>)
    requires Lossless(con, root, ranges)
    ensures Lossless(Arrived(con, bytes), root, ranges)
  {
    var n := Input.Room(con.input, bytes);
    assert con.popped + (con.input + bytes[..n]) == con.popped + con.input + bytes[..n];
  }

  /** While the parked reads of p are served: those before slot i that stay found the buffer empty. */
  ghost predicate Serving(s: State, p: nat, i: nat) {
    && p == 0 && p < |s.procs| && |s.logs| == |s.procs| && Live(s, p)
    && Lossless(s.console, s.procs[p].root, s.procs[p].ranges)
    && (forall u | 0 <= u < |s.procs| :: ReadsOk(s.procs[u], s.logs[u]))
    && (ByteSafe(s.procs[p].ranges, 1) && !s.console.halted ==>
          forall j | 0 <= j < i && j < |s.procs[p].pending| && s.procs[p].pending[j].Some? :: s.console.input == [])
  }

  lemma ServedStep(s: State, p: nat, i: nat, con: Console, count: nat)
    requires Ringed(s, p) && i < 8 && s.procs[p].pending[i].Some? && s.logs[p].slots[i] < |s.logs[p].fate|
    requires Serving(s.(console := con), p, i)
    ensures Serving(Layouts.Served(s, p, i, con, count), p, i + 1)
  {
    hide Accepts;
    hide Lossless;
    hide ByteSafe;
    hide Post;
    var r := Layouts.Served(s, p, i, con, count);
    forall u | 0 <= u < |r.procs| ensures ReadsOk(r.procs[u], r.logs[u]) {
      assert ReadsOk(s.procs[u], s.logs[u]);
      if u == p {
        forall j | 0 <= j < 8 ensures ReadOk(r.procs[p], r.logs[p], j) {
          assert ReadOk(s.procs[p], s.logs[p], j);
        }
      }
    }
  }

  /** One parked read is given what there is. */
  lemma ServeOne(s: State, p: nat, i: nat)
    requires Ringed(s, p) && i < 8 && Serving(s, p, i) && s.procs[p].pending[i].Some?
    ensures var q := s.procs[p].pending[i].value;
      var (con, count) := Deliver(s.console, Facing(s, p), p, s.logs[p].slots[i], q.buf, q.len, 0);
      && Serving(s.(console := con), p, i) && (count == 0 ==> Serving(s.(console := con), p, i + 1))
      && s.logs[p].slots[i] < |s.logs[p].fate|
  {
    hide Accepts;
    hide InOrder;
    hide ByteSafe;
    hide AllLand;
    hide Deliver;
    assert ReadsOk(s.procs[p], s.logs[p]) && ReadOk(s.procs[p], s.logs[p], i);
    var q, m := s.procs[p].pending[i].value, Facing(s, p);
    if !s.console.halted {
      DeliverMoves(s.console, m, p, s.logs[p].slots[i], q.buf, q.len);
    } else {
      DeliverHalted(s.console, m, p, s.logs[p].slots[i], q.buf, q.len);
    }
    DeliverSafe(s.console, m, s.procs[p].root, s.procs[p].ranges, s.logs[p].slots[i], q.buf, q.len);
  }

  lemma {:induction false} PollSlotsServe(s: State, p: nat, i: nat)
    requires Ringed(s, p) && i <= 8 && Serving(s, p, i)
    ensures Serving(PollSlots(s, p, i).0, p, 8)
    decreases 8 - i
  {
    hide Accepts;
    hide Lossless;
    hide ByteSafe;
    hide Complete;
    hide Deliver;
    if i < 8 {
      if s.procs[p].pending[i].None? {
        PollSlotsServe(s, p, i + 1);
      } else {
        ServeOne(s, p, i);
        var q := s.procs[p].pending[i].value;
        var (con, count) := Deliver(s.console, Facing(s, p), p, s.logs[p].slots[i], q.buf, q.len, 0);
        var s1 := s.(console := con);
        if count == 0 {
          PollSlotsServe(s1, p, i + 1);
        } else {
          ServedStep(s, p, i, con, count);
          PollSlotsServe(Layouts.Served(s, p, i, con, count), p, i + 1);
        }
      }
    }
  }

  /** With nothing in the buffer, or the machine stopped, the scan changes nothing. */
  lemma {:induction false} NothingToGive(s: State, p: nat, i: nat)
    requires Ringed(s, p) && i <= 8 && (s.console.input == [] || s.console.halted)
    ensures PollSlots(s, p, i).0.procs[p].pending == s.procs[p].pending
    decreases 8 - i
  {
    if i < 8 { NothingToGive(s, p, i + 1); }
  }

  /** The scan only ever takes reads out of the table. */
  lemma ScanTakesOut(s: State, p: nat, i: nat, j: nat)
    requires Ringed(s, p) && i <= 8 && j < 8 && s.procs[p].pending[j].None?
    ensures PollSlots(s, p, i).0.procs[p].pending[j].None?
  {
    hide Deliver;
    PollSlotsKept(s, p, i);
    hide PollSlots;
  }

  /** Reads are served in the order of their slots: if a later one got something and an earlier one is
      still parked, the first byte of the earlier one could not be stored. */
  lemma {:induction false} SlotsInOrder(s: State, p: nat, i: nat, j: nat, k: nat)
    requires Ringed(s, p) && i <= j < k < 8 && ReadsOk(s.procs[p], s.logs[p])
    requires s.procs[p].pending[j].Some? && s.procs[p].pending[k].Some?
    ensures var r := PollSlots(s, p, i).0.procs[p].pending;
      r[k].None? && r[j].Some? ==> !TakenAt(Facing(s, p), s.procs[p].pending[j].value.buf, 0)
    decreases 8 - i
  {
    hide Accepts;
    hide Deliver;
    hide TakenAt;
    assert ReadOk(s.procs[p], s.logs[p], i);
    if s.procs[p].pending[i].None? {
      SlotsInOrder(s, p, i + 1, j, k);
    } else {
      var q := s.procs[p].pending[i].value;
      var (con, count) := Deliver(s.console, Facing(s, p), p, s.logs[p].slots[i], q.buf, q.len, 0);
      var s1 := s.(console := con);
      if count > 0 {
        var s3 := Layouts.Served(s, p, i, con, count);
        ServedReads(s, p, i, con, count);
        if i == j { ScanTakesOut(s3, p, i + 1, j); } else { SlotsInOrder(s3, p, i + 1, j, k); }
      } else if i < j {
        SlotsInOrder(s1, p, i + 1, j, k);
      } else if s.console.input == [] || s.console.halted {
        NothingToGive(s, p, i);
      } else {
        DeliverStops(s.console, Facing(s, p), p, s.logs[p].slots[i], q.buf, q.len, 0);
      }
    }
  }

  lemma ServedReads(s: State, p: nat, i: nat, con: Console, count: nat)
    requires Ringed(s, p) && i < 8 && s.procs[p].pending[i].Some? && ReadsOk(s.procs[p], s.logs[p])
    requires s.logs[p].slots[i] < |s.logs[p].fate|
    ensures var r := Layouts.Served(s, p, i, con, count);
      && Ringed(r, p) && ReadsOk(r.procs[p], r.logs[p]) && Facing(r, p) == Facing(s, p)
      && r.procs[p].pending == s.procs[p].pending[i := None]
  {
    hide Accepts;
    hide Post;
    var r := Layouts.Served(s, p, i, con, count);
    forall j | 0 <= j < 8 ensures ReadOk(r.procs[p], r.logs[p], j) {
      assert ReadOk(s.procs[p], s.logs[p], j);
    }
    SameHost(s.procs, r.procs, s.cpu.live, 0, p);
  }

  lemma {:induction false} SameHost(a: seq<Proc>, b: seq<Proc>, root: nat, i: nat, p: nat)
    requires p < |a| == |b| && b == a[p := b[p]] && i <= |a|
    requires b[p].root == a[p].root && b[p].exitCode == a[p].exitCode
    ensures HostFrom(a, root, i) == HostFrom(b, root, i)
    decreases |a| - i
  {
    if i < |a| { SameHost(a, b, root, i + 1, p); }
  }

  /** Nobody but p has the keyboard, so serving p is serving the foreground. */
  lemma AllServed(s: State, p: nat)
    requires Serving(s, p, 8) && forall q | 0 <= q < |s.procs| && s.procs[q].foreground :: q == p
    ensures ConsoleOk(s)
  {
    forall u | 0 <= u < |s.procs| ensures Satisfied(s.procs[u], s.console) {
      assert ReadsOk(s.procs[u], s.logs[u]);
    }
  }

  lemma UartConsole(s: State, bytes: seq<Byte>)
    requires Layout(s) && ConsoleOk(s)
    ensures |s.console.input| <= Input.CAPACITY && ConsoleOk(UartIrq(s, bytes))
  {
    hide PollSlots;
    hide Layout;
    hide Accepts;
    Basics(s);
    LayoutForeground(s);
    ArrivedLossless(s.console, bytes, Home(s.procs), Keyboard(s.procs));
    var s0 := s.(console := Arrived(s.console, bytes));
    var fg := Foreground(s0.procs);
    if fg.Some? && Ringed(s0, fg.value) {
      var p := fg.value;
      var s1 := s0.(cpu := s0.cpu.(live := s0.procs[p].root));
      assert Serving(s1, p, 0);
      PollSlotsKept(s1, p, 0);
      PollSlotsServe(s1, p, 0);
      var (s2, completed) := PollSlots(s1, p, 0);
      AllServed(s2, p);
      SameConsole(s2, UartIrq(s, bytes));
    } else {
      forall u | 0 <= u < |s0.procs| ensures ReadsOk(s0.procs[u], s0.logs[u]) && Satisfied(s0.procs[u], s0.console) {
        assert ReadsOk(s.procs[u], s.logs[u]) && ProcShape(s.procs[u], u);
        ForegroundOnly(s.procs, u);
        assert LogShape(s.logs[u]) by { LogOf(s, u); }
      }
    }
  }

  lemma LogOf(s: State, p: nat)
    requires Layout(s) && p < |s.logs|
    ensures LogShape(s.logs[p])
  {
  }

  lemma PollerConsole(s: State, env: Env)
    requires Shape(s) && ConsoleOk(s) && s.cpu.current == s.boot.poller
    ensures PollOk(s) && ConsoleOk(PollStep(s, env))
  {
    hide Layout;
    hide ConsoleOk;
    hide Drain;
    hide Switch;
    PollerLayout(s, env);
    Basics(s);
    LayoutForeground(s);
    if s.poll.pc.Scan? && s.poll.pc.i < s.poll.pc.n && HasSubmissions(s, s.poll.pc.i) {
      var i := s.poll.pc.i;
      var s2 := s.(cpu := s.cpu.(live := s.procs[i].root), poll := s.poll.(pc := Scan(i + 1, s.poll.pc.n, true)));
      SameConsole(s, s2);
      DrainConsole(s2, i, env);
    } else if s.poll.pc == Decide(false) && s.cpu.ticks - s.poll.lastWork >= SQ_IDLE_TICKS {
      SameConsole(s, Sleep(s));
    } else if s.poll.pc.Clear? && s.poll.pc.i < s.poll.pc.n {
      SameConsole(s, PollStep(s, env));
    } else {
      IdleStep(s, env);
      SameConsole(s, PollStep(s, env));
    }
  }

  /** Every step of the system keeps it. */
  lemma NextConsole(s: State, a: Action)
    requires Ready(s) && Enables(s, a) && ConsoleOk(s)
    requires OwnLive(s)
    ensures ConsoleOk(Next(s, a))
  {
    hide Layout;
    hide ConsoleOk;
    hide Happen;
    hide Enabled;
    hide UartIrq;
    hide PollStep;
    hide Exit;
    hide Enter;
    hide Switch;
    Basics(s);
    match a
    case Uart(bytes) => UartConsole(s, bytes);
    case Poller(env) => PollerConsole(s, env);
    case CallEnter(min, env) =>
      var s1 := Submitted(s, Pid(s));
      ClientLayout(s, s1);
      SameConsole(s, s1);
      EnterConsole(s1, Pid(s), min, env);
    case Leave(code) => ExitConsole(s, Pid(s), code);
    case _ => SameConsole(s, Next(s, a));
  }
}
