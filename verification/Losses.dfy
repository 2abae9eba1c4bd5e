/**
 When console input can be lost (kernel/src/ring.rs, kernel/src/process.rs): for each list of
 ranges that the gate consults, either no run loses a byte or there is one that does.  A byte is
 lost if the gate refuses it, or if it accepts it and the store faults.
 */
module Losses {
  import opened Bits
  import opened Frames
  import opened PageTables
  import opened Loader
  import opened Gate
  import opened Rings
  import opened Kernel
  import opened Draining
  import opened Steps
  import opened Machine
  import opened Results
  import Consoles
  import Input
  import Sched

  /** A reachable state of a system whose first process has these ranges. */
  ghost predicate RunsWith(s: State, ranges: seq<Range>) {
    Reachable(s) && s.procs != [] && s.procs[0].ranges == ranges
  }

  /** One process, and nothing has happened yet. */
  function Start(ranges: seq<Range>, current: nat, live: nat, ticks: nat): State {
    State(
      [NewProc(8192, ranges, None).(foreground := true)], [NewLog()], [NewClient()],
      Cpu([Sched.Task(Sched.Runnable, 0, None, None), Sched.Task(Sched.Runnable, 0, None, None),
           Sched.Task(Sched.Runnable, 0, Some(0), Some(8192))], current, live, {}, ticks, map[]),
      Console([], true, [], [], [], false), Poll(Top, 0), Boot(1, 2, 4096), LowPages(ranges))
  }

  /** The image that a spawn finds: one read-only page. */
  function Covering(v: nat): seq<Range> {
    [Range(v * 4096, v * 4096 + 4096, false)]
  }

  function Nothing(): Env {
    Env(_ => None, q => 12288 + q)
  }

  function OneImage(v: nat): Env {
    Env(_ => Some(Covering(v)), q => 12288 + q)
  }

  /** The idle task yields, the clock preempts the poller, and the process runs. */
  lemma Running(ranges: seq<Range>)
    ensures RunsWith(Start(ranges, 2, 8192, 1), ranges)
  {
    hide Reachable;
    hide LowPages;
    var s0, s1, s2 := Start(ranges, 0, 4096, 0), Start(ranges, 1, 4096, 0), Start(ranges, 2, 8192, 1);
    assert Sched.PickFrom(s0.cpu.tasks, 0, 1) == 1 && Sched.PickFrom(s0.cpu.tasks, 1, 1) == 2;
    assert Sched.SleepersWoken(s1.cpu.tasks, 1) == s1.cpu.tasks;
    ReachableBoot(s0);
    StepTo(s0, Yield);
    StepTo(s1, Timer);
    assert Tick(s1) == s2;
  }

  /** The process as it asks for input, with this page and this input. */
  function Asking(ranges: seq<Range>, page: Page, bytes: seq<Byte>): State {
    Start(ranges, 2, 8192, 1).(
      procs := [NewProc(8192, ranges, None).(foreground := true, ring := Some(page))],
      clients := [NewClient().(honest := false)],
      console := Console(bytes, |bytes| < Input.CAPACITY, bytes, [], [], false))
  }

  /** Bytes are typed, and the process sets up its ring and fills it. */
  lemma Typed(ranges: seq<Range>, page: Page, bytes: seq<Byte>)
    requires |bytes| <= Input.CAPACITY && PageOk(page)
    ensures RunsWith(Asking(ranges, page, bytes), ranges)
  {
    hide Reachable;
    hide Deliver;
    hide LowPages;
    Running(ranges);
    var s := Start(ranges, 2, 8192, 1);
    StepTo(s, Uart(bytes));
    var s1 := Next(s, Uart(bytes));
    assert s1 == s.(console := Console(bytes, |bytes| < Input.CAPACITY, bytes, [], [], false)) by {
      assert bytes[..|bytes|] == bytes && [] + bytes == bytes;
    }
    StepTo(s1, CallSetup);
    var s2 := Next(s1, CallSetup);
    StepTo(s2, Scribble(page));
    assert Next(s2, Scribble(page)) == Asking(ranges, page, bytes);
  }

  /** A page with one read published. */
  function OneRead(ptr: Word, len: Word): (p: Page)
    ensures PageOk(p)
  {
    var z := ZeroPage();
    z.(sqTail := 1, sq := z.sq[0 := Sqe(OP_READ, ptr, len, 1)])
  }

  /** A page with a spawn and a read of one byte published; the name is empty, on the stack. */
  function SpawnThenRead(a: Word): (p: Page)
    ensures PageOk(p)
  {
    var z := ZeroPage();
    z.(sqTail := 2, sq := z.sq[0 := Sqe(OP_SPAWN, USER_STACK_VA, 0, 1)][1 := Sqe(OP_READ, a, 1, 2)])
  }

  /** What a read of the foreground process with its own space live is given. */
  lemma Read(s: State, id: nat, ptr: Word, len: Word)
    requires Ringed(s, 0) && s.procs[0].foreground && id < |s.logs[0].fate|
    requires Accepts(s.procs[0].ranges, ptr, len, true) && len > 0
    ensures var r := ReadOp(s, 0, id, Sqe(OP_READ, ptr, len, 1));
      var (con, count) := Deliver(s.console, Facing(s, 0), 0, id, ptr, len, 0);
      && r.console == con && r.procs != [] && r.procs[0].ranges == s.procs[0].ranges && r.procs[0].foreground
      && (count == 0 && s.procs[0].pending == NoReads() ==> r.procs[0].pending[0].Some?)
    ensures ReadOp(s, 0, id, Sqe(OP_READ, ptr, len, 2)).console == ReadOp(s, 0, id, Sqe(OP_READ, ptr, len, 1)).console
  {
    hide Accepts;
    hide Deliver;
    hide Facing;
    assert Foreground(s.procs) == Some(0);
  }

  /** What the system call makes of one read: it takes what was typed, or is parked. */
  lemma Asked(ranges: seq<Range>, ptr: Word, len: Word, bytes: seq<Byte>)
    requires Accepts(ranges, ptr, len, true) && len > 0
    ensures var s := Asking(ranges, OneRead(ptr, len), bytes);
      && Callable(s, 0)
      && var r := Trap(s, 0, 0, Nothing());
         var m := Target(ranges, 8192, LowPages(ranges), Some(ranges), true);
         var (con, count) := Deliver(s.console, m, 0, 0, ptr, len, 0);
         && r.console == con && r.procs != [] && r.procs[0].ranges == ranges && r.procs[0].foreground
         && (count == 0 ==> |r.procs[0].pending| == 8 && r.procs[0].pending[0].Some?)
  {
    hide Accepts;
    hide Deliver;
    hide LowPages;
    hide ReadOp;
    var s := Submitted(Asking(ranges, OneRead(ptr, len), bytes), 0);
    assert Roused(s, 0) == s;
    var e := NextSqe(s.procs[0].ring.value);
    assert e == Sqe(OP_READ, ptr, len, 1);
    assert s.procs[0].pending[0].None?;
    var l := Noted(s.logs[0], e, true);
    var s0 := s.(logs := s.logs[0 := l]);
    Read(s0, 0, ptr, len);
    var s1 := Consume(s, 0, Nothing());
    ConsumeKept(s, 0, Nothing());
    assert Empty(s1.procs[0].ring.value);
    assert Drain(s, 0, Nothing()) == s1;
  }

  /** A run in which the bytes are typed before the process asks for them. */
  lemma TypedThenRead(ranges: seq<Range>, bytes: seq<Byte>, ptr: Word, len: Word) returns (r: State)
    requires |bytes| <= Input.CAPACITY && Accepts(ranges, ptr, len, true) && len > 0
    ensures RunsWith(r, ranges) && r.procs[0].foreground
    ensures var typed := Console(bytes, |bytes| < Input.CAPACITY, bytes, [], [], false);
      var m := Target(ranges, 8192, LowPages(ranges), Some(ranges), true);
      var (con, count) := Deliver(typed, m, 0, 0, ptr, len, 0);
      r.console == con && (count == 0 && !con.halted ==> |r.procs[0].pending| == 8 && r.procs[0].pending[0].Some?)
  {
    hide Reachable;
    hide Accepts;
    hide Deliver;
    hide Trap;
    hide LowPages;
    Typed(ranges, OneRead(ptr, len), bytes);
    var s := Asking(ranges, OneRead(ptr, len), bytes);
    assert EnvOk(s, Nothing());
    StepTo(s, CallEnter(0, Nothing()));
    Asked(ranges, ptr, len, bytes);
    r := Onward(s, CallEnter(0, Nothing()));
  }

  /** A page of an image below the window is what that image has there. */
  lemma CoversPage(v: nat)
    requires v < WINDOW
    ensures v in LowPages(Covering(v)) && !LowPages(Covering(v))[v]
  {
    assert v * 4096 / 4096 == v && v * 4096 % TWO48 == v * 4096;
    assert RangeCovers(Covering(v)[0], v);
    assert LastRange(Covering(v), v) == 0;
  }

  /** The page that address `a` is in, if it is one below the window. */
  function LowPage(a: nat): nat {
    if a / 4096 < WINDOW then a / 4096 else 0
  }

  /** After such a spawn, a store that is not steady does not land. */
  lemma Faults(ranges: seq<Range>, shared: map<nat, bool>, a: nat)
    requires !Consoles.Steady(ranges, a)
    ensures !Lands(Target(ranges, 8192, shared + LowPages(Covering(LowPage(a))), Some(ranges), true), a)
  {
    hide LowPages;
    CoversPage(LowPage(a));
  }

  /** The spawn is consumed first. */
  lemma Spawned(ranges: seq<Range>, a: Word, bytes: seq<Byte>, v: nat)
    ensures var s := Asking(ranges, SpawnThenRead(a), bytes);
      && Ringed(s, 0) && !IsChild(s.procs, 0, 0)
      && var r := Consume(s, 0, OneImage(v));
         && Ringed(r, 0) && !IsChild(r.procs, 0, 0) && r.console == s.console && r.cpu.live == 8192
         && r.procs[0].root == 8192 && r.procs[0].ranges == ranges && r.procs[0].foreground
         && r.shared == s.shared + LowPages(Covering(v)) && |r.logs[0].reqs| == 1
         && !Empty(r.procs[0].ring.value) && NextSqe(r.procs[0].ring.value) == Sqe(OP_READ, a, 1, 2)
         && r.procs[0].ring.value.sqTail == 2 && r.procs[0].ring.value.sqHead == 1
  {
    hide LowPages;
    var s := Asking(ranges, SpawnThenRead(a), bytes);
    assert NextSqe(s.procs[0].ring.value) == Sqe(OP_SPAWN, USER_STACK_VA, 0, 1);
    assert Accepts(ranges, USER_STACK_VA, 0, false);
    ConsumeKept(s, 0, OneImage(v));
  }

  /** A run in which a byte is lost to a store that faults: the process spawns another, whose image
      takes over a shared page, and reads into an address that is not its own for good. */
  lemma TypedThenFault(ranges: seq<Range>, a: Word) returns (r: State)
    requires Accepts(ranges, a, 1, true) && !Consoles.Steady(ranges, a)
    ensures RunsWith(r, ranges) && r.console.halted && r.console.popped == [0] && r.console.given == []
  {
    hide Reachable;
    hide Accepts;
    hide Trap;
    hide LowPages;
    hide Consume;
    var v := LowPage(a);
    Typed(ranges, SpawnThenRead(a), [0]);
    var s := Asking(ranges, SpawnThenRead(a), [0]);
    assert EnvOk(s, OneImage(v));
    StepTo(s, CallEnter(0, OneImage(v)));
    FaultsInside(ranges, a);
    r := Onward(s, CallEnter(0, OneImage(v)));
  }

  lemma FaultsInside(ranges: seq<Range>, a: Word)
    requires Accepts(ranges, a, 1, true) && !Consoles.Steady(ranges, a)
    ensures var s := Asking(ranges, SpawnThenRead(a), [0]);
      && Callable(s, 0)
      && var con := Trap(s, 0, 0, OneImage(LowPage(a))).console;
         con.halted && con.popped == [0] && con.given == []
  {
    hide Accepts;
    hide LowPages;
    hide Consume;
    hide Lands;
    hide Consoles.Steady;
    var env := OneImage(LowPage(a));
    var s := Submitted(Asking(ranges, SpawnThenRead(a), [0]), 0);
    assert Roused(s, 0) == s;
    SpawnedToo(ranges, a, env);
    var s1 := Consume(s, 0, env);
    Faults(ranges, LowPages(ranges), a);
    ReadFaults(s1, a, env);
    var s2 := Consume(s1, 0, env);
    ConsumeKept(s1, 0, env);
    assert Drain(s1, 0, env) == s2 && Drain(s, 0, env) == s2;
  }

  /** `Submitted` changes only what is owed. */
  lemma SpawnedToo(ranges: seq<Range>, a: Word, env: Env)
    requires env == OneImage(LowPage(a))
    ensures var s := Submitted(Asking(ranges, SpawnThenRead(a), [0]), 0);
      && s == Asking(ranges, SpawnThenRead(a), [0])
      && Ringed(s, 0) && !IsChild(s.procs, 0, 0)
      && var r := Consume(s, 0, env);
         && Ringed(r, 0) && !IsChild(r.procs, 0, 0) && r.console == s.console && r.cpu.live == 8192
         && r.procs[0].root == 8192 && r.procs[0].ranges == ranges && r.procs[0].foreground
         && r.shared == LowPages(ranges) + LowPages(Covering(LowPage(a))) && |r.logs[0].reqs| == 1
         && NextSqe(r.procs[0].ring.value) == Sqe(OP_READ, a, 1, 2)
         && r.procs[0].ring.value.sqTail == 2 && r.procs[0].ring.value.sqHead == 1
  {
    hide LowPages;
    hide Consume;
    Spawned(ranges, a, [0], LowPage(a));
  }

  lemma ReadFaults(s: State, a: Word, env: Env)
    requires Ringed(s, 0) && !IsChild(s.procs, 0, 0) && s.procs[0].foreground && s.cpu.live == s.procs[0].root
    requires NextSqe(s.procs[0].ring.value) == Sqe(OP_READ, a, 1, 2) && Accepts(s.procs[0].ranges, a, 1, true)
    requires !Lands(Target(s.procs[0].ranges, s.cpu.live, s.shared, Some(s.procs[0].ranges), true), a)
    requires s.console == Console([0], true, [0], [], [], false)
    ensures var con := Consume(s, 0, env).console; con.halted && con.popped == [0] && con.given == []
  {
    hide Accepts;
    hide Lands;
    var e := NextSqe(s.procs[0].ring.value);
    var s0 := s.(logs := s.logs[0 := Noted(s.logs[0], e, true)]);
    assert Foreground(s0.procs) == Some(0);
    var (con, count) := Deliver(s0.console, Facing(s0, 0), 0, |s.logs[0].reqs|, a, 1, 0);
    assert con.halted && con.popped == [0] && con.given == [] && count == 0;
    assert Process(s, 0, e, env).console == con;
  }

  /** No run loses a byte, if and only if the gate takes each of the first 255 bytes of every range
      that it accepts for writing, 255 being as much as one read can get, and all that it takes lies in
      the process's own window on pages that no read-only range overlays. */
  lemma LosslessIff(ranges: seq<Range>)
    ensures (forall s | RunsWith(s, ranges) :: Consoles.Bytes(s.console.given) == s.console.popped)
      <==> ByteSafe(ranges, Input.CAPACITY) && Consoles.AllLand(ranges)
  {
    hide Reachable;
    hide Accepts;
    hide Consoles.Steady;
    forall s | RunsWith(s, ranges)
      ensures ByteSafe(ranges, Input.CAPACITY) && Consoles.AllLand(ranges)
        ==> Consoles.Bytes(s.console.given) == s.console.popped
    {
      ConsoleInput(s);
    }
    if !Consoles.AllLand(ranges) {
      var a: nat :| Accepts(ranges, a, 1, true) && !Consoles.Steady(ranges, a);
      AcceptedBelow(ranges, a, 1, true);
      var r := TypedThenFault(ranges, a);
      assert |r.console.given| < |r.console.popped|;
    } else if !ByteSafe(ranges, Input.CAPACITY) {
      LosesOne(ranges);
    }
  }

  lemma LosesOne(ranges: seq<Range>)
    requires !ByteSafe(ranges, Input.CAPACITY)
    ensures !(forall s | RunsWith(s, ranges) :: Consoles.Bytes(s.console.given) == s.console.popped)
  {
    hide Reachable;
    hide Accepts;
    hide Lands;
    hide LowPages;
    var ptr: nat, len: nat, off: nat :|
      Accepts(ranges, ptr, len, true) && off < len && off < Input.CAPACITY && !ByteAccepted(ranges, ptr, off);
    AcceptedBelow(ranges, ptr, len, true);
    var bytes := seq(off + 1, _ => 0);
    var r := TypedThenRead(ranges, bytes, ptr, len);
    var typed := Console(bytes, |bytes| < Input.CAPACITY, bytes, [], [], false);
    var m := Target(ranges, 8192, LowPages(ranges), Some(ranges), true);
    assert !Consoles.TakenAt(m, ptr, off);
    Consoles.DeliverMoves(typed, m, 0, 0, ptr, len);
    Consoles.DeliverLoses(typed, m, 0, 0, ptr, len);
    assert |r.console.given| < |r.console.popped|;
  }

  /** No foreground read ever waits beside buffered bytes, as long as the machine runs, if and only if
      the gate takes the first byte of every range that it accepts for writing. */
  lemma PromptIff(ranges: seq<Range>)
    ensures (forall s | RunsWith(s, ranges) :: Prompt(s)) <==> ByteSafe(ranges, 1)
  {
    hide Reachable;
    hide Accepts;
    hide Lands;
    hide LowPages;
    forall s | RunsWith(s, ranges) ensures ByteSafe(ranges, 1) ==> Prompt(s) {
      ConsoleInput(s);
    }
    if !ByteSafe(ranges, 1) {
      var ptr: nat, len: nat, off: nat :| Accepts(ranges, ptr, len, true) && off < len && off < 1
        && !ByteAccepted(ranges, ptr, off);
      AcceptedBelow(ranges, ptr, len, true);
      var r := TypedThenRead(ranges, [0, 0], ptr, len);
      var typed := Console([0, 0], true, [0, 0], [], [], false);
      var m := Target(ranges, 8192, LowPages(ranges), Some(ranges), true);
      assert !Consoles.TakenAt(m, ptr, 0);
      Consoles.DeliverMoves(typed, m, 0, 0, ptr, len);
      Consoles.DeliverLoses(typed, m, 0, 0, ptr, len);
      assert !Prompt(r);
    }
  }

  /** Process 0 has no parked read while it has the keyboard and bytes are buffered. */
  ghost predicate Prompt(s: State)
    requires s.procs != []
  {
    !s.console.halted ==>
      forall j | 0 <= j < |s.procs[0].pending| && s.procs[0].foreground && s.procs[0].pending[j].Some? ::
        s.console.input == []
  }

  /** Byte `a` of writable range `k`, the first range that has it, is not steady: it lies below the
      window or at or above 2^48, or a later read-only range overlays its page. */
  predicate Astray(ranges: seq<Range>, k: nat, a: nat) {
    && k < |ranges| && ranges[k].writable && HasByte(ranges[k], a) && !Consoles.Steady(ranges, a)
    && forall i | 0 <= i < k :: !HasByte(ranges[i], a)
  }

  /** The second half of that condition, range by range. */
  lemma AllLandIff(ranges: seq<Range>)
    requires Bounded(ranges)
    ensures Consoles.AllLand(ranges) <==> forall k: nat, a: nat :: !Astray(ranges, k, a)
  {
    hide Consoles.Steady;
    forall a: nat | Accepts(ranges, a, 1, true) && !Consoles.Steady(ranges, a)
      ensures exists k: nat, b: nat :: Astray(ranges, k, b)
    {
      StackSteady(ranges, a);
      FirstDecides(ranges, a, a + 1, true);
      assert Astray(ranges, First(ranges, a, a + 1), a);
    }
    forall k: nat, a: nat | Astray(ranges, k, a)
      ensures Accepts(ranges, a, 1, true)
    {
      MatchOnly(ranges, a, a + 1, true, k);
    }
  }

  lemma StackSteady(ranges: seq<Range>, a: nat)
    ensures OnStack(a, a + 1) ==> Consoles.Steady(ranges, a)
  {}

  /** Ranges as an ordinary linker lays them out, apart and inside the window, lose nothing. */
  lemma DisjointLossless(ranges: seq<Range>)
    requires RangesDisjoint(ranges) && RangesOk(ranges)
    requires forall i | 0 <= i < |ranges| :: USER_BASE <= ranges[i].start && ranges[i].end <= TWO48
    ensures ByteSafe(ranges, Input.CAPACITY) && Consoles.AllLand(ranges)
  {
    hide Accepts;
    hide RangesDisjoint;
    DisjointNotShadowed(ranges, 1);
    PartsByteSafe(ranges, Input.CAPACITY);
    forall a: nat | Accepts(ranges, a, 1, true)
      ensures Consoles.Steady(ranges, a)
    {
      DisjointLands(ranges, a);
    }
  }

  lemma DisjointLands(ranges: seq<Range>, a: nat)
    requires RangesDisjoint(ranges) && RangesOk(ranges) && Accepts(ranges, a, 1, true)
    requires forall i | 0 <= i < |ranges| :: USER_BASE <= ranges[i].start && ranges[i].end <= TWO48
    ensures Consoles.Steady(ranges, a)
  {
    if !OnStack(a, a + 1) {
      hide RangesDisjoint;
      var i := MatchFound(ranges, a, a + 1, true);
      var v := a / 4096;
      assert PageOf(a) == v;
      ByteCovered(ranges[i], a);
      var j := LastRange(ranges, v);
      OneRange(ranges, i, j, v);
    }
  }

  /** Ranges that share no byte share no page. */
  lemma OneRange(ranges: seq<Range>, i: nat, j: nat, v: nat)
    requires RangesDisjoint(ranges) && RangesOk(ranges) && i < |ranges| && j < |ranges|
    requires RangeCovers(ranges[i], v) && RangeCovers(ranges[j], v)
    requires forall k | 0 <= k < |ranges| :: ranges[k].end <= TWO48
    ensures i == j
  {
    assert RangeOk(ranges[i]) && RangeOk(ranges[j]);
    assert HasByte(ranges[i], v * 4096) && HasByte(ranges[j], v * 4096);
  }
}
