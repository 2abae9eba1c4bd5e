/**
 What the two assumptions on the poller are for (kernel/src/ring.rs, `sqpoll_main`).

 The machine of module Steps runs the poller's check-activate-drain of one process and its
 raise-rescan-block as single steps.  Here both are cut where an interrupt can come, and
 between the cuts every other step may happen; three runs from boot break what holds without.
 */
module Preemption {
  import opened Bits
  import opened Frames
  import opened Gate
  import opened Rings
  import opened Kernel
  import opened Draining
  import opened Steps
  import opened Machine
  import Handshake
  import Spaces
  import Sched

  /** Where inside a cut step the poller is: nowhere, before the re-scan, before `block_current`,
      between the check of process i and `activate`, or between that and `drain`. */
  datatype Cut = Between | Raised | Rescanned | Checked(i: nat) | Activated(i: nat)

  datatype Split = Split(s: State, cut: Cut)

  datatype Move = Whole(a: Action) | Raise | Rescan | Block | CheckOne | ActivateOne | DrainOne(env: Env)

  /** The poller is about to raise the flags and sleep. */
  ghost predicate Idle(s: State) {
    s.poll.pc == Decide(false) && s.cpu.ticks - s.poll.lastWork >= SQ_IDLE_TICKS
  }

  ghost predicate CanMove(x: Split, m: Move) {
    var s := x.s;
    match m
    case Whole(a) => Ready(s) && Enables(s, a) && (a.Poller? ==> x.cut.Between?)
    case Raise => s.cpu.current == s.boot.poller && x.cut.Between? && Idle(s)
    case Rescan => s.cpu.current == s.boot.poller && x.cut.Raised?
    case Block => s.cpu.current == s.boot.poller && x.cut.Rescanned? && s.cpu.current < |s.cpu.tasks|
      && |s.clients| == |s.procs|
    case CheckOne =>
      && s.cpu.current == s.boot.poller && x.cut.Between? && s.poll.pc.Scan? && s.poll.pc.i < s.poll.pc.n
      && HasSubmissions(s, s.poll.pc.i)
    case ActivateOne => s.cpu.current == s.boot.poller && x.cut.Checked? && x.cut.i < |s.procs|
    case DrainOne(env) =>
      && s.cpu.current == s.boot.poller && x.cut.Activated? && s.poll.pc.Scan? && EnvOk(s, env)
      && x.cut.i < |s.procs|
      && (s.procs[x.cut.i].ring.Some? ==> Ringed(s, x.cut.i) && !IsChild(s.procs, x.cut.i, x.cut.i))
  }

  ghost function Moved(x: Split, m: Move): Split
    requires CanMove(x, m)
  {
    var s := x.s;
    match m
    case Whole(a) => Split(Onward(s, a), x.cut)
    case Raise => Split(s.(procs := AllRaised(s.procs)), Raised)
    case Rescan =>
      if AnySubmissions(s) then Split(s.(poll := s.poll.(pc := Clear(0, |s.procs|))), Between) else Split(s, Rescanned)
    case Block =>
      Split(s.(clients := AllEarly(s.clients, s.procs), poll := s.poll.(pc := Asleep),
               cpu := Switch(s.cpu.(tasks := Sched.SetState(s.cpu.tasks, s.cpu.current, Sched.Blocked, Sched.NEVER)))),
                 Between)
    case CheckOne => Split(s, Checked(s.poll.pc.i))
    case ActivateOne => Split(s.(cpu := s.cpu.(live := s.procs[x.cut.i].root)), Activated(x.cut.i))
    case DrainOne(env) =>
      var s1 := s.(poll := s.poll.(pc := Scan(s.poll.pc.i + 1, s.poll.pc.n, true)));
      Split(if s.procs[x.cut.i].ring.Some? then Drain(s1, x.cut.i, env) else s1, Between)
  }

  ghost predicate Path(xs: seq<Split>, ms: seq<Move>) {
    && |xs| == |ms| + 1 && Booted(xs[0].s) && xs[0].cut == Between
    && forall i | 0 <= i < |ms| :: CanMove(xs[i], ms[i]) && xs[i + 1] == Moved(xs[i], ms[i])
  }

  ghost predicate SplitReachable(x: Split) {
    exists xs, ms :: Path(xs, ms) && xs[|ms|] == x
  }

  lemma SplitBoot(s: State)
    requires Booted(s)
    ensures SplitReachable(Split(s, Between))
  {
    hide Booted;
    assert Path([Split(s, Between)], []);
  }

  lemma SplitTo(x: Split, m: Move)
    requires SplitReachable(x) && CanMove(x, m)
    ensures SplitReachable(Moved(x, m))
  {
    hide Booted;
    hide CanMove;
    hide Moved;
    var xs, ms :| Path(xs, ms) && xs[|ms|] == x;
    assert Path(xs + [Moved(x, m)], ms + [m]);
  }

  /** The cut machine can do all that the other can. */
  lemma {:induction false} Covers(s: State, acts: seq<Action>, x: Split)
    requires x == Split(s, Between) && SplitReachable(x) && Runs(s, acts)
    ensures SplitReachable(Split(After(s, acts), Between))
    decreases |acts|
  {
    hide SplitReachable;
    hide Onward;
    hide Enables;
    hide Ready;
    if acts != [] {
      SplitTo(x, Whole(acts[0]));
      Covers(Onward(s, acts[0]), acts[1..], Split(Onward(s, acts[0]), Between));
    }
  }

  // ---------------------------------------------------------------- the states of the two runs

  /** The idle task, the poller and one process with ring page `page`; all three can run. */
  function At(page: Option<Page>, client: Client, current: nat, live: nat, ticks: nat, pc: Pc): State {
    State(
      [NewProc(8192, [], None).(foreground := true, ring := page)], [NewLog()], [client],
      Cpu([Sched.Task(Sched.Runnable, 0, None, None), Sched.Task(Sched.Runnable, 0, None, None),
           Sched.Task(Sched.Runnable, 0, Some(0), Some(8192))], current, live, {}, ticks, map[]),
      Console([], true, [], [], [], false), Poll(pc, 0), Boot(1, 2, 4096), map[])
  }

  /** The tasks take turns: idle, poller, process. */
  lemma Turns(page: Option<Page>, client: Client, live: nat, ticks: nat, pc: Pc)
    ensures Yielded(At(page, client, 0, live, ticks, pc)) == At(page, client, 1, live, ticks, pc)
    ensures Tick(At(page, client, 1, live, ticks, pc)) == At(page, client, 2, 8192, ticks + 1, pc)
    ensures Tick(At(page, client, 2, live, ticks, pc)) == At(page, client, 0, live, ticks + 1, pc)
  {
    var s := At(page, client, 0, live, ticks, pc);
    assert Sched.PickFrom(s.cpu.tasks, 0, 1) == 1 && Sched.PickFrom(s.cpu.tasks, 1, 1) == 2
      && Sched.PickFrom(s.cpu.tasks, 2, 1) == 0;
    assert Sched.SleepersWoken(s.cpu.tasks, ticks + 1) == s.cpu.tasks;
  }

  /** Every such state is fit for a step. */
  lemma AtReady(page: Option<Page>, client: Client, current: nat, live: nat, ticks: nat, pc: Pc)
    requires current < 3 && (page.Some? ==> PageOk(page.value))
      && (pc == Top || pc == Scan(0, 1, false) || pc == Scan(1, 1, false) || pc == Decide(false))
    requires current == 2 ==> live == 8192
    ensures Ready(At(page, client, current, live, ticks, pc))
  {
    var s := At(page, client, current, live, ticks, pc);
    forall t | 0 <= t < 3 ensures TaskShape(s, t) {}
    assert ProcShape(s.procs[0], 0);
  }

  function Quiet(): Env {
    Env(_ => None, q => 12288 + q)
  }

  lemma QuietOk(page: Option<Page>, client: Client, current: nat, live: nat, ticks: nat, pc: Pc)
    ensures EnvOk(At(page, client, current, live, ticks, pc), Quiet())
  {}

  lemma BootAt()
    ensures Booted(At(None, NewClient(), 0, 4096, 5, Top))
  {}

  /** The idle task yields and the clock takes the poller's turn. */
  lemma ToProcess(page: Option<Page>, client: Client, live: nat, ticks: nat)
    requires SplitReachable(Split(At(page, client, 0, live, ticks, Top), Between)) && ticks < 100
    requires page.Some? ==> PageOk(page.value)
    ensures SplitReachable(Split(At(page, client, 2, 8192, ticks + 1, Top), Between))
  {
    hide SplitReachable;
    hide Ready;
    hide Tick;
    hide Yielded;
    Turns(page, client, live, ticks, Top);
    AtReady(page, client, 0, live, ticks, Top);
    SplitTo(Split(At(page, client, 0, live, ticks, Top), Between), Whole(Yield));
    AtReady(page, client, 1, live, ticks, Top);
    SplitTo(Split(At(page, client, 1, live, ticks, Top), Between), Whole(Timer));
  }

  /** The clock takes the process's turn and the idle task yields to the poller. */
  lemma ToPoller(page: Option<Page>, client: Client, ticks: nat, pc: Pc, cut: Cut)
    requires SplitReachable(Split(At(page, client, 2, 8192, ticks, pc), cut)) && ticks < 100
    requires (page.Some? ==> PageOk(page.value)) && (pc == Top || pc == Decide(false))
    ensures SplitReachable(Split(At(page, client, 1, 8192, ticks + 1, pc), cut))
  {
    hide SplitReachable;
    hide Ready;
    hide Tick;
    hide Yielded;
    Turns(page, client, 8192, ticks, pc);
    AtReady(page, client, 2, 8192, ticks, pc);
    SplitTo(Split(At(page, client, 2, 8192, ticks, pc), cut), Whole(Timer));
    Turns(page, client, 8192, ticks + 1, pc);
    AtReady(page, client, 0, 8192, ticks + 1, pc);
    SplitTo(Split(At(page, client, 0, 8192, ticks + 1, pc), cut), Whole(Yield));
  }

  /** The clock takes the poller's turn, in the middle of a cut step. */
  lemma Interrupted(page: Option<Page>, client: Client, ticks: nat, pc: Pc, cut: Cut)
    requires SplitReachable(Split(At(page, client, 1, 8192, ticks, pc), cut)) && ticks < 100
    requires (page.Some? ==> PageOk(page.value)) && (pc == Scan(0, 1, false) || pc == Decide(false))
    ensures SplitReachable(Split(At(page, client, 2, 8192, ticks + 1, pc), cut))
  {
    hide SplitReachable;
    hide Ready;
    hide Tick;
    Turns(page, client, 8192, ticks, pc);
    AtReady(page, client, 1, 8192, ticks, pc);
    SplitTo(Split(At(page, client, 1, 8192, ticks, pc), cut), Whole(Timer));
  }

  /** The process sets up its ring. */
  lemma RingSetUp()
    ensures SplitReachable(Split(At(Some(ZeroPage()), NewClient(), 2, 8192, 6, Top), Between))
  {
    hide SplitReachable;
    hide Ready;
    BootAt();
    SplitBoot(At(None, NewClient(), 0, 4096, 5, Top));
    ToProcess(None, NewClient(), 4096, 5);
    var s := At(None, NewClient(), 2, 8192, 6, Top);
    AtReady(None, NewClient(), 2, 8192, 6, Top);
    SplitTo(Split(s, Between), Whole(CallSetup));
    assert Next(s, CallSetup) == At(Some(ZeroPage()), NewClient(), 2, 8192, 6, Top);
  }

  /** The poller finds nothing to do. */
  lemma NothingToDo()
    ensures SplitReachable(Split(At(Some(ZeroPage()), NewClient(), 1, 8192, 7, Decide(false)), Between))
  {
    hide SplitReachable;
    hide Ready;
    RingSetUp();
    ToPoller(Some(ZeroPage()), NewClient(), 6, Top, Between);
    PollerTurn(Top, Scan(0, 1, false));
    PollerTurn(Scan(0, 1, false), Scan(1, 1, false));
    PollerTurn(Scan(1, 1, false), Decide(false));
  }

  lemma PollerTurn(pc: Pc, pc': Pc)
    requires SplitReachable(Split(At(Some(ZeroPage()), NewClient(), 1, 8192, 7, pc), Between))
    requires (pc == Top && pc' == Scan(0, 1, false)) || (pc == Scan(0, 1, false) && pc' == Scan(1, 1, false))
      || (pc == Scan(1, 1, false) && pc' == Decide(false))
    ensures SplitReachable(Split(At(Some(ZeroPage()), NewClient(), 1, 8192, 7, pc'), Between))
  {
    hide SplitReachable;
    hide Ready;
    var s := At(Some(ZeroPage()), NewClient(), 1, 8192, 7, pc);
    AtReady(Some(ZeroPage()), NewClient(), 1, 8192, 7, pc);
    QuietOk(Some(ZeroPage()), NewClient(), 1, 8192, 7, pc);
    SplitTo(Split(s, Between), Whole(Poller(Quiet())));
    assert !HasSubmissions(s, 0);
    assert Next(s, Poller(Quiet())) == At(Some(ZeroPage()), NewClient(), 1, 8192, 7, pc');
  }

  function FlagRaised(): (page: Page)
    ensures PageOk(page)
  {
    ZeroPage().(flags := 1)
  }

  /** It raises the flag, looks once more, and is preempted. */
  lemma RaisedAndPreempted()
    ensures SplitReachable(Split(At(Some(FlagRaised()), NewClient(), 2, 8192, 8, Decide(false)), Rescanned))
  {
    hide SplitReachable;
    NothingToDo();
    var s := At(Some(ZeroPage()), NewClient(), 1, 8192, 7, Decide(false));
    var s' := At(Some(FlagRaised()), NewClient(), 1, 8192, 7, Decide(false));
    SplitTo(Split(s, Between), Raise);
    assert AllRaised(s.procs) == s'.procs;
    assert !HasSubmissions(s', 0);
    SplitTo(Split(s', Raised), Rescan);
    Interrupted(Some(FlagRaised()), NewClient(), 7, Decide(false), Rescanned);
  }

  /** The process enters the kernel: its flag goes down, and the poller, still runnable, is not woken. */
  lemma FlagLowered()
    ensures SplitReachable(Split(At(Some(ZeroPage()), NewClient(), 2, 8192, 8, Decide(false)), Rescanned))
  {
    hide SplitReachable;
    hide Ready;
    RaisedAndPreempted();
    var s := At(Some(FlagRaised()), NewClient(), 2, 8192, 8, Decide(false));
    AtReady(Some(FlagRaised()), NewClient(), 2, 8192, 8, Decide(false));
    QuietOk(Some(FlagRaised()), NewClient(), 2, 8192, 8, Decide(false));
    SplitTo(Split(s, Rescanned), Whole(CallEnter(0, Quiet())));
    assert Submitted(s, 0) == s;
    Entered(s);
  }

  lemma Entered(s: State)
    requires s == At(Some(FlagRaised()), NewClient(), 2, 8192, 8, Decide(false))
    ensures Callable(s, 0) && Enter(s, 0, 0, Quiet()) == At(Some(ZeroPage()), NewClient(), 2, 8192, 8, Decide(false))
  {
    var s' := At(Some(ZeroPage()), NewClient(), 2, 8192, 8, Decide(false));
    assert Sched.Woken(s.cpu.tasks, 1) == s.cpu.tasks;
    assert Roused(s, 0) == s';
    assert Empty(s'.procs[0].ring.value) && Drain(s', 0, Quiet()) == s';
    assert s'.cpu.enters - {2} == map[];
  }

  /** Preempted between the re-scan and `block_current`, the poller falls asleep with the flag of an
      early ring down: from then on that ring's submits neither trap nor are polled. */
  lemma SleepsWithFlagDown() returns (x: Split)
    ensures SplitReachable(x) && x.cut == Between && Handshake.PollerSleeps(x.s)
    ensures |x.s.procs| == 1 && x.s.procs[0].ring.Some? && !FlagUp(x.s.procs[0].ring.value)
    ensures |x.s.clients| == 1 && x.s.clients[0].honest && x.s.clients[0].early
  {
    hide SplitReachable;
    FlagLowered();
    ToPoller(Some(ZeroPage()), NewClient(), 8, Decide(false), Rescanned);
    var y := Split(At(Some(ZeroPage()), NewClient(), 1, 8192, 9, Decide(false)), Rescanned);
    SplitTo(y, Block);
    x := Moved(y, Block);
  }

  /** A page with one request published. */
  function OneRequest(): (page: Page)
    ensures PageOk(page)
  {
    ZeroPage().(sqTail := 1)
  }

  function AnyStores(): Client {
    NewClient().(honest := false)
  }

  /** The poller finds the request and is preempted before `activate`. */
  lemma CheckedAndPreempted()
    ensures SplitReachable(Split(At(Some(OneRequest()), AnyStores(), 2, 8192, 8, Scan(0, 1, false)), Checked(0)))
  {
    hide SplitReachable;
    hide Ready;
    RingSetUp();
    var s0 := At(Some(ZeroPage()), NewClient(), 2, 8192, 6, Top);
    AtReady(Some(ZeroPage()), NewClient(), 2, 8192, 6, Top);
    SplitTo(Split(s0, Between), Whole(Scribble(OneRequest())));
    assert Next(s0, Scribble(OneRequest())) == At(Some(OneRequest()), AnyStores(), 2, 8192, 6, Top);
    ToPoller(Some(OneRequest()), AnyStores(), 6, Top, Between);
    var s1 := At(Some(OneRequest()), AnyStores(), 1, 8192, 7, Top);
    AtReady(Some(OneRequest()), AnyStores(), 1, 8192, 7, Top);
    QuietOk(Some(OneRequest()), AnyStores(), 1, 8192, 7, Top);
    SplitTo(Split(s1, Between), Whole(Poller(Quiet())));
    var s2 := At(Some(OneRequest()), AnyStores(), 1, 8192, 7, Scan(0, 1, false));
    assert Next(s1, Poller(Quiet())) == s2;
    assert HasSubmissions(s2, 0);
    SplitTo(Split(s2, Between), CheckOne);
    Interrupted(Some(OneRequest()), AnyStores(), 7, Scan(0, 1, false), Checked(0));
  }

  /** Preempted between its check and `activate`, the poller installs the root of a process that
      has exited meanwhile, whose tables are free. */
  lemma ActivatesFreedRoot() returns (x: Split)
    ensures SplitReachable(x) && x.s.cpu.live in x.s.cpu.freed && !Spaces.SpaceOk(x.s)
  {
    hide SplitReachable;
    hide Ready;
    CheckedAndPreempted();
    var s := At(Some(OneRequest()), AnyStores(), 2, 8192, 8, Scan(0, 1, false));
    AtReady(Some(OneRequest()), AnyStores(), 2, 8192, 8, Scan(0, 1, false));
    SplitTo(Split(s, Checked(0)), Whole(Leave(0)));
    var z := Next(s, Leave(0));
    Gone(s, z);
    SplitTo(Split(z, Checked(0)), Whole(Yield));
    var y := Split(Yielded(z), Checked(0));
    SplitTo(y, ActivateOne);
    x := Moved(y, ActivateOne);
  }

  /** The exit leaves a husk, a freed root and the idle task running. */
  lemma Gone(s: State, z: State)
    requires s == At(Some(OneRequest()), AnyStores(), 2, 8192, 8, Scan(0, 1, false)) && Ready(s)
      && z == Next(s, Leave(0))
    ensures Ready(z) && Enables(z, Yield) && z.boot == s.boot
    ensures var y := Yielded(z);
            y.cpu.current == 1 && y.cpu.freed == {8192} && |y.procs| == 1 && y.procs[0].root == 8192 && y.boot == s.boot
  {
    var tasks := Sched.SetState(s.cpu.tasks, 2, Sched.Exited, 0);
    assert tasks == [s.cpu.tasks[0], s.cpu.tasks[1], s.cpu.tasks[2].(state := Sched.Exited)];
    assert Sched.PickFrom(tasks, 2, 1) == 0 && Sched.PickFrom(tasks, 0, 1) == 1;
    assert z.cpu.tasks == tasks && z.cpu.current == 0;
    forall t | 0 <= t < 3 ensures TaskShape(z, t) {}
    assert ProcShape(z.procs[0], 0);
  }

  // ---------------------------------------------------------------- two processes

  /** A page with a request to spawn, with an empty name on the stack. */
  function SpawnPage(): (page: Page)
    ensures PageOk(page)
  {
    ZeroPage().(sqTail := 1, sq := ZeroPage().sq[0 := Sqe(OP_SPAWN, USER_STACK_VA, 0, 1)])
  }

  /** A page with a request to read one byte to the bottom of the stack page. */
  function ReadPage(): (page: Page)
    ensures PageOk(page)
  {
    ZeroPage().(sqTail := 1, sq := ZeroPage().sq[0 := Sqe(OP_READ, USER_STACK_VA, 1, 2)])
  }

  /** What a spawn finds: an image without segments. */
  function Found(): Env {
    Env(_ => Some([]), q => 12288 + q)
  }

  /** The process of before has spawned another, and `page` is in its ring. */
  function Two(page: Page, input: seq<Byte>, current: nat, live: nat, ticks: nat, pc: Pc): State {
    State(
      [NewProc(8192, [], None).(foreground := true, ring := Some(page)), NewProc(12289, [], Some(0))],
      [Log([Sqe(OP_SPAWN, USER_STACK_VA, 0, 1)], [true], [Posted(0)], [Cqe(1, 1)], [0], seq(8, _ => 0), 0), NewLog()],
      [AnyStores(), NewClient()],
      Cpu([Sched.Task(Sched.Runnable, 0, None, None), Sched.Task(Sched.Runnable, 0, None, None),
           Sched.Task(Sched.Runnable, 0, Some(0), Some(8192)), Sched.Task(Sched.Runnable, 0, Some(1), Some(12289))],
          current, live, {}, ticks, map[]),
      Console(input, true, input, [], [], false), Poll(pc, 0), Boot(1, 2, 4096), map[])
  }

  lemma TwoTurns(page: Page, input: seq<Byte>, live: nat, ticks: nat, pc: Pc)
    ensures Yielded(Two(page, input, 0, live, ticks, pc)) == Two(page, input, 1, live, ticks, pc)
    ensures Tick(Two(page, input, 1, live, ticks, pc)) == Two(page, input, 2, 8192, ticks + 1, pc)
    ensures Tick(Two(page, input, 2, live, ticks, pc)) == Two(page, input, 3, 12289, ticks + 1, pc)
    ensures Tick(Two(page, input, 3, live, ticks, pc)) == Two(page, input, 0, live, ticks + 1, pc)
  {
    var s := Two(page, input, 0, live, ticks, pc);
    assert Sched.PickFrom(s.cpu.tasks, 0, 1) == 1 && Sched.PickFrom(s.cpu.tasks, 1, 1) == 2;
    assert Sched.PickFrom(s.cpu.tasks, 2, 1) == 3 && Sched.PickFrom(s.cpu.tasks, 3, 1) == 0;
    assert Sched.SleepersWoken(s.cpu.tasks, ticks + 1) == s.cpu.tasks;
  }

  lemma TwoReady(page: Page, input: seq<Byte>, current: nat, live: nat, ticks: nat, pc: Pc)
    requires current < 4 && PageOk(page) && |input| <= 1 && (pc == Top || pc == Scan(0, 2, false))
    ensures Ready(Two(page, input, current, live, ticks, pc))
      && EnvOk(Two(page, input, current, live, ticks, pc), Quiet())
  {
    var s := Two(page, input, current, live, ticks, pc);
    forall t | 0 <= t < 4 ensures TaskShape(s, t) {}
    assert ProcShape(s.procs[0], 0) && ProcShape(s.procs[1], 1);
  }

  /** A tick of the clock. */
  lemma TwoTick(page: Page, input: seq<Byte>, current: nat, live: nat, ticks: nat, pc: Pc, cut: Cut)
    requires SplitReachable(Split(Two(page, input, current, live, ticks, pc), cut)) && ticks < 100
    requires 1 <= current < 4 && PageOk(page) && |input| <= 1 && (pc == Top || pc == Scan(0, 2, false))
    ensures current == 1 ==> SplitReachable(Split(Two(page, input, 2, 8192, ticks + 1, pc), cut))
    ensures current == 2 ==> SplitReachable(Split(Two(page, input, 3, 12289, ticks + 1, pc), cut))
    ensures current == 3 ==> SplitReachable(Split(Two(page, input, 0, live, ticks + 1, pc), cut))
  {
    hide SplitReachable;
    hide Ready;
    hide Tick;
    TwoTurns(page, input, live, ticks, pc);
    TwoReady(page, input, current, live, ticks, pc);
    SplitTo(Split(Two(page, input, current, live, ticks, pc), cut), Whole(Timer));
  }

  /** From the first process round to the poller, past the second one, whose space stays live. */
  lemma TwoRound(page: Page, input: seq<Byte>, ticks: nat, pc: Pc, cut: Cut)
    requires SplitReachable(Split(Two(page, input, 2, 8192, ticks, pc), cut)) && ticks < 50
    requires PageOk(page) && |input| <= 1 && (pc == Top || pc == Scan(0, 2, false))
    ensures SplitReachable(Split(Two(page, input, 1, 12289, ticks + 2, pc), cut))
  {
    hide SplitReachable;
    hide Ready;
    hide Yielded;
    TwoTick(page, input, 2, 8192, ticks, pc, cut);
    TwoTick(page, input, 3, 12289, ticks + 1, pc, cut);
    TwoTurns(page, input, 12289, ticks + 2, pc);
    TwoReady(page, input, 0, 12289, ticks + 2, pc);
    SplitTo(Split(Two(page, input, 0, 12289, ticks + 2, pc), cut), Whole(Yield));
  }

  /** The page once the spawn has been answered. */
  function Answered(): (page: Page)
    ensures PageOk(page)
  {
    Took(Post(SpawnPage(), Cqe(1, 1)))
  }

  lemma Spawns(s: State)
    requires s == At(Some(SpawnPage()), AnyStores(), 2, 8192, 6, Top)
    ensures Callable(s, 0) && Trap(s, 0, 0, Found()) == Two(Answered(), [], 2, 8192, 6, Top)
  {
    hide Consume;
    assert Submitted(s, 0) == s && Roused(s, 0) == s;
    SpawnConsumed(s);
    var s1 := Consume(s, 0, Found());
    ConsumeKept(s, 0, Found());
    assert Empty(s1.procs[0].ring.value) && Drain(s, 0, Found()) == s1;
    assert s1.cpu.enters - {2} == map[];
  }

  lemma SpawnConsumed(s: State)
    requires s == At(Some(SpawnPage()), AnyStores(), 2, 8192, 6, Top)
    ensures Ringed(s, 0) && !IsChild(s.procs, 0, 0) && Consume(s, 0, Found()) == Two(Answered(), [], 2, 8192, 6, Top)
  {
    assert LowPages([]) == map[];
    var e := Sqe(OP_SPAWN, USER_STACK_VA, 0, 1);
    assert NextSqe(SpawnPage()) == e && Accepts([], USER_STACK_VA, 0, false);
    var s0 := s.(logs := s.logs[0 := Noted(s.logs[0], e, true)]);
    var s1 := Born(s0, 0, 12289, []);
    assert SpawnOp(s0, 0, 0, e, Found()) == Complete(s1, 0, 0, Cqe(1, 1));
    SpawnLog(Noted(NewLog(), e, true));
    var t := Two(Answered(), [], 2, 8192, 6, Top);
    var r := Consume(s, 0, Found());
    assert r.procs == t.procs && r.clients == t.clients && r.cpu == t.cpu && r.shared == t.shared;
    assert r.logs == t.logs;
  }

  lemma SpawnLog(l: Log)
    requires l == Noted(NewLog(), Sqe(OP_SPAWN, USER_STACK_VA, 0, 1), true)
    ensures Settled(l, 0, Cqe(1, 1), false)
      == Log([Sqe(OP_SPAWN, USER_STACK_VA, 0, 1)], [true], [Posted(0)], [Cqe(1, 1)], [0], seq(8, _ => 0), 0)
  {
    assert l.fate[0 := Posted(0)] == [Posted(0)];
  }

  lemma FoundOk(s: State)
    requires s == At(Some(SpawnPage()), AnyStores(), 2, 8192, 6, Top)
    ensures EnvOk(s, Found())
  {}

  /** The process spawns another. */
  lemma Spawned()
    ensures SplitReachable(Split(Two(Answered(), [], 2, 8192, 6, Top), Between))
  {
    hide SplitReachable;
    hide Ready;
    hide Trap;
    RingSetUp();
    var s0 := At(Some(ZeroPage()), NewClient(), 2, 8192, 6, Top);
    AtReady(Some(ZeroPage()), NewClient(), 2, 8192, 6, Top);
    SplitTo(Split(s0, Between), Whole(Scribble(SpawnPage())));
    var s1 := At(Some(SpawnPage()), AnyStores(), 2, 8192, 6, Top);
    assert Next(s0, Scribble(SpawnPage())) == s1;
    AtReady(Some(SpawnPage()), AnyStores(), 2, 8192, 6, Top);
    FoundOk(s1);
    Spawns(s1);
    SplitTo(Split(s1, Between), Whole(CallEnter(0, Found())));
  }

  /** It asks for a byte, and one is typed. */
  lemma ReadAsked()
    ensures SplitReachable(Split(Two(ReadPage(), [65], 2, 8192, 6, Top), Between))
  {
    hide SplitReachable;
    hide Ready;
    Spawned();
    var s0, s1 := Two(Answered(), [], 2, 8192, 6, Top), Two(ReadPage(), [], 2, 8192, 6, Top);
    TwoReady(Answered(), [], 2, 8192, 6, Top);
    SplitTo(Split(s0, Between), Whole(Scribble(ReadPage())));
    assert Next(s0, Scribble(ReadPage())) == s1;
    TwoReady(ReadPage(), [], 2, 8192, 6, Top);
    SplitTo(Split(s1, Between), Whole(Uart([65])));
    Arrives(s1);
  }

  lemma Arrives(s: State)
    requires s == Two(ReadPage(), [], 2, 8192, 6, Top) && Ready(s) && Enables(s, Uart([65]))
    ensures Next(s, Uart([65])) == Two(ReadPage(), [65], 2, 8192, 6, Top)
  {
    var bytes: seq<Byte> := [65];
    assert bytes[..1] == bytes && [] + bytes == bytes;
    assert Arrived(s.console, bytes) == Console([65], true, [65], [], [], false);
    assert Foreground(s.procs) == Some(0);
  }

  /** The poller checks and activates, is preempted, and comes back with the other space live. */
  lemma ActivatedAndPreempted()
    ensures SplitReachable(Split(Two(ReadPage(), [65], 1, 12289, 11, Scan(0, 2, false)), Activated(0)))
  {
    hide SplitReachable;
    hide Ready;
    ReadAsked();
    TwoRound(ReadPage(), [65], 6, Top, Between);
    var s := Two(ReadPage(), [65], 1, 12289, 8, Top);
    TwoReady(ReadPage(), [65], 1, 12289, 8, Top);
    SplitTo(Split(s, Between), Whole(Poller(Quiet())));
    var s1 := Two(ReadPage(), [65], 1, 12289, 8, Scan(0, 2, false));
    assert Next(s, Poller(Quiet())) == s1;
    assert HasSubmissions(s1, 0);
    SplitTo(Split(s1, Between), CheckOne);
    SplitTo(Split(s1, Checked(0)), ActivateOne);
    TwoTick(ReadPage(), [65], 1, 8192, 8, Scan(0, 2, false), Activated(0));
    TwoRound(ReadPage(), [65], 9, Scan(0, 2, false), Activated(0));
  }

  /** Preempted between `activate` and `drain`, the poller stores a byte that was typed for one process
      into the memory of another. */
  lemma DeliversElsewhere() returns (x: Split)
    ensures SplitReachable(x) && |x.s.procs| == 2 && |x.s.console.given| == 1
    ensures var d := x.s.console.given[0];
      d.pid == 0 && d.byte == 65 && d.root == x.s.procs[1].root && d.root != x.s.procs[0].root
  {
    hide SplitReachable;
    hide Drain;
    ActivatedAndPreempted();
    var s := Two(ReadPage(), [65], 1, 12289, 11, Scan(0, 2, false));
    TwoReady(ReadPage(), [65], 1, 12289, 11, Scan(0, 2, false));
    var y := Split(s, Activated(0));
    SplitTo(y, DrainOne(Quiet()));
    x := Moved(y, DrainOne(Quiet()));
    Misdelivers(s.(poll := Poll(Scan(1, 2, true), 0)));
  }

  lemma Misdelivers(s: State)
    requires s == Two(ReadPage(), [65], 1, 12289, 11, Scan(1, 2, true))
    ensures Ringed(s, 0) && !IsChild(s.procs, 0, 0)
    ensures var r := Drain(s, 0, Quiet());
      |r.procs| == 2 && r.procs[0].root == 8192 && r.procs[1].root == 12289
      && r.console.given == [Delivery(0, 1, 12289, USER_STACK_VA, 65)]
  {
    var e := Sqe(OP_READ, USER_STACK_VA, 1, 2);
    assert NextSqe(ReadPage()) == e;
    var s0 := s.(logs := s.logs[0 := Noted(s.logs[0], e, true)]);
    assert Foreground(s0.procs) == Some(0);
    assert HostFrom(s0.procs, 12289, 0) == Some(1) by { assert HostFrom(s0.procs, 12289, 1) == Some(1); }
    Arrives1(s0);
    var s1 := Consume(s, 0, Quiet());
    ConsumeKept(s, 0, Quiet());
    assert s1.console.given == [Delivery(0, 1, 12289, USER_STACK_VA, 65)];
    assert Empty(s1.procs[0].ring.value) && Drain(s, 0, Quiet()) == s1;
  }

  lemma Arrives1(s: State)
    requires |s.procs| == 2 && s.console == Console([65], true, [65], [], [], false)
    requires Facing(s, 0) == Target([], 12289, map[], Some([]), false)
    ensures var (con, count) := Deliver(s.console, Facing(s, 0), 0, 1, USER_STACK_VA, 1, 0);
      count == 1 && con.given == [Delivery(0, 1, 12289, USER_STACK_VA, 65)]
  {
    var m := Facing(s, 0);
    assert Takes(m, USER_STACK_VA);
    var next := Landed(s.console, m, 0, 1, USER_STACK_VA);
    assert Deliver(next, m, 0, 1, USER_STACK_VA, 1, 1) == (next, 1);
  }
}
