/**
 What the restriction of the handshake to early rings is for: a ring set up while the poller
 sleeps is stranded, and boot leads to such a state (kernel/src/ring.rs).
 */
module Windows {
  import opened Frames
  import opened Rings
  import opened Kernel
  import opened Steps
  import opened Machine
  import Handshake
  import Sched

  /** The stores of one `sqe` call. */
  function Queued(s: State, p: nat, e: Sqe): State
    requires Ringed(s, p) && s.clients[p].at.Idle?
      && Sub(s.procs[p].ring.value.sqTail, s.procs[p].ring.value.sqHead) < ENTRIES
  {
    var s1 := UserEvent(s, p, Begin(e));
    var s2 := UserEvent(s1, p, StoreField);
    var s3 := UserEvent(s2, p, StoreField);
    var s4 := UserEvent(s3, p, StoreField);
    var s5 := UserEvent(s4, p, StoreField);
    UserEvent(s5, p, Publish)
  }

  /** A ring set up while the poller sleeps has its flag down: the first submit does not trap, and
      its request stays unconsumed with the poller asleep, in every such state. */
  lemma LateRingStranded(s: State, p: nat, e: Sqe, env: Env)
    requires Inv(s) && InUser(s, p) && s.procs[p].ring.None? && Handshake.PollerSleeps(s)
    ensures var s1 := Setup(s, p);
      && Ringed(s1, p) && s1.clients[p].at.Idle?
           && Sub(s1.procs[p].ring.value.sqTail, s1.procs[p].ring.value.sqHead) < ENTRIES
      && var s2 := Queued(s1, p, e);
         && Callable(s2, p)
         && var s3 := Submit(s2, p, env);
            Handshake.PollerSleeps(s3) && Ringed(s3, p) && !Empty(s3.procs[p].ring.value) && !s3.clients[p].unsubmitted
  {
    hide Slot;
    InvBasics(s);
    var s1 := Setup(s, p);
    assert Ringed(s1, p);
    var s2 := Queued(s1, p, e);
    assert s2.procs[p].ring.value.flags == 0;
    assert s2.procs[p].ring.value.sqTail == 1 && s2.procs[p].ring.value.sqHead == 0;
  }

  /** Boot with one process, the poller idle for long enough to go to sleep. */
  function Example(current: nat, pc: Pc, pollerState: Sched.RunState, live: nat): State {
    State(
      [NewProc(8192, [], None).(foreground := true)], [NewLog()], [NewClient()],
      Cpu([Sched.Task(Sched.Runnable, 0, None, None),
           Sched.Task(pollerState, if pollerState == Sched.Blocked then Sched.NEVER else 0, None, None),
           Sched.Task(Sched.Runnable, 0, Some(0), Some(8192))], current, live, {}, 5, map[]),
      Console([], true, [], [], [], false), Poll(pc, 0), Boot(1, 2, 4096), map[])
  }

  function SomeEnv(): Env {
    Env(_ => None, q => 12288 + q)
  }

  lemma ExampleSteps()
    ensures Booted(Example(0, Top, Sched.Runnable, 4096))
    ensures EnvOk(Example(1, Top, Sched.Runnable, 4096), SomeEnv())
    ensures var s := Example(0, Top, Sched.Runnable, 4096);
      Yielded(s) == Example(1, Top, Sched.Runnable, 4096)
    ensures var s := Example(1, Decide(false), Sched.Runnable, 4096);
      Sleep(s) == Example(2, Kernel.Asleep, Sched.Blocked, 8192)
  {
    var s := Example(0, Top, Sched.Runnable, 4096);
    assert Sched.PickFrom(s.cpu.tasks, 0, 1) == 1;
    var d := Example(1, Decide(false), Sched.Runnable, 4096);
    var raised := d.(procs := AllRaised(d.procs));
    assert AllRaised(d.procs) == d.procs;
    assert AllEarly(d.clients, d.procs) == d.clients;
    assert !AnySubmissions(raised);
    var tasks := Sched.SetState(d.cpu.tasks, 1, Sched.Blocked, Sched.NEVER);
    assert Sched.PickFrom(tasks, 1, 1) == 2;
    assert tasks == Example(2, Kernel.Asleep, Sched.Blocked, 8192).cpu.tasks;
  }

  lemma DecideReachable()
    ensures Reachable(Example(1, Decide(false), Sched.Runnable, 4096))
  {
    hide Reachable;
    hide Layout;
    hide Switch;
    hide Sleep;
    ExampleSteps();
    var env := SomeEnv();
    var s0 := Example(0, Top, Sched.Runnable, 4096);
    ReachableBoot(s0);
    StepTo(s0, Yield);
    var s1 := Example(1, Top, Sched.Runnable, 4096);
    StepTo(s1, Poller(env));
    var s2 := Example(1, Scan(0, 1, false), Sched.Runnable, 4096);
    StepTo(s2, Poller(env));
    var s3 := Example(1, Scan(1, 1, false), Sched.Runnable, 4096);
    StepTo(s3, Poller(env));
  }

  /** Such a state is reached from boot: idle, one scan, asleep, the process runs. */
  lemma SleeperReachable() returns (s: State)
    ensures Reachable(s) && InUser(s, 0) && s.procs[0].ring.None? && Handshake.PollerSleeps(s)
  {
    hide Reachable;
    hide Layout;
    hide Switch;
    hide Sleep;
    ExampleSteps();
    DecideReachable();
    StepTo(Example(1, Decide(false), Sched.Runnable, 4096), Poller(SomeEnv()));
    s := Example(2, Kernel.Asleep, Sched.Blocked, 8192);
  }

  lemma InvBasics(s: State)
    requires Inv(s)
    ensures |s.logs| == |s.procs| && |s.clients| == |s.procs| && |s.cpu.tasks| == s.boot.base + |s.procs|
    ensures s.boot.poller < |s.cpu.tasks| && s.cpu.current < |s.cpu.tasks|
    ensures forall p | 0 <= p < |s.procs| :: |s.procs[p].pending| == 8 && LogShape(s.logs[p]) && !IsChild(s.procs, p, p)
  {
    forall p | 0 <= p < |s.procs| ensures |s.procs[p].pending| == 8 && LogShape(s.logs[p]) && !IsChild(s.procs, p, p) {
      assert ProcShape(s.procs[p], p);
    }
  }
}
