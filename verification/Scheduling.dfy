/**
 How the whole system uses the scheduler (kernel/src/sched.rs): a task that can run is not passed over for
 more ticks than there are other tasks, whatever system calls, interrupts and exits come between.
 */
module Scheduling {
  import opened Bits
  import opened Frames
  import opened Rings
  import opened Kernel
  import opened Draining
  import opened Steps
  import opened Layouts
  import opened Machine
  import opened Exits
  import opened Entering
  import Input
  import Sched

  /** The running task goes on, or `schedule` has chosen among the tasks as they are now. */
  ghost predicate Picks(s: State, r: State) {
    && |s.cpu.tasks| <= |r.cpu.tasks| && s.cpu.current < |s.cpu.tasks|
    && (r.cpu.current == s.cpu.current || r.cpu.current == Sched.Pick(r.cpu.tasks, s.cpu.current))
  }

  lemma TrapPicks(s: State, p: nat, min: nat, env: Env)
    requires Shape(s) && Ringed(s, p)
    ensures Callable(s, p) && Picks(s, Trap(s, p, min, env))
  {
    hide Layout;
    hide Drain;
    hide Unreaped;
    hide Switch;
    Basics(s);
    var s1 := Submitted(s, p);
    ClientLayout(s, s1);
    RousedLayout(s1, p);
    DrainLayout(Roused(s1, p), p, env);
    DrainEnds(Roused(s1, p), p, env);
  }

  lemma UartPicks(s: State, bytes: seq<Byte>)
    requires |s.console.input| <= Input.CAPACITY && s.cpu.current < |s.cpu.tasks|
    ensures Picks(s, UartIrq(s, bytes))
  {
    hide PollSlots;
    var s0 := s.(console := Arrived(s.console, bytes));
    var fg := Foreground(s0.procs);
    if fg.Some? && Ringed(s0, fg.value) {
      PollSlotsKept(s0.(cpu := s0.cpu.(live := s0.procs[fg.value].root)), fg.value, 0);
    }
  }

  lemma SleepPicks(s: State)
    requires |s.clients| == |s.procs| && s.cpu.current < |s.cpu.tasks|
    ensures Picks(s, Sleep(s))
  {
    hide Switch;
    hide AnySubmissions;
    hide AllRaised;
    hide AllEarly;
  }

  lemma ScanPicks(s: State, i: nat, env: Env)
    requires Shape(s) && HasSubmissions(s, i) && !IsChild(s.procs, i, i)
    ensures Picks(s, Drain(s, i, env))
  {
    Basics(s);
    hide Layout;
    hide Drain;
    DrainEnds(s, i, env);
  }

  lemma ScanStepPicks(s: State, env: Env)
    requires Shape(s) && s.cpu.current == s.boot.poller && PollOk(s)
    requires s.poll.pc.Scan? && s.poll.pc.i < s.poll.pc.n && HasSubmissions(s, s.poll.pc.i)
    ensures Picks(s, PollStep(s, env))
  {
    ScanStart(s);
    hide Layout;
    hide Drain;
    var i := s.poll.pc.i;
    var s2 := s.(cpu := s.cpu.(live := s.procs[i].root), poll := s.poll.(pc := Scan(i + 1, s.poll.pc.n, true)));
    ScanPicks(s2, i, env);
  }

  lemma PollerPicks(s: State, env: Env)
    requires Shape(s) && s.cpu.current == s.boot.poller
    ensures PollOk(s) && Picks(s, PollStep(s, env))
  {
    PollerLayout(s, env);
    hide Layout;
    hide Drain;
    hide Switch;
    hide Sleep;
    hide SetFlag;
    Basics(s);
    if s.poll.pc.Scan? && s.poll.pc.i < s.poll.pc.n && HasSubmissions(s, s.poll.pc.i) {
      ScanStepPicks(s, env);
      hide PollStep;
    } else if s.poll.pc == Decide(false) && s.cpu.ticks - s.poll.lastWork >= SQ_IDLE_TICKS {
      SleepPicks(s);
    } else if !(s.poll.pc.Clear? && s.poll.pc.i < s.poll.pc.n) {
      IdleStep(s, env);
      hide PollStep;
    }
  }

  lemma LeavePicks(s: State, code: int)
    requires Shape(s) && 0 <= Pid(s) < |s.procs|
    ensures |s.logs| == |s.procs| && |s.clients| == |s.procs| && s.cpu.current < |s.cpu.tasks|
    ensures var r := Exit(s, Pid(s), code);
      Picks(s, r) && s.cpu.current < |r.cpu.tasks| && r.cpu.current == Sched.Pick(r.cpu.tasks, s.cpu.current)
  {
    Basics(s);
    hide Layout;
    hide Exit;
    hide Told;
    hide Switch;
    ExitIs(s, Pid(s), code);
    ToldEnters(s, Pid(s), code);
    ToldKeeps(s, Pid(s), code);
    ToldTasks(s, Pid(s), code);
  }

  lemma ToldTasks(s: State, p: nat, code: int)
    requires |s.logs| == |s.procs| && |s.clients| == |s.procs| && p < |s.procs|
    ensures |Told(s, p, code).cpu.tasks| == |s.cpu.tasks|
  {
    hide Settled;
    hide Post;
  }

  /** Every step lets the running task go on or runs the first task that can, after the running one and
      going round; a timer tick, a yield and an exit do the latter.  A tick moves the clock and wakes the
      tasks that are due; a kernel task that is switched to keeps the live space. */
  lemma StepPicks(s: State, a: Action)
    requires Ready(s) && Enables(s, a)
    ensures Picks(s, Next(s, a))
    ensures a.Timer? || a.Yield? || a.Leave? ==>
      Next(s, a).cpu.current == Sched.Pick(Next(s, a).cpu.tasks, s.cpu.current)
    ensures a.Timer? || a.Yield? ==> Installs(s.cpu, Next(s, a).cpu)
    ensures a.Timer? ==>
      && Next(s, a).cpu.ticks == s.cpu.ticks + 1 && |Next(s, a).cpu.tasks| == |s.cpu.tasks|
      && Next(s, a) == s.(cpu := Next(s, a).cpu)
      && forall t | 0 <= t < |s.cpu.tasks| ::
           if s.cpu.tasks[t].state == Sched.Blocked && s.cpu.tasks[t].wakeAt <= s.cpu.ticks + 1 then
             Next(s, a).cpu.tasks[t] == s.cpu.tasks[t].(state := Sched.Runnable)
           else Next(s, a).cpu.tasks[t] == s.cpu.tasks[t]
  {
    hide Layout;
    hide UartIrq;
    hide PollStep;
    hide Trap;
    hide Exit;
    hide Switch;
    hide Happen;
    hide Enabled;
    Basics(s);
    match a
    case Uart(bytes) => UartPicks(s, bytes);
    case Poller(env) => PollerPicks(s, env);
    case CallEnter(min, env) => TrapPicks(s, Pid(s), min, env);
    case Leave(code) => LeavePicks(s, code);
    case Timer => SwitchInstalls(s.cpu.(ticks := s.cpu.ticks + 1,
      tasks := Sched.SleepersWoken(s.cpu.tasks, s.cpu.ticks + 1)));
    case Yield => SwitchInstalls(s.cpu);
    case _ =>
  }

  /** A task that has a space of its own has it installed when it is switched to; a kernel task keeps the
      space that is live. */
  ghost predicate Installs(a: Cpu, b: Cpu) {
    && b.current < |b.tasks|
    && var root := b.tasks[b.current].root;
       b.live == if b.current != a.current && root.Some? then root.value else a.live
  }

  lemma SwitchInstalls(cpu: Cpu)
    requires cpu.current < |cpu.tasks|
    ensures Installs(cpu, Switch(cpu))
  {}

  // ---------------------------------------------------------------- fairness

  /** Task u can run all the time and is never run. */
  ghost predicate Waits(s: State, acts: seq<Action>, u: nat)
    requires Runs(s, acts)
    decreases |acts|
  {
    && u < |s.cpu.tasks| && s.cpu.tasks[u].state == Sched.Runnable && s.cpu.current != u
    && (|acts| > 0 ==> Waits(Onward(s, acts[0]), acts[1..], u))
  }

  function Ticks(acts: seq<Action>): nat {
    if acts == [] then 0 else (if acts[0].Timer? then 1 else 0) + Ticks(acts[1..])
  }

  lemma StepAdvances(s: State, a: Action, u: nat, n: nat)
    requires Ready(s) && Enables(s, a)
    requires var r := Onward(s, a);
      u < |r.cpu.tasks| <= n && r.cpu.tasks[u].state == Sched.Runnable && r.cpu.current != u
    requires u < |s.cpu.tasks| && s.cpu.current != u
    ensures Sched.Place(n, u, s.cpu.current) + (if a.Timer? then 1 else 0)
      <= Sched.Place(n, u, Onward(s, a).cpu.current)
    ensures |s.cpu.tasks| <= |Onward(s, a).cpu.tasks|
  {
    StepPicks(s, a);
    hide Next;
    hide Ready;
    hide Enables;
    var r := Next(s, a);
    if !r.console.halted && r.cpu.current == Sched.Pick(r.cpu.tasks, s.cpu.current) {
      Sched.PickAdvances(r.cpu.tasks, s.cpu.current, u, n);
    }
  }

  lemma {:induction false} WaitAdvances(s: State, acts: seq<Action>, u: nat, n: nat)
    requires Runs(s, acts) && Waits(s, acts, u) && |After(s, acts).cpu.tasks| <= n
    ensures |s.cpu.tasks| <= |After(s, acts).cpu.tasks|
    ensures Sched.Place(n, u, s.cpu.current) + Ticks(acts) <= Sched.Place(n, u, After(s, acts).cpu.current)
    decreases |acts|
  {
    hide Onward;
    hide Enables;
    hide Ready;
    if acts != [] {
      WaitAdvances(Onward(s, acts[0]), acts[1..], u, n);
      StepAdvances(s, acts[0], u, n);
    }
  }

  /** No starvation: while a task can run and is not run, at most n - 2 timer ticks go by, n being the
      number of tasks in the end. */
  lemma NoStarvation(s: State, acts: seq<Action>, u: nat)
    requires Reachable(s) && Runs(s, acts) && Waits(s, acts, u)
    ensures Ticks(acts) + 2 <= |After(s, acts).cpu.tasks|
  {
    hide Reachable;
    hide Runs;
    hide Waits;
    hide After;
    hide Inv;
    var r := After(s, acts);
    WaitAdvances(s, acts, u, |r.cpu.tasks|);
    ReachableInv(s);
    InvShape(s);
    RunReachable(s, acts);
    ReachableInv(r);
    InvShape(r);
    WaitEnds(s, acts, u);
  }

  lemma {:induction false} WaitEnds(s: State, acts: seq<Action>, u: nat)
    requires Runs(s, acts) && Waits(s, acts, u)
    ensures u < |s.cpu.tasks| && s.cpu.current != u
    ensures u < |After(s, acts).cpu.tasks| && After(s, acts).cpu.current != u
    decreases |acts|
  {
    hide Onward;
    if acts != [] { WaitEnds(Onward(s, acts[0]), acts[1..], u); }
  }
}
