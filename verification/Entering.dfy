/**
 When `enter` returns (kernel/src/ring.rs): exactly with as many completions as were asked for, after
 whatever number of wake-ups.
 */
module Entering {
  import opened Bits
  import opened Frames
  import opened Rings
  import opened Kernel
  import opened Draining
  import opened Steps
  import opened Layouts
  import opened Fates
  import opened Machine
  import opened Exits
  import Consoles
  import Fifo
  import Handshake
  import Input
  import Reads
  import Sched
  import Spaces
  import WakeUps

  /** How many completions the running call of `enter` asks for. */
  ghost function Asked(s: State, a: Action): nat
    requires a.CallEnter? || (a.Resume? && s.cpu.current in s.cpu.enters)
  {
    if a.CallEnter? then a.min else s.cpu.enters[s.cpu.current]
  }

  /** Process p is back in user code, still running. */
  ghost predicate Returned(s: State, r: State, p: nat) {
    && s.cpu.current !in r.cpu.enters && r.cpu.current == s.cpu.current
    && r.cpu.current < |r.cpu.tasks| && r.cpu.tasks[r.cpu.current].state == Sched.Runnable
    && p < |r.procs| && r.procs[p].waiter.None?
  }

  /** It sleeps inside `enter`, registered to be woken, and remembers what it asked for. */
  ghost predicate SleepsIn(s: State, r: State, p: nat, min: nat) {
    var t := s.cpu.current;
    && t in r.cpu.enters && r.cpu.enters[t] == min && t < |r.cpu.tasks| && r.cpu.tasks[t].state == Sched.Blocked
    && p < |r.procs| && r.procs[p].waiter == Some(t) && r.cpu.current != t
  }

  /** Exactly with `min` completions it returns; otherwise it sleeps. */
  ghost predicate Meets(s: State, r: State, p: int, min: nat) {
    && 0 <= p < |r.procs| && r.procs[p].ring.Some?
    && (Returned(s, r, p) <==> Unreaped(r.procs[p].ring.value) >= min)
    && (!Returned(s, r, p) ==> SleepsIn(s, r, p, min))
  }

  /** One round of the waiting loop. */
  lemma CheckEnds(s: State, p: nat, min: nat)
    requires Shape(s) && Ringed(s, p) && s.cpu.current == s.boot.base + p && s.procs[p].waiter.None?
    ensures var r := Check(s, p, min);
      && p < |r.procs| && r.procs[p].ring == s.procs[p].ring
      && (Returned(s, r, p) <==> Unreaped(s.procs[p].ring.value) >= min)
      && (!Returned(s, r, p) ==> SleepsIn(s, r, p, min))
  {
    hide Layout;
    hide Unreaped;
    Basics(s);
    CheckLayout(s, p, min);
    hide Switch;
  }

  /** A running task has no waiter registered. */
  lemma NoWaiter(s: State, p: nat)
    requires Inv(s) && p < |s.procs| && s.cpu.current == s.boot.base + p
    ensures s.procs[p].waiter.None?
  {
    hide Spaces.SpaceOk;
    hide Consoles.ConsoleOk;
    hide LedgersOk;
    hide Fifo.WiresOk;
    hide Handshake.FlagsOk;
    hide Reads.AllFilled;
    hide Layout;
    assert WakeUps.WaiterOk(s, p);
  }

  /** The queue of process p, as the drain of a system call leaves it, and what the call then does. */
  lemma TrapEnds(s: State, p: nat, min: nat, env: Env)
    requires Shape(s) && Ringed(s, p) && s.cpu.current == s.boot.base + p && s.procs[p].waiter.None?
    ensures Callable(s, p)
    ensures Meets(s, Trap(s, p, min, env), p, min)
  {
    hide Layout;
    hide Drain;
    hide Check;
    hide Unreaped;
    Basics(s);
    var s1 := Submitted(s, p);
    ClientLayout(s, s1);
    Basics(s1);
    RousedLayout(s1, p);
    var s2 := Roused(s1, p);
    DrainLayout(s2, p, env);
    DrainEnds(s2, p, env);
    CheckEnds(Drain(s2, p, env), p, min);
  }

  /** In every reachable state, a call of `enter`, or the next round of one that was woken, returns if and
      only if the process then has as many completions to reap as the call asked for; otherwise its task
      is blocked, with its waiter registered and the number kept. */
  lemma EnterReturns(s: State, a: Action)
    requires Reachable(s) && Enables(s, a) && (a.CallEnter? || a.Resume?)
    ensures Ready(s)
    ensures Meets(s, Next(s, a), Pid(s), Asked(s, a))
  {
    hide Reachable;
    hide Inv;
    ReachableInv(s);
    InvReady(s);
    InvShape(s);
    var p := Pid(s);
    NoWaiter(s, p);
    hide Layout;
    hide Check;
    hide Trap;
    hide Returned;
    hide SleepsIn;
    hide Unreaped;
    if a.CallEnter? {
      TrapEnds(s, p, a.min, a.env);
    } else {
      CheckEnds(s, p, s.cpu.enters[s.cpu.current]);
    }
  }

  // ---------------------------------------------------------------- what is asked for stays

  /** A step changes what a task asks for only by that task's own call; at most it takes tasks out. */
  ghost predicate EntersKept(s: State, r: State, t: nat) {
    && r.boot == s.boot
    && (t in r.cpu.enters ==> t in s.cpu.enters && r.cpu.enters[t] == s.cpu.enters[t])
  }

  lemma TrapEnters(s: State, p: nat, min: nat, env: Env, t: nat)
    requires Shape(s) && Ringed(s, p) && t != s.cpu.current
    ensures Callable(s, p) && EntersKept(s, Trap(s, p, min, env), t)
  {
    hide Layout;
    hide Drain;
    hide Unreaped;
    hide Switch;
    Basics(s);
    var s1 := Submitted(s, p);
    ClientLayout(s, s1);
    RousedLayout(s1, p);
    DrainLayout(Roused(s1, p), p, env);
    DrainEnds(Roused(s1, p), p, env);
  }

  lemma UartEnters(s: State, bytes: seq<Byte>, t: nat)
    requires |s.console.input| <= Input.CAPACITY
    ensures EntersKept(s, UartIrq(s, bytes), t)
  {
    hide PollSlots;
    var s0 := s.(console := Arrived(s.console, bytes));
    var fg := Foreground(s0.procs);
    if fg.Some? && Ringed(s0, fg.value) {
      PollSlotsKept(s0.(cpu := s0.cpu.(live := s0.procs[fg.value].root)), fg.value, 0);
    }
  }

  lemma ScanEnters(s: State, i: nat, env: Env, t: nat)
    requires Shape(s) && HasSubmissions(s, i) && !IsChild(s.procs, i, i)
    ensures EntersKept(s, Drain(s, i, env), t)
  {
    hide Layout;
    hide Drain;
    DrainEnds(s, i, env);
  }

  lemma SleepEnters(s: State, t: nat)
    requires |s.clients| == |s.procs| && s.cpu.current < |s.cpu.tasks|
    ensures EntersKept(s, Sleep(s), t)
  {
    hide Switch;
    hide AnySubmissions;
    hide AllRaised;
    hide AllEarly;
  }

  lemma PollerEnters(s: State, env: Env, t: nat)
    requires Shape(s) && s.cpu.current == s.boot.poller
    ensures PollOk(s) && EntersKept(s, PollStep(s, env), t)
  {
    PollerLayout(s, env);
    hide Layout;
    hide Drain;
    hide Switch;
    hide Sleep;
    hide SetFlag;
    Basics(s);
    if s.poll.pc.Scan? && s.poll.pc.i < s.poll.pc.n && HasSubmissions(s, s.poll.pc.i) {
      ScanStart(s);
      var i := s.poll.pc.i;
      var s2 := s.(cpu := s.cpu.(live := s.procs[i].root), poll := s.poll.(pc := Scan(i + 1, s.poll.pc.n, true)));
      ScanEnters(s2, i, env, t);
    } else if s.poll.pc.Decide? {
      SleepEnters(s, t);
    }
  }

  lemma ScanStart(s: State)
    requires Shape(s) && s.cpu.current == s.boot.poller && s.poll.pc.Scan? && s.poll.pc.i < s.poll.pc.n
    ensures s.poll.pc.i < |s.procs|
    ensures Shape(s.(cpu := s.cpu.(live := s.procs[s.poll.pc.i].root),
                     poll := s.poll.(pc := Scan(s.poll.pc.i + 1, s.poll.pc.n, true))))
  {
    hide ProcShape;
    hide LogShape;
    assert PcShape(s);
    var i, n := s.poll.pc.i, s.poll.pc.n;
    var s1 := s.(poll := s.poll.(pc := Scan(i + 1, n, true)));
    PcLayout(s, s1.poll);
    hide Layout;
    Relayout(s1, s1.(cpu := s.cpu.(live := s.procs[i].root)));
  }

  lemma StepEnters(s: State, a: Action, t: nat)
    requires Ready(s) && Enables(s, a) && !(a.CallEnter? && s.cpu.current == t)
    ensures EntersKept(s, Next(s, a), t)
  {
    hide Layout;
    hide UartIrq;
    hide PollStep;
    hide Trap;
    hide Exit;
    hide Told;
    hide Switch;
    hide Happen;
    hide Enabled;
    Basics(s);
    match a
    case Uart(bytes) => UartEnters(s, bytes, t);
    case Poller(env) => PollerEnters(s, env, t);
    case CallEnter(min, env) => TrapEnters(s, Pid(s), min, env, t);
    case Leave(code) =>
      ExitIs(s, Pid(s), code);
      ToldEnters(s, Pid(s), code);
      ToldKeeps(s, Pid(s), code);
    case _ =>
  }

  /** Task t makes no call of `enter` in this run. */
  ghost predicate NoCall(s: State, acts: seq<Action>, t: nat)
    requires Runs(s, acts)
    decreases |acts|
  {
    |acts| > 0 ==> !(acts[0].CallEnter? && s.cpu.current == t) && NoCall(Onward(s, acts[0]), acts[1..], t)
  }

  lemma {:induction false} AskedStays(s: State, acts: seq<Action>, t: nat)
    requires Runs(s, acts) && NoCall(s, acts, t)
    ensures EntersKept(s, After(s, acts), t)
    decreases |acts|
  {
    hide Next;
    hide Enables;
    hide Ready;
    if acts != [] {
      StepEnters(s, acts[0], t);
      AskedStays(Onward(s, acts[0]), acts[1..], t);
    }
  }

  /** A call of `enter` that goes to sleep, over any run, until its task runs again: it still asks for what
      it was called with, and it returns then if and only if there are so many completions. */
  lemma EnterMeetsMin(s: State, min: nat, env: Env, s1: State, acts: seq<Action>, u: State)
    requires Reachable(s) && Ready(s) && Enables(s, CallEnter(min, env)) && s1 == Onward(s, CallEnter(min, env))
    requires Runs(s1, acts) && NoCall(s1, acts, s.cpu.current) && u == After(s1, acts)
    requires Enables(u, Resume) && u.cpu.current == s.cpu.current
    ensures Ready(u) && Pid(u) == Pid(s) && u.cpu.enters[s.cpu.current] == min
    ensures Meets(u, Next(u, Resume), Pid(s), min)
  {
    hide Next;
    hide Reachable;
    hide Runs;
    hide Ready;
    hide Meets;
    var c, t := CallEnter(min, env), s.cpu.current;
    AskedStays(s1, acts, t);
    StepEnters(s, c, t + 1);
    EnterReturns(s, c);
    SleptWith(s, Next(s, c), Pid(s), min);
    ReachableNext(s, c);
    RunReachable(s1, acts);
    EnterReturns(u, Resume);
  }

  lemma SleptWith(s: State, r: State, p: int, min: nat)
    requires Meets(s, r, p, min) && s.cpu.current in r.cpu.enters
    ensures r.cpu.enters[s.cpu.current] == min
  {}
}
