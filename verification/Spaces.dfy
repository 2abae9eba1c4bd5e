/**
 Which address space is installed: a user task always runs in its own, and the root of an
 exited process is never installed (kernel/src/sched.rs, kernel/src/ring.rs,
 kernel/src/user.rs).
 */
module Spaces {
  import opened Bits
  import opened Frames
  import opened Rings
  import opened Kernel
  import opened Draining
  import opened Steps
  import opened Layouts
  import Sched
  import Input

  /** The root of a live process is in use, its own, and not the kernel's. */
  ghost predicate RootOk(s: State, p: nat)
    requires p < |s.procs|
  {
    Alive(s.procs[p]) ==> s.procs[p].root !in s.cpu.freed && s.procs[p].root != s.boot.kernelRoot
  }

  ghost predicate RootsOk(s: State) {
    && s.boot.kernelRoot !in s.cpu.freed
    && (forall p | 0 <= p < |s.procs| :: RootOk(s, p))
    && (forall p, q | 0 <= p < q < |s.procs| && Alive(s.procs[p]) && Alive(s.procs[q]) ::
         s.procs[p].root != s.procs[q].root)
  }

  /** The live root is the kernel's own or that of a live process, and has not been given back. */
  ghost predicate LiveOk(s: State) {
    && s.cpu.live !in s.cpu.freed
    && (s.cpu.live == s.boot.kernelRoot || exists p :: 0 <= p < |s.procs| && Hosts(s.procs[p], s.cpu.live))
  }

  predicate Hosts(q: Proc, root: nat) {
    Alive(q) && q.root == root
  }

  ghost predicate SpaceOk(s: State) {
    && RootsOk(s)
    && LiveOk(s)
    && (s.boot.base <= s.cpu.current < s.boot.base + |s.procs| ==>
          s.cpu.live == s.procs[s.cpu.current - s.boot.base].root)
  }

  predicate SameRoots(a: seq<Proc>, b: seq<Proc>) {
    |a| == |b| && forall p | 0 <= p < |a| :: a[p].root == b[p].root && a[p].exitCode == b[p].exitCode
  }

  lemma SameSpace(s: State, r: State)
    requires SpaceOk(s) && SameRoots(s.procs, r.procs) && r.boot == s.boot
    requires r.cpu.freed == s.cpu.freed && r.cpu.live == s.cpu.live && r.cpu.current == s.cpu.current
    ensures SpaceOk(r)
  {
    forall p | 0 <= p < |r.procs|
      ensures RootOk(r, p) && Hosts(r.procs[p], r.cpu.live) == Hosts(s.procs[p], s.cpu.live)
    {
      assert RootOk(s, p);
    }
  }

  /** Installing the root of a live process, while a kernel task runs. */
  lemma Installed(s: State, p: nat)
    requires SpaceOk(s) && p < |s.procs| && Alive(s.procs[p]) && s.cpu.current < s.boot.base
    ensures SpaceOk(s.(cpu := s.cpu.(live := s.procs[p].root)))
  {
    var r := s.(cpu := s.cpu.(live := s.procs[p].root));
    assert RootOk(s, p) && Hosts(r.procs[p], r.cpu.live);
    forall q | 0 <= q < |r.procs| ensures RootOk(r, q) {
      assert RootOk(s, q);
    }
  }

  /** `schedule` installs the space of the user task it picks and keeps the space otherwise. */
  lemma SwitchSpace(s: State)
    requires Layout(s) && RootsOk(s) && LiveOk(s)
    requires s.cpu.tasks[s.cpu.current].state != Sched.Runnable ==> s.cpu.current != 0
    requires s.cpu.tasks[s.cpu.current].state == Sched.Runnable ==> SpaceOk(s)
    ensures SpaceOk(s.(cpu := Switch(s.cpu)))
  {
    hide ProcShape;
    hide LogShape;
    SwitchLayout(s);
    var r := s.(cpu := Switch(s.cpu));
    var next := r.cpu.current;
    assert TaskShape(s, next) && TaskShape(r, next);
    forall q | 0 <= q < |r.procs| ensures RootOk(r, q) {
      assert RootOk(s, q);
    }
    if next >= s.boot.base {
      assert RootOk(s, next - s.boot.base);
      assert next != s.cpu.current ==> Hosts(r.procs[next - s.boot.base], r.cpu.live);
    }
  }

  lemma KeptSpace(s: State, r: State, p: nat, env: Env)
    requires Layout(s) && SpaceOk(s) && p < |s.procs| && Kept(s, r, p, env) && EnvOk(s, env)
    ensures SpaceOk(r)
  {
    hide ProcShape;
    hide TaskShape;
    hide TasksKept;
    forall q | 0 <= q < |r.procs|
      ensures RootOk(r, q)
      ensures q < |s.procs| ==> r.procs[q].root == s.procs[q].root && r.procs[q].exitCode == s.procs[q].exitCode
      ensures q >= |s.procs| ==> r.procs[q].root == env.root(q)
      ensures q < |s.procs| ==> Hosts(r.procs[q], r.cpu.live) == Hosts(s.procs[q], s.cpu.live)
    {
      if q < |s.procs| {
        assert RootOk(s, q);
        assert q != p ==> OtherKept(s.procs[q], r.procs[q], p);
      } else {
        assert Child(r, q, p, env);
      }
    }
  }

  lemma DrainSpace(s: State, p: nat, env: Env)
    requires Layout(s) && SpaceOk(s) && Ringed(s, p) && EnvOk(s, env)
    ensures !IsChild(s.procs, p, p) && SpaceOk(Drain(s, p, env))
  {
    hide Drain;
    hide Layout;
    hide SpaceOk;
    hide EnvOk;
    Basics(s);
    DrainEnds(s, p, env);
    KeptSpace(s, Drain(s, p, env), p, env);
  }

  lemma SameEnv(s: State, r: State, env: Env)
    requires EnvOk(s, env) && SameRoots(s.procs, r.procs) && r.boot == s.boot
    ensures EnvOk(r, env)
  {
  }

  lemma CheckSpace(s: State, p: nat, min: nat)
    requires Shape(s) && SpaceOk(s) && Ringed(s, p) && s.cpu.current == s.boot.base + p
    ensures SpaceOk(Check(s, p, min))
  {
    hide SpaceOk;
    hide RootsOk;
    hide LiveOk;
    var t := s.cpu.current;
    if Unreaped(s.procs[p].ring.value) >= min {
      SameSpace(s, Check(s, p, min));
    } else {
      var r := s.(procs := s.procs[p := s.procs[p].(waiter := Some(t))],
                  cpu := s.cpu.(enters := s.cpu.enters[t := min],
                                tasks := Sched.SetState(s.cpu.tasks, t, Sched.Blocked, Sched.NEVER)));
      BlockedLayout(s, p, min);
      SameSpace(s, r);
      SpaceParts(r);
      SwitchSpace(r);
    }
  }

  lemma SpaceParts(s: State)
    requires SpaceOk(s)
    ensures RootsOk(s) && LiveOk(s)
  {
  }

  lemma EnterSpace(s: State, p: nat, min: nat, env: Env)
    requires Shape(s) && SpaceOk(s) && Ringed(s, p) && s.cpu.current == s.boot.base + p && EnvOk(s, env)
    ensures Callable(s, p) && SpaceOk(Enter(s, p, min, env))
  {
    hide Layout;
    hide SpaceOk;
    hide EnvOk;
    hide Drain;
    hide Check;
    Basics(s);
    RousedLayout(s, p);
    var s1 := Roused(s, p);
    SameSpace(s, s1);
    SameEnv(s, s1, env);
    DrainLayout(s1, p, env);
    DrainSpace(s1, p, env);
    DrainEnds(s1, p, env);
    CheckSpace(Drain(s1, p, env), p, min);
  }

  lemma ToldRoots(s: State, p: nat, code: int)
    requires |s.logs| == |s.procs| && |s.clients| == |s.procs| && p < |s.procs|
    ensures SameRoots(s.procs, Told(s, p, code).procs) && Told(s, p, code).boot == s.boot
  {
  }

  /** The dying root is not live any more when it is freed. */
  lemma RetiredSpace(s: State, p: nat, code: int)
    requires Shape(s) && SpaceOk(s) && p < |s.procs| && s.cpu.current == s.boot.base + p
    ensures RootsOk(Retired(s, p, code)) && LiveOk(Retired(s, p, code))
  {
    hide ProcShape;
    hide LogShape;
    var r := Retired(s, p, code);
    assert TaskShape(s, s.cpu.current);
    assert RootOk(s, p);
    forall q | 0 <= q < |r.procs| ensures RootOk(r, q) {
      assert RootOk(s, q);
    }
  }

  lemma ExitSpace(s: State, p: nat, code: int)
    requires Shape(s) && SpaceOk(s) && p < |s.procs| && s.cpu.current == s.boot.base + p
      && s.cpu.current !in s.cpu.enters
    ensures |s.logs| == |s.procs| && |s.clients| == |s.procs| && SpaceOk(Exit(s, p, code))
  {
    hide Layout;
    hide SpaceOk;
    hide RootsOk;
    hide LiveOk;
    hide Told;
    hide Exit;
    hide Switch;
    Basics(s);
    ExitIs(s, p, code);
    ToldKeeps(s, p, code);
    ToldEnters(s, p, code);
    ToldRoots(s, p, code);
    var s1 := Told(s, p, code);
    SameSpace(s, s1);
    RetiredLayout(s1, p, code);
    RetiredSpace(s1, p, code);
    SwitchSpace(Retired(s1, p, code));
  }

  /** The interrupt puts the space back that it found. */
  lemma UartSpace(s: State, bytes: seq<Byte>)
    requires Layout(s) && SpaceOk(s) && |s.console.input| <= Input.CAPACITY
    ensures SpaceOk(UartIrq(s, bytes))
  {
    hide PollSlots;
    hide Layout;
    hide SpaceOk;
    var s0 := s.(console := Arrived(s.console, bytes));
    SameSpace(s, s0);
    var fg := Foreground(s0.procs);
    if fg.Some? && Ringed(s0, fg.value) {
      var p := fg.value;
      var s1 := s0.(cpu := s0.cpu.(live := s0.procs[p].root));
      PollSlotsKept(s1, p, 0);
      var (s2, completed) := PollSlots(s1, p, 0);
      SameSpace(s0, s2.(cpu := s2.cpu.(live := s0.cpu.live)));
      SameSpace(s0, UartIrq(s, bytes));
    }
  }

  lemma SleepSpace(s: State)
    requires Shape(s) && SpaceOk(s) && s.cpu.current == s.boot.poller
    ensures |s.clients| == |s.procs| && SpaceOk(Sleep(s))
  {
    hide Layout;
    hide SpaceOk;
    hide Switch;
    Basics(s);
    DozingLayout(s);
    SameSpace(s, Dozing(s));
    SameSpace(s, s.(procs := AllRaised(s.procs), poll := s.poll.(pc := Clear(0, |s.procs|))));
    SpaceParts(Dozing(s));
    SwitchSpace(Dozing(s));
  }

  lemma PollerSpace(s: State, env: Env)
    requires Shape(s) && SpaceOk(s) && s.cpu.current == s.boot.poller && EnvOk(s, env)
    ensures PollOk(s) && SpaceOk(PollStep(s, env))
  {
    hide Layout;
    hide SpaceOk;
    hide EnvOk;
    hide Drain;
    hide Switch;
    hide Sleep;
    PollerLayout(s, env);
    Basics(s);
    if s.poll.pc.Scan? && s.poll.pc.i < s.poll.pc.n && HasSubmissions(s, s.poll.pc.i) {
      var i := s.poll.pc.i;
      var s1 := s.(poll := s.poll.(pc := Scan(i + 1, s.poll.pc.n, true)));
      var s2 := s1.(cpu := s.cpu.(live := s.procs[i].root));
      PcLayout(s, s1.poll);
      Relayout(s1, s2);
      SameSpace(s, s1);
      Installed(s1, i);
      SameEnv(s, s2, env);
      DrainSpace(s2, i, env);
    } else if s.poll.pc == Decide(false) && s.cpu.ticks - s.poll.lastWork >= SQ_IDLE_TICKS {
      SleepSpace(s);
    } else if s.poll.pc.Clear? && s.poll.pc.i < s.poll.pc.n {
      SameSpace(s, PollStep(s, env));
    } else {
      IdleStep(s, env);
      var s1 := s.(poll := PollStep(s, env).poll);
      SameSpace(s, s1);
      SpaceParts(s);
      SwitchSpace(s);
      SameSpace(s.(cpu := Switch(s.cpu)), s1.(cpu := Switch(s.cpu)));
    }
  }

  /** Every step of the system keeps it. */
  lemma NextSpace(s: State, a: Action)
    requires Ready(s) && Enables(s, a) && SpaceOk(s)
    ensures SpaceOk(Next(s, a))
  {
    hide Layout;
    hide SpaceOk;
    hide RootsOk;
    hide LiveOk;
    hide Happen;
    hide Enabled;
    hide UartIrq;
    hide PollStep;
    hide Exit;
    hide Enter;
    hide Check;
    hide Tick;
    hide Switch;
    hide EnvOk;
    Basics(s);
    SpaceParts(s);
    match a
    case Yield => SwitchSpace(s);
    case Timer =>
      TickLayout(s);
      var s1 := s.(cpu := s.cpu.(ticks := s.cpu.ticks + 1));
      SameSpace(s, s1);
      SpaceParts(s1);
      SwitchSpace(s1);
    case Uart(bytes) => UartSpace(s, bytes);
    case Poller(env) => PollerSpace(s, env);
    case CallEnter(min, env) =>
      var s1 := Submitted(s, Pid(s));
      ClientLayout(s, s1);
      SameSpace(s, s1);
      SameEnv(s, s1, env);
      EnterSpace(s1, Pid(s), min, env);
    case Resume => CheckSpace(s, Pid(s), s.cpu.enters[s.cpu.current]);
    case Leave(code) => ExitSpace(s, Pid(s), code);
    case _ => SameSpace(s, Next(s, a));
  }
}
