/**
 No lost wake-up in a blocking `enter` (kernel/src/ring.rs, kernel/src/sched.rs).
 */
module WakeUps {
  import opened Bits
  import opened Rings
  import opened Kernel
  import opened Draining
  import opened Steps
  import opened Layouts
  import Sched
  import Input

  /** The task of process p is blocked. */
  predicate Asleep(s: State, p: nat) {
    s.boot.base + p < |s.cpu.tasks| && s.cpu.tasks[s.boot.base + p].state == Sched.Blocked
  }

  /** Everything but the count of completions: a waiter is registered exactly while the task is
      blocked, which it only ever is inside `enter`; there the submission queue is empty. */
  ghost predicate WaiterOk(s: State, p: nat)
    requires p < |s.procs|
  {
    var q, t := s.procs[p], s.boot.base + p;
    && (q.waiter.Some? <==> Asleep(s, p)) && (q.waiter.Some? ==> q.waiter.value == t && t in s.cpu.enters)
    && (t in s.cpu.enters ==> q.ring.Some? && Empty(q.ring.value))
  }

  /** A blocked task really has too few completions to go on. */
  ghost predicate RightlyAsleep(s: State, p: nat)
    requires p < |s.procs|
  {
    var q, t := s.procs[p], s.boot.base + p;
    Asleep(s, p) ==> t in s.cpu.enters && q.ring.Some? && Unreaped(q.ring.value) < s.cpu.enters[t]
  }

  ghost predicate WakeOk(s: State) {
    && (forall p | 0 <= p < |s.procs| :: WaiterOk(s, p))
    && (forall p | 0 <= p < |s.procs| :: RightlyAsleep(s, p))
  }

  /** As above, but q may have been given a completion just now. */
  ghost predicate WakeOkBut(s: State, q: nat) {
    && (forall p | 0 <= p < |s.procs| :: WaiterOk(s, p))
    && (forall p | 0 <= p < |s.procs| && p != q :: RightlyAsleep(s, p))
  }

  /** Neither the wait state nor the queues of the processes changed. */
  lemma SameWake(s: State, r: State)
    requires WakeOk(s) && |r.procs| == |s.procs| && r.boot == s.boot
    requires r.cpu.enters == s.cpu.enters && |r.cpu.tasks| == |s.cpu.tasks|
    requires forall p | 0 <= p < |s.procs| :: Asleep(r, p) == Asleep(s, p) && r.procs[p].waiter == s.procs[p].waiter
    requires forall p | 0 <= p < |s.procs| :: SameQueues(s.procs[p], r.procs[p])
    ensures WakeOk(r)
  {
    forall p | 0 <= p < |r.procs| ensures WaiterOk(r, p) && RightlyAsleep(r, p) {
      assert WaiterOk(s, p) && RightlyAsleep(s, p);
    }
  }

  /** The four indices are the same. */
  predicate SameQueues(a: Proc, b: Proc) {
    && a.ring.Some? == b.ring.Some?
    && (a.ring.Some? ==>
          && a.ring.value.sqHead == b.ring.value.sqHead && a.ring.value.sqTail == b.ring.value.sqTail
          && a.ring.value.cqHead == b.ring.value.cqHead && a.ring.value.cqTail == b.ring.value.cqTail)
  }

  lemma KeptWake(s: State, r: State, p: nat, env: Env)
    requires Layout(s) && WakeOk(s) && p < |s.procs| && Kept(s, r, p, env)
    requires s.boot.base + p !in s.cpu.enters
    ensures WakeOk(r)
  {
    hide ProcShape;
    hide TaskShape;
    forall q | 0 <= q < |r.procs| ensures WaiterOk(r, q) && RightlyAsleep(r, q) {
      var t := s.boot.base + q;
      if q < |s.procs| {
        assert WaiterOk(s, q) && RightlyAsleep(s, q);
        assert r.cpu.tasks[t] == s.cpu.tasks[t];
        assert q != p ==> OtherKept(s.procs[q], r.procs[q], p);
      } else {
        assert Child(r, q, p, env);
        assert r.cpu.tasks[t].state == Sched.Runnable;
      }
    }
  }

  lemma DrainWake(s: State, p: nat, env: Env)
    requires Layout(s) && WakeOk(s) && Ringed(s, p) && s.boot.base + p !in s.cpu.enters
    ensures !IsChild(s.procs, p, p) && WakeOk(Drain(s, p, env))
  {
    hide Drain;
    hide Layout;
    hide WakeOk;
    Basics(s);
    DrainEnds(s, p, env);
    KeptWake(s, Drain(s, p, env), p, env);
  }

  lemma RousedWake(s: State, p: nat)
    requires Layout(s) && WakeOk(s) && Ringed(s, p)
    ensures WakeOk(Roused(s, p))
  {
    SameWake(s, Roused(s, p));
  }

  lemma CheckWake(s: State, p: nat, min: nat)
    requires Shape(s) && WakeOk(s) && Ringed(s, p) && s.cpu.current == s.boot.base + p
    requires Empty(s.procs[p].ring.value)
    ensures WakeOk(Check(s, p, min))
  {
    hide Switch;
    hide ProcShape;
    hide TaskShape;
    hide LogShape;
    var r := Check(s, p, min);
    forall q | 0 <= q < |r.procs| ensures WaiterOk(r, q) && RightlyAsleep(r, q) {
      assert WaiterOk(s, q) && RightlyAsleep(s, q);
    }
  }

  lemma EnterWake(s: State, p: nat, min: nat, env: Env)
    requires Shape(s) && WakeOk(s) && Ringed(s, p) && s.cpu.current == s.boot.base + p && s.cpu.current !in s.cpu.enters
    ensures Callable(s, p) && WakeOk(Enter(s, p, min, env))
  {
    hide Layout;
    hide WakeOk;
    hide Drain;
    hide Check;
    Basics(s);
    RousedLayout(s, p);
    RousedWake(s, p);
    var s1 := Roused(s, p);
    DrainLayout(s1, p, env);
    DrainWake(s1, p, env);
    DrainEnds(s1, p, env);
    CheckWake(Drain(s1, p, env), p, min);
  }

  // ---------------------------------------------------------------- completions from elsewhere

  /** A completion for p, followed by the wake-up of its waiter, if any. */
  lemma NotifyWake(s: State, p: nat)
    requires Layout(s) && p < |s.procs| && WakeOkBut(s, p)
    ensures WakeOk(Notify(s, p))
  {
    hide ProcShape;
    hide TaskShape;
    hide LogShape;
    var r := Notify(s, p);
    assert WaiterOk(s, p);
    forall q | 0 <= q < |r.procs| ensures WaiterOk(r, q) && RightlyAsleep(r, q) {
      assert WaiterOk(s, q);
      assert q != p ==> RightlyAsleep(s, q);
    }
  }

  lemma OwnerWake(s: State, r: State, p: nat)
    requires WakeOk(s) && p < |s.procs| == |r.procs| && r.procs == s.procs[p := r.procs[p]]
    requires r.cpu.enters == s.cpu.enters && r.cpu.tasks == s.cpu.tasks && r.boot == s.boot
    requires OwnerKept(s.procs[p], r.procs[p]) && r.procs[p].ring.value.sqHead == s.procs[p].ring.value.sqHead
    ensures WakeOkBut(r, p)
  {
    forall q | 0 <= q < |r.procs| ensures WaiterOk(r, q) && (q != p ==> RightlyAsleep(r, q)) {
      assert WaiterOk(s, q) && RightlyAsleep(s, q);
    }
  }

  lemma ToldWake(s: State, p: nat, code: int)
    requires Layout(s) && WakeOk(s) && p < |s.procs|
    ensures |s.logs| == |s.procs| && |s.clients| == |s.procs| && WakeOk(Told(s, p, code))
  {
    hide Layout;
    hide WakeOk;
    hide WakeOkBut;
    hide Complete;
    hide Notify;
    Basics(s);
    var me := s.procs[p];
    if me.exitWaiter.Some? && me.parent.Some? && me.parent.value < |s.procs| {
      var q, id, c := me.parent.value, s.logs[p].asked, Cqe(me.exitWaiter.value, code);
      if Ringed(s, q) && id < |s.logs[q].fate| {
        CompleteLayout(s, q, id, c);
        CompleteProcs(s, q, id, c);
        OwnerWake(s, Complete(s, q, id, c), q);
        NotifyWake(Complete(s, q, id, c), q);
      } else {
        WakeButWeaker(s, q);
        NotifyWake(s, q);
      }
    }
  }

  lemma WakeButWeaker(s: State, q: nat)
    requires WakeOk(s)
    ensures WakeOkBut(s, q)
  {
  }

  lemma RetiredWake(s: State, p: nat, code: int)
    requires Shape(s) && WakeOk(s) && p < |s.procs| && s.cpu.current == s.boot.base + p
      && s.cpu.current !in s.cpu.enters
    ensures WakeOk(Retired(s, p, code))
  {
    hide ProcShape;
    hide TaskShape;
    hide LogShape;
    var r := Retired(s, p, code);
    forall q | 0 <= q < |r.procs| ensures WaiterOk(r, q) && RightlyAsleep(r, q) {
      assert WaiterOk(s, q) && RightlyAsleep(s, q);
    }
  }

  lemma ExitWake(s: State, p: nat, code: int)
    requires Shape(s) && WakeOk(s) && p < |s.procs| && s.cpu.current == s.boot.base + p
      && s.cpu.current !in s.cpu.enters
    ensures |s.logs| == |s.procs| && |s.clients| == |s.procs| && WakeOk(Exit(s, p, code))
  {
    hide Layout;
    hide WakeOk;
    hide Told;
    hide Exit;
    hide Switch;
    Basics(s);
    ExitIs(s, p, code);
    ToldKeeps(s, p, code);
    ToldEnters(s, p, code);
    ToldWake(s, p, code);
    var s1 := Told(s, p, code);
    RetiredWake(s1, p, code);
    SwitchWake(Retired(s1, p, code));
  }

  /** Which task runs does not matter. */
  lemma SwitchWake(s: State)
    requires WakeOk(s) && s.cpu.current < |s.cpu.tasks|
    ensures WakeOk(s.(cpu := Switch(s.cpu)))
  {
    hide Switch;
    SameWake(s, s.(cpu := Switch(s.cpu)));
  }

  lemma UartWake(s: State, bytes: seq<Byte>)
    requires Shape(s) && WakeOk(s) && |s.console.input| <= Input.CAPACITY
    ensures WakeOk(UartIrq(s, bytes))
  {
    hide PollSlots;
    hide Layout;
    hide WakeOk;
    hide WakeOkBut;
    hide Notify;
    var s0 := s.(console := Arrived(s.console, bytes));
    SameWake(s, s0);
    Relayout(s, s0);
    var fg := Foreground(s0.procs);
    if fg.Some? && Ringed(s0, fg.value) {
      var p := fg.value;
      var s1 := s0.(cpu := s0.cpu.(live := s0.procs[p].root));
      SameWake(s0, s1);
      Relayout(s0, s1);
      PollSlotsKept(s1, p, 0);
      var (s2, completed) := PollSlots(s1, p, 0);
      SlotsLayout(s1, s2, p, completed);
      var s3 := s2.(cpu := s2.cpu.(live := s0.cpu.live));
      Relayout(s2, s3);
      if completed {
        OwnerWake(s1, s3, p);
        NotifyWake(s3, p);
      } else {
        SameWake(s1, s3);
      }
    }
  }

  lemma ScanWake(s: State, env: Env, i: nat, n: nat, worked: bool)
    requires Shape(s) && WakeOk(s) && s.cpu.current == s.boot.poller && s.poll.pc == Scan(i, n, worked)
    requires i < n && HasSubmissions(s, i)
    ensures PollOk(s) && WakeOk(PollStep(s, env))
  {
    hide Layout;
    hide WakeOk;
    hide Drain;
    hide Switch;
    hide ProcShape;
    PollerLayout(s, env);
    Basics(s);
    var s1 := s.(poll := s.poll.(pc := Scan(i + 1, n, true)));
    var s2 := s1.(cpu := s.cpu.(live := s.procs[i].root));
    PcLayout(s, s1.poll);
    Relayout(s1, s2);
    SameWake(s, s2);
    NotEntering(s, i);
    DrainWake(s2, i, env);
  }

  lemma SleepWake(s: State)
    requires Shape(s) && WakeOk(s) && s.cpu.current == s.boot.poller
    ensures |s.clients| == |s.procs| && WakeOk(Sleep(s))
  {
    hide Layout;
    hide WakeOk;
    hide Switch;
    hide ProcShape;
    Basics(s);
    SameWake(s, Dozing(s));
    SameWake(s, s.(procs := AllRaised(s.procs), poll := s.poll.(pc := Clear(0, |s.procs|))));
    SwitchWake(Dozing(s));
  }

  lemma PollerWake(s: State, env: Env)
    requires Shape(s) && WakeOk(s) && s.cpu.current == s.boot.poller
    ensures PollOk(s) && WakeOk(PollStep(s, env))
  {
    hide Layout;
    hide WakeOk;
    hide Drain;
    hide Switch;
    hide Sleep;
    hide ProcShape;
    PollerLayout(s, env);
    Basics(s);
    if s.poll.pc.Scan? && s.poll.pc.i < s.poll.pc.n && HasSubmissions(s, s.poll.pc.i) {
      ScanWake(s, env, s.poll.pc.i, s.poll.pc.n, s.poll.pc.worked);
    } else if s.poll.pc == Decide(false) && s.cpu.ticks - s.poll.lastWork >= SQ_IDLE_TICKS {
      SleepWake(s);
    } else if s.poll.pc.Clear? && s.poll.pc.i < s.poll.pc.n {
      SameWake(s, PollStep(s, env));
    } else {
      IdleStep(s, env);
      SameWake(s, PollStep(s, env));
    }
  }

  lemma NotEntering(s: State, p: nat)
    requires WakeOk(s) && HasSubmissions(s, p)
    ensures s.boot.base + p !in s.cpu.enters
  {
    assert WaiterOk(s, p);
  }

  /** A process whose own task is running may rewrite its page. */
  lemma PageWake(s: State, p: nat, page: Page, c: Client)
    requires Shape(s) && WakeOk(s) && InUser(s, p)
    ensures WakeOk(SetPage(s, p, page).(clients := s.clients[p := c]))
  {
    hide ProcShape;
    hide TaskShape;
    hide LogShape;
    var r := SetPage(s, p, page).(clients := s.clients[p := c]);
    forall q | 0 <= q < |r.procs| ensures WaiterOk(r, q) && RightlyAsleep(r, q) {
      assert WaiterOk(s, q) && RightlyAsleep(s, q);
    }
  }

  lemma TrapWake(s: State, p: nat, min: nat, env: Env)
    requires Shape(s) && WakeOk(s) && Ringed(s, p) && InUser(s, p)
    ensures Callable(s, p) && WakeOk(Trap(s, p, min, env))
  {
    hide Layout;
    hide WakeOk;
    hide Enter;
    Basics(s);
    var s1 := Submitted(s, p);
    ClientLayout(s, s1);
    SameWake(s, s1);
    EnterWake(s1, p, min, env);
  }

  lemma StillEmpty(s: State, p: nat)
    requires WakeOk(s) && p < |s.procs| && s.boot.base + p in s.cpu.enters
    ensures s.procs[p].ring.Some? && Empty(s.procs[p].ring.value)
  {
    assert WaiterOk(s, p);
  }

  /** Every step of the system keeps it. */
  lemma NextWake(s: State, a: Action)
    requires Ready(s) && Enables(s, a) && WakeOk(s)
    ensures WakeOk(Next(s, a))
  {
    hide Layout;
    hide WakeOk;
    hide Happen;
    hide Enabled;
    hide UartIrq;
    hide PollStep;
    hide Exit;
    hide Enter;
    hide Check;
    hide Tick;
    hide Switch;
    hide Trap;
    Basics(s);
    match a
    case Yield => SwitchWake(s);
    case Timer =>
      TickLayout(s);
      SameWake(s, s.(cpu := s.cpu.(ticks := s.cpu.ticks + 1)));
      SwitchWake(s.(cpu := s.cpu.(ticks := s.cpu.ticks + 1)));
    case Uart(bytes) => UartWake(s, bytes);
    case Poller(env) => PollerWake(s, env);
    case Store(v) => PageWake(s, Pid(s), Happen(WireOf(s, Pid(s)), v).page, UserEvent(s, Pid(s), v).clients[Pid(s)]);
    case Scribble(page) => PageWake(s, Pid(s), page, s.clients[Pid(s)].(honest := false));
    case CallSetup => PageWake(s, Pid(s), ZeroPage(), NewClient());
    case CallSubmit => SameWake(s, LoadFlag(s, Pid(s)));
    case CallEnter(min, env) => TrapWake(s, Pid(s), min, env);
    case Resume =>
      StillEmpty(s, Pid(s));
      CheckWake(s, Pid(s), s.cpu.enters[s.cpu.current]);
    case Leave(code) => ExitWake(s, Pid(s), code);
  }
}
