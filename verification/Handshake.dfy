/**
 The NEED_WAKEUP handshake between submitters and the sleeping poller (kernel/src/ring.rs,
 user/src/uring.rs), for rings that were there when the poller went to sleep.
 */
module Handshake {
  import opened Bits
  import opened Rings
  import opened Kernel
  import opened Draining
  import opened Steps
  import opened Layouts
  import Sched
  import Input

  predicate PollerSleeps(s: State) {
    s.boot.poller < |s.cpu.tasks| && s.cpu.tasks[s.boot.poller].state == Sched.Blocked
  }

  /** The flag is up exactly if the ring was there when the poller fell asleep, and then a published
      request has its submit still to come. */
  predicate Heard(q: Proc, c: Client) {
    q.ring.Some? && c.honest ==>
      (FlagUp(q.ring.value) <==> c.early) && (c.early ==> Empty(q.ring.value) || c.unsubmitted)
  }

  ghost predicate FlagsOk(s: State) {
    && |s.clients| == |s.procs|
    && (PollerSleeps(s) ==> forall p | 0 <= p < |s.procs| :: Heard(s.procs[p], s.clients[p]))
  }

  /** The flag and the submission queue of a process, and what its client owes, unchanged or emptied;
      or a ring set up just now. */
  predicate SameFlag(a: Proc, c: Client, b: Proc, d: Client) {
    b.ring.Some? && d.honest && (d.early || FlagUp(b.ring.value) || a.ring.Some?) ==>
      && a.ring.Some? && c.honest && c.early == d.early && b.ring.value.flags == a.ring.value.flags
      && (d.early ==> Empty(b.ring.value) || d.unsubmitted || (!Empty(a.ring.value) && !c.unsubmitted))
  }

  lemma SameFlags(s: State, r: State)
    requires FlagsOk(s) && |r.clients| == |r.procs| && |s.procs| <= |r.procs|
    requires PollerSleeps(r) ==> PollerSleeps(s)
    requires forall u | 0 <= u < |s.procs| :: SameFlag(s.procs[u], s.clients[u], r.procs[u], r.clients[u])
    requires forall u | |s.procs| <= u < |r.procs| :: r.procs[u].ring.None?
    ensures FlagsOk(r)
  {
    if PollerSleeps(r) {
      forall u | 0 <= u < |r.procs| ensures Heard(r.procs[u], r.clients[u]) {
        if u < |s.procs| {
          assert Heard(s.procs[u], s.clients[u]);
        }
      }
    }
  }

  lemma KeptFlags(s: State, r: State, p: nat, env: Env)
    requires Layout(s) && FlagsOk(s) && p < |s.procs| && Kept(s, r, p, env) && Empty(r.procs[p].ring.value)
    ensures FlagsOk(r) && PollerSleeps(r) == PollerSleeps(s)
  {
    hide ProcShape;
    hide TaskShape;
    assert r.cpu.tasks[s.boot.poller] == s.cpu.tasks[s.boot.poller];
    forall u | 0 <= u < |s.procs| ensures SameFlag(s.procs[u], s.clients[u], r.procs[u], r.clients[u]) {
      assert u != p ==> OtherKept(s.procs[u], r.procs[u], p);
      assert r.clients[u] == s.clients[u];
    }
    forall u | |s.procs| <= u < |r.procs| ensures r.procs[u].ring.None? {
      assert Child(r, u, p, env);
    }
    SameFlags(s, r);
  }

  /** A submitter that finds the flag up lowers it, wakes the poller and has its queue drained. */
  lemma EnterFlags(s: State, p: nat, min: nat, env: Env)
    requires Shape(s) && FlagsOk(s) && Ringed(s, p) && s.cpu.current == s.boot.base + p
    ensures Callable(s, p) && FlagsOk(Enter(s, p, min, env))
    ensures FlagUp(s.procs[p].ring.value) ==> !PollerSleeps(Enter(s, p, min, env))
    ensures Enter(s, p, min, env).procs[p].ring.Some? && Empty(Enter(s, p, min, env).procs[p].ring.value)
  {
    hide Layout;
    hide FlagsOk;
    hide Drain;
    hide Check;
    Basics(s);
    RousedLayout(s, p);
    RousedFlags(s, p);
    var s1 := Roused(s, p);
    DrainLayout(s1, p, env);
    DrainEnds(s1, p, env);
    var s2 := Drain(s1, p, env);
    KeptFlags(s1, s2, p, env);
    CheckFlags(s2, p, min);
  }

  lemma RousedFlags(s: State, p: nat)
    requires Layout(s) && FlagsOk(s) && Ringed(s, p)
    ensures FlagsOk(Roused(s, p))
    ensures FlagUp(s.procs[p].ring.value) ==> !PollerSleeps(Roused(s, p))
  {
    hide ProcShape;
    hide TaskShape;
    if !FlagUp(s.procs[p].ring.value) {
      SameFlags(s, Roused(s, p));
    }
  }

  lemma CheckFlags(s: State, p: nat, min: nat)
    requires Layout(s) && FlagsOk(s) && Ringed(s, p) && s.cpu.current == s.boot.base + p
    ensures FlagsOk(Check(s, p, min)) && PollerSleeps(Check(s, p, min)) == PollerSleeps(s)
    ensures |Check(s, p, min).procs| == |s.procs| && Check(s, p, min).procs[p].ring == s.procs[p].ring
  {
    hide Switch;
    hide ProcShape;
    hide TaskShape;
    SameFlags(s, Check(s, p, min));
  }

  /** Completions do not touch the flags or the submission queues. */
  lemma OwnerFlags(s: State, r: State, p: nat)
    requires FlagsOk(s) && p < |s.procs| == |r.procs| && r.procs == s.procs[p := r.procs[p]] && r.clients == s.clients
    requires OwnerKept(s.procs[p], r.procs[p]) && r.procs[p].ring.value.sqHead == s.procs[p].ring.value.sqHead
    requires PollerSleeps(r) ==> PollerSleeps(s)
    ensures FlagsOk(r)
  {
    SameFlags(s, r);
  }

  lemma NotifyFlags(s: State, p: nat)
    requires FlagsOk(s) && p < |s.procs|
    ensures FlagsOk(Notify(s, p))
  {
    SameFlags(s, Notify(s, p));
  }

  lemma ToldFlags(s: State, p: nat, code: int)
    requires Layout(s) && FlagsOk(s) && p < |s.procs|
    ensures |s.logs| == |s.procs| && FlagsOk(Told(s, p, code))
  {
    hide Layout;
    hide FlagsOk;
    hide Complete;
    hide Notify;
    Basics(s);
    var me := s.procs[p];
    if me.exitWaiter.Some? && me.parent.Some? && me.parent.value < |s.procs| {
      var q, id, c := me.parent.value, s.logs[p].asked, Cqe(me.exitWaiter.value, code);
      if Ringed(s, q) && id < |s.logs[q].fate| {
        CompleteProcs(s, q, id, c);
        OwnerFlags(s, Complete(s, q, id, c), q);
        NotifyFlags(Complete(s, q, id, c), q);
      } else {
        NotifyFlags(s, q);
      }
    }
  }

  lemma ExitFlags(s: State, p: nat, code: int)
    requires Shape(s) && FlagsOk(s) && p < |s.procs| && s.cpu.current == s.boot.base + p
    ensures |s.logs| == |s.procs| && FlagsOk(Exit(s, p, code))
  {
    hide Layout;
    hide FlagsOk;
    hide Told;
    hide Exit;
    hide Switch;
    Basics(s);
    ExitIs(s, p, code);
    ToldKeeps(s, p, code);
    ToldEnters(s, p, code);
    ToldFlags(s, p, code);
    Basics(Told(s, p, code));
    SameFlags(Told(s, p, code), Exit(s, p, code));
  }

  lemma UartFlags(s: State, bytes: seq<Byte>)
    requires Layout(s) && FlagsOk(s) && |s.console.input| <= Input.CAPACITY
    ensures FlagsOk(UartIrq(s, bytes))
  {
    hide PollSlots;
    hide Layout;
    hide FlagsOk;
    hide Notify;
    Basics(s);
    var s0 := s.(console := Arrived(s.console, bytes));
    SameFlags(s, s0);
    var fg := Foreground(s0.procs);
    if fg.Some? && Ringed(s0, fg.value) {
      var p := fg.value;
      var s1 := s0.(cpu := s0.cpu.(live := s0.procs[p].root));
      PollSlotsKept(s1, p, 0);
      var (s2, completed) := PollSlots(s1, p, 0);
      var s3 := s2.(cpu := s2.cpu.(live := s0.cpu.live));
      OwnerFlags(s0, s3, p);
      NotifyFlags(s3, p);
    }
  }

  /** Falling asleep: every flag is up and nothing is waiting. */
  lemma SleepFlags(s: State)
    requires Shape(s) && s.cpu.current == s.boot.poller
    ensures |s.clients| == |s.procs| && FlagsOk(Sleep(s))
  {
    hide Switch;
    hide ProcShape;
    hide TaskShape;
    var r := Sleep(s);
    var s1 := s.(procs := AllRaised(s.procs));
    if !AnySubmissions(s1) {
      forall p | 0 <= p < |s.procs| ensures Heard(r.procs[p], r.clients[p]) {
        RaisedRinged(s, p);
        assert !HasSubmissions(s1, p);
      }
    }
  }

  lemma RaisedRinged(s: State, p: nat)
    requires Layout(s) && p < |s.procs|
    ensures s.procs[p].ring.Some? ==> Ringed(s.(procs := AllRaised(s.procs)), p)
  {
    assert ProcShape(s.procs[p], p);
  }

  /** While it runs, the poller is not asleep. */
  lemma PollerFlags(s: State, env: Env)
    requires Shape(s) && FlagsOk(s) && s.cpu.current == s.boot.poller
    ensures PollOk(s) && FlagsOk(PollStep(s, env))
  {
    hide Layout;
    hide Drain;
    hide Switch;
    hide Sleep;
    PollerLayout(s, env);
    Basics(s);
    if s.poll.pc.Scan? && s.poll.pc.i < s.poll.pc.n && HasSubmissions(s, s.poll.pc.i) {
      var i := s.poll.pc.i;
      var s2 := s.(cpu := s.cpu.(live := s.procs[i].root), poll := s.poll.(pc := Scan(i + 1, s.poll.pc.n, true)));
      DrainEnds(s2, i, env);
    } else if s.poll.pc == Decide(false) && s.cpu.ticks - s.poll.lastWork >= SQ_IDLE_TICKS {
      SleepFlags(s);
    } else if !(s.poll.pc.Clear? && s.poll.pc.i < s.poll.pc.n) {
      IdleStep(s, env);
    }
  }

  lemma TrapFlags(s: State, p: nat, min: nat, env: Env)
    requires Shape(s) && FlagsOk(s) && Ringed(s, p) && s.cpu.current == s.boot.base + p
    ensures Callable(s, p) && FlagsOk(Trap(s, p, min, env)) && p < |Trap(s, p, min, env).procs|
    ensures Trap(s, p, min, env).procs[p].ring.Some? && Empty(Trap(s, p, min, env).procs[p].ring.value)
    ensures !FlagUp(Trap(s, p, min, env).procs[p].ring.value)
    ensures FlagUp(s.procs[p].ring.value) ==> !PollerSleeps(Trap(s, p, min, env))
  {
    hide Layout;
    hide Enter;
    Basics(s);
    var s1 := Submitted(s, p);
    ClientLayout(s, s1);
    EnterEmpties(s1, p, min, env);
    if FlagUp(s.procs[p].ring.value) {
      SubmitEnters(s, s1, p, min, env);
    } else {
      SameHeard(s, s1, p);
      EnterFlags(s1, p, min, env);
    }
  }

  lemma SameHeard(s: State, s1: State, p: nat)
    requires FlagsOk(s) && p < |s.procs| && s1 == Submitted(s, p)
    requires s.procs[p].ring.Some? && !FlagUp(s.procs[p].ring.value)
    ensures FlagsOk(s1)
  {
    if PollerSleeps(s) {
      forall u | 0 <= u < |s.procs| ensures Heard(s1.procs[u], s1.clients[u]) {
        assert Heard(s.procs[u], s.clients[u]);
      }
    }
  }

  /** The books of what is owed are settled by the drain. */
  lemma SubmitEnters(s: State, s1: State, p: nat, min: nat, env: Env)
    requires p < |s.procs| == |s.clients| && s.procs[p].ring.Some?
    requires Shape(s1) && FlagsOk(s) && Ringed(s1, p) && s1.cpu.current == s1.boot.base + p
    requires s1 == Submitted(s, p) && FlagUp(s.procs[p].ring.value)
    ensures Callable(s1, p) && FlagsOk(Enter(s1, p, min, env)) && !PollerSleeps(Enter(s1, p, min, env))
  {
    hide Layout;
    hide Drain;
    hide Check;
    Basics(s1);
    RousedLayout(s1, p);
    var s2 := Roused(s1, p);
    assert !PollerSleeps(s2);
    DrainLayout(s2, p, env);
    DrainEnds(s2, p, env);
    var s3 := Drain(s2, p, env);
    KeptFlags(s2, s3, p, env);
    CheckFlags(s3, p, min);
  }

  /** A system call leaves the queue empty and the flag down. */
  lemma EnterEmpties(s: State, p: nat, min: nat, env: Env)
    requires Shape(s) && Ringed(s, p)
    ensures Callable(s, p) && p < |Enter(s, p, min, env).procs|
    ensures Enter(s, p, min, env).procs[p].ring.Some? && Empty(Enter(s, p, min, env).procs[p].ring.value)
    ensures !FlagUp(Enter(s, p, min, env).procs[p].ring.value)
  {
    hide Layout;
    hide Drain;
    Basics(s);
    RousedLayout(s, p);
    Basics(Roused(s, p));
    DrainEnds(Roused(s, p), p, env);
  }

  lemma LoadFlags(s: State, p: nat)
    requires FlagsOk(s) && Ringed(s, p)
    ensures FlagsOk(LoadFlag(s, p))
  {
    if !FlagUp(s.procs[p].ring.value) { SameHeard(s, Submitted(s, p), p); }
  }

  lemma StoreFlags(s: State, p: nat, v: Event)
    requires FlagsOk(s) && Ringed(s, p) && OfClient(v) && Enabled(WireOf(s, p), v)
    ensures FlagsOk(UserEvent(s, p, v))
  {
    SameFlags(s, UserEvent(s, p, v));
  }

  /** Every step of the system keeps it. */
  lemma NextFlags(s: State, a: Action)
    requires Ready(s) && Enables(s, a) && FlagsOk(s)
    ensures FlagsOk(Next(s, a))
  {
    hide Layout;
    hide FlagsOk;
    hide Happen;
    hide Enabled;
    hide UartIrq;
    hide PollStep;
    hide Exit;
    hide Enter;
    hide Check;
    hide Switch;
    hide Trap;
    hide Tick;
    hide UserEvent;
    Basics(s);
    match a
    case Timer =>
      TickLayout(s);
      SameFlags(s, Tick(s));
    case Uart(bytes) => UartFlags(s, bytes);
    case Poller(env) => PollerFlags(s, env);
    case Store(v) => StoreFlags(s, Pid(s), v);
    case CallSubmit => LoadFlags(s, Pid(s));
    case CallEnter(min, env) => TrapFlags(s, Pid(s), min, env);
    case Resume => CheckFlags(s, Pid(s), s.cpu.enters[s.cpu.current]);
    case Leave(code) => ExitFlags(s, Pid(s), code);
    case _ => SameFlags(s, Next(s, a));
  }
}
