/**
 Every step keeps the shape of the system: one task per process, the idle task and the
 running task runnable, exited processes without ring, waiter or parked reads.
 */
module Layouts {
  import opened Bits
  import opened Frames
  import opened Rings
  import opened Kernel
  import opened Draining
  import opened Steps
  import Sched
  import Input

  lemma SwitchLayout(s: State)
    requires Layout(s)
    requires s.cpu.tasks[s.cpu.current].state != Sched.Runnable ==> s.cpu.current != 0
    ensures Shape(s.(cpu := Switch(s.cpu)))
    ensures s.cpu.tasks[s.cpu.current].state != Sched.Runnable ==> Switch(s.cpu).current != s.cpu.current
  {
    Sched.PickIsFirst(s.cpu.tasks, s.cpu.current);
    if s.cpu.current != 0 {
      Sched.SwitchedAway(s.cpu.tasks, s.cpu.current, 0);
    }
    var r := s.(cpu := Switch(s.cpu));
    forall t | 0 <= t < |r.cpu.tasks| ensures TaskShape(r, t) {
      assert TaskShape(s, t);
    }
  }

  lemma KeptLayout(s: State, r: State, p: nat, env: Env)
    requires Layout(s) && p < |s.procs| && Kept(s, r, p, env)
    ensures Layout(r)
  {
    forall q | 0 <= q < |r.procs| ensures ProcShape(r.procs[q], q) {
      if q < |s.procs| {
        assert ProcShape(s.procs[q], q);
      } else {
        assert Child(r, q, p, env);
      }
    }
    forall q | 0 <= q < |r.logs| ensures LogShape(r.logs[q]) {
      if q < |s.procs| {
        assert LogShape(s.logs[q]);
      }
    }
    forall t | 0 <= t < |r.cpu.tasks| ensures TaskShape(r, t) {
      if t < |s.cpu.tasks| {
        assert TaskShape(s, t);
        assert r.cpu.tasks[t] == s.cpu.tasks[t];
      } else {
        assert Child(r, t - s.boot.base, p, env);
      }
    }
  }

  lemma DrainLayout(s: State, p: nat, env: Env)
    requires Layout(s) && Ringed(s, p)
    ensures !IsChild(s.procs, p, p)
    ensures Layout(Drain(s, p, env)) && Drain(s, p, env).cpu.current == s.cpu.current
    ensures Shape(s) ==> Shape(Drain(s, p, env))
  {
    hide Drain;
    assert ProcShape(s.procs[p], p);
    DrainEnds(s, p, env);
    KeptLayout(s, Drain(s, p, env), p, env);
  }

  /** Changing what a process holds, without its root or its life, and waking tasks that
      belong to live processes or to the poller. */
  lemma SameLayout(s: State, r: State)
    requires Layout(s)
    requires |r.procs| == |s.procs| && |r.logs| == |s.procs| && |r.clients| == |s.procs| && r.boot == s.boot
    requires r.cpu.current < |r.cpu.tasks| == |s.cpu.tasks|
    requires forall q | 0 <= q < |s.procs| ::
      ProcShape(r.procs[q], q) && r.procs[q].root == s.procs[q].root && (Alive(r.procs[q]) <==> Alive(s.procs[q]))
    requires forall q | 0 <= q < |s.procs| :: LogShape(r.logs[q])
    requires forall t | 0 <= t < |s.cpu.tasks| ::
      r.cpu.tasks[t] == s.cpu.tasks[t]
        || (r.cpu.tasks[t] == s.cpu.tasks[t].(state := Sched.Runnable) && s.cpu.tasks[t].state == Sched.Blocked)
    requires r.cpu.enters.Keys <= s.cpu.enters.Keys
    requires r.poll.pc == s.poll.pc || (PcShape(r) && !s.poll.pc.Asleep?)
    ensures Layout(r)
  {
    forall t | 0 <= t < |r.cpu.tasks| ensures TaskShape(r, t) {
      assert TaskShape(s, t);
    }
  }

  lemma RousedLayout(s: State, p: nat)
    requires Shape(s) && Ringed(s, p)
    ensures Shape(Roused(s, p)) && Roused(s, p).cpu.current == s.cpu.current
  {
    SameLayout(s, Roused(s, p));
  }

  /** The running task of process p registers as its waiter and blocks. */
  lemma BlockedLayout(s: State, p: nat, min: nat)
    requires Shape(s) && Ringed(s, p) && s.cpu.current == s.boot.base + p
    ensures var t := s.cpu.current;
      Layout(s.(procs := s.procs[p := s.procs[p].(waiter := Some(t))],
                cpu := s.cpu.(enters := s.cpu.enters[t := min],
                              tasks := Sched.SetState(s.cpu.tasks, t, Sched.Blocked, Sched.NEVER))))
  {
    var t := s.cpu.current;
    assert TaskShape(s, t) && ProcShape(s.procs[p], p);
    var r := s.(procs := s.procs[p := s.procs[p].(waiter := Some(t))],
                cpu := s.cpu.(enters := s.cpu.enters[t := min],
                              tasks := Sched.SetState(s.cpu.tasks, t, Sched.Blocked, Sched.NEVER)));
    forall u | 0 <= u < |r.cpu.tasks| ensures TaskShape(r, u) {
      assert TaskShape(s, u);
    }
  }

  lemma CheckLayout(s: State, p: nat, min: nat)
    requires Shape(s) && Ringed(s, p) && s.cpu.current == s.boot.base + p
    ensures Shape(Check(s, p, min))
  {
    var t := s.cpu.current;
    if Unreaped(s.procs[p].ring.value) >= min {
      assert ProcShape(s.procs[p], p);
      SameLayout(s, Check(s, p, min));
    } else {
      BlockedLayout(s, p, min);
      SwitchLayout(s.(procs := s.procs[p := s.procs[p].(waiter := Some(t))],
                      cpu := s.cpu.(enters := s.cpu.enters[t := min],
                                    tasks := Sched.SetState(s.cpu.tasks, t, Sched.Blocked, Sched.NEVER))));
    }
  }

  lemma Basics(s: State)
    requires Layout(s)
    ensures |s.logs| == |s.procs| && |s.clients| == |s.procs| && |s.cpu.tasks| == s.boot.base + |s.procs|
    ensures 1 <= s.boot.poller < s.boot.base && s.cpu.current < |s.cpu.tasks|
    ensures forall p | 0 <= p < |s.procs| :: ProcShape(s.procs[p], p) && !IsChild(s.procs, p, p)
  {
  }

  lemma EnterLayout(s: State, p: nat, min: nat, env: Env)
    requires Shape(s) && Ringed(s, p) && s.cpu.current == s.boot.base + p
    ensures Callable(s, p) && Shape(Enter(s, p, min, env))
  {
    hide Layout;
    hide ProcShape;
    hide Drain;
    hide Check;
    Basics(s);
    RousedLayout(s, p);
    var s1 := Roused(s, p);
    DrainLayout(s1, p, env);
    DrainEnds(s1, p, env);
    CheckLayout(Drain(s1, p, env), p, min);
  }

  // ---------------------------------------------------------------- exit

  lemma NotifyLayout(s: State, p: nat)
    requires Layout(s) && p < |s.procs|
    ensures Layout(Notify(s, p))
    ensures Notify(s, p).cpu.current == s.cpu.current
  {
    assert ProcShape(s.procs[p], p);
    SameLayout(s, Notify(s, p));
  }

  lemma CompleteLayout(s: State, p: nat, id: nat, c: Cqe)
    requires Layout(s) && Ringed(s, p) && id < |s.logs[p].fate|
    ensures Layout(Complete(s, p, id, c))
  {
    assert ProcShape(s.procs[p], p);
    SameLayout(s, Complete(s, p, id, c));
  }

  /** The part of an exit that concerns the parent. */
  function Told(s: State, p: nat, code: int): State
    requires |s.logs| == |s.procs| && |s.clients| == |s.procs| && p < |s.procs|
  {
    var me := s.procs[p];
    if me.exitWaiter.None? || me.parent.None? || me.parent.value >= |s.procs| then s
    else
      var q := me.parent.value;
      var id := s.logs[p].asked;
      var s1 := if Ringed(s, q) && id < |s.logs[q].fate| then Complete(s, q, id, Cqe(me.exitWaiter.value, code)) else s;
      Notify(s1, q)
  }

  function Gone(q: Proc, code: int): Proc {
    q.(pending := NoReads(), waiter := None, exitCode := Some(code), exitWaiter := None, ring := None,
      foreground := false)
  }

  /** The part that concerns the process and its task. */
  function Retired(s: State, p: nat, code: int): State
    requires p < |s.procs| && s.cpu.current < |s.cpu.tasks|
  {
    var t := s.cpu.current;
    s.(procs := s.procs[p := Gone(s.procs[p], code)],
       cpu := s.cpu.(live := s.boot.kernelRoot, freed := s.cpu.freed + {s.procs[p].root},
                     tasks := Sched.SetState(s.cpu.tasks, t, Sched.Exited, s.cpu.tasks[t].wakeAt)),
       shared := s.shared - LowPages(s.procs[p].ranges).Keys)
  }

  lemma ToldKeeps(s: State, p: nat, code: int)
    requires Layout(s) && p < |s.procs|
    ensures Layout(Told(s, p, code)) && Told(s, p, code).cpu.current == s.cpu.current
    ensures Told(s, p, code).boot == s.boot && |Told(s, p, code).procs| == |s.procs|
    ensures Told(s, p, code).procs[p] == s.procs[p]
    ensures forall t | 0 <= t < |s.cpu.tasks| && s.cpu.tasks[t].state == Sched.Runnable ::
      Told(s, p, code).cpu.tasks[t] == s.cpu.tasks[t]
  {
    hide Layout;
    hide Complete;
    Basics(s);
    var me := s.procs[p];
    if me.exitWaiter.Some? && me.parent.Some? && me.parent.value < |s.procs| {
      var q, id, c := me.parent.value, s.logs[p].asked, Cqe(me.exitWaiter.value, code);
      if Ringed(s, q) && id < |s.logs[q].fate| {
        CompleteLayout(s, q, id, c);
        CompleteProcs(s, q, id, c);
        NotifyLayout(Complete(s, q, id, c), q);
      } else {
        NotifyLayout(s, q);
      }
    }
  }

  lemma CompleteProcs(s: State, p: nat, id: nat, c: Cqe)
    requires Ringed(s, p) && id < |s.logs[p].fate|
    ensures var r := Complete(s, p, id, c);
      && r.procs == s.procs[p := r.procs[p]] && r.logs == s.logs[p := r.logs[p]]
      && r.clients == s.clients && r.cpu == s.cpu && r.boot == s.boot && r.poll == s.poll && r.console == s.console
      && OwnerKept(s.procs[p], r.procs[p]) && r.procs[p].pending == s.procs[p].pending
  {
  }

  /** An exit tells the parent, retires the process, and switches away for good. */
  lemma ExitIs(s: State, p: nat, code: int)
    requires Layout(s) && p < |s.procs|
    ensures Told(s, p, code).cpu.current < |Told(s, p, code).cpu.tasks|
    ensures |Told(s, p, code).procs| == |s.procs|
    ensures var r := Retired(Told(s, p, code), p, code);
      Exit(s, p, code) == r.(cpu := Switch(r.cpu))
  {
    hide Switch;
    hide Layout;
    Basics(s);
    ToldKeeps(s, p, code);
    Basics(Told(s, p, code));
    var me := s.procs[p];
    var s1 := s.(procs := s.procs[p := s.procs[p].(pending := NoReads(), waiter := None)]);
    var s2 := NotifyExit(s1, p, code);
    var r := Told(s, p, code);
    assert s2 == r.(procs := r.procs[p := s2.procs[p]]) by { hide Post; hide Settled; }
    assert r.procs[p := s2.procs[p]][p := Gone(me, code)] == r.procs[p := Gone(me, code)];
  }

  lemma RetiredLayout(s: State, p: nat, code: int)
    requires Shape(s) && p < |s.procs| && s.cpu.current == s.boot.base + p && s.cpu.current !in s.cpu.enters
    ensures Layout(Retired(s, p, code)) && Retired(s, p, code).cpu.current != 0
  {
    var r := Retired(s, p, code);
    assert ProcShape(s.procs[p], p);
    forall t | 0 <= t < |r.cpu.tasks| ensures TaskShape(r, t) {
      assert TaskShape(s, t);
    }
  }

  lemma ExitLayout(s: State, p: nat, code: int)
    requires Shape(s) && p < |s.procs| && s.cpu.current == s.boot.base + p && s.cpu.current !in s.cpu.enters
    ensures Shape(Exit(s, p, code)) && Exit(s, p, code).cpu.current != s.cpu.current
  {
    hide Layout;
    hide Told;
    hide Exit;
    hide Switch;
    Basics(s);
    ExitIs(s, p, code);
    ToldKeeps(s, p, code);
    var s1 := Told(s, p, code);
    assert s1.cpu.enters == s.cpu.enters by { ToldEnters(s, p, code); }
    RetiredLayout(s1, p, code);
    SwitchLayout(Retired(s1, p, code));
  }

  lemma ToldEnters(s: State, p: nat, code: int)
    requires |s.logs| == |s.procs| && |s.clients| == |s.procs| && p < |s.procs|
    ensures Told(s, p, code).cpu == s.cpu.(tasks := Told(s, p, code).cpu.tasks)
    ensures Told(s, p, code).poll == s.poll && Told(s, p, code).clients == s.clients
      && Told(s, p, code).console == s.console
  {
  }

  // ---------------------------------------------------------------- console interrupt

  /** What completing parked reads of p leaves alone. */
  ghost predicate SlotsKept(s: State, r: State, p: nat, completed: bool)
    requires Ringed(s, p)
  {
    && Ringed(r, p) && r.clients == s.clients && r.cpu == s.cpu && r.boot == s.boot && r.poll == s.poll
    && r.procs == s.procs[p := r.procs[p]] && r.logs == s.logs[p := r.logs[p]]
    && OwnerKept(s.procs[p], r.procs[p]) && r.procs[p].ring.value.sqHead == s.procs[p].ring.value.sqHead
    && (forall j | 0 <= j < 8 :: r.procs[p].pending[j] == s.procs[p].pending[j] || r.procs[p].pending[j].None?)
    && (!completed ==> r.procs == s.procs && r.logs == s.logs)
  }

  /** One parked read served. */
  function Served(s: State, p: nat, i: nat, con: Console, count: nat): (r: State)
    requires Ringed(s, p) && i < 8 && s.procs[p].pending[i].Some? && s.logs[p].slots[i] < |s.logs[p].fate|
    ensures Ringed(r, p)
  {
    var r := Complete(s.(console := con), p, s.logs[p].slots[i], Cqe(s.procs[p].pending[i].value.tag, count));
    r.(procs := r.procs[p := r.procs[p].(pending := r.procs[p].pending[i := None])])
  }

  lemma ServedKept(s: State, p: nat, i: nat, con: Console, count: nat)
    requires Ringed(s, p) && i < 8 && s.procs[p].pending[i].Some? && s.logs[p].slots[i] < |s.logs[p].fate|
    ensures SlotsKept(s, Served(s, p, i, con, count), p, true)
  {
    hide Complete;
    CompleteProcs(s.(console := con), p, s.logs[p].slots[i], Cqe(s.procs[p].pending[i].value.tag, count));
  }

  lemma SlotsTrans(s: State, r: State, u: State, p: nat, completed: bool)
    requires Ringed(s, p) && SlotsKept(s, r, p, true) && SlotsKept(r, u, p, completed)
    ensures SlotsKept(s, u, p, true)
  {
    assert s.procs[p := r.procs[p]][p := u.procs[p]] == s.procs[p := u.procs[p]];
    assert s.logs[p := r.logs[p]][p := u.logs[p]] == s.logs[p := u.logs[p]];
  }

  lemma {:induction false} PollSlotsKept(s: State, p: nat, i: nat)
    requires Ringed(s, p) && i <= 8
    ensures SlotsKept(s, PollSlots(s, p, i).0, p, PollSlots(s, p, i).1)
    decreases 8 - i
  {
    hide Complete;
    hide Deliver;
    if i < 8 {
      if s.procs[p].pending[i].None? {
        PollSlotsKept(s, p, i + 1);
      } else {
        var q := s.procs[p].pending[i].value;
        var (con, count) := Deliver(s.console, Facing(s, p), p, s.logs[p].slots[i], q.buf, q.len, 0);
        if count == 0 || s.logs[p].slots[i] >= |s.logs[p].fate| {
          PollSlotsKept(s.(console := con), p, i + 1);
        } else {
          var r := Served(s, p, i, con, count);
          ServedKept(s, p, i, con, count);
          PollSlotsKept(r, p, i + 1);
          SlotsTrans(s, r, PollSlots(r, p, i + 1).0, p, PollSlots(r, p, i + 1).1);
        }
      }
    }
  }

  lemma SlotsLayout(s: State, r: State, p: nat, completed: bool)
    requires Layout(s) && Ringed(s, p) && SlotsKept(s, r, p, completed)
    ensures Layout(r)
  {
    assert ProcShape(s.procs[p], p);
    SameLayout(s, r);
  }

  lemma UartLayout(s: State, bytes: seq<Byte>)
    requires Shape(s) && |s.console.input| <= Input.CAPACITY
    ensures Shape(UartIrq(s, bytes))
  {
    hide PollSlots;
    hide Layout;
    var s0 := s.(console := Arrived(s.console, bytes));
    assert Layout(s0) by { Relayout(s, s0); }
    var fg := Foreground(s0.procs);
    if fg.Some? && Ringed(s0, fg.value) {
      var p := fg.value;
      var s1 := s0.(cpu := s0.cpu.(live := s0.procs[p].root));
      assert Layout(s1) by { Relayout(s0, s1); }
      PollSlotsKept(s1, p, 0);
      var (s2, completed) := PollSlots(s1, p, 0);
      SlotsLayout(s1, s2, p, completed);
      var s3 := s2.(cpu := s2.cpu.(live := s0.cpu.live));
      assert Layout(s3) by { Relayout(s2, s3); }
      NotifyLayout(s3, p);
    }
  }

  /** The console and the live root are not part of the layout. */
  lemma Relayout(s: State, r: State)
    requires Layout(s) && r == s.(console := r.console, cpu := s.cpu.(live := r.cpu.live))
    ensures Layout(r)
  {
    forall t | 0 <= t < |r.cpu.tasks| ensures TaskShape(r, t) {
      assert TaskShape(s, t);
    }
  }

  // ---------------------------------------------------------------- the other steps

  /** No task sleeps on the clock, so a tick wakes nobody. */
  lemma NobodyDue(s: State, now: nat)
    requires Layout(s) && now < Sched.NEVER
    ensures Sched.SleepersWoken(s.cpu.tasks, now) == s.cpu.tasks
  {
    forall t | 0 <= t < |s.cpu.tasks| ensures Sched.Due(s.cpu.tasks[t], now) == s.cpu.tasks[t] {
      assert TaskShape(s, t);
    }
  }

  lemma TickLayout(s: State)
    requires Shape(s) && s.cpu.ticks + 1 < Sched.NEVER
    ensures Tick(s) == Yielded(s.(cpu := s.cpu.(ticks := s.cpu.ticks + 1))) && Shape(Tick(s))
    ensures Layout(s.(cpu := s.cpu.(ticks := s.cpu.ticks + 1)))
  {
    NobodyDue(s, s.cpu.ticks + 1);
    var r := s.(cpu := s.cpu.(ticks := s.cpu.ticks + 1));
    SameLayout(s, r);
    SwitchLayout(r);
  }

  /** The poller goes to sleep. */
  function Dozing(s: State): State
    requires |s.clients| == |s.procs| && s.cpu.current < |s.cpu.tasks|
  {
    s.(procs := AllRaised(s.procs), clients := AllEarly(s.clients, s.procs), poll := s.poll.(pc := Asleep),
       cpu := s.cpu.(tasks := Sched.SetState(s.cpu.tasks, s.cpu.current, Sched.Blocked, Sched.NEVER)))
  }

  lemma DozingLayout(s: State)
    requires Shape(s) && s.cpu.current == s.boot.poller
    ensures Layout(Dozing(s))
  {
    var r := Dozing(s);
    forall t | 0 <= t < |r.cpu.tasks| ensures TaskShape(r, t) {
      assert TaskShape(s, t);
    }
    forall q | 0 <= q < |s.procs| ensures ProcShape(r.procs[q], q) {
      assert ProcShape(s.procs[q], q);
    }
  }

  lemma RaisedLayout(s: State)
    requires Layout(s) && !s.poll.pc.Asleep?
    ensures Layout(s.(procs := AllRaised(s.procs), poll := s.poll.(pc := Clear(0, |s.procs|))))
  {
    var r := s.(procs := AllRaised(s.procs), poll := s.poll.(pc := Clear(0, |s.procs|)));
    forall q | 0 <= q < |s.procs| ensures ProcShape(r.procs[q], q) {
      assert ProcShape(s.procs[q], q);
    }
    SameLayout(s, r);
  }

  lemma SleepLayout(s: State)
    requires Shape(s) && s.cpu.current == s.boot.poller && !s.poll.pc.Asleep?
    ensures Shape(Sleep(s))
  {
    hide Layout;
    Basics(s);
    if AnySubmissions(s.(procs := AllRaised(s.procs))) {
      RaisedLayout(s);
    } else {
      DozingLayout(s);
      SwitchLayout(Dozing(s));
    }
  }

  /** Moving the poller on, while it runs. */
  lemma PcLayout(s: State, poll: Poll)
    requires Shape(s) && s.cpu.current == s.boot.poller
    requires PcShape(s.(poll := poll))
    ensures Shape(s.(poll := poll))
  {
    var r := s.(poll := poll);
    forall t | 0 <= t < |r.cpu.tasks| ensures TaskShape(r, t) {
      assert TaskShape(s, t);
    }
  }

  lemma PollerLayout(s: State, env: Env)
    requires Shape(s) && s.cpu.current == s.boot.poller
    ensures PollOk(s) && Shape(PollStep(s, env))
  {
    hide Layout;
    hide Drain;
    hide Sleep;
    hide Switch;
    Basics(s);
    assert PcShape(s) by { assert Layout(s); PcOf(s); }
    match s.poll.pc
    case Top => PcLayout(s, s.poll.(pc := Scan(0, |s.procs|, false)));
    case Scan(i, n, worked) =>
      if i == n {
        PcLayout(s, s.poll.(pc := Decide(worked)));
      } else if HasSubmissions(s, i) {
        var s1 := s.(poll := s.poll.(pc := Scan(i + 1, n, true)));
        PcLayout(s, s1.poll);
        var s2 := s1.(cpu := s.cpu.(live := s.procs[i].root));
        Relayout(s1, s2);
        DrainLayout(s2, i, env);
      } else {
        PcLayout(s, s.poll.(pc := Scan(i + 1, n, worked)));
      }
    case Decide(worked) =>
      if worked {
        PcLayout(s, s.poll.(pc := Clear(0, |s.procs|)));
      } else if s.cpu.ticks - s.poll.lastWork >= SQ_IDLE_TICKS {
        SleepLayout(s);
      } else {
        PcLayout(s, s.poll.(pc := Top));
        SwitchLayout(s.(poll := s.poll.(pc := Top)));
      }
    case Clear(i, n) =>
      if i == n {
        PcLayout(s, Poll(Top, s.cpu.ticks));
        SwitchLayout(s.(poll := Poll(Top, s.cpu.ticks)));
      } else {
        var poll := s.poll.(pc := Clear(i + 1, n));
        PcLayout(s, poll);
        ClearLayout(s.(poll := poll), i);
      }
    case Asleep => PcLayout(s, s.poll.(pc := Clear(0, |s.procs|)));
  }

  /** Apart from draining, clearing a flag and going to sleep, the poller only moves on, or lets others run. */
  lemma IdleStep(s: State, env: Env)
    requires PollOk(s)
    requires !(s.poll.pc.Scan? && s.poll.pc.i < s.poll.pc.n && HasSubmissions(s, s.poll.pc.i))
    requires !(s.poll.pc == Decide(false) && s.cpu.ticks - s.poll.lastWork >= SQ_IDLE_TICKS)
    requires !(s.poll.pc.Clear? && s.poll.pc.i < s.poll.pc.n)
    ensures var r := PollStep(s, env);
      || r == s.(poll := r.poll)
      || (r == s.(poll := r.poll, cpu := Switch(s.cpu)))
  {
    hide Switch;
    hide Drain;
  }

  lemma PcOf(s: State)
    requires Layout(s)
    ensures PcShape(s)
  {
  }

  lemma ClearLayout(s: State, i: nat)
    requires Layout(s) && i < |s.procs|
    ensures Layout(s.(procs := s.procs[i := SetFlag(s.procs[i], false)]))
  {
    assert ProcShape(s.procs[i], i);
    SameLayout(s, s.(procs := s.procs[i := SetFlag(s.procs[i], false)]));
  }

  /** New contents of a page, and of the history of its client. */
  lemma PageLayout(s: State, p: nat, page: Page, c: Client)
    requires Shape(s) && p < |s.procs| && Alive(s.procs[p]) && PageOk(page)
    ensures Shape(SetPage(s, p, page).(clients := s.clients[p := c]))
  {
    assert ProcShape(s.procs[p], p);
    SameLayout(s, SetPage(s, p, page).(clients := s.clients[p := c]));
  }

  lemma TrapLayout(s: State, p: nat, min: nat, env: Env)
    requires Shape(s) && Ringed(s, p) && s.cpu.current == s.boot.base + p
    ensures Callable(s, p) && Shape(Trap(s, p, min, env))
  {
    hide Layout;
    hide Enter;
    Basics(s);
    var s1 := Submitted(s, p);
    assert Layout(s1) by { ClientLayout(s, s1); }
    EnterLayout(s1, p, min, env);
  }

  lemma ClientLayout(s: State, r: State)
    requires Layout(s) && r == s.(clients := r.clients) && |r.clients| == |s.clients|
    ensures Layout(r)
  {
    SameLayout(s, r);
  }

  lemma WritePageOk(s: State, p: nat, v: Event)
    requires Ringed(s, p) && OfClient(v) && Enabled(WireOf(s, p), v)
    ensures PageOk(Happen(WireOf(s, p), v).page)
  {
  }

  lemma LiveUser(s: State)
    requires Shape(s) && Pid(s) >= 0 && Pid(s) < |s.procs|
    ensures Alive(s.procs[Pid(s)])
  {
    assert TaskShape(s, s.cpu.current);
  }

  lemma NextLayout(s: State, a: Action)
    requires Ready(s) && Enables(s, a)
    ensures Shape(Next(s, a))
  {
    hide Layout;
    hide Happen;
    hide Enabled;
    hide UartIrq;
    hide PollStep;
    hide Exit;
    hide Enter;
    hide Check;
    hide Tick;
    hide Switch;
    Basics(s);
    match a
    case Yield => SwitchLayout(s);
    case Timer => TickLayout(s);
    case Uart(bytes) => UartLayout(s, bytes);
    case Poller(env) => PollerLayout(s, env);
    case Store(v) =>
      var p := Pid(s);
      WritePageOk(s, p, v);
      LiveUser(s);
      PageLayout(s, p, Happen(WireOf(s, p), v).page, UserEvent(s, p, v).clients[p]);
    case Scribble(page) =>
      LiveUser(s);
      PageLayout(s, Pid(s), page, s.clients[Pid(s)].(honest := false));
    case CallSetup =>
      LiveUser(s);
      PageLayout(s, Pid(s), ZeroPage(), NewClient());
    case CallSubmit => ClientLayout(s, LoadFlag(s, Pid(s)));
    case CallEnter(min, env) => TrapLayout(s, Pid(s), min, env);
    case Resume => CheckLayout(s, Pid(s), s.cpu.enters[s.cpu.current]);
    case Leave(code) => ExitLayout(s, Pid(s), code);
  }
}
