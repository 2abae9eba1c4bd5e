/**
 What a ring page that can be named as a buffer does to the wake-up protocol (kernel/src/ring.rs):
 a run at whose end the byte the kernel stored for a read lies in the submission tail of a
 process that sleeps.
 */
module Strikes {
  import opened Bits
  import opened Frames
  import opened Loader
  import opened Gate
  import opened Rings
  import opened Kernel
  import opened Draining
  import opened Steps
  import opened Machine
  import opened Losses
  import Sched

  /** An image with a writable segment at the ring's address. */
  const RINGS: seq<Range> := [Range(USER_RING_VA, USER_RING_VA + 4096, true)]

  /** The first byte of `sq_tail` in the ring page. */
  const TAIL: Word := USER_RING_VA + 4

  /** The page with that byte replaced. */
  function Struck(page: Page, b: Byte): Page {
    page.(sqTail := page.sqTail / 256 * 256 + b)
  }

  /** The page once the read has been consumed. */
  function Waiting(): (page: Page)
    ensures PageOk(page)
  {
    Took(OneRead(TAIL, 1))
  }

  /** The process sleeps in `enter`, waiting for two completions, with its read parked. */
  function Asleep(): State {
    Asking(RINGS, OneRead(TAIL, 1), []).(
      procs := [NewProc(8192, RINGS, None).(
                  foreground := true, ring := Some(Waiting()), waiter := Some(2),
                  pending := NoReads()[0 := Some(Pending(TAIL, 1, 1))])],
      logs := [NewLog().(reqs := [Sqe(OP_READ, TAIL, 1, 1)], able := [true], fate := [Parked(0)])],
      cpu := Cpu([Sched.Task(Sched.Runnable, 0, None, None), Sched.Task(Sched.Runnable, 0, None, None),
                  Sched.Task(Sched.Blocked, Sched.NEVER, Some(0), Some(8192))], 0, 8192, {}, 1, map[2 := 2]))
  }

  /** A byte has been typed and stored; the process is awake. */
  function Answered(current: nat, ticks: nat): State {
    Asleep().(
      procs := [NewProc(8192, RINGS, None).(foreground := true, ring := Some(Post(Waiting(), Cqe(1, 1))))],
      logs := [NewLog().(reqs := [Sqe(OP_READ, TAIL, 1, 1)], able := [true], fate := [Posted(0)],
        posted := [Cqe(1, 1)], origin := [0])],
      cpu := Cpu([Sched.Task(Sched.Runnable, 0, None, None), Sched.Task(Sched.Runnable, 0, None, None),
                  Sched.Task(Sched.Runnable, Sched.NEVER, Some(0), Some(8192))], current, 8192, {}, ticks, map[2 := 2]),
      console := Console([], true, [5], [5], [Delivery(0, 0, 8192, TAIL, 5)], false))
  }

  lemma Blocks()
    ensures var s := Asking(RINGS, OneRead(TAIL, 1), []);
      Callable(s, 0) && EnvOk(s, Nothing()) && Trap(s, 0, 2, Nothing()) == Asleep()
  {
    hide LowPages;
    var s := Asking(RINGS, OneRead(TAIL, 1), []);
    assert Submitted(s, 0) == s && Roused(s, 0) == s;
    ReadParked(s);
    var s1 := Consume(s, 0, Nothing());
    ConsumeKept(s, 0, Nothing());
    assert Drain(s, 0, Nothing()) == s1;
    var tasks := Sched.SetState(s.cpu.tasks, 2, Sched.Blocked, Sched.NEVER);
    assert tasks == Asleep().cpu.tasks;
    assert Sched.PickFrom(tasks, 2, 1) == 0;
    assert Check(s1, 0, 2) == Asleep();
  }

  lemma ReadParked(s: State)
    requires s == Asking(RINGS, OneRead(TAIL, 1), [])
    ensures Ringed(s, 0) && !IsChild(s.procs, 0, 0)
    ensures var r := Consume(s, 0, Nothing());
      r == s.(procs := [Asleep().procs[0].(waiter := None)], logs := Asleep().logs)
  {
    hide LowPages;
    var e := Sqe(OP_READ, TAIL, 1, 1);
    assert NextSqe(OneRead(TAIL, 1)) == e && Accepts(RINGS, TAIL, 1, true);
    var s0 := s.(logs := s.logs[0 := Noted(s.logs[0], e, true)]);
    assert Foreground(s0.procs) == Some(0);
    assert Deliver(s0.console, Facing(s0, 0), 0, 0, TAIL, 1, 0) == (s0.console, 0);
    assert FreeSlotFrom(NoReads(), 0) == Some(0);
    var s1 := Park(s0, 0, 0, Pending(TAIL, 1, 1));
    assert ReadOp(s0, 0, 0, e) == s1;
    var r := Consume(s, 0, Nothing());
    assert r.logs == s1.logs;
    ParkedLog(Noted(NewLog(), e, true));
    assert r.logs[0] == Asleep().logs[0];
    assert r.procs[0] == Asleep().procs[0].(waiter := None);
    assert r.logs == Asleep().logs && r.procs == [Asleep().procs[0].(waiter := None)];
  }

  lemma ParkedLog(l: Log)
    requires l == Noted(NewLog(), Sqe(OP_READ, TAIL, 1, 1), true)
    ensures l.(slots := l.slots[0 := 0], fate := l.fate[0 := Parked(0)]) == Asleep().logs[0]
  {
    assert l.slots[0 := 0] == l.slots && l.fate[0 := Parked(0)] == [Parked(0)];
  }

  lemma Strikes()
    ensures UartIrq(Asleep(), [5]) == Answered(0, 1)
  {
    hide LowPages;
    hide PollSlots;
    hide Deliver;
    var s := Asleep();
    var bytes: seq<Byte> := [5];
    assert bytes[..1] == bytes && [] + bytes == bytes;
    var s0 := s.(console := Console([5], true, [5], [], [], false));
    assert s.(console := Arrived(s.console, bytes)) == s0;
    assert Foreground(s0.procs) == Some(0);
    assert s0.(cpu := s0.cpu.(live := 8192)) == s0;
    Served(s0);
    var s4 := Answered(0, 1).(procs := [Answered(0, 1).procs[0].(waiter := Some(2))], cpu := s.cpu);
    assert Sched.Woken(s.cpu.tasks, 2) == Answered(0, 1).cpu.tasks;
    assert Notify(s4, 0) == Answered(0, 1);
  }

  lemma Served(s: State)
    requires s == Asleep().(console := Console([5], true, [5], [], [], false))
    ensures Ringed(s, 0) && PollSlots(s, 0, 0)
      == (Answered(0, 1).(procs := [Answered(0, 1).procs[0].(waiter := Some(2))], cpu := s.cpu), true)
  {
    hide LowPages;
    hide Deliver;
    Stores(s);
    var s2 := s.(console := Answered(0, 1).console);
    var s3 := Complete(s2, 0, 0, Cqe(1, 1));
    var s4 := s3.(procs := s3.procs[0 := s3.procs[0].(pending := s3.procs[0].pending[0 := None])]);
    assert s4.procs[0].pending == NoReads();
    NoneLeft(s4, 1);
    assert PollSlots(s, 0, 0) == (s4, true);
    SettledLog(s.logs[0]);
    var t := Answered(0, 1).(procs := [Answered(0, 1).procs[0].(waiter := Some(2))], cpu := s.cpu);
    assert s4.procs == t.procs && s4.logs == t.logs;
  }

  lemma SettledLog(l: Log)
    requires l == Asleep().logs[0]
    ensures Settled(l, 0, Cqe(1, 1), false) == Answered(0, 1).logs[0]
  {
    assert l.fate[0 := Posted(0)] == [Posted(0)];
  }

  lemma Stores(s: State)
    requires s == Asleep().(console := Console([5], true, [5], [], [], false))
    ensures Deliver(s.console, Facing(s, 0), 0, 0, TAIL, 1, 0) == (Answered(0, 1).console, 1)
  {
    hide LowPages;
    var m := Facing(s, 0);
    assert Takes(m, TAIL);
    var next := Landed(s.console, m, 0, 0, TAIL);
    assert next == Answered(0, 1).console;
    assert Deliver(next, m, 0, 0, TAIL, 1, 1) == (next, 1);
  }

  lemma {:induction false} NoneLeft(s: State, i: nat)
    requires Ringed(s, 0) && i <= 8 && s.procs[0].pending == NoReads()
    ensures PollSlots(s, 0, i) == (s, false)
    decreases 8 - i
  {
    if i < 8 { NoneLeft(s, i + 1); }
  }

  /** The idle task yields, the clock takes the poller's turn, and the process looks again and sleeps. */
  lemma SleepsAgain()
    ensures Yielded(Answered(0, 1)) == Answered(1, 1) && Tick(Answered(1, 1)) == Answered(2, 2)
    ensures Ringed(Answered(2, 2), 0)
    ensures var r := Check(Answered(2, 2), 0, 2);
      r.procs[0].waiter == Some(2) && r.procs[0].ring == Answered(2, 2).procs[0].ring
      && r.console == Answered(2, 2).console && |r.procs| == 1 && r.procs[0].ranges == RINGS
  {
    hide LowPages;
    var s := Answered(0, 1);
    assert Sched.PickFrom(s.cpu.tasks, 0, 1) == 1 && Sched.PickFrom(s.cpu.tasks, 1, 1) == 2;
    assert Sched.SleepersWoken(s.cpu.tasks, 2) == s.cpu.tasks;
    assert Unreaped(Post(Waiting(), Cqe(1, 1))) == 1;
  }

  /** A reachable state in which process 0 sleeps with its queue empty, as far as this model goes; but
      the byte stored for its read lies in its submission tail, and with it the queue is not empty. */
  lemma SleeperStruck() returns (r: State)
    ensures Reachable(r) && |r.procs| == 1 && r.procs[0].waiter.Some? && r.procs[0].ring.Some?
    ensures !RingApart(r.procs[0].ranges)
    ensures |r.console.given| == 1 && r.console.given[0].addr == TAIL && InRing(TAIL)
    ensures var page := r.procs[0].ring.value; Empty(page) && !Empty(Struck(page, r.console.given[0].byte))
  {
    hide Reachable;
    hide LowPages;
    hide Trap;
    hide UartIrq;
    hide Check;
    hide Tick;
    hide Yielded;
    Typed(RINGS, OneRead(TAIL, 1), []);
    Blocks();
    StepTo(Asking(RINGS, OneRead(TAIL, 1), []), CallEnter(2, Nothing()));
    Strikes();
    StepTo(Asleep(), Uart([5]));
    SleepsAgain();
    StepTo(Answered(0, 1), Yield);
    StepTo(Answered(1, 1), Timer);
    StepTo(Answered(2, 2), Resume);
    r := Next(Answered(2, 2), Resume);
    RingNamed(TAIL);
  }
}
