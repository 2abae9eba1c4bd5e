/**
 What is settled stays settled: exit codes, parents, consumed requests, posted completions and
 decided fates never change again, over any run.
 */
module Histories {
  import opened Bits
  import opened Frames
  import opened Gate
  import opened Rings
  import opened Kernel
  import opened Draining
  import opened Steps
  import opened Layouts
  import opened Fates
  import Input

  predicate Decided(f: Fate) {
    f.Posted? || f.Dropped? || f.Superseded?
  }

  ghost predicate LogGrows(a: Log, b: Log) {
    && LogShape(a) && LogShape(b)
    && a.reqs <= b.reqs && a.able <= b.able && a.posted <= b.posted && a.origin <= b.origin
    && forall i | 0 <= i < |a.fate| && Decided(a.fate[i]) :: b.fate[i] == a.fate[i]
  }

  predicate ProcGrows(a: Proc, b: Proc) {
    && a.parent == b.parent && a.root == b.root && a.ranges == b.ranges
    && (a.exitCode.Some? ==> b.exitCode == a.exitCode)
  }

  ghost predicate Grows(s: State, r: State) {
    && |s.procs| <= |r.procs| && |s.logs| == |s.procs| && |r.logs| == |r.procs|
    && (forall p | 0 <= p < |s.procs| :: ProcGrows(s.procs[p], r.procs[p]))
    && (forall p | 0 <= p < |s.procs| :: LogGrows(s.logs[p], r.logs[p]))
  }

  lemma GrowsTrans(s: State, r: State, u: State)
    requires Grows(s, r) && Grows(r, u)
    ensures Grows(s, u)
  {
    forall p | 0 <= p < |s.procs| ensures ProcGrows(s.procs[p], u.procs[p]) && LogGrows(s.logs[p], u.logs[p]) {
      assert ProcGrows(s.procs[p], r.procs[p]) && LogGrows(s.logs[p], r.logs[p]);
      assert ProcGrows(r.procs[p], u.procs[p]) && LogGrows(r.logs[p], u.logs[p]);
      forall i | 0 <= i < |s.logs[p].fate| && Decided(s.logs[p].fate[i])
        ensures u.logs[p].fate[i] == s.logs[p].fate[i]
      {
        assert r.logs[p].fate[i] == s.logs[p].fate[i];
      }
    }
  }

  ghost predicate LogsShaped(s: State) {
    |s.logs| == |s.procs| && forall p | 0 <= p < |s.logs| :: LogShape(s.logs[p])
  }

  lemma SameGrows(s: State, r: State)
    requires LogsShaped(s) && |r.procs| == |s.procs| && r.logs == s.logs
    requires forall p | 0 <= p < |s.procs| :: ProcGrows(s.procs[p], r.procs[p])
    ensures Grows(s, r)
  {
    forall p | 0 <= p < |s.procs| ensures LogGrows(s.logs[p], r.logs[p]) {
      assert LogShape(s.logs[p]);
    }
  }

  /** Only the log of p moves on. */
  lemma OneGrows(s: State, r: State, p: nat)
    requires LogsShaped(s) && p < |s.procs| <= |r.procs| == |r.logs|
    requires forall u | 0 <= u < |s.procs| :: ProcGrows(s.procs[u], r.procs[u])
    requires forall u | 0 <= u < |s.procs| && u != p :: r.logs[u] == s.logs[u].(asked := r.logs[u].asked)
    requires LogGrows(s.logs[p], r.logs[p])
    requires forall u | |s.procs| <= u < |r.procs| :: LogShape(r.logs[u])
    ensures Grows(s, r) && LogsShaped(r)
  {
    forall u | 0 <= u < |r.logs| ensures LogShape(r.logs[u]) && (u < |s.procs| ==> LogGrows(s.logs[u], r.logs[u])) {
      if u < |s.procs| {
        assert LogShape(s.logs[u]);
      }
    }
  }

  lemma SettledGrows(l: Log, id: nat, c: Cqe, full: bool)
    requires LogShape(l) && id < |l.fate| && !Decided(l.fate[id])
    ensures LogGrows(l, Settled(l, id, c, full))
  {
  }

  lemma CompleteGrows(s: State, p: nat, id: nat, c: Cqe)
    requires LogsShaped(s) && Ringed(s, p) && id < |s.logs[p].fate| && !Decided(s.logs[p].fate[id])
    ensures Grows(s, Complete(s, p, id, c)) && LogsShaped(Complete(s, p, id, c))
  {
    hide LogGrows;
    SettledGrows(s.logs[p], id, c, CqFull(s.procs[p].ring.value));
    OneGrows(s, Complete(s, p, id, c), p);
  }

  lemma ParkGrows(s: State, p: nat, id: nat, q: Pending)
    requires LogsShaped(s) && Ringed(s, p) && id < |s.logs[p].fate| && !Decided(s.logs[p].fate[id])
    ensures Grows(s, Park(s, p, id, q)) && LogsShaped(Park(s, p, id, q))
  {
    hide Complete;
    if FreeSlotFrom(s.procs[p].pending, 0).None? {
      CompleteGrows(s, p, id, Cqe(q.tag, ERR));
    } else {
      OneGrows(s, Park(s, p, id, q), p);
    }
  }

  lemma ReadGrows(s: State, p: nat, id: nat, e: Sqe)
    requires LogsShaped(s) && Ringed(s, p) && id < |s.logs[p].fate| && !Decided(s.logs[p].fate[id])
    ensures Grows(s, ReadOp(s, p, id, e)) && LogsShaped(ReadOp(s, p, id, e))
  {
    hide Complete;
    hide Park;
    hide Accepts;
    hide Deliver;
    if !Accepts(s.procs[p].ranges, e.arg0, e.arg1, true) {
      CompleteGrows(s, p, id, Cqe(e.tag, ERR));
    } else if e.arg1 == 0 {
      CompleteGrows(s, p, id, Cqe(e.tag, 0));
    } else {
      var (con, count) :=
        if Foreground(s.procs) == Some(p) then Deliver(s.console, Facing(s, p), p, id, e.arg0, e.arg1, 0)
        else (s.console, 0);
      var s1 := s.(console := con);
      SameGrows(s, s1);
      if count > 0 {
        CompleteGrows(s1, p, id, Cqe(e.tag, count));
      } else {
        ParkGrows(s1, p, id, Pending(e.arg0, e.arg1, e.tag));
      }
      GrowsTrans(s, s1, ReadOp(s, p, id, e));
    }
  }

  lemma SpawnGrows(s: State, p: nat, id: nat, e: Sqe, env: Env)
    requires LogsShaped(s) && Ringed(s, p) && id < |s.logs[p].fate| && !Decided(s.logs[p].fate[id])
    ensures Grows(s, SpawnOp(s, p, id, e, env)) && LogsShaped(SpawnOp(s, p, id, e, env))
  {
    hide Complete;
    hide Accepts;
    if !Accepts(s.procs[p].ranges, e.arg0, e.arg1, false) || env.image(id).None? {
      CompleteGrows(s, p, id, Cqe(e.tag, ERR));
    } else {
      var r := Born(s, p, env.root(|s.procs|), env.image(id).value);
      OneGrows(s, r, p);
      CompleteGrows(r, p, id, Cqe(e.tag, |s.procs|));
      GrowsTrans(s, r, SpawnOp(s, p, id, e, env));
    }
  }

  lemma WaitGrows(s: State, p: nat, id: nat, e: Sqe)
    requires LogsShaped(s) && Ringed(s, p) && id < |s.logs[p].fate| && !Decided(s.logs[p].fate[id])
    requires Ledger(s.procs, s.logs, p, id) && !IsChild(s.procs, p, p)
    ensures Grows(s, WaitOp(s, p, id, e)) && LogsShaped(WaitOp(s, p, id, e))
  {
    hide Complete;
    hide FateAt;
    var h := e.arg0;
    if !IsChild(s.procs, p, h) {
      CompleteGrows(s, p, id, Cqe(e.tag, ERR));
    } else if s.procs[h].exitCode.Some? {
      CompleteGrows(s, p, id, Cqe(e.tag, s.procs[h].exitCode.value));
    } else {
      assert ChildAt(s.procs, s.logs, p, h, id);
      OneGrows(s, Register(s, p, id, h, e.tag), p);
    }
  }

  lemma ConsumeGrows(s: State, p: nat, env: Env)
    requires LogsShaped(s) && Ringed(s, p) && LedgersOk(s) && Alive(s.procs[p]) && NoOrphans(s.procs)
    ensures !IsChild(s.procs, p, p) && Grows(s, Consume(s, p, env)) && LogsShaped(Consume(s, p, env))
  {
    hide LedgersOk;
    hide Complete;
    hide ReadOp;
    hide SpawnOp;
    hide WaitOp;
    hide Accepts;
    hide Ledger;
    var e := NextSqe(s.procs[p].ring.value);
    var id := |s.logs[p].reqs|;
    var able := Able(s.procs, p, id, e, env);
    var s1 := s.(logs := s.logs[p := Noted(s.logs[p], e, able)]);
    OneGrows(s, s1, p);
    if e.op == OP_NOP {
      CompleteGrows(s1, p, id, Cqe(e.tag, 0));
    } else if e.op == OP_PRINT {
      CompleteGrows(s1, p, id, Cqe(e.tag, if Accepts(s.procs[p].ranges, e.arg0, e.arg1, false) then 0 else ERR));
    } else if e.op == OP_READ {
      ReadGrows(s1, p, id, e);
    } else if e.op == OP_SPAWN {
      SpawnGrows(s1, p, id, e, env);
    } else if e.op == OP_WAIT {
      NotedLedgers(s, p, e, able);
      WaitGrows(s1, p, id, e);
    } else {
      CompleteGrows(s1, p, id, Cqe(e.tag, ERR));
    }
    var s2 := Process(s, p, e, env);
    GrowsTrans(s, s1, s2);
    SameGrows(s2, Consume(s, p, env));
    GrowsTrans(s, s2, Consume(s, p, env));
  }

  lemma {:induction false} DrainGrows(s: State, p: nat, env: Env)
    requires LogsShaped(s) && Ringed(s, p) && LedgersOk(s) && Alive(s.procs[p]) && NoOrphans(s.procs)
    ensures !IsChild(s.procs, p, p) && Grows(s, Drain(s, p, env))
    decreases Sub(s.procs[p].ring.value.sqTail, s.procs[p].ring.value.sqHead)
  {
    hide LedgersOk;
    hide Consume;
    hide Grows;
    if Empty(s.procs[p].ring.value) {
      SameGrows(s, s);
    } else {
      var r := Consume(s, p, env);
      ConsumeKept(s, p, env);
      TailKept(s, r, p, env);
      KeptOrphans(s, r, p, env);
      ConsumeLedgers(s, p, env);
      ConsumeGrows(s, p, env);
      DrainGrows(r, p, env);
      GrowsTrans(s, r, Drain(s, p, env));
    }
  }

  lemma {:induction false} PollSlotsGrows(s: State, p: nat, i: nat)
    requires LogsShaped(s) && Ringed(s, p) && i <= 8 && Alive(s.procs[p]) && LedgersOk(s)
    ensures Grows(s, PollSlots(s, p, i).0)
    decreases 8 - i
  {
    hide Ledger;
    hide Complete;
    hide Deliver;
    hide Grows;
    if i == 8 {
      SameGrows(s, s);
    } else if s.procs[p].pending[i].None? {
      PollSlotsGrows(s, p, i + 1);
    } else {
      var q := s.procs[p].pending[i].value;
      DeliverBound(s.console, Facing(s, p), p, s.logs[p].slots[i], q.buf, q.len, 0);
      var (con, count) := Deliver(s.console, Facing(s, p), p, s.logs[p].slots[i], q.buf, q.len, 0);
      if count == 0 {
        SameGrows(s, s.(console := con));
        PollSlotsGrows(s.(console := con), p, i + 1);
        GrowsTrans(s, s.(console := con), PollSlots(s, p, i).0);
      } else {
        ServedLedgers(s, p, i, con, count);
        var r := Layouts.Served(s, p, i, con, count);
        ServedKept(s, p, i, con, count);
        ServedGrows(s, p, i, con, count);
        PollSlotsGrows(r, p, i + 1);
        GrowsTrans(s, r, PollSlots(s, p, i).0);
      }
    }
  }

  lemma ServedGrows(s: State, p: nat, i: nat, con: Console, count: nat)
    requires LogsShaped(s) && Ringed(s, p) && LedgersOk(s) && Alive(s.procs[p]) && i < 8 && s.procs[p].pending[i].Some?
    ensures s.logs[p].slots[i] < |s.logs[p].fate|
    ensures Grows(s, Layouts.Served(s, p, i, con, count)) && LogsShaped(Layouts.Served(s, p, i, con, count))
  {
    hide Complete;
    hide FateAt;
    assert Ledger(s.procs, s.logs, p, -1) && SlotAt(s.procs[p], s.logs[p], i, -1);
    var s1 := s.(console := con);
    var r := Complete(s1, p, s.logs[p].slots[i], Cqe(s.procs[p].pending[i].value.tag, count));
    CompleteGrows(s1, p, s.logs[p].slots[i], Cqe(s.procs[p].pending[i].value.tag, count));
    SameGrows(r, Layouts.Served(s, p, i, con, count));
    GrowsTrans(s1, r, Layouts.Served(s, p, i, con, count));
  }

  lemma ToldGrows(s: State, p: nat, code: int)
    requires Layout(s) && LedgersOk(s) && p < |s.procs|
    ensures |s.logs| == |s.procs| && |s.clients| == |s.procs| && Grows(s, Told(s, p, code))
  {
    hide Complete;
    hide Ledger;
    hide TaskShape;
    Basics(s);
    LayoutOrphans(s);
    var me := s.procs[p];
    SameGrows(s, s);
    if me.exitWaiter.Some? && me.parent.Some? && me.parent.value < |s.procs| {
      var q, id, c := me.parent.value, s.logs[p].asked, Cqe(me.exitWaiter.value, code);
      if Ringed(s, q) && id < |s.logs[q].fate| {
        AskedWaits(s, p, q);
        CompleteGrows(s, q, id, c);
        var r := Complete(s, q, id, c);
        SameGrows(r, Notify(r, q));
        GrowsTrans(s, r, Notify(r, q));
      } else {
        SameGrows(s, Notify(s, q));
      }
    }
  }

  lemma AskedWaits(s: State, p: nat, q: nat)
    requires LedgersOk(s) && p < |s.procs| && q < |s.procs| && Alive(s.procs[q])
    requires s.procs[p].parent == Some(q) && s.procs[p].exitWaiter.Some?
    ensures s.logs[p].asked < |s.logs[q].fate| && s.logs[q].fate[s.logs[p].asked] == Waiting(p)
  {
    assert Ledger(s.procs, s.logs, q, -1);
    assert ChildAt(s.procs, s.logs, q, p, -1);
  }

  lemma ExitGrows(s: State, p: nat, code: int)
    requires Layout(s) && LedgersOk(s) && p < |s.procs| && Alive(s.procs[p])
    ensures |s.logs| == |s.procs| && |s.clients| == |s.procs| && Grows(s, Exit(s, p, code))
  {
    hide Layout;
    hide LedgersOk;
    hide Told;
    hide Exit;
    hide Switch;
    hide LogGrows;
    Basics(s);
    ExitIs(s, p, code);
    ToldKeeps(s, p, code);
    ToldGrows(s, p, code);
    var r := Told(s, p, code);
    ShapedLogs(r);
    SameGrows(r, Exit(s, p, code));
    GrowsTrans(s, r, Exit(s, p, code));
  }

  lemma ShapedLogs(s: State)
    requires Layout(s)
    ensures LogsShaped(s)
  {
  }

  lemma EnterGrows(s: State, p: nat, min: nat, env: Env)
    requires Shape(s) && LedgersOk(s) && Ringed(s, p)
    ensures Callable(s, p) && Grows(s, Enter(s, p, min, env))
  {
    hide Layout;
    hide LedgersOk;
    hide Drain;
    hide Switch;
    hide Grows;
    hide LogsShaped;
    Basics(s);
    RousedLayout(s, p);
    var s1 := Roused(s, p);
    SameLedgers(s, s1);
    LayoutOrphans(s1);
    ShapedLogs(s);
    ShapedLogs(s1);
    SameGrows(s, s1);
    DrainGrows(s1, p, env);
    DrainLayout(s1, p, env);
    DrainEnds(s1, p, env);
    var s2 := Drain(s1, p, env);
    ShapedLogs(s2);
    SameGrows(s2, Check(s2, p, min));
    GrowsTrans(s, s1, s2);
    GrowsTrans(s, s2, Check(s2, p, min));
  }

  lemma UartGrows(s: State, bytes: seq<Byte>)
    requires Layout(s) && LedgersOk(s) && |s.console.input| <= Input.CAPACITY
    ensures Grows(s, UartIrq(s, bytes))
  {
    hide PollSlots;
    hide Layout;
    hide LedgersOk;
    hide Grows;
    Basics(s);
    LayoutOrphans(s);
    ShapedLogs(s);
    var s0 := s.(console := Arrived(s.console, bytes));
    SameGrows(s, s0);
    var fg := Foreground(s0.procs);
    if fg.Some? && Ringed(s0, fg.value) {
      var p := fg.value;
      var s1 := s0.(cpu := s0.cpu.(live := s0.procs[p].root));
      SameGrows(s, s1);
      SameLedgers(s, s1);
      PollSlotsKept(s1, p, 0);
      PollSlotsGrows(s1, p, 0);
      var s2 := PollSlots(s1, p, 0).0;
      Shaped(s1, s2);
      SameGrows(s2, UartIrq(s, bytes));
      GrowsTrans(s, s1, s2);
      GrowsTrans(s, s2, UartIrq(s, bytes));
    }
  }

  lemma Shaped(s: State, r: State)
    requires Grows(s, r) && |r.procs| == |s.procs|
    ensures LogsShaped(r)
  {
    forall p | 0 <= p < |r.logs| ensures LogShape(r.logs[p]) {
      assert LogGrows(s.logs[p], r.logs[p]);
    }
  }

  lemma PollerGrows(s: State, env: Env)
    requires Shape(s) && LedgersOk(s) && s.cpu.current == s.boot.poller
    ensures PollOk(s) && Grows(s, PollStep(s, env))
  {
    hide Layout;
    hide LedgersOk;
    hide Drain;
    hide Switch;
    hide Grows;
    hide LogsShaped;
    PollerLayout(s, env);
    Basics(s);
    LayoutOrphans(s);
    ShapedLogs(s);
    if s.poll.pc.Scan? && s.poll.pc.i < s.poll.pc.n && HasSubmissions(s, s.poll.pc.i) {
      var i := s.poll.pc.i;
      var s2 := s.(cpu := s.cpu.(live := s.procs[i].root), poll := s.poll.(pc := Scan(i + 1, s.poll.pc.n, true)));
      SameGrows(s, s2);
      SameLedgers(s, s2);
      Shaped(s, s2);
      DrainGrows(s2, i, env);
      GrowsTrans(s, s2, Drain(s2, i, env));
    } else if s.poll.pc == Decide(false) && s.cpu.ticks - s.poll.lastWork >= SQ_IDLE_TICKS {
      SameGrows(s, Sleep(s));
    } else if s.poll.pc.Clear? && s.poll.pc.i < s.poll.pc.n {
      SameGrows(s, PollStep(s, env));
    } else {
      IdleStep(s, env);
      SameGrows(s, PollStep(s, env));
    }
  }

  /** Every step only adds to the history. */
  lemma TrapGrows(s: State, p: nat, min: nat, env: Env)
    requires Shape(s) && LedgersOk(s) && Callable(s, p) && p < |s.clients|
    ensures Grows(s, Trap(s, p, min, env))
  {
    hide Layout;
    hide LedgersOk;
    hide Enter;
    hide Grows;
    hide LogsShaped;
    Basics(s);
    ShapedLogs(s);
    var s1 := Submitted(s, p);
    ClientLayout(s, s1);
    SameLedgers(s, s1);
    SameGrows(s, s1);
    EnterGrows(s1, p, min, env);
    GrowsTrans(s, s1, Trap(s, p, min, env));
  }

  lemma NextGrows(s: State, a: Action)
    requires Ready(s) && Enables(s, a) && LedgersOk(s)
    ensures Grows(s, Next(s, a))
  {
    hide Layout;
    hide LedgersOk;
    hide Happen;
    hide Enabled;
    hide UartIrq;
    hide PollStep;
    hide Exit;
    hide Trap;
    hide Switch;
    hide Grows;
    hide LogsShaped;
    Basics(s);
    ShapedLogs(s);
    match a
    case Uart(bytes) => UartGrows(s, bytes);
    case Poller(env) => PollerGrows(s, env);
    case CallEnter(min, env) =>
      TrapGrows(s, Pid(s), min, env);
    case Leave(code) =>
      LiveUser(s);
      ExitGrows(s, Pid(s), code);
    case _ => SameGrows(s, Next(s, a));
  }
}
