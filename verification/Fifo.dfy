/**
 The rings inside the whole system: whatever other processes, interrupts and the poller do,
 the rings of a process whose code uses the library are FIFO queues, and if it keeps at most
 16 requests published and not reaped, no completion of it is ever dropped.
 */
module Fifo {
  import opened Bits
  import opened Frames
  import opened Gate
  import opened Rings
  import opened Kernel
  import opened Draining
  import opened Steps
  import opened Layouts
  import opened Fates
  import Input

  predicate NoneDropped(fate: seq<Fate>) {
    forall i | 0 <= i < |fate| :: !fate[i].Dropped?
  }

  ghost predicate Wired(page: Page, c: Client, l: Log) {
    c.honest ==>
      && WireOk(Wire(page, c.at, c.published, l.reqs, l.posted, c.reaped))
      && (c.frugal ==> |c.published| <= |c.reaped| + 16 && NoneDropped(l.fate))
  }

  ghost predicate WiresOk(s: State) {
    && |s.logs| == |s.procs| && |s.clients| == |s.procs|
    && forall p | 0 <= p < |s.procs| && s.procs[p].ring.Some? :: Wired(s.procs[p].ring.value, s.clients[p], s.logs[p])
  }

  /** The books add up, and request id has no completion yet. */
  ghost predicate Undecided(l: Log, id: nat) {
    LogShape(l) && CountPosted(l.fate) == |l.posted| && id < |l.fate| && !l.fate[id].Posted?
  }

  /** A completion is a step of the wire; a frugal client always has room for it. */
  lemma SettledWired(page: Page, c: Client, l: Log, id: nat, cqe: Cqe)
    requires PageOk(page) && Wired(page, c, l) && Undecided(l, id)
    ensures Wired(Post(page, cqe), c, Settled(l, id, cqe, CqFull(page)))
  {
    if c.honest {
      var w := Wire(page, c.at, c.published, l.reqs, l.posted, c.reaped);
      StepKeepsFifo(w, Deposit(cqe));
      if c.frugal {
        CountMissing(l.fate, id);
        DropsWhenFull(w, cqe);
      }
    }
  }

  /** The page as it will be once the head is stored, while a request is being processed. */
  function Adv(page: Page, b: bool): (r: Page)
    requires PageOk(page)
    ensures PageOk(r)
  {
    if b then Took(page) else page
  }

  lemma AdvPost(page: Page, c: Cqe, b: bool)
    requires PageOk(page)
    ensures Adv(Post(page, c), b) == Post(Adv(page, b), c) && CqFull(Adv(page, b)) == CqFull(page)
  {
  }

  /** Everybody's wires, with that of p seen after the store of its head. */
  ghost predicate WiresAdv(s: State, p: nat, b: bool) {
    && Ringed(s, p)
    && (forall u | 0 <= u < |s.procs| && u != p && s.procs[u].ring.Some? ::
         Wired(s.procs[u].ring.value, s.clients[u], s.logs[u]))
    && Wired(Adv(s.procs[p].ring.value, b), s.clients[p], s.logs[p])
  }

  lemma CompleteWires(s: State, p: nat, id: nat, c: Cqe, b: bool)
    requires WiresAdv(s, p, b) && Undecided(s.logs[p], id)
    ensures WiresAdv(Complete(s, p, id, c), p, b)
  {
    hide Wired;
    hide Post;
    AdvPost(s.procs[p].ring.value, c, b);
    SettledWired(Adv(s.procs[p].ring.value, b), s.clients[p], s.logs[p], id, c);
  }

  /** Pages, clients and the relevant history unchanged, up to flags and numbers of waits. */
  ghost predicate SameWire(s: State, r: State, u: nat)
    requires u < |s.procs| == |s.logs| && |s.clients| == |s.procs|
    requires u < |r.procs| == |r.logs| && |r.clients| == |r.procs|
  {
    r.procs[u].ring.Some? ==>
      && s.procs[u].ring.Some? && r.procs[u].ring.value == s.procs[u].ring.value.(flags := r.procs[u].ring.value.flags)
      && r.clients[u] == s.clients[u].(unsubmitted := r.clients[u].unsubmitted, early := r.clients[u].early)
      && r.logs[u].reqs == s.logs[u].reqs && r.logs[u].posted == s.logs[u].posted
      && (NoneDropped(s.logs[u].fate) ==> NoneDropped(r.logs[u].fate))
  }

  lemma SameWires(s: State, r: State)
    requires WiresOk(s) && |r.procs| == |s.procs| && |r.logs| == |r.procs| && |r.clients| == |r.procs|
    requires forall u | 0 <= u < |s.procs| :: SameWire(s, r, u)
    ensures WiresOk(r)
  {
    forall u | 0 <= u < |r.procs| && r.procs[u].ring.Some?
      ensures Wired(r.procs[u].ring.value, r.clients[u], r.logs[u])
    {
      assert SameWire(s, r, u);
    }
  }

  lemma SameWiresAdv(s: State, r: State, p: nat, b: bool)
    requires WiresAdv(s, p, b) && Ringed(r, p) && |s.procs| <= |r.procs|
    requires forall u | 0 <= u < |s.procs| :: SameWire(s, r, u)
    requires forall u | |s.procs| <= u < |r.procs| :: r.procs[u].ring.None?
    ensures WiresAdv(r, p, b)
  {
    assert SameWire(s, r, p);
    forall u | 0 <= u < |r.procs| && u != p && r.procs[u].ring.Some?
      ensures Wired(r.procs[u].ring.value, r.clients[u], r.logs[u])
    {
      assert SameWire(s, r, u);
    }
  }

  // ---------------------------------------------------------------- requests

  lemma ParkWires(s: State, p: nat, id: nat, q: Pending)
    requires WiresAdv(s, p, true) && Undecided(s.logs[p], id)
    ensures WiresAdv(Park(s, p, id, q), p, true)
  {
    hide WiresAdv;
    hide Complete;
    assert Ringed(s, p) by { Opened(s, p, true); }
    if FreeSlotFrom(s.procs[p].pending, 0).None? {
      CompleteWires(s, p, id, Cqe(q.tag, ERR), true);
    } else {
      SameWiresAdv(s, Park(s, p, id, q), p, true);
    }
  }

  lemma Opened(s: State, p: nat, b: bool)
    requires WiresAdv(s, p, b)
    ensures Ringed(s, p)
  {
  }

  lemma ReadWires(s: State, p: nat, id: nat, e: Sqe)
    requires WiresAdv(s, p, true) && Undecided(s.logs[p], id)
    ensures WiresAdv(ReadOp(s, p, id, e), p, true)
  {
    hide WiresAdv;
    hide Complete;
    hide Park;
    hide Accepts;
    hide Deliver;
    Opened(s, p, true);
    if !Accepts(s.procs[p].ranges, e.arg0, e.arg1, true) {
      CompleteWires(s, p, id, Cqe(e.tag, ERR), true);
    } else if e.arg1 == 0 {
      CompleteWires(s, p, id, Cqe(e.tag, 0), true);
    } else {
      var (con, count) :=
        if Foreground(s.procs) == Some(p) then Deliver(s.console, Facing(s, p), p, id, e.arg0, e.arg1, 0)
        else (s.console, 0);
      var s1 := s.(console := con);
      SameWiresAdv(s, s1, p, true);
      if count > 0 {
        CompleteWires(s1, p, id, Cqe(e.tag, count), true);
      } else {
        ParkWires(s1, p, id, Pending(e.arg0, e.arg1, e.tag));
      }
    }
  }

  lemma SpawnWires(s: State, p: nat, id: nat, e: Sqe, env: Env)
    requires WiresAdv(s, p, true) && Undecided(s.logs[p], id)
    ensures WiresAdv(SpawnOp(s, p, id, e, env), p, true)
  {
    hide WiresAdv;
    hide Complete;
    hide Accepts;
    Opened(s, p, true);
    if !Accepts(s.procs[p].ranges, e.arg0, e.arg1, false) || env.image(id).None? {
      CompleteWires(s, p, id, Cqe(e.tag, ERR), true);
    } else {
      var r := Born(s, p, env.root(|s.procs|), env.image(id).value);
      SameWiresAdv(s, r, p, true);
      CompleteWires(r, p, id, Cqe(e.tag, |s.procs|), true);
    }
  }

  lemma WaitWires(s: State, p: nat, id: nat, e: Sqe)
    requires WiresAdv(s, p, true) && Undecided(s.logs[p], id) && !IsChild(s.procs, p, p)
    ensures WiresAdv(WaitOp(s, p, id, e), p, true)
  {
    hide WiresAdv;
    hide Complete;
    Opened(s, p, true);
    var h := e.arg0;
    if !IsChild(s.procs, p, h) {
      CompleteWires(s, p, id, Cqe(e.tag, ERR), true);
    } else if s.procs[h].exitCode.Some? {
      CompleteWires(s, p, id, Cqe(e.tag, s.procs[h].exitCode.value), true);
    } else {
      SameWiresAdv(s, Register(s, p, id, h, e.tag), p, true);
    }
  }

  /** Taking the next entry is a step of the wire. */
  lemma NotedWires(s: State, p: nat, able: bool)
    requires WiresAdv(s, p, false) && !Empty(s.procs[p].ring.value) && CountPosted(s.logs[p].fate) == |s.logs[p].posted|
    ensures var e := NextSqe(s.procs[p].ring.value);
      var r := s.(logs := s.logs[p := Noted(s.logs[p], e, able)]);
      WiresAdv(r, p, true) && Undecided(r.logs[p], |s.logs[p].reqs|)
  {
    var c, l, page := s.clients[p], s.logs[p], s.procs[p].ring.value;
    CountAppend(l.fate, Open);
    if c.honest {
      StepKeepsFifo(Wire(page, c.at, c.published, l.reqs, l.posted, c.reaped), Take);
    }
  }

  lemma ConsumeWires(s: State, p: nat, env: Env)
    requires WiresAdv(s, p, false) && !Empty(s.procs[p].ring.value) && !IsChild(s.procs, p, p)
    requires CountPosted(s.logs[p].fate) == |s.logs[p].posted|
    ensures WiresAdv(Consume(s, p, env), p, false)
  {
    hide WiresAdv;
    hide Complete;
    hide ReadOp;
    hide SpawnOp;
    hide WaitOp;
    hide Accepts;
    Opened(s, p, false);
    var e := NextSqe(s.procs[p].ring.value);
    var id := |s.logs[p].reqs|;
    var able := Able(s.procs, p, id, e, env);
    var s1 := s.(logs := s.logs[p := Noted(s.logs[p], e, able)]);
    NotedWires(s, p, able);
    if e.op == OP_NOP {
      CompleteWires(s1, p, id, Cqe(e.tag, 0), true);
    } else if e.op == OP_PRINT {
      CompleteWires(s1, p, id, Cqe(e.tag, if Accepts(s.procs[p].ranges, e.arg0, e.arg1, false) then 0 else ERR), true);
    } else if e.op == OP_READ {
      ReadWires(s1, p, id, e);
    } else if e.op == OP_SPAWN {
      SpawnWires(s1, p, id, e, env);
    } else if e.op == OP_WAIT {
      WaitWires(s1, p, id, e);
    } else {
      CompleteWires(s1, p, id, Cqe(e.tag, ERR), true);
    }
    TookWires(Process(s, p, e, env), p);
  }

  lemma TookWires(s1: State, p: nat)
    requires WiresAdv(s1, p, true)
    ensures WiresAdv(s1.(procs := s1.procs[p := WithPage(s1.procs[p], Took(s1.procs[p].ring.value))]), p, false)
  {
  }

  lemma BooksAddUp(s: State, p: nat)
    requires LedgersOk(s) && p < |s.procs| && Alive(s.procs[p])
    ensures CountPosted(s.logs[p].fate) == |s.logs[p].posted| && LogShape(s.logs[p])
    ensures s.logs[p].reqs != [] ==> s.procs[p].ring.Some?
  {
    assert Ledger(s.procs, s.logs, p, -1);
  }

  lemma {:induction false} DrainWiresAdv(s: State, p: nat, env: Env)
    requires WiresAdv(s, p, false) && LedgersOk(s) && Alive(s.procs[p]) && NoOrphans(s.procs)
    ensures !IsChild(s.procs, p, p) && WiresAdv(Drain(s, p, env), p, false)
    decreases Sub(s.procs[p].ring.value.sqTail, s.procs[p].ring.value.sqHead)
  {
    hide LedgersOk;
    hide WiresAdv;
    hide Consume;
    Opened(s, p, false);
    if !Empty(s.procs[p].ring.value) {
      var r := Consume(s, p, env);
      BooksAddUp(s, p);
      ConsumeKept(s, p, env);
      TailKept(s, r, p, env);
      KeptOrphans(s, r, p, env);
      ConsumeLedgers(s, p, env);
      ConsumeWires(s, p, env);
      DrainWiresAdv(r, p, env);
    }
  }

  lemma DrainWires(s: State, p: nat, env: Env)
    requires Ringed(s, p) && WiresOk(s) && LedgersOk(s) && Alive(s.procs[p]) && NoOrphans(s.procs)
    ensures !IsChild(s.procs, p, p) && WiresOk(Drain(s, p, env))
  {
    hide Drain;
    hide Wired;
    hide LedgersOk;
    assert WiresAdv(s, p, false);
    DrainWiresAdv(s, p, env);
  }

  // ---------------------------------------------------------------- completions from elsewhere

  lemma ServedWires(s: State, p: nat, i: nat, con: Console, count: nat)
    requires Ringed(s, p) && WiresOk(s) && i < 8 && s.procs[p].pending[i].Some?
      && Undecided(s.logs[p], s.logs[p].slots[i])
    ensures WiresOk(Layouts.Served(s, p, i, con, count))
  {
    hide Wired;
    hide Complete;
    var s1 := s.(console := con);
    assert WiresAdv(s1, p, false);
    var r := Complete(s1, p, s.logs[p].slots[i], Cqe(s.procs[p].pending[i].value.tag, count));
    CompleteWires(s1, p, s.logs[p].slots[i], Cqe(s.procs[p].pending[i].value.tag, count), false);
  }

  lemma ParkedUndecided(s: State, p: nat, i: nat)
    requires LedgersOk(s) && p < |s.procs| && Alive(s.procs[p]) && i < 8 == |s.procs[p].pending|
      && s.procs[p].pending[i].Some?
    ensures LogShape(s.logs[p]) && Undecided(s.logs[p], s.logs[p].slots[i])
  {
    assert Ledger(s.procs, s.logs, p, -1);
    assert SlotAt(s.procs[p], s.logs[p], i, -1);
  }

  lemma {:induction false} PollSlotsWires(s: State, p: nat, i: nat)
    requires Ringed(s, p) && i <= 8 && Alive(s.procs[p]) && LedgersOk(s) && WiresOk(s)
    ensures WiresOk(PollSlots(s, p, i).0)
    decreases 8 - i
  {
    hide Ledger;
    hide Wired;
    hide Complete;
    hide Deliver;
    if i < 8 {
      if s.procs[p].pending[i].None? {
        PollSlotsWires(s, p, i + 1);
      } else {
        var q := s.procs[p].pending[i].value;
        DeliverBound(s.console, Facing(s, p), p, s.logs[p].slots[i], q.buf, q.len, 0);
        var (con, count) := Deliver(s.console, Facing(s, p), p, s.logs[p].slots[i], q.buf, q.len, 0);
        if count == 0 {
          PollSlotsWires(s.(console := con), p, i + 1);
        } else {
          ParkedUndecided(s, p, i);
          ServedLedgers(s, p, i, con, count);
          ServedKept(s, p, i, con, count);
          ServedWires(s, p, i, con, count);
          PollSlotsWires(Layouts.Served(s, p, i, con, count), p, i + 1);
        }
      }
    }
  }

  lemma AskedUndecided(s: State, p: nat, q: nat)
    requires LedgersOk(s) && p < |s.procs| && q < |s.procs| && Alive(s.procs[q])
    requires s.procs[p].parent == Some(q) && s.procs[p].exitWaiter.Some?
    ensures Undecided(s.logs[q], s.logs[p].asked)
  {
    assert Ledger(s.procs, s.logs, q, -1);
    assert ChildAt(s.procs, s.logs, q, p, -1);
  }

  lemma ToldWires(s: State, p: nat, code: int)
    requires Layout(s) && LedgersOk(s) && WiresOk(s) && p < |s.procs|
    ensures WiresOk(Told(s, p, code))
  {
    hide Layout;
    hide Wired;
    hide LedgersOk;
    hide Complete;
    Basics(s);
    LayoutOrphans(s);
    var me := s.procs[p];
    if me.exitWaiter.Some? && me.parent.Some? && me.parent.value < |s.procs| {
      var q, id, c := me.parent.value, s.logs[p].asked, Cqe(me.exitWaiter.value, code);
      if Ringed(s, q) && id < |s.logs[q].fate| {
        AskedUndecided(s, p, q);
        assert WiresAdv(s, q, false);
        CompleteWires(s, q, id, c, false);
        CompleteProcs(s, q, id, c);
      }
    }
  }

  lemma ExitWires(s: State, p: nat, code: int)
    requires Layout(s) && LedgersOk(s) && WiresOk(s) && p < |s.procs|
    ensures WiresOk(Exit(s, p, code))
  {
    hide Layout;
    hide WiresOk;
    hide LedgersOk;
    hide Told;
    hide Exit;
    hide Switch;
    Basics(s);
    ExitIs(s, p, code);
    ToldKeeps(s, p, code);
    ToldWires(s, p, code);
    Basics(Told(s, p, code));
    SameWires(Told(s, p, code), Exit(s, p, code));
  }

  // ---------------------------------------------------------------- steps

  lemma RousedWires(s: State, p: nat)
    requires Shape(s) && LedgersOk(s) && WiresOk(s) && Ringed(s, p)
    ensures s.boot.poller < |s.cpu.tasks|
    ensures Shape(Roused(s, p)) && LedgersOk(Roused(s, p)) && WiresOk(Roused(s, p))
  {
    hide Layout;
    hide LedgersOk;
    hide WiresOk;
    Basics(s);
    RousedLayout(s, p);
    SameLedgers(s, Roused(s, p));
    SameWires(s, Roused(s, p));
  }

  lemma EnterWires(s: State, p: nat, min: nat, env: Env)
    requires Shape(s) && LedgersOk(s) && WiresOk(s) && Ringed(s, p)
    ensures Callable(s, p) && WiresOk(Enter(s, p, min, env))
  {
    hide Layout;
    hide LedgersOk;
    hide WiresOk;
    hide Drain;
    hide Switch;
    Basics(s);
    RousedWires(s, p);
    var s1 := Roused(s, p);
    hide Roused;
    LayoutOrphans(s1);
    DrainWires(s1, p, env);
    DrainEnds(s1, p, env);
    var s2 := Drain(s1, p, env);
    SameWires(s2, Check(s2, p, min));
  }

  lemma UartWires(s: State, bytes: seq<Byte>)
    requires Layout(s) && LedgersOk(s) && WiresOk(s) && |s.console.input| <= Input.CAPACITY
    ensures WiresOk(UartIrq(s, bytes))
  {
    hide PollSlots;
    hide Layout;
    hide LedgersOk;
    hide WiresOk;
    Basics(s);
    LayoutOrphans(s);
    var s0 := s.(console := Arrived(s.console, bytes));
    SameWires(s, s0);
    var fg := Foreground(s0.procs);
    if fg.Some? && Ringed(s0, fg.value) {
      var p := fg.value;
      var s1 := s0.(cpu := s0.cpu.(live := s0.procs[p].root));
      SameLedgers(s, s1);
      SameWires(s, s1);
      PollSlotsKept(s1, p, 0);
      PollSlotsWires(s1, p, 0);
      SameWires(PollSlots(s1, p, 0).0, UartIrq(s, bytes));
    }
  }

  lemma SleepWires(s: State)
    requires Layout(s) && WiresOk(s)
    ensures |s.clients| == |s.procs| && WiresOk(Sleep(s))
  {
    hide WiresOk;
    hide Layout;
    hide Switch;
    Basics(s);
    SameWires(s, Sleep(s));
  }

  lemma PollerWires(s: State, env: Env)
    requires Shape(s) && LedgersOk(s) && WiresOk(s) && s.cpu.current == s.boot.poller
    ensures PollOk(s) && WiresOk(PollStep(s, env))
  {
    hide Layout;
    hide LedgersOk;
    hide WiresOk;
    hide Drain;
    hide Switch;
    hide Sleep;
    PollerLayout(s, env);
    Basics(s);
    LayoutOrphans(s);
    if s.poll.pc.Scan? && s.poll.pc.i < s.poll.pc.n && HasSubmissions(s, s.poll.pc.i) {
      var i := s.poll.pc.i;
      var s2 := s.(cpu := s.cpu.(live := s.procs[i].root), poll := s.poll.(pc := Scan(i + 1, s.poll.pc.n, true)));
      SameLedgers(s, s2);
      SameWires(s, s2);
      DrainWires(s2, i, env);
    } else if s.poll.pc == Decide(false) && s.cpu.ticks - s.poll.lastWork >= SQ_IDLE_TICKS {
      SleepWires(s);
    } else if s.poll.pc.Clear? && s.poll.pc.i < s.poll.pc.n {
      SameWires(s, PollStep(s, env));
    } else {
      IdleStep(s, env);
      SameWires(s, PollStep(s, env));
    }
  }

  lemma StoreWires(s: State, p: nat, v: Event)
    requires WiresOk(s) && Ringed(s, p) && OfClient(v) && Enabled(WireOf(s, p), v)
    ensures WiresOk(UserEvent(s, p, v))
  {
    hide Enabled;
    hide WireOk;
    var r := UserEvent(s, p, v);
    assert Wired(s.procs[p].ring.value, s.clients[p], s.logs[p]);
    if s.clients[p].honest {
      StepKeepsFifo(WireOf(s, p), v);
      assert WireOf(r, p) == Happen(WireOf(s, p), v);
      Growth(WireOf(s, p), v);
    }
    forall u | 0 <= u < |r.procs| && r.procs[u].ring.Some?
      ensures Wired(r.procs[u].ring.value, r.clients[u], r.logs[u])
    {
      assert u != p ==> r.procs[u] == s.procs[u] && r.clients[u] == s.clients[u];
    }
  }

  lemma Growth(w: Wire, v: Event)
    requires Enabled(w, v) && OfClient(v)
    ensures Happen(w, v).consumed == w.consumed && Happen(w, v).posted == w.posted
    ensures |Happen(w, v).published| == |w.published| + if v.Publish? then 1 else 0
    ensures |Happen(w, v).reaped| >= |w.reaped|
  {
  }

  /** A fresh page belongs to a process that has consumed and posted nothing. */
  lemma SetupWires(s: State, p: nat)
    requires WiresOk(s) && LedgersOk(s) && p < |s.procs| && Alive(s.procs[p])
    ensures WiresOk(Setup(s, p))
  {
    hide Ledger;
    hide WireOk;
    BooksAddUp(s, p);
    if s.procs[p].ring.None? {
      FreshOk();
      var r := Setup(s, p);
      assert Wire(ZeroPage(), Idle, [], s.logs[p].reqs, s.logs[p].posted, []) == Fresh();
      forall u | 0 <= u < |r.procs| && r.procs[u].ring.Some?
        ensures Wired(r.procs[u].ring.value, r.clients[u], r.logs[u])
      {
        assert u != p ==> r.procs[u] == s.procs[u] && r.clients[u] == s.clients[u];
      }
    }
  }

  lemma ScribbleWires(s: State, p: nat, page: Page)
    requires WiresOk(s) && p < |s.procs|
    ensures WiresOk(UserWrite(s, p, page))
  {
    hide WireOk;
    var r := UserWrite(s, p, page);
    forall u | 0 <= u < |r.procs| && r.procs[u].ring.Some?
      ensures Wired(r.procs[u].ring.value, r.clients[u], r.logs[u])
    {
      assert u != p ==> r.procs[u] == s.procs[u] && r.clients[u] == s.clients[u];
    }
  }

  /** Every step of the system keeps the rings of library users FIFO. */
  lemma NextWires(s: State, a: Action)
    requires Ready(s) && Enables(s, a) && LedgersOk(s) && WiresOk(s)
    ensures WiresOk(Next(s, a))
  {
    hide Layout;
    hide LedgersOk;
    hide WiresOk;
    hide Happen;
    hide Enabled;
    hide UartIrq;
    hide PollStep;
    hide Exit;
    hide Enter;
    hide Switch;
    Basics(s);
    match a
    case Uart(bytes) => UartWires(s, bytes);
    case Poller(env) => PollerWires(s, env);
    case Store(v) => StoreWires(s, Pid(s), v);
    case Scribble(page) => ScribbleWires(s, Pid(s), page);
    case CallSetup =>
      LiveUser(s);
      SetupWires(s, Pid(s));
    case CallEnter(min, env) =>
      var s1 := Submitted(s, Pid(s));
      ClientLayout(s, s1);
      SameLedgers(s, s1);
      SameWires(s, s1);
      EnterWires(s1, Pid(s), min, env);
    case Leave(code) => ExitWires(s, Pid(s), code);
    case _ => SameWires(s, Next(s, a));
  }
}
