/**
 What the invariants say about every reachable state, in the terms of the system.
 */
module Results {
  import opened Bits
  import opened Frames
  import opened Gate
  import opened Rings
  import opened Kernel
  import opened Draining
  import opened Layouts
  import opened Steps
  import opened Fates
  import opened Histories
  import opened Machine
  import Fifo
  import Handshake
  import Reads
  import Spaces
  import Consoles
  import WakeUps
  import Sched
  import Input

  /** No lost wake-up: a waiter is registered exactly while the task is blocked, the task is then
      inside `enter` with nothing left to submit, and has too few completions to go on. */
  lemma NoLostWakeUp(s: State, p: nat)
    requires Reachable(s) && p < |s.procs|
    ensures s.boot.base + p < |s.cpu.tasks|
    ensures var q, t := s.procs[p], s.boot.base + p;
      && (q.waiter.Some? <==> s.cpu.tasks[t].state == Sched.Blocked)
      && (q.waiter.Some? ==>
            && q.waiter.value == t && t in s.cpu.enters && q.ring.Some?
            && Empty(q.ring.value) && Unreaped(q.ring.value) < s.cpu.enters[t])
  {
    hide Spaces.SpaceOk;
    hide Consoles.ConsoleOk;
    hide LedgersOk;
    hide Fifo.WiresOk;
    hide Handshake.FlagsOk;
    hide Reads.AllFilled;
    hide Reachable;
    hide ProcShape;
    hide TaskShape;
    hide LogShape;
    ReachableInv(s);
    assert WakeUps.WaiterOk(s, p) && WakeUps.RightlyAsleep(s, p);
  }

  /** A user task always runs in its own space, and the space of an exited process is never live: it is the
      kernel's own or that of a live process. */
  lemma OwnSpace(s: State)
    requires Reachable(s)
    ensures s.cpu.live !in s.cpu.freed && s.boot.kernelRoot !in s.cpu.freed
    ensures s.cpu.live == s.boot.kernelRoot
      || exists p :: 0 <= p < |s.procs| && Alive(s.procs[p]) && s.procs[p].root == s.cpu.live
    ensures s.cpu.current >= s.boot.base ==>
      s.cpu.current - s.boot.base < |s.procs| && s.cpu.live == s.procs[s.cpu.current - s.boot.base].root
  {
    hide WakeUps.WakeOk;
    hide Consoles.ConsoleOk;
    hide LedgersOk;
    hide Fifo.WiresOk;
    hide Handshake.FlagsOk;
    hide Reads.AllFilled;
    hide Reachable;
    hide ProcShape;
    hide TaskShape;
    hide LogShape;
    ReachableInv(s);
    if s.cpu.live != s.boot.kernelRoot {
      var p :| 0 <= p < |s.procs| && Spaces.Hosts(s.procs[p], s.cpu.live);
      assert Alive(s.procs[p]) && s.procs[p].root == s.cpu.live;
    }
  }

  /** The kernel's stores into user buffers never touch a ring page, if the gate keeps the keyboard's
      process from naming one (`Gate.RingApartIff` says when). */
  lemma RingsApart(s: State)
    requires Reachable(s) && RingApart(Consoles.Keyboard(s.procs))
    ensures forall i | 0 <= i < |s.console.given| :: !InRing(s.console.given[i].addr)
  {
    hide Layout;
    hide WakeUps.WakeOk;
    hide Spaces.SpaceOk;
    hide LedgersOk;
    hide Fifo.WiresOk;
    hide Handshake.FlagsOk;
    hide Reads.AllFilled;
    hide Reachable;
    hide Accepts;
    ReachableInv(s);
  }

  /** Console input comes out in order and reception is masked exactly when the buffer is full.  If the
      stores that the gate accepts land, none ever stops the machine; if the gate also takes each of
      the first 255 bytes of what it accepts, every byte that came out was stored for a read; if it
      takes the first one, no foreground read waits beside buffered bytes. */
  lemma ConsoleInput(s: State)
    requires Reachable(s)
    ensures s.console.taken == s.console.popped + s.console.input
    ensures s.console.rxOn <==> |s.console.input| < Input.CAPACITY
    ensures |s.console.input| <= Input.CAPACITY
    ensures Consoles.AllLand(Consoles.Keyboard(s.procs)) ==> !s.console.halted
    ensures Consoles.AllLand(Consoles.Keyboard(s.procs)) && ByteSafe(Consoles.Keyboard(s.procs), Input.CAPACITY) ==>
      s.console.popped == Consoles.Bytes(s.console.given)
    ensures forall p, j | 0 <= p < |s.procs| && 0 <= j < |s.procs[p].pending| && s.procs[p].foreground
      && s.procs[p].pending[j].Some? ::
      ByteSafe(s.procs[p].ranges, 1) && !s.console.halted ==> s.console.input == []
  {
    hide Layout;
    hide WakeUps.WakeOk;
    hide Spaces.SpaceOk;
    hide LedgersOk;
    hide Fifo.WiresOk;
    hide Handshake.FlagsOk;
    hide Reads.AllFilled;
    hide Reachable;
    hide ByteSafe;
    hide Consoles.AllLand;
    ReachableInv(s);
    forall p, j | 0 <= p < |s.procs| && 0 <= j < |s.procs[p].pending| && s.procs[p].foreground
      && s.procs[p].pending[j].Some?
      ensures ByteSafe(s.procs[p].ranges, 1) && !s.console.halted ==> s.console.input == []
    {
      assert Consoles.Satisfied(s.procs[p], s.console);
    }
  }

  /** Every byte the kernel ever stored for a read was stored while the reader's own space was live,
      at an address the gate lets the reader write. */
  lemma StoredAtHome(s: State, i: nat)
    requires Reachable(s) && i < |s.console.given|
    ensures var d := s.console.given[i];
      && d.pid < |s.procs| && d.root == s.procs[d.pid].root && Accepts(s.procs[d.pid].ranges, d.addr, 1, true)
  {
    hide Layout;
    hide WakeUps.WakeOk;
    hide Spaces.SpaceOk;
    hide LedgersOk;
    hide Fifo.WiresOk;
    hide Handshake.FlagsOk;
    hide Reads.AllFilled;
    hide Reachable;
    hide ByteSafe;
    hide Accepts;
    hide Consoles.AllLand;
    ReachableInv(s);
  }

  /** Whenever requests of a process are consumed, by its own system call or by the poller, its space
      is live from the first request to the last. */
  lemma DrainsAtHome(s: State, a: Action)
    requires Reachable(s) && Enables(s, a)
    ensures a.CallEnter? ==>
      && Pid(s) >= 0 && Callable(Submitted(s, Pid(s)), Pid(s))
      && var s1 := Roused(Submitted(s, Pid(s)), Pid(s));
         && s1.cpu.live == s.procs[Pid(s)].root && !IsChild(s1.procs, Pid(s), Pid(s))
         && Drain(s1, Pid(s), a.env).cpu.live == s.procs[Pid(s)].root
    ensures a.Poller? && s.poll.pc.Scan? && s.poll.pc.i < s.poll.pc.n && HasSubmissions(s, s.poll.pc.i) ==>
      PollOk(s) && PollStep(s, a.env).cpu.live == s.procs[s.poll.pc.i].root
  {
    hide WakeUps.WakeOk;
    hide Consoles.ConsoleOk;
    hide LedgersOk;
    hide Fifo.WiresOk;
    hide Handshake.FlagsOk;
    hide Reads.AllFilled;
    hide Reachable;
    hide Layout;
    hide EnvOk;
    hide Drain;
    ReachableInv(s);
    Basics(s);
    if a.CallEnter? {
      var p := Pid(s);
      ClientLayout(s, Submitted(s, p));
      Basics(Submitted(s, p));
      RousedLayout(Submitted(s, p), p);
      var s1 := Roused(Submitted(s, p), p);
      Basics(s1);
      DrainEnds(s1, p, a.env);
    }
    if a.Poller? && s.poll.pc.Scan? && s.poll.pc.i < s.poll.pc.n && HasSubmissions(s, s.poll.pc.i) {
      PollerLayout(s, a.env);
      var i := s.poll.pc.i;
      var s2 := s.(cpu := s.cpu.(live := s.procs[i].root), poll := s.poll.(pc := Scan(i + 1, s.poll.pc.n, true)));
      DrainEnds(s2, i, a.env);
    }
  }

  /** The books of a live process: every completion answers one request, with its tag and the
      right result; no request is answered twice; what is not answered is parked, waits for a
      live child, was dropped, or was overtaken by a later wait on the same child. */
  lemma EachRequestOnce(s: State, p: nat)
    requires Reachable(s) && p < |s.procs| && Alive(s.procs[p])
    ensures |s.logs| == |s.procs| && LogShape(s.logs[p]) && |s.procs[p].pending| == 8
    ensures forall k | 0 <= k < |s.logs[p].posted| :: Answers(s, p, k)
    ensures forall k, m | 0 <= k < m < |s.logs[p].posted| :: s.logs[p].origin[k] != s.logs[p].origin[m]
    ensures forall i | 0 <= i < |s.logs[p].reqs| :: FateAt(s.procs, s.logs, p, i)
    ensures forall j | 0 <= j < 8 && s.procs[p].pending[j].Some? ::
      s.logs[p].slots[j] < |s.logs[p].fate| && s.logs[p].fate[s.logs[p].slots[j]] == Parked(j)
    ensures forall c | 0 <= c < |s.procs| && s.procs[c].parent == Some(p) && s.procs[c].exitWaiter.Some? ::
      s.logs[c].asked < |s.logs[p].fate| && s.logs[p].fate[s.logs[c].asked] == Waiting(c)
  {
    hide Layout;
    hide WakeUps.WakeOk;
    hide Spaces.SpaceOk;
    hide Consoles.ConsoleOk;
    hide Fifo.WiresOk;
    hide Handshake.FlagsOk;
    hide Reads.AllFilled;
    hide Reachable;
    hide Answer;
    hide Overtaken;
    ReachableInv(s);
    var l := s.logs[p];
    assert Ledger(s.procs, s.logs, p, -1);
    forall k | 0 <= k < |l.posted| ensures Answers(s, p, k) {
      assert OriginAt(l, k) && FateAt(s.procs, s.logs, p, l.origin[k]);
    }
    forall k, m | 0 <= k < m < |l.posted| ensures l.origin[k] != l.origin[m] {
      assert OriginAt(l, k) && OriginAt(l, m);
    }
    forall j | 0 <= j < 8 && s.procs[p].pending[j].Some?
      ensures l.slots[j] < |l.fate| && l.fate[l.slots[j]] == Parked(j)
    {
      assert SlotAt(s.procs[p], l, j, -1);
    }
    forall c | 0 <= c < |s.procs| && s.procs[c].parent == Some(p) && s.procs[c].exitWaiter.Some?
      ensures s.logs[c].asked < |l.fate| && l.fate[s.logs[c].asked] == Waiting(c)
    {
      assert ChildAt(s.procs, s.logs, p, c, -1);
    }
  }

  /** Completion k of process p carries the tag of its request and an answer to it. */
  ghost predicate Answers(s: State, p: nat, k: nat)
    requires p < |s.procs| == |s.logs| && LogShape(s.logs[p]) && k < |s.logs[p].posted|
  {
    var l := s.logs[p];
    && l.origin[k] < |l.reqs| && l.posted[k].tag == l.reqs[l.origin[k]].tag
    && Answer(s.procs, p, l.reqs[l.origin[k]], l.able[l.origin[k]], l.posted[k].result)
  }

  /** A read gets what its completion says: as many bytes as the result were stored for it, at the
      start of its buffer, one after the other; every other request had nothing stored for it. */
  lemma ReadsGetTheirBytes(s: State, p: nat, i: nat)
    requires Reachable(s) && p < |s.procs| && Alive(s.procs[p]) && p < |s.logs| && i < |s.logs[p].fate|
    requires !s.console.halted
    ensures LogShape(s.logs[p])
    ensures var l, got := s.logs[p], Reads.Got(s.console.given, p, i);
      && (forall j | 0 <= j < |got| :: got[j].addr == l.reqs[i].arg0 + j)
      && (l.fate[i].Posted? ==> l.fate[i].k < |l.posted|)
      && (l.fate[i].Posted? ==>
            |got| == if l.reqs[i].op == OP_READ then Reads.Positive(l.posted[l.fate[i].k].result) else 0)
      && (l.fate[i].Dropped? ==> |got| == if l.reqs[i].op == OP_READ then Reads.Positive(l.fate[i].result) else 0)
      && (l.fate[i].Parked? || l.fate[i].Waiting? || l.fate[i].Superseded? ==> got == [])
  {
    hide Layout;
    hide WakeUps.WakeOk;
    hide Spaces.SpaceOk;
    hide Consoles.ConsoleOk;
    hide Fifo.WiresOk;
    hide Handshake.FlagsOk;
    hide Reachable;
    hide Answer;
    ReachableInv(s);
    assert Ledger(s.procs, s.logs, p, -1) && FateAt(s.procs, s.logs, p, i);
    assert Reads.ReadAt(s.console.given, s.logs[p], p, i);
  }

  /** A process that only uses the library: the kernel consumed a prefix of what it published and
      it reaped a prefix of what was posted, at most 16 apart; and if it never has more than 16
      requests published and not reaped, no completion of it is ever dropped. */
  lemma LibraryUser(s: State, p: nat)
    requires Reachable(s) && p < |s.procs| && s.procs[p].ring.Some? && p < |s.clients| && s.clients[p].honest
    ensures |s.logs| == |s.procs|
    ensures s.logs[p].reqs <= s.clients[p].published && |s.clients[p].published| <= |s.logs[p].reqs| + 16
    ensures s.clients[p].reaped <= s.logs[p].posted && |s.logs[p].posted| <= |s.clients[p].reaped| + 16
    ensures s.clients[p].frugal ==> forall i | 0 <= i < |s.logs[p].fate| :: !s.logs[p].fate[i].Dropped?
  {
    hide Layout;
    hide WakeUps.WakeOk;
    hide Spaces.SpaceOk;
    hide Consoles.ConsoleOk;
    hide LedgersOk;
    hide Handshake.FlagsOk;
    hide Reads.AllFilled;
    hide Reachable;
    ReachableInv(s);
    assert Fifo.Wired(s.procs[p].ring.value, s.clients[p], s.logs[p]);
  }

  /** A wait on a child that has exited is answered: exactly one completion carries its tag and the
      exit code, unless the queue was full or a later wait on the same child overtook it. */
  lemma WaitAnswered(s: State, p: nat, i: nat)
    requires Reachable(s) && p < |s.procs| == |s.logs| && Alive(s.procs[p]) && i < |s.logs[p].reqs|
    requires LogShape(s.logs[p]) && s.logs[p].reqs[i].op == OP_WAIT && s.logs[p].able[i]
    requires s.logs[p].reqs[i].arg0 < |s.procs| && !Alive(s.procs[s.logs[p].reqs[i].arg0])
    requires !Overtaken(s.logs[p].reqs, i)
    requires !s.logs[p].fate[i].Dropped?
    ensures var l, e := s.logs[p], s.logs[p].reqs[i];
      exists k :: 0 <= k < |l.posted| && l.origin[k] == i
        && l.posted[k] == Cqe(e.tag, s.procs[e.arg0].exitCode.value)
        && forall m | 0 <= m < |l.posted| && l.origin[m] == i :: m == k
  {
    hide Layout;
    hide WakeUps.WakeOk;
    hide Spaces.SpaceOk;
    hide Consoles.ConsoleOk;
    hide Fifo.WiresOk;
    hide Handshake.FlagsOk;
    hide Reads.AllFilled;
    hide Reachable;
    ReachableInv(s);
    var l, e := s.logs[p], s.logs[p].reqs[i];
    assert Ledger(s.procs, s.logs, p, -1);
    assert FateAt(s.procs, s.logs, p, i);
    var k := l.fate[i].k;
    forall m | 0 <= m < |l.posted| && l.origin[m] == i ensures m == k {
      assert OriginAt(l, m);
    }
    assert l.posted[k] == Cqe(e.tag, s.procs[e.arg0].exitCode.value);
  }

  /** A wait whose handle is not a child of the caller gets the error, and nothing else. */
  lemma WrongHandle(s: State, p: nat, i: nat)
    requires Reachable(s) && p < |s.procs| == |s.logs| && Alive(s.procs[p]) && i < |s.logs[p].reqs|
    requires LogShape(s.logs[p]) && s.logs[p].reqs[i].op == OP_WAIT && !s.logs[p].able[i]
    ensures
      || s.logs[p].fate[i] == Dropped(ERR)
      || (exists k :: 0 <= k < |s.logs[p].posted| && s.logs[p].fate[i] == Posted(k)
           && s.logs[p].posted[k] == Cqe(s.logs[p].reqs[i].tag, ERR))
  {
    hide Layout;
    hide WakeUps.WakeOk;
    hide Spaces.SpaceOk;
    hide Consoles.ConsoleOk;
    hide Fifo.WiresOk;
    hide Handshake.FlagsOk;
    hide Reads.AllFilled;
    hide Reachable;
    ReachableInv(s);
    assert Ledger(s.procs, s.logs, p, -1);
    assert FateAt(s.procs, s.logs, p, i);
  }

  /** Whatever happens next, exit codes stay, and so do the answers given. */
  lemma SettledForGood(s: State, acts: seq<Action>, p: nat)
    requires Reachable(s) && Runs(s, acts) && p < |s.procs|
    ensures var r := After(s, acts);
      && p < |r.procs| && |s.logs| == |s.procs| && |r.logs| == |r.procs|
      && (s.procs[p].exitCode.Some? ==> r.procs[p].exitCode == s.procs[p].exitCode)
      && s.logs[p].reqs <= r.logs[p].reqs && s.logs[p].posted <= r.logs[p].posted
           && s.logs[p].origin <= r.logs[p].origin
  {
    hide Inv;
    hide Runs;
    ReachableInv(s);
    RunInv(s, acts);
    assert ProcGrows(s.procs[p], After(s, acts).procs[p]);
    assert LogGrows(s.logs[p], After(s, acts).logs[p]);
  }

  /** While the poller sleeps, a library user's flag is up if and only if its ring was there when the
      poller fell asleep; and if it is up, nothing is published except what is about to be submitted. */
  lemma FlagTells(s: State, p: nat)
    requires Reachable(s) && p < |s.procs| && p < |s.clients| && s.procs[p].ring.Some?
    requires s.clients[p].honest && Handshake.PollerSleeps(s)
    ensures FlagUp(s.procs[p].ring.value) <==> s.clients[p].early
    ensures FlagUp(s.procs[p].ring.value) && !Empty(s.procs[p].ring.value) ==> s.clients[p].unsubmitted
  {
    hide Layout;
    hide WakeUps.WakeOk;
    hide Spaces.SpaceOk;
    hide Consoles.ConsoleOk;
    hide LedgersOk;
    hide Fifo.WiresOk;
    hide Reads.AllFilled;
    hide Reachable;
    ReachableInv(s);
    assert Handshake.Heard(s.procs[p], s.clients[p]);
  }

  /** A submit while the poller sleeps wakes it and leaves the queue empty, if and only if the flag is
      up; otherwise it leaves every ring as it is and the poller asleep. */
  lemma SubmitRevives(s: State, p: nat, env: Env)
    requires Reachable(s) && InUser(s, p) && Ringed(s, p) && Handshake.PollerSleeps(s)
    ensures Callable(s, p) && p < |Submit(s, p, env).procs| && Submit(s, p, env).procs[p].ring.Some?
    ensures FlagUp(s.procs[p].ring.value)
      <==> !Handshake.PollerSleeps(Submit(s, p, env)) && Empty(Submit(s, p, env).procs[p].ring.value)
    ensures !FlagUp(s.procs[p].ring.value)
      ==> Submit(s, p, env).procs == s.procs && Handshake.PollerSleeps(Submit(s, p, env))
  {
    hide Layout;
    hide WakeUps.WakeOk;
    hide Spaces.SpaceOk;
    hide Consoles.ConsoleOk;
    hide LedgersOk;
    hide Fifo.WiresOk;
    hide Reads.AllFilled;
    hide Reachable;
    hide Trap;
    ReachableInv(s);
    Handshake.TrapFlags(s, p, 0, env);
  }

  /** Whatever happened between its load of the flag and its trap, the trap leaves the queue empty and the
      flag down, and the poller awake if the flag was still up. */
  lemma TrapSubmits(s: State, p: nat, min: nat, env: Env)
    requires Reachable(s) && InUser(s, p) && Ringed(s, p)
    ensures Callable(s, p) && p < |Trap(s, p, min, env).procs| && Trap(s, p, min, env).procs[p].ring.Some?
    ensures Empty(Trap(s, p, min, env).procs[p].ring.value) && !FlagUp(Trap(s, p, min, env).procs[p].ring.value)
    ensures FlagUp(s.procs[p].ring.value) ==> !Handshake.PollerSleeps(Trap(s, p, min, env))
  {
    hide Layout;
    hide WakeUps.WakeOk;
    hide Spaces.SpaceOk;
    hide Consoles.ConsoleOk;
    hide LedgersOk;
    hide Fifo.WiresOk;
    hide Reads.AllFilled;
    hide Reachable;
    hide Trap;
    ReachableInv(s);
    Handshake.TrapFlags(s, p, min, env);
  }

  /** The console interrupt takes as many of the waiting bytes as fit, in order. */
  lemma UartTakes(s: State, bytes: seq<Byte>)
    requires Reachable(s) && Enables(s, Uart(bytes))
    ensures Ready(s)
    ensures var r := Next(s, Uart(bytes));
      exists n :: 0 <= n <= |bytes| && r.console.taken == s.console.taken + bytes[..n]
        && (n == |bytes| || |s.console.input| + n == Input.CAPACITY)
  {
    hide Reachable;
    hide Inv;
    ReachableInv(s);
    InvReady(s);
    hide Ready;
    var s0 := s.(console := Arrived(s.console, bytes));
    var n := Input.Room(s.console.input, bytes);
    assert s0.console.taken == s.console.taken + bytes[..n];
    hide Layout;
    var fg := Foreground(s0.procs);
    if fg.Some? && Ringed(s0, fg.value) {
      PollSlotsTaken(s0.(cpu := s0.cpu.(live := s0.procs[fg.value].root)), fg.value, 0);
      hide PollSlots;
    }
  }

  lemma {:induction false} DeliverTaken(con: Console, m: Target, p: nat, id: nat, buf: nat, len: nat, count: nat)
    requires count <= len
    ensures Deliver(con, m, p, id, buf, len, count).0.taken == con.taken
    decreases len - count
  {
    hide Accepts;
    hide Lands;
    if count < len && con.input != [] && !con.halted && Takes(m, buf + count) {
      DeliverTaken(Landed(con, m, p, id, buf + count), m, p, id, buf, len, count + 1);
    }
  }

  lemma {:induction false} PollSlotsTaken(s: State, p: nat, i: nat)
    requires Ringed(s, p) && i <= 8
    ensures PollSlots(s, p, i).0.console.taken == s.console.taken
    decreases 8 - i
  {
    hide Deliver;
    if i < 8 && s.procs[p].pending[i].None? {
      PollSlotsTaken(s, p, i + 1);
    } else if i < 8 {
      var q := s.procs[p].pending[i].value;
      var (con, count) := Deliver(s.console, Facing(s, p), p, s.logs[p].slots[i], q.buf, q.len, 0);
      DeliverTaken(s.console, Facing(s, p), p, s.logs[p].slots[i], q.buf, q.len, 0);
      var s1 := s.(console := con);
      if count == 0 || s.logs[p].slots[i] >= |s.logs[p].fate| {
        PollSlotsTaken(s1, p, i + 1);
      } else {
        var s2 := Complete(s1, p, s.logs[p].slots[i], Cqe(q.tag, count));
        var s3 := s2.(procs := s2.procs[p := s2.procs[p].(pending := s2.procs[p].pending[i := None])]);
        PollSlotsTaken(s3, p, i + 1);
      }
    }
  }

  /** The answer to the last request of process p is result r, posted or dropped for want of room. */
  ghost predicate LastAnswered(l: Log, tag: Word, r: int) {
    && LogShape(l) && |l.fate| > 0
    && var f := l.fate[|l.fate| - 1];
       || (f.Posted? && f.k < |l.posted| && l.posted[f.k] == Cqe(tag, r) && l.origin[f.k] == |l.fate| - 1)
       || f == Dropped(r)
  }

  /** A spawn request that finds an image makes exactly one process, the last one: with the ranges of that
      image, the root made for it, the caller as its parent and a task of its own that can run; its number
      is the answer.  One that finds none makes nothing and gets the error. */
  lemma SpawnMakes(s: State, p: nat, e: Sqe, env: Env)
    requires Ringed(s, p) && !IsChild(s.procs, p, p) && e.op == OP_SPAWN && |s.cpu.tasks| == s.boot.base + |s.procs|
    ensures var r, n, id := Process(s, p, e, env), |s.procs|, |s.logs[p].reqs|;
      if Accepts(s.procs[p].ranges, e.arg0, e.arg1, false) && env.image(id).Some? then
        && |r.procs| == n + 1 && r.procs[n].ranges == env.image(id).value && r.procs[n].root == env.root(n)
        && r.procs[n].parent == Some(p) && Alive(r.procs[n]) && r.procs[n].ring.None? && !r.procs[n].foreground
        && |r.cpu.tasks| == |s.cpu.tasks| + 1 && r.cpu.tasks[..|s.cpu.tasks|] == s.cpu.tasks
        && r.cpu.tasks[|s.cpu.tasks|] == Sched.Task(Sched.Runnable, 0, Some(n), Some(env.root(n)))
        && (forall q | 0 <= q < n && q != p :: r.procs[q] == s.procs[q])
        && (forall v | v in LowPages(env.image(id).value) ::
              v in r.shared && r.shared[v] == LowPages(env.image(id).value)[v])
        && LastAnswered(r.logs[p], e.tag, n)
      else
        && |r.procs| == n && r.cpu == s.cpu && (forall q | 0 <= q < n && q != p :: r.procs[q] == s.procs[q])
        && LastAnswered(r.logs[p], e.tag, ERR)
  {
    hide Accepts;
    hide LowPages;
    hide Post;
  }

  /** The first `setup` gives the caller a zeroed ring page, any other one changes nothing. */
  lemma SetupGives(s: State)
    requires Reachable(s) && Enables(s, CallSetup)
    ensures Ready(s)
    ensures var r, p := Next(s, CallSetup), Pid(s);
      && 0 <= p < |s.procs| == |r.procs| && r.cpu == s.cpu && r.logs == s.logs && r.console == s.console
      && r.procs[p].ring == (if s.procs[p].ring.Some? then s.procs[p].ring else Some(ZeroPage()))
      && r.procs == s.procs[p := s.procs[p].(ring := r.procs[p].ring)]
  {
    hide Reachable;
    hide Inv;
    ReachableInv(s);
    InvReady(s);
    Sizes(s);
    hide Layout;
  }

  /** What user code does to its ring is one event of the ring protocol, or any store at all; the kernel
      and all other processes are as before. */
  lemma UserStores(s: State, a: Action)
    requires Reachable(s) && Enables(s, a) && (a.Store? || a.Scribble?)
    ensures Ready(s)
    ensures var r, p := Next(s, a), Pid(s);
      && 0 <= p < |s.procs| == |r.procs| && r.cpu == s.cpu && r.logs == s.logs && r.console == s.console
      && r.procs[p].ring.Some? && |r.clients| == |r.procs|
      && (a.Store? ==> WireOf(r, p) == Happen(WireOf(s, p), a.v))
      && (a.Scribble? ==> r.procs[p].ring.value == a.page)
      && r.procs == s.procs[p := s.procs[p].(ring := r.procs[p].ring)]
  {
    hide Reachable;
    hide Inv;
    ReachableInv(s);
    InvReady(s);
    Sizes(s);
    hide Layout;
    hide Enabled;
    if a.Store? { HappenLogs(WireOf(s, Pid(s)), a.v); }
    hide Happen;
  }

  lemma HappenLogs(w: Wire, v: Event)
    requires Enabled(w, v) && OfClient(v)
    ensures Happen(w, v).consumed == w.consumed && Happen(w, v).posted == w.posted
  {}

  /** The load of the flag in `submit`: with the flag down the submit is over and has changed nothing; with
      the flag up it is still to come, by a trap, which ends it. */
  lemma SubmitLoads(s: State, p: nat, min: nat, env: Env)
    requires Reachable(s) && InUser(s, p) && Ringed(s, p)
    ensures FlagUp(s.procs[p].ring.value) ==> LoadFlag(s, p) == s
    ensures !FlagUp(s.procs[p].ring.value) ==>
      LoadFlag(s, p) == s.(clients := LoadFlag(s, p).clients) && !LoadFlag(s, p).clients[p].unsubmitted
    ensures Callable(s, p) && p < |Trap(s, p, min, env).clients| && !Trap(s, p, min, env).clients[p].unsubmitted
  {
    hide Reachable;
    hide Inv;
    ReachableInv(s);
    InvReady(s);
    Sizes(s);
    TrapClients(s, p, min, env);
    hide Layout;
    hide Trap;
  }

  lemma TrapClients(s: State, p: nat, min: nat, env: Env)
    requires Shape(s) && Ringed(s, p)
    ensures Callable(s, p) && p < |Trap(s, p, min, env).clients| && !Trap(s, p, min, env).clients[p].unsubmitted
  {
    var s1 := Submitted(s, p);
    Basics(s);
    ClientLayout(s, s1);
    RousedLayout(s1, p);
    Basics(Roused(s1, p));
    hide Layout;
    hide Drain;
    hide Switch;
    DrainEnds(Roused(s1, p), p, env);
  }
}
