/**
 The handlers of kernel/src/ring.rs and kernel/src/process.rs as the loops and updates they are,
 each proved to take the kernel's state to what the step functions say.
 */
module Driver {
  import opened Bits
  import opened Frames
  import opened Loader
  import opened Gate
  import opened Rings
  import opened Kernel
  import opened Draining
  import opened Steps
  import opened Layouts
  import Consoles
  import Fates
  import Machine
  import Sched
  import WakeUps
  import Input

  /** One turn of the loop of `drain_input`. */
  lemma FaceRoot(procs: seq<Proc>, shared: map<nat, bool>, live: nat, p: nat)
    requires p < |procs|
    ensures Face(procs, shared, live, p).root == live && Face(procs, shared, live, p).ranges == procs[p].ranges
  {}

  ghost function Closed(s: State, p: nat, dead: nat, ranges: seq<Range>): (r: State)
    requires p < |s.procs|
    ensures r.cpu.tasks == s.cpu.tasks && r.cpu.current == s.cpu.current
  {
    s.(procs := s.procs[p := s.procs[p].(ring := None, foreground := false)],
       cpu := s.cpu.(live := s.boot.kernelRoot, freed := s.cpu.freed + {dead}),
       shared := s.shared - LowPages(ranges).Keys)
  }

  class RingKernel {
    const boot: Boot
    var procs: seq<Proc>
    var tasks: seq<Sched.Task>
    var current: nat
    var live: nat
    var ticks: nat
    var enters: map<nat, nat>
    var input: seq<Byte>
    var rxOn: bool
    var poll: Poll
    /** The shared pages as the tables have them, and whether a store has faulted. */
    var shared: map<nat, bool>
    var halted: bool
    // History.
    var logs: seq<Log>
    var clients: seq<Client>
    ghost var freed: set<nat>
    ghost var taken: seq<Byte>
    ghost var popped: seq<Byte>
    ghost var given: seq<Delivery>

    ghost function View(): State
      reads this
    {
      State(procs, logs, clients, Cpu(tasks, current, live, freed, ticks, enters),
            Console(input, rxOn, taken, popped, given, halted), poll, boot, shared)
    }

    constructor (boot: Boot, ghost s: State, procs: seq<Proc>, tasks: seq<Sched.Task>, logs: seq<Log>,
                 clients: seq<Client>, shared: map<nat, bool>)
      requires s == State(procs, logs, clients, Cpu(tasks, 0, boot.kernelRoot, {}, 0, map[]),
                          Console([], true, [], [], [], false), Poll(Top, 0), boot, shared)
      ensures View() == s
    {
      this.boot := boot;
      this.procs, this.tasks, this.logs, this.clients := procs, tasks, logs, clients;
      current, live, ticks, enters := 0, boot.kernelRoot, 0, map[];
      input, rxOn, poll, halted := [], true, Poll(Top, 0), false;
      this.shared := shared;
      freed, taken, popped, given := {}, [], [], [];
    }

    method PostCompletion(p: nat, id: nat, tag: Word, result: int)
      requires Ringed(View(), p) && id < |logs[p].fate|
      modifies this`procs, this`logs
      ensures View() == Complete(old(View()), p, id, Cqe(tag, result))
    {
      var page := procs[p].ring.value;
      var tail, head := page.cqTail, page.cqHead;
      logs := logs[p := Settled(logs[p], id, Cqe(tag, result), CqFull(page))];
      if Sub(tail, head) >= ENTRIES {
        assert procs == procs[p := WithPage(procs[p], page)];
        return;
      }
      var cq := page.cq[Slot(tail) := Cqe(tag, result)];
      procs := procs[p := WithPage(procs[p], page.(cq := cq, cqTail := Inc(tail)))];
    }

    method Pop() returns (b: Option<Byte>)
      modifies this`input, this`rxOn, this`popped
      ensures b.None? <==> old(input) == []
      ensures b.None? ==> unchanged(this)
      ensures b.Some? ==> b.value == old(input)[0] && View().console == Popped(old(View()).console)
    {
      if input == [] {
        return None;
      }
      var wasFull := |input| == Input.CAPACITY;
      b := Some(input[0]);
      popped := popped + [input[0]];
      input := input[1..];
      if wasFull {
        rxOn := true;
      }
    }

    /** `copy_to_user` of one byte; a store that faults does not return. */
    method CopyByte(p: nat, id: nat, a: Word, b: Byte) returns (ok: bool)
      requires p < |procs| && a + 1 < TWO64 && !halted
      modifies this`given, this`halted
      ensures ok <==> Takes(Facing(View(), p), a)
      ensures ok ==> given == old(given) + [Delivery(p, id, live, a, b)] && !halted
      ensures !ok ==> given == old(given) && (halted <==> Accepts(procs[p].ranges, a, 1, true))
    {
      hide Accepts;
      hide Lands;
      FaceRoot(procs, shared, live, p);
      ok := IsUserRange(procs[p].ranges, a, 1, true);
      if !ok {
        return;
      }
      ok := Lands(Face(procs, shared, live, p), a);
      if ok {
        given := given + [Delivery(p, id, live, a, b)];
      } else {
        halted := true;
      }
    }

    /** `drain_input`. */
    method DrainInput(p: nat, id: nat, buf: Word, len: Word) returns (count: nat)
      requires p < |procs| && buf + len < TWO64
      modifies this`input, this`rxOn, this`popped, this`given, this`halted
      ensures (View().console, count) == Deliver(old(View()).console, Facing(View(), p), p, id, buf, len, 0)
    {
      hide Deliver;
      hide Accepts;
      hide Lands;
      hide Popped;
      FaceRoot(procs, shared, live, p);
      ghost var m := Facing(View(), p);
      hide Face;
      count := 0;
      while count < len
        invariant count <= len
        invariant Deliver(old(View()).console, m, p, id, buf, len, 0)
          == Deliver(View().console, m, p, id, buf, len, count)
      {
        DeliverOne(View().console, m, p, id, buf, len, count);
        if halted {
          return;
        }
        var b := Pop();
        if b.None? {
          return;
        }
        var ok := CopyByte(p, id, buf + count, b.value);
        if !ok {
          return;
        }
        count := count + 1;
      }
      DeliverOne(View().console, m, p, id, buf, len, len);
    }

    method ForegroundPid() returns (fg: Option<nat>)
      ensures fg == Foreground(procs)
    {
      var i := 0;
      while i < |procs|
        invariant i <= |procs| && Foreground(procs) == ForegroundFrom(procs, i)
      {
        if procs[i].foreground {
          return Some(i);
        }
        i := i + 1;
      }
      return None;
    }

    /** `park_read`. */
    method ParkRead(p: nat, id: nat, q: Pending) returns (ok: bool)
      requires Ringed(View(), p) && id < |logs[p].fate|
      modifies this`procs, this`logs
      ensures ok ==> View() == Park(old(View()), p, id, q)
      ensures !ok ==> View() == old(View()) && FreeSlotFrom(procs[p].pending, 0).None?
    {
      var j := 0;
      while j < 8
        invariant j <= 8 && View() == old(View())
        invariant FreeSlotFrom(procs[p].pending, 0) == FreeSlotFrom(procs[p].pending, j)
      {
        if procs[p].pending[j].None? {
          procs := procs[p := procs[p].(pending := procs[p].pending[j := Some(q)])];
          logs := logs[p := logs[p].(slots := logs[p].slots[j := id], fate := logs[p].fate[id := Parked(j)])];
          return true;
        }
        j := j + 1;
      }
      return false;
    }

    method Read(p: nat, id: nat, e: Sqe)
      requires Ringed(View(), p) && id < |logs[p].fate|
      modifies this`procs, this`logs, this`input, this`rxOn, this`popped, this`given, this`halted
      ensures View() == ReadOp(old(View()), p, id, e)
    {
      hide Deliver;
      hide Face;
      hide Accepts;
      hide Complete;
      hide Foreground;
      AcceptedBelow(procs[p].ranges, e.arg0, e.arg1, true);
      var ok := IsUserRange(procs[p].ranges, e.arg0, e.arg1, true);
      if !ok {
        PostCompletion(p, id, e.tag, ERR);
        return;
      }
      if e.arg1 == 0 {
        PostCompletion(p, id, e.tag, 0);
        return;
      }
      var fg := ForegroundPid();
      var count := 0;
      if fg == Some(p) {
        count := DrainInput(p, id, e.arg0, e.arg1);
      }
      if count > 0 {
        PostCompletion(p, id, e.tag, count);
        return;
      }
      var parked := ParkRead(p, id, Pending(e.arg0, e.arg1, e.tag));
      if !parked {
        PostCompletion(p, id, e.tag, ERR);
      }
    }

    method Spawn(p: nat, id: nat, e: Sqe, env: Env)
      requires Ringed(View(), p) && id < |logs[p].fate|
      modifies this`procs, this`logs, this`clients, this`tasks, this`freed, this`shared
      ensures View() == SpawnOp(old(View()), p, id, e, env)
    {
      hide LowPages;
      hide Accepts;
      var ok := IsUserRange(procs[p].ranges, e.arg0, e.arg1, false);
      var image := env.image(id);
      if !ok || image.None? {
        PostCompletion(p, id, e.tag, ERR);
        return;
      }
      var child, root := |procs|, env.root(|procs|);
      procs := procs + [NewProc(root, image.value, Some(p))];
      logs, clients := logs + [NewLog()], clients + [NewClient()];
      freed := freed - {root};
      shared := shared + LowPages(image.value);
      tasks := tasks + [Sched.Task(Sched.Runnable, 0, Some(child), Some(root))];
      PostCompletion(p, id, e.tag, child);
    }

    method Wait(p: nat, id: nat, e: Sqe)
      requires Ringed(View(), p) && id < |logs[p].fate| && !IsChild(procs, p, p)
      modifies this`procs, this`logs
      ensures View() == WaitOp(old(View()), p, id, e)
    {
      var h := e.arg0;
      if h >= |procs| || procs[h].parent != Some(p) {
        PostCompletion(p, id, e.tag, ERR);
        return;
      }
      match procs[h].exitCode {
        case Some(code) => PostCompletion(p, id, e.tag, code);
        case None =>
          var l, last := logs[p], logs[h].asked;
          var fate := if procs[h].exitWaiter.Some? && last < |l.fate| then l.fate[last := Superseded] else l.fate;
          logs := logs[p := l.(fate := fate[id := Waiting(h)])][h := logs[h].(asked := id)];
          procs := procs[h := procs[h].(exitWaiter := Some(e.tag))];
      }
    }

    /** `process_sqe`. */
    method ProcessSqe(p: nat, e: Sqe, env: Env)
      requires Ringed(View(), p) && !IsChild(procs, p, p)
      modifies this
      ensures View() == Process(old(View()), p, e, env)
    {
      hide ReadOp;
      hide SpawnOp;
      hide WaitOp;
      hide Complete;
      var id := |logs[p].reqs|;
      logs := logs[p := Noted(logs[p], e, Able(procs, p, id, e, env))];
      if e.op == OP_NOP {
        PostCompletion(p, id, e.tag, 0);
      } else if e.op == OP_PRINT {
        var ok := IsUserRange(procs[p].ranges, e.arg0, e.arg1, false);
        PostCompletion(p, id, e.tag, if ok then 0 else ERR);
      } else if e.op == OP_READ {
        Read(p, id, e);
      } else if e.op == OP_SPAWN {
        Spawn(p, id, e, env);
      } else if e.op == OP_WAIT {
        Wait(p, id, e);
      } else {
        PostCompletion(p, id, e.tag, ERR);
      }
    }

    /** `drain`. */
    method DrainRing(p: nat, env: Env) returns (worked: bool)
      requires Ringed(View(), p) && !IsChild(procs, p, p)
      modifies this
      ensures View() == Drain(old(View()), p, env)
      ensures worked <==> !Empty(old(procs)[p].ring.value)
    {
      hide Process;
      var head, tail := procs[p].ring.value.sqHead, procs[p].ring.value.sqTail;
      worked := head != tail;
      while head != tail
        invariant Ringed(View(), p) && !IsChild(procs, p, p)
        invariant head == procs[p].ring.value.sqHead && tail == procs[p].ring.value.sqTail
        invariant Drain(old(View()), p, env) == Drain(View(), p, env)
        decreases Sub(tail, head)
      {
        ghost var s := View();
        ConsumeKept(s, p, env);
        TailKept(s, Consume(s, p, env), p, env);
        ProcessSqe(p, procs[p].ring.value.sq[Slot(head)], env);
        head := Inc(head);
        procs := procs[p := WithPage(procs[p], procs[p].ring.value.(sqHead := head))];
        assert View() == Consume(s, p, env);
      }
    }

    /** `schedule`. */
    method Schedule()
      requires current < |tasks|
      modifies this`current, this`live
      ensures View() == old(View()).(cpu := Switch(old(View()).cpu))
    {
      var next := Sched.PickNext(tasks, current);
      if next == current {
        return;
      }
      current := next;
      if tasks[next].root.Some? {
        live := tasks[next].root.value;
      }
    }

    method Wake(t: nat)
      requires t < |tasks|
      modifies this`tasks
      ensures View() == old(View()).(cpu := WokenTask(old(View()).cpu, t))
    {
      if tasks[t].state == Sched.Blocked {
        tasks := tasks[t := tasks[t].(state := Sched.Runnable)];
      }
    }

    /** `take_waiter` and `wake`. */
    method WakeWaiter(p: nat)
      requires p < |procs| && (procs[p].waiter.Some? ==> procs[p].waiter.value < |tasks|)
      modifies this`procs, this`tasks
      ensures View() == Notify(old(View()), p)
    {
      var waiter := procs[p].waiter;
      if waiter.Some? {
        procs := procs[p := procs[p].(waiter := None)];
        Wake(waiter.value);
      }
    }

    /** `block_current`. */
    method BlockCurrent()
      requires current < |tasks|
      modifies this`tasks, this`current, this`live
      ensures var cpu := old(View()).cpu;
        var tasks := Sched.SetState(cpu.tasks, cpu.current, Sched.Blocked, Sched.NEVER);
        View() == old(View()).(cpu := Switch(cpu.(tasks := tasks)))
    {
      hide Switch;
      tasks := Sched.SetState(tasks, current, Sched.Blocked, Sched.NEVER);
      Schedule();
    }

    /** One round of the loop in `enter`. */
    method CheckOrBlock(p: nat, min: nat)
      requires Ringed(View(), p) && current < |tasks|
      modifies this
      ensures View() == Check(old(View()), p, min)
    {
      var page := procs[p].ring.value;
      if Sub(page.cqTail, page.cqHead) >= min {
        enters := enters - {current};
        return;
      }
      procs := procs[p := procs[p].(waiter := Some(current))];
      enters := enters[current := min];
      BlockCurrent();
    }

    /** `enter`, up to its return or its first block. */
    method EnterRing(p: nat, min: nat, env: Env)
      requires Callable(View(), p)
      modifies this
      ensures View() == Enter(old(View()), p, min, env)
    {
      hide Drain;
      hide Check;
      ghost var s := View();
      var page := procs[p].ring.value;
      if page.flags % 2 == 1 {
        procs := procs[p := WithPage(procs[p], page.(flags := 0))];
        Wake(boot.poller);
      }
      assert View() == Roused(s, p);
      DrainEnds(Roused(s, p), p, env);
      var _ := DrainRing(p, env);
      CheckOrBlock(p, min);
    }

    /** `notify_exit`. */
    method NotifyParent(p: nat, code: int)
      requires p < |procs| && |logs| == |procs| && |clients| == |procs|
      requires procs[p].parent.Some?
        ==> procs[p].parent.value < |procs| && ParentReady(View(), p, procs[p].parent.value)
      modifies this
      ensures View() == NotifyExit(old(View()), p, code)
    {
      hide Post;
      hide Settled;
      var tag, parent := procs[p].exitWaiter, procs[p].parent;
      procs := procs[p := procs[p].(exitCode := Some(code), exitWaiter := None)];
      if tag.None? || parent.None? {
        return;
      }
      var q := parent.value;
      if procs[q].ring.Some? {
        PostCompletion(q, logs[p].asked, tag.value, code);
      }
      WakeWaiter(q);
    }

    /** `exit_current`. */
    method ExitCurrent()
      requires current < |tasks|
      modifies this`tasks, this`current, this`live
      ensures var cpu := old(View()).cpu;
        var tasks := Sched.SetState(cpu.tasks, cpu.current, Sched.Exited, cpu.tasks[cpu.current].wakeAt);
        View() == old(View()).(cpu := Switch(cpu.(tasks := tasks)))
    {
      hide Switch;
      tasks := Sched.SetState(tasks, current, Sched.Exited, tasks[current].wakeAt);
      Schedule();
    }

    /** The end of `teardown`. */
    method CloseSpace(p: nat, dead: nat, ranges: seq<Range>)
      requires p < |procs|
      modifies this`procs, this`live, this`freed, this`shared
      ensures View() == Closed(old(View()), p, dead, ranges)
    {
      hide LowPages;
      live := boot.kernelRoot;
      freed := freed + {dead};
      shared := shared - LowPages(ranges).Keys;
      procs := procs[p := procs[p].(ring := None, foreground := false)];
    }

    method Retire(p: nat, dead: nat, ranges: seq<Range>)
      requires p < |procs| && current < |tasks|
      modifies this
      ensures var s1 := Closed(old(View()), p, dead, ranges);
        var t := s1.cpu.current;
        var tasks := Sched.SetState(s1.cpu.tasks, t, Sched.Exited, s1.cpu.tasks[t].wakeAt);
        View() == s1.(cpu := Switch(s1.cpu.(tasks := tasks)))
    {
      hide Switch;
      hide Sched.SetState;
      CloseSpace(p, dead, ranges);
      assert current == old(current) && tasks == old(tasks);
      hide Closed;
      ExitCurrent();
    }

    /** `teardown` and `exit_current`. */
    method Teardown(p: nat, code: int)
      requires p < |procs| && |logs| == |procs| && |clients| == |procs| && current < |tasks|
      requires procs[p].parent.Some? ==> procs[p].parent.value < p && ParentReady(View(), p, procs[p].parent.value)
      modifies this
      ensures View() == Exit(old(View()), p, code)
    {
      hide NotifyExit;
      hide Switch;
      var dead, ranges := procs[p].root, procs[p].ranges;
      procs := procs[p := procs[p].(pending := NoReads(), waiter := None)];
      NotifySizes(View(), p, code);
      NotifyParent(p, code);
      Retire(p, dead, ranges);
    }

    /** `set_all_wakeup(true)`. */
    method RaiseAll()
      modifies this`procs
      ensures View() == old(View()).(procs := AllRaised(old(procs)))
    {
      var p := 0;
      while p < |procs|
        invariant p <= |procs| == |old(procs)|
        invariant forall q | 0 <= q < p :: procs[q] == SetFlag(old(procs)[q], true)
        invariant forall q | p <= q < |procs| :: procs[q] == old(procs)[q]
      {
        if procs[p].ring.Some? {
          procs := procs[p := WithPage(procs[p], procs[p].ring.value.(flags := 1))];
        }
        p := p + 1;
      }
      assert procs == AllRaised(old(procs));
    }

    /** `poll_pending`'s scan of the parked reads. */
    method ScanPending(p: nat) returns (completed: bool)
      requires Ringed(View(), p) && ReadsNoted(procs[p], logs[p])
      modifies this`procs, this`logs, this`input, this`rxOn, this`popped, this`given, this`halted
      ensures (View(), completed) == PollSlots(old(View()), p, 0)
    {
      hide Complete;
      completed := false;
      var i := 0;
      while i < 8
        invariant i <= 8 && Ringed(View(), p) && ReadsNoted(procs[p], logs[p])
        invariant PollSlots(old(View()), p, 0).0 == PollSlots(View(), p, i).0
        invariant PollSlots(old(View()), p, 0).1 == (completed || PollSlots(View(), p, i).1)
      {
        if procs[p].pending[i].Some? {
          ServeOne(p, i);
          completed := completed || procs[p].pending[i].None?;
        }
        i := i + 1;
      }
    }

    /** `poll_pending`: the copies run in the foreground space; the space found is put back. */
    method PollReads()
      requires |logs| == |procs| && |clients| == |procs| && forall p | 0 <= p < |procs| :: Pollable(View(), p)
      modifies this
      ensures View() == PollPending(old(View()))
    {
      hide PollSlots;
      var fg := ForegroundPid();
      if fg.None? || procs[fg.value].ring.None? {
        return;
      }
      var p, prev := fg.value, live;
      assert Pollable(View(), p);
      live := procs[p].root;
      PollSlotsKept(View(), p, 0);
      var completed := ScanPending(p);
      live := prev;
      if completed {
        WakeWaiter(p);
      }
    }

    /** `drain_uart`: byte by byte, until the device or the room is exhausted. */
    method TakeInput(bytes: seq<Byte>)
      requires |input| <= Input.CAPACITY
      modifies this`input, this`rxOn, this`taken
      ensures View() == old(View()).(console := Arrived(old(View()).console, bytes))
    {
      ghost var n := Input.Room(input, bytes);
      var i := 0;
      while true
        invariant i <= n && |old(input)| + i <= Input.CAPACITY
        invariant input == old(input) + bytes[..i] && taken == old(taken) + bytes[..i] && rxOn == old(rxOn)
        decreases n - i
      {
        if |input| == Input.CAPACITY {
          rxOn := false;
          return;
        }
        if i == |bytes| {
          return;
        }
        input := input + [bytes[i]];
        taken := taken + [bytes[i]];
        i := i + 1;
      }
    }

    /** The timer interrupt: `on_tick` and `tick`. */
    method TimerIrq()
      requires current < |tasks|
      modifies this
      ensures View() == Tick(old(View()))
    {
      hide Switch;
      ticks := ticks + 1;
      tasks := Sched.WakeDue(tasks, ticks);
      Schedule();
    }

    /** `setup`. */
    method SetupRing(p: nat)
      requires p < |procs| == |clients|
      modifies this`procs, this`clients
      ensures View() == Setup(old(View()), p)
    {
      if procs[p].ring.Some? {
        return;
      }
      procs := procs[p := WithPage(procs[p], ZeroPage())];
      clients := clients[p := NewClient()];
    }

    /** The re-scan: whether any ring has something to consume. */
    method AnyWork() returns (found: bool)
      requires |logs| == |procs| && |clients| == |procs|
      requires forall p | 0 <= p < |procs| && procs[p].ring.Some? :: Ringed(View(), p)
      ensures found <==> AnySubmissions(View())
    {
      var p := 0;
      while p < |procs|
        invariant p <= |procs| && forall q | 0 <= q < p :: !HasSubmissions(View(), q)
      {
        if procs[p].ring.Some? && procs[p].ring.value.sqHead != procs[p].ring.value.sqTail {
          assert HasSubmissions(View(), p);
          return true;
        }
        p := p + 1;
      }
      return false;
    }

    /** Raise, look once more, and `block_current` if there is nothing to do. */
    method GoToSleep()
      requires |logs| == |procs| && |clients| == |procs| && current < |tasks|
      requires forall p | 0 <= p < |procs| && procs[p].ring.Some? :: Ringed(View(), p)
      modifies this
      ensures View() == Sleep(old(View()))
    {
      hide Switch;
      ghost var s := View();
      RaiseAll();
      RaisedRings(s);
      var found := AnyWork();
      if found {
        poll := poll.(pc := Clear(0, |procs|));
        return;
      }
      clients := AllEarly(clients, procs);
      assert clients == AllEarly(s.clients, s.procs);
      poll := poll.(pc := Asleep);
      BlockCurrent();
    }

    /** One step of `sqpoll_main`. */
    method PollerStep(env: Env)
      requires PollOk(View()) && |logs| == |procs|
      requires forall p | 0 <= p < |procs| && procs[p].ring.Some? :: Ringed(View(), p)
      modifies this
      ensures View() == PollStep(old(View()), env)
    {
      hide Switch;
      hide Drain;
      hide Sleep;
      match poll.pc {
        case Top =>
          poll := poll.(pc := Scan(0, |procs|, false));
        case Scan(i, n, worked) =>
          if i == n {
            poll := poll.(pc := Decide(worked));
          } else if procs[i].ring.Some? && procs[i].ring.value.sqHead != procs[i].ring.value.sqTail {
            assert HasSubmissions(View(), i);
            live := procs[i].root;
            poll := poll.(pc := Scan(i + 1, n, true));
            var _ := DrainRing(i, env);
          } else {
            assert !HasSubmissions(View(), i);
            poll := poll.(pc := Scan(i + 1, n, worked));
          }
        case Decide(worked) =>
          if worked {
            poll := poll.(pc := Clear(0, |procs|));
          } else if ticks - poll.lastWork >= SQ_IDLE_TICKS {
            GoToSleep();
          } else {
            poll := poll.(pc := Top);
            Schedule();
          }
        case Clear(i, n) =>
          if i == n {
            poll := Poll(Top, ticks);
            Schedule();
          } else {
            procs := procs[i := SetFlag(procs[i], false)];
            poll := poll.(pc := Clear(i + 1, n));
          }
        case Asleep =>
          poll := poll.(pc := Clear(0, |procs|));
      }
    }

    /** One load or store of user code, through the library or not. */
    method UserStep(p: nat, v: Event)
      requires Ringed(View(), p) && OfClient(v) && Enabled(WireOf(View(), p), v)
      modifies this`procs, this`clients
      ensures View() == UserEvent(old(View()), p, v)
    {
      var c := clients[p];
      var w := Happen(Wire(procs[p].ring.value, c.at, c.published, logs[p].reqs, logs[p].posted, c.reaped), v);
      procs := procs[p := WithPage(procs[p], w.page)];
      clients := clients[p :=
        c.(at := w.at, published := w.published, reaped := w.reaped, unsubmitted := c.unsubmitted || v.Publish?,
           frugal := c.frugal && (v.Publish? ==> |c.published| < |c.reaped| + ENTRIES))];
    }

    /** A step of the running process: stores, system calls, exit. */
    method ProcessStep(a: Action)
      requires Machine.Inv(View()) && Enables(View(), a) && !(a.Yield? || a.Timer? || a.Uart? || a.Poller?)
      modifies this
      ensures Ready(old(View())) && View() == Next(old(View()), a)
    {
      hide Machine.Inv;
      hide Switch;
      hide Enter;
      hide Exit;
      hide Check;
      hide Happen;
      hide Enabled;
      hide Layout;
      AllReady(View());
      var p := current - boot.base;
      match a {
        case Store(v) => UserStep(p, v);
        case Scribble(page) =>
          procs := procs[p := WithPage(procs[p], page)];
          clients := clients[p := clients[p].(honest := false)];
        case CallSetup => SetupRing(p);
        case CallSubmit =>
          if procs[p].ring.value.flags % 2 == 0 {
            clients := clients[p := clients[p].(unsubmitted := false)];
          }
        case CallEnter(min, env) =>
          clients := clients[p := clients[p].(unsubmitted := false)];
          EnterRing(p, min, env);
        case Resume => CheckOrBlock(p, enters[current]);
        case Leave(code) => Teardown(p, code);
      }
    }

    /** Any step of any agent: the code computes the next state, and keeps the whole invariant.  If a
        store faulted on the way it stopped there, with the console as it is in that state. */
    method Step(a: Action)
      requires Machine.Inv(View()) && Enables(View(), a)
      modifies this
      ensures Ready(old(View())) && View() == Next(old(View()), a) && Machine.Inv(View())
      ensures !halted ==> View() == Machine.Onward(old(View()), a)
      ensures halted ==> View().console == Machine.Onward(old(View()), a).console
    {
      hide Machine.Inv;
      hide Switch;
      hide PollStep;
      hide UartIrq;
      hide Layout;
      Machine.NextInv(View(), a);
      AllReady(View());
      match a {
        case Yield => Schedule();
        case Timer => TimerIrq();
        case Uart(bytes) => UartInterrupt(bytes);
        case Poller(env) => PollerStep(env);
        case _ => ProcessStep(a);
      }
    }

    /** The UART interrupt. */
    method UartInterrupt(bytes: seq<Byte>)
      requires |input| <= Input.CAPACITY && |logs| == |procs| && |clients| == |procs|
      requires forall p | 0 <= p < |procs| :: Pollable(View(), p)
      modifies this
      ensures View() == UartIrq(old(View()), bytes)
    {
      hide PollPending;
      ghost var s := View();
      TakeInput(bytes);
      forall p | 0 <= p < |procs| ensures Pollable(View(), p) {
        assert Pollable(s, p);
      }
      PollReads();
    }

    method ServeOne(p: nat, i: nat)
      requires Ringed(View(), p) && i < 8 && procs[p].pending[i].Some? && ReadsNoted(procs[p], logs[p])
      modifies this`procs, this`logs, this`input, this`rxOn, this`popped, this`given, this`halted
      ensures Ringed(View(), p) && ReadsNoted(procs[p], logs[p])
      ensures PollSlots(old(View()), p, i).0 == PollSlots(View(), p, i + 1).0
      ensures PollSlots(old(View()), p, i).1 == (procs[p].pending[i].None? || PollSlots(View(), p, i + 1).1)
    {
      hide Deliver;
      var q := procs[p].pending[i].value;
      var count := DrainInput(p, logs[p].slots[i], q.buf, q.len);
      if count > 0 {
        PostCompletion(p, logs[p].slots[i], q.tag, count);
        procs := procs[p := procs[p].(pending := procs[p].pending[i := None])];
      }
    }
  }

  ghost predicate Pollable(s: State, p: nat)
    requires p < |s.procs| == |s.logs|
  {
    && (s.procs[p].ring.Some? ==> Ringed(s, p) && ReadsNoted(s.procs[p], s.logs[p]))
    && (s.procs[p].waiter.Some? ==> s.procs[p].waiter.value < |s.cpu.tasks|)
  }

  /** The parent of p can be told: its waiter is a task, and if it has a ring, the wait it
      registered is on record. */
  ghost predicate ParentReady(s: State, p: nat, q: nat)
    requires p < |s.procs| == |s.logs| && q < |s.procs|
  {
    && q != p && (s.procs[q].waiter.Some? ==> s.procs[q].waiter.value < |s.cpu.tasks|)
    && (s.procs[q].ring.Some? ==> Ringed(s, q))
    && (s.procs[q].ring.Some? && s.procs[p].exitWaiter.Some? ==> s.logs[p].asked < |s.logs[q].fate|)
  }

  /** In every reachable state the handlers' preconditions hold. */
  lemma HandlersReady(s: State, p: nat)
    requires Machine.Inv(s) && p < |s.procs|
    ensures |s.logs| == |s.procs| && |s.clients| == |s.procs| && !IsChild(s.procs, p, p)
    ensures s.boot.poller < |s.cpu.tasks| && s.cpu.current < |s.cpu.tasks|
    ensures s.procs[p].ring.Some? ==> Ringed(s, p)
    ensures Pollable(s, p)
    ensures s.procs[p].parent.Some? ==> s.procs[p].parent.value < p && ParentReady(s, p, s.procs[p].parent.value)
  {
    hide Fates.FateAt;
    assert ProcShape(s.procs[p], p) && WakeUps.WaiterOk(s, p) && Consoles.ReadsOk(s.procs[p], s.logs[p]);
    forall j | 0 <= j < 8 && s.procs[p].pending[j].Some?
      ensures s.procs[p].pending[j].value.buf + s.procs[p].pending[j].value.len < TWO64
        && s.logs[p].slots[j] < |s.logs[p].fate|
    {
      assert Consoles.ReadOk(s.procs[p], s.logs[p], j);
    }
    if s.procs[p].parent.Some? {
      var q := s.procs[p].parent.value;
      assert ProcShape(s.procs[q], q) && WakeUps.WaiterOk(s, q);
      if s.procs[q].ring.Some? {
        assert Fates.Ledger(s.procs, s.logs, q, -1);
        assert Fates.ChildAt(s.procs, s.logs, q, p, -1);
      }
    }
  }

  lemma AllReady(s: State)
    requires Machine.Inv(s)
    ensures Ready(s) && |s.logs| == |s.procs| && |s.clients| == |s.procs| && |s.cpu.tasks| == s.boot.base + |s.procs|
    ensures s.boot.poller < |s.cpu.tasks| && s.cpu.current < |s.cpu.tasks|
    ensures forall p | 0 <= p < |s.procs| :: Pollable(s, p) && !IsChild(s.procs, p, p)
    ensures forall p | 0 <= p < |s.procs| && s.procs[p].ring.Some? :: Ringed(s, p)
    ensures forall p | 0 <= p < |s.procs| && s.procs[p].parent.Some? ::
      s.procs[p].parent.value < p && ParentReady(s, p, s.procs[p].parent.value)
    ensures s.cpu.current == s.boot.poller ==> PollOk(s)
  {
    hide Machine.Inv;
    Machine.InvReady(s);
    forall p | 0 <= p < |s.procs|
      ensures Pollable(s, p) && !IsChild(s.procs, p, p)
      ensures s.procs[p].ring.Some? ==> Ringed(s, p)
      ensures s.procs[p].parent.Some? ==> s.procs[p].parent.value < p && ParentReady(s, p, s.procs[p].parent.value)
    {
      HandlersReady(s, p);
    }
  }

  lemma RaisedRings(s: State)
    requires |s.logs| == |s.procs| && |s.clients| == |s.procs|
    requires forall p | 0 <= p < |s.procs| && s.procs[p].ring.Some? :: Ringed(s, p)
    ensures var r := s.(procs := AllRaised(s.procs));
      forall p | 0 <= p < |r.procs| && r.procs[p].ring.Some? :: Ringed(r, p)
  {
    forall p | 0 <= p < |s.procs| && AllRaised(s.procs)[p].ring.Some?
      ensures Ringed(s.(procs := AllRaised(s.procs)), p)
    {
      assert Ringed(s, p);
    }
  }

  lemma NotifySizes(s: State, p: nat, code: int)
    requires |s.logs| == |s.procs| && |s.clients| == |s.procs| && p < |s.procs|
    ensures var r := NotifyExit(s, p, code);
      |r.procs| == |s.procs| && r.cpu.current == s.cpu.current && |r.cpu.tasks| == |s.cpu.tasks|
  {
  }

  /** Parked reads passed the gate and have their requests on record. */
  ghost predicate ReadsNoted(q: Proc, l: Log) {
    && |q.pending| == 8 && |l.slots| == 8
    && forall j | 0 <= j < 8 && q.pending[j].Some? ::
         q.pending[j].value.buf + q.pending[j].value.len < TWO64 && l.slots[j] < |l.fate|
  }
}
