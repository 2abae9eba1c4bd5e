/**
 The steps of the system: system calls, interrupts, the poller task, process exit and the
 stores of user code (kernel/src/ring.rs, kernel/src/sched.rs, kernel/src/user.rs,
 user/src/uring.rs).

 A step is what runs with interrupts masked, with two additions: the poller's
 check-activate-drain of one process, and its raise-rescan-block, are single steps.  A store
 that faults stops the machine in the middle of a step.
 */
module Steps {
  import opened Bits
  import opened Frames
  import opened Rings
  import opened Kernel
  import opened Draining
  import Sched
  import Input

  predicate FlagUp(page: Page) {
    page.flags % 2 == 1
  }

  /** `flags & NEED_WAKEUP != 0`. */
  lemma FlagIsBit(page: Page)
    ensures FlagUp(page) <==> And(page.flags, 1) != 0
  {
    AndOne(page.flags);
  }

  function SetPage(s: State, p: nat, page: Page): State
    requires p < |s.procs|
  {
    s.(procs := s.procs[p := WithPage(s.procs[p], page)])
  }

  // ---------------------------------------------------------------- enter

  /** The head of `enter`: a raised flag is lowered and the poller woken. */
  function Roused(s: State, p: nat): (r: State)
    requires Ringed(s, p) && s.boot.poller < |s.cpu.tasks|
    ensures Ringed(r, p)
  {
    if !FlagUp(s.procs[p].ring.value) then s
    else
      var s1 := SetPage(s, p, s.procs[p].ring.value.(flags := 0));
      s1.(cpu := WokenTask(s1.cpu, s.boot.poller))
  }

  /** One round of the loop of `enter`, for the running task t of process p: return, or
      `set_waiter` and `block_current`. */
  function Check(s: State, p: nat, min: nat): State
    requires Ringed(s, p) && s.cpu.current < |s.cpu.tasks|
  {
    var t := s.cpu.current;
    if Unreaped(s.procs[p].ring.value) >= min then s.(cpu := s.cpu.(enters := s.cpu.enters - {t}))
    else
      s.(procs := s.procs[p := s.procs[p].(waiter := Some(t))],
         cpu := Switch(s.cpu.(enters := s.cpu.enters[t := min],
                              tasks := Sched.SetState(s.cpu.tasks, t, Sched.Blocked, Sched.NEVER))))
  }

  ghost predicate Callable(s: State, p: nat) {
    && Ringed(s, p) && !IsChild(s.procs, p, p)
    && s.boot.poller < |s.cpu.tasks| && s.cpu.current < |s.cpu.tasks|
  }

  function Enter(s: State, p: nat, min: nat, env: Env): State
    requires Callable(s, p)
  {
    DrainEnds(Roused(s, p), p, env);
    Check(Drain(Roused(s, p), p, env), p, min)
  }

  // ---------------------------------------------------------------- exit

  /** `on_exit` and the rest of `notify_exit`. */
  function NotifyExit(s: State, p: nat, code: int): State
    requires |s.logs| == |s.procs| && |s.clients| == |s.procs| && p < |s.procs|
  {
    var me := s.procs[p];
    var s1 := s.(procs := s.procs[p := me.(exitCode := Some(code), exitWaiter := None)]);
    if me.exitWaiter.None? || me.parent.None? || me.parent.value >= |s.procs| then s1
    else
      var q := me.parent.value;
      var id := s.logs[p].asked;
      var s2 :=
        if Ringed(s1, q) && id < |s1.logs[q].fate| then Complete(s1, q, id, Cqe(me.exitWaiter.value, code)) else s1;
      Notify(s2, q)
  }

  /** `teardown` and `exit_current`, from a system call or a fault; the frames and tables are
      given back in the address-space model. */
  function Exit(s: State, p: nat, code: int): State
    requires |s.logs| == |s.procs| && |s.clients| == |s.procs| && p < |s.procs|
    requires s.cpu.current < |s.cpu.tasks|
  {
    var s1 := s.(procs := s.procs[p := s.procs[p].(pending := NoReads(), waiter := None)]);
    var s2 := NotifyExit(s1, p, code);
    var s3 := s2.(procs := s2.procs[p := s2.procs[p].(ring := None, foreground := false)],
                  cpu := s2.cpu.(live := s.boot.kernelRoot, freed := s2.cpu.freed + {s.procs[p].root}),
                  shared := s2.shared - LowPages(s.procs[p].ranges).Keys);
    var t := s.cpu.current;
    s3.(cpu := Switch(s3.cpu.(tasks := Sched.SetState(s3.cpu.tasks, t, Sched.Exited, s3.cpu.tasks[t].wakeAt))))
  }

  // ---------------------------------------------------------------- console interrupt

  /** `drain_uart`. */
  function Arrived(con: Console, bytes: seq<Byte>): Console
    requires |con.input| <= Input.CAPACITY
  {
    var n := Input.Room(con.input, bytes);
    con.(input := con.input + bytes[..n], taken := con.taken + bytes[..n],
         rxOn := con.rxOn && |con.input| + n < Input.CAPACITY)
  }

  /** The scan of `poll_pending` from slot i on, and whether it completed anything. */
  function PollSlots(s: State, p: nat, i: nat): (r: (State, bool))
    requires Ringed(s, p) && i <= 8
    ensures Ringed(r.0, p)
    decreases 8 - i
  {
    if i == 8 then (s, false)
    else if s.procs[p].pending[i].None? then PollSlots(s, p, i + 1)
    else
      var q := s.procs[p].pending[i].value;
      var (con, count) := Deliver(s.console, Facing(s, p), p, s.logs[p].slots[i], q.buf, q.len, 0);
      var s1 := s.(console := con);
      if count == 0 || s.logs[p].slots[i] >= |s.logs[p].fate| then PollSlots(s1, p, i + 1)
      else
        var s2 := Complete(s1, p, s.logs[p].slots[i], Cqe(q.tag, count));
        var s3 := s2.(procs := s2.procs[p := s2.procs[p].(pending := s2.procs[p].pending[i := None])]);
        (PollSlots(s3, p, i + 1).0, true)
  }

  /** `poll_pending`: the copy runs in the foreground space, which is put back afterwards. */
  function PollPending(s: State): State {
    var fg := Foreground(s.procs);
    if fg.None? || !Ringed(s, fg.value) then s
    else
      var p, prev := fg.value, s.cpu.live;
      var (s1, completed) := PollSlots(s.(cpu := s.cpu.(live := s.procs[p].root)), p, 0);
      var s2 := s1.(cpu := s1.cpu.(live := prev));
      if completed then Notify(s2, p) else s2
  }

  function UartIrq(s: State, bytes: seq<Byte>): State
    requires |s.console.input| <= Input.CAPACITY
  {
    PollPending(s.(console := Arrived(s.console, bytes)))
  }

  // ---------------------------------------------------------------- poller

  function SetFlag(q: Proc, up: bool): Proc {
    if q.ring.None? then q else WithPage(q, q.ring.value.(flags := if up then 1 else 0))
  }

  /** `set_all_wakeup(true)`. */
  function AllRaised(procs: seq<Proc>): (r: seq<Proc>)
    ensures |r| == |procs|
  {
    seq(|procs|, p requires 0 <= p < |procs| => SetFlag(procs[p], true))
  }

  ghost predicate AnySubmissions(s: State) {
    exists p :: 0 <= p < |s.procs| && HasSubmissions(s, p)
  }

  function AllEarly(clients: seq<Client>, procs: seq<Proc>): (r: seq<Client>)
    requires |clients| == |procs|
    ensures |r| == |clients|
  {
    seq(|clients|, p requires 0 <= p < |clients| => clients[p].(early := procs[p].ring.Some?))
  }

  /** Raise every flag, look once more, and sleep if there is still nothing to do. */
  ghost function Sleep(s: State): State
    requires |s.clients| == |s.procs| && s.cpu.current < |s.cpu.tasks|
  {
    var s1 := s.(procs := AllRaised(s.procs));
    if AnySubmissions(s1) then s1.(poll := s.poll.(pc := Clear(0, |s.procs|)))
    else
      var t := s.cpu.current;
      s1.(clients := AllEarly(s.clients, s.procs), poll := s.poll.(pc := Asleep),
          cpu := Switch(s.cpu.(tasks := Sched.SetState(s.cpu.tasks, t, Sched.Blocked, Sched.NEVER))))
  }

  function Yielded(s: State): State
    requires s.cpu.current < |s.cpu.tasks|
  {
    s.(cpu := Switch(s.cpu))
  }

  ghost predicate PollOk(s: State) {
    && |s.clients| == |s.procs| && s.cpu.current < |s.cpu.tasks|
    && (s.poll.pc.Scan? && s.poll.pc.i < s.poll.pc.n && HasSubmissions(s, s.poll.pc.i) ==>
          !IsChild(s.procs, s.poll.pc.i, s.poll.pc.i))
    && (s.poll.pc.Scan? || s.poll.pc.Clear? ==> s.poll.pc.i <= s.poll.pc.n <= |s.procs|)
  }

  /** One step of `sqpoll_main`. */
  ghost function PollStep(s: State, env: Env): State
    requires PollOk(s)
  {
    match s.poll.pc
    case Top => s.(poll := s.poll.(pc := Scan(0, |s.procs|, false)))
    case Scan(i, n, worked) =>
      if i == n then s.(poll := s.poll.(pc := Decide(worked)))
      else if HasSubmissions(s, i) then
        Drain(s.(cpu := s.cpu.(live := s.procs[i].root), poll := s.poll.(pc := Scan(i + 1, n, true))), i, env)
      else s.(poll := s.poll.(pc := Scan(i + 1, n, worked)))
    case Decide(worked) =>
      if worked then s.(poll := s.poll.(pc := Clear(0, |s.procs|)))
      else if s.cpu.ticks - s.poll.lastWork >= SQ_IDLE_TICKS then Sleep(s)
      else Yielded(s.(poll := s.poll.(pc := Top)))
    case Clear(i, n) =>
      if i == n then Yielded(s.(poll := Poll(Top, s.cpu.ticks)))
      else s.(procs := s.procs[i := SetFlag(s.procs[i], false)], poll := s.poll.(pc := Clear(i + 1, n)))
    case Asleep => s.(poll := s.poll.(pc := Clear(0, |s.procs|)))
  }

  // ---------------------------------------------------------------- user code

  /** `setup`: the first call maps a zeroed page. */
  function Setup(s: State, p: nat): State
    requires p < |s.procs| == |s.clients|
  {
    if s.procs[p].ring.Some? then s
    else SetPage(s, p, ZeroPage()).(clients := s.clients[p := NewClient()])
  }

  function WireOf(s: State, p: nat): Wire
    requires p < |s.procs| == |s.logs| && |s.clients| == |s.procs| && s.procs[p].ring.Some?
  {
    Wire(s.procs[p].ring.value, s.clients[p].at, s.clients[p].published, s.logs[p].reqs, s.logs[p].posted,
      s.clients[p].reaped)
  }

  predicate OfClient(v: Event) {
    !v.Take? && !v.Deposit?
  }

  /** One load or store of the user library. */
  function UserEvent(s: State, p: nat, v: Event): State
    requires Ringed(s, p) && OfClient(v) && Enabled(WireOf(s, p), v)
  {
    var w := Happen(WireOf(s, p), v);
    var c := s.clients[p];
    SetPage(s, p, w.page).(clients := s.clients[p :=
      c.(at := w.at, published := w.published, reaped := w.reaped, unsubmitted := c.unsubmitted || v.Publish?,
         frugal := c.frugal && (v.Publish? ==> |c.published| < |c.reaped| + ENTRIES))])
  }

  /** Any other code may store anything anywhere in the page. */
  function UserWrite(s: State, p: nat, page: Page): State
    requires p < |s.procs| == |s.clients|
  {
    SetPage(s, p, page).(clients := s.clients[p := s.clients[p].(honest := false)])
  }

  /** The load of the flag in `submit`: if it is down the submit is over, if it is up the library
      goes on to trap. */
  function LoadFlag(s: State, p: nat): State
    requires Ringed(s, p)
  {
    if FlagUp(s.procs[p].ring.value) then s else Submitted(s, p)
  }

  function Submitted(s: State, p: nat): State
    requires p < |s.clients|
  {
    s.(clients := s.clients[p := s.clients[p].(unsubmitted := false)])
  }

  /** The system call `enter`; whatever was published is submitted by it. */
  function Trap(s: State, p: nat, min: nat, env: Env): State
    requires Callable(s, p)
  {
    Enter(Submitted(s, p), p, min, env)
  }

  /** `submit` when nothing comes between the load and the trap. */
  function Submit(s: State, p: nat, env: Env): State
    requires Callable(s, p)
  {
    if FlagUp(s.procs[p].ring.value) then Trap(LoadFlag(s, p), p, 0, env) else LoadFlag(s, p)
  }

  // ---------------------------------------------------------------- all steps

  datatype Action =
    | Yield
    | Timer
    | Uart(bytes: seq<Byte>)
    | Poller(env: Env)
    | Store(v: Event)
    | Scribble(page: Page)
    | CallSetup
    | CallSubmit
    | CallEnter(min: nat, env: Env)
    | Resume
    | Leave(code: int)

  /** The roots handed out are not those of live processes, nor the kernel's. */
  ghost predicate EnvOk(s: State, env: Env) {
    && (forall q | |s.procs| <= q :: env.root(q) != s.boot.kernelRoot)
    && (forall p, q | 0 <= p < |s.procs| <= q && Alive(s.procs[p]) :: s.procs[p].root != env.root(q))
    && (forall q, u | |s.procs| <= q < u :: env.root(q) != env.root(u))
  }

  /** The running task is in user mode, in process p. */
  ghost predicate InUser(s: State, p: nat) {
    p < |s.procs| && s.cpu.current == s.boot.base + p && s.cpu.current !in s.cpu.enters
  }

  ghost function Pid(s: State): int {
    s.cpu.current - s.boot.base
  }

  ghost predicate Enables(s: State, a: Action) {
    && !s.console.halted
    && match a
       case Yield => s.cpu.current == 0
       case Timer => s.cpu.ticks + 1 < Sched.NEVER
       case Uart(bytes) => s.console.rxOn
       case Poller(env) => s.cpu.current == s.boot.poller && EnvOk(s, env)
       case Store(v) =>
         Pid(s) >= 0 && InUser(s, Pid(s)) && Ringed(s, Pid(s)) && OfClient(v) && Enabled(WireOf(s, Pid(s)), v)
       case Scribble(page) => Pid(s) >= 0 && InUser(s, Pid(s)) && Ringed(s, Pid(s)) && PageOk(page)
       case CallSetup => Pid(s) >= 0 && InUser(s, Pid(s))
       case CallSubmit => Pid(s) >= 0 && InUser(s, Pid(s)) && Ringed(s, Pid(s))
       case CallEnter(min, env) => Pid(s) >= 0 && InUser(s, Pid(s)) && Ringed(s, Pid(s)) && EnvOk(s, env)
       case Resume => Pid(s) >= 0 && s.cpu.current in s.cpu.enters && Ringed(s, Pid(s))
       case Leave(code) => Pid(s) >= 0 && InUser(s, Pid(s))
  }

  /** The part of the invariant that makes every step well defined. */
  ghost predicate Ready(s: State) {
    Shape(s) && |s.console.input| <= Input.CAPACITY
  }

  ghost function Next(s: State, a: Action): State
    requires Ready(s) && Enables(s, a)
  {
    match a
    case Yield => Yielded(s)
    case Timer => Tick(s)
    case Uart(bytes) => UartIrq(s, bytes)
    case Poller(env) => PollStep(s, env)
    case Store(v) => UserEvent(s, Pid(s), v)
    case Scribble(page) => UserWrite(s, Pid(s), page)
    case CallSetup => Setup(s, Pid(s))
    case CallSubmit => LoadFlag(s, Pid(s))
    case CallEnter(min, env) => Trap(s, Pid(s), min, env)
    case Resume => Check(s, Pid(s), s.cpu.enters[s.cpu.current])
    case Leave(code) => Exit(s, Pid(s), code)
  }
}
