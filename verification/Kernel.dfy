/**
 The kernel as a transition system: processes, their rings, the scheduler, the console and
 the submission poller (kernel/src/ring.rs, kernel/src/process.rs, kernel/src/user.rs).

 Handlers that run with interrupts masked are single functions of the state.  `logs` and
 `clients` are history: they record what happened and never influence a handler.
 */
module Kernel {
  import opened Bits
  import opened Frames
  import opened Loader
  import opened Gate
  import opened Rings
  import Sched
  import Input

  const SQ_IDLE_TICKS: nat := 5
  const ERR: int := -1

  const OP_NOP: nat := 0
  const OP_PRINT: nat := 1
  const OP_READ: nat := 2
  const OP_SPAWN: nat := 3
  const OP_WAIT: nat := 4

  // ---------------------------------------------------------------- state

  datatype Pending = Pending(buf: Word, len: Word, tag: Word)

  datatype Proc = Proc(
    root: nat, ranges: seq<Range>, ring: Option<Page>, pending: seq<Option<Pending>>,
    waiter: Option<nat>, foreground: bool, parent: Option<nat>,
    exitCode: Option<int>, exitWaiter: Option<Word>)

  /** What became of a consumed request: its completion is number k of those posted, or was
      dropped; it is parked in slot j; it waits for child c; a later wait took its place. */
  datatype Fate = Open | Posted(k: nat) | Dropped(result: int) | Parked(j: nat) | Waiting(c: nat) | Superseded

  /** The history of one process's requests, numbered in the order they were consumed.
      `able` says whether a request could be met then (`Able`); `origin` numbers the requests of the posted
      completions; `slots` and `asked` number those behind parked reads and a parent's wait. */
  datatype Log = Log(
    reqs: seq<Sqe>, able: seq<bool>, fate: seq<Fate>,
    posted: seq<Cqe>, origin: seq<nat>, slots: seq<nat>, asked: nat)

  /** The history of one process's client code.  `honest`: it only used the library's stores.
      `frugal`: it never had more than 16 requests published and not reaped.
      `unsubmitted`: it published since its last submit.  `early`: its ring was there when
      the poller last went to sleep. */
  datatype Client = Client(
    at: At, published: seq<Sqe>, reaped: seq<Cqe>,
    honest: bool, frugal: bool, unsubmitted: bool, early: bool)

  /** `enters`: the tasks inside the waiting loop of `enter`, with their `min_complete`.
      `freed`: the roots given back and not reused since. */
  datatype Cpu = Cpu(
    tasks: seq<Sched.Task>, current: nat, live: nat, freed: set<nat>, ticks: nat, enters: map<nat, nat>)

  /** A byte stored for request `id` of process `pid`, at an address of the space of `root`. */
  datatype Delivery = Delivery(pid: nat, id: nat, root: nat, addr: nat, byte: Byte)

  /** `taken`: all bytes ever taken from the UART; `popped`: all bytes ever taken out of the buffer;
      `given`: those that were stored, with the read request they were stored for; `halted`: a store
      faulted, which stops the machine. */
  datatype Console = Console(
    input: seq<Byte>, rxOn: bool, taken: seq<Byte>, popped: seq<Byte>, given: seq<Delivery>, halted: bool)

  /** Where the poller task is: at the top of its loop, scanning process i of n, deciding what
      to do, clearing the flag of process i of n, or in `block_current`. */
  datatype Pc = Top | Scan(i: nat, n: nat, worked: bool) | Decide(worked: bool) | Clear(i: nat, n: nat) | Asleep

  datatype Poll = Poll(pc: Pc, lastWork: nat)

  /** Boot-time facts: the poller's task, the first user task, the kernel's own root. */
  datatype Boot = Boot(poller: nat, base: nat, kernelRoot: nat)

  /** `shared`: the pages below the user window that images were loaded into, and whether EL0 may
      store to them. */
  datatype State = State(
    procs: seq<Proc>, logs: seq<Log>, clients: seq<Client>,
    cpu: Cpu, console: Console, poll: Poll, boot: Boot, shared: map<nat, bool>)

  /** What the rest of the kernel answers during one step: the image found under the name in
      request number `id`, and the root of the address space made for process `pid`. */
  datatype Env = Env(image: nat -> Option<seq<Range>>, root: nat -> nat)

  function NoReads(): (r: seq<Option<Pending>>)
    ensures |r| == 8 && forall j | 0 <= j < 8 :: r[j] == None
  {
    seq(8, _ => None)
  }

  function NewProc(root: nat, ranges: seq<Range>, parent: Option<nat>): Proc {
    Proc(root, ranges, None, NoReads(), None, false, parent, None, None)
  }

  function NewLog(): Log {
    Log([], [], [], [], [], seq(8, _ => 0), 0)
  }

  function NewClient(): Client {
    Client(Idle, [], [], true, true, false, false)
  }

  predicate Alive(q: Proc) {
    q.exitCode.None?
  }

  // ---------------------------------------------------------------- shape

  ghost predicate ProcShape(q: Proc, pid: nat) {
    && |q.pending| == 8
    && (q.ring.Some? ==> PageOk(q.ring.value))
    && (!Alive(q) ==> q.ring.None? && !q.foreground && q.waiter.None? && q.exitWaiter.None? && q.pending == NoReads())
    && (q.ring.None? ==> q.pending == NoReads())
    && (q.parent.Some? ==> q.parent.value < pid)
    && (q.foreground ==> pid == 0)
  }

  predicate LogShape(l: Log) {
    |l.able| == |l.fate| == |l.reqs| && |l.origin| == |l.posted| && |l.slots| == 8
  }

  /** Process p is hosted by task base + p; the tasks below are kernel tasks. */
  ghost predicate TaskShape(s: State, t: nat)
    requires t < |s.cpu.tasks|
  {
    var k := s.cpu.tasks[t];
    && (k.state == Sched.Blocked ==> k.wakeAt == Sched.NEVER)
    && if t < s.boot.base then
         && k.process.None? && k.root.None?
         && (k.state == Sched.Blocked ==> t == s.boot.poller && s.poll.pc.Asleep?)
       else
         && t - s.boot.base < |s.procs|
         && k.process == Some(t - s.boot.base) && k.root == Some(s.procs[t - s.boot.base].root)
         && (k.state == Sched.Exited <==> !Alive(s.procs[t - s.boot.base]))
  }

  ghost predicate Layout(s: State) {
    && |s.logs| == |s.procs| && |s.clients| == |s.procs|
    && |s.cpu.tasks| == s.boot.base + |s.procs|
    && 1 <= s.boot.poller < s.boot.base && s.cpu.current < |s.cpu.tasks|
    && s.cpu.tasks[0].state == Sched.Runnable
    && s.cpu.tasks[s.boot.poller].state != Sched.Exited
    && (forall p | 0 <= p < |s.procs| :: ProcShape(s.procs[p], p))
    && (forall p | 0 <= p < |s.logs| :: LogShape(s.logs[p]))
    && (forall t | 0 <= t < |s.cpu.tasks| :: TaskShape(s, t))
    && (forall t | t in s.cpu.enters :: s.boot.base <= t < |s.cpu.tasks| && s.cpu.tasks[t].state != Sched.Exited)
    && PcShape(s)
  }

  /** The running task is runnable. */
  ghost predicate Shape(s: State) {
    Layout(s) && s.cpu.tasks[s.cpu.current].state == Sched.Runnable
  }

  ghost predicate PcShape(s: State) {
    match s.poll.pc
    case Scan(i, n, _) => i <= n <= |s.procs|
    case Clear(i, n) => i <= n <= |s.procs|
    case _ => true
  }

  /** Process p is alive and has set up its ring. */
  predicate Ringed(s: State, p: nat) {
    && p < |s.procs| == |s.logs| && |s.clients| == |s.procs|
    && s.procs[p].ring.Some? && PageOk(s.procs[p].ring.value) && |s.procs[p].pending| == 8
    && LogShape(s.logs[p])
  }

  /** Answering a request neither consumes nor notes another. */
  ghost predicate Answered(s: State, r: State, p: nat)
    requires Ringed(s, p)
  {
    && Ringed(r, p) && r.procs[p].ring.value.sqHead == s.procs[p].ring.value.sqHead
    && r.logs[p].reqs == s.logs[p].reqs && r.logs[p].able == s.logs[p].able
  }

  // ---------------------------------------------------------------- completions

  function Settled(l: Log, id: nat, c: Cqe, full: bool): (r: Log)
    requires id < |l.fate|
    ensures LogShape(l) ==> LogShape(r)
  {
    if full then l.(fate := l.fate[id := Dropped(c.result)])
    else l.(fate := l.fate[id := Posted(|l.posted|)], posted := l.posted + [c], origin := l.origin + [id])
  }

  function WithPage(q: Proc, page: Page): Proc {
    q.(ring := Some(page))
  }

  /** `complete`, for request number id of process p. */
  function Complete(s: State, p: nat, id: nat, c: Cqe): (r: State)
    requires Ringed(s, p) && id < |s.logs[p].fate|
    ensures Answered(s, r, p)
  {
    var page := s.procs[p].ring.value;
    s.(procs := s.procs[p := WithPage(s.procs[p], Post(page, c))],
       logs := s.logs[p := Settled(s.logs[p], id, c, CqFull(page))])
  }

  // ---------------------------------------------------------------- console

  /** `input::pop` on a non-empty buffer. */
  function Popped(con: Console): Console
    requires con.input != []
  {
    con.(input := con.input[1..], rxOn := con.rxOn || |con.input| == Input.CAPACITY,
      popped := con.popped + [con.input[0]])
  }

  /** The pages below the user window that an image with these ranges is loaded into. */
  function LowPages(ranges: seq<Range>): map<nat, bool> {
    map v: nat | 0 <= v < WINDOW && LastRange(ranges, v) >= 0 :: ranges[LastRange(ranges, v)].writable
  }

  /** Where stores for a process end up: its `ranges` for the gate, and what the live `root` shows of
      the shared pages and of the image and the ring of the process whose root it is. */
  datatype Target = Target(
    ranges: seq<Range>, root: nat, shared: map<nat, bool>, image: Option<seq<Range>>, ring: bool)

  /** The live process, if any, whose root this is. */
  function HostFrom(procs: seq<Proc>, root: nat, i: nat): (h: Option<nat>)
    requires i <= |procs|
    ensures h.Some? ==> h.value < |procs| && Alive(procs[h.value]) && procs[h.value].root == root
    decreases |procs| - i
  {
    if i == |procs| then None
    else if Alive(procs[i]) && procs[i].root == root then Some(i)
    else HostFrom(procs, root, i + 1)
  }

  /** What the kernel faces when it stores for process p while `live` is installed. */
  function Face(procs: seq<Proc>, shared: map<nat, bool>, live: nat, p: nat): Target
    requires p < |procs|
  {
    var q := procs[p];
    if live == q.root then Target(q.ranges, q.root, shared, Some(q.ranges), q.ring.Some?)
    else
      match HostFrom(procs, live, 0)
      case None => Target(q.ranges, live, shared, None, false)
      case Some(h) => Target(q.ranges, live, shared, Some(procs[h].ranges), procs[h].ring.Some?)
  }

  function Facing(s: State, p: nat): Target
    requires p < |s.procs|
  {
    Face(s.procs, s.shared, s.cpu.live, p)
  }

  /** `STTRB` at address `a` succeeds: the address is translated and EL0 may store there. */
  predicate Lands(m: Target, a: nat) {
    && a < TWO48
    && if a / 4096 < WINDOW then a / 4096 in m.shared && m.shared[a / 4096]
       else m.image.Some? && PageWritable(m.image.value, m.ring, a / 4096)
  }

  /** `copy_to_user` stores a byte at `a`: the gate accepts it and the store does not fault. */
  predicate Takes(m: Target, a: nat) {
    Accepts(m.ranges, a, 1, true) && Lands(m, a)
  }

  function Landed(con: Console, m: Target, p: nat, id: nat, a: nat): Console
    requires con.input != []
  {
    Popped(con).(given := con.given + [Delivery(p, id, m.root, a, con.input[0])])
  }

  /** `drain_input`: byte by byte through `copy_to_user`; a byte it refuses is gone, and a store that
      faults stops the machine. */
  function Deliver(con: Console, m: Target, p: nat, id: nat, buf: nat, len: nat, count: nat): (Console, nat)
    requires count <= len
    decreases len - count
  {
    if count == len || con.input == [] || con.halted then (con, count)
    else if !Accepts(m.ranges, buf + count, 1, true) then (Popped(con), count)
    else if !Lands(m, buf + count) then (Popped(con).(halted := true), count)
    else Deliver(Landed(con, m, p, id, buf + count), m, p, id, buf, len, count + 1)
  }

  lemma DeliverOne(con: Console, m: Target, p: nat, id: nat, buf: nat, len: nat, count: nat)
    requires count <= len
    ensures count == len || con.input == [] || con.halted ==> Deliver(con, m, p, id, buf, len, count) == (con, count)
    ensures count < len && con.input != [] && !con.halted ==>
      Deliver(con, m, p, id, buf, len, count)
        == if !Accepts(m.ranges, buf + count, 1, true) then (Popped(con), count)
           else if !Lands(m, buf + count) then (Popped(con).(halted := true), count)
           else Deliver(Landed(con, m, p, id, buf + count), m, p, id, buf, len, count + 1)
  {}

  /** `foreground_pid`: the first process with the flag. */
  function ForegroundFrom(procs: seq<Proc>, i: nat): (r: Option<nat>)
    requires i <= |procs|
    ensures r.Some? ==> r.value < |procs| && procs[r.value].foreground
    ensures forall k | i <= k < (if r.Some? then r.value else |procs|) :: !procs[k].foreground
    decreases |procs| - i
  {
    if i == |procs| then None
    else if procs[i].foreground then Some(i)
    else ForegroundFrom(procs, i + 1)
  }

  function Foreground(procs: seq<Proc>): (r: Option<nat>)
    ensures r.Some? ==> r.value < |procs| && procs[r.value].foreground
    ensures forall k | 0 <= k < (if r.Some? then r.value else |procs|) :: !procs[k].foreground
  {
    ForegroundFrom(procs, 0)
  }

  // ---------------------------------------------------------------- requests

  function FreeSlotFrom(pending: seq<Option<Pending>>, j: nat): (r: Option<nat>)
    requires j <= |pending|
    ensures r.Some? ==> r.value < |pending| && pending[r.value].None?
    ensures forall i | j <= i < (if r.Some? then r.value else |pending|) :: pending[i].Some?
    decreases |pending| - j
  {
    if j == |pending| then None else if pending[j].None? then Some(j) else FreeSlotFrom(pending, j + 1)
  }

  /** Entering the request in the log, undecided. */
  function Noted(l: Log, e: Sqe, able: bool): (r: Log)
    ensures LogShape(l) ==> LogShape(r)
  {
    l.(reqs := l.reqs + [e], able := l.able + [able], fate := l.fate + [Open])
  }

  /** `park_read`, or the error completion when the table is full. */
  function Park(s: State, p: nat, id: nat, q: Pending): (r: State)
    requires Ringed(s, p) && id < |s.logs[p].fate|
    ensures Answered(s, r, p)
  {
    var slot := FreeSlotFrom(s.procs[p].pending, 0);
    if slot.None? then Complete(s, p, id, Cqe(q.tag, ERR))
    else
      var j := slot.value;
      s.(procs := s.procs[p := s.procs[p].(pending := s.procs[p].pending[j := Some(q)])],
         logs := s.logs[p := s.logs[p].(slots := s.logs[p].slots[j := id], fate := s.logs[p].fate[id := Parked(j)])])
  }

  function ReadOp(s: State, p: nat, id: nat, e: Sqe): (r: State)
    requires Ringed(s, p) && id < |s.logs[p].fate|
    ensures Answered(s, r, p)
  {
    if !Accepts(s.procs[p].ranges, e.arg0, e.arg1, true) then Complete(s, p, id, Cqe(e.tag, ERR))
    else if e.arg1 == 0 then Complete(s, p, id, Cqe(e.tag, 0))
    else
      var (con, count) :=
        if Foreground(s.procs) == Some(p) then Deliver(s.console, Facing(s, p), p, id, e.arg0, e.arg1, 0)
        else (s.console, 0);
      if count > 0 then Complete(s.(console := con), p, id, Cqe(e.tag, count))
      else Park(s.(console := con), p, id, Pending(e.arg0, e.arg1, e.tag))
  }

  /** `new_address_space`, `create`, `set_parent` and `spawn_user`: the loader's part is in
      the address-space model. */
  function Born(s: State, p: nat, root: nat, ranges: seq<Range>): State {
    var child := |s.procs|;
    s.(procs := s.procs + [NewProc(root, ranges, Some(p))], logs := s.logs + [NewLog()],
       clients := s.clients + [NewClient()],
       cpu := s.cpu.(tasks := s.cpu.tasks + [Sched.Task(Sched.Runnable, 0, Some(child), Some(root))],
                     freed := s.cpu.freed - {root}),
       shared := s.shared + LowPages(ranges))
  }

  function SpawnOp(s: State, p: nat, id: nat, e: Sqe, env: Env): (r: State)
    requires Ringed(s, p) && id < |s.logs[p].fate|
    ensures Answered(s, r, p)
  {
    if !Accepts(s.procs[p].ranges, e.arg0, e.arg1, false) || env.image(id).None? then
      Complete(s, p, id, Cqe(e.tag, ERR))
    else
      Complete(Born(s, p, env.root(|s.procs|), env.image(id).value), p, id, Cqe(e.tag, |s.procs|))
  }

  predicate IsChild(procs: seq<Proc>, p: nat, h: nat) {
    h < |procs| && procs[h].parent == Some(p)
  }

  /** `register_wait`: the tag of an earlier wait on the same child is overwritten. */
  function Register(s: State, p: nat, id: nat, h: nat, tag: Word): State
    requires Ringed(s, p) && h < |s.procs| && h != p && id < |s.logs[p].fate|
  {
    var l, last := s.logs[p], s.logs[h].asked;
    var fate := if s.procs[h].exitWaiter.Some? && last < |l.fate| then l.fate[last := Superseded] else l.fate;
    s.(procs := s.procs[h := s.procs[h].(exitWaiter := Some(tag))],
       logs := s.logs[p := l.(fate := fate[id := Waiting(h)])][h := s.logs[h].(asked := id)])
  }

  function WaitOp(s: State, p: nat, id: nat, e: Sqe): (r: State)
    requires Ringed(s, p) && id < |s.logs[p].fate| && !IsChild(s.procs, p, p)
    ensures Answered(s, r, p)
  {
    var h := e.arg0;
    if !IsChild(s.procs, p, h) then Complete(s, p, id, Cqe(e.tag, ERR))
    else if s.procs[h].exitCode.Some? then Complete(s, p, id, Cqe(e.tag, s.procs[h].exitCode.value))
    else Register(s, p, id, h, e.tag)
  }

  /** Whether the request could be met as things stood when it was consumed: a read found a free slot to
      wait in, a spawn found an image under a name it may read, a wait named a child. */
  predicate Able(procs: seq<Proc>, p: nat, id: nat, e: Sqe, env: Env)
    requires p < |procs|
  {
    if e.op == OP_READ then exists j :: 0 <= j < |procs[p].pending| && procs[p].pending[j].None?
    else if e.op == OP_SPAWN then Accepts(procs[p].ranges, e.arg0, e.arg1, false) && env.image(id).Some?
    else e.op == OP_WAIT && IsChild(procs, p, e.arg0)
  }

  /** `process_sqe`. */
  function Process(s: State, p: nat, e: Sqe, env: Env): (r: State)
    requires Ringed(s, p) && !IsChild(s.procs, p, p)
    ensures Ringed(r, p) && r.procs[p].ring.value.sqHead == s.procs[p].ring.value.sqHead
    ensures r.logs[p].reqs == s.logs[p].reqs + [e]
  {
    var id := |s.logs[p].reqs|;
    var able := Able(s.procs, p, id, e, env);
    var s1 := s.(logs := s.logs[p := Noted(s.logs[p], e, able)]);
    if e.op == OP_NOP then Complete(s1, p, id, Cqe(e.tag, 0))
    else if e.op == OP_PRINT then
      Complete(s1, p, id, Cqe(e.tag, if Accepts(s.procs[p].ranges, e.arg0, e.arg1, false) then 0 else ERR))
    else if e.op == OP_READ then ReadOp(s1, p, id, e)
    else if e.op == OP_SPAWN then SpawnOp(s1, p, id, e, env)
    else if e.op == OP_WAIT then WaitOp(s1, p, id, e)
    else Complete(s1, p, id, Cqe(e.tag, ERR))
  }

  predicate HasSubmissions(s: State, p: nat) {
    Ringed(s, p) && !Empty(s.procs[p].ring.value)
  }

  /** One turn of the loop in `drain`. */
  function Consume(s: State, p: nat, env: Env): (r: State)
    requires Ringed(s, p) && !IsChild(s.procs, p, p)
    ensures Ringed(r, p) && r.logs[p].reqs == s.logs[p].reqs + [NextSqe(s.procs[p].ring.value)]
  {
    var s1 := Process(s, p, NextSqe(s.procs[p].ring.value), env);
    s1.(procs := s1.procs[p := WithPage(s1.procs[p], Took(s1.procs[p].ring.value))])
  }

  // ---------------------------------------------------------------- scheduling

  /** `schedule`: installs the address space of the task it switches to, if it has one. */
  function Switch(cpu: Cpu): (r: Cpu)
    requires cpu.current < |cpu.tasks|
    ensures r.tasks == cpu.tasks && r.ticks == cpu.ticks && r.enters == cpu.enters && r.freed == cpu.freed
    ensures r.current == Sched.Pick(cpu.tasks, cpu.current)
  {
    var next := Sched.Pick(cpu.tasks, cpu.current);
    if next == cpu.current then cpu
    else cpu.(current := next, live := if cpu.tasks[next].root.Some? then cpu.tasks[next].root.value else cpu.live)
  }

  function WokenTask(cpu: Cpu, t: nat): Cpu
    requires t < |cpu.tasks|
  {
    cpu.(tasks := Sched.Woken(cpu.tasks, t))
  }

  /** `take_waiter` and `wake`. */
  function Notify(s: State, p: nat): State
    requires p < |s.procs|
  {
    if s.procs[p].waiter.None? || s.procs[p].waiter.value >= |s.cpu.tasks| then s
    else s.(procs := s.procs[p := s.procs[p].(waiter := None)], cpu := WokenTask(s.cpu, s.procs[p].waiter.value))
  }

  function Tick(s: State): State
    requires s.cpu.current < |s.cpu.tasks|
  {
    var now := s.cpu.ticks + 1;
    s.(cpu := Switch(s.cpu.(ticks := now, tasks := Sched.SleepersWoken(s.cpu.tasks, now))))
  }
}
