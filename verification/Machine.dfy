/**
 The main results over every run of the system: any interleaving of system calls, interrupts,
 the poller, process exits and user stores, from boot on.
 */
module Machine {
  import opened Frames
  import opened Loader
  import opened Kernel
  import opened Steps
  import opened Layouts
  import opened Fates
  import opened Histories
  import Fifo
  import Handshake
  import Reads
  import Spaces
  import Consoles
  import WakeUps
  import Sched

  ghost predicate Inv(s: State) {
    && Shape(s) && WakeUps.WakeOk(s) && Spaces.SpaceOk(s) && Consoles.ConsoleOk(s)
    && LedgersOk(s) && Fifo.WiresOk(s) && Handshake.FlagsOk(s)
    && (!s.console.halted ==> Reads.AllFilled(s)) && s.procs != []
  }

  lemma InvReady(s: State)
    requires Inv(s)
    ensures Ready(s)
  {
    hide Layout;
    hide LedgersOk;
  }

  lemma NextInv(s: State, a: Action)
    requires Inv(s) && Enables(s, a)
    ensures Ready(s) && Inv(Next(s, a)) && Grows(s, Next(s, a))
  {
    assert !s.console.halted;
    hide Shape;
    hide WakeUps.WakeOk;
    hide Spaces.SpaceOk;
    hide Consoles.ConsoleOk;
    hide LedgersOk;
    hide Fifo.WiresOk;
    hide Handshake.FlagsOk;
    hide Reads.AllFilled;
    hide Next;
    hide Enables;
    hide Ready;
    InvReady(s);
    NextLayout(s, a);
    WakeUps.NextWake(s, a);
    Spaces.NextSpace(s, a);
    assert Consoles.OwnLive(s) by { HomeLive(s); }
    Consoles.NextConsole(s, a);
    NextLedgers(s, a);
    Fifo.NextWires(s, a);
    Handshake.NextFlags(s, a);
    Reads.NextFilled(s, a);
    NextGrows(s, a);
    assert |s.procs| <= |Next(s, a).procs|;
  }

  /** A step as it is seen from outside: a store that faults stops the machine, with the console as it
      is then and the rest as it was before the step. */
  ghost function Onward(s: State, a: Action): State
    requires Ready(s) && Enables(s, a)
  {
    var r := Next(s, a);
    if r.console.halted then s.(console := r.console) else r
  }

  lemma Stopped(s: State, r: State)
    requires Inv(s) && Consoles.ConsoleOk(r) && r.console.halted && Grows(s, r)
    ensures Inv(s.(console := r.console)) && Grows(s, s.(console := r.console))
  {
    hide Layout;
    hide LedgersOk;
    hide WakeUps.WakeOk;
    hide Spaces.SpaceOk;
    hide Consoles.ConsoleOk;
    hide Fifo.WiresOk;
    hide Handshake.FlagsOk;
    hide Grows;
    var u := s.(console := r.console);
    assert Shape(u) by { Relayout(s, u); }
    Sizes(s);
    WakeUps.SameWake(s, u);
    Spaces.SameSpace(s, u);
    SameLedgers(s, u);
    Fifo.SameWires(s, u);
    Handshake.SameFlags(s, u);
    StoppedConsole(s, r);
    InvShaped(s);
    SameGrows(s, u);
  }

  lemma Sizes(s: State)
    requires Layout(s)
    ensures |s.logs| == |s.procs| && |s.clients| == |s.procs|
  {}

  lemma StoppedConsole(s: State, r: State)
    requires Consoles.ConsoleOk(s) && Consoles.ConsoleOk(r) && r.console.halted && Grows(s, r) && s.procs != []
    ensures Consoles.ConsoleOk(s.(console := r.console))
  {
    hide Consoles.Lossless;
    hide LogGrows;
    assert ProcGrows(s.procs[0], r.procs[0]);
    assert Consoles.Home(r.procs) == Consoles.Home(s.procs) && Consoles.Keyboard(r.procs) == Consoles.Keyboard(s.procs);
  }

  /** Every step keeps the whole invariant and only adds to the history. */
  lemma OnwardInv(s: State, a: Action)
    requires Inv(s) && Enables(s, a)
    ensures Ready(s) && Inv(Onward(s, a)) && Grows(s, Onward(s, a))
  {
    hide Inv;
    hide Next;
    hide Enables;
    hide Ready;
    hide Grows;
    NextInv(s, a);
    var r := Next(s, a);
    if r.console.halted {
      InvConsole(r);
      Stopped(s, r);
    }
  }

  lemma InvConsole(s: State)
    requires Inv(s)
    ensures Consoles.ConsoleOk(s)
  {}

  lemma HomeLive(s: State)
    requires Spaces.SpaceOk(s)
    ensures Consoles.OwnLive(s)
  {}

  /** Boot: the idle task, the poller, other kernel tasks that run or have ended, and one
      foreground process. */
  ghost predicate Booted(s: State) {
    && |s.procs| == 1 && s.procs[0] == NewProc(s.procs[0].root, s.procs[0].ranges, None).(foreground := true)
    && s.procs[0].root != s.boot.kernelRoot
    && s.logs == [NewLog()] && s.clients == [NewClient()]
    && 1 <= s.boot.poller < s.boot.base && |s.cpu.tasks| == s.boot.base + 1
    && (forall t | 0 <= t < s.boot.base ::
          s.cpu.tasks[t].state != Sched.Blocked && s.cpu.tasks[t].process.None? && s.cpu.tasks[t].root.None?)
    && s.cpu.tasks[0].state == Sched.Runnable && s.cpu.tasks[s.boot.poller].state == Sched.Runnable
    && s.cpu.tasks[s.boot.base] == Sched.Task(Sched.Runnable, 0, Some(0), Some(s.procs[0].root))
    && s.cpu.current == 0 && s.cpu.live == s.boot.kernelRoot && s.cpu.freed == {} && s.cpu.enters == map[]
    && s.console == Console([], true, [], [], [], false) && s.poll.pc.Top?
    && Loaded(s.shared, s.procs[0].ranges)
  }

  /** The shared pages of a process are as its image has them. */
  ghost predicate Loaded(shared: map<nat, bool>, ranges: seq<Range>) {
    forall v | v in LowPages(ranges) :: v in shared && shared[v] == LowPages(ranges)[v]
  }

  lemma BootInv(s: State)
    requires Booted(s)
    ensures Inv(s)
  {
    NewLedger(s, 0);
    BootLayout(s);
    BootRest(s);
  }

  lemma BootLayout(s: State)
    requires Booted(s)
    ensures Shape(s)
  {
    forall t | 0 <= t < |s.cpu.tasks| ensures TaskShape(s, t) {
    }
  }

  lemma BootRest(s: State)
    requires Booted(s)
    ensures WakeUps.WakeOk(s) && Spaces.SpaceOk(s) && Consoles.ConsoleOk(s)
    ensures Fifo.WiresOk(s) && Handshake.FlagsOk(s) && Reads.AllFilled(s)
  {
    assert Consoles.Bytes([]) == [];
    assert Consoles.ReadsOk(s.procs[0], s.logs[0]);
    assert WakeUps.WaiterOk(s, 0) && WakeUps.RightlyAsleep(s, 0);
  }

  ghost predicate Runs(s: State, acts: seq<Action>)
    decreases |acts|
  {
    |acts| > 0 ==> Ready(s) && Enables(s, acts[0]) && Runs(Onward(s, acts[0]), acts[1..])
  }

  ghost function After(s: State, acts: seq<Action>): State
    requires Runs(s, acts)
    decreases |acts|
  {
    if acts == [] then s else After(Onward(s, acts[0]), acts[1..])
  }

  lemma {:induction false} RunInv(s: State, acts: seq<Action>)
    requires Inv(s) && Runs(s, acts)
    ensures Inv(After(s, acts)) && Grows(s, After(s, acts))
    decreases |acts|
  {
    hide Inv;
    hide Grows;
    hide Onward;
    hide Enables;
    hide Ready;
    if acts == [] {
      InvShaped(s);
      SameGrows(s, s);
    } else {
      OnwardInv(s, acts[0]);
      RunInv(Onward(s, acts[0]), acts[1..]);
      GrowsTrans(s, Onward(s, acts[0]), After(s, acts));
    }
  }

  lemma InvShaped(s: State)
    requires Inv(s)
    ensures LogsShaped(s)
  {
    hide LedgersOk;
    ShapedLogs(s);
  }

  /** A state that some run from some boot state leads to. */
  ghost predicate Reachable(s: State) {
    exists b, acts :: Booted(b) && Runs(b, acts) && s == After(b, acts)
  }

  lemma ReachableInv(s: State)
    requires Reachable(s)
    ensures Inv(s)
  {
    hide Inv;
    hide Booted;
    hide Runs;
    var b, acts :| Booted(b) && Runs(b, acts) && s == After(b, acts);
    BootInv(b);
    RunInv(b, acts);
  }

  lemma {:induction false} RunsExtend(s: State, acts: seq<Action>, a: Action)
    requires Runs(s, acts) && Ready(After(s, acts)) && Enables(After(s, acts), a)
    ensures Runs(s, acts + [a]) && After(s, acts + [a]) == Onward(After(s, acts), a)
    decreases |acts|
  {
    hide Onward;
    hide Enables;
    hide Ready;
    if acts == [] {
      assert [a][1..] == [];
      assert acts + [a] == [a];
    } else {
      RunsExtend(Onward(s, acts[0]), acts[1..], a);
      assert (acts + [a])[1..] == acts[1..] + [a];
    }
  }

  /** What a step leads to from a reachable state is reachable. */
  lemma ReachableNext(s: State, a: Action)
    requires Reachable(s) && Ready(s) && Enables(s, a)
    ensures Reachable(Onward(s, a))
  {
    hide Onward;
    hide Enables;
    hide Ready;
    hide Booted;
    hide Runs;
    hide After;
    var b, acts :| Booted(b) && Runs(b, acts) && s == After(b, acts);
    RunsExtend(b, acts, a);
  }

  lemma StepTo(s: State, a: Action)
    requires Reachable(s) && Enables(s, a)
    ensures Ready(s) && Reachable(Onward(s, a)) && (!Next(s, a).console.halted ==> Reachable(Next(s, a)))
  {
    hide Reachable;
    hide Next;
    hide Enables;
    hide Inv;
    ReachableInv(s);
    InvReady(s);
    ReachableNext(s, a);
  }

  lemma {:induction false} RunReachable(s: State, acts: seq<Action>)
    requires Reachable(s) && Runs(s, acts)
    ensures Reachable(After(s, acts))
    decreases |acts|
  {
    hide Reachable;
    hide Onward;
    hide Enables;
    hide Ready;
    if acts != [] {
      ReachableNext(s, acts[0]);
      RunReachable(Onward(s, acts[0]), acts[1..]);
    }
  }

  lemma ReachableBoot(s: State)
    requires Booted(s)
    ensures Reachable(s)
  {
    hide Booted;
    hide Onward;
    hide Enables;
    hide Ready;
    assert Runs(s, []) && After(s, []) == s;
  }
}
