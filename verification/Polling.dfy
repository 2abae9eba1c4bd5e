/**
 What the submission poller does with its turns (kernel/src/ring.rs, `sqpoll_main`): a round leaves every
 queue empty and every flag down, and it goes to sleep exactly when it has been idle and nothing waits.
 */
module Polling {
  import opened Bits
  import opened Frames
  import opened Rings
  import opened Kernel
  import opened Draining
  import opened Steps
  import opened Layouts
  import opened Machine
  import opened Exits
  import opened Entering
  import Handshake
  import Sched

  /** The requests that the page held between its indices have been consumed, in order. */
  ghost predicate Consumed(page: Page, before: seq<Sqe>, after: seq<Sqe>)
    requires PageOk(page)
  {
    && before <= after && |after| == |before| + Sub(page.sqTail, page.sqHead)
    && forall k | |before| <= k < |after| :: after[k] == page.sq[(page.sqHead + k - |before|) % 16]
  }

  /** Process q has its page and its requests as before. */
  ghost predicate Untouched(s: State, r: State, q: nat) {
    && q < |s.procs| == |s.logs| && q < |r.procs| == |r.logs|
    && r.procs[q].ring == s.procs[q].ring && r.logs[q].reqs == s.logs[q].reqs
  }

  /** The queue of process q has been emptied, and all that was in it was consumed. */
  ghost predicate Emptied(s: State, r: State, q: nat) {
    && q < |s.procs| == |s.logs| && q < |r.procs| == |r.logs|
    && s.procs[q].ring.Some? && PageOk(s.procs[q].ring.value)
    && r.procs[q].ring.Some? && Empty(r.procs[q].ring.value)
    && Consumed(s.procs[q].ring.value, s.logs[q].reqs, r.logs[q].reqs)
  }

  /** Something waits in the submission queue of process p. */
  ghost predicate HasWork(s: State, p: nat) {
    p < |s.procs| && s.procs[p].ring.Some? && !Empty(s.procs[p].ring.value)
  }

  lemma WorkIsSubmissions(s: State, p: nat)
    requires Layout(s)
    ensures HasWork(s, p) <==> HasSubmissions(s, p)
  {
    if p < |s.procs| { assert ProcShape(s.procs[p], p) && LogShape(s.logs[p]); }
  }

  /** Draining process i, in its own space. */
  lemma DrainServes(s: State, i: nat, env: Env)
    requires Ringed(s, i) && !IsChild(s.procs, i, i)
    ensures var r := Drain(s, i, env);
      && Emptied(s, r, i) && r.poll == s.poll && r.cpu.current == s.cpu.current && r.boot == s.boot
      && r.cpu.live == s.cpu.live && r.cpu.ticks == s.cpu.ticks && |s.procs| <= |r.procs|
      && forall q | 0 <= q < |s.procs| && q != i :: Untouched(s, r, q)
  {
    hide Drain;
    DrainEnds(s, i, env);
    DrainReads(s, i, env);
  }

  ghost predicate ScanStep(s: State, r: State)
    requires s.poll.pc.Scan?
  {
    var i, n := s.poll.pc.i, s.poll.pc.n;
    && r.poll == s.poll.(pc := Scan(i + 1, n, s.poll.pc.worked || HasWork(s, i)))
    && r.cpu.current == s.cpu.current && r.boot == s.boot && i < n <= |s.procs| <= |r.procs|
    && (if HasWork(s, i) then Emptied(s, r, i) && r.cpu.live == s.procs[i].root else r == s.(poll := r.poll))
    && forall q | 0 <= q < |s.procs| && q != i :: Untouched(s, r, q)
  }

  lemma DrainStep(s: State, env: Env)
    requires Shape(s) && s.cpu.current == s.boot.poller && s.poll.pc.Scan? && s.poll.pc.i < s.poll.pc.n
    requires s.poll.pc.n <= |s.procs| && HasWork(s, s.poll.pc.i) && PollOk(s)
    ensures ScanStep(s, PollStep(s, env))
  {
    var i := s.poll.pc.i;
    WorkIsSubmissions(s, i);
    Basics(s);
    hide Layout;
    hide Drain;
    hide Emptied;
    var s2 := s.(cpu := s.cpu.(live := s.procs[i].root), poll := s.poll.(pc := Scan(i + 1, s.poll.pc.n, true)));
    DrainServes(s2, i, env);
    var r := Drain(s2, i, env);
    SameEmptied(s, s2, r, i);
    hide Untouched;
    forall q | 0 <= q < |s.procs| && q != i ensures Untouched(s, r, q) {
      SameUntouched(s, s2, r, q);
    }
  }

  lemma PassStep(s: State, env: Env)
    requires Shape(s) && s.poll.pc.Scan? && s.poll.pc.i < s.poll.pc.n
    requires s.poll.pc.n <= |s.procs| && !HasWork(s, s.poll.pc.i) && PollOk(s)
    ensures ScanStep(s, PollStep(s, env))
  {
    WorkIsSubmissions(s, s.poll.pc.i);
    Basics(s);
    hide Layout;
  }

  lemma SameEmptied(s: State, s2: State, r: State, i: nat)
    requires s2.procs == s.procs && s2.logs == s.logs && Emptied(s2, r, i)
    ensures Emptied(s, r, i)
  {}

  lemma SameUntouched(s: State, s2: State, r: State, i: nat)
    requires s2.procs == s.procs && s2.logs == s.logs && Untouched(s2, r, i)
    ensures Untouched(s, r, i)
  {}

  /** One turn of the scan: the process has its queue emptied, in its own space, if there is something in
      it, and then the round counts as worked; nothing else happens. */
  lemma PollerServes(s: State, env: Env)
    requires Reachable(s) && Enables(s, Poller(env)) && s.poll.pc.Scan? && s.poll.pc.i < s.poll.pc.n
    ensures Ready(s) && ScanStep(s, Next(s, Poller(env)))
  {
    hide Reachable;
    hide Inv;
    hide ScanStep;
    ReachableInv(s);
    InvReady(s);
    InvShape(s);
    PollerLayout(s, env);
    PcOf(s);
    hide Layout;
    if HasWork(s, s.poll.pc.i) { DrainStep(s, env); } else { PassStep(s, env); }
  }

  // ---------------------------------------------------------------- a round

  /** The first i processes of those there were at the start of the round have been served. */
  ghost predicate Swept(s0: State, s: State, i: nat) {
    && i <= |s0.procs| <= |s.procs| && |s0.logs| == |s0.procs| && |s.logs| == |s.procs|
    && s.cpu.current == s.boot.poller
    && s.poll.pc == Scan(i, |s0.procs|, exists p :: 0 <= p < i && HasWork(s0, p))
    && (forall p | 0 <= p < i :: Served(s0, s, p))
    && (forall p | i <= p < |s0.procs| :: Untouched(s0, s, p))
  }

  ghost predicate Served(s0: State, s: State, p: nat) {
    if HasWork(s0, p) then Emptied(s0, s, p) else Untouched(s0, s, p)
  }

  ghost predicate AllPolls(acts: seq<Action>) {
    forall a | a in acts :: a.Poller?
  }

  lemma SweepOne(s0: State, s: State, env: Env)
    requires Reachable(s) && Enables(s, Poller(env)) && s.poll.pc.Scan?
    requires Swept(s0, s, s.poll.pc.i) && s.poll.pc.i < |s0.procs|
    ensures Ready(s) && Swept(s0, Next(s, Poller(env)), s.poll.pc.i + 1)
  {
    hide Reachable;
    hide Next;
    hide Enables;
    hide Emptied;
    hide Ready;
    PollerServes(s, env);
    StepSizes(s, Poller(env));
    SweptOne(s0, s, Next(s, Poller(env)));
  }

  lemma StepSizes(s: State, a: Action)
    requires Reachable(s) && Enables(s, a)
    ensures Ready(s) && |Next(s, a).logs| == |Next(s, a).procs|
  {
    hide Reachable;
    hide Inv;
    hide Next;
    hide Enables;
    ReachableInv(s);
    NextInv(s, a);
    InvShape(Next(s, a));
  }

  lemma SweptOne(s0: State, s: State, r: State)
    requires s.poll.pc.Scan? && Swept(s0, s, s.poll.pc.i) && s.poll.pc.i < |s0.procs| && ScanStep(s, r)
    requires |r.logs| == |r.procs|
    ensures Swept(s0, r, s.poll.pc.i + 1)
  {
    hide Emptied;
    var i := s.poll.pc.i;
    assert Untouched(s0, s, i);
    assert HasWork(s, i) == HasWork(s0, i);
    forall p | 0 <= p < i + 1 ensures Served(s0, r, p) {
      if p < i {
        assert Served(s0, s, p) && Untouched(s, r, p);
        StillServed(s0, s, r, p);
      } else {
        ThenServed(s0, s, r, p);
      }
    }
    forall p | i + 1 <= p < |s0.procs| ensures Untouched(s0, r, p) {
      assert Untouched(s0, s, p) && Untouched(s, r, p);
    }
    assert (exists p :: 0 <= p < i + 1 && HasWork(s0, p)) == s.poll.pc.worked || HasWork(s0, i);
  }

  lemma StillServed(s0: State, s: State, r: State, p: nat)
    requires Served(s0, s, p) && Untouched(s, r, p)
    ensures Served(s0, r, p)
  {}

  lemma ThenServed(s0: State, s: State, r: State, p: nat)
    requires Untouched(s0, s, p) && HasWork(s, p) == HasWork(s0, p)
    requires if HasWork(s, p) then Emptied(s, r, p) else r == s.(poll := r.poll)
    ensures Served(s0, r, p)
  {}

  lemma {:induction false} Sweeps(s0: State, s: State, acts: seq<Action>, i: nat)
    requires Reachable(s) && Runs(s, acts) && AllPolls(acts) && Swept(s0, s, i) && |acts| == |s0.procs| - i
    ensures !After(s, acts).console.halted ==> Swept(s0, After(s, acts), |s0.procs|)
    decreases |acts|
  {
    hide Reachable;
    hide Next;
    hide Ready;
    hide Swept;
    if acts != [] {
      assert acts[0] in acts;
      SweptAt(s0, s, i);
      SweepOne(s0, s, acts[0].env);
      ReachableNext(s, acts[0]);
      var r := Onward(s, acts[0]);
      if !r.console.halted {
        assert AllPolls(acts[1..]);
        Sweeps(s0, r, acts[1..], i + 1);
      } else {
        NoMore(r, acts[1..]);
      }
    }
  }

  lemma SweptAt(s0: State, s: State, i: nat)
    requires Swept(s0, s, i)
    ensures s.poll.pc.Scan? && s.poll.pc.i == i <= |s0.procs|
  {}

  /** Once the machine has stopped, nothing follows. */
  lemma NoMore(s: State, acts: seq<Action>)
    requires Runs(s, acts) && s.console.halted
    ensures acts == [] && After(s, acts) == s
  {}

  /** A round: from the top of its loop, if the poller is left running for one turn per process, every
      queue that held something then is empty, all that was in it was consumed in order, and the round
      counts as worked exactly if there was something. */
  lemma PollerRound(s: State, acts: seq<Action>)
    requires Reachable(s) && s.poll.pc.Top? && Runs(s, acts) && AllPolls(acts) && |acts| == |s.procs| + 1
    ensures var r := After(s, acts);
      !r.console.halted ==>
        && |s.logs| == |s.procs| <= |r.procs| == |r.logs|
        && r.poll.pc == Scan(|s.procs|, |s.procs|, exists p :: 0 <= p < |s.procs| && HasWork(s, p))
        && forall p | 0 <= p < |s.procs| ::
             && !HasWork(r, p)
             && (HasWork(s, p) ==> Emptied(s, r, p))
             && (!HasWork(s, p) ==> Untouched(s, r, p))
  {
    hide Reachable;
    hide Inv;
    ReachableInv(s);
    InvShape(s);
    Basics(s);
    hide Layout;
    assert acts[0] in acts;
    var s1 := Onward(s, acts[0]);
    ReachableNext(s, acts[0]);
    assert s1 == s.(poll := s.poll.(pc := Scan(0, |s.procs|, false)));
    assert Swept(s, s1, 0);
    assert AllPolls(acts[1..]);
    Sweeps(s, s1, acts[1..], 0);
    hide Next;
    hide Emptied;
    var r := After(s, acts);
    assert r == After(s1, acts[1..]);
    if !r.console.halted {
      forall p | 0 <= p < |s.procs|
        ensures !HasWork(r, p) && (HasWork(s, p) ==> Emptied(s, r, p)) && (!HasWork(s, p) ==> Untouched(s, r, p))
      {
        assert Served(s, r, p);
        ServedIsEmpty(s, r, p);
      }
    }
  }

  lemma ServedIsEmpty(s: State, r: State, p: nat)
    requires p < |s.procs| && Served(s, r, p)
    ensures !HasWork(r, p)
  {}

  // ---------------------------------------------------------------- sleeping and waking

  /** Process p is as before, but for the flag of its ring. */
  ghost predicate Flagged(s: State, r: State, p: nat, flag: nat) {
    && p < |s.procs| && p < |r.procs| && flag < TWO32
    && r.procs[p] == if s.procs[p].ring.None? then s.procs[p]
                     else WithPage(s.procs[p], s.procs[p].ring.value.(flags := flag))
  }

  /** The poller goes to sleep if and only if it has had nothing to do for five ticks and, with all flags
      raised, still nothing waits; if something does it lowers them again.  Having worked it lowers the
      flags, and having idled for less it lets others run and starts over. */
  lemma PollerDecides(s: State, env: Env)
    requires Reachable(s) && Enables(s, Poller(env)) && s.poll.pc.Decide?
    ensures Ready(s)
    ensures var r, idle := Next(s, Poller(env)), s.cpu.ticks - s.poll.lastWork >= SQ_IDLE_TICKS;
      && (Handshake.PollerSleeps(r) <==> !s.poll.pc.worked && idle && forall p | 0 <= p < |s.procs| :: !HasWork(s, p))
      && (if Handshake.PollerSleeps(r) then r.poll.pc == Asleep && r.cpu.current != s.boot.poller
          else if !s.poll.pc.worked && !idle then
            r.poll.pc == Top && r.cpu.current == Sched.Pick(s.cpu.tasks, s.cpu.current)
          else r.poll.pc == Clear(0, |s.procs|) && r.cpu == s.cpu)
      && r.poll.lastWork == s.poll.lastWork && |r.procs| == |s.procs|
      && forall p | 0 <= p < |s.procs| ::
           if !s.poll.pc.worked && idle then Flagged(s, r, p, 1) else r.procs[p] == s.procs[p]
  {
    hide Reachable;
    hide Inv;
    ReachableInv(s);
    InvReady(s);
    InvShape(s);
    StepShape(s, Poller(env));
    Runnable(s);
    var s1 := s.(procs := AllRaised(s.procs));
    assert AnySubmissions(s1) == exists p :: 0 <= p < |s.procs| && HasWork(s, p) by { RaisedWork(s); }
    Basics(s);
    hide Layout;
    hide AnySubmissions;
    hide Switch;
    hide HasWork;
  }

  lemma RaisedWork(s: State)
    requires Shape(s)
    ensures AnySubmissions(s.(procs := AllRaised(s.procs))) <==> exists p :: 0 <= p < |s.procs| && HasWork(s, p)
  {
    Basics(s);
    var s1 := s.(procs := AllRaised(s.procs));
    forall p | 0 <= p < |s.procs| ensures HasSubmissions(s1, p) <==> HasWork(s, p) {
      assert ProcShape(s.procs[p], p);
      WorkIsSubmissions(s, p);
    }
  }

  lemma StepShape(s: State, a: Action)
    requires Inv(s) && Enables(s, a)
    ensures Ready(s) && Shape(Next(s, a)) && Next(s, a).boot == s.boot
  {
    hide Inv;
    NextInv(s, a);
    InvShape(s);
    InvShape(Next(s, a));
    hide Next;
    hide Enables;
    hide Shape;
    StepEnters(s, a, s.cpu.current + 1);
  }

  lemma Runnable(s: State)
    requires Shape(s) && s.cpu.current == s.boot.poller
    ensures !Handshake.PollerSleeps(s)
  {
    hide Layout;
  }

  /** The other turns: from the top a scan of all processes there are, after the scan the decision, and
      once woken the lowering of the flags. */
  lemma PollerMovesOn(s: State, env: Env)
    requires Reachable(s) && Enables(s, Poller(env))
    ensures Ready(s)
    ensures s.poll.pc.Top? ==> Next(s, Poller(env)) == s.(poll := s.poll.(pc := Scan(0, |s.procs|, false)))
    ensures s.poll.pc.Scan? && s.poll.pc.i == s.poll.pc.n ==>
      Next(s, Poller(env)) == s.(poll := s.poll.(pc := Decide(s.poll.pc.worked)))
    ensures s.poll.pc.Asleep? ==> Next(s, Poller(env)) == s.(poll := s.poll.(pc := Clear(0, |s.procs|)))
  {
    hide Reachable;
    hide Inv;
    ReachableInv(s);
    InvReady(s);
    hide Ready;
  }

  /** The flags of the first i processes are down, and nothing else has changed. */
  ghost predicate Cleared(s0: State, s: State, i: nat, n: nat) {
    && i <= n <= |s0.procs| == |s.procs|
    && s == s0.(procs := s.procs, poll := s0.poll.(pc := Clear(i, n)))
    && (forall p | 0 <= p < i :: Flagged(s0, s, p, 0))
    && (forall p | i <= p < |s0.procs| :: s.procs[p] == s0.procs[p])
  }

  lemma ClearOne(s0: State, s: State, env: Env, i: nat, n: nat)
    requires Cleared(s0, s, i, n) && i < n && PollOk(s)
    ensures Cleared(s0, PollStep(s, env), i + 1, n)
  {
    var r := PollStep(s, env);
    forall p | 0 <= p < i + 1 ensures Flagged(s0, r, p, 0) {
      if p < i { assert Flagged(s0, s, p, 0); }
    }
  }

  lemma {:induction false} Clears(s0: State, s: State, acts: seq<Action>, i: nat, n: nat)
    requires Runs(s, acts) && AllPolls(acts) && Cleared(s0, s, i, n) && |acts| == n - i
    ensures Cleared(s0, After(s, acts), n, n)
    decreases |acts|
  {
    hide Cleared;
    if acts != [] {
      assert acts[0] in acts;
      ClearsAt(s0, s, i, n);
      PollerLayout(s, acts[0].env);
      hide Layout;
      ClearOne(s0, s, acts[0].env, i, n);
      hide PollStep;
      ClearsAt(s0, PollStep(s, acts[0].env), i + 1, n);
      assert Onward(s, acts[0]) == PollStep(s, acts[0].env);
      assert AllPolls(acts[1..]);
      Clears(s0, Onward(s, acts[0]), acts[1..], i + 1, n);
    }
  }

  lemma ClearsAt(s0: State, s: State, i: nat, n: nat)
    requires Cleared(s0, s, i, n)
    ensures s.poll.pc == Clear(i, n) && s.console == s0.console && s.cpu == s0.cpu && s.boot == s0.boot
  {}

  /** All the flags are down, the idle time starts anew, and the next task that can run does; the queues and
      all else of the processes are as they were. */
  ghost predicate Lowered(s: State, r: State, n: nat) {
    && n <= |s.procs| == |r.procs| && r.poll == Poll(Top, s.cpu.ticks) && s.cpu.current < |s.cpu.tasks|
    && r.cpu.current == Sched.Pick(s.cpu.tasks, s.cpu.current) && r.logs == s.logs
    && (forall p | 0 <= p < n :: Flagged(s, r, p, 0))
    && (forall p | n <= p < |s.procs| :: r.procs[p] == s.procs[p])
  }

  lemma ClearEnds(s0: State, s: State, env: Env)
    requires s.poll.pc.Clear? && Cleared(s0, s, s.poll.pc.n, s.poll.pc.n) && PollOk(s)
    ensures Lowered(s0, PollStep(s, env), s.poll.pc.n) && PollStep(s, env).console == s0.console
  {
    hide Switch;
    var r := PollStep(s, env);
    forall p | 0 <= p < s.poll.pc.n ensures Flagged(s0, r, p, 0) {
      assert Flagged(s0, s, p, 0);
    }
  }

  /** Once it has worked or was woken: if the poller is left running, that is how things are when it lets
      others run. */
  lemma FlagsLowered(s: State, acts: seq<Action>)
    requires Reachable(s) && s.poll.pc.Clear? && s.poll.pc.i == 0
    requires Runs(s, acts) && AllPolls(acts) && |acts| == s.poll.pc.n + 1
    ensures Lowered(s, After(s, acts), s.poll.pc.n)
  {
    hide Reachable;
    hide Inv;
    hide Runs;
    hide After;
    hide Lowered;
    ReachableInv(s);
    InvShape(s);
    PcOf(s);
    hide Layout;
    var n := s.poll.pc.n;
    var last := acts[n];
    assert acts == acts[..n] + [last];
    RunsApart(s, acts[..n], last);
    assert Cleared(s, s, 0, n);
    assert AllPolls(acts[..n]);
    Clears(s, s, acts[..n], 0, n);
    var u := After(s, acts[..n]);
    assert last in acts;
    hide AllPolls;
    LastClear(s, u, last, n);
  }

  lemma LastClear(s: State, u: State, a: Action, n: nat)
    requires Cleared(s, u, n, n) && a.Poller? && Ready(u) && Enables(u, a)
    ensures Lowered(s, Onward(u, a), n)
  {
    ClearsAt(s, u, n, n);
    hide Cleared;
    hide Lowered;
    PollerLayout(u, a.env);
    hide Layout;
    ClearEnds(s, u, a.env);
    hide PollStep;
  }

  /** A run is its first part and one more step. */
  lemma {:induction false} RunsApart(s: State, acts: seq<Action>, a: Action)
    requires Runs(s, acts + [a])
    ensures Runs(s, acts)
    ensures var r := After(s, acts); Ready(r) && Enables(r, a) && After(s, acts + [a]) == Onward(r, a)
    decreases |acts|
  {
    hide Onward;
    hide Enables;
    hide Ready;
    if acts == [] {
      assert acts + [a] == [a];
      assert [a][1..] == [];
    } else {
      assert (acts + [a])[1..] == acts[1..] + [a];
      RunsApart(Onward(s, acts[0]), acts[1..], a);
    }
  }
}
