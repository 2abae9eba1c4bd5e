/**
 `drain` (kernel/src/ring.rs): the loop that consumes a process's published requests, what it
 leaves alone, and when it ends.
 */
module Draining {
  import opened Bits
  import opened Frames
  import opened Gate
  import opened Rings
  import opened Kernel
  import Sched

  /** Another process is touched only through a wait registered on a child. */
  ghost predicate OtherKept(before: Proc, after: Proc, p: nat) {
    && after == before.(exitWaiter := after.exitWaiter)
    && (after.exitWaiter != before.exitWaiter ==> before.parent == Some(p) && Alive(before) && after.exitWaiter.Some?)
  }

  /** The owner's page changes only in what the kernel owns: its head of the submission
      queue and its tail and entries of the completion queue. */
  ghost predicate OwnerKept(before: Proc, after: Proc) {
    && before.ring.Some? && after.ring.Some? && PageOk(after.ring.value)
    && after == before.(ring := after.ring, pending := after.pending) && |after.pending| == 8
    && var a, b := before.ring.value, after.ring.value;
       b.sqTail == a.sqTail && b.cqHead == a.cqHead && b.flags == a.flags && b.sq == a.sq
  }

  ghost predicate Child(s: State, q: nat, p: nat, env: Env)
    requires q < |s.procs| == |s.clients|
  {
    && s.procs[q] == NewProc(env.root(q), s.procs[q].ranges, Some(p)).(exitWaiter := s.procs[q].exitWaiter)
    && s.clients[q] == NewClient()
  }

  /** Everything that consuming requests of p leaves alone. */
  ghost predicate Kept(s: State, r: State, p: nat, env: Env)
    requires p < |s.procs| == |s.logs| && |s.clients| == |s.procs|
  {
    && Ringed(r, p) && |s.procs| <= |r.procs| && |r.logs| == |r.procs| && |r.clients| == |r.procs|
    && r.boot == s.boot && r.poll == s.poll
    && r.cpu == s.cpu.(tasks := r.cpu.tasks, freed := r.cpu.freed)
    && s.clients <= r.clients
    && OwnerKept(s.procs[p], r.procs[p])
    && (forall q | 0 <= q < |s.procs| && q != p :: OtherKept(s.procs[q], r.procs[q], p))
    && (forall q | 0 <= q < |s.procs| && q != p :: r.logs[q] == s.logs[q].(asked := r.logs[q].asked))
    && (forall q | |s.procs| <= q < |r.procs| :: Child(r, q, p, env))
    && (forall q | |s.procs| <= q < |r.procs| :: r.logs[q] == NewLog().(asked := r.logs[q].asked))
    && TasksKept(s, r, env)
    && r.cpu.freed <= s.cpu.freed && (forall q | |s.procs| <= q < |r.procs| :: env.root(q) !in r.cpu.freed)
  }

  ghost predicate TasksKept(s: State, r: State, env: Env) {
    && s.cpu.tasks <= r.cpu.tasks && |r.cpu.tasks| - |s.cpu.tasks| == |r.procs| - |s.procs|
    && forall t | |s.cpu.tasks| <= t < |r.cpu.tasks| ::
         var q := t - |s.cpu.tasks| + |s.procs|;
         r.cpu.tasks[t] == Sched.Task(Sched.Runnable, 0, Some(q), Some(env.root(q)))
  }

  lemma CompleteKept(s: State, p: nat, id: nat, c: Cqe, env: Env)
    requires Ringed(s, p) && id < |s.logs[p].fate|
    ensures Kept(s, Complete(s, p, id, c), p, env)
  {
  }

  lemma ParkKept(s: State, p: nat, id: nat, q: Pending, env: Env)
    requires Ringed(s, p) && id < |s.logs[p].fate|
    ensures Kept(s, Park(s, p, id, q), p, env)
  {
    hide Post;
    hide Settled;
    CompleteKept(s, p, id, Cqe(q.tag, ERR), env);
  }

  /** The console and the owner's log before are not looked at. */
  lemma Prepared(s: State, l: Log, con: Console, r: State, p: nat, env: Env)
    requires p < |s.procs| == |s.logs| && |s.clients| == |s.procs|
    requires Kept(s.(logs := s.logs[p := l], console := con), r, p, env)
    ensures Kept(s, r, p, env)
  {
  }

  lemma ReadKept(s: State, p: nat, id: nat, e: Sqe, env: Env)
    requires Ringed(s, p) && id < |s.logs[p].fate|
    ensures Kept(s, ReadOp(s, p, id, e), p, env)
  {
    hide Complete;
    hide Park;
    hide Kept;
    if !Accepts(s.procs[p].ranges, e.arg0, e.arg1, true) {
      CompleteKept(s, p, id, Cqe(e.tag, ERR), env);
    } else if e.arg1 == 0 {
      CompleteKept(s, p, id, Cqe(e.tag, 0), env);
    } else {
      var (con, count) :=
        if Foreground(s.procs) == Some(p) then Deliver(s.console, Facing(s, p), p, id, e.arg0, e.arg1, 0)
        else (s.console, 0);
      var s1 := s.(console := con);
      assert s1 == s.(logs := s.logs[p := s.logs[p]], console := con);
      if count > 0 {
        CompleteKept(s1, p, id, Cqe(e.tag, count), env);
      } else {
        ParkKept(s1, p, id, Pending(e.arg0, e.arg1, e.tag), env);
      }
      Prepared(s, s.logs[p], con, ReadOp(s, p, id, e), p, env);
    }
  }

  lemma BornKept(s: State, p: nat, id: nat, env: Env)
    requires Ringed(s, p) && env.image(id).Some?
    ensures var r := Born(s, p, env.root(|s.procs|), env.image(id).value);
      Kept(s, r, p, env) && Ringed(r, p)
  {
  }

  lemma RegisterKept(s: State, p: nat, id: nat, h: nat, tag: Word, env: Env)
    requires Ringed(s, p) && IsChild(s.procs, p, h) && h != p && Alive(s.procs[h]) && id < |s.logs[p].fate|
    ensures Kept(s, Register(s, p, id, h, tag), p, env)
  {
  }

  lemma KeptTrans(s: State, r: State, u: State, p: nat, env: Env)
    requires p < |s.procs| == |s.logs| && |s.clients| == |s.procs|
    requires Kept(s, r, p, env) && Kept(r, u, p, env)
    ensures Kept(s, u, p, env)
  {
    hide Ringed;
    hide Alive;
    forall q | |s.procs| <= q < |u.procs| ensures Child(u, q, p, env) {
      if q < |r.procs| {
        assert Child(r, q, p, env);
        assert OtherKept(r.procs[q], u.procs[q], p);
      }
    }
    forall q | 0 <= q < |s.procs| && q != p ensures OtherKept(s.procs[q], u.procs[q], p) {
      assert OtherKept(s.procs[q], r.procs[q], p) && OtherKept(r.procs[q], u.procs[q], p);
      assert Alive(r.procs[q]) == Alive(s.procs[q]) by { AliveSame(s.procs[q], r.procs[q]); }
    }
    TasksTrans(s, r, u, env);
  }

  lemma SpawnKept(s: State, p: nat, id: nat, e: Sqe, env: Env)
    requires Ringed(s, p) && id < |s.logs[p].fate|
    ensures Kept(s, SpawnOp(s, p, id, e, env), p, env)
  {
    hide Complete;
    hide Born;
    hide Kept;
    if !Accepts(s.procs[p].ranges, e.arg0, e.arg1, false) || env.image(id).None? {
      CompleteKept(s, p, id, Cqe(e.tag, ERR), env);
    } else {
      BornKept(s, p, id, env);
      var r := Born(s, p, env.root(|s.procs|), env.image(id).value);
      assert r.logs[p] == s.logs[p] by { BornLog(s, p, id, env); }
      CompleteKept(r, p, id, Cqe(e.tag, |s.procs|), env);
      KeptTrans(s, r, SpawnOp(s, p, id, e, env), p, env);
    }
  }

  lemma BornLog(s: State, p: nat, id: nat, env: Env)
    requires Ringed(s, p) && env.image(id).Some?
    ensures var r := Born(s, p, env.root(|s.procs|), env.image(id).value);
      |s.procs| < |r.procs| && r.logs[p] == s.logs[p] && r.procs[p] == s.procs[p]
  {
  }

  lemma WaitKept(s: State, p: nat, id: nat, e: Sqe, env: Env)
    requires Ringed(s, p) && id < |s.logs[p].fate| && !IsChild(s.procs, p, p)
    ensures Kept(s, WaitOp(s, p, id, e), p, env)
  {
    hide Complete;
    hide Register;
    hide Kept;
    var h := e.arg0;
    if !IsChild(s.procs, p, h) {
      CompleteKept(s, p, id, Cqe(e.tag, ERR), env);
    } else if s.procs[h].exitCode.Some? {
      CompleteKept(s, p, id, Cqe(e.tag, s.procs[h].exitCode.value), env);
    } else {
      RegisterKept(s, p, id, h, e.tag, env);
    }
  }

  lemma ProcessKept(s: State, p: nat, e: Sqe, env: Env)
    requires Ringed(s, p) && !IsChild(s.procs, p, p)
    ensures Kept(s, Process(s, p, e, env), p, env)
  {
    hide Complete;
    hide ReadOp;
    hide SpawnOp;
    hide WaitOp;
    hide Kept;
    hide Accepts;
    var id := |s.logs[p].reqs|;
    var l := Noted(s.logs[p], e, Able(s.procs, p, id, e, env));
    var s1 := s.(logs := s.logs[p := l]);
    if e.op == OP_NOP {
      CompleteKept(s1, p, id, Cqe(e.tag, 0), env);
    } else if e.op == OP_PRINT {
      CompleteKept(s1, p, id, Cqe(e.tag, if Accepts(s.procs[p].ranges, e.arg0, e.arg1, false) then 0 else ERR), env);
    } else if e.op == OP_READ {
      ReadKept(s1, p, id, e, env);
    } else if e.op == OP_SPAWN {
      SpawnKept(s1, p, id, e, env);
    } else if e.op == OP_WAIT {
      WaitKept(s1, p, id, e, env);
    } else {
      CompleteKept(s1, p, id, Cqe(e.tag, ERR), env);
    }
    Prepared(s, l, s.console, Process(s, p, e, env), p, env);
  }

  lemma ConsumeKept(s: State, p: nat, env: Env)
    requires Ringed(s, p) && !IsChild(s.procs, p, p)
    ensures Kept(s, Consume(s, p, env), p, env)
    ensures Consume(s, p, env).procs[p].ring.value.sqHead == Inc(s.procs[p].ring.value.sqHead)
    ensures !IsChild(Consume(s, p, env).procs, p, p)
  {
    hide Process;
    hide Kept;
    var e := NextSqe(s.procs[p].ring.value);
    ProcessKept(s, p, e, env);
    TookKept(s, Process(s, p, e, env), p, env);
  }

  lemma TookKept(s: State, r: State, p: nat, env: Env)
    requires p < |s.procs| == |s.logs| && |s.clients| == |s.procs|
    requires Kept(s, r, p, env) && !IsChild(s.procs, p, p)
    ensures var u := r.(procs := r.procs[p := WithPage(r.procs[p], Took(r.procs[p].ring.value))]);
      Kept(s, u, p, env) && !IsChild(u.procs, p, p)
  {
    hide Inc;
    var u := r.(procs := r.procs[p := WithPage(r.procs[p], Took(r.procs[p].ring.value))]);
    forall q | |s.procs| <= q < |u.procs| ensures Child(u, q, p, env) {
      assert Child(r, q, p, env);
    }
    assert TasksKept(s, u, env);
  }

  lemma AliveSame(a: Proc, b: Proc)
    requires a.exitCode == b.exitCode
    ensures Alive(a) == Alive(b)
  {
  }

  lemma TasksTrans(s: State, r: State, u: State, env: Env)
    requires |s.procs| <= |r.procs| <= |u.procs|
    requires TasksKept(s, r, env) && TasksKept(r, u, env)
    ensures TasksKept(s, u, env)
  {
    forall t | |s.cpu.tasks| <= t < |u.cpu.tasks|
      ensures var q := t - |s.cpu.tasks| + |s.procs|;
        u.cpu.tasks[t] == Sched.Task(Sched.Runnable, 0, Some(q), Some(env.root(q)))
    {
      if t < |r.cpu.tasks| {
        assert u.cpu.tasks[t] == r.cpu.tasks[t];
      }
    }
  }

  /** `drain`. */
  function Drain(s: State, p: nat, env: Env): (r: State)
    requires Ringed(s, p) && !IsChild(s.procs, p, p)
    ensures Ringed(r, p)
    decreases Sub(s.procs[p].ring.value.sqTail, s.procs[p].ring.value.sqHead)
  {
    if Empty(s.procs[p].ring.value) then s
    else
      ConsumeKept(s, p, env);
      Drain(Consume(s, p, env), p, env)
  }

  /** A drain empties the queue, after exactly tail - head (mod 2^32) requests, whatever the
      indices were. */
  lemma {:induction false} DrainEnds(s: State, p: nat, env: Env)
    requires Ringed(s, p) && !IsChild(s.procs, p, p)
    ensures Kept(s, Drain(s, p, env), p, env) && Empty(Drain(s, p, env).procs[p].ring.value)
    ensures !IsChild(Drain(s, p, env).procs, p, p)
    ensures s.logs[p].reqs <= Drain(s, p, env).logs[p].reqs
    ensures |Drain(s, p, env).logs[p].reqs|
      == |s.logs[p].reqs| + Sub(s.procs[p].ring.value.sqTail, s.procs[p].ring.value.sqHead)
    decreases Sub(s.procs[p].ring.value.sqTail, s.procs[p].ring.value.sqHead)
  {
    hide Consume;
    hide Kept;
    if Empty(s.procs[p].ring.value) {
      SelfKept(s, p, env);
    } else {
      var r := Consume(s, p, env);
      ConsumeKept(s, p, env);
      TailKept(s, r, p, env);
      DrainEnds(r, p, env);
      KeptTrans(s, r, Drain(s, p, env), p, env);
    }
  }

  /** It consumes the entries of the slots from the head on, in order. */
  lemma {:induction false} DrainReads(s: State, p: nat, env: Env)
    requires Ringed(s, p) && !IsChild(s.procs, p, p)
    ensures var page, r, n := s.procs[p].ring.value, Drain(s, p, env).logs[p].reqs, |s.logs[p].reqs|;
      n <= |r| && forall k | n <= k < |r| :: r[k] == page.sq[(page.sqHead + k - n) % 16]
    decreases Sub(s.procs[p].ring.value.sqTail, s.procs[p].ring.value.sqHead)
  {
    hide Consume;
    hide Kept;
    if !Empty(s.procs[p].ring.value) {
      var r := Consume(s, p, env);
      ConsumeKept(s, p, env);
      TailKept(s, r, p, env);
      DrainReads(r, p, env);
      DrainEnds(r, p, env);
      var page, all, n := s.procs[p].ring.value, Drain(r, p, env).logs[p].reqs, |s.logs[p].reqs|;
      forall k | n <= k < |all| ensures all[k] == page.sq[(page.sqHead + k - n) % 16] {
        if k == n {
          assert all[n] == r.logs[p].reqs[n];
        } else {
          SlotShift(page.sqHead, k - n);
        }
      }
    }
  }

  lemma SlotShift(h: Index, d: nat)
    requires d >= 1
    ensures (Inc(h) + d - 1) % 16 == (h + d) % 16
  {
    if h == TWO32 - 1 {
      var q, x := (d - 1) / 16, (d - 1) % 16;
      assert d - 1 == 16 * q + x;
      assert h + d == 16 * (q + 0x1000_0000) + x;
    }
  }

  lemma SelfKept(s: State, p: nat, env: Env)
    requires Ringed(s, p)
    ensures Kept(s, s, p, env)
  {
  }

  lemma TailKept(s: State, r: State, p: nat, env: Env)
    requires p < |s.procs| == |s.logs| && |s.clients| == |s.procs|
    requires Kept(s, r, p, env)
    ensures s.procs[p].ring.Some? && Ringed(r, p)
    ensures r.procs[p].ring.value.sqTail == s.procs[p].ring.value.sqTail
    ensures r.procs[p].ring.value.sq == s.procs[p].ring.value.sq
  {
  }
}
