/**
 What a process leaves behind (kernel/src/user.rs, kernel/src/ring.rs, kernel/src/process.rs): the code it
 exits with is the code recorded, and the code every wait on it is answered with, for good.
 */
module Exits {
  import opened Frames
  import opened Rings
  import opened Kernel
  import opened Steps
  import opened Layouts
  import opened Fates
  import opened Machine
  import opened Results
  import Sched

  /** Telling the parent changes no exit code. */
  lemma ToldCodes(s: State, p: nat, code: int)
    requires |s.logs| == |s.procs| && |s.clients| == |s.procs| && p < |s.procs|
    ensures var r := Told(s, p, code);
      && |r.procs| == |s.procs| && r.console == s.console
      && forall q | 0 <= q < |s.procs| :: r.procs[q].exitCode == s.procs[q].exitCode
  {
    hide Settled;
    hide Post;
  }

  /** An exit records its code, for that process and no other, ends its task, takes its image out of the
      shared pages and gives back its root, which is not live any more. */
  lemma ExitRecorded(s: State, code: int)
    requires Reachable(s) && Enables(s, Leave(code))
    ensures Ready(s) && Onward(s, Leave(code)) == Next(s, Leave(code))
    ensures var r, p := Next(s, Leave(code)), Pid(s);
      && 0 <= p < |s.procs| == |r.procs| && Alive(s.procs[p]) && r.procs[p].exitCode == Some(code)
      && (forall q | 0 <= q < |s.procs| && q != p :: r.procs[q].exitCode == s.procs[q].exitCode)
      && s.cpu.current < |r.cpu.tasks| && r.cpu.tasks[s.cpu.current].state == Sched.Exited
      && r.cpu.current != s.cpu.current
      && (forall v | v in LowPages(s.procs[p].ranges) :: v !in r.shared)
      && s.procs[p].root in r.cpu.freed && r.cpu.live != s.procs[p].root
  {
    hide Reachable;
    hide Inv;
    ReachableInv(s);
    InvReady(s);
    NextInv(s, Leave(code));
    InvShape(s);
    InvShape(Next(s, Leave(code)));
    hide Ready;
    var p := Pid(s);
    LiveUser(s);
    hide Layout;
    hide Exit;
    hide LowPages;
    hide Told;
    hide Switch;
    Basics(s);
    InvLive(Next(s, Leave(code)));
    ToldEnters(s, p, code);
    ExitIs(s, p, code);
    ToldKeeps(s, p, code);
    ToldCodes(s, p, code);
  }

  lemma InvLive(s: State)
    requires Inv(s)
    ensures s.cpu.live !in s.cpu.freed
  {
    hide Layout;
    hide LedgersOk;
  }

  lemma InvShape(s: State)
    requires Inv(s)
    ensures Shape(s)
  {}

  /** From then on, whatever happens: every completion that a wait on it got or gets carries that code,
      and a wait that is neither overtaken nor dropped has exactly one. */
  lemma WaiterGetsCode(s: State, code: int, acts: seq<Action>, q: nat, i: nat)
    requires Reachable(s) && Ready(s) && Enables(s, Leave(code)) && Runs(Onward(s, Leave(code)), acts)
    requires var r := After(Onward(s, Leave(code)), acts);
      && q < |r.procs| == |r.logs| && Alive(r.procs[q]) && LogShape(r.logs[q]) && i < |r.logs[q].reqs|
      && r.logs[q].reqs[i].op == OP_WAIT && r.logs[q].reqs[i].arg0 == Pid(s) && r.logs[q].able[i]
    ensures var l := After(Onward(s, Leave(code)), acts).logs[q];
      && (forall k | 0 <= k < |l.posted| && l.origin[k] == i :: l.posted[k] == Cqe(l.reqs[i].tag, code))
      && (l.fate[i].Dropped? ==> l.fate[i].result == code)
      && (!Overtaken(l.reqs, i) && !l.fate[i].Dropped? ==>
            exists k :: 0 <= k < |l.posted| && l.origin[k] == i
              && forall m | 0 <= m < |l.posted| && l.origin[m] == i :: m == k)
  {
    hide Reachable;
    hide Runs;
    hide After;
    hide Next;
    hide Enables;
    hide Ready;
    var s1 := Onward(s, Leave(code));
    var r := After(s1, acts);
    var h := Pid(s);
    ExitRecorded(s, code);
    ReachableNext(s, Leave(code));
    SettledForGood(s1, acts, h);
    RunReachable(s1, acts);
    assert r.procs[h].exitCode == Some(code);
    EachRequestOnce(r, q);
    var l := r.logs[q];
    assert FateAt(r.procs, r.logs, q, i);
    forall k | 0 <= k < |l.posted| && l.origin[k] == i ensures l.posted[k] == Cqe(l.reqs[i].tag, code) {
      assert Answers(r, q, k);
    }
    if !Overtaken(l.reqs, i) && !l.fate[i].Dropped? {
      WaitAnswered(r, q, i);
    }
  }
}
