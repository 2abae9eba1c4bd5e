/**
 The round-robin scheduler (kernel/src/sched.rs).

 A context switch is a change of `current`; stacks and registers are not modelled.
 Every operation runs with interrupts masked, so each one is a single step.
 */
module Sched {
  import opened Bits
  import opened Frames

  const NEVER: nat := 0xffff_ffff_ffff_ffff

  datatype RunState = Runnable | Blocked | Exited

  datatype Task = Task(state: RunState, wakeAt: nat, process: Option<nat>, root: Option<nat>)

  /** The i-th candidate after `cur`, for 1 <= i <= n. */
  function Candidate(n: nat, cur: nat, i: nat): (c: nat)
    requires cur < n && i <= n
    ensures c < n
  {
    if cur + i < n then cur + i else cur + i - n
  }

  lemma CandidateIsMod(n: nat, cur: nat, i: nat)
    requires cur < n && i <= n
    ensures Candidate(n, cur, i) == (cur + i) % n
  {
    ModUnique(cur + i, n, if cur + i < n then 0 else 1, Candidate(n, cur, i));
  }

  /** The choice of `schedule`, looking from the i-th candidate on. */
  function PickFrom(tasks: seq<Task>, cur: nat, i: nat): (next: nat)
    requires cur < |tasks| && i <= |tasks| + 1
    ensures next < |tasks|
    decreases |tasks| + 1 - i
  {
    if i == |tasks| + 1 then cur
    else if tasks[Candidate(|tasks|, cur, i)].state == Runnable then Candidate(|tasks|, cur, i)
    else PickFrom(tasks, cur, i + 1)
  }

  function Pick(tasks: seq<Task>, cur: nat): (next: nat)
    requires cur < |tasks|
    ensures next < |tasks|
  {
    PickFrom(tasks, cur, 1)
  }

  /** c lies strictly between `from` and `to`, going round upwards from `from`. */
  predicate Between(from: nat, c: nat, to: nat) {
    if from < to then from < c < to else from < c || c < to
  }

  lemma {:induction false} PickFromIsFirst(tasks: seq<Task>, cur: nat, i: nat)
    requires cur < |tasks| && 1 <= i <= |tasks| + 1
    requires forall k | 1 <= k < i :: tasks[Candidate(|tasks|, cur, k)].state != Runnable
    ensures var next := PickFrom(tasks, cur, i);
      && (next != cur ==> tasks[next].state == Runnable)
      && (tasks[cur].state == Runnable ==> tasks[next].state == Runnable)
      && forall c | 0 <= c < |tasks| && c != cur && Between(cur, c, next) :: tasks[c].state != Runnable
    decreases |tasks| + 1 - i
  {
    var next := PickFrom(tasks, cur, i);
    if i <= |tasks| && tasks[Candidate(|tasks|, cur, i)].state != Runnable {
      PickFromIsFirst(tasks, cur, i + 1);
    } else {
      forall c | 0 <= c < |tasks| && c != cur && Between(cur, c, next)
        ensures tasks[c].state != Runnable
      {
        assert c == Candidate(|tasks|, cur, if c > cur then c - cur else c + |tasks| - cur);
      }
    }
  }

  /** `schedule` switches only to a runnable task, to the first one after `cur`, and stays
      only when no other task can run. */
  lemma PickIsFirst(tasks: seq<Task>, cur: nat)
    requires cur < |tasks|
    ensures Pick(tasks, cur) != cur ==> tasks[Pick(tasks, cur)].state == Runnable
    ensures tasks[cur].state == Runnable ==> tasks[Pick(tasks, cur)].state == Runnable
    ensures forall c | 0 <= c < |tasks| && c != cur && Between(cur, c, Pick(tasks, cur)) ::
      tasks[c].state != Runnable
  {
    PickFromIsFirst(tasks, cur, 1);
  }

  /** A blocked or exited task is switched away from, as long as some other task can run. */
  lemma SwitchedAway(tasks: seq<Task>, cur: nat, other: nat)
    requires cur < |tasks| && other < |tasks| && other != cur
    requires tasks[other].state == Runnable
    ensures Pick(tasks, cur) != cur && tasks[Pick(tasks, cur)].state == Runnable
  {
    PickIsFirst(tasks, cur);
    assert Pick(tasks, cur) == cur ==> Between(cur, other, cur);
  }

  // Bounded bypass.

  /** One call of `schedule`: the tasks it saw and the task that ran. */
  datatype Turn = Turn(tasks: seq<Task>, cur: nat)

  /** Consecutive calls of `schedule` that all pass over the waiting runnable task u.
      Tasks may be added, blocked and woken freely in between. */
  ghost predicate PassedOver(turns: seq<Turn>, u: nat) {
    && (forall i | 0 <= i < |turns| ::
          && turns[i].cur < |turns[i].tasks| && u < |turns[i].tasks|
          && turns[i].tasks[u].state == Runnable && turns[i].cur != u
          && Pick(turns[i].tasks, turns[i].cur) != u)
    && (forall i {:trigger turns[i]} | 0 < i < |turns| ::
          && turns[i].cur == Pick(turns[i - 1].tasks, turns[i - 1].cur)
          && |turns[i - 1].tasks| <= |turns[i].tasks|)
  }

  /** The place of c in the round that starts after u and ends with u, among n tasks. */
  function Place(n: nat, u: nat, c: nat): int {
    if c > u then c - u else n - u + c
  }

  lemma PickAdvances(tasks: seq<Task>, cur: nat, u: nat, n: nat)
    requires cur < |tasks| && u < |tasks| <= n && cur != u && tasks[u].state == Runnable
    requires Pick(tasks, cur) != u
    ensures Place(n, u, cur) < Place(n, u, Pick(tasks, cur)) < n
  {
    PickIsFirst(tasks, cur);
    assert !Between(cur, u, Pick(tasks, cur));
  }

  lemma {:induction false} PlacesIncrease(turns: seq<Turn>, u: nat, n: nat, i: nat, j: nat)
    requires PassedOver(turns, u) && i <= j < |turns|
    requires |turns[|turns| - 1].tasks| <= n
    requires forall k | 0 <= k < |turns| :: |turns[k].tasks| <= n
    ensures Place(n, u, Pick(turns[i].tasks, turns[i].cur)) + (j - i)
         <= Place(n, u, Pick(turns[j].tasks, turns[j].cur)) < n
    decreases j - i
  {
    PickAdvances(turns[j].tasks, turns[j].cur, u, n);
    if i < j {
      PlacesIncrease(turns, u, n, i, j - 1);
      assert turns[j].cur == Pick(turns[j - 1].tasks, turns[j - 1].cur);
    }
  }

  lemma {:induction false} TasksGrow(turns: seq<Turn>, u: nat, k: nat)
    requires PassedOver(turns, u) && k < |turns|
    ensures |turns[k].tasks| <= |turns[|turns| - 1].tasks|
    decreases |turns| - k
  {
    if k + 1 < |turns| {
      TasksGrow(turns, u, k + 1);
      assert |turns[k + 1 - 1].tasks| <= |turns[k + 1].tasks|;
    }
  }

  /** While a runnable task waits, no task is picked twice, so it waits at most n - 2 turns. */
  lemma BoundedBypass(turns: seq<Turn>, u: nat)
    requires PassedOver(turns, u) && |turns| > 0
    ensures forall i, j | 0 <= i < j < |turns| ::
      Pick(turns[i].tasks, turns[i].cur) != Pick(turns[j].tasks, turns[j].cur)
    ensures |turns| <= |turns[|turns| - 1].tasks| - 2
  {
    var n := |turns[|turns| - 1].tasks|;
    forall k | 0 <= k < |turns| ensures |turns[k].tasks| <= n {
      TasksGrow(turns, u, k);
    }
    forall i, j | 0 <= i < j < |turns|
      ensures Pick(turns[i].tasks, turns[i].cur) != Pick(turns[j].tasks, turns[j].cur)
    {
      PlacesIncrease(turns, u, n, i, j);
    }
    PickAdvances(turns[0].tasks, turns[0].cur, u, n);
    PlacesIncrease(turns, u, n, 0, |turns| - 1);
  }

  // The operations, as functions of the task table.

  function SetState(tasks: seq<Task>, t: nat, state: RunState, wakeAt: nat): (r: seq<Task>)
    requires t < |tasks|
    ensures |r| == |tasks| && r[t] == tasks[t].(state := state, wakeAt := wakeAt)
    ensures forall i | 0 <= i < |tasks| && i != t :: r[i] == tasks[i]
  {
    tasks[t := tasks[t].(state := state, wakeAt := wakeAt)]
  }

  function Woken(tasks: seq<Task>, t: nat): (r: seq<Task>)
    requires t < |tasks|
    ensures |r| == |tasks|
    ensures r[t] == if tasks[t].state == Blocked then tasks[t].(state := Runnable) else tasks[t]
    ensures forall i | 0 <= i < |tasks| && i != t :: r[i] == tasks[i]
  {
    if tasks[t].state == Blocked then tasks[t := tasks[t].(state := Runnable)] else tasks
  }

  function Due(t: Task, now: nat): Task {
    if t.state == Blocked && t.wakeAt <= now then t.(state := Runnable) else t
  }

  function SleepersWoken(tasks: seq<Task>, now: nat): (r: seq<Task>)
    ensures |r| == |tasks|
  {
    seq(|tasks|, i requires 0 <= i < |tasks| => Due(tasks[i], now))
  }

  // Runs.

  /** What the kernel asks of the scheduler; `now` is the tick count. */
  datatype Request =
    | Yield
    | Block
    | Sleep(now: nat, n: nat)
    | Wake(task: nat)
    | Tick(now: nat)
    | Exit
    | Spawn(process: Option<nat>, root: Option<nat>)

  datatype Run = Run(tasks: seq<Task>, current: nat)

  /** Task 0, the idle task, never blocks, sleeps or exits. */
  predicate Allowed(r: Run, q: Request) {
    && r.current < |r.tasks|
    && (q.Block? || q.Sleep? || q.Exit? ==> r.current != 0)
    && (q.Wake? ==> q.task < |r.tasks|)
  }

  function Switch(tasks: seq<Task>, current: nat): Run
    requires current < |tasks|
  {
    Run(tasks, Pick(tasks, current))
  }

  function Step(r: Run, q: Request): Run
    requires Allowed(r, q)
  {
    match q
    case Yield => Switch(r.tasks, r.current)
    case Block => Switch(SetState(r.tasks, r.current, Blocked, NEVER), r.current)
    case Sleep(now, n) => Switch(SetState(r.tasks, r.current, Blocked, now + n), r.current)
    case Wake(t) => Run(Woken(r.tasks, t), r.current)
    case Tick(now) => Switch(SleepersWoken(r.tasks, now), r.current)
    case Exit => Switch(SetState(r.tasks, r.current, Exited, r.tasks[r.current].wakeAt), r.current)
    case Spawn(p, root) => Run(r.tasks + [Task(Runnable, 0, p, root)], r.current)
  }

  predicate RunOk(r: Run) {
    && r.current < |r.tasks|
    && r.tasks[0].state == Runnable
    && r.tasks[r.current].state == Runnable
  }

  /** One request keeps the running task runnable, leaves Exited tasks alone and switches
      away from a task that blocks, sleeps or exits. */
  lemma StepSafe(r: Run, q: Request)
    requires RunOk(r) && Allowed(r, q)
    ensures RunOk(Step(r, q))
    ensures |r.tasks| <= |Step(r, q).tasks|
    ensures forall t | 0 <= t < |r.tasks| && r.tasks[t].state == Exited ::
      Step(r, q).tasks[t].state == Exited
    ensures q.Block? || q.Sleep? || q.Exit? ==> Step(r, q).current != r.current
  {
    match q
    case Yield => PickIsFirst(r.tasks, r.current);
    case Block => SwitchedAway(SetState(r.tasks, r.current, Blocked, NEVER), r.current, 0);
    case Sleep(now, n) => SwitchedAway(SetState(r.tasks, r.current, Blocked, now + n), r.current, 0);
    case Wake(t) =>
    case Tick(now) => PickIsFirst(SleepersWoken(r.tasks, now), r.current);
    case Exit => SwitchedAway(SetState(r.tasks, r.current, Exited, r.tasks[r.current].wakeAt), r.current, 0);
    case Spawn(p, root) =>
  }

  ghost predicate Runs(r: Run, qs: seq<Request>)
    decreases |qs|
  {
    |qs| > 0 ==> Allowed(r, qs[0]) && Runs(Step(r, qs[0]), qs[1..])
  }

  ghost function After(r: Run, qs: seq<Request>): Run
    requires Runs(r, qs)
    decreases |qs|
  {
    if qs == [] then r else After(Step(r, qs[0]), qs[1..])
  }

  /** Over every run: the running task and the idle task are runnable, and Exited is for good. */
  lemma {:induction false} RunSafe(r: Run, qs: seq<Request>)
    requires RunOk(r) && Runs(r, qs)
    ensures RunOk(After(r, qs)) && |r.tasks| <= |After(r, qs).tasks|
    ensures forall t | 0 <= t < |r.tasks| && r.tasks[t].state == Exited ::
      After(r, qs).tasks[t].state == Exited
    decreases |qs|
  {
    if qs != [] {
      StepSafe(r, qs[0]);
      RunSafe(Step(r, qs[0]), qs[1..]);
    }
  }

  /** Nobody wakes task t, and the clock stays below `at`. */
  predicate LeftAlone(qs: seq<Request>, t: nat, at: nat) {
    forall q | q in qs :: (q.Wake? ==> q.task != t) && (q.Tick? ==> q.now < at)
  }

  lemma StepStaysBlocked(r: Run, q: Request, t: nat)
    requires RunOk(r) && Allowed(r, q) && t < |r.tasks| && r.tasks[t].state == Blocked
    requires (q.Wake? ==> q.task != t) && (q.Tick? ==> q.now < r.tasks[t].wakeAt)
    ensures t < |Step(r, q).tasks| && Step(r, q).tasks[t] == r.tasks[t]
  {}

  /** A blocked task stays as it is, over every run that leaves it alone. */
  lemma {:induction false} StaysBlocked(r: Run, qs: seq<Request>, t: nat)
    requires RunOk(r) && Runs(r, qs) && t < |r.tasks| && r.tasks[t].state == Blocked
    requires LeftAlone(qs, t, r.tasks[t].wakeAt)
    ensures t < |After(r, qs).tasks| && After(r, qs).tasks[t] == r.tasks[t]
    decreases |qs|
  {
    if qs != [] {
      assert qs[0] in qs;
      StepStaysBlocked(r, qs[0], t);
      StepSafe(r, qs[0]);
      hide Step;
      StaysBlocked(Step(r, qs[0]), qs[1..], t);
    }
  }

  /** `sleep_ticks(n)` at tick `now`: the task is blocked at once and stays so as long as nobody wakes it
      and the clock has not reached now + n; the first tick from then on makes it runnable. */
  lemma SleepsUntil(r: Run, now: nat, n: nat, qs: seq<Request>, due: nat)
    requires RunOk(r) && Allowed(r, Sleep(now, n)) && Runs(Step(r, Sleep(now, n)), qs)
    requires LeftAlone(qs, r.current, now + n) && due >= now + n
    ensures var t, u := r.current, After(Step(r, Sleep(now, n)), qs);
      && t < |u.tasks| && u.tasks[t].state == Blocked && u.current != t && Allowed(u, Tick(due))
      && Step(u, Tick(due)).tasks[t].state == Runnable
  {
    StepSafe(r, Sleep(now, n));
    var r1 := Step(r, Sleep(now, n));
    StaysBlocked(r1, qs, r.current);
    RunSafe(r1, qs);
  }

  /** `block_current`: only a wake-up brings the task back, as long as the clock is below its maximum. */
  lemma BlocksForGood(r: Run, qs: seq<Request>)
    requires RunOk(r) && Allowed(r, Block) && Runs(Step(r, Block), qs) && LeftAlone(qs, r.current, NEVER)
    ensures var t, u := r.current, After(Step(r, Block), qs);
      && t < |u.tasks| && u.tasks[t].state == Blocked && u.current != t && Allowed(u, Wake(t))
      && Step(u, Wake(t)).tasks[t].state == Runnable
  {
    StepSafe(r, Block);
    var r1 := Step(r, Block);
    StaysBlocked(r1, qs, r.current);
    RunSafe(r1, qs);
  }

  /** Every request that gives up the processor, a tick included, runs the first task after the current one
      that can run then; the others leave the current one running.  An exit ends the task, a wake-up makes
      a blocked one runnable, and a spawn adds one that is. */
  lemma StepTurns(r: Run, q: Request)
    requires RunOk(r) && Allowed(r, q)
    ensures var u := Step(r, q);
      && r.current < |u.tasks|
      && u.current == (if q.Wake? || q.Spawn? then r.current else Pick(u.tasks, r.current))
      && (forall t | 0 <= t < |r.tasks| && t != r.current && r.tasks[t].state == Runnable ::
            u.tasks[t].state == Runnable)
      && (q.Yield? || q.Tick? ==> u.tasks[r.current].state == Runnable)
      && (q.Exit? ==> u.tasks[r.current].state == Exited)
      && (q.Wake? && r.tasks[q.task].state == Blocked ==> u.tasks[q.task].state == Runnable)
      && |u.tasks| == |r.tasks| + (if q.Spawn? then 1 else 0)
      && (q.Spawn? ==> u.tasks[|r.tasks|].state == Runnable)
      && (q.Spawn? ==> u.tasks[|r.tasks|].root == q.root && u.tasks[|r.tasks|].process == q.process)
  {}

  /** A task blocked by `block_current` is not woken by time while the clock is below u64::MAX. */
  lemma NotWokenByTime(tasks: seq<Task>, t: nat, now: nat)
    requires t < |tasks| && tasks[t].state == Blocked
    ensures SleepersWoken(tasks, now)[t].state == Blocked <==> now < tasks[t].wakeAt
  {
  }

  /** The scan of `schedule`. */
  method PickNext(tasks: seq<Task>, current: nat) returns (next: nat)
    requires current < |tasks|
    ensures next == Pick(tasks, current)
  {
    var n, i := |tasks|, 1;
    next := current;
    while i <= n
      invariant 1 <= i <= n + 1 && next == current
      invariant Pick(tasks, current) == PickFrom(tasks, current, i)
    {
      var cand := (current + i) % n;
      CandidateIsMod(n, current, i);
      if tasks[cand].state == Runnable {
        return cand;
      }
      i := i + 1;
    }
  }

  /** The loop of `wake_sleepers`. */
  method WakeDue(tasks: seq<Task>, now: nat) returns (r: seq<Task>)
    ensures r == SleepersWoken(tasks, now)
  {
    r := tasks;
    var i := 0;
    while i < |tasks|
      invariant 0 <= i <= |tasks| == |r|
      invariant forall k | 0 <= k < i :: r[k] == Due(tasks[k], now)
      invariant forall k | i <= k < |tasks| :: r[k] == tasks[k]
    {
      if r[i].state == Blocked && r[i].wakeAt <= now {
        r := r[i := r[i].(state := Runnable)];
      }
      i := i + 1;
    }
  }

  class Scheduler {
    var tasks: seq<Task>
    var current: nat

    /** `init`: the running code becomes task 0. */
    constructor ()
      ensures View() == Run([Task(Runnable, 0, None, None)], 0)
      ensures RunOk(View())
    {
      tasks := [Task(Runnable, 0, None, None)];
      current := 0;
    }

    function View(): Run
      reads this
    {
      Run(tasks, current)
    }

    method SpawnTask(process: Option<nat>, root: Option<nat>)
      requires RunOk(View())
      modifies this
      ensures View() == Step(old(View()), Spawn(process, root)) && RunOk(View())
    {
      tasks := tasks + [Task(Runnable, 0, process, root)];
    }

    method AnyWorkerAlive() returns (alive: bool)
      requires RunOk(View())
      ensures alive <==> exists t :: 1 <= t < |tasks| && tasks[t].state != Exited
    {
      var t := 1;
      while t < |tasks|
        invariant 1 <= t <= |tasks|
        invariant forall i | 1 <= i < t :: tasks[i].state == Exited
      {
        if tasks[t].state != Exited {
          return true;
        }
        t := t + 1;
      }
      return false;
    }

    /** `schedule`: the address space to install, if the chosen task has one. */
    method Schedule() returns (install: Option<nat>)
      requires current < |tasks|
      modifies this`current
      ensures View() == Switch(tasks, old(current))
      ensures install == if current != old(current) then tasks[current].root else None
    {
      var next := PickNext(tasks, current);
      if next == current {
        return None;
      }
      current := next;
      install := tasks[next].root;
    }

    method BlockCurrent() returns (install: Option<nat>)
      requires RunOk(View()) && current != 0
      modifies this
      ensures View() == Step(old(View()), Block) && RunOk(View()) && current != old(current)
    {
      StepSafe(View(), Block);
      tasks := SetState(tasks, current, Blocked, NEVER);
      install := Schedule();
    }

    method WakeTask(t: nat)
      requires RunOk(View()) && t < |tasks|
      modifies this
      ensures View() == Step(old(View()), Wake(t)) && RunOk(View())
    {
      if tasks[t].state == Blocked {
        tasks := tasks[t := tasks[t].(state := Runnable)];
      }
    }

    method SleepTicks(now: Word, n: Word) returns (install: Option<nat>)
      requires RunOk(View()) && current != 0 && now + n < TWO64
      modifies this
      ensures View() == Step(old(View()), Sleep(now, n)) && RunOk(View()) && current != old(current)
    {
      StepSafe(View(), Sleep(now, n));
      tasks := SetState(tasks, current, Blocked, now + n);
      install := Schedule();
    }

    method WakeSleepers(now: Word)
      requires RunOk(View())
      modifies this`tasks
      ensures tasks == SleepersWoken(old(tasks), now)
    {
      tasks := WakeDue(tasks, now);
    }

    method OnTick(now: Word) returns (install: Option<nat>)
      requires RunOk(View())
      modifies this
      ensures View() == Step(old(View()), Tick(now)) && RunOk(View())
    {
      StepSafe(View(), Tick(now));
      WakeSleepers(now);
      install := Schedule();
    }

    method TaskExit() returns (install: Option<nat>)
      requires RunOk(View()) && current != 0
      modifies this
      ensures View() == Step(old(View()), Exit) && RunOk(View()) && current != old(current)
    {
      StepSafe(View(), Exit);
      tasks := SetState(tasks, current, Exited, tasks[current].wakeAt);
      install := Schedule();
    }
  }
}
