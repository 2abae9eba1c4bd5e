/**
 What a read gets: the result of a completed read is the number of bytes stored for it, they went
 to the start of its buffer one after the other, and no other request has bytes stored for it
 (kernel/src/ring.rs).
 */
module Reads {
  import opened Bits
  import opened Frames
  import opened Gate
  import opened Rings
  import opened Kernel
  import opened Draining
  import opened Steps
  import opened Layouts
  import opened Fates
  import opened Histories
  import Consoles
  import Input

  /** The bytes stored for request i of process p, in order. */
  function Got(given: seq<Delivery>, p: nat, i: nat): (g: seq<Delivery>)
  {
    if given == [] then []
    else
      var n := |given| - 1;
      if given[n].pid == p && given[n].id == i then Got(given[..n], p, i) + [given[n]] else Got(given[..n], p, i)
  }

  lemma {:induction false} GotNone(given: seq<Delivery>, p: nat, i: nat)
    requires forall j | 0 <= j < |given| :: given[j].pid != p || given[j].id != i
    ensures Got(given, p, i) == []
  {
    if given != [] {
      GotNone(given[..|given| - 1], p, i);
    }
  }

  /** One more byte stored. */
  lemma GotOne(given: seq<Delivery>, d: Delivery, u: nat, i: nat)
    ensures Got(given + [d], u, i) == Got(given, u, i) + if d.pid == u && d.id == i then [d] else []
  {
    assert (given + [d])[..|given|] == given;
  }

  /** A delivery adds to what its own request got. */
  lemma {:induction false} GotMore(given: seq<Delivery>, more: seq<Delivery>, p: nat, id: nat, u: nat, i: nat)
    requires forall j | 0 <= j < |more| :: more[j].pid == p && more[j].id == id
    ensures Got(given + more, u, i) == Got(given, u, i) + if u == p && i == id then more else []
    decreases |more|
  {
    hide Got;
    if more == [] {
      assert given + more == given;
    } else {
      var most, last := more[..|more| - 1], more[|more| - 1];
      GotMore(given, most, p, id, u, i);
      GotOne(given + most, last, u, i);
      assert given + more == given + most + [last] && more == most + [last];
    }
  }

  function Positive(r: int): nat {
    if r > 0 then r else 0
  }

  /** The bytes that request i was answered with. */
  function Read(l: Log, i: nat): nat
    requires LogShape(l) && i < |l.fate|
  {
    if l.reqs[i].op != OP_READ then 0
    else
      match l.fate[i]
      case Posted(k) => if k < |l.posted| then Positive(l.posted[k].result) else 0
      case Dropped(r) => Positive(r)
      case _ => 0
  }

  /** Exactly n bytes were stored for the request, from the start of its buffer on. */
  ghost predicate Filled(given: seq<Delivery>, p: nat, i: nat, buf: nat, n: nat) {
    var g := Got(given, p, i);
    |g| == n && forall j | 0 <= j < |g| :: g[j].addr == buf + j
  }

  ghost predicate ReadAt(given: seq<Delivery>, l: Log, p: nat, i: nat)
    requires LogShape(l) && i < |l.fate|
  {
    Filled(given, p, i, l.reqs[i].arg0, Read(l, i))
  }

  ghost predicate Known(s: State, d: Delivery) {
    d.pid < |s.logs| && d.id < |s.logs[d.pid].fate|
  }

  /** For all live processes and all their requests, leaving out request ex of process p. */
  ghost predicate FilledBut(s: State, p: nat, ex: int) {
    && LogsShaped(s)
    && (forall j | 0 <= j < |s.console.given| :: Known(s, s.console.given[j]))
    && (forall u, i | 0 <= u < |s.procs| && Alive(s.procs[u]) && 0 <= i < |s.logs[u].fate| && !(u == p && i == ex) ::
          ReadAt(s.console.given, s.logs[u], u, i))
  }

  ghost predicate AllFilled(s: State) {
    FilledBut(s, 0, -1)
  }

  // ---------------------------------------------------------------- frame

  /** Request by request, the log says the same as before; new requests were answered with nothing. */
  ghost predicate SameReads(a: Log, b: Log) {
    && LogShape(a) && LogShape(b) && |a.fate| <= |b.fate|
    && (forall i | 0 <= i < |a.fate| :: b.reqs[i].arg0 == a.reqs[i].arg0 && Read(b, i) == Read(a, i))
    && (forall i | |a.fate| <= i < |b.fate| :: Read(b, i) == 0)
  }

  lemma SameFilled(s: State, r: State, p: nat, ex: int)
    requires FilledBut(s, p, ex) && LogsShaped(r) && |s.procs| <= |r.procs| && r.console.given == s.console.given
    requires forall u | 0 <= u < |s.procs| ::
      SameReads(s.logs[u], r.logs[u]) && (Alive(r.procs[u]) ==> Alive(s.procs[u]))
    requires forall u | |s.procs| <= u < |r.procs| :: r.logs[u].fate == []
    ensures FilledBut(r, p, ex)
  {
    var given := s.console.given;
    forall j | 0 <= j < |given| ensures Known(r, given[j]) {
      assert Known(s, given[j]);
    }
    forall u, i | 0 <= u < |r.procs| && Alive(r.procs[u]) && 0 <= i < |r.logs[u].fate| && !(u == p && i == ex)
      ensures ReadAt(given, r.logs[u], u, i)
    {
      assert SameReads(s.logs[u], r.logs[u]);
      if i < |s.logs[u].fate| {
        assert ReadAt(given, s.logs[u], u, i);
      } else {
        forall j | 0 <= j < |given| ensures given[j].pid != u || given[j].id != i {
          assert Known(s, given[j]);
        }
        GotNone(given, u, i);
      }
    }
  }

  lemma SameLogs(s: State, r: State)
    requires AllFilled(s) && |r.procs| == |s.procs| && r.logs == s.logs && r.console.given == s.console.given
    requires forall u | 0 <= u < |s.procs| :: Alive(r.procs[u]) ==> Alive(s.procs[u])
    ensures AllFilled(r)
  {
    forall u | 0 <= u < |s.procs| ensures SameReads(s.logs[u], r.logs[u]) {
      assert LogShape(s.logs[u]);
    }
    SameFilled(s, r, 0, -1);
  }

  // ---------------------------------------------------------------- deciding a request

  /** The fates point at completions that exist. */
  ghost predicate PostedInside(l: Log, ex: int) {
    forall k | 0 <= k < |l.fate| && l.fate[k].Posted? && k != ex :: l.fate[k].k < |l.posted|
  }

  lemma LedgerInside(procs: seq<Proc>, logs: seq<Log>, p: nat, ex: int)
    requires Ledger(procs, logs, p, ex)
    ensures PostedInside(logs[p], ex)
  {
    hide Answer;
    var l := logs[p];
    forall k | 0 <= k < |l.fate| && l.fate[k].Posted? && k != ex ensures l.fate[k].k < |l.posted| {
      assert FateAt(procs, logs, p, k);
    }
  }

  /** Completing a request with the number of bytes it got. */
  lemma CompleteFilled(s: State, p: nat, id: nat, c: Cqe)
    requires FilledBut(s, p, id) && Ringed(s, p) && id < |s.logs[p].fate| && PostedInside(s.logs[p], id)
    requires Filled(s.console.given, p, id, s.logs[p].reqs[id].arg0,
      if s.logs[p].reqs[id].op == OP_READ then Positive(c.result) else 0)
    ensures AllFilled(Complete(s, p, id, c))
  {
    hide Filled;
    hide Post;
    var r := Complete(s, p, id, c);
    forall u | 0 <= u < |r.logs| ensures LogShape(r.logs[u]) {
      assert LogShape(s.logs[u]);
    }
    forall j | 0 <= j < |r.console.given| ensures Known(r, r.console.given[j]) {
      assert Known(s, s.console.given[j]);
    }
    forall u, i | 0 <= u < |r.procs| && Alive(r.procs[u]) && 0 <= i < |r.logs[u].fate|
      ensures ReadAt(r.console.given, r.logs[u], u, i)
    {
      if u == p && i == id {
        SettledRead(s.logs[p], id, id, c, CqFull(s.procs[p].ring.value));
      } else {
        assert ReadAt(s.console.given, s.logs[u], u, i);
        if u == p {
          SettledRead(s.logs[p], id, i, c, CqFull(s.procs[p].ring.value));
        }
      }
    }
  }

  lemma SettledRead(l: Log, id: nat, i: nat, c: Cqe, full: bool)
    requires LogShape(l) && id < |l.fate| && i < |l.fate|
    requires PostedInside(l, id)
    ensures Read(Settled(l, id, c, full), i) ==
      if i != id then Read(l, i) else if l.reqs[id].op == OP_READ then Positive(c.result) else 0
  {
  }

  /** An immediate answer other than a count of bytes. */
  lemma PlainFilled(s: State, p: nat, id: nat, c: Cqe)
    requires FilledBut(s, p, id) && Ringed(s, p) && id < |s.logs[p].fate| && PostedInside(s.logs[p], id)
    requires Got(s.console.given, p, id) == []
    requires s.logs[p].reqs[id].op == OP_READ ==> c.result <= 0
    ensures AllFilled(Complete(s, p, id, c))
  {
    CompleteFilled(s, p, id, c);
  }

  /** Storing bytes for the request that is being decided. */
  lemma GivenFilled(s: State, con: Console, p: nat, id: nat)
    requires FilledBut(s, p, id) && p < |s.logs| && id < |s.logs[p].fate|
    requires s.console.given <= con.given
    requires forall j | |s.console.given| <= j < |con.given| :: con.given[j].pid == p && con.given[j].id == id
    ensures FilledBut(s.(console := con), p, id)
    ensures Got(con.given, p, id) == Got(s.console.given, p, id) + con.given[|s.console.given|..]
  {
    var given, more := s.console.given, con.given[|s.console.given|..];
    assert con.given == given + more;
    GotMore(given, more, p, id, p, id);
    var r := s.(console := con);
    forall j | 0 <= j < |con.given| ensures Known(r, con.given[j]) {
      assert j < |given| ==> con.given[j] == given[j] && Known(s, given[j]);
    }
    forall u, i | 0 <= u < |r.procs| && Alive(r.procs[u]) && 0 <= i < |r.logs[u].fate| && !(u == p && i == id)
      ensures ReadAt(con.given, r.logs[u], u, i)
    {
      assert ReadAt(given, s.logs[u], u, i);
      GotMore(given, more, p, id, u, i);
    }
  }

  lemma ParkFilled(s: State, p: nat, id: nat, q: Pending)
    requires FilledBut(s, p, id) && Ringed(s, p) && id < |s.logs[p].fate| && PostedInside(s.logs[p], id)
    requires Got(s.console.given, p, id) == []
    ensures AllFilled(Park(s, p, id, q))
  {
    hide Complete;
    if FreeSlotFrom(s.procs[p].pending, 0).None? {
      PlainFilled(s, p, id, Cqe(q.tag, ERR));
    } else {
      HeldFilled(s, Park(s, p, id, q), p, id);
    }
  }

  /** The request is kept for later: nothing was stored for it, and nothing else changed. */
  lemma HeldFilled(s: State, r: State, p: nat, id: nat)
    requires FilledBut(s, p, id) && p < |s.procs| && id < |s.logs[p].fate| && Got(s.console.given, p, id) == []
    requires r.console == s.console && |r.procs| == |s.procs| && LogsShaped(r)
    requires forall u | 0 <= u < |s.procs| ::
      (Alive(r.procs[u]) ==> Alive(s.procs[u])) && r.logs[u].reqs == s.logs[u].reqs
        && r.logs[u].posted == s.logs[u].posted
    requires forall u | 0 <= u < |s.procs| && u != p :: r.logs[u].fate == s.logs[u].fate
    requires forall i | 0 <= i < |s.logs[p].fate| && i != id ::
      r.logs[p].fate[i] == s.logs[p].fate[i] || (Undecided(r.logs[p].fate[i]) && Undecided(s.logs[p].fate[i]))
    requires Undecided(r.logs[p].fate[id])
    ensures AllFilled(r)
  {
    forall j | 0 <= j < |r.console.given| ensures Known(r, r.console.given[j]) {
      assert Known(s, s.console.given[j]);
    }
    forall u, i | 0 <= u < |r.procs| && Alive(r.procs[u]) && 0 <= i < |r.logs[u].fate|
      ensures ReadAt(r.console.given, r.logs[u], u, i)
    {
      if !(u == p && i == id) {
        assert ReadAt(s.console.given, s.logs[u], u, i);
      }
    }
  }

  predicate Undecided(f: Fate) {
    f.Open? || f.Parked? || f.Waiting? || f.Superseded?
  }

  // ---------------------------------------------------------------- requests

  lemma ReadFilled(s: State, p: nat, id: nat, e: Sqe)
    requires FilledBut(s, p, id) && Ringed(s, p) && id < |s.logs[p].fate| && PostedInside(s.logs[p], id)
    requires Got(s.console.given, p, id) == [] && s.logs[p].reqs[id] == e && e.op == OP_READ
    requires Consoles.ConsoleOk(s)
    ensures AllFilled(ReadOp(s, p, id, e))
  {
    hide FilledBut;
    hide AllFilled;
    hide Complete;
    hide Park;
    hide Accepts;
    hide Deliver;
    hide Consoles.InOrder;
    hide ByteSafe;
    if !Accepts(s.procs[p].ranges, e.arg0, e.arg1, true) {
      PlainFilled(s, p, id, Cqe(e.tag, ERR));
    } else if e.arg1 == 0 {
      PlainFilled(s, p, id, Cqe(e.tag, 0));
    } else if Foreground(s.procs) == Some(p) {
      assert Consoles.ReadsOk(s.procs[p], s.logs[p]);
      BytesStored(s, p, id, e.arg0, e.arg1);
      var (con, count) := Deliver(s.console, Facing(s, p), p, id, e.arg0, e.arg1, 0);
      var s1 := s.(console := con);
      if count > 0 {
        CompleteFilled(s1, p, id, Cqe(e.tag, count));
      } else {
        ParkFilled(s1, p, id, Pending(e.arg0, e.arg1, e.tag));
      }
    } else {
      assert s.(console := s.console) == s;
      ParkFilled(s, p, id, Pending(e.arg0, e.arg1, e.tag));
    }
  }

  /** A delivery fills the buffer of its request with the bytes it counts. */
  lemma BytesStored(s: State, p: nat, id: nat, buf: nat, len: nat)
    requires FilledBut(s, p, id) && p < |s.procs| == |s.logs| && id < |s.logs[p].fate|
      && Got(s.console.given, p, id) == []
    ensures var (con, count) := Deliver(s.console, Facing(s, p), p, id, buf, len, 0);
      FilledBut(s.(console := con), p, id) && Filled(con.given, p, id, buf, count)
  {
    hide FilledBut;
    hide Accepts;
    hide Consoles.InOrder;
    hide ByteSafe;
    Consoles.DeliverStores(s.console, Facing(s, p), p, id, buf, len, 0);
    var (con, count) := Deliver(s.console, Facing(s, p), p, id, buf, len, 0);
    GivenFilled(s, con, p, id);
    var more := con.given[|s.console.given|..];
    forall j | 0 <= j < |more| ensures more[j].addr == buf + j {
      assert more[j] == con.given[|s.console.given| + j];
    }
  }

  lemma SpawnFilled(s: State, p: nat, id: nat, e: Sqe, env: Env)
    requires FilledBut(s, p, id) && Ringed(s, p) && id < |s.logs[p].fate| && PostedInside(s.logs[p], id)
    requires Got(s.console.given, p, id) == [] && s.logs[p].reqs[id] == e && e.op == OP_SPAWN
    ensures AllFilled(SpawnOp(s, p, id, e, env))
  {
    hide Complete;
    hide Accepts;
    hide Filled;
    if !Accepts(s.procs[p].ranges, e.arg0, e.arg1, false) || env.image(id).None? {
      PlainFilled(s, p, id, Cqe(e.tag, ERR));
    } else {
      var r := Born(s, p, env.root(|s.procs|), env.image(id).value);
      BornFilled(s, r, p, id);
      PlainFilled(r, p, id, Cqe(e.tag, |s.procs|));
    }
  }

  lemma BornFilled(s: State, r: State, p: nat, id: nat)
    requires FilledBut(s, p, id) && |r.procs| == |s.procs| + 1 == |r.logs| && r.console == s.console
    requires r.procs[..|s.procs|] == s.procs && r.logs == s.logs + [NewLog()]
    ensures FilledBut(r, p, id)
  {
    forall u | 0 <= u < |s.procs| ensures SameReads(s.logs[u], r.logs[u]) {
      assert LogShape(s.logs[u]);
    }
    forall u | 0 <= u < |r.logs| ensures LogShape(r.logs[u]) {
      assert u < |s.logs| ==> LogShape(s.logs[u]);
    }
    forall u | 0 <= u < |s.procs| ensures Alive(r.procs[u]) ==> Alive(s.procs[u]) {
      assert r.procs[u] == r.procs[..|s.procs|][u];
    }
    SameFilled(s, r, p, id);
  }

  lemma WaitFilled(s: State, p: nat, id: nat, e: Sqe)
    requires FilledBut(s, p, id) && Ringed(s, p) && id < |s.logs[p].fate|
    requires Got(s.console.given, p, id) == [] && s.logs[p].reqs[id] == e && e.op == OP_WAIT
    requires Ledger(s.procs, s.logs, p, id) && !IsChild(s.procs, p, p)
    ensures AllFilled(WaitOp(s, p, id, e))
  {
    hide Complete;
    hide Filled;
    hide FateAt;
    LedgerInside(s.procs, s.logs, p, id);
    var h := e.arg0;
    if !IsChild(s.procs, p, h) {
      PlainFilled(s, p, id, Cqe(e.tag, ERR));
    } else if s.procs[h].exitCode.Some? {
      PlainFilled(s, p, id, Cqe(e.tag, s.procs[h].exitCode.value));
    } else {
      var r := Register(s, p, id, h, e.tag);
      assert ChildAt(s.procs, s.logs, p, h, id);
      forall u | 0 <= u < |r.logs| ensures LogShape(r.logs[u]) {
        assert LogShape(s.logs[u]);
      }
      HeldFilled(s, r, p, id);
    }
  }

  /** A newly consumed request has nothing stored for it. */
  lemma NotedFilled(s: State, p: nat, e: Sqe, able: bool)
    requires AllFilled(s) && p < |s.procs|
    ensures var r := s.(logs := s.logs[p := Noted(s.logs[p], e, able)]);
      FilledBut(r, p, |s.logs[p].fate|) && Got(r.console.given, p, |s.logs[p].fate|) == []
  {
    var r, id := s.(logs := s.logs[p := Noted(s.logs[p], e, able)]), |s.logs[p].fate|;
    forall j | 0 <= j < |s.console.given| ensures s.console.given[j].pid != p || s.console.given[j].id != id {
      assert Known(s, s.console.given[j]);
    }
    GotNone(s.console.given, p, id);
    forall u | 0 <= u < |s.procs| ensures SameReads(s.logs[u], r.logs[u]) {
      assert LogShape(s.logs[u]);
    }
    forall u | 0 <= u < |r.logs| ensures LogShape(r.logs[u]) {
      assert LogShape(s.logs[u]);
    }
    SameFilled(s, r, 0, -1);
  }

  lemma ConsumeFilled(s: State, p: nat, env: Env)
    requires Ringed(s, p) && AllFilled(s) && LedgersOk(s) && Consoles.ConsoleOk(s) && Alive(s.procs[p])
      && NoOrphans(s.procs)
    ensures !IsChild(s.procs, p, p) && AllFilled(Consume(s, p, env))
  {
    hide AllFilled;
    hide FilledBut;
    hide LedgersOk;
    hide Ledger;
    hide Complete;
    hide ReadOp;
    hide SpawnOp;
    hide WaitOp;
    hide Accepts;
    hide Got;
    hide Consoles.ConsoleOk;
    var e := NextSqe(s.procs[p].ring.value);
    var id := |s.logs[p].reqs|;
    var able := Able(s.procs, p, id, e, env);
    var s1 := s.(logs := s.logs[p := Noted(s.logs[p], e, able)]);
    NotedFilled(s, p, e, able);
    NotedLedgers(s, p, e, able);
    LedgerInside(s1.procs, s1.logs, p, id);
    if e.op == OP_NOP {
      PlainFilled(s1, p, id, Cqe(e.tag, 0));
    } else if e.op == OP_PRINT {
      PlainFilled(s1, p, id, Cqe(e.tag, if Accepts(s.procs[p].ranges, e.arg0, e.arg1, false) then 0 else ERR));
    } else if e.op == OP_READ {
      Consoles.SameConsole(s, s1);
      ReadFilled(s1, p, id, e);
    } else if e.op == OP_SPAWN {
      SpawnFilled(s1, p, id, e, env);
    } else if e.op == OP_WAIT {
      WaitFilled(s1, p, id, e);
    } else {
      PlainFilled(s1, p, id, Cqe(e.tag, ERR));
    }
    SameLogs(Process(s, p, e, env), Consume(s, p, env));
  }

  lemma {:induction false} DrainFilled(s: State, p: nat, env: Env)
    requires Ringed(s, p) && AllFilled(s) && LedgersOk(s) && Consoles.ConsoleOk(s) && Alive(s.procs[p])
      && NoOrphans(s.procs)
    requires Consoles.OneForeground(s.procs) && Consoles.Live(s, p)
    ensures !IsChild(s.procs, p, p) && AllFilled(Drain(s, p, env))
    decreases Sub(s.procs[p].ring.value.sqTail, s.procs[p].ring.value.sqHead)
  {
    hide LedgersOk;
    hide AllFilled;
    hide Consume;
    hide Consoles.ConsoleOk;
    hide Consoles.OneForeground;
    if !Empty(s.procs[p].ring.value) {
      var r := Consume(s, p, env);
      ConsumeFilled(s, p, env);
      ConsumeKept(s, p, env);
      TailKept(s, r, p, env);
      KeptOrphans(s, r, p, env);
      Consoles.KeptForeground(s, r, p, env);
      ConsumeLedgers(s, p, env);
      Consoles.ConsumeConsole(s, p, env);
      DrainFilled(r, p, env);
    }
  }

  // ---------------------------------------------------------------- parked reads

  lemma ParkedEmpty(s: State, p: nat, i: nat)
    requires AllFilled(s) && LedgersOk(s) && Ringed(s, p) && Alive(s.procs[p]) && i < 8 && s.procs[p].pending[i].Some?
    ensures var id, q := s.logs[p].slots[i], s.procs[p].pending[i].value;
      && id < |s.logs[p].fate| && PostedInside(s.logs[p], id) && Got(s.console.given, p, id) == []
      && s.logs[p].reqs[id].op == OP_READ && s.logs[p].reqs[id].arg0 == q.buf && FilledBut(s, p, id)
  {
    var id := s.logs[p].slots[i];
    assert Ledger(s.procs, s.logs, p, -1);
    ParkedIs(s.procs, s.logs, p, i);
    assert SlotAt(s.procs[p], s.logs[p], i, -1);
    LedgerInside(s.procs, s.logs, p, -1);
    assert ReadAt(s.console.given, s.logs[p], p, id);
  }

  lemma ServedFilled(s: State, p: nat, i: nat)
    requires AllFilled(s) && LedgersOk(s) && Ringed(s, p) && Alive(s.procs[p]) && i < 8 && s.procs[p].pending[i].Some?
    requires Consoles.Serving(s, p, i)
    ensures var q := s.procs[p].pending[i].value;
      var (con, count) := Deliver(s.console, Facing(s, p), p, s.logs[p].slots[i], q.buf, q.len, 0);
      if count == 0 then AllFilled(s.(console := con))
      else s.logs[p].slots[i] < |s.logs[p].fate| && AllFilled(Layouts.Served(s, p, i, con, count))
  {
    hide FilledBut;
    hide LedgersOk;
    hide Complete;
    hide Deliver;
    hide Accepts;
    hide Consoles.InOrder;
    hide ByteSafe;
    hide Got;
    ParkedEmpty(s, p, i);
    assert Consoles.ReadsOk(s.procs[p], s.logs[p]) && Consoles.ReadOk(s.procs[p], s.logs[p], i);
    var id, q := s.logs[p].slots[i], s.procs[p].pending[i].value;
    BytesStored(s, p, id, q.buf, q.len);
    var (con, count) := Deliver(s.console, Facing(s, p), p, id, q.buf, q.len, 0);
    var s1 := s.(console := con);
    if count == 0 {
      assert AllFilled(s1) by { NoneStored(s, s1, p, id); }
    } else {
      CompleteFilled(s1, p, id, Cqe(q.tag, count));
      SameLogs(Complete(s1, p, id, Cqe(q.tag, count)), Layouts.Served(s, p, i, con, count));
    }
  }

  lemma NoneStored(s: State, s1: State, p: nat, id: nat)
    requires AllFilled(s) && FilledBut(s1, p, id) && p < |s.procs| && s1 == s.(console := s1.console)
      && id < |s.logs[p].fate|
    requires Got(s.console.given, p, id) == [] && Filled(s1.console.given, p, id, s.logs[p].reqs[id].arg0, 0)
      && Alive(s.procs[p])
    ensures AllFilled(s1)
  {
    assert ReadAt(s.console.given, s.logs[p], p, id);
  }

  lemma {:induction false} PollSlotsFilled(s: State, p: nat, i: nat)
    requires Ringed(s, p) && i <= 8 && Alive(s.procs[p]) && LedgersOk(s) && AllFilled(s) && Consoles.Serving(s, p, i)
    ensures AllFilled(PollSlots(s, p, i).0)
    decreases 8 - i
  {
    hide Ledger;
    hide FilledBut;
    hide Complete;
    hide Deliver;
    hide Accepts;
    hide Consoles.InOrder;
    hide ByteSafe;
    if i < 8 {
      if s.procs[p].pending[i].None? {
        PollSlotsFilled(s, p, i + 1);
      } else {
        var q := s.procs[p].pending[i].value;
        ServedFilled(s, p, i);
        DeliverBound(s.console, Facing(s, p), p, s.logs[p].slots[i], q.buf, q.len, 0);
        Consoles.ServeOne(s, p, i);
        var (con, count) := Deliver(s.console, Facing(s, p), p, s.logs[p].slots[i], q.buf, q.len, 0);
        if count == 0 {
          PollSlotsFilled(s.(console := con), p, i + 1);
        } else {
          ServedLedgers(s, p, i, con, count);
          ServedKept(s, p, i, con, count);
          Consoles.ServedStep(s, p, i, con, count);
          PollSlotsFilled(Layouts.Served(s, p, i, con, count), p, i + 1);
        }
      }
    }
  }

  // ---------------------------------------------------------------- steps

  lemma ToldFilled(s: State, p: nat, code: int)
    requires Layout(s) && LedgersOk(s) && AllFilled(s) && p < |s.procs|
    ensures |s.logs| == |s.procs| && |s.clients| == |s.procs| && AllFilled(Told(s, p, code))
  {
    hide Complete;
    hide Layout;
    hide LedgersOk;
    hide FilledBut;
    Basics(s);
    LayoutOrphans(s);
    var me := s.procs[p];
    if me.exitWaiter.Some? && me.parent.Some? && me.parent.value < |s.procs| {
      var q, id, c := me.parent.value, s.logs[p].asked, Cqe(me.exitWaiter.value, code);
      if Ringed(s, q) && id < |s.logs[q].fate| {
        AskedEmpty(s, p, q);
        PlainFilled(s, q, id, c);
        SameLogs(Complete(s, q, id, c), Told(s, p, code));
      } else {
        SameLogs(s, Told(s, p, code));
      }
    }
  }

  lemma AskedEmpty(s: State, p: nat, q: nat)
    requires LedgersOk(s) && AllFilled(s) && p < |s.procs| && q < |s.procs| && Alive(s.procs[q])
    requires s.procs[p].parent == Some(q) && s.procs[p].exitWaiter.Some?
    ensures var id := s.logs[p].asked;
      && id < |s.logs[q].fate| && PostedInside(s.logs[q], id) && Got(s.console.given, q, id) == []
      && s.logs[q].reqs[id].op == OP_WAIT && FilledBut(s, q, id)
  {
    hide Answer;
    assert Ledger(s.procs, s.logs, q, -1);
    AskedWaits(s, p, q);
    LedgerInside(s.procs, s.logs, q, -1);
    assert FateAt(s.procs, s.logs, q, s.logs[p].asked);
    assert ReadAt(s.console.given, s.logs[q], q, s.logs[p].asked);
  }

  lemma ExitFilled(s: State, p: nat, code: int)
    requires Layout(s) && LedgersOk(s) && AllFilled(s) && p < |s.procs|
    ensures |s.logs| == |s.procs| && |s.clients| == |s.procs| && AllFilled(Exit(s, p, code))
  {
    hide Layout;
    hide LedgersOk;
    hide AllFilled;
    hide Told;
    hide Exit;
    hide Switch;
    Basics(s);
    ExitIs(s, p, code);
    ToldKeeps(s, p, code);
    ToldFilled(s, p, code);
    SameLogs(Told(s, p, code), Exit(s, p, code));
  }

  lemma EnterFilled(s: State, p: nat, min: nat, env: Env)
    requires Shape(s) && LedgersOk(s) && Consoles.ConsoleOk(s) && AllFilled(s) && Ringed(s, p) && Consoles.Live(s, p)
    ensures Callable(s, p) && AllFilled(Enter(s, p, min, env))
  {
    hide Layout;
    hide LedgersOk;
    hide AllFilled;
    hide Consoles.ConsoleOk;
    hide Drain;
    hide Switch;
    Basics(s);
    RousedLayout(s, p);
    var s1 := Roused(s, p);
    SameLedgers(s, s1);
    Consoles.SameConsole(s, s1);
    SameLogs(s, s1);
    LayoutOrphans(s1);
    Consoles.LayoutForeground(s1);
    DrainFilled(s1, p, env);
    DrainEnds(s1, p, env);
    var s2 := Drain(s1, p, env);
    SameLogs(s2, Check(s2, p, min));
  }

  lemma UartFilled(s: State, bytes: seq<Byte>)
    requires Layout(s) && LedgersOk(s) && Consoles.ConsoleOk(s) && AllFilled(s)
    ensures |s.console.input| <= Input.CAPACITY && AllFilled(UartIrq(s, bytes))
  {
    hide PollSlots;
    hide Layout;
    hide LedgersOk;
    hide AllFilled;
    hide Accepts;
    Basics(s);
    LayoutOrphans(s);
    Consoles.ArrivedLossless(s.console, bytes, Consoles.Home(s.procs), Consoles.Keyboard(s.procs));
    var s0 := s.(console := Arrived(s.console, bytes));
    SameLogs(s, s0);
    var fg := Foreground(s0.procs);
    if fg.Some? && Ringed(s0, fg.value) {
      var p := fg.value;
      var s1 := s0.(cpu := s0.cpu.(live := s0.procs[p].root));
      SameLogs(s0, s1);
      SameLedgers(s, s1);
      assert Consoles.Serving(s1, p, 0);
      PollSlotsKept(s1, p, 0);
      PollSlotsFilled(s1, p, 0);
      SameLogs(PollSlots(s1, p, 0).0, UartIrq(s, bytes));
    }
  }

  lemma PollerFilled(s: State, env: Env)
    requires Shape(s) && LedgersOk(s) && Consoles.ConsoleOk(s) && AllFilled(s) && s.cpu.current == s.boot.poller
    ensures PollOk(s) && AllFilled(PollStep(s, env))
  {
    hide Layout;
    hide LedgersOk;
    hide AllFilled;
    hide Consoles.ConsoleOk;
    hide Drain;
    hide Switch;
    PollerLayout(s, env);
    Basics(s);
    LayoutOrphans(s);
    Consoles.LayoutForeground(s);
    if s.poll.pc.Scan? && s.poll.pc.i < s.poll.pc.n && HasSubmissions(s, s.poll.pc.i) {
      var i := s.poll.pc.i;
      var s2 := s.(cpu := s.cpu.(live := s.procs[i].root), poll := s.poll.(pc := Scan(i + 1, s.poll.pc.n, true)));
      SameLedgers(s, s2);
      Consoles.SameConsole(s, s2);
      SameLogs(s, s2);
      DrainFilled(s2, i, env);
    } else if s.poll.pc == Decide(false) && s.cpu.ticks - s.poll.lastWork >= SQ_IDLE_TICKS {
      SameLogs(s, Sleep(s));
    } else if s.poll.pc.Clear? && s.poll.pc.i < s.poll.pc.n {
      SameLogs(s, PollStep(s, env));
    } else {
      IdleStep(s, env);
      SameLogs(s, PollStep(s, env));
    }
  }

  /** Every step of the system keeps it. */
  lemma NextFilled(s: State, a: Action)
    requires Ready(s) && Enables(s, a) && LedgersOk(s) && Consoles.ConsoleOk(s) && AllFilled(s) && Consoles.OwnLive(s)
    ensures AllFilled(Next(s, a))
  {
    hide Layout;
    hide LedgersOk;
    hide AllFilled;
    hide Consoles.ConsoleOk;
    hide Happen;
    hide Enabled;
    hide UartIrq;
    hide PollStep;
    hide Exit;
    hide Enter;
    hide Switch;
    Basics(s);
    match a
    case Uart(bytes) => UartFilled(s, bytes);
    case Poller(env) => PollerFilled(s, env);
    case CallEnter(min, env) =>
      var s1 := Submitted(s, Pid(s));
      ClientLayout(s, s1);
      SameLedgers(s, s1);
      Consoles.SameConsole(s, s1);
      SameLogs(s, s1);
      EnterFilled(s1, Pid(s), min, env);
    case Leave(code) => ExitFilled(s, Pid(s), code);
    case _ => SameLogs(s, Next(s, a));
  }
}
