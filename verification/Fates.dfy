/**
 The books of a process's requests: every consumed request has exactly one fate, every posted
 completion answers exactly one request, with its tag and the right result
 (kernel/src/ring.rs, kernel/src/process.rs).
 */
module Fates {
  import opened Bits
  import opened Frames
  import opened Loader
  import opened Gate
  import opened Rings
  import opened Kernel
  import opened Draining
  import opened Steps
  import opened Layouts
  import Input

  /** What may be answered to request e of process p; `able` tells whether it could be met when it was
      consumed. */
  ghost predicate Answer(procs: seq<Proc>, p: nat, e: Sqe, able: bool, r: int)
    requires p < |procs|
  {
    if e.op == OP_NOP then r == 0
    else if e.op == OP_PRINT then r == if Accepts(procs[p].ranges, e.arg0, e.arg1, false) then 0 else ERR
    else if e.op == OP_READ then
      if !Accepts(procs[p].ranges, e.arg0, e.arg1, true) then r == ERR
      else if e.arg1 == 0 then r == 0
      else (r == ERR && !able) || 0 < r <= e.arg1
    else if e.op == OP_SPAWN then
      if able then 0 <= r < |procs| && procs[r].parent == Some(p) && Accepts(procs[p].ranges, e.arg0, e.arg1, false)
      else r == ERR
    else if e.op == OP_WAIT then
      if able then IsChild(procs, p, e.arg0) && procs[e.arg0].exitCode == Some(r) else r == ERR
    else r == ERR
  }

  /** A later request waits for the same child. */
  ghost predicate Overtaken(reqs: seq<Sqe>, i: nat)
    requires i < |reqs|
  {
    exists j :: i < j < |reqs| && reqs[j].op == OP_WAIT && reqs[j].arg0 == reqs[i].arg0
  }

  /** The fate of request i of process p agrees with the state. */
  ghost predicate FateAt(procs: seq<Proc>, logs: seq<Log>, p: nat, i: nat)
    requires p < |procs| == |logs| && LogShape(logs[p]) && i < |logs[p].fate|
  {
    var l := logs[p];
    var e := l.reqs[i];
    match l.fate[i]
    case Open => false
    case Posted(k) =>
      k < |l.posted| && l.origin[k] == i && l.posted[k].tag == e.tag
        && Answer(procs, p, e, l.able[i], l.posted[k].result)
    case Dropped(r) => Answer(procs, p, e, l.able[i], r)
    case Parked(j) =>
      && e.op == OP_READ && j < 8 && l.slots[j] == i
      && j < |procs[p].pending| && procs[p].pending[j] == Some(Pending(e.arg0, e.arg1, e.tag))
      && e.arg1 > 0 && Accepts(procs[p].ranges, e.arg0, e.arg1, true)
    case Waiting(c) =>
      && e.op == OP_WAIT && l.able[i] && c == e.arg0 && IsChild(procs, p, c)
      && Alive(procs[c]) && procs[c].exitWaiter == Some(e.tag) && logs[c].asked == i
    case Superseded => e.op == OP_WAIT && l.able[i] && Overtaken(l.reqs, i)
  }

  function CountPosted(fate: seq<Fate>): (n: nat)
    ensures n <= |fate|
  {
    if fate == [] then 0 else CountPosted(fate[..|fate| - 1]) + if fate[|fate| - 1].Posted? then 1 else 0
  }

  /** Completion k answers the request it came from. */
  ghost predicate OriginAt(l: Log, k: nat)
    requires LogShape(l) && k < |l.posted|
  {
    l.origin[k] < |l.fate| && l.fate[l.origin[k]] == Posted(k)
  }

  /** Parked read j belongs to a request, other than ex, that says so. */
  ghost predicate SlotAt(q: Proc, l: Log, j: nat, ex: int)
    requires LogShape(l) && j < 8 && |q.pending| == 8
  {
    q.pending[j].Some? ==> l.slots[j] < |l.fate| && l.slots[j] != ex && l.fate[l.slots[j]] == Parked(j)
  }

  /** A wait registered with child c belongs to a request of p, other than ex, that says so. */
  ghost predicate ChildAt(procs: seq<Proc>, logs: seq<Log>, p: nat, c: nat, ex: int)
    requires p < |procs| == |logs| && c < |procs|
  {
    procs[c].parent == Some(p) && procs[c].exitWaiter.Some? ==>
      logs[c].asked < |logs[p].fate| && logs[c].asked != ex && logs[p].fate[logs[c].asked] == Waiting(c)
  }

  /** The books of process p, leaving out request ex while it is being decided. */
  ghost predicate Ledger(procs: seq<Proc>, logs: seq<Log>, p: nat, ex: int) {
    && p < |procs| == |logs| && LogShape(logs[p]) && |procs[p].pending| == 8
    && (ex >= 0 ==> ex < |logs[p].fate| && !logs[p].fate[ex].Posted?)
    && (forall i | 0 <= i < |logs[p].fate| && i != ex :: FateAt(procs, logs, p, i))
    && (forall k | 0 <= k < |logs[p].posted| :: OriginAt(logs[p], k))
    && (forall j | 0 <= j < 8 :: SlotAt(procs[p], logs[p], j, ex))
    && (forall c | 0 <= c < |procs| :: ChildAt(procs, logs, p, c, ex))
    && CountPosted(logs[p].fate) == |logs[p].posted|
    && (|logs[p].fate| > 0 ==> procs[p].ring.Some?)
  }

  ghost predicate LedgersOk(s: State) {
    |s.logs| == |s.procs| && forall p | 0 <= p < |s.procs| && Alive(s.procs[p]) :: Ledger(s.procs, s.logs, p, -1)
  }

  // ---------------------------------------------------------------- counting

  lemma {:induction false} CountUpdate(fate: seq<Fate>, i: nat, f: Fate)
    requires i < |fate|
    ensures CountPosted(fate[i := f])
         == CountPosted(fate) - (if fate[i].Posted? then 1 else 0) + if f.Posted? then 1 else 0
  {
    var n := |fate| - 1;
    if i < n {
      CountUpdate(fate[..n], i, f);
      assert fate[i := f][..n] == fate[..n][i := f];
    } else {
      assert fate[i := f][..n] == fate[..n];
    }
  }

  lemma CountAppend(fate: seq<Fate>, f: Fate)
    ensures CountPosted(fate + [f]) == CountPosted(fate) + if f.Posted? then 1 else 0
  {
    assert (fate + [f])[..|fate|] == fate;
  }

  lemma CountMissing(fate: seq<Fate>, i: nat)
    requires i < |fate| && !fate[i].Posted?
    ensures CountPosted(fate) < |fate|
  {
    CountUpdate(fate, i, Posted(0));
  }

  // ---------------------------------------------------------------- frame

  /** Nothing the books of p look at has changed. */
  ghost predicate BooksKept(procs: seq<Proc>, logs: seq<Log>, procs': seq<Proc>, logs': seq<Log>, p: nat) {
    && p < |procs| == |logs| && |procs| <= |procs'| == |logs'|
    && procs'[p].pending == procs[p].pending && procs'[p].ranges == procs[p].ranges
    && (procs[p].ring.Some? ==> procs'[p].ring.Some?)
    && logs'[p] == logs[p].(asked := logs'[p].asked)
    && (forall c | 0 <= c < |procs| :: ChildKept(procs[c], logs[c], procs'[c], logs'[c], p))
    && (forall c | |procs| <= c < |procs'| :: procs'[c].exitWaiter.None? || procs'[c].parent != Some(p))
  }

  ghost predicate ChildKept(a: Proc, l: Log, b: Proc, k: Log, p: nat) {
    && a.parent == b.parent && (a.exitCode.Some? ==> b.exitCode == a.exitCode)
    && (a.parent == Some(p) ==> a.exitWaiter == b.exitWaiter)
    && (a.parent == Some(p) && a.exitWaiter.Some? ==> l.asked == k.asked && a.exitCode == b.exitCode)
  }

  lemma BooksFrame(procs: seq<Proc>, logs: seq<Log>, procs': seq<Proc>, logs': seq<Log>, p: nat, ex: int)
    requires BooksKept(procs, logs, procs', logs', p) && Ledger(procs, logs, p, ex)
    ensures Ledger(procs', logs', p, ex)
  {
    hide Accepts;
    hide Overtaken;
    var l := logs[p];
    forall i | 0 <= i < |l.fate| && i != ex ensures FateAt(procs', logs', p, i) {
      assert FateAt(procs, logs, p, i);
      assert l.reqs[i].arg0 < |procs|
        ==> ChildKept(procs[l.reqs[i].arg0], logs[l.reqs[i].arg0], procs'[l.reqs[i].arg0], logs'[l.reqs[i].arg0], p);
    }
    forall k | 0 <= k < |l.posted| ensures OriginAt(logs'[p], k) {
      assert OriginAt(l, k);
    }
    forall j | 0 <= j < 8 ensures SlotAt(procs'[p], logs'[p], j, ex) {
      assert SlotAt(procs[p], l, j, ex);
    }
    forall c | 0 <= c < |procs'| ensures ChildAt(procs', logs', p, c, ex) {
      if c < |procs| {
        assert ChildAt(procs, logs, p, c, ex);
        assert ChildKept(procs[c], logs[c], procs'[c], logs'[c], p);
      }
    }
  }

  /** The books of everybody, with request id of p undecided. */
  ghost predicate LedgersBut(s: State, p: nat, id: nat) {
    && |s.logs| == |s.procs| && p < |s.procs|
    && (forall u | 0 <= u < |s.procs| && u != p && Alive(s.procs[u]) :: Ledger(s.procs, s.logs, u, -1))
    && Ledger(s.procs, s.logs, p, id)
  }

  /** The others' books after a change in process p. */
  lemma OthersKept(s: State, r: State, p: nat)
    requires |s.logs| == |s.procs| && p < |s.procs| <= |r.procs| == |r.logs|
    requires forall u | 0 <= u < |s.procs| && u != p && Alive(s.procs[u]) :: Ledger(s.procs, s.logs, u, -1)
    requires forall u | 0 <= u < |s.procs| && u != p && Alive(s.procs[u]) ::
      BooksKept(s.procs, s.logs, r.procs, r.logs, u)
    requires forall u | 0 <= u < |s.procs| :: Alive(r.procs[u]) ==> Alive(s.procs[u])
    ensures forall u | 0 <= u < |s.procs| && u != p && Alive(r.procs[u]) :: Ledger(r.procs, r.logs, u, -1)
  {
    forall u | 0 <= u < |s.procs| && u != p && Alive(r.procs[u]) ensures Ledger(r.procs, r.logs, u, -1) {
      BooksFrame(s.procs, s.logs, r.procs, r.logs, u, -1);
    }
  }

  // ---------------------------------------------------------------- deciding a request

  lemma SettledLedger(procs: seq<Proc>, logs: seq<Log>, p: nat, id: nat, c: Cqe, full: bool)
    requires Ledger(procs, logs, p, id)
    requires c.tag == logs[p].reqs[id].tag && Answer(procs, p, logs[p].reqs[id], logs[p].able[id], c.result)
    ensures Ledger(procs, logs[p := Settled(logs[p], id, c, full)], p, -1)
  {
    hide Answer;
    hide Overtaken;
    hide Accepts;
    var l, l' := logs[p], Settled(logs[p], id, c, full);
    var logs' := logs[p := l'];
    CountUpdate(l.fate, id, l'.fate[id]);
    forall i | 0 <= i < |l'.fate| ensures FateAt(procs, logs', p, i) {
      if i != id {
        assert FateAt(procs, logs, p, i);
      }
    }
    forall k | 0 <= k < |l'.posted| ensures OriginAt(l', k) {
      if k < |l.posted| {
        assert OriginAt(l, k);
      }
    }
    forall j | 0 <= j < 8 ensures SlotAt(procs[p], l', j, -1) {
      assert SlotAt(procs[p], l, j, id);
    }
    forall u | 0 <= u < |procs| ensures ChildAt(procs, logs', p, u, -1) {
      assert ChildAt(procs, logs, p, u, id);
    }
  }

  lemma CompleteLedgers(s: State, p: nat, id: nat, c: Cqe)
    requires Ringed(s, p) && id < |s.logs[p].fate| && LedgersBut(s, p, id)
    requires c.tag == s.logs[p].reqs[id].tag && Answer(s.procs, p, s.logs[p].reqs[id], s.logs[p].able[id], c.result)
    ensures LedgersOk(Complete(s, p, id, c))
  {
    hide Ledger;
    hide Answer;
    var r := Complete(s, p, id, c);
    SettledLedger(s.procs, s.logs, p, id, c, CqFull(s.procs[p].ring.value));
    BooksFrame(s.procs, r.logs, r.procs, r.logs, p, -1);
    OthersKept(s, r, p);
  }

  lemma ParkedLedger(procs: seq<Proc>, logs: seq<Log>, p: nat, id: nat, q: Pending, j: nat)
    requires Ledger(procs, logs, p, id) && j < 8 && procs[p].pending[j].None?
    requires logs[p].reqs[id].op == OP_READ
      && q == Pending(logs[p].reqs[id].arg0, logs[p].reqs[id].arg1, logs[p].reqs[id].tag)
    requires q.len > 0 && Accepts(procs[p].ranges, q.buf, q.len, true)
    requires procs[p].parent != Some(p)
    ensures Ledger(procs[p := procs[p].(pending := procs[p].pending[j := Some(q)])],
                   logs[p := logs[p].(slots := logs[p].slots[j := id], fate := logs[p].fate[id := Parked(j)])], p, -1)
  {
    hide Answer;
    hide Overtaken;
    hide Accepts;
    var l, l' := logs[p], logs[p].(slots := logs[p].slots[j := id], fate := logs[p].fate[id := Parked(j)]);
    var procs', logs' := procs[p := procs[p].(pending := procs[p].pending[j := Some(q)])], logs[p := l'];
    CountUpdate(l.fate, id, Parked(j));
    forall i | 0 <= i < |l'.fate| ensures FateAt(procs', logs', p, i) {
      if i != id {
        assert FateAt(procs, logs, p, i);
        AnswerKept(procs, procs', p, l.reqs[i], l.able[i]);
      }
    }
    forall k | 0 <= k < |l'.posted| ensures OriginAt(l', k) {
      assert OriginAt(l, k);
    }
    forall u | 0 <= u < 8 ensures SlotAt(procs'[p], l', u, -1) {
      assert SlotAt(procs[p], l, u, id);
    }
    forall u | 0 <= u < |procs| ensures ChildAt(procs', logs', p, u, -1) {
      assert ChildAt(procs, logs, p, u, id);
    }
  }

  /** Answers stay right: parents and images do not change, and exit codes are for good. */
  lemma AnswerKept(procs: seq<Proc>, procs': seq<Proc>, p: nat, e: Sqe, able: bool)
    requires p < |procs| <= |procs'| && procs'[p].ranges == procs[p].ranges
    requires forall c | 0 <= c < |procs| ::
      procs'[c].parent == procs[c].parent && (procs[c].exitCode.Some? ==> procs'[c].exitCode == procs[c].exitCode)
    ensures forall r | Answer(procs, p, e, able, r) :: Answer(procs', p, e, able, r)
  {
    hide Accepts;
  }

  lemma ParkLedgers(s: State, p: nat, id: nat, q: Pending)
    requires Ringed(s, p) && id < |s.logs[p].fate| && LedgersBut(s, p, id)
    requires s.logs[p].reqs[id].op == OP_READ
    requires q == Pending(s.logs[p].reqs[id].arg0, s.logs[p].reqs[id].arg1, s.logs[p].reqs[id].tag)
    requires q.len > 0 && Accepts(s.procs[p].ranges, q.buf, q.len, true)
    requires s.procs[p].parent != Some(p)
    requires s.logs[p].able[id] ==> exists j :: 0 <= j < 8 && s.procs[p].pending[j].None?
    ensures LedgersOk(Park(s, p, id, q))
  {
    hide Ledger;
    hide Complete;
    hide Accepts;
    var slot := FreeSlotFrom(s.procs[p].pending, 0);
    if slot.None? {
      CompleteLedgers(s, p, id, Cqe(q.tag, ERR));
    } else {
      var r := Park(s, p, id, q);
      ParkedLedger(s.procs, s.logs, p, id, q, slot.value);
      OthersKept(s, r, p);
    }
  }

  lemma NotedLedgers(s: State, p: nat, e: Sqe, able: bool)
    requires LedgersOk(s) && p < |s.procs| && Alive(s.procs[p]) && s.procs[p].ring.Some?
    ensures LedgersBut(s.(logs := s.logs[p := Noted(s.logs[p], e, able)]), p, |s.logs[p].fate|)
  {
    hide Answer;
    hide Accepts;
    var l, l' := s.logs[p], Noted(s.logs[p], e, able);
    var logs', id := s.logs[p := l'], |s.logs[p].fate|;
    var r := s.(logs := logs');
    assert Ledger(s.procs, s.logs, p, -1);
    CountAppend(l.fate, Open);
    forall i | 0 <= i < |l'.fate| && i != id ensures FateAt(s.procs, logs', p, i) {
      assert FateAt(s.procs, s.logs, p, i);
      assert Overtaken(l.reqs, i) ==> Overtaken(l'.reqs, i) by { OvertakenGrows(l.reqs, e, i); }
    }
    forall k | 0 <= k < |l'.posted| ensures OriginAt(l', k) {
      assert OriginAt(l, k);
    }
    forall j | 0 <= j < 8 ensures SlotAt(s.procs[p], l', j, id) {
      assert SlotAt(s.procs[p], l, j, -1);
    }
    forall u | 0 <= u < |s.procs| ensures ChildAt(s.procs, logs', p, u, id) {
      assert ChildAt(s.procs, s.logs, p, u, -1);
    }
    OthersKept(s, r, p);
  }

  lemma OvertakenGrows(reqs: seq<Sqe>, e: Sqe, i: nat)
    requires i < |reqs|
    ensures Overtaken(reqs, i) ==> Overtaken(reqs + [e], i)
  {
    if Overtaken(reqs, i) {
      var j :| i < j < |reqs| && reqs[j].op == OP_WAIT && reqs[j].arg0 == reqs[i].arg0;
      assert (reqs + [e])[j] == reqs[j];
    }
  }

  /** The fates after the registration: the earlier wait on the child, if any, is overtaken. */
  lemma RegisteredFates(s: State, p: nat, id: nat, h: nat, i: nat)
    requires p < |s.procs| == |s.logs| && Ledger(s.procs, s.logs, p, id) && id + 1 == |s.logs[p].fate|
    requires IsChild(s.procs, p, h) && h != p && i < |s.logs[p].fate|
    requires s.logs[p].reqs[id].op == OP_WAIT && s.logs[p].reqs[id].arg0 == h
    ensures s.logs[p].fate[i] == Waiting(h) && i != id ==> s.procs[h].exitWaiter.Some? && s.logs[h].asked == i
    ensures s.logs[p].fate[i] == Waiting(h) && i != id
      ==> Overtaken(s.logs[p].reqs, i) && s.logs[p].able[i] && s.logs[p].reqs[i].op == OP_WAIT
    ensures s.procs[h].exitWaiter.Some? ==> s.logs[h].asked < id && s.logs[p].fate[s.logs[h].asked] == Waiting(h)
  {
    hide Answer;
    hide Accepts;
    assert ChildAt(s.procs, s.logs, p, h, id);
    if i != id {
      assert FateAt(s.procs, s.logs, p, i);
    }
  }

  lemma RegisteredFateAt(s: State, p: nat, id: nat, h: nat, tag: Word, i: nat)
    requires Ringed(s, p) && id + 1 == |s.logs[p].fate| && Ledger(s.procs, s.logs, p, id)
    requires IsChild(s.procs, p, h) && h != p && Alive(s.procs[h]) && i <= id
    requires s.logs[p].reqs[id].op == OP_WAIT && s.logs[p].able[id]
    requires s.logs[p].reqs[id].arg0 == h && s.logs[p].reqs[id].tag == tag
    ensures LogShape(Register(s, p, id, h, tag).logs[p]) && i < |Register(s, p, id, h, tag).logs[p].fate|
    ensures FateAt(Register(s, p, id, h, tag).procs, Register(s, p, id, h, tag).logs, p, i)
  {
    hide Answer;
    hide Accepts;
    hide Overtaken;
    RegisteredFates(s, p, id, h, i);
    if i != id {
      assert FateAt(s.procs, s.logs, p, i);
      AnswerKept(s.procs, Register(s, p, id, h, tag).procs, p, s.logs[p].reqs[i], s.logs[p].able[i]);
    }
  }

  lemma RegisteredLedger(s: State, p: nat, id: nat, h: nat, tag: Word)
    requires Ringed(s, p) && id + 1 == |s.logs[p].fate| && Ledger(s.procs, s.logs, p, id)
    requires IsChild(s.procs, p, h) && h != p && Alive(s.procs[h])
    requires s.logs[p].reqs[id].op == OP_WAIT && s.logs[p].able[id]
    requires s.logs[p].reqs[id].arg0 == h && s.logs[p].reqs[id].tag == tag
    ensures Ledger(Register(s, p, id, h, tag).procs, Register(s, p, id, h, tag).logs, p, -1)
  {
    hide FateAt;
    var r := Register(s, p, id, h, tag);
    var l, l', last := s.logs[p], r.logs[p], s.logs[h].asked;
    RegisteredFates(s, p, id, h, id);
    if s.procs[h].exitWaiter.Some? {
      CountUpdate(l.fate, last, Superseded);
      CountUpdate(l.fate[last := Superseded], id, Waiting(h));
    } else {
      CountUpdate(l.fate, id, Waiting(h));
    }
    forall i | 0 <= i < |l'.fate| ensures FateAt(r.procs, r.logs, p, i) {
      RegisteredFateAt(s, p, id, h, tag, i);
    }
    forall k | 0 <= k < |l'.posted| ensures OriginAt(l', k) {
      assert OriginAt(l, k);
    }
    forall j | 0 <= j < 8 ensures SlotAt(r.procs[p], l', j, -1) {
      assert SlotAt(s.procs[p], l, j, id);
    }
    forall u | 0 <= u < |s.procs| ensures ChildAt(r.procs, r.logs, p, u, -1) {
      assert ChildAt(s.procs, s.logs, p, u, id);
    }
  }

  lemma RegisterLedgers(s: State, p: nat, id: nat, h: nat, tag: Word)
    requires Ringed(s, p) && id + 1 == |s.logs[p].fate| && LedgersBut(s, p, id)
    requires IsChild(s.procs, p, h) && h != p && Alive(s.procs[h])
    requires s.logs[p].reqs[id].op == OP_WAIT && s.logs[p].able[id]
    requires s.logs[p].reqs[id].arg0 == h && s.logs[p].reqs[id].tag == tag
    ensures LedgersOk(Register(s, p, id, h, tag))
  {
    hide Ledger;
    RegisteredLedger(s, p, id, h, tag);
    OthersKept(s, Register(s, p, id, h, tag), p);
  }

  /** Parents are older than their children. */
  ghost predicate NoOrphans(procs: seq<Proc>) {
    forall c | 0 <= c < |procs| && procs[c].parent.Some? :: procs[c].parent.value < c
  }

  lemma BornLedgers(s: State, p: nat, id: nat, root: nat, ranges: seq<Range>)
    requires LedgersBut(s, p, id) && id < |s.logs[p].fate| && NoOrphans(s.procs)
    ensures LedgersBut(Born(s, p, root, ranges), p, id)
  {
    hide Ledger;
    var r := Born(s, p, root, ranges);
    BooksFrame(s.procs, s.logs, r.procs, r.logs, p, id);
    OthersKept(s, r, p);
    forall u | |s.procs| <= u < |r.procs| ensures Ledger(r.procs, r.logs, u, -1) {
      NewLedger(r, u);
    }
  }

  /** A process that has consumed nothing, and that nobody can wait on a child of. */
  lemma NewLedger(r: State, u: nat)
    requires u < |r.procs| == |r.logs| && r.logs[u] == NewLog() && |r.procs[u].pending| == 8
      && r.procs[u].pending == NoReads()
    requires forall c | 0 <= c < |r.procs| :: r.procs[c].parent != Some(u) || r.procs[c].exitWaiter.None?
    ensures Ledger(r.procs, r.logs, u, -1)
  {
  }

  // ---------------------------------------------------------------- requests

  lemma ReadLedgers(s: State, p: nat, id: nat, e: Sqe)
    requires Ringed(s, p) && id < |s.logs[p].fate| && LedgersBut(s, p, id)
    requires s.logs[p].reqs[id] == e && e.op == OP_READ && s.procs[p].parent != Some(p)
    requires s.logs[p].able[id] ==> exists j :: 0 <= j < 8 && s.procs[p].pending[j].None?
    ensures LedgersOk(ReadOp(s, p, id, e))
  {
    hide Ledger;
    hide Complete;
    hide Park;
    hide Accepts;
    if !Accepts(s.procs[p].ranges, e.arg0, e.arg1, true) {
      CompleteLedgers(s, p, id, Cqe(e.tag, ERR));
    } else if e.arg1 == 0 {
      CompleteLedgers(s, p, id, Cqe(e.tag, 0));
    } else {
      var (con, count) :=
        if Foreground(s.procs) == Some(p) then Deliver(s.console, Facing(s, p), p, id, e.arg0, e.arg1, 0)
        else (s.console, 0);
      var s1 := s.(console := con);
      if Foreground(s.procs) == Some(p) {
        DeliverBound(s.console, Facing(s, p), p, id, e.arg0, e.arg1, 0);
      }
      if count > 0 {
        CompleteLedgers(s1, p, id, Cqe(e.tag, count));
      } else {
        ParkLedgers(s1, p, id, Pending(e.arg0, e.arg1, e.tag));
      }
    }
  }

  lemma {:induction false} DeliverBound(con: Console, m: Target, p: nat, id: nat, buf: nat, len: nat, count: nat)
    requires count <= len
    ensures count <= Deliver(con, m, p, id, buf, len, count).1 <= len
    decreases len - count
  {
    hide Accepts;
    hide Lands;
    if count < len && con.input != [] && !con.halted && Takes(m, buf + count) {
      DeliverBound(Landed(con, m, p, id, buf + count), m, p, id, buf, len, count + 1);
    }
  }

  lemma SpawnLedgers(s: State, p: nat, id: nat, e: Sqe, env: Env)
    requires Ringed(s, p) && id < |s.logs[p].fate| && LedgersBut(s, p, id)
    requires s.logs[p].reqs[id] == e && e.op == OP_SPAWN && NoOrphans(s.procs)
    requires s.logs[p].able[id] == Able(s.procs, p, id, e, env)
    ensures LedgersOk(SpawnOp(s, p, id, e, env))
  {
    hide Ledger;
    hide Complete;
    hide Accepts;
    if !Accepts(s.procs[p].ranges, e.arg0, e.arg1, false) || env.image(id).None? {
      CompleteLedgers(s, p, id, Cqe(e.tag, ERR));
    } else {
      var r := Born(s, p, env.root(|s.procs|), env.image(id).value);
      BornLedgers(s, p, id, env.root(|s.procs|), env.image(id).value);
      CompleteLedgers(r, p, id, Cqe(e.tag, |s.procs|));
    }
  }

  lemma WaitLedgers(s: State, p: nat, id: nat, e: Sqe)
    requires Ringed(s, p) && id + 1 == |s.logs[p].fate| && LedgersBut(s, p, id) && !IsChild(s.procs, p, p)
    requires s.logs[p].reqs[id] == e && e.op == OP_WAIT && s.logs[p].able[id] == IsChild(s.procs, p, e.arg0)
    ensures LedgersOk(WaitOp(s, p, id, e))
  {
    hide Ledger;
    hide Complete;
    hide Register;
    var h := e.arg0;
    if !IsChild(s.procs, p, h) {
      CompleteLedgers(s, p, id, Cqe(e.tag, ERR));
    } else if s.procs[h].exitCode.Some? {
      CompleteLedgers(s, p, id, Cqe(e.tag, s.procs[h].exitCode.value));
    } else {
      RegisterLedgers(s, p, id, h, e.tag);
    }
  }

  lemma ProcessLedgers(s: State, p: nat, e: Sqe, env: Env)
    requires Ringed(s, p) && LedgersOk(s) && Alive(s.procs[p]) && NoOrphans(s.procs)
    ensures !IsChild(s.procs, p, p) && LedgersOk(Process(s, p, e, env))
  {
    hide LedgersOk;
    hide LedgersBut;
    hide Complete;
    hide ReadOp;
    hide SpawnOp;
    hide WaitOp;
    hide Accepts;
    var id := |s.logs[p].reqs|;
    var able := Able(s.procs, p, id, e, env);
    var s1 := s.(logs := s.logs[p := Noted(s.logs[p], e, able)]);
    NotedLedgers(s, p, e, able);
    if e.op == OP_NOP {
      CompleteLedgers(s1, p, id, Cqe(e.tag, 0));
    } else if e.op == OP_PRINT {
      CompleteLedgers(s1, p, id, Cqe(e.tag, if Accepts(s.procs[p].ranges, e.arg0, e.arg1, false) then 0 else ERR));
    } else if e.op == OP_READ {
      ReadLedgers(s1, p, id, e);
    } else if e.op == OP_SPAWN {
      SpawnLedgers(s1, p, id, e, env);
    } else if e.op == OP_WAIT {
      WaitLedgers(s1, p, id, e);
    } else {
      CompleteLedgers(s1, p, id, Cqe(e.tag, ERR));
    }
  }

  /** Nothing the books look at has changed. */
  lemma SameLedgers(s: State, r: State)
    requires LedgersOk(s) && |r.procs| == |s.procs| && r.logs == s.logs
    requires forall p | 0 <= p < |s.procs| :: SameBooks(s.procs[p], r.procs[p])
    ensures LedgersOk(r)
  {
    hide Ledger;
    forall p | 0 <= p < |r.procs| && Alive(r.procs[p]) ensures Ledger(r.procs, r.logs, p, -1) {
      assert SameBooks(s.procs[p], r.procs[p]);
      BooksFrame(s.procs, s.logs, r.procs, r.logs, p, -1);
    }
  }

  predicate SameBooks(a: Proc, b: Proc) {
    && a.pending == b.pending && a.ranges == b.ranges && a.parent == b.parent
    && a.exitCode == b.exitCode && a.exitWaiter == b.exitWaiter && (a.ring.Some? ==> b.ring.Some?)
  }

  lemma ConsumeLedgers(s: State, p: nat, env: Env)
    requires Ringed(s, p) && LedgersOk(s) && Alive(s.procs[p]) && NoOrphans(s.procs)
    ensures !IsChild(s.procs, p, p) && LedgersOk(Consume(s, p, env))
  {
    hide LedgersOk;
    hide Process;
    var e := NextSqe(s.procs[p].ring.value);
    ProcessLedgers(s, p, e, env);
    SameLedgers(Process(s, p, e, env), Consume(s, p, env));
  }

  lemma KeptOrphans(s: State, r: State, p: nat, env: Env)
    requires p < |s.procs| == |s.logs| && |s.clients| == |s.procs|
    requires Kept(s, r, p, env) && NoOrphans(s.procs)
    ensures NoOrphans(r.procs) && Alive(r.procs[p]) == Alive(s.procs[p])
  {
    forall c | 0 <= c < |r.procs| && r.procs[c].parent.Some? ensures r.procs[c].parent.value < c {
      assert c < |s.procs| && c != p ==> OtherKept(s.procs[c], r.procs[c], p);
      assert c >= |s.procs| ==> Child(r, c, p, env);
    }
  }

  lemma {:induction false} DrainLedgers(s: State, p: nat, env: Env)
    requires Ringed(s, p) && LedgersOk(s) && Alive(s.procs[p]) && NoOrphans(s.procs)
    ensures !IsChild(s.procs, p, p) && LedgersOk(Drain(s, p, env))
    decreases Sub(s.procs[p].ring.value.sqTail, s.procs[p].ring.value.sqHead)
  {
    hide LedgersOk;
    hide Consume;
    if !Empty(s.procs[p].ring.value) {
      var r := Consume(s, p, env);
      ConsumeKept(s, p, env);
      TailKept(s, r, p, env);
      KeptOrphans(s, r, p, env);
      ConsumeLedgers(s, p, env);
      DrainLedgers(r, p, env);
    }
  }

  // ---------------------------------------------------------------- parked reads

  lemma ClearedLedger(procs: seq<Proc>, logs: seq<Log>, p: nat, i: nat)
    requires Ledger(procs, logs, p, -1) && i < 8 && procs[p].pending[i].Some?
    ensures logs[p].slots[i] < |logs[p].fate|
    ensures Ledger(procs[p := procs[p].(pending := procs[p].pending[i := None])], logs, p, logs[p].slots[i])
  {
    hide Accepts;
    hide Answer;
    hide Overtaken;
    var l, id := logs[p], logs[p].slots[i];
    var procs' := procs[p := procs[p].(pending := procs[p].pending[i := None])];
    assert SlotAt(procs[p], l, i, -1);
    forall u | 0 <= u < |l.fate| && u != id ensures FateAt(procs', logs, p, u) {
      assert FateAt(procs, logs, p, u);
      AnswerKept(procs, procs', p, l.reqs[u], l.able[u]);
    }
    forall j | 0 <= j < 8 ensures SlotAt(procs'[p], l, j, id) {
      assert SlotAt(procs[p], l, j, -1);
    }
    forall c | 0 <= c < |procs| ensures ChildAt(procs', logs, p, c, id) {
      assert ChildAt(procs, logs, p, c, -1);
    }
  }

  /** Serving a parked read: it leaves its slot and is completed with what it got. */
  lemma ServedLedgers(s: State, p: nat, i: nat, con: Console, count: nat)
    requires Ringed(s, p) && Alive(s.procs[p]) && LedgersOk(s) && i < 8 && s.procs[p].pending[i].Some?
    requires 0 < count <= s.procs[p].pending[i].value.len
    ensures s.logs[p].slots[i] < |s.logs[p].fate| && LedgersOk(Layouts.Served(s, p, i, con, count))
  {
    hide Ledger;
    hide Accepts;
    var id := s.logs[p].slots[i];
    var s1 := s.(console := con, procs := s.procs[p := s.procs[p].(pending := s.procs[p].pending[i := None])]);
    ClearedLedger(s.procs, s.logs, p, i);
    OthersKept(s, s1, p);
    ParkedIs(s.procs, s.logs, p, i);
    CompleteLedgers(s1, p, id, Cqe(s.procs[p].pending[i].value.tag, count));
    ServedIs(s, s1, p, i, con, count);
  }

  lemma ParkedIs(procs: seq<Proc>, logs: seq<Log>, p: nat, i: nat)
    requires Ledger(procs, logs, p, -1) && i < 8 && procs[p].pending[i].Some?
    ensures var id, q := logs[p].slots[i], procs[p].pending[i].value;
      && id < |logs[p].fate| && logs[p].reqs[id].op == OP_READ
      && q == Pending(logs[p].reqs[id].arg0, logs[p].reqs[id].arg1, logs[p].reqs[id].tag)
      && q.len > 0 && Accepts(procs[p].ranges, q.buf, q.len, true)
  {
    assert SlotAt(procs[p], logs[p], i, -1);
    assert FateAt(procs, logs, p, logs[p].slots[i]);
  }

  lemma ServedIs(s: State, s1: State, p: nat, i: nat, con: Console, count: nat)
    requires Ringed(s, p) && i < 8 && s.procs[p].pending[i].Some? && s.logs[p].slots[i] < |s.logs[p].fate|
    requires s1 == s.(console := con, procs := s.procs[p := s.procs[p].(pending := s.procs[p].pending[i := None])])
    ensures Layouts.Served(s, p, i, con, count)
      == Complete(s1, p, s.logs[p].slots[i], Cqe(s.procs[p].pending[i].value.tag, count))
  {
    hide Post;
    hide Settled;
  }

  lemma {:induction false} PollSlotsLedgers(s: State, p: nat, i: nat)
    requires Ringed(s, p) && i <= 8 && Alive(s.procs[p]) && LedgersOk(s)
    ensures LedgersOk(PollSlots(s, p, i).0)
    decreases 8 - i
  {
    hide Ledger;
    hide Complete;
    hide Deliver;
    if i < 8 {
      if s.procs[p].pending[i].None? {
        PollSlotsLedgers(s, p, i + 1);
      } else {
        var q := s.procs[p].pending[i].value;
        DeliverBound(s.console, Facing(s, p), p, s.logs[p].slots[i], q.buf, q.len, 0);
        var (con, count) := Deliver(s.console, Facing(s, p), p, s.logs[p].slots[i], q.buf, q.len, 0);
        if count == 0 {
          PollSlotsLedgers(s.(console := con), p, i + 1);
        } else {
          ServedLedgers(s, p, i, con, count);
          ServedKept(s, p, i, con, count);
          PollSlotsLedgers(Layouts.Served(s, p, i, con, count), p, i + 1);
        }
      }
    }
  }

  // ---------------------------------------------------------------- exit

  function WithGone(s: State, p: nat, code: int): State
    requires p < |s.procs|
  {
    s.(procs := s.procs[p := Gone(s.procs[p], code)])
  }

  /** The parent's books when its child is gone: the wait on it is to be decided now. */
  lemma GoneLedger(s: State, p: nat, code: int, q: nat)
    requires Ledger(s.procs, s.logs, q, -1) && p < |s.procs| && p != q && Alive(s.procs[p])
    requires s.procs[p].parent == Some(q) && s.procs[p].exitWaiter.Some?
    ensures s.logs[p].asked < |s.logs[q].fate|
    ensures Ledger(WithGone(s, p, code).procs, s.logs, q, s.logs[p].asked)
    ensures var e := s.logs[q].reqs[s.logs[p].asked];
      e.op == OP_WAIT && s.logs[q].able[s.logs[p].asked] && e.arg0 == p && s.procs[p].exitWaiter == Some(e.tag)
  {
    hide Accepts;
    hide Answer;
    hide Overtaken;
    var r, id, l := WithGone(s, p, code), s.logs[p].asked, s.logs[q];
    assert ChildAt(s.procs, s.logs, q, p, -1);
    assert FateAt(s.procs, s.logs, q, id);
    forall u | 0 <= u < |l.fate| && u != id ensures FateAt(r.procs, s.logs, q, u) {
      assert FateAt(s.procs, s.logs, q, u);
      AnswerKept(s.procs, r.procs, q, l.reqs[u], l.able[u]);
    }
    forall j | 0 <= j < 8 ensures SlotAt(r.procs[q], l, j, id) {
      assert SlotAt(s.procs[q], l, j, -1);
    }
    forall c | 0 <= c < |s.procs| ensures ChildAt(r.procs, s.logs, q, c, id) {
      assert ChildAt(s.procs, s.logs, q, c, -1);
    }
  }

  /** Everybody else's books do not notice. */
  lemma GoneElsewhere(s: State, p: nat, code: int, u: nat)
    requires Ledger(s.procs, s.logs, u, -1) && p < |s.procs| && u != p && Alive(s.procs[p])
    requires s.procs[p].parent != Some(u) || s.procs[p].exitWaiter.None?
    ensures Ledger(WithGone(s, p, code).procs, s.logs, u, -1)
  {
    BooksFrame(s.procs, s.logs, WithGone(s, p, code).procs, s.logs, u, -1);
  }

  lemma ExitBooks(s: State, p: nat, code: int)
    requires Layout(s) && p < |s.procs|
    ensures |s.logs| == |s.procs| && |s.clients| == |s.procs|
    ensures var r, g, me := Exit(s, p, code), WithGone(s, p, code), s.procs[p];
      if me.exitWaiter.Some? && me.parent.Some? && Ringed(s, me.parent.value)
        && s.logs[p].asked < |s.logs[me.parent.value].fate| then
        var c := Complete(g, me.parent.value, s.logs[p].asked, Cqe(me.exitWaiter.value, code));
        r.logs == c.logs && |r.procs| == |c.procs| && forall u | 0 <= u < |r.procs| :: SameBooks(c.procs[u], r.procs[u])
      else
        r.logs == s.logs && |r.procs| == |g.procs| && forall u | 0 <= u < |r.procs| :: SameBooks(g.procs[u], r.procs[u])
  {
    hide Layout;
    hide Exit;
    hide Switch;
    hide Post;
    hide Settled;
    Basics(s);
    ExitIs(s, p, code);
    assert ProcShape(s.procs[p], p);
  }

  lemma ExitLedgers(s: State, p: nat, code: int)
    requires Layout(s) && LedgersOk(s) && p < |s.procs| && Alive(s.procs[p])
    ensures |s.logs| == |s.procs| && |s.clients| == |s.procs| && LedgersOk(Exit(s, p, code))
  {
    hide Layout;
    hide Ledger;
    hide Exit;
    hide Complete;
    Basics(s);
    ExitBooks(s, p, code);
    var r, g, me := Exit(s, p, code), WithGone(s, p, code), s.procs[p];
    assert ProcShape(me, p);
    forall u | 0 <= u < |s.procs| && u != p && Alive(s.procs[u]) && (me.parent != Some(u) || me.exitWaiter.None?)
      ensures Ledger(g.procs, s.logs, u, -1)
    {
      GoneElsewhere(s, p, code, u);
    }
    if me.exitWaiter.Some? && me.parent.Some? && Alive(s.procs[me.parent.value]) {
      var q, id := me.parent.value, s.logs[p].asked;
      GoneLedger(s, p, code, q);
      HasRing(s, q);
      CompleteLedgers(g, q, id, Cqe(me.exitWaiter.value, code));
      SameLedgers(Complete(g, q, id, Cqe(me.exitWaiter.value, code)), r);
    } else {
      SameLedgers(g, r);
    }
  }

  lemma HasRing(s: State, q: nat)
    requires Layout(s) && Ledger(s.procs, s.logs, q, -1) && |s.logs[q].fate| > 0
    ensures Ringed(s, q)
  {
    assert ProcShape(s.procs[q], q);
  }

  // ---------------------------------------------------------------- steps

  lemma LayoutOrphans(s: State)
    requires Layout(s)
    ensures NoOrphans(s.procs)
    ensures forall p | 0 <= p < |s.procs| && s.procs[p].ring.Some? :: Alive(s.procs[p])
  {
    forall c | 0 <= c < |s.procs|
      ensures s.procs[c].parent.Some? ==> s.procs[c].parent.value < c
      ensures s.procs[c].ring.Some? ==> Alive(s.procs[c])
    {
      assert ProcShape(s.procs[c], c);
    }
  }

  lemma EnterLedgers(s: State, p: nat, min: nat, env: Env)
    requires Shape(s) && LedgersOk(s) && Ringed(s, p)
    ensures Callable(s, p) && LedgersOk(Enter(s, p, min, env))
  {
    hide Layout;
    hide LedgersOk;
    hide Drain;
    hide Switch;
    Basics(s);
    RousedLayout(s, p);
    var s1 := Roused(s, p);
    SameLedgers(s, s1);
    LayoutOrphans(s1);
    DrainLedgers(s1, p, env);
    DrainEnds(s1, p, env);
    var s2 := Drain(s1, p, env);
    SameLedgers(s2, Check(s2, p, min));
  }

  lemma UartLedgers(s: State, bytes: seq<Byte>)
    requires Layout(s) && LedgersOk(s) && |s.console.input| <= Input.CAPACITY
    ensures LedgersOk(UartIrq(s, bytes))
  {
    hide PollSlots;
    hide Layout;
    hide LedgersOk;
    LayoutOrphans(s);
    var s0 := s.(console := Arrived(s.console, bytes));
    SameLedgers(s, s0);
    var fg := Foreground(s0.procs);
    if fg.Some? && Ringed(s0, fg.value) {
      var p := fg.value;
      var s1 := s0.(cpu := s0.cpu.(live := s0.procs[p].root));
      SameLedgers(s0, s1);
      PollSlotsKept(s1, p, 0);
      PollSlotsLedgers(s1, p, 0);
      SameLedgers(PollSlots(s1, p, 0).0, UartIrq(s, bytes));
    }
  }

  lemma PollerLedgers(s: State, env: Env)
    requires Shape(s) && LedgersOk(s) && s.cpu.current == s.boot.poller
    ensures PollOk(s) && LedgersOk(PollStep(s, env))
  {
    hide Layout;
    hide LedgersOk;
    hide Drain;
    hide Switch;
    PollerLayout(s, env);
    Basics(s);
    LayoutOrphans(s);
    if s.poll.pc.Scan? && s.poll.pc.i < s.poll.pc.n && HasSubmissions(s, s.poll.pc.i) {
      var i := s.poll.pc.i;
      var s2 := s.(cpu := s.cpu.(live := s.procs[i].root), poll := s.poll.(pc := Scan(i + 1, s.poll.pc.n, true)));
      SameLedgers(s, s2);
      DrainLedgers(s2, i, env);
    } else if s.poll.pc == Decide(false) && s.cpu.ticks - s.poll.lastWork >= SQ_IDLE_TICKS {
      SameLedgers(s, Sleep(s));
    } else if s.poll.pc.Clear? && s.poll.pc.i < s.poll.pc.n {
      SameLedgers(s, PollStep(s, env));
    } else {
      IdleStep(s, env);
      SameLedgers(s, PollStep(s, env));
    }
  }

  /** Every step of the system keeps the books of every live process. */
  lemma TrapLedgers(s: State, p: nat, min: nat, env: Env)
    requires Shape(s) && LedgersOk(s) && Callable(s, p) && p < |s.clients|
    ensures LedgersOk(Trap(s, p, min, env))
  {
    hide Layout;
    hide LedgersOk;
    hide Enter;
    Basics(s);
    var s1 := Submitted(s, p);
    ClientLayout(s, s1);
    SameLedgers(s, s1);
    EnterLedgers(s1, p, min, env);
  }

  lemma NextLedgers(s: State, a: Action)
    requires Ready(s) && Enables(s, a) && LedgersOk(s)
    ensures LedgersOk(Next(s, a))
  {
    hide Layout;
    hide LedgersOk;
    hide Happen;
    hide Enabled;
    hide UartIrq;
    hide PollStep;
    hide Exit;
    hide Trap;
    hide Switch;
    Basics(s);
    match a
    case Uart(bytes) => UartLedgers(s, bytes);
    case Poller(env) => PollerLedgers(s, env);
    case CallEnter(min, env) =>
      TrapLedgers(s, Pid(s), min, env);
    case Leave(code) =>
      LiveUser(s);
      ExitLedgers(s, Pid(s), code);
    case _ => SameLedgers(s, Next(s, a));
  }
}
