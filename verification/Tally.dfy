/**
 Conservation of tags: the tags a process's requests were consumed with are those posted, those
 of parked reads, those of registered waits, those dropped and those overtaken, as multisets.
 */
module Tally {
  import opened Bits
  import opened Frames
  import opened Rings
  import opened Kernel
  import opened Fates
  import opened Machine

  datatype Class = IsOpen | IsPosted | IsDropped | IsParked | IsWaiting | IsSuperseded

  function ClassOf(f: Fate): Class {
    match f
    case Open => IsOpen
    case Posted(_) => IsPosted
    case Dropped(_) => IsDropped
    case Parked(_) => IsParked
    case Waiting(_) => IsWaiting
    case Superseded => IsSuperseded
  }

  /** Where a fate says its request is held: the completion, the slot, the child. */
  function Place(f: Fate): nat {
    match f
    case Posted(k) => k
    case Parked(j) => j
    case Waiting(c) => c
    case _ => 0
  }

  /** The tags of the requests whose fate is of one class. */
  function Tags(reqs: seq<Sqe>, fate: seq<Fate>, cls: Class): multiset<Word>
    requires |reqs| == |fate|
  {
    if reqs == [] then multiset{}
    else
      var n := |reqs| - 1;
      Tags(reqs[..n], fate[..n], cls) + If(ClassOf(fate[n]) == cls, multiset{reqs[n].tag})
  }

  function AllTags(reqs: seq<Sqe>): multiset<Word> {
    if reqs == [] then multiset{} else AllTags(reqs[..|reqs| - 1]) + multiset{reqs[|reqs| - 1].tag}
  }

  function If(b: bool, x: multiset<Word>): multiset<Word> {
    if b then x else multiset{}
  }

  lemma AddToOne(a: multiset<Word>, b: multiset<Word>, c: multiset<Word>, d: multiset<Word>, e: multiset<Word>,
    x: multiset<Word>, k: Class)
    requires k != IsOpen
    ensures (a + If(k == IsPosted, x)) + (b + If(k == IsDropped, x)) + (c + If(k == IsParked, x))
      + (d + If(k == IsWaiting, x)) + (e + If(k == IsSuperseded, x)) == a + b + c + d + e + x
  {
  }

  lemma {:induction false} ClassesAddUp(reqs: seq<Sqe>, fate: seq<Fate>)
    requires |reqs| == |fate| && forall i | 0 <= i < |fate| :: !fate[i].Open?
    ensures AllTags(reqs) == Tags(reqs, fate, IsPosted) + Tags(reqs, fate, IsDropped) + Tags(reqs, fate, IsParked)
      + Tags(reqs, fate, IsWaiting) + Tags(reqs, fate, IsSuperseded)
  {
    if reqs != [] {
      var n := |reqs| - 1;
      ClassesAddUp(reqs[..n], fate[..n]);
      hide If;
      AddToOne(Tags(reqs[..n], fate[..n], IsPosted), Tags(reqs[..n], fate[..n], IsDropped),
        Tags(reqs[..n], fate[..n], IsParked), Tags(reqs[..n], fate[..n], IsWaiting),
        Tags(reqs[..n], fate[..n], IsSuperseded), multiset{reqs[n].tag}, ClassOf(fate[n]));
    }
  }

  /** Taking one request out of its class. */
  lemma {:induction false} TagsWithout(reqs: seq<Sqe>, fate: seq<Fate>, i: nat, cls: Class)
    requires |reqs| == |fate| && i < |fate| && ClassOf(fate[i]) == cls != IsOpen
    ensures Tags(reqs, fate, cls) == Tags(reqs, fate[i := Open], cls) + multiset{reqs[i].tag}
  {
    var n := |reqs| - 1;
    if i < n {
      TagsWithout(reqs[..n], fate[..n], i, cls);
      assert fate[i := Open][..n] == fate[..n][i := Open];
    } else {
      assert fate[i := Open][..n] == fate[..n];
    }
  }

  lemma {:induction false} NoTags(reqs: seq<Sqe>, fate: seq<Fate>, cls: Class)
    requires |reqs| == |fate| && forall i | 0 <= i < |fate| :: ClassOf(fate[i]) != cls
    ensures Tags(reqs, fate, cls) == multiset{}
  {
    if reqs != [] {
      NoTags(reqs[..|reqs| - 1], fate[..|fate| - 1], cls);
    }
  }

  /** A place that holds a request, with the tag it holds for it. */
  datatype Holder = Holder(id: nat, tag: Word)

  function HeldTags(holders: seq<Option<Holder>>): multiset<Word> {
    if holders == [] then multiset{}
    else
      var n := |holders| - 1;
      HeldTags(holders[..n]) + if holders[n].Some? then multiset{holders[n].value.tag} else multiset{}
  }

  /** Places and requests of one class point at each other. */
  ghost predicate Matched(reqs: seq<Sqe>, fate: seq<Fate>, cls: Class, holders: seq<Option<Holder>>) {
    && |reqs| == |fate|
    && (forall k | 0 <= k < |holders| && holders[k].Some? ::
          var h := holders[k].value;
          h.id < |fate| && ClassOf(fate[h.id]) == cls && Place(fate[h.id]) == k && reqs[h.id].tag == h.tag)
    && (forall i | 0 <= i < |fate| && ClassOf(fate[i]) == cls ::
          Place(fate[i]) < |holders| && holders[Place(fate[i])].Some? && holders[Place(fate[i])].value.id == i)
  }

  lemma MatchedLess(reqs: seq<Sqe>, fate: seq<Fate>, cls: Class, holders: seq<Option<Holder>>)
    requires Matched(reqs, fate, cls, holders) && cls != IsOpen && holders != []
    ensures var n := |holders| - 1;
      if holders[n].Some? then
        var i := holders[n].value.id;
        && i < |fate| == |reqs| && ClassOf(fate[i]) == cls && reqs[i].tag == holders[n].value.tag
        && Matched(reqs, fate[i := Open], cls, holders[..n])
      else Matched(reqs, fate, cls, holders[..n])
  {
  }

  /** Then they carry the same tags. */
  lemma {:induction false} MatchedTags(reqs: seq<Sqe>, fate: seq<Fate>, cls: Class, holders: seq<Option<Holder>>)
    requires Matched(reqs, fate, cls, holders) && cls != IsOpen
    ensures |reqs| == |fate| && Tags(reqs, fate, cls) == HeldTags(holders)
    decreases |holders|
  {
    if holders == [] {
      NoTags(reqs, fate, cls);
    } else {
      hide Matched;
      hide Tags;
      MatchedLess(reqs, fate, cls, holders);
      var n := |holders| - 1;
      if holders[n].Some? {
        var i := holders[n].value.id;
        TagsWithout(reqs, fate, i, cls);
        MatchedTags(reqs, fate[i := Open], cls, holders[..n]);
      } else {
        MatchedTags(reqs, fate, cls, holders[..n]);
      }
    }
  }

  function PostedHolders(l: Log): seq<Option<Holder>>
    requires LogShape(l)
  {
    seq(|l.posted|, k requires 0 <= k < |l.posted| => Some(Holder(l.origin[k], l.posted[k].tag)))
  }

  function ParkedHolders(q: Proc, l: Log): seq<Option<Holder>>
    requires LogShape(l) && |q.pending| == 8
  {
    seq(8, j requires 0 <= j < 8 =>
      if q.pending[j].Some? then Some(Holder(l.slots[j], q.pending[j].value.tag)) else None)
  }

  predicate WaitsOn(procs: seq<Proc>, p: nat, c: nat)
    requires c < |procs|
  {
    procs[c].parent == Some(p) && procs[c].exitWaiter.Some?
  }

  function WaitHolders(procs: seq<Proc>, logs: seq<Log>, p: nat): seq<Option<Holder>>
    requires |logs| == |procs|
  {
    seq(|procs|, c requires 0 <= c < |procs| =>
      if WaitsOn(procs, p, c) then Some(Holder(logs[c].asked, procs[c].exitWaiter.value)) else None)
  }

  lemma PostedMatched(procs: seq<Proc>, logs: seq<Log>, p: nat)
    requires Ledger(procs, logs, p, -1)
    ensures Matched(logs[p].reqs, logs[p].fate, IsPosted, PostedHolders(logs[p]))
  {
    hide Answer;
    var l, hs := logs[p], PostedHolders(logs[p]);
    forall k | 0 <= k < |hs| && hs[k].Some?
      ensures var h := hs[k].value; h.id < |l.fate| && l.fate[h.id] == Posted(k) && l.reqs[h.id].tag == h.tag
    {
      assert OriginAt(l, k) && FateAt(procs, logs, p, l.origin[k]);
    }
    forall i | 0 <= i < |l.fate| && ClassOf(l.fate[i]) == IsPosted
      ensures Place(l.fate[i]) < |hs| && hs[Place(l.fate[i])].Some? && hs[Place(l.fate[i])].value.id == i
    {
      assert FateAt(procs, logs, p, i);
    }
  }

  lemma ParkedMatched(procs: seq<Proc>, logs: seq<Log>, p: nat)
    requires Ledger(procs, logs, p, -1)
    ensures Matched(logs[p].reqs, logs[p].fate, IsParked, ParkedHolders(procs[p], logs[p]))
  {
    hide Answer;
    var l, hs := logs[p], ParkedHolders(procs[p], logs[p]);
    forall k | 0 <= k < |hs| && hs[k].Some?
      ensures var h := hs[k].value; h.id < |l.fate| && l.fate[h.id] == Parked(k) && l.reqs[h.id].tag == h.tag
    {
      assert SlotAt(procs[p], l, k, -1) && FateAt(procs, logs, p, l.slots[k]);
    }
    forall i | 0 <= i < |l.fate| && ClassOf(l.fate[i]) == IsParked
      ensures Place(l.fate[i]) < |hs| && hs[Place(l.fate[i])].Some? && hs[Place(l.fate[i])].value.id == i
    {
      assert FateAt(procs, logs, p, i);
    }
  }

  lemma WaitsMatched(procs: seq<Proc>, logs: seq<Log>, p: nat)
    requires Ledger(procs, logs, p, -1)
    ensures Matched(logs[p].reqs, logs[p].fate, IsWaiting, WaitHolders(procs, logs, p))
  {
    hide Answer;
    var l, hs := logs[p], WaitHolders(procs, logs, p);
    forall k | 0 <= k < |hs| && hs[k].Some?
      ensures var h := hs[k].value; h.id < |l.fate| && l.fate[h.id] == Waiting(k) && l.reqs[h.id].tag == h.tag
    {
      assert ChildAt(procs, logs, p, k, -1) && FateAt(procs, logs, p, logs[k].asked);
    }
    forall i | 0 <= i < |l.fate| && ClassOf(l.fate[i]) == IsWaiting
      ensures Place(l.fate[i]) < |hs| && hs[Place(l.fate[i])].Some? && hs[Place(l.fate[i])].value.id == i
    {
      assert FateAt(procs, logs, p, i);
    }
  }

  /** In every reachable state, for every live process: consumed = posted + parked + registered
      waits + dropped + overtaken, tag by tag. */
  lemma TagsConserved(s: State, p: nat)
    requires Reachable(s) && p < |s.procs| && Alive(s.procs[p])
    ensures |s.logs| == |s.procs| && LogShape(s.logs[p]) && |s.procs[p].pending| == 8
    ensures var l := s.logs[p];
      AllTags(l.reqs) == HeldTags(PostedHolders(l)) + HeldTags(ParkedHolders(s.procs[p], l))
        + HeldTags(WaitHolders(s.procs, s.logs, p))
        + Tags(l.reqs, l.fate, IsDropped) + Tags(l.reqs, l.fate, IsSuperseded)
  {
    hide Answer;
    hide Reachable;
    ReachableInv(s);
    BooksOf(s, p);
    var l := s.logs[p];
    forall i | 0 <= i < |l.fate| ensures !l.fate[i].Open? {
      assert FateAt(s.procs, s.logs, p, i);
    }
    ClassesAddUp(l.reqs, l.fate);
    PostedMatched(s.procs, s.logs, p);
    MatchedTags(l.reqs, l.fate, IsPosted, PostedHolders(l));
    ParkedMatched(s.procs, s.logs, p);
    MatchedTags(l.reqs, l.fate, IsParked, ParkedHolders(s.procs[p], l));
    WaitsMatched(s.procs, s.logs, p);
    MatchedTags(l.reqs, l.fate, IsWaiting, WaitHolders(s.procs, s.logs, p));
  }

  lemma BooksOf(s: State, p: nat)
    requires Inv(s) && p < |s.procs| && Alive(s.procs[p])
    ensures Ledger(s.procs, s.logs, p, -1)
  {
    hide Ledger;
  }
}
