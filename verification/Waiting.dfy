/**
 The user library over the kernel: what `wait(tag)` returns is what the kernel posted for the
 request with that tag (user/src/uring.rs over kernel/src/ring.rs).
 */
module Waiting {
  import opened Bits
  import opened Rings
  import opened Kernel
  import opened Steps
  import opened Fates
  import opened Machine
  import opened Results
  import Uring

  /** The counter of the library: every request has a nonzero tag of its own. */
  ghost predicate OwnTags(reqs: seq<Sqe>) {
    && (forall i | 0 <= i < |reqs| :: reqs[i].tag != 0)
    && (forall i, j | 0 <= i < j < |reqs| :: reqs[i].tag != reqs[j].tag)
  }

  /** What process p has not reaped in `s` of what is posted to it by `r`. */
  function Coming(s: State, r: State, p: nat): seq<Cqe>
    requires p < |s.clients| && p < |r.logs|
  {
    var n := |s.clients[p].reaped|;
    if n <= |r.logs[p].posted| then r.logs[p].posted[n..] else []
  }

  /** Completions of requests with tags of their own have tags of their own. */
  lemma PostedDistinct(posted: seq<Cqe>)
    requires forall k | 0 <= k < |posted| :: posted[k].tag != 0
    requires forall k, m | 0 <= k < m < |posted| :: posted[k].tag != posted[m].tag
    ensures Uring.TagsDistinct(multiset(posted))
  {
    forall c | c in multiset(posted) ensures multiset(posted)[c] == 1 {
      var k :| 0 <= k < |posted| && posted[k] == c;
      Once(posted, k);
    }
  }

  lemma Once(posted: seq<Cqe>, k: nat)
    requires k < |posted| && forall m | 0 <= m < |posted| && m != k :: posted[m] != posted[k]
    ensures multiset(posted)[posted[k]] == 1
  {
    var a, b := posted[..k], posted[k + 1..];
    assert posted == a + [posted[k]] + b;
    assert posted[k] !in a && posted[k] !in b;
  }

  lemma SomeDistinct(some: multiset<Cqe>, pool: multiset<Cqe>)
    requires Uring.TagsDistinct(pool) && some <= pool
    ensures Uring.TagsDistinct(some)
  {
    forall c | c in some ensures c in pool && some[c] == 1 {}
  }

  /** What the library holds and what is still to come are parts of what was posted. */
  lemma PartsOf(posted: seq<Cqe>, n: nat, held: multiset<Cqe>, k: nat)
    requires n <= |posted| && held <= multiset(posted[..n]) && k < |posted|
    ensures held + multiset(posted[n..]) <= multiset(posted)
    ensures k >= n ==> posted[k] in multiset(posted[n..])
  {
    assert posted == posted[..n] + posted[n..];
    if k >= n { assert posted[n..][k - n] == posted[k]; }
  }

  /** A run leaves the reaped completions a prefix of the posted ones, and all of those distinct. */
  lemma AtWait(s: State, acts: seq<Action>, p: nat)
    requires Reachable(s) && Runs(s, acts) && p < |s.procs| && s.procs[p].ring.Some? && p < |s.clients|
      && s.clients[p].honest
    requires var r := After(s, acts); p < |r.procs| && Alive(r.procs[p]) && p < |r.logs| && OwnTags(r.logs[p].reqs)
    ensures var r := After(s, acts);
      && |r.logs| == |r.procs| && LogShape(r.logs[p]) && s.clients[p].reaped <= r.logs[p].posted
      && (forall k | 0 <= k < |r.logs[p].posted| :: Answers(r, p, k))
      && (forall i | 0 <= i < |r.logs[p].reqs| :: FateAt(r.procs, r.logs, p, i))
      && Uring.TagsDistinct(multiset(r.logs[p].posted))
  {
    hide Reachable;
    hide Answer;
    hide Uring.TagsDistinct;
    var r := After(s, acts);
    LibraryUser(s, p);
    SettledForGood(s, acts, p);
    RunReachable(s, acts);
    EachRequestOnce(r, p);
    var l := r.logs[p];
    forall k | 0 <= k < |l.posted| ensures l.posted[k].tag != 0 { assert Answers(r, p, k); }
    forall k, m | 0 <= k < m < |l.posted| ensures l.posted[k].tag != l.posted[m].tag {
      assert Answers(r, p, k) && Answers(r, p, m);
    }
    PostedDistinct(l.posted);
  }

  /** `wait(tag)` begun in any reachable state: if by some later state the kernel has posted the
      completion of request i, which has that tag, then the wait returns the result it posted, and
      that is the right answer to request i.  With at most four other completions about, each of
      them stays, in the stash or still to be reaped. */
  method WaitFor(client: Uring.Client, ghost s: State, ghost acts: seq<Action>, ghost p: nat, ghost i: nat, tag: Word,
    arriving: seq<Cqe>)
    returns (result: int, rest: seq<Cqe>)
    requires client.Valid()
    requires Reachable(s) && Runs(s, acts) && p < |s.procs| && s.procs[p].ring.Some? && p < |s.clients|
      && s.clients[p].honest
    requires Uring.Held(client.stash[..]) <= multiset(s.clients[p].reaped)
    requires var r := After(s, acts);
      && p < |r.procs| && Alive(r.procs[p]) && p < |r.logs| && LogShape(r.logs[p]) && OwnTags(r.logs[p].reqs)
      && arriving == Coming(s, r, p)
      && i < |r.logs[p].reqs| && r.logs[p].reqs[i].tag == tag && r.logs[p].fate[i].Posted?
      && (r.logs[p].fate[i].k >= |s.clients[p].reaped|
          || (r.logs[p].fate[i].k < |r.logs[p].posted|
               && r.logs[p].posted[r.logs[p].fate[i].k] in Uring.Held(client.stash[..])))
    modifies client.stash
    ensures var r := After(s, acts);
      && r.logs[p].fate[i].k < |r.logs[p].posted| && r.logs[p].posted[r.logs[p].fate[i].k] == Cqe(tag, result)
      && Answer(r.procs, p, r.logs[p].reqs[i], r.logs[p].able[i], result)
    ensures old(|Uring.Held(client.stash[..]) + multiset(arriving)|) <= Uring.STASH_SIZE + 1 ==>
      Uring.Held(client.stash[..]) + multiset(rest)
        == old(Uring.Held(client.stash[..]) + multiset(arriving)) - multiset{Cqe(tag, result)}
  {
    hide Reachable;
    hide Runs;
    hide After;
    hide Answer;
    hide OwnTags;
    hide Uring.TagsDistinct;
    hide Uring.Held;
    ghost var r := After(s, acts);
    AtWait(s, acts, p);
    ghost var l, n := r.logs[p], |s.clients[p].reaped|;
    assert FateAt(r.procs, r.logs, p, i);
    ghost var k := l.fate[i].k;
    assert Answers(r, p, k) && l.origin[k] == i;
    assert s.clients[p].reaped == l.posted[..n];
    PartsOf(l.posted, n, Uring.Held(client.stash[..]), k);
    SomeDistinct(Uring.Held(client.stash[..]) + multiset(arriving), multiset(l.posted));
    result, rest := client.Reap(tag, l.posted[k], arriving);
  }
}
