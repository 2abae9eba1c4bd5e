/**
 Waiting for a tag in the user library (user/src/uring.rs): `reap` takes completions in the
 order they were posted and stashes those of other requests in four slots, tag 0 meaning
 an empty slot.

 The completions still to be reaped, posted already or later, are a sequence; sleeping or
 spinning on an empty queue is waiting for its next element.
 */
module Uring {
  import opened Bits
  import opened Frames
  import opened Rings

  const STASH_SIZE: nat := 4

  /** The completions in the stash. */
  function Held(slots: seq<Cqe>): multiset<Cqe> {
    if slots == [] then multiset{}
    else Held(slots[1..]) + if slots[0].tag != 0 then multiset{slots[0]} else multiset{}
  }

  function FreeSlots(slots: seq<Cqe>): (n: nat)
    ensures n <= |slots|
  {
    if slots == [] then 0 else FreeSlots(slots[1..]) + if slots[0].tag == 0 then 1 else 0
  }

  /** The first empty slot takes the completion; with none empty it is lost. */
  function Stashed(slots: seq<Cqe>, c: Cqe): (r: seq<Cqe>)
    ensures |r| == |slots|
  {
    if slots == [] then []
    else if slots[0].tag == 0 then [c] + slots[1..]
    else [slots[0]] + Stashed(slots[1..], c)
  }

  function AllStashed(slots: seq<Cqe>, cs: seq<Cqe>): (r: seq<Cqe>)
    ensures |r| == |slots|
    decreases |cs|
  {
    if cs == [] then slots else Stashed(AllStashed(slots, cs[..|cs| - 1]), cs[|cs| - 1])
  }

  lemma {:induction false} StashedHeld(slots: seq<Cqe>, c: Cqe)
    requires c.tag != 0
    ensures Held(Stashed(slots, c)) == Held(slots) + if FreeSlots(slots) > 0 then multiset{c} else multiset{}
    ensures FreeSlots(Stashed(slots, c)) == if FreeSlots(slots) > 0 then FreeSlots(slots) - 1 else 0
  {
    if slots != [] {
      if slots[0].tag == 0 {
        assert ([c] + slots[1..])[1..] == slots[1..];
      } else {
        StashedHeld(slots[1..], c);
        assert ([slots[0]] + Stashed(slots[1..], c))[1..] == Stashed(slots[1..], c);
      }
    }
  }

  /** Nothing reaped on the way is lost, if and only if the stash has room for all of it. */
  lemma {:induction false} AllStashedHeld(slots: seq<Cqe>, cs: seq<Cqe>)
    requires forall i | 0 <= i < |cs| :: cs[i].tag != 0
    ensures FreeSlots(AllStashed(slots, cs)) == if |cs| <= FreeSlots(slots) then FreeSlots(slots) - |cs| else 0
    ensures Held(AllStashed(slots, cs)) == Held(slots) + multiset(cs) <==> |cs| <= FreeSlots(slots)
    ensures |Held(AllStashed(slots, cs))| == |Held(slots)| + if |cs| <= FreeSlots(slots) then |cs| else FreeSlots(slots)
    decreases |cs|
  {
    if cs == [] {
      assert multiset(cs) == multiset{};
    } else {
      var most, last := cs[..|cs| - 1], cs[|cs| - 1];
      assert cs == most + [last];
      AllStashedHeld(slots, most);
      StashedHeld(AllStashed(slots, most), last);
      assert multiset(cs) == multiset(most) + multiset{last};
      if |cs| > FreeSlots(slots) {
        assert |Held(AllStashed(slots, cs))| < |Held(slots) + multiset(cs)|;
      }
    }
  }

  lemma {:induction false} FreeOrHeld(slots: seq<Cqe>)
    ensures FreeSlots(slots) + |Held(slots)| == |slots|
  {
    if slots != [] {
      FreeOrHeld(slots[1..]);
    }
  }

  lemma {:induction false} HeldTaken(slots: seq<Cqe>, i: nat)
    requires i < |slots| && slots[i].tag != 0
    ensures slots[i] in Held(slots)
    ensures Held(slots[i := slots[i].(tag := 0)]) == Held(slots) - multiset{slots[i]}
  {
    var cleared := slots[i := slots[i].(tag := 0)];
    if i == 0 {
      assert cleared[1..] == slots[1..];
    } else {
      HeldTaken(slots[1..], i - 1);
      assert cleared[1..] == slots[1..][i - 1 := slots[i].(tag := 0)];
    }
  }

  lemma {:induction false} HeldIsSomewhere(slots: seq<Cqe>, c: Cqe)
    requires c in Held(slots)
    ensures c.tag != 0 && exists i :: 0 <= i < |slots| && slots[i] == c
  {
    if slots[0] != c || slots[0].tag == 0 {
      HeldIsSomewhere(slots[1..], c);
      var i :| 0 <= i < |slots[1..]| && slots[1..][i] == c;
      assert slots[i + 1] == c;
    }
  }

  /** Every completion has its own nonzero tag. */
  ghost predicate TagsDistinct(pool: multiset<Cqe>) {
    && (forall c | c in pool :: c.tag != 0 && pool[c] == 1)
    && (forall c, d | c in pool && d in pool && c.tag == d.tag :: c == d)
  }

  /** The results so far are those of the answers, in order. */
  ghost predicate Matches(results: seq<int>, answers: seq<Cqe>) {
    |results| <= |answers| && forall i | 0 <= i < |results| :: results[i] == answers[i].result
  }

  lemma MatchesNone(answers: seq<Cqe>)
    ensures Matches([], answers)
  {
  }

  lemma MatchesMore(results: seq<int>, answers: seq<Cqe>, r: int)
    requires Matches(results, answers) && |results| < |answers| && r == answers[|results|].result
    ensures Matches(results + [r], answers)
  {
  }

  class Client {
    const stash: array<Cqe>

    constructor ()
      ensures Valid() && fresh(stash) && Held(stash[..]) == multiset{}
    {
      stash := new Cqe[4](_ => Cqe(0, 0));
      new;
      forall i | 0 <= i < 4 ensures stash[..][i].tag == 0 {}
      NoneHeld(stash[..]);
    }

    ghost predicate Valid() {
      stash.Length == 4
    }

    /** The loop that looks whether an earlier wait already reaped the tag. */
    method TakeStashed(tag: Word) returns (found: Option<int>)
      requires Valid() && tag != 0
      modifies stash
      ensures found.None? ==> stash[..] == old(stash[..]) && forall c | c in Held(stash[..]) :: c.tag != tag
      ensures found.Some? ==> Cqe(tag, found.value) in old(Held(stash[..]))
      ensures found.Some? ==> Held(stash[..]) == old(Held(stash[..])) - multiset{Cqe(tag, found.value)}
    {
      var i := 0;
      while i < 4
        invariant 0 <= i <= 4
        invariant forall j | 0 <= j < i :: stash[j].tag != tag
        invariant stash[..] == old(stash[..])
      {
        if stash[i].tag == tag {
          HeldTaken(stash[..], i);
          stash[i] := stash[i].(tag := 0);
          assert stash[..] == old(stash[..])[i := old(stash[..])[i].(tag := 0)];
          return Some(stash[i].result);
        }
        i := i + 1;
      }
      found := None;
      forall c | c in Held(stash[..]) ensures c.tag != tag {
        HeldIsSomewhere(stash[..], c);
      }
    }

    /** The loop that takes completions until the tag comes, stashing the others. */
    method TakeArriving(tag: Word, arriving: seq<Cqe>, ghost k: nat) returns (result: int, rest: seq<Cqe>)
      requires Valid() && k < |arriving| && arriving[k].tag == tag
      requires forall i | 0 <= i < k :: arriving[i].tag != tag
      modifies stash
      ensures result == arriving[k].result && rest == arriving[k + 1..]
      ensures stash[..] == AllStashed(old(stash[..]), arriving[..k])
    {
      ghost var n := 0;
      rest := arriving;
      while true
        invariant n <= k && rest == arriving[n..]
        invariant stash[..] == AllStashed(old(stash[..]), arriving[..n])
        decreases |rest|
      {
        var got := rest[0];
        rest := rest[1..];
        if got.tag == tag {
          return got.result, rest;
        }
        Put(got);
        assert arriving[..n + 1][..n] == arriving[..n];
        n := n + 1;
      }
    }

    /** `reap(tag)`: the result is the one posted under the tag, and with at most four others every
        other completion, in the stash or still to be reaped, stays exactly once. */
    method Reap(tag: Word, ghost answer: Cqe, arriving: seq<Cqe>) returns (result: int, rest: seq<Cqe>)
      requires Valid() && answer.tag == tag
      requires TagsDistinct(Held(stash[..]) + multiset(arriving))
      requires answer in Held(stash[..]) + multiset(arriving)
      modifies stash
      ensures result == answer.result
      ensures old(|Held(stash[..]) + multiset(arriving)|) <= STASH_SIZE + 1 ==>
        Held(stash[..]) + multiset(rest) == old(Held(stash[..]) + multiset(arriving)) - multiset{answer}
    {
      ghost var slots := stash[..];
      var found := TakeStashed(tag);
      if found.Some? {
        InStash(slots, arriving, answer, found.value);
        return found.value, arriving;
      }
      ghost var k := FirstWith(slots, arriving, answer);
      result, rest := TakeArriving(tag, arriving, k);
      if |Held(slots) + multiset(arriving)| <= STASH_SIZE + 1 { RoomLeft(slots, arriving, k); }
    }

    /** The loop that looks for an empty slot. */
    method Put(got: Cqe)
      requires Valid()
      modifies stash
      ensures stash[..] == Stashed(old(stash[..]), got)
    {
      var i := 0;
      while i < 4
        invariant 0 <= i <= 4
        invariant forall j | 0 <= j < i :: stash[j].tag != 0
        invariant stash[..] == old(stash[..])
      {
        if stash[i].tag == 0 {
          StashedAt(stash[..], got, i);
          stash[i] := got;
          return;
        }
        i := i + 1;
      }
      StashedAt(stash[..], got, 4);
    }

    /** Whatever the order of completion: waiting for each of up to five outstanding requests,
        in any order, gives each one its own result. */
    method WaitAll(tags: seq<Word>, ghost answers: seq<Cqe>, arriving: seq<Cqe>)
      returns (results: seq<int>, rest: seq<Cqe>)
      requires Valid()
      requires TagsDistinct(Held(stash[..]) + multiset(arriving))
      requires |Held(stash[..]) + multiset(arriving)| <= STASH_SIZE + 1
      requires |answers| == |tags| && forall i | 0 <= i < |tags| :: answers[i].tag == tags[i]
      requires multiset(answers) <= Held(stash[..]) + multiset(arriving)
      modifies stash
      ensures |results| == |tags| && Matches(results, answers)
      ensures Held(stash[..]) + multiset(rest) == old(Held(stash[..]) + multiset(arriving)) - multiset(answers)
    {
      hide Held;
      hide TagsDistinct;
      hide Matches;
      hide Left;
      ghost var pool := Held(stash[..]) + multiset(arriving);
      results, rest := [], arriving;
      MatchesNone(answers);
      NoneTaken(pool, answers);
      var n := 0;
      while n < |tags|
        invariant n <= |tags| && |results| == n && Matches(results, answers)
        invariant Held(stash[..]) + multiset(rest) == Left(pool, answers, n)
      {
        TakeOne(pool, answers, n);
        var result: int;
        result, rest := Reap(tags[n], answers[n], rest);
        MatchesMore(results, answers, result);
        results := results + [result];
        n := n + 1;
      }
    }
  }

  lemma {:induction false} NoneHeld(slots: seq<Cqe>)
    requires forall i | 0 <= i < |slots| :: slots[i].tag == 0
    ensures Held(slots) == multiset{}
  {
    if slots != [] {
      NoneHeld(slots[1..]);
    }
  }

  lemma InStash(slots: seq<Cqe>, arriving: seq<Cqe>, answer: Cqe, result: int)
    requires TagsDistinct(Held(slots) + multiset(arriving))
    requires answer in Held(slots) + multiset(arriving) && Cqe(answer.tag, result) in Held(slots)
    ensures result == answer.result
    ensures Held(slots) - multiset{answer} + multiset(arriving) == Held(slots) + multiset(arriving) - multiset{answer}
  {
    assert Cqe(answer.tag, result) in Held(slots) + multiset(arriving);
  }

  lemma FirstWith(slots: seq<Cqe>, arriving: seq<Cqe>, answer: Cqe) returns (k: nat)
    requires TagsDistinct(Held(slots) + multiset(arriving))
    requires answer in Held(slots) + multiset(arriving)
    requires forall c | c in Held(slots) :: c.tag != answer.tag
    ensures k < |arriving| && arriving[k] == answer
    ensures forall i | 0 <= i < k :: arriving[i].tag != answer.tag
  {
    assert answer in arriving;
    k := 0;
    while arriving[k].tag != answer.tag
      invariant k < |arriving|
      invariant forall i | 0 <= i < k :: arriving[i].tag != answer.tag
      decreases |arriving| - k
    {
      assert exists i :: k < i < |arriving| && arriving[i] == answer;
      k := k + 1;
    }
    assert arriving[k] in Held(slots) + multiset(arriving);
  }

  /** i is the first empty slot, or the length when there is none. */
  lemma {:induction false} StashedAt(slots: seq<Cqe>, c: Cqe, i: nat)
    requires i <= |slots| && forall j | 0 <= j < i :: slots[j].tag != 0
    requires i < |slots| ==> slots[i].tag == 0
    ensures Stashed(slots, c) == if i < |slots| then slots[i := c] else slots
  {
    if slots != [] && i > 0 {
      StashedAt(slots[1..], c, i - 1);
    }
  }

  lemma Split(arriving: seq<Cqe>, k: nat)
    requires k <= |arriving|
    ensures multiset(arriving) == multiset(arriving[..k]) + multiset(arriving[k..])
    ensures k < |arriving| ==> multiset(arriving[k..]) == multiset{arriving[k]} + multiset(arriving[k + 1..])
  {
    assert arriving == arriving[..k] + arriving[k..];
    if k < |arriving| {
      assert arriving[k..] == [arriving[k]] + arriving[k + 1..];
    }
  }

  /** With at most four others outstanding, what came before the answer is all in the stash. */
  lemma RoomLeft(slots: seq<Cqe>, arriving: seq<Cqe>, k: nat)
    requires |slots| == 4 && k < |arriving|
    requires |Held(slots) + multiset(arriving)| <= 5
    requires forall c | c in Held(slots) + multiset(arriving) :: c.tag != 0
    ensures Held(AllStashed(slots, arriving[..k])) + multiset(arriving[k + 1..])
         == Held(slots) + multiset(arriving) - multiset{arriving[k]}
  {
    FreeOrHeld(slots);
    Split(arriving, k);
    forall i | 0 <= i < k ensures arriving[..k][i].tag != 0 {
      assert arriving[i] in Held(slots) + multiset(arriving);
    }
    AllStashedHeld(slots, arriving[..k]);
  }

  /** What is still to come once the first n answers are taken. */
  ghost function Left(pool: multiset<Cqe>, answers: seq<Cqe>, n: nat): multiset<Cqe>
    requires n <= |answers|
  {
    pool - multiset(answers[..n])
  }

  lemma TakeOne(pool: multiset<Cqe>, answers: seq<Cqe>, n: nat)
    requires n < |answers| && multiset(answers) <= pool && TagsDistinct(pool)
    ensures Left(pool, answers, n) - multiset{answers[n]} == Left(pool, answers, n + 1)
    ensures answers[n] in Left(pool, answers, n)
    ensures TagsDistinct(Left(pool, answers, n))
    ensures |Left(pool, answers, n)| <= |pool|
  {
    Split2(answers, n);
    var left := Left(pool, answers, n);
    assert left <= pool;
    forall c | c in left ensures c in pool && left[c] == 1 {
    }
  }

  lemma NoneTaken(pool: multiset<Cqe>, answers: seq<Cqe>)
    ensures Left(pool, answers, 0) == pool
    ensures Left(pool, answers, |answers|) == pool - multiset(answers)
  {
    assert multiset(answers[..0]) == multiset{};
    assert answers[..|answers|] == answers;
  }

  lemma Split2(answers: seq<Cqe>, n: nat)
    requires n < |answers|
    ensures multiset(answers[..n + 1]) == multiset(answers[..n]) + multiset{answers[n]}
    ensures multiset(answers[..n + 1]) <= multiset(answers)
  {
    assert answers == answers[..n + 1] + answers[n + 1..];
    assert answers[..n + 1] == answers[..n] + [answers[n]];
  }

  /** With five others ahead of it, a completion is lost: the later wait finds it nowhere. */
  lemma FiveOthersLoseOne(cs: seq<Cqe>)
    requires |cs| == 5 && forall i | 0 <= i < 5 :: cs[i].tag != 0
    ensures |Held(AllStashed(seq(4, _ => Cqe(0, 0)), cs))| == 4
  {
    var slots := seq(4, _ => Cqe(0, 0));
    NoneHeld(slots);
    FreeOrHeld(slots);
    AllStashedHeld(slots, cs);
  }
}
