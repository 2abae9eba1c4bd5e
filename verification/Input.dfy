/**
 The console input buffer and its flow control (kernel/src/input.rs).
 */
module Input {
  import opened Bits
  import opened Frames

  /** One slot of the 256 is given up, so that full and empty differ. */
  const CAPACITY: nat := 255

  /** How many of the waiting bytes fit. */
  function Room(buffered: seq<Byte>, waiting: seq<Byte>): (n: nat)
    requires |buffered| <= CAPACITY
    ensures n <= |waiting| && |buffered| + n <= CAPACITY
    ensures n == |waiting| || |buffered| + n == CAPACITY
  {
    if |waiting| <= CAPACITY - |buffered| then |waiting| else CAPACITY - |buffered|
  }

  /** The bytes from `head` up to `tail`, going round. */
  function Window(cells: seq<Byte>, head: nat, tail: nat): (s: seq<Byte>)
    requires |cells| == 256 && head < 256 && tail < 256
    ensures |s| == Distance(head, tail)
  {
    if head <= tail then cells[head..tail] else cells[head..] + cells[..tail]
  }

  function Distance(head: nat, tail: nat): (n: nat)
    requires head < 256 && tail < 256
    ensures n < 256
  {
    if head <= tail then tail - head else tail + 256 - head
  }

  function Next(i: nat): (n: nat)
    requires i < 256
    ensures n < 256 && n == (i + 1) % 256
  {
    if i == 255 then 0 else i + 1
  }

  lemma Pushed(cells: seq<Byte>, head: nat, tail: nat, b: Byte)
    requires |cells| == 256 && head < 256 && tail < 256 && Distance(head, tail) < CAPACITY
    ensures Window(cells[tail := b], head, Next(tail)) == Window(cells, head, tail) + [b]
  {
  }

  lemma Popped(cells: seq<Byte>, head: nat, tail: nat)
    requires |cells| == 256 && head < 256 && tail < 256 && head != tail
    ensures Window(cells, head, tail) == [cells[head]] + Window(cells, Next(head), tail)
  {
    if head < tail {
      assert cells[head..tail] == [cells[head]] + cells[head + 1..tail];
    } else if head < 255 {
      assert cells[head..] == [cells[head]] + cells[head + 1..];
      assert cells[head..] + cells[..tail] == [cells[head]] + (cells[head + 1..] + cells[..tail]);
    } else {
      assert cells[255..] == [cells[255]];
    }
  }

  class InputBuf {
    const buf: array<Byte>
    var head: nat
    var tail: nat
    /** Whether the receive interrupt is enabled. */
    var rxOn: bool

    constructor ()
      ensures Valid() && fresh(buf) && Contents() == [] && rxOn
    {
      buf := new Byte[256](_ => 0);
      head, tail := 0, 0;
      rxOn := true;
    }

    ghost predicate Valid()
      reads this
    {
      && buf.Length == 256 && head < 256 && tail < 256
      && (rxOn <==> Count() < CAPACITY)
    }

    ghost function Count(): (n: nat)
      requires head < 256 && tail < 256
      reads this
    {
      Distance(head, tail)
    }

    /** The buffered bytes, oldest first. */
    ghost function Contents(): (s: seq<Byte>)
      requires Valid()
      reads this, buf
      ensures |s| == Count()
    {
      Window(buf[..], head, tail)
    }

    predicate IsEmpty()
      requires Valid()
      reads this
      ensures IsEmpty() <==> Count() == 0
    {
      head == tail
    }

    predicate IsFull()
      requires buf.Length == 256 && head < 256 && tail < 256
      reads this
      ensures IsFull() <==> Count() == CAPACITY
    {
      (tail + 1) % 256 == head
    }

    /** `drain_uart`: move what the device holds into the buffer, in order; the receive
        interrupt is masked exactly when the buffer ends up full. */
    method DrainUart(waiting: seq<Byte>) returns (rest: seq<Byte>)
      requires Valid()
      modifies this, buf
      ensures Valid()
      ensures Contents() == old(Contents()) + waiting[..Room(old(Contents()), waiting)]
      ensures rest == waiting[Room(old(Contents()), waiting)..]
    {
      hide Window;
      rest := waiting;
      ghost var n := 0;
      while true
        invariant buf.Length == 256 && head == old(head) && tail < 256
        invariant n <= |waiting| && rest == waiting[n..]
        invariant rxOn <==> old(Count()) < CAPACITY
        invariant Window(buf[..], head, tail) == old(Contents()) + waiting[..n]
        decreases |rest|
      {
        if IsFull() {
          rxOn := false;
          return;
        }
        if rest == [] {
          return;
        }
        Pushed(buf[..], head, tail, rest[0]);
        buf[tail] := rest[0];
        rest := rest[1..];
        tail := (tail + 1) % 256;
        n := n + 1;
      }
    }

    /** `pop`: take the oldest byte; consuming from a full buffer unmasks the interrupt. */
    method Pop() returns (b: Option<Byte>)
      requires Valid()
      modifies this
      ensures Valid()
      ensures b == if old(Contents()) == [] then None else Some(old(Contents())[0])
      ensures Contents() == if old(Contents()) == [] then [] else old(Contents())[1..]
    {
      if IsEmpty() {
        return None;
      }
      Popped(buf[..], head, tail);
      var wasFull := IsFull();
      b := Some(buf[head]);
      head := (head + 1) % 256;
      if wasFull {
        rxOn := true;
      }
    }
  }
}
