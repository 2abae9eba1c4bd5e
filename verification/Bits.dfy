/**
 Machine words and the bit operations of the kernel.

 A word is a natural number below 2^64.  `And` and `Or` are the bitwise operators,
 defined bit by bit; the lemmas give the arithmetic meaning of every mask the kernel
 uses, so that the rest of the project reasons with `/` and `%` by literals.
 */
module Bits {

  const TWO12 := 0x1000
  const TWO32: nat := 0x1_0000_0000
  const TWO48 := 0x1_0000_0000_0000
  const TWO64 := 0x1_0000_0000_0000_0000

  type Word = x: nat | x < TWO64

  type Byte = x: nat | x < 256

  function Pow2(k: nat): (p: nat)
    ensures p >= 1
  {
    if k == 0 then 1 else 2 * Pow2(k - 1)
  }

  function And(a: nat, b: nat): nat {
    if a == 0 || b == 0 then 0 else 2 * And(a / 2, b / 2) + (if a % 2 == 1 && b % 2 == 1 then 1 else 0)
  }

  function Or(a: nat, b: nat): nat
    decreases a + b
  {
    if a == 0 then b
    else if b == 0 then a
    else 2 * Or(a / 2, b / 2) + (if a % 2 == 1 || b % 2 == 1 then 1 else 0)
  }

  /** The 64-bit complement `!x`. */
  function Not64(x: Word): Word {
    TWO64 - 1 - x
  }

  // ---------------------------------------------------------------- powers of two

  lemma {:induction false} Pow2Monotone(i: nat, j: nat)
    requires i <= j
    ensures Pow2(i) <= Pow2(j)
    decreases j
  {
    if i < j { Pow2Monotone(i, j - 1); }
  }

  lemma Pow2Values()
    ensures Pow2(9) == 512 && Pow2(12) == TWO12
    ensures Pow2(48) == TWO48 && Pow2(64) == TWO64
  {
    assert Pow2(9) == 512 && Pow2(12) == TWO12;
    assert Pow2(24) == 0x100_0000 by { assert Pow2(16) == 0x1_0000; }
    assert Pow2(32) == 0x1_0000_0000;
    assert Pow2(40) == 0x100_0000_0000;
    assert Pow2(48) == TWO48;
    assert Pow2(56) == 0x100_0000_0000_0000;
    assert Pow2(64) == TWO64;
  }

  /** The lowest k bits of x. */
  function Low(x: nat, k: nat): nat {
    if k == 0 then 0 else 2 * Low(x / 2, k - 1) + x % 2
  }

  lemma {:induction false} LowIsMod(x: nat, k: nat)
    ensures Low(x, k) == x % Pow2(k)
  {
    if k > 0 {
      LowIsMod(x / 2, k - 1);
      var p := Pow2(k - 1);
      DivideAgain(x, p);
    }
  }

  lemma DivideAgain(x: nat, p: nat)
    requires p >= 1
    ensures x % (2 * p) == 2 * ((x / 2) % p) + x % 2
  {
    var q, r := (x / 2) / p, (x / 2) % p;
    assert x / 2 == p * q + r;
    assert 2 * (p * q) == (2 * p) * q;
    ModUnique(x, 2 * p, q, 2 * r + x % 2);
  }

  lemma ModUnique(x: nat, d: nat, q: int, r: nat)
    requires r < d
    requires x == d * q + r
    ensures x / d == q && x % d == r
  {
    var q', r' := x / d, x % d;
    assert d * (q - q') == r' - r by { assert d * (q - q') == d * q - d * q'; }
    if q > q' {
      assert d * (q - q') >= d by { MulAtLeast(d, q - q'); }
    } else if q < q' {
      assert d * (q - q') == -(d * (q' - q));
      MulAtLeast(d, q' - q);
    }
  }

  lemma MulAtLeast(d: nat, n: nat)
    requires n >= 1
    ensures d * n >= d
  {}

  lemma MulAtMostZero(d: nat, n: int)
    requires n <= 0
    ensures d * n <= 0
  {}

  /** Two multiples of `d` that differ are at least `d` apart. */
  lemma MultiplesApart(a: nat, b: nat, d: nat)
    requires d >= 1 && a % d == 0 && b % d == 0 && a < b
    ensures a + d <= b
  {
    var i, j := a / d, b / d;
    assert d * (j - i) == b - a by { assert d * (j - i) == d * j - d * i; }
    if j <= i { MulAtMostZero(d, j - i); }
    MulAtLeast(d, j - i);
  }

  // ---------------------------------------------------------------- masks

  lemma AndStep(a: nat, b: nat, c: nat, d: nat)
    requires d < 2 && b == 2 * c + d
    ensures And(a, b) == 2 * And(a / 2, c) + (if d == 1 then a % 2 else 0)
  {
    assert b / 2 == c && b % 2 == d;
  }

  /** A mask with ones exactly at the bits lo..hi-1 selects those bits of `x`. */
  lemma {:induction false} AndRange(x: nat, lo: nat, hi: nat)
    requires lo <= hi
    ensures Pow2(lo) <= Pow2(hi)
    ensures And(x, Pow2(hi) - Pow2(lo)) == Low(x, hi) - Low(x, lo)
    decreases hi
  {
    Pow2Monotone(lo, hi);
    var mask := Pow2(hi) - Pow2(lo);
    if lo < hi {
      if lo > 0 {
        AndRange(x / 2, lo - 1, hi - 1);
        AndStep(x, mask, Pow2(hi - 1) - Pow2(lo - 1), 0);
      } else {
        AndRange(x / 2, 0, hi - 1);
        AndStep(x, mask, Pow2(hi - 1) - 1, 1);
      }
    }
  }

  lemma AndBits(x: nat, lo: nat, hi: nat)
    requires lo <= hi
    ensures Pow2(lo) <= Pow2(hi)
    ensures And(x, Pow2(hi) - Pow2(lo)) == x % Pow2(hi) - x % Pow2(lo)
  {
    AndRange(x, lo, hi);
    LowIsMod(x, lo);
    LowIsMod(x, hi);
  }

  /** Or adds, less what the two words share. */
  lemma {:induction false} OrSum(a: nat, b: nat)
    ensures Or(a, b) == a + b - And(a, b)
    decreases a + b
  {
    if a != 0 && b != 0 {
      OrSum(a / 2, b / 2);
    }
  }

  /** An address with bits only in k..n-1 shares no bit with a word that has none there. */
  lemma {:induction false} AndApart(a: nat, b: nat, k: nat, n: nat)
    requires k <= n
    requires Low(a, k) == 0 && Low(a, n) == a
    requires Low(b, n) == Low(b, k)
    ensures And(a, b) == 0
    decreases n
  {
    if a != 0 && b != 0 {
      if k > 0 {
        AndApart(a / 2, b / 2, k - 1, n - 1);
      } else {
        AndApart(a / 2, b / 2, 0, n - 1);
      }
    }
  }

  lemma OrApart(a: nat, b: nat, k: nat, n: nat)
    requires k <= n
    requires a % Pow2(k) == 0 && a < Pow2(n)
    requires b % Pow2(n) < Pow2(k)
    ensures Or(a, b) == a + b
  {
    assert Low(a, k) == 0 by { LowIsMod(a, k); }
    LowSmall(a, n);
    assert Low(b, n) < Pow2(k) by { LowIsMod(b, n); }
    LowSmall(Low(b, n), k);
    LowAgain(b, k, n);
    AndApart(a, b, k, n);
    OrSum(a, b);
  }

  lemma {:induction false} LowSmall(x: nat, k: nat)
    requires x < Pow2(k)
    ensures Low(x, k) == x
  {
    if k > 0 { LowSmall(x / 2, k - 1); }
  }

  lemma {:induction false} LowAgain(x: nat, k: nat, n: nat)
    requires k <= n
    ensures Low(Low(x, n), k) == Low(x, k)
  {
    if k > 0 { LowAgain(x / 2, k - 1, n - 1); }
  }

  // ---------------------------------------------------------------- the kernel's masks

  const ADDR_MASK := 0x0000_FFFF_FFFF_F000

  lemma AndOne(x: nat)
    ensures And(x, 1) == x % 2
  {
    AndBits(x, 0, 1);
    assert Pow2(1) == 2;
  }

  lemma AndThree(x: nat)
    ensures And(x, 3) == x % 4
  {
    AndBits(x, 0, 2);
    assert Pow2(2) == 4;
  }

  lemma AndFifteen(x: nat)
    ensures And(x, 15) == x % 16
  {
    AndBits(x, 0, 4);
    assert Pow2(4) == 16;
  }

  lemma AndIndex(x: nat)
    ensures And(x, 0x1FF) == x % 512
  {
    AndBits(x, 0, 9);
    Pow2Values();
  }

  lemma AndOffset(x: nat)
    ensures And(x, 0xFFF) == x % 4096
  {
    AndBits(x, 0, 12);
    Pow2Values();
  }

  lemma AndAddr(x: nat)
    ensures And(x, ADDR_MASK) == x % TWO48 - x % TWO12
  {
    AndBits(x, 12, 48);
    Pow2Values();
  }

  lemma FieldShift(x: nat)
    ensures x % 0x1_0000_0000_0000 - x % 0x1000 == x / 0x1000 % 0x10_0000_0000 * 0x1000
  {}

  lemma AndAddrField(x: nat)
    ensures And(x, ADDR_MASK) == x / 0x1000 % 0x10_0000_0000 * 0x1000
  {
    AndAddr(x);
    FieldShift(x);
  }

  /** `pa | flags` for a page-aligned address and flags without address bits. */
  lemma OrAddr(pa: nat, flags: nat)
    requires pa % TWO12 == 0 && pa < TWO48
    requires flags % TWO48 < TWO12
    ensures Or(pa, flags) == pa + flags
  {
    Pow2Values();
    OrApart(pa, flags, 12, 48);
  }

  // ---------------------------------------------------------------- alignment

  predicate IsPowerOfTwo(align: nat) {
    exists k: nat | k < 64 :: align == Pow2(k)
  }

  lemma AlignBelow(x: Word, k: nat)
    requires k <= 64
    ensures Pow2(k) <= TWO64
    ensures And(x, Not64(Pow2(k) - 1)) == x - x % Pow2(k)
  {
    hide And;
    Pow2Monotone(k, 64);
    AndBits(x, k, 64);
    Pow2Values();
    hide Pow2;
    assert x % TWO64 == x;
  }

  /** `(addr + align - 1) & !(align - 1)`. */
  function AlignUp(addr: nat, align: nat): (r: nat)
    requires align >= 1 && addr + align - 1 < TWO64
  {
    And(addr + align - 1, Not64(align - 1))
  }

  /** The mask form rounds up: it is the least multiple of `align` at or above `addr`. */
  lemma AlignUpIsLeast(addr: nat, align: nat)
    requires IsPowerOfTwo(align) && addr + align - 1 < TWO64
    ensures align >= 1
    ensures AlignUp(addr, align) % align == 0
    ensures addr <= AlignUp(addr, align) < addr + align
    ensures forall y: nat :: addr <= y && y % align == 0 ==> AlignUp(addr, align) <= y
  {
    var k: nat :| k < 64 && align == Pow2(k);
    AlignUpRounds(addr, align, k);
    hide Pow2;
    hide AlignUp;
    RoundedUp(addr, align, AlignUp(addr, align));
  }

  lemma AlignUpRounds(addr: nat, align: nat, k: nat)
    requires k < 64 && align == Pow2(k) && addr + align - 1 < TWO64
    ensures AlignUp(addr, align) == RoundDown(addr + align - 1, align)
  {
    hide And;
    AlignBelow(addr + align - 1, k);
  }

  function RoundDown(x: nat, d: nat): int
    requires d >= 1
  {
    x - x % d
  }

  lemma RoundedUp(addr: nat, align: nat, r: nat)
    requires align >= 1 && r == RoundDown(addr + align - 1, align)
    ensures addr <= r < addr + align && r % align == 0
    ensures forall y: nat :: addr <= y && y % align == 0 ==> r <= y
  {
    var x := addr + align - 1;
    ModUnique(r, align, x / align, 0);
    forall y: nat | addr <= y && y % align == 0
      ensures r <= y
    {
      if y < r { MultiplesApart(y, r, align); }
    }
  }

  /** The 4 KiB case, as `frame_align_up` and the loader's `align_up` use it. */
  lemma AlignUpFrame(addr: nat)
    requires addr + 4095 < TWO64
    ensures AlignUp(addr, 4096) == (addr + 4095) / 4096 * 4096
  {
    Pow2Values();
    AlignBelow(addr + 4095, 12);
  }
}
