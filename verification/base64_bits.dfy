/** The arithmetic that base64.dfy uses for a group of four characters, against the word operations of the decoder. */
module Base64Bits {
  import opened Basics
  import opened Base64

  /** Bitwise or. */
  function Or(x: nat, y: nat): nat
    decreases x + y
  {
    if x == 0 && y == 0 then 0 else 2 * Or(x / 2, y / 2) + Max(x % 2, y % 2)
  }

  const WORD: nat := 0x1_0000_0000

  /** An index as a 32-bit word: -1 is the word of ones. */
  function Word(i: int): nat
    requires -1 <= i < 64
  {
    if i == -1 then WORD - 1 else i
  }

  /** `k` times doubled. */
  function Doubled(x: nat, k: nat): nat { if k == 0 then x else 2 * Doubled(x, k - 1) }

  function ShiftLeft(w: nat, k: nat): nat { Doubled(w, k) % WORD }

  /** (first << 18) | (second << 12) | ((third & 63) << 6) | (fourth & 63) on 32-bit words. */
  function ChunkWord(first: int, second: int, third: int, fourth: int): nat
    requires -1 <= first < 64 && -1 <= second < 64 && -1 <= third < 64 && -1 <= fourth < 64
  {
    Or(Or(Or(ShiftLeft(Word(first), 18), ShiftLeft(Word(second), 12)), ShiftLeft(Word(third) % 64, 6)),
      Word(fourth) % 64)
  }

  lemma {:induction false} OrZero(x: nat)
    ensures Or(x, 0) == x
  {
    if x > 0 { OrZero(x / 2); }
  }

  lemma OrDouble(x: nat, y: nat)
    ensures Or(2 * x, 2 * y) == 2 * Or(x, y)
  {
    if x > 0 || y > 0 {
      assert 2 * x / 2 == x && 2 * y / 2 == y && 2 * x % 2 == 0 && 2 * y % 2 == 0;
      assert Or(2 * x, 2 * y) == 2 * Or(2 * x / 2, 2 * y / 2) + Max(2 * x % 2, 2 * y % 2);
    }
  }

  lemma {:induction false} OrShifted(x: nat, y: nat, k: nat)
    ensures Or(Doubled(x, k), Doubled(y, k)) == Doubled(Or(x, y), k)
  {
    hide Or;
    if k > 0 {
      OrShifted(x, y, k - 1);
      OrDouble(Doubled(x, k - 1), Doubled(y, k - 1));
    }
  }

  /** Bits below those of `x` are added. */
  lemma {:induction false} OrBelow(x: nat, y: nat, k: nat)
    requires y < Doubled(1, k)
    ensures Or(Doubled(x, k), y) == Doubled(x, k) + y
  {
    if k == 0 { OrZero(x); } else { OrBelow(x, y / 2, k - 1); }
  }

  /** Ones swallow everything. */
  lemma {:induction false} OrOnes(x: nat, n: nat)
    requires x < Doubled(1, n)
    ensures Or(x, Doubled(1, n) - 1) == Doubled(1, n) - 1
  {
    if n > 0 { OrOnes(x / 2, n - 1); }
  }

  lemma Doubles(x: nat)
    ensures Doubled(x, 6) == 64 * x && Doubled(x, 12) == 4096 * x && Doubled(x, 18) == 262144 * x
            && Doubled(x, 20) == 1048576 * x
  {
    assert Doubled(x, 1) == 2 * x;
    assert Doubled(x, 2) == 4 * x;
    assert Doubled(x, 4) == 16 * x;
    assert Doubled(x, 6) == 64 * x;
    assert Doubled(x, 8) == 256 * x;
    assert Doubled(x, 10) == 1024 * x;
    assert Doubled(x, 12) == 4096 * x;
    assert Doubled(x, 14) == 16384 * x;
    assert Doubled(x, 16) == 65536 * x;
    assert Doubled(x, 18) == 262144 * x;
  }

  /** The arithmetic of `Chunk` is what the word operations leave in the low 24 bits, the only ones that are read. */
  lemma ChunkBits(first: int, second: int, third: int, fourth: int)
    requires -1 <= first < 64 && -1 <= second < 64 && -1 <= third < 64 && -1 <= fourth < 64
    ensures ChunkWord(first, second, third, fourth) % 0x100_0000 == Chunk(first, second, third, fourth)
  {
    hide Or, ShiftLeft, Doubled, Word, Chunk;
    var f := if first == -1 then 0x4000 - 1 else first;
    var s := if second == -1 then 0x10_0000 - 1 else second;
    var c, d := Masked(third), Masked(fourth);
    var high := if second == -1 then 0x10_0000 - 1 else 64 * f + second;
    Shifts(first, second, c);
    HighBits(f, s);
    Joined(64 * f, s, c, d, high);
    LowBits(first, second, third, fourth, f, high);
  }

  function Masked(i: int): (w: nat)
    requires -1 <= i < 64
    ensures w == Word(i) % 64 == i % 64 && w < 64
  {
    Word(i) % 64
  }

  /** Bits under 12, and under 6, zeros are added. */
  lemma Below(x: nat, y: nat)
    ensures y < 4096 ==> Or(4096 * x, y) == 4096 * x + y
    ensures y < 64 ==> Or(64 * x, y) == 64 * x + y
  {
    Doubles(x);
    Doubles(1);
    hide Or, Doubled;
    if y < 4096 { OrBelow(x, y, 12); }
    if y < 64 { OrBelow(x, y, 6); }
  }

  lemma Joined(f: nat, s: nat, c: nat, d: nat, high: nat)
    requires Or(f, s) == high && c < 64 && d < 64
    ensures Or(Or(Or(4096 * f, 4096 * s), 64 * c), d) == 4096 * high + 64 * c + d
  {
    hide Or, Doubled;
    Doubles(f);
    Doubles(s);
    Doubles(high);
    OrShifted(f, s, 12);
    Below(high, 64 * c);
    Below(64 * high + c, d);
    assert 64 * (64 * high + c) == 4096 * high + 64 * c;
  }

  lemma LowBits(first: int, second: int, third: int, fourth: int, f: nat, high: nat)
    requires -1 <= first < 64 && -1 <= second < 64 && -1 <= third < 64 && -1 <= fourth < 64
    requires f == (if first == -1 then 0x4000 - 1 else first)
             && high == if second == -1 then 0x10_0000 - 1 else 64 * f + second
    ensures (4096 * high + 64 * (third % 64) + fourth % 64) % 0x100_0000 == Chunk(first, second, third, fourth)
  {
  }

  lemma Shifts(first: int, second: int, c: nat)
    requires -1 <= first < 64 && -1 <= second < 64 && c < 64
    ensures ShiftLeft(Word(first), 18) == 4096 * (64 * if first == -1 then 0x4000 - 1 else first)
    ensures ShiftLeft(Word(second), 12) == 4096 * if second == -1 then 0x10_0000 - 1 else second
    ensures ShiftLeft(c, 6) == 64 * c
  {
    hide Doubled;
    Doubles(Word(first));
    Doubles(Word(second));
    Doubles(c);
    assert 262144 * (WORD - 1) % WORD == 4096 * (64 * (0x4000 - 1))
      && 4096 * (WORD - 1) % WORD == 4096 * (0x10_0000 - 1);
  }

  lemma HighBits(f: nat, s: nat)
    requires f < 0x4000 && (s < 64 || s == 0x10_0000 - 1)
    ensures Or(64 * f, s) == if s < 64 then 64 * f + s else s
  {
    hide Or, Doubled;
    Doubles(1);
    if s < 64 { Below(f, s); } else { OrOnes(64 * f, 20); }
  }
}
