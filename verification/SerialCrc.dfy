/**
 The bit-at-a-time CRC-32 of section 8 of RFC 1952, and the algebra of its one-bit step:
 the step is linear over exclusive-or and injective, so any number of steps is too.
 Everything `Checksum` proves about the table-driven loops rests on these lemmas.

 A register is a 32-bit vector wrapped in a datatype. Only the small lemmas on one step
 look inside the wrapper; the inductive ones hide every definition and use those lemmas.
 */
module SerialCrc {

  type octet = bv8

  datatype Word = Word(v: bv32)

  function Exclusive(a: bv32, b: bv32): bv32 {
    a ^ b
  }

  function Xor(a: Word, b: Word): Word {
    Word(Exclusive(a.v, b.v))
  }

  /** Shifts by one bit; the bit that falls out selects the reflected generator polynomial. */
  function Shift(c: bv32): bv32 {
    if c & 1 == 1 then (c >> 1) ^ 0xEDB88320 else c >> 1
  }

  function BitStep(c: Word): Word {
    Word(Shift(c.v))
  }

  function Steps(n: nat, c: Word): Word
    decreases n
  {
    if n == 0 then c else Steps(n - 1, BitStep(c))
  }

  function Bit(b: bool): Word {
    if b then Word(1) else Word(0)
  }

  /** The serial reference: message bits enter the register one at a time. */
  function FeedBits(c: Word, bits: seq<bool>): Word
    decreases bits
  {
    if bits == [] then c else FeedBits(BitStep(Xor(c, Bit(bits[0]))), bits[1..])
  }

  /** The bits of a byte, least significant first. */
  function BitsOfByte(b: octet): seq<bool> {
    [b & 1 != 0, b & 2 != 0, b & 4 != 0, b & 8 != 0, b & 16 != 0, b & 32 != 0, b & 64 != 0, b & 128 != 0]
  }

  function BitsOf(data: seq<octet>): seq<bool> {
    if data == [] then [] else BitsOfByte(data[0]) + BitsOf(data[1..])
  }

  function Complement(v: bv32): bv32 {
    !v
  }

  /** RFC 1952, section 8: one's complement before and after. */
  function Crc(data: seq<octet>, previous: bv32): bv32 {
    Complement(FeedBits(Word(Complement(previous)), BitsOf(data)).v)
  }

  // ---------- Exclusive-or ----------

  lemma XorAssociates(a: Word, b: Word, c: Word)
    ensures Xor(a, Xor(b, c)) == Xor(Xor(a, b), c)
  {
    hide Exclusive;
    ExclusiveAssociates(a.v, b.v, c.v);
  }

  lemma ExclusiveAssociates(a: bv32, b: bv32, c: bv32)
    ensures Exclusive(a, Exclusive(b, c)) == Exclusive(Exclusive(a, b), c)
  {
  }

  lemma XorCommutes(a: Word, b: Word)
    ensures Xor(a, b) == Xor(b, a)
  {
  }

  lemma XorZero(a: Word)
    ensures Xor(a, Word(0)) == a
  {
  }

  lemma XorCancels(a: Word, b: Word, c: Word)
    requires Xor(a, c) == Xor(b, c)
    ensures a == b
  {
  }

  // ---------- The one-bit step ----------

  lemma ShiftOddOdd(a: bv32, b: bv32)
    requires a & 1 == 1 && b & 1 == 1
    ensures Shift(Exclusive(a, b)) == Exclusive(Shift(a), Shift(b))
  {
  }

  lemma ShiftOddEven(a: bv32, b: bv32)
    requires a & 1 == 1 && b & 1 == 0
    ensures Shift(Exclusive(a, b)) == Exclusive(Shift(a), Shift(b))
  {
  }

  lemma ShiftEvenEven(a: bv32, b: bv32)
    requires a & 1 == 0 && b & 1 == 0
    ensures Shift(Exclusive(a, b)) == Exclusive(Shift(a), Shift(b))
  {
  }

  lemma ShiftLinear(a: bv32, b: bv32)
    ensures Shift(Exclusive(a, b)) == Exclusive(Shift(a), Shift(b))
  {
    hide Shift, Exclusive;
    LowBit(a);
    LowBit(b);
    ExclusiveCommutes(a, b);
    ExclusiveCommutes(Shift(a), Shift(b));
    if a & 1 == 1 {
      if b & 1 == 1 {
        ShiftOddOdd(a, b);
      } else {
        ShiftOddEven(a, b);
      }
    } else {
      if b & 1 == 1 {
        ShiftOddEven(b, a);
      } else {
        ShiftEvenEven(a, b);
      }
    }
  }

  lemma ExclusiveCommutes(a: bv32, b: bv32)
    ensures Exclusive(a, b) == Exclusive(b, a)
  {
  }

  lemma LowBit(a: bv32)
    ensures a & 1 == 1 || a & 1 == 0
  {
  }

  lemma BitStepLinear(a: Word, b: Word)
    ensures BitStep(Xor(a, b)) == Xor(BitStep(a), BitStep(b))
  {
    hide Shift, Exclusive;
    ShiftLinear(a.v, b.v);
  }

  lemma ShiftInjective(a: bv32, b: bv32)
    requires Shift(a) == Shift(b)
    ensures a == b
  {
  }

  /** The polynomial has its top bit set, so the step loses no information. */
  lemma BitStepInjective(a: Word, b: Word)
    requires BitStep(a) == BitStep(b)
    ensures a == b
  {
    hide Shift;
    ShiftInjective(a.v, b.v);
  }

  // ---------- Many steps ----------

  lemma {:induction false} StepsLinear(n: nat, a: Word, b: Word)
    ensures Steps(n, Xor(a, b)) == Xor(Steps(n, a), Steps(n, b))
    decreases n
  {
    hide Xor, BitStep;
    if n > 0 {
      BitStepLinear(a, b);
      StepsLinear(n - 1, BitStep(a), BitStep(b));
    }
  }

  lemma {:induction false} StepsInjective(n: nat, a: Word, b: Word)
    requires Steps(n, a) == Steps(n, b)
    ensures a == b
    decreases n
  {
    hide BitStep;
    if n > 0 {
      StepsInjective(n - 1, BitStep(a), BitStep(b));
      BitStepInjective(a, b);
    }
  }

  lemma {:induction false} StepsAdd(m: nat, n: nat, c: Word)
    ensures Steps(m + n, c) == Steps(n, Steps(m, c))
    decreases m
  {
    hide BitStep;
    if m > 0 {
      StepsAdd(m - 1, n, BitStep(c));
    }
  }

  // ---------- Feeding bits ----------

  lemma {:induction false} FeedAppend(c: Word, x: seq<bool>, y: seq<bool>)
    ensures FeedBits(c, x + y) == FeedBits(FeedBits(c, x), y)
    decreases x
  {
    hide Xor, BitStep, Bit;
    if x == [] {
      assert x + y == y;
    } else {
      assert (x + y)[1..] == x[1..] + y;
      FeedAppend(BitStep(Xor(c, Bit(x[0]))), x[1..], y);
    }
  }

  lemma {:induction false} FeedInjective(c: Word, d: Word, bits: seq<bool>)
    requires FeedBits(c, bits) == FeedBits(d, bits)
    ensures c == d
    decreases bits
  {
    hide Xor, BitStep, Bit;
    if bits != [] {
      var c', d' := Xor(c, Bit(bits[0])), Xor(d, Bit(bits[0]));
      FeedInjective(BitStep(c'), BitStep(d'), bits[1..]);
      BitStepInjective(c', d');
      XorCancels(c, d, Bit(bits[0]));
    }
  }

  // ---------- Feeding at most 32 bits is stepping a packed word ----------

  function Twice(w: Word): Word {
    Word(w.v << 1)
  }

  /** Up to 32 bits as one word, first bit least significant. */
  function Pack(bits: seq<bool>): Word {
    if bits == [] then Word(0) else Xor(Bit(bits[0]), Twice(Pack(bits[1..])))
  }

  /** The n low bits set. */
  function Low(n: nat): Word {
    if n == 0 then Word(0) else Xor(Twice(Low(n - 1)), Word(1))
  }

  predicate Within(w: Word, mask: Word) {
    w.v & !mask.v == 0
  }

  lemma WithinTwice(w: Word, mask: Word, b: bool)
    requires Within(w, mask)
    ensures Within(Xor(Bit(b), Twice(w)), Xor(Twice(mask), Word(1)))
    ensures Within(Xor(Twice(w), Word(1)), Xor(Twice(mask), Word(1)))
  {
  }

  lemma WithinTransitive(a: Word, b: Word, c: Word)
    requires Within(a, b) && Within(b, c)
    ensures Within(a, c)
  {
  }

  lemma WithinZero(mask: Word)
    ensures Within(Word(0), mask)
  {
  }

  lemma {:induction false} LowNested(n: nat)
    ensures Within(Low(n), Low(n + 1))
  {
    hide Within, Twice, Xor;
    if n == 0 {
      WithinZero(Low(1));
    } else {
      LowNested(n - 1);
      WithinTwice(Low(n - 1), Low(n), true);
    }
  }

  lemma {:induction false} LowBelow(n: nat)
    requires n <= 31
    ensures Within(Low(n), Low(31))
    decreases 31 - n
  {
    hide Twice, Xor;
    if n < 31 {
      hide Low, Within;
      LowBelow(n + 1);
      LowNested(n);
      WithinTransitive(Low(n), Low(n + 1), Low(31));
    }
  }

  lemma {:induction false} PackWithin(bits: seq<bool>)
    ensures Within(Pack(bits), Low(|bits|))
  {
    hide Within, Twice, Xor;
    if bits == [] {
      WithinZero(Low(0));
    } else {
      PackWithin(bits[1..]);
      WithinTwice(Pack(bits[1..]), Low(|bits| - 1), bits[0]);
    }
  }

  lemma LowThirtyOne()
    ensures Low(31) == Word(0x7FFFFFFF)
  {
    assert Low(8) == Word(0xFF);
    assert Low(16) == Word(0xFFFF);
    assert Low(24) == Word(0xFFFFFF);
  }

  lemma TopBitClear(bits: seq<bool>)
    requires |bits| <= 31
    ensures Pack(bits).v & 0x80000000 == 0
  {
    hide Pack, Low, Bit, Xor, Twice;
    PackWithin(bits);
    LowBelow(|bits|);
    hide Within;
    WithinTransitive(Pack(bits), Low(|bits|), Low(31));
    LowThirtyOne();
    WithinTop(Pack(bits));
  }

  lemma WithinTop(w: Word)
    requires Within(w, Word(0x7FFFFFFF))
    ensures w.v & 0x80000000 == 0
  {
  }

  lemma StepOfTwice(w: Word)
    requires w.v & 0x80000000 == 0
    ensures BitStep(Twice(w)) == w
  {
  }

  lemma {:induction false} FeedIsSteps(c: Word, bits: seq<bool>)
    requires |bits| <= 32
    ensures FeedBits(c, bits) == Steps(|bits|, Xor(c, Pack(bits)))
    decreases bits
  {
    hide Xor, BitStep, Bit, Twice;
    XorZero(c);
    if bits != [] {
      var first, rest := Xor(c, Bit(bits[0])), Pack(bits[1..]);
      FeedIsSteps(BitStep(first), bits[1..]);
      TopBitClear(bits[1..]);
      StepOfTwice(rest);
      BitStepLinear(first, Twice(rest));
      XorAssociates(c, Bit(bits[0]), Twice(rest));
    }
  }

  lemma UnpackHead(a: bool, b: bool, x: Word, y: Word)
    requires x.v & 0x80000000 == 0 && y.v & 0x80000000 == 0
    requires Xor(Bit(a), Twice(x)) == Xor(Bit(b), Twice(y))
    ensures a == b && x == y
  {
  }

  lemma {:induction false} PackInjective(x: seq<bool>, y: seq<bool>)
    requires |x| == |y| <= 32
    requires Pack(x) == Pack(y)
    ensures x == y
  {
    hide Xor, Bit, Twice;
    if x != [] {
      TopBitClear(x[1..]);
      TopBitClear(y[1..]);
      UnpackHead(x[0], y[0], Pack(x[1..]), Pack(y[1..]));
      PackInjective(x[1..], y[1..]);
      assert x == [x[0]] + x[1..] && y == [y[0]] + y[1..];
    }
  }
}
