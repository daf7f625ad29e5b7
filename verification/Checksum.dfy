/**
 libhdk/checksum: the slicing-by-four loop with its byte tail, and the recursive
 compile-time form. Both compute `SerialCrc.Crc`; the rest of the module says what that
 buys: independence of how the input is cut, and detection of every change confined
 to 32 consecutive bits.
 */
module Checksum {
  import opened SerialCrc

  // ---------- The tables ----------

  function Lane(w: bv32): octet {
    (w & 0xFF) as octet
  }

  function Byte(b: octet): Word {
    Word(b as bv32)
  }

  /** Table 0 of RFC 1952: eight conditional shifts of the index. */
  function Single(i: octet): bv32 {
    Steps(8, Byte(i)).v
  }

  /** Each further table advances the previous one by one zero byte. */
  function Multi(k: nat, i: octet): bv32 {
    if k == 0 then Single(i) else (Multi(k - 1, i) >> 8) ^ Single(Lane(Multi(k - 1, i)))
  }

  // ---------- Peeling one byte off a stepped word ----------

  function Raise(v: bv32): bv32 {
    v << 8
  }

  function Lower(v: bv32): bv32 {
    v >> 8
  }

  function Up(w: Word): Word {
    Word(Raise(w.v))
  }

  function Down(w: Word): Word {
    Word(Lower(w.v))
  }

  /** A right shift written as single places. */
  function Places(c: bv32, n: nat): bv32 {
    if n == 0 then c else Places(c, n - 1) >> 1
  }

  lemma ShiftEven(c: bv32)
    requires c & 1 == 0
    ensures Shift(c) == c >> 1
  {
  }

  lemma EvenPrefix(c: bv32)
    requires c & 0xFF == 0
    ensures (c >> 1) >> 1 == c >> 2 && (c >> 2) >> 1 == c >> 3 && (c >> 3) >> 1 == c >> 4 && (c >> 4) >> 1 == c >> 5
    ensures (c >> 5) >> 1 == c >> 6 && (c >> 6) >> 1 == c >> 7 && (c >> 7) >> 1 == c >> 8
    ensures c & 1 == 0 && (c >> 1) & 1 == 0 && (c >> 2) & 1 == 0 && (c >> 3) & 1 == 0
    ensures (c >> 4) & 1 == 0 && (c >> 5) & 1 == 0 && (c >> 6) & 1 == 0 && (c >> 7) & 1 == 0
  {
  }

  lemma EvenPlaces(c: bv32, n: nat)
    requires c & 0xFF == 0 && n < 8
    ensures Places(c, n) & 1 == 0
    ensures Places(c, 8) == Lower(c)
  {
    hide Places;
    EvenPrefix(c);
    NextPlace(c, 0);
    NextPlace(c, 1);
    NextPlace(c, 2);
    NextPlace(c, 3);
    NextPlace(c, 4);
    NextPlace(c, 5);
    NextPlace(c, 6);
    NextPlace(c, 7);
  }

  lemma {:induction false} EvenSteps(c: bv32, n: nat)
    requires c & 0xFF == 0 && n <= 8
    ensures Steps(n, Word(Places(c, 8 - n))) == Word(Lower(c))
    decreases n
  {
    hide Shift, Places, Lower;
    EvenPlaces(c, 0);
    if n > 0 {
      EvenPlaces(c, 8 - n);
      ShiftEven(Places(c, 8 - n));
      NextPlace(c, 8 - n);
      EvenSteps(c, n - 1);
    }
  }

  lemma NextPlace(c: bv32, n: nat)
    ensures Places(c, n + 1) == Places(c, n) >> 1
    ensures Places(c, 0) == c
  {
  }

  lemma StepsOfMultiple(c: bv32)
    requires c & 0xFF == 0
    ensures Steps(8, Word(c)) == Word(Lower(c))
  {
    hide Steps, Places, Lower;
    EvenSteps(c, 8);
    NextPlace(c, 0);
  }

  lemma RaiseLower(v: bv32)
    ensures Raise(Lower(v)) & 0xFF == 0
    ensures Lower(Raise(Lower(v))) == Lower(v)
  {
  }

  lemma StepsOfUp(w: Word)
    ensures Steps(8, Up(Down(w))) == Down(w)
  {
    hide Steps, Raise, Lower;
    RaiseLower(w.v);
    StepsOfMultiple(Raise(Lower(w.v)));
  }

  lemma SplitVector(v: bv32)
    ensures v == Exclusive(Lane(v) as bv32, Raise(Lower(v)))
  {
  }

  lemma SplitWord(w: Word)
    ensures w == Xor(Byte(Lane(w.v)), Up(Down(w)))
  {
    hide Lane, Raise, Lower, Exclusive;
    SplitVector(w.v);
  }

  lemma Peel(n: nat, w: Word)
    ensures Steps(n + 8, w) == Xor(Steps(n + 8, Byte(Lane(w.v))), Steps(n, Down(w)))
  {
    hide *;
    SplitWord(w);
    StepsLinear(n + 8, Byte(Lane(w.v)), Up(Down(w)));
    StepsAdd(8, n, Up(Down(w)));
    StepsOfUp(w);
  }

  lemma SingleWord(i: octet)
    ensures Word(Single(i)) == Steps(8, Byte(i))
  {
    hide Steps;
  }

  lemma StepsNone(c: Word)
    ensures Steps(0, c) == c
  {
  }

  lemma MultiNext(k: nat, i: octet)
    ensures Word(Multi(k + 1, i)) == Xor(Down(Word(Multi(k, i))), Word(Single(Lane(Multi(k, i)))))
  {
    hide Single, Lane;
  }

  lemma {:induction false} MultiIsSteps(k: nat, i: octet)
    ensures Word(Multi(k, i)) == Steps(8 * k + 8, Byte(i))
  {
    hide Single, Steps, Lane, Byte, Down, Xor;
    if k == 0 {
      SingleWord(i);
    } else {
      var t := Multi(k - 1, i);
      MultiIsSteps(k - 1, i);
      MultiNext(k - 1, i);
      StepsAdd(8 * k, 8, Byte(i));
      Peel(0, Word(t));
      SingleWord(Lane(t));
      StepsNone(Down(Word(t)));
      XorCommutes(Down(Word(t)), Word(Single(Lane(t))));
    }
  }

  // ---------- One turn of each loop ----------

  /** The little-endian word the four-byte loop loads. */
  function Load(b0: octet, b1: octet, b2: octet, b3: octet): bv32 {
    (b0 as bv32) | ((b1 as bv32) << 8) | ((b2 as bv32) << 16) | ((b3 as bv32) << 24)
  }

  function SlicedTurn(one: bv32): bv32 {
    Four(Multi(0, Lane(one >> 24)), Multi(1, Lane(one >> 16)), Multi(2, Lane(one >> 8)), Multi(3, Lane(one)))
  }

  function Four(a: bv32, b: bv32, c: bv32, d: bv32): bv32 {
    Exclusive(Exclusive(Exclusive(a, b), c), d)
  }

  function TailTurn(c: bv32, b: octet): bv32 {
    (c >> 8) ^ Multi(0, Lane(c) ^ b)
  }

  lemma LowerRepeatedly(v: bv32)
    ensures Lower(v) == v >> 8
    ensures Lower(Lower(v)) == v >> 16
    ensures Lower(Lower(Lower(v))) == v >> 24
    ensures Lower(Lower(Lower(Lower(v)))) == 0
  {
  }

  lemma Reorder(a: bv32, b: bv32, c: bv32, d: bv32)
    ensures Exclusive(d, Exclusive(c, Exclusive(b, a))) == Four(a, b, c, d)
  {
    hide Exclusive;
    ExclusiveCommutes(b, a);
    ExclusiveCommutes(c, Exclusive(a, b));
    ExclusiveCommutes(d, Exclusive(Exclusive(a, b), c));
  }

  lemma SlicedTurnNested(v: bv32)
    ensures SlicedTurn(v) ==
            Exclusive(Multi(3, Lane(v)),
                      Exclusive(Multi(2, Lane(Lower(v))),
                                Exclusive(Multi(1, Lane(Lower(Lower(v)))), Multi(0, Lane(Lower(Lower(Lower(v))))))))
  {
    hide Multi, Lane, Exclusive, Lower, Four;
    LowerRepeatedly(v);
    Reorder(Multi(0, Lane(v >> 24)), Multi(1, Lane(v >> 16)), Multi(2, Lane(v >> 8)), Multi(3, Lane(v)));
  }

  lemma SlicedTurnIsSteps(one: bv32)
    ensures Word(SlicedTurn(one)) == Steps(32, Word(one))
  {
    hide Multi, Lane, Exclusive, Byte, Steps, Lower, SlicedTurn;
    var v1 := Lower(one);
    var v2 := Lower(v1);
    var v3 := Lower(v2);
    LowerToZero(one);
    Peel(24, Word(one));
    Peel(16, Word(v1));
    Peel(8, Word(v2));
    Peel(0, Word(v3));
    MultiIsSteps(3, Lane(one));
    MultiIsSteps(2, Lane(v1));
    MultiIsSteps(1, Lane(v2));
    MultiIsSteps(0, Lane(v3));
    StepsNone(Word(0));
    XorZero(Word(Multi(0, Lane(v3))));
    SlicedTurnNested(one);
  }

  lemma LowerToZero(v: bv32)
    ensures Lower(Lower(Lower(Lower(v)))) == 0
  {
  }

  lemma TailTurnNamed(c: bv32, b: octet)
    ensures TailTurn(c, b) == Exclusive(Multi(0, Lane(Exclusive(c, b as bv32))), Lower(Exclusive(c, b as bv32)))
  {
    hide Multi;
    TailVector(c, b);
  }

  lemma TailVector(c: bv32, b: octet)
    ensures Lane(Exclusive(c, b as bv32)) == Lane(c) ^ b
    ensures Exclusive(c, b as bv32) >> 8 == c >> 8
  {
  }

  lemma TailTurnIsSteps(c: bv32, b: octet)
    ensures Word(TailTurn(c, b)) == Steps(8, Xor(Word(c), Byte(b)))
  {
    hide Multi, Lane, Exclusive, Steps, Lower, TailTurn;
    var v := Exclusive(c, b as bv32);
    Peel(0, Word(v));
    MultiIsSteps(0, Lane(v));
    StepsNone(Word(Lower(v)));
    TailTurnNamed(c, b);
  }

  // ---------- One turn of each loop feeds its bytes ----------

  lemma EightBits(b: octet, rest: bv32)
    ensures Xor(Bit(b & 1 != 0), Twice(Xor(Bit(b & 2 != 0), Twice(Xor(Bit(b & 4 != 0), Twice(Xor(Bit(b & 8 != 0),
            Twice(Xor(Bit(b & 16 != 0), Twice(Xor(Bit(b & 32 != 0), Twice(Xor(Bit(b & 64 != 0),
            Twice(Xor(Bit(b & 128 != 0), Twice(Word(rest)))))))))))))))))
         == Xor(Byte(b), Up(Word(rest)))
  {
  }

  lemma PackFrom(x: seq<bool>, k: nat)
    requires k < |x|
    ensures Pack(x[k..]) == Xor(Bit(x[k]), Twice(Pack(x[k + 1..])))
  {
    hide Xor, Bit, Twice;
    assert x[k..][1..] == x[k + 1..];
  }

  lemma ByteBits(b: octet, rest: seq<bool>, x: seq<bool>)
    requires x == BitsOfByte(b) + rest
    ensures x[0..] == x && |x| >= 8 && x[8..] == rest
    ensures x[0] == (b & 1 != 0) && x[1] == (b & 2 != 0) && x[2] == (b & 4 != 0) && x[3] == (b & 8 != 0)
    ensures x[4] == (b & 16 != 0) && x[5] == (b & 32 != 0) && x[6] == (b & 64 != 0) && x[7] == (b & 128 != 0)
  {
    EightThen(b & 1 != 0, b & 2 != 0, b & 4 != 0, b & 8 != 0, b & 16 != 0, b & 32 != 0, b & 64 != 0,
              b & 128 != 0, rest);
  }

  lemma EightThen(b0: bool, b1: bool, b2: bool, b3: bool, b4: bool, b5: bool, b6: bool, b7: bool, rest: seq<bool>)
    ensures var x := [b0, b1, b2, b3, b4, b5, b6, b7] + rest;
            && x[0..] == x && |x| >= 8 && x[8..] == rest
            && x[0] == b0 && x[1] == b1 && x[2] == b2 && x[3] == b3
            && x[4] == b4 && x[5] == b5 && x[6] == b6 && x[7] == b7
  {
  }

  lemma PackByte(b: octet, rest: seq<bool>)
    ensures Pack(BitsOfByte(b) + rest) == Xor(Byte(b), Up(Pack(rest)))
  {
    hide *;
    var x := BitsOfByte(b) + rest;
    ByteBits(b, rest, x);
    PackFrom(x, 0);
    PackFrom(x, 1);
    PackFrom(x, 2);
    PackFrom(x, 3);
    PackFrom(x, 4);
    PackFrom(x, 5);
    PackFrom(x, 6);
    PackFrom(x, 7);
    EightBits(b, Pack(rest).v);
  }

  lemma LoadUnfold(b0: octet, b1: octet, b2: octet, b3: octet)
    ensures Load(b0, b1, b2, b3) == Exclusive(b0 as bv32, Raise(Load(b1, b2, b3, 0)))
  {
  }

  lemma LoadNothing()
    ensures Load(0, 0, 0, 0) == 0
  {
  }

  lemma PackNone()
    ensures Pack([]) == Word(0)
  {
  }

  lemma PackUnfoldByte(b: octet, rest: seq<octet>)
    ensures Pack(BitsOf([b] + rest)) == Xor(Byte(b), Up(Pack(BitsOf(rest))))
  {
    hide Xor, Up, Byte, Pack, BitsOfByte;
    assert ([b] + rest)[1..] == rest;
    PackByte(b, BitsOf(rest));
  }

  lemma PackFour(b0: octet, b1: octet, b2: octet, b3: octet)
    ensures Pack(BitsOf([b0, b1, b2, b3])) == Word(Load(b0, b1, b2, b3))
  {
    hide Load, Exclusive, Raise, Pack, BitsOf;
    assert [b0, b1, b2, b3] == [b0] + [b1, b2, b3];
    assert [b1, b2, b3] == [b1] + [b2, b3];
    assert [b2, b3] == [b2] + [b3];
    assert [b3] == [b3] + [];
    PackUnfoldByte(b0, [b1, b2, b3]);
    PackUnfoldByte(b1, [b2, b3]);
    PackUnfoldByte(b2, [b3]);
    PackUnfoldByte(b3, []);
    BitsOfNothing();
    PackNone();
    LoadUnfold(b0, b1, b2, b3);
    LoadUnfold(b1, b2, b3, 0);
    LoadUnfold(b2, b3, 0, 0);
    LoadUnfold(b3, 0, 0, 0);
    LoadNothing();
  }

  lemma BitsOfNothing()
    ensures BitsOf([]) == []
  {
  }

  lemma EightBitsLength(b: octet)
    ensures |BitsOfByte(b)| == 8
  {
  }

  lemma {:induction false} BitsOfLength(data: seq<octet>)
    ensures |BitsOf(data)| == 8 * |data|
  {
    hide BitsOfByte;
    if data != [] {
      EightBitsLength(data[0]);
      BitsOfLength(data[1..]);
    }
  }

  lemma {:induction false} BitsOfAppend(x: seq<octet>, y: seq<octet>)
    ensures BitsOf(x + y) == BitsOf(x) + BitsOf(y)
  {
    hide BitsOfByte;
    if x == [] {
      assert x + y == y;
    } else {
      assert (x + y)[1..] == x[1..] + y;
      BitsOfAppend(x[1..], y);
    }
  }

  lemma FeedFour(c: Word, b0: octet, b1: octet, b2: octet, b3: octet)
    ensures FeedBits(c, BitsOf([b0, b1, b2, b3])) == Word(SlicedTurn(Exclusive(Load(b0, b1, b2, b3), c.v)))
  {
    hide *;
    var w := [b0, b1, b2, b3];
    BitsOfLength(w);
    FeedIsSteps(c, BitsOf(w));
    PackFour(b0, b1, b2, b3);
    XorCommutes(c, Word(Load(b0, b1, b2, b3)));
    XorWords(Load(b0, b1, b2, b3), c);
    SlicedTurnIsSteps(Exclusive(Load(b0, b1, b2, b3), c.v));
  }

  lemma XorWords(a: bv32, c: Word)
    ensures Xor(Word(a), c) == Word(Exclusive(a, c.v))
  {
  }

  lemma FeedOne(c: Word, b: octet)
    ensures FeedBits(c, BitsOf([b])) == Word(TailTurn(c.v, b))
  {
    hide *;
    BitsOfLength([b]);
    FeedIsSteps(c, BitsOf([b]));
    assert [b] == [b] + [];
    PackUnfoldByte(b, []);
    BitsOfNothing();
    PackNone();
    UpZero();
    XorZero(Byte(b));
    TailTurnIsSteps(c.v, b);
  }

  lemma UpZero()
    ensures Up(Word(0)) == Word(0)
  {
  }

  lemma FeedMore(c: Word, data: seq<octet>, done: nat, next: nat)
    requires done <= next <= |data|
    ensures FeedBits(c, BitsOf(data[..next])) == FeedBits(FeedBits(c, BitsOf(data[..done])), BitsOf(data[done..next]))
  {
    hide FeedBits, BitsOf;
    assert data[..next] == data[..done] + data[done..next];
    BitsOfAppend(data[..done], data[done..next]);
    FeedAppend(c, BitsOf(data[..done]), BitsOf(data[done..next]));
  }

  // ---------- crc32 ----------

  method Crc32(data: seq<octet>, previous: bv32) returns (crc: bv32)
    ensures crc == Crc(data, previous)
  {
    hide *;
    var c := Complement(previous);
    var current, length := 0, |data|;
    ghost var start := Word(Complement(previous));
    assert data[..0] == [];
    BitsOfNothing();
    FeedNone(start);
    while length >= 4
      invariant 0 <= current <= |data| && length == |data| - current
      invariant Word(c) == FeedBits(start, BitsOf(data[..current]))
    {
      FeedMore(start, data, current, current + 4);
      assert data[current..current + 4] == [data[current], data[current + 1], data[current + 2], data[current + 3]];
      FeedFour(Word(c), data[current], data[current + 1], data[current + 2], data[current + 3]);
      ExclusiveOf(Load(data[current], data[current + 1], data[current + 2], data[current + 3]), c);
      var one := Load(data[current], data[current + 1], data[current + 2], data[current + 3]) ^ c;
      c := SlicedTurn(one);
      current := current + 4;
      length := length - 4;
    }
    while length != 0
      invariant 0 <= current <= |data| && length == |data| - current
      invariant Word(c) == FeedBits(start, BitsOf(data[..current]))
    {
      FeedMore(start, data, current, current + 1);
      assert data[current..current + 1] == [data[current]];
      FeedOne(Word(c), data[current]);
      c := TailTurn(c, data[current]);
      current := current + 1;
      length := length - 1;
    }
    assert data[..current] == data;
    crc := Complement(c);
    CrcUnfold(data, previous);
  }

  lemma ExclusiveOf(a: bv32, b: bv32)
    ensures Exclusive(a, b) == a ^ b
  {
  }

  lemma FeedNone(c: Word)
    ensures FeedBits(c, []) == c
  {
  }

  lemma CrcUnfold(data: seq<octet>, previous: bv32)
    ensures Crc(data, previous) == Complement(FeedBits(Word(Complement(previous)), BitsOf(data)).v)
  {
  }

  // ---------- Independence of how the input is cut ----------

  /** The checksum of a continuation, started from the checksum of what came before. */
  lemma Chained(a: seq<octet>, b: seq<octet>, previous: bv32)
    ensures Crc(b, Crc(a, previous)) == Crc(a + b, previous)
  {
    hide *;
    BitsOfAppend(a, b);
    FeedAppend(Word(Complement(previous)), BitsOf(a), BitsOf(b));
    CrcUnfold(a, previous);
    CrcUnfold(b, Crc(a, previous));
    CrcUnfold(a + b, previous);
    DoubleComplement(FeedBits(Word(Complement(previous)), BitsOf(a)).v);
  }

  lemma DoubleComplement(v: bv32)
    ensures Complement(Complement(v)) == v
  {
  }

  lemma ComplementZero()
    ensures Complement(0) == 0xFFFFFFFF
  {
  }

  lemma ComplementInjective(v: bv32, w: bv32)
    requires Complement(v) == Complement(w)
    ensures v == w
  {
  }

  // ---------- crc32_static ----------

  /** The recursive form over a literal, whose last element is the terminator. */
  function Static(s: seq<octet>, h: bv32, i: nat): bv32
    requires i < |s|
    decreases |s| - i
  {
    if i == |s| - 1 then h ^ 0xFFFFFFFF
    else Static(s, StaticTurn(h, s[i]), i + 1)
  }

  function StaticTurn(h: bv32, b: octet): bv32 {
    (h >> 8) ^ Single(Lane(h ^ (b as bv32)))
  }

  lemma {:induction false} StaticFeeds(s: seq<octet>, h: bv32, i: nat)
    requires i < |s|
    ensures Static(s, h, i) == Complement(FeedBits(Word(h), BitsOf(s[i..|s| - 1])).v)
    decreases |s| - i
  {
    hide *;
    if i == |s| - 1 {
      assert s[i..|s| - 1] == [];
      BitsOfNothing();
      FeedNone(Word(h));
      StaticLast(s, h);
    } else {
      StaticNext(s, h, i);
      var rest := s[i..|s| - 1];
      assert rest[..1] == [s[i]] && rest[1..|rest|] == s[i + 1..|s| - 1] && rest[..|rest|] == rest;
      FeedMore(Word(h), rest, 1, |rest|);
      FeedOne(Word(h), s[i]);
      StaticFeeds(s, TailTurn(h, s[i]), i + 1);
    }
  }

  lemma StaticLast(s: seq<octet>, h: bv32)
    requires s != []
    ensures Static(s, h, |s| - 1) == Complement(h)
  {
    ComplementIsXor(h);
  }

  lemma StaticNext(s: seq<octet>, h: bv32, i: nat)
    requires i < |s| - 1
    ensures Static(s, h, i) == Static(s, TailTurn(h, s[i]), i + 1)
  {
    hide StaticTurn, TailTurn;
    StaticTurnIsTail(h, s[i]);
  }

  lemma ComplementIsXor(h: bv32)
    ensures h ^ 0xFFFFFFFF == Complement(h)
  {
  }

  lemma StaticTurnIsTail(h: bv32, b: octet)
    ensures StaticTurn(h, b) == TailTurn(h, b)
  {
    hide Single;
    TailVector(h, b);
  }

  /** The compile-time form agrees with the loop on the text of the literal. */
  lemma StaticIsCrc(text: seq<octet>)
    ensures Static(text + [0], 0xFFFFFFFF, 0) == Crc(text, 0)
  {
    hide *;
    StaticFeeds(text + [0], 0xFFFFFFFF, 0);
    CrcUnfold(text, 0);
    ComplementZero();
    assert (text + [0])[0..|text + [0]| - 1] == text;
  }

  // ---------- get_type_id ----------

  /** The identifier of a message struct: its field list, then its type name. */
  method TypeId(fields: seq<octet>, typeName: seq<octet>) returns (id: bv32)
    ensures id == Crc(fields + typeName, 0)
  {
    StaticIsCrc(fields);
    id := Crc32(typeName, Static(fields + [0], 0xFFFFFFFF, 0));
    Chained(fields, typeName, 0);
  }

  // ---------- What the checksum detects ----------

  /** Bit strings that agree outside 32 consecutive places drive the register apart. */
  lemma BurstSeparates(c: Word, prefix: seq<bool>, x: seq<bool>, y: seq<bool>, suffix: seq<bool>)
    requires |x| == |y| <= 32 && x != y
    ensures FeedBits(c, prefix + x + suffix) != FeedBits(c, prefix + y + suffix)
  {
    hide *;
    var d := FeedBits(c, prefix);
    FeedAppend(c, prefix, x);
    FeedAppend(c, prefix, y);
    FeedAppend(c, prefix + x, suffix);
    FeedAppend(c, prefix + y, suffix);
    if FeedBits(c, prefix + x + suffix) == FeedBits(c, prefix + y + suffix) {
      FeedInjective(FeedBits(d, x), FeedBits(d, y), suffix);
      FeedIsSteps(d, x);
      FeedIsSteps(d, y);
      StepsInjective(|x|, Xor(d, Pack(x)), Xor(d, Pack(y)));
      XorCommutes(d, Pack(x));
      XorCommutes(d, Pack(y));
      XorCancels(Pack(x), Pack(y), d);
      PackInjective(x, y);
    }
  }

  /**
   Every change confined to 32 consecutive bits is detected, wherever the window starts
   and whatever surrounds it.
   */
  lemma BurstDetected(x: seq<octet>, y: seq<octet>, previous: bv32, low: nat)
    requires |x| == |y| && x != y
    requires forall i :: 0 <= i < |BitsOf(x)| && i < |BitsOf(y)| && !(low <= i < low + 32) ==>
               BitsOf(x)[i] == BitsOf(y)[i]
    ensures Crc(x, previous) != Crc(y, previous)
  {
    hide *;
    var p, q := BitsOf(x), BitsOf(y);
    BitsOfLength(x);
    BitsOfLength(y);
    var from := if low <= |p| then low else |p|;
    var to := if low + 32 <= |p| then low + 32 else |p|;
    assert p == p[..from] + p[from..to] + p[to..];
    assert q == q[..from] + q[from..to] + q[to..];
    assert p[..from] == q[..from] && p[to..] == q[to..];
    if p == q {
      BitsOfInjective(x, y);
    }
    BurstSeparates(Word(Complement(previous)), p[..from], p[from..to], q[from..to], p[to..]);
    CrcUnfold(x, previous);
    CrcUnfold(y, previous);
    if Crc(x, previous) == Crc(y, previous) {
      ComplementInjective(FeedBits(Word(Complement(previous)), p).v, FeedBits(Word(Complement(previous)), q).v);
    }
  }

  lemma {:induction false} BitsOfInjective(x: seq<octet>, y: seq<octet>)
    requires |x| == |y| && BitsOf(x) == BitsOf(y)
    ensures x == y
  {
    if x != [] {
      hide BitsOfByte;
      EightBitsLength(x[0]);
      EightBitsLength(y[0]);
      assert BitsOf(x)[..8] == BitsOfByte(x[0]) && BitsOf(y)[..8] == BitsOfByte(y[0]);
      assert BitsOf(x)[8..] == BitsOf(x[1..]) && BitsOf(y)[8..] == BitsOf(y[1..]);
      ByteFromBits(x[0], y[0]);
      BitsOfInjective(x[1..], y[1..]);
      assert x == [x[0]] + x[1..] && y == [y[0]] + y[1..];
    }
  }

  lemma ByteFromBits(a: octet, b: octet)
    requires BitsOfByte(a) == BitsOfByte(b)
    ensures a == b
  {
    var p, q := BitsOfByte(a), BitsOfByte(b);
    assert p[0] == q[0] && p[1] == q[1] && p[2] == q[2] && p[3] == q[3];
    assert p[4] == q[4] && p[5] == q[5] && p[6] == q[6] && p[7] == q[7];
    BitsDetermineByte(a, b);
  }

  lemma BitsDetermineByte(a: octet, b: octet)
    requires (a & 1 != 0) == (b & 1 != 0) && (a & 2 != 0) == (b & 2 != 0)
    requires (a & 4 != 0) == (b & 4 != 0) && (a & 8 != 0) == (b & 8 != 0)
    requires (a & 16 != 0) == (b & 16 != 0) && (a & 32 != 0) == (b & 32 != 0)
    requires (a & 64 != 0) == (b & 64 != 0) && (a & 128 != 0) == (b & 128 != 0)
    ensures a == b
  {
  }

  /** In particular two inputs that differ only within four consecutive bytes. */
  lemma WindowDetected(prefix: seq<octet>, x: seq<octet>, y: seq<octet>, suffix: seq<octet>, previous: bv32)
    requires |x| == |y| <= 4 && x != y
    ensures Crc(prefix + x + suffix, previous) != Crc(prefix + y + suffix, previous)
  {
    hide *;
    BitsOfAppend(prefix, x);
    BitsOfAppend(prefix, y);
    BitsOfAppend(prefix + x, suffix);
    BitsOfAppend(prefix + y, suffix);
    BitsOfLength(x);
    BitsOfLength(y);
    if BitsOf(x) == BitsOf(y) {
      BitsOfInjective(x, y);
    }
    BurstSeparates(Word(Complement(previous)), BitsOf(prefix), BitsOf(x), BitsOf(y), BitsOf(suffix));
    CrcUnfold(prefix + x + suffix, previous);
    CrcUnfold(prefix + y + suffix, previous);
    if Crc(prefix + x + suffix, previous) == Crc(prefix + y + suffix, previous) {
      ComplementInjective(FeedBits(Word(Complement(previous)), BitsOf(prefix + x + suffix)).v,
                          FeedBits(Word(Complement(previous)), BitsOf(prefix + y + suffix)).v);
    }
  }
}
