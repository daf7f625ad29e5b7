/**
 The numbers in libhdk/checksum.cpp. Each of its four tables is exclusive-or of the entries
 for the powers of two, so the 32 literals below fix all 1024; the published check value
 fixes the order in which bits and bytes enter, and both complements.
 */
module CrcValues {
  import opened SerialCrc
  import opened Checksum

  // ---------- The entries for the powers of two ----------

  function Power(b: nat): octet
    requires b < 8
  {
    [1, 2, 4, 8, 16, 32, 64, 128][b]
  }

  /** The entries of the tables for the powers of two, as checksum.cpp spells them out. */
  function PowerEntries(k: nat): (r: seq<bv32>)
    requires k < 4
    ensures |r| == 8
  {
    match k
    case 0 =>
      [0x77073096, 0xEE0E612C, 0x076DC419, 0x0EDB8832,
       0x1DB71064, 0x3B6E20C8, 0x76DC4190, 0xEDB88320]
    case 1 =>
      [0x191B3141, 0x32366282, 0x646CC504, 0xC8D98A08,
       0x4AC21251, 0x958424A2, 0xF0794F05, 0x3B83984B]
    case 2 =>
      [0x01C26A37, 0x0384D46E, 0x0709A8DC, 0x0E1351B8,
       0x1C26A370, 0x384D46E0, 0x709A8DC0, 0xE1351B80]
    case _ =>
      [0xB8BC6765, 0xAA09C88B, 0x8F629757, 0xC5B428EF,
       0x5019579F, 0xA032AF3E, 0x9B14583D, 0xED59B63B]
  }

  lemma OneStep(n: nat, a: bv32, b: bv32)
    requires Steps(n, Word(1)) == Word(a) && Shift(a) == b
    ensures Steps(n + 1, Word(1)) == Word(b)
  {
    hide Shift;
    StepsAdd(n, 1, Word(1));
    StepsNone(BitStep(Word(a)));
  }

  /** The register that started as 1, after n steps and after each of the next eight. */
  ghost predicate Registers(n: nat, entries: seq<bv32>)
    requires |entries| == 8
  {
    forall b :: 0 <= b < 8 ==> Steps(n + 8 - b, Word(1)) == Word(entries[b])
  }

  lemma EightSteps(n: nat, a: bv32, s1: bv32, s2: bv32, s3: bv32, s4: bv32, s5: bv32, s6: bv32, s7: bv32, s8: bv32)
    requires Steps(n, Word(1)) == Word(a)
    requires Shift(a) == s1 && Shift(s1) == s2 && Shift(s2) == s3 && Shift(s3) == s4
    requires Shift(s4) == s5 && Shift(s5) == s6 && Shift(s6) == s7 && Shift(s7) == s8
    ensures Registers(n, [s8, s7, s6, s5, s4, s3, s2, s1])
    ensures Steps(n + 8, Word(1)) == Word(s8)
  {
    hide Shift, Steps;
    OneStep(n, a, s1);
    OneStep(n + 1, s1, s2);
    OneStep(n + 2, s2, s3);
    OneStep(n + 3, s3, s4);
    OneStep(n + 4, s4, s5);
    OneStep(n + 5, s5, s6);
    OneStep(n + 6, s6, s7);
    OneStep(n + 7, s7, s8);
  }

  lemma {:induction false} TableRegisters(k: nat)
    requires k < 4
    ensures Registers(8 * k, PowerEntries(k))
    ensures Steps(8 * k + 8, Word(1)) == Word(PowerEntries(k)[0])
    decreases k
  {
    hide Registers, Steps;
    StepsNone(Word(1));
    if k > 0 {
      TableRegisters(k - 1);
    }
    match k
    case 0 =>
      EightSteps(0, 1, 0xEDB88320, 0x76DC4190, 0x3B6E20C8, 0x1DB71064,
                 0x0EDB8832, 0x076DC419, 0xEE0E612C, 0x77073096);
    case 1 =>
      EightSteps(8, 0x77073096, 0x3B83984B, 0xF0794F05, 0x958424A2, 0x4AC21251,
                 0xC8D98A08, 0x646CC504, 0x32366282, 0x191B3141);
    case 2 =>
      EightSteps(16, 0x191B3141, 0xE1351B80, 0x709A8DC0, 0x384D46E0, 0x1C26A370,
                 0x0E1351B8, 0x0709A8DC, 0x0384D46E, 0x01C26A37);
    case _ =>
      EightSteps(24, 0x01C26A37, 0xED59B63B, 0x9B14583D, 0xA032AF3E, 0x5019579F,
                 0xC5B428EF, 0x8F629757, 0xAA09C88B, 0xB8BC6765);
  }

  /** A power of two reaches 1 by as many steps as its exponent. */
  lemma {:induction false} PowerDown(b: nat)
    requires b < 8
    ensures Steps(b, Byte(Power(b))) == Word(1)
  {
    hide BitStep, Byte, Power;
    if b == 0 {
      PowerHalves(1);
    } else {
      PowerHalves(b);
      PowerDown(b - 1);
    }
  }

  lemma PowerHalves(b: nat)
    requires 0 < b < 8
    ensures BitStep(Byte(Power(b))) == Byte(Power(b - 1))
    ensures Byte(Power(0)) == Word(1)
  {
  }

  /**
   Every literal of the source for a power of two. With `EntriesLinear` and `EntryOfZero`
   they determine the other entries.
   */
  lemma PowerEntry(k: nat, b: nat)
    requires k < 4 && b < 8
    ensures Multi(k, Power(b)) == PowerEntries(k)[b]
  {
    hide Steps, Multi, Byte, Power, PowerEntries;
    MultiIsSteps(k, Power(b));
    StepsAdd(b, 8 * k + 8 - b, Byte(Power(b)));
    PowerDown(b);
    TableRegisters(k);
  }

  lemma ByteXor(i: octet, j: octet)
    ensures Byte(i ^ j) == Xor(Byte(i), Byte(j))
  {
  }

  lemma EntriesLinear(k: nat, i: octet, j: octet)
    ensures Multi(k, i ^ j) == Exclusive(Multi(k, i), Multi(k, j))
  {
    hide Steps, Multi, Byte, Exclusive;
    MultiIsSteps(k, i ^ j);
    MultiIsSteps(k, i);
    MultiIsSteps(k, j);
    ByteXor(i, j);
    StepsLinear(8 * k + 8, Byte(i), Byte(j));
  }

  // ---------- The check value ----------

  /** One byte enters the register, bit by bit. */
  lemma ByteTurn(c: bv32, b: octet, s0: bv32, s1: bv32, s2: bv32, s3: bv32, s4: bv32, s5: bv32, s6: bv32, s7: bv32,
                 s8: bv32)
    requires s0 == c ^ b as bv32
    requires Shift(s0) == s1 && Shift(s1) == s2 && Shift(s2) == s3 && Shift(s3) == s4
    requires Shift(s4) == s5 && Shift(s5) == s6 && Shift(s6) == s7 && Shift(s7) == s8
    ensures FeedBits(Word(c), BitsOf([b])) == Word(s8)
  {
    hide *;
    EnterByte(c, b);
    FeedOne(Word(c), b);
    TailTurnIsSteps(c, b);
    StepOnce(Word(s0), 7);
    StepOnce(Word(s1), 6);
    StepOnce(Word(s2), 5);
    StepOnce(Word(s3), 4);
    StepOnce(Word(s4), 3);
    StepOnce(Word(s5), 2);
    StepOnce(Word(s6), 1);
    StepOnce(Word(s7), 0);
    StepsNone(Word(s8));
  }

  lemma EnterByte(c: bv32, b: octet)
    ensures Xor(Word(c), Byte(b)) == Word(c ^ b as bv32)
  {
  }

  lemma StepOnce(c: Word, n: nat)
    ensures Steps(n + 1, c) == Steps(n, Word(Shift(c.v)))
  {
    hide Shift;
  }

  lemma NextByte(start: Word, data: seq<octet>, c: bv32, b: octet, d: bv32, longer: seq<octet>)
    requires longer == data + [b]
    requires FeedBits(start, BitsOf(data)) == Word(c) && FeedBits(Word(c), BitsOf([b])) == Word(d)
    ensures FeedBits(start, BitsOf(longer)) == Word(d)
  {
    hide *;
    BitsOfAppend(data, [b]);
    FeedAppend(start, BitsOf(data), BitsOf([b]));
  }

  /** The check value that catalogues of CRCs give for CRC-32: the ASCII digits 1 to 9. */
  lemma CheckValue()
    ensures Crc([49, 50, 51, 52, 53, 54, 55, 56, 57], 0) == 0xCBF43926
  {
    hide FeedBits, BitsOf, Crc, Complement;
    ComplementZero();
    var start := Word(0xFFFFFFFF);
    BitsOfNothing();
    FeedNone(start);
    ByteTurn(0xFFFFFFFF, 49, 0xFFFFFFCE,
             0x7FFFFFE7, 0xD2477CD3, 0x849B3D49, 0xAFF51D84,
             0x57FA8EC2, 0x2BFD4761, 0xF8462090, 0x7C231048);
    NextByte(start, [], 0xFFFFFFFF, 49, 0x7C231048, [49]);
    ByteTurn(0x7C231048, 50, 0x7C23107A,
             0x3E11883D, 0xF2B0473E, 0x7958239F, 0xD11492EF,
             0x8532CA57, 0xAF21E60B, 0xBA287025, 0xB0ACBB32);
    NextByte(start, [49], 0x7C231048, 50, 0xB0ACBB32, [49, 50]);
    ByteTurn(0xB0ACBB32, 51, 0xB0ACBB01,
             0xB5EEDEA0, 0x5AF76F50, 0x2D7BB7A8, 0x16BDDBD4,
             0x0B5EEDEA, 0x05AF76F5, 0xEF6F385A, 0x77B79C2D);
    NextByte(start, [49, 50], 0xB0ACBB32, 51, 0x77B79C2D, [49, 50, 51]);
    ByteTurn(0x77B79C2D, 52, 0x77B79C19,
             0xD6634D2C, 0x6B31A696, 0x3598D34B, 0xF774EA85,
             0x9602F662, 0x4B017B31, 0xC8383EB8, 0x641C1F5C);
    NextByte(start, [49, 50, 51], 0x77B79C2D, 52, 0x641C1F5C, [49, 50, 51, 52]);
    ByteTurn(0x641C1F5C, 53, 0x641C1F69,
             0xDFB68C94, 0x6FDB464A, 0x37EDA325, 0xF64E52B2,
             0x7B272959, 0xD02B178C, 0x68158BC6, 0x340AC5E3);
    NextByte(start, [49, 50, 51, 52], 0x641C1F5C, 53, 0x340AC5E3, [49, 50, 51, 52, 53]);
    ByteTurn(0x340AC5E3, 54, 0x340AC5D5,
             0xF7BDE1CA, 0x7BDEF0E5, 0xD057FB52, 0x682BFDA9,
             0xD9AD7DF4, 0x6CD6BEFA, 0x366B5F7D, 0xF68D2C9E);
    NextByte(start, [49, 50, 51, 52, 53], 0x340AC5E3, 54, 0xF68D2C9E, [49, 50, 51, 52, 53, 54]);
    ByteTurn(0xF68D2C9E, 55, 0xF68D2CA9,
             0x96FE1574, 0x4B7F0ABA, 0x25BF855D, 0xFF67418E,
             0x7FB3A0C7, 0xD2615343, 0x84882A81, 0xAFFC9660);
    NextByte(start, [49, 50, 51, 52, 53, 54], 0xF68D2C9E, 55, 0xAFFC9660, [49, 50, 51, 52, 53, 54, 55]);
    ByteTurn(0xAFFC9660, 56, 0xAFFC9658,
             0x57FE4B2C, 0x2BFF2596, 0x15FF92CB, 0xE7474A45,
             0x9E1B2602, 0x4F0D9301, 0xCA3E4AA0, 0x651F2550);
    NextByte(start, [49, 50, 51, 52, 53, 54, 55], 0xAFFC9660, 56, 0x651F2550, [49, 50, 51, 52, 53, 54, 55, 56]);
    ByteTurn(0x651F2550, 57, 0x651F2569,
             0xDF371194, 0x6F9B88CA, 0x37CDC465, 0xF65E6112,
             0x7B2F3089, 0xD02F1B64, 0x68178DB2, 0x340BC6D9);
    NextByte(start, [49, 50, 51, 52, 53, 54, 55, 56], 0x651F2550, 57, 0x340BC6D9, [49, 50, 51, 52, 53, 54, 55, 56, 57]);
    CrcUnfold([49, 50, 51, 52, 53, 54, 55, 56, 57], 0);
    ComplementLast();
  }

  lemma ComplementLast()
    ensures Complement(0x340BC6D9) == 0xCBF43926
  {
  }
}
