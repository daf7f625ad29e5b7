/** Bytes, fixed-width integers as bytes, and the option type the codecs share. */
module Bytes {

  newtype byte = x: int | 0 <= x < 256

  /** A std::string or a frame: bytes without interpretation. */
  type bytes = seq<byte>

  datatype Option<+T> = None | Some(value: T)

  /** The number of values that fit in the given number of bytes. */
  function Capacity(width: nat): (r: nat)
    ensures r > 0
  {
    if width == 0 then 1 else 256 * Capacity(width - 1)
  }

  /** The in-memory image of an unsigned integer on a little-endian machine. */
  function LittleEndian(n: nat, width: nat): (r: seq<byte>)
    ensures |r| == width
  {
    if width == 0 then [] else [(n % 256) as byte] + LittleEndian(n / 256, width - 1)
  }

  function FromLittleEndian(s: seq<byte>): nat {
    if s == [] then 0 else s[0] as nat + 256 * FromLittleEndian(s[1..])
  }

  lemma {:induction false} LittleEndianRoundTrip(n: nat, width: nat)
    requires n < Capacity(width)
    ensures FromLittleEndian(LittleEndian(n, width)) == n
  {
    if width > 0 {
      assert n / 256 < Capacity(width - 1);
      LittleEndianRoundTrip(n / 256, width - 1);
    }
  }

  lemma Digits(low: nat, high: nat)
    requires low < 256
    ensures (low + 256 * high) % 256 == low
    ensures (low + 256 * high) / 256 == high
  {
  }

  lemma {:induction false} FromLittleEndianRoundTrip(s: seq<byte>)
    ensures FromLittleEndian(s) < Capacity(|s|)
    ensures LittleEndian(FromLittleEndian(s), |s|) == s
  {
    if s != [] {
      FromLittleEndianRoundTrip(s[1..]);
      Digits(s[0] as nat, FromLittleEndian(s[1..]));
      assert s == [s[0]] + s[1..];
    }
  }

  /** The width of the source's size type. */
  const SIZE_WIDTH: nat := 8

  lemma SizeCapacity()
    ensures Capacity(SIZE_WIDTH) == 0x1_0000_0000_0000_0000
    ensures Capacity(4) == 0x1_0000_0000
  {
    assert Capacity(2) == 0x1_0000;
    assert Capacity(6) == 0x1_0000_0000_0000;
  }

  lemma AppendAssociates<T>(a: seq<T>, b: seq<T>, c: seq<T>)
    ensures (a + b) + c == a + (b + c)
  {
  }

  /** Splitting off the first part of a concatenation. */
  lemma SplitAppend<T>(a: seq<T>, b: seq<T>)
    ensures (a + b)[..|a|] == a
    ensures (a + b)[|a|..] == b
  {
  }
}
