/**
 Encoding again what was decoded, for types with maps (libhdk/marshall/marshal.hpp). A map
 re-orders and de-duplicates the entries read, so its bytes need not come back.
 */
module MarshalMaps {
  import opened Bytes
  import opened Marshal

  /** The entries of a map as they come from the stream, before any is inserted. */
  function Came(less: Order, key: Type, value: Type, n: nat, s: seq<byte>): Option<Decoded<seq<Entry>>>
    decreases n
  {
    if n == 0 then Some(Decoded([], s))
    else match DecodeEntry(less, key, value, s)
         case None => None
         case Some(d) =>
           match Came(less, key, value, n - 1, d.rest)
           case None => None
           case Some(later) => Some(Decoded([d.result] + later.result, later.rest))
  }

  lemma {:induction false} CameInserted(less: Order, key: Type, value: Type, n: nat, into: seq<Entry>, s: seq<byte>)
    ensures DecodeEntries(less, key, value, n, into, s) ==
            match Came(less, key, value, n, s)
            case None => None
            case Some(d) => Some(Decoded(InsertAll(less, key, into, d.result), d.rest))
    decreases n
  {
    if n > 0 && DecodeEntry(less, key, value, s).Some? {
      var d := DecodeEntry(less, key, value, s).value;
      CameInserted(less, key, value, n - 1, Insert(less, key, into, d.result), d.rest);
      var later := Came(less, key, value, n - 1, d.rest);
      if later.Some? {
        assert ([d.result] + later.value.result)[1..] == later.value.result;
      }
    }
  }

  /** Wherever a map is read, its keys come in strictly increasing order. */
  ghost predicate Canonical(less: Order, t: Type, s: seq<byte>)
    decreases t, 0
  {
    match t
    case Fixed(_, _) => true
    case Text => true
    case Vector(_) => true
    case Map(key, value) =>
      var size := DecodeSize(s);
      size.Some? ==>
        var came := Came(less, key, value, size.value.result, size.value.rest);
        && CanonicalEntries(less, key, value, size.value.result, size.value.rest)
        && (came.Some? ==> Increasing(less, key, came.value.result))
  }

  ghost predicate CanonicalEntry(less: Order, key: Type, value: Type, s: seq<byte>)
    requires DecodeEntry(less, key, value, s).Some?
    decreases Map(key, value), 0, 0
  {
    Canonical(less, key, s) && Canonical(less, value, Decode(less, key, Default(key), s).value.rest)
  }

  ghost predicate CanonicalEntries(less: Order, key: Type, value: Type, n: nat, s: seq<byte>)
    decreases Map(key, value), 0, n
  {
    n > 0 && DecodeEntry(less, key, value, s).Some? ==>
      && CanonicalEntry(less, key, value, s)
      && CanonicalEntries(less, key, value, n - 1, DecodeEntry(less, key, value, s).value.rest)
  }

  /** What one read consumed: the bytes in front of what it left. */
  ghost predicate Consumed(s: seq<byte>, used: seq<byte>, rest: seq<byte>) {
    s == used + rest
  }

  /** The value encodes to at most the bytes it was read from, and to just those in the one case. */
  ghost predicate Shrinks(encoding: seq<byte>, used: seq<byte>, canonical: bool) {
    |encoding| <= |used| && (encoding == used <==> canonical)
  }

  lemma ShrinkingTwice(x: seq<byte>, a: seq<byte>, p: bool, y: seq<byte>, b: seq<byte>, q: bool)
    requires Shrinks(x, a, p) && Shrinks(y, b, q)
    ensures Shrinks(x + y, a + b, p && q)
  {
    if x + y == a + b {
      assert |x| == |a|;
      assert x == (x + y)[..|x|] == (a + b)[..|a|] == a;
      assert y == (x + y)[|x|..] == (a + b)[|a|..] == b;
    }
  }

  // ---------- What inserting does to the encoding ----------

  lemma {:induction false} InsertShrinks(less: Order, key: Type, entries: seq<Entry>, e: Entry)
    ensures |EncodeEntries(Insert(less, key, entries, e))| <= |EncodeEntries(entries)| + |EncodeEntry(e)|
    ensures |Insert(less, key, entries, e)| <= |entries| + 1
  {
    if entries == [] {
      assert EncodeEntries([e]) == EncodeEntry(e) + EncodeEntries([]);
    } else if less(key, entries[0].key, e.key) {
      InsertShrinks(less, key, entries[1..], e);
    } else {
      assert ([e] + entries)[1..] == entries;
    }
  }

  lemma {:induction false} InsertAllShrinks(less: Order, key: Type, into: seq<Entry>, entries: seq<Entry>)
    requires StrictOrder(less) && Increasing(less, key, into)
    ensures var r := InsertAll(less, key, into, entries);
            && |EncodeEntries(r)| <= |EncodeEntries(into)| + |EncodeEntries(entries)|
            && |r| <= |into| + |entries|
            && Increasing(less, key, r)
            && forall x :: x in r ==> x in into || x in entries
    decreases entries
  {
    if entries != [] {
      InsertShrinks(less, key, into, entries[0]);
      InsertContents(less, key, into, entries[0]);
      InsertAllShrinks(less, key, Insert(less, key, into, entries[0]), entries[1..]);
    }
  }

  ghost predicate EntriesHaveType(less: Order, key: Type, value: Type, entries: seq<Entry>) {
    forall e :: e in entries ==> HasType(less, key, e.key) && HasType(less, value, e.value)
  }

  lemma CameFirst(less: Order, key: Type, value: Type, n: nat, s: seq<byte>)
    requires n > 0 && DecodeEntry(less, key, value, s).Some?
    ensures var e := DecodeEntry(less, key, value, s).value;
            Came(less, key, value, n, s) ==
              match Came(less, key, value, n - 1, e.rest)
              case None => None
              case Some(later) => Some(Decoded([e.result] + later.result, later.rest))
  {
  }

  lemma EncodeFirst(e: Entry, entries: seq<Entry>)
    ensures EncodeEntries([e] + entries) == EncodeEntry(e) + EncodeEntries(entries)
  {
    assert ([e] + entries)[1..] == entries;
  }

  lemma {:induction false} CameRoundTrip(less: Order, key: Type, value: Type, entries: seq<Entry>, rest: seq<byte>)
    requires key.Supported() && value.Supported() && EntriesHaveType(less, key, value, entries)
    ensures Came(less, key, value, |entries|, EncodeEntries(entries) + rest) == Some(Decoded(entries, rest))
  {
    if entries == [] {
      assert EncodeEntries(entries) + rest == rest;
    } else {
      hide Came, DecodeEntry, EncodeEntries, EncodeEntry, HasType;
      var e, tail := entries[0], entries[1..];
      assert entries == [e] + tail;
      EncodeFirst(e, tail);
      AppendAssociates(EncodeEntry(e), EncodeEntries(tail), rest);
      EntryRoundTrip(less, key, value, e, EncodeEntries(tail) + rest);
      CameFirst(less, key, value, |entries|, EncodeEntries(entries) + rest);
      CameRoundTrip(less, key, value, tail, rest);
    }
  }

  // ---------- Encoding again ----------

  lemma {:induction false} NoMapBelow(t: Type)
    requires t.Supported() && !t.Map?
    ensures !HasMap(t)
  {
    if t.Vector? {
      NoMapBelow(t.item);
    }
  }

  /**
   Encoding again what was decoded is never longer than the bytes it was read from, and
   gives just those bytes exactly when the keys of every map in them came in strictly
   increasing order.
   */
  lemma {:induction false} Reencoding(less: Order, t: Type, s: seq<byte>) returns (used: seq<byte>)
    requires StrictOrder(less) && t.Supported()
    ensures var d := Decode(less, t, Default(t), s);
            d.Some? ==>
              && HasType(less, t, d.value.result) && Consumed(s, used, d.value.rest)
              && Shrinks(Encode(d.value.result), used, Canonical(less, t, s))
    decreases t, 2, 0
  {
    var d := Decode(less, t, Default(t), s);
    used := [];
    if d.Some? {
      if t.Map? {
        used := MapReencoding(less, t.key, t.value, s);
      } else {
        NoMapBelow(t);
        DecodeThenEncode(less, t, s);
        used := Encode(d.value.result);
      }
    }
  }

  lemma {:induction false} MapReencoding(less: Order, key: Type, value: Type, s: seq<byte>) returns (used: seq<byte>)
    requires StrictOrder(less) && Map(key, value).Supported()
    requires Decode(less, Map(key, value), Dict([]), s).Some?
    ensures var t := Map(key, value);
            var d := Decode(less, t, Default(t), s).value;
            && HasType(less, t, d.result) && Consumed(s, used, d.rest)
            && Shrinks(Encode(d.result), used, Canonical(less, t, s))
    decreases Map(key, value), 1, 0
  {
    SizeBack(s);
    var size := DecodeSize(s).value;
    var n := size.result;
    CameInserted(less, key, value, n, [], size.rest);
    var came := Came(less, key, value, n, size.rest).value;
    var later := EntriesReencoding(less, key, value, n, size.rest);
    var r := InsertAll(less, key, [], came.result);
    InsertAllShrinks(less, key, [], came.result);
    used := EncodeSize(n) + later;
    AppendAssociates(EncodeSize(n), later, came.rest);
    if Increasing(less, key, came.result) {
      InsertAllIncreasing(less, key, [], came.result);
      assert [] + came.result == came.result;
    }
    if Encode(Dict(r)) == used {
      SameMap(less, key, value, r, n, later, came.rest);
    }
  }

  /** If the map encodes to the bytes read, it holds the entries in the order they came. */
  lemma SameMap(less: Order, key: Type, value: Type, r: seq<Entry>, n: nat, later: seq<byte>, rest: seq<byte>)
    requires key.Supported() && value.Supported() && EntriesHaveType(less, key, value, r)
    requires n < Capacity(SIZE_WIDTH) && |r| < Capacity(SIZE_WIDTH)
    requires Encode(Dict(r)) == EncodeSize(n) + later
    ensures EncodeEntries(r) == later && |r| == n
    ensures Came(less, key, value, n, later + rest) == Some(Decoded(r, rest))
  {
    SplitAppend(EncodeSize(|r|), EncodeEntries(r));
    SplitAppend(EncodeSize(n), later);
    LittleEndianRoundTrip(|r|, SIZE_WIDTH);
    LittleEndianRoundTrip(n, SIZE_WIDTH);
    CameRoundTrip(less, key, value, r, rest);
  }

  lemma {:induction false} EntryReencoding(less: Order, key: Type, value: Type, s: seq<byte>)
    returns (used: seq<byte>)
    requires StrictOrder(less) && key.Supported() && value.Supported()
    requires DecodeEntry(less, key, value, s).Some?
    ensures var d := DecodeEntry(less, key, value, s).value;
            && HasType(less, key, d.result.key) && HasType(less, value, d.result.value)
            && Consumed(s, used, d.rest)
            && Shrinks(EncodeEntry(d.result), used, CanonicalEntry(less, key, value, s))
    decreases Map(key, value), 0, 0
  {
    var k := Decode(less, key, Default(key), s).value;
    var x := Decode(less, value, Default(value), k.rest).value;
    var a := Reencoding(less, key, s);
    var b := Reencoding(less, value, k.rest);
    used := a + b;
    AppendAssociates(a, b, x.rest);
    ShrinkingTwice(Encode(k.result), a, Canonical(less, key, s), Encode(x.result), b, Canonical(less, value, k.rest));
  }

  lemma {:induction false} EntriesReencoding(less: Order, key: Type, value: Type, n: nat, s: seq<byte>)
    returns (used: seq<byte>)
    requires StrictOrder(less) && key.Supported() && value.Supported()
    requires Came(less, key, value, n, s).Some?
    ensures var came := Came(less, key, value, n, s).value;
            && |came.result| == n && EntriesHaveType(less, key, value, came.result)
            && Consumed(s, used, came.rest)
            && Shrinks(EncodeEntries(came.result), used, CanonicalEntries(less, key, value, n, s))
    decreases Map(key, value), 0, n
  {
    hide Came, CanonicalEntries, CanonicalEntry, DecodeEntry, EncodeEntries, EncodeEntry, EntriesHaveType, HasType,
         Shrinks;
    used := [];
    if n == 0 {
      NoEntries(less, key, value, s);
    } else {
      FirstEntry(less, key, value, n, s);
      var e := DecodeEntry(less, key, value, s).value;
      var first := EntryReencoding(less, key, value, s);
      var later := EntriesReencoding(less, key, value, n - 1, e.rest);
      var rest := Came(less, key, value, n - 1, e.rest).value;
      used := first + later;
      AppendAssociates(first, later, rest.rest);
      ShrinkingTwice(EncodeEntry(e.result), first, CanonicalEntry(less, key, value, s),
                     EncodeEntries(rest.result), later, CanonicalEntries(less, key, value, n - 1, e.rest));
      EncodeFirst(e.result, rest.result);
      TypesOfFirst(less, key, value, e.result, rest.result);
    }
  }

  lemma NoEntries(less: Order, key: Type, value: Type, s: seq<byte>)
    ensures Came(less, key, value, 0, s) == Some(Decoded([], s)) && EntriesHaveType(less, key, value, [])
    ensures Consumed(s, [], s) && Shrinks(EncodeEntries([]), [], CanonicalEntries(less, key, value, 0, s))
  {
    assert [] + s == s;
  }

  lemma FirstEntry(less: Order, key: Type, value: Type, n: nat, s: seq<byte>)
    requires n > 0 && Came(less, key, value, n, s).Some?
    ensures DecodeEntry(less, key, value, s).Some?
    ensures var e := DecodeEntry(less, key, value, s).value;
            && Came(less, key, value, n - 1, e.rest).Some?
            && var rest := Came(less, key, value, n - 1, e.rest).value;
               && Came(less, key, value, n, s).value == Decoded([e.result] + rest.result, rest.rest)
               && (CanonicalEntries(less, key, value, n, s) <==>
                     CanonicalEntry(less, key, value, s) && CanonicalEntries(less, key, value, n - 1, e.rest))
  {
  }

  lemma TypesOfFirst(less: Order, key: Type, value: Type, e: Entry, entries: seq<Entry>)
    requires HasType(less, key, e.key) && HasType(less, value, e.value) && EntriesHaveType(less, key, value, entries)
    ensures EntriesHaveType(less, key, value, [e] + entries)
  {
  }
}
