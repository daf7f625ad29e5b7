/**
 libhdk/marshall/marshal.hpp: the type-directed, self-delimiting encoding.

 A value is modelled with the shape its C++ type gives it: a fixed-width object is its
 bytes, a std::map is its entries in iteration order. The overloads and their loops are
 methods of `MarshalStream`; this module holds the functions they compute and what is
 true of them.
 */
module Marshal {
  import opened Bytes

  /**
   The argument types for which the overloads are selected. The tag tells fixed-width
   types of equal size apart, because they may be ordered differently as map keys.
   */
  datatype Type =
    | Fixed(tag: nat, width: nat)
    | Text
    | Vector(item: Type)
    | Map(key: Type, value: Type)
  {
    /** The map overloads are declared after the vector ones, so no vector holds maps. */
    predicate Supported() {
      match this
      case Fixed(_, _) => true
      case Text => true
      case Vector(item) => !item.Map? && item.Supported()
      case Map(key, value) => key.Supported() && value.Supported()
    }
  }

  datatype Value =
    | Raw(bytes: seq<byte>)
    | Str(chars: seq<byte>)
    | Vec(items: seq<Value>)
    | Dict(entries: seq<Entry>)

  datatype Entry = Entry(key: Value, value: Value)

  /** The comparison std::map applies to keys of a type. */
  type Order = (Type, Value, Value) -> bool

  /** What std::map demands of its comparison. */
  ghost predicate StrictOrder(less: Order) {
    && (forall t, a :: !less(t, a, a))
    && (forall t, a, b, c :: less(t, a, b) && less(t, b, c) ==> less(t, a, c))
  }

  ghost predicate Increasing(less: Order, key: Type, entries: seq<Entry>) {
    forall i, j :: 0 <= i < j < |entries| ==> less(key, entries[i].key, entries[j].key)
  }

  /** The values a C++ object of the type can hold. */
  ghost predicate HasType(less: Order, t: Type, v: Value)
    decreases t
  {
    match t
    case Fixed(_, width) => v.Raw? && |v.bytes| == width
    case Text => v.Str? && |v.chars| < Capacity(SIZE_WIDTH)
    case Vector(item) =>
      v.Vec? && |v.items| < Capacity(SIZE_WIDTH) && forall x :: x in v.items ==> HasType(less, item, x)
    case Map(key, value) =>
      && v.Dict? && |v.entries| < Capacity(SIZE_WIDTH)
      && Increasing(less, key, v.entries)
      && forall e :: e in v.entries ==> HasType(less, key, e.key) && HasType(less, value, e.value)
  }

  /** The variant a C++ object of the type is in, whatever it holds. */
  predicate Fits(t: Type, v: Value) {
    match t
    case Fixed(_, _) => v.Raw?
    case Text => v.Str?
    case Vector(_) => v.Vec?
    case Map(_, _) => v.Dict?
  }

  /** A freshly declared local of the type. */
  function Default(t: Type): Value {
    match t
    case Fixed(_, width) => Raw(seq(width, _ => 0))
    case Text => Str([])
    case Vector(_) => Vec([])
    case Map(_, _) => Dict([])
  }

  // ---------- Encoding ----------

  function EncodeSize(n: nat): seq<byte> {
    LittleEndian(n, SIZE_WIDTH)
  }

  function Encode(v: Value): seq<byte>
    decreases v, 1
  {
    match v
    case Raw(bytes) => bytes
    case Str(chars) => EncodeSize(|chars|) + chars
    case Vec(items) => EncodeSize(|items|) + EncodeItems(items)
    case Dict(entries) => EncodeSize(|entries|) + EncodeEntries(entries)
  }

  function EncodeItems(items: seq<Value>): seq<byte>
    decreases items, 0
  {
    if items == [] then [] else Encode(items[0]) + EncodeItems(items[1..])
  }

  function EncodeEntries(entries: seq<Entry>): seq<byte>
    decreases entries, 0
  {
    if entries == [] then [] else EncodeEntry(entries[0]) + EncodeEntries(entries[1..])
  }

  function EncodeEntry(e: Entry): seq<byte>
    decreases e, 0
  {
    Encode(e.key) + Encode(e.value)
  }

  // ---------- Decoding ----------

  datatype Decoded<T> = Decoded(result: T, rest: seq<byte>)

  function Take(n: nat, s: seq<byte>): Option<Decoded<seq<byte>>> {
    if n <= |s| then Some(Decoded(s[..n], s[n..])) else None
  }

  function DecodeSize(s: seq<byte>): Option<Decoded<nat>> {
    match Take(SIZE_WIDTH, s)
    case None => None
    case Some(d) => Some(Decoded(FromLittleEndian(d.result), d.rest))
  }

  /** std::map::insert: an entry whose key is already present is not replaced. */
  function Insert(less: Order, key: Type, entries: seq<Entry>, e: Entry): seq<Entry> {
    if entries == [] then [e]
    else if less(key, entries[0].key, e.key) then [entries[0]] + Insert(less, key, entries[1..], e)
    else if less(key, e.key, entries[0].key) then [e] + entries
    else entries
  }

  /** Reads a value of the type into a destination; None when the stream runs out. */
  function Decode(less: Order, t: Type, into: Value, s: seq<byte>): (r: Option<Decoded<Value>>)
    requires Fits(t, into)
    ensures r.Some? ==> Fits(t, r.value.result)
    decreases t, 0
  {
    match t
    case Fixed(_, width) =>
      (match Take(width, s)
       case None => None
       case Some(d) => Some(Decoded(Raw(d.result), d.rest)))
    case Text =>
      (match DecodeSize(s)
       case None => None
       case Some(size) =>
         match Take(size.result, size.rest)
         case None => None
         case Some(d) => Some(Decoded(Str(d.result), d.rest)))
    case Vector(item) =>
      (match DecodeSize(s)
       case None => None
       case Some(size) =>
         match DecodeItems(less, item, size.result, into.items, size.rest)
         case None => None
         case Some(d) => Some(Decoded(Vec(d.result), d.rest)))
    case Map(key, value) =>
      (match DecodeSize(s)
       case None => None
       case Some(size) =>
         match DecodeEntries(less, key, value, size.result, into.entries, size.rest)
         case None => None
         case Some(d) => Some(Decoded(Dict(d.result), d.rest)))
  }

  function DecodeItems(less: Order, item: Type, n: nat, into: seq<Value>, s: seq<byte>): Option<Decoded<seq<Value>>>
    decreases item, n + 1
  {
    if n == 0 then Some(Decoded(into, s))
    else match Decode(less, item, Default(item), s)
         case None => None
         case Some(d) => DecodeItems(less, item, n - 1, into + [d.result], d.rest)
  }

  function DecodeEntries(less: Order, key: Type, value: Type, n: nat, into: seq<Entry>, s: seq<byte>)
    : Option<Decoded<seq<Entry>>>
    decreases Map(key, value), 0, n
  {
    if n == 0 then Some(Decoded(into, s))
    else match DecodeEntry(less, key, value, s)
         case None => None
         case Some(d) => DecodeEntries(less, key, value, n - 1, Insert(less, key, into, d.result), d.rest)
  }

  function DecodeEntry(less: Order, key: Type, value: Type, s: seq<byte>): Option<Decoded<Entry>>
    decreases Map(key, value), 0, 0
  {
    match Decode(less, key, Default(key), s)
    case None => None
    case Some(k) =>
      match Decode(less, value, Default(value), k.rest)
      case None => None
      case Some(v) => Some(Decoded(Entry(k.result, v.result), v.rest))
  }

  // ---------- What reading into a destination leaves there ----------

  function InsertAll(less: Order, key: Type, into: seq<Entry>, entries: seq<Entry>): seq<Entry>
    decreases entries
  {
    if entries == [] then into
    else InsertAll(less, key, Insert(less, key, into, entries[0]), entries[1..])
  }

  /** Fixed-width values and strings are replaced, vectors appended to, maps filled in. */
  function Merge(less: Order, t: Type, into: Value, v: Value): Value
    requires Fits(t, into) && Fits(t, v)
  {
    match t
    case Fixed(_, _) => v
    case Text => v
    case Vector(_) => Vec(into.items + v.items)
    case Map(key, _) => Dict(InsertAll(less, key, into.entries, v.entries))
  }

  lemma SizeRoundTrip(n: nat, rest: seq<byte>)
    requires n < Capacity(SIZE_WIDTH)
    ensures DecodeSize(EncodeSize(n) + rest) == Some(Decoded(n, rest))
  {
    LittleEndianRoundTrip(n, SIZE_WIDTH);
    SplitAppend(EncodeSize(n), rest);
  }

  /** Appending a key greater than all keys present is what insertion does. */
  lemma {:induction false} InsertGreatest(less: Order, key: Type, entries: seq<Entry>, e: Entry)
    requires forall i :: 0 <= i < |entries| ==> less(key, entries[i].key, e.key)
    ensures Insert(less, key, entries, e) == entries + [e]
  {
    if entries != [] {
      InsertGreatest(less, key, entries[1..], e);
      assert entries == [entries[0]] + entries[1..];
    }
  }

  lemma {:induction false} InsertAllIncreasing(less: Order, key: Type, into: seq<Entry>, entries: seq<Entry>)
    requires Increasing(less, key, into + entries)
    ensures InsertAll(less, key, into, entries) == into + entries
    decreases entries
  {
    if entries == [] {
      assert into + entries == into;
    } else {
      var all, n := into + entries, |into|;
      forall i | 0 <= i < n ensures less(key, into[i].key, entries[0].key) {
        assert all[i] == into[i] && all[n] == entries[0];
      }
      InsertGreatest(less, key, into, entries[0]);
      assert (into + [entries[0]]) + entries[1..] == all;
      InsertAllIncreasing(less, key, into + [entries[0]], entries[1..]);
    }
  }

  /** Reading into a default-constructed object yields the value itself. */
  lemma MergeIntoDefault(less: Order, t: Type, v: Value)
    requires HasType(less, t, v)
    ensures Fits(t, v) && Merge(less, t, Default(t), v) == v
  {
    match t
    case Fixed(_, _) =>
    case Text =>
    case Vector(_) => assert [] + v.items == v.items;
    case Map(key, _) =>
      assert [] + v.entries == v.entries;
      InsertAllIncreasing(less, key, [], v.entries);
  }

  /**
   Decoding an encoding followed by anything leaves exactly what follows, and leaves in
   the destination what the destination's type makes of the value.
   */
  lemma {:induction false} RoundTrip(less: Order, t: Type, into: Value, v: Value, rest: seq<byte>)
    requires t.Supported() && HasType(less, t, v) && Fits(t, into)
    ensures Fits(t, v)
    ensures Decode(less, t, into, Encode(v) + rest) == Some(Decoded(Merge(less, t, into, v), rest))
    decreases t, 0
  {
    match t
    case Fixed(_, _) =>
      SplitAppend(v.bytes, rest);
    case Text =>
      AppendAssociates(EncodeSize(|v.chars|), v.chars, rest);
      SizeRoundTrip(|v.chars|, v.chars + rest);
      SplitAppend(v.chars, rest);
    case Vector(item) =>
      AppendAssociates(EncodeSize(|v.items|), EncodeItems(v.items), rest);
      SizeRoundTrip(|v.items|, EncodeItems(v.items) + rest);
      ItemsRoundTrip(less, item, into.items, v.items, rest);
    case Map(key, value) =>
      AppendAssociates(EncodeSize(|v.entries|), EncodeEntries(v.entries), rest);
      SizeRoundTrip(|v.entries|, EncodeEntries(v.entries) + rest);
      EntriesRoundTrip(less, key, value, into.entries, v.entries, rest);
  }

  lemma {:induction false} ItemsRoundTrip(less: Order, item: Type, into: seq<Value>, items: seq<Value>, rest: seq<byte>)
    requires item.Supported() && forall x :: x in items ==> HasType(less, item, x)
    ensures DecodeItems(less, item, |items|, into, EncodeItems(items) + rest) == Some(Decoded(into + items, rest))
    decreases item, |items| + 1
  {
    if items == [] {
      assert into + items == into && EncodeItems(items) + rest == rest;
    } else {
      var later := EncodeItems(items[1..]) + rest;
      AppendAssociates(Encode(items[0]), EncodeItems(items[1..]), rest);
      RoundTrip(less, item, Default(item), items[0], later);
      MergeIntoDefault(less, item, items[0]);
      ItemsRoundTrip(less, item, into + [items[0]], items[1..], rest);
      assert (into + [items[0]]) + items[1..] == into + items;
    }
  }

  lemma {:induction false} EntriesRoundTrip(
    less: Order, key: Type, value: Type, into: seq<Entry>, entries: seq<Entry>, rest: seq<byte>)
    requires key.Supported() && value.Supported()
    requires forall e :: e in entries ==> HasType(less, key, e.key) && HasType(less, value, e.value)
    ensures DecodeEntries(less, key, value, |entries|, into, EncodeEntries(entries) + rest)
         == Some(Decoded(InsertAll(less, key, into, entries), rest))
    decreases Map(key, value), 0, |entries|
  {
    if entries == [] {
      assert EncodeEntries(entries) + rest == rest;
    } else {
      AppendAssociates(EncodeEntry(entries[0]), EncodeEntries(entries[1..]), rest);
      EntryRoundTrip(less, key, value, entries[0], EncodeEntries(entries[1..]) + rest);
      EntriesRoundTrip(less, key, value, Insert(less, key, into, entries[0]), entries[1..], rest);
    }
  }

  lemma {:induction false} EntryRoundTrip(less: Order, key: Type, value: Type, e: Entry, rest: seq<byte>)
    requires key.Supported() && value.Supported()
    requires HasType(less, key, e.key) && HasType(less, value, e.value)
    ensures DecodeEntry(less, key, value, EncodeEntry(e) + rest) == Some(Decoded(e, rest))
    decreases Map(key, value), 0, 0
  {
    AppendAssociates(Encode(e.key), Encode(e.value), rest);
    RoundTrip(less, key, Default(key), e.key, Encode(e.value) + rest);
    MergeIntoDefault(less, key, e.key);
    RoundTrip(less, value, Default(value), e.value, rest);
    MergeIntoDefault(less, value, e.value);
  }

  /** Encodings of one type are injective, and none is a proper prefix of another. */
  lemma PrefixFree(less: Order, t: Type, a: Value, b: Value, x: seq<byte>, y: seq<byte>)
    requires t.Supported() && HasType(less, t, a) && HasType(less, t, b)
    requires Encode(a) + x == Encode(b) + y
    ensures a == b && x == y
  {
    RoundTrip(less, t, Default(t), a, x);
    RoundTrip(less, t, Default(t), b, y);
    MergeIntoDefault(less, t, a);
    MergeIntoDefault(less, t, b);
  }

  // ---------- Map destinations ----------

  /** Two keys std::map cannot tell apart. */
  predicate SameKey(less: Order, t: Type, a: Value, b: Value) {
    !less(t, a, b) && !less(t, b, a)
  }

  ghost predicate HasKey(less: Order, t: Type, entries: seq<Entry>, key: Value) {
    exists e :: e in entries && SameKey(less, t, e.key, key)
  }

  lemma {:induction false} InsertContents(less: Order, t: Type, entries: seq<Entry>, e: Entry)
    requires StrictOrder(less) && Increasing(less, t, entries)
    ensures var r := Insert(less, t, entries, e);
            && (forall x :: x in r <==> x in entries || (x == e && !HasKey(less, t, entries, e.key)))
            && Increasing(less, t, r)
  {
    if entries == [] {
    } else if less(t, entries[0].key, e.key) {
      var tail := entries[1..];
      var r := Insert(less, t, tail, e);
      InsertContents(less, t, tail, e);
      assert entries == [entries[0]] + tail;
      assert HasKey(less, t, entries, e.key) <==> HasKey(less, t, tail, e.key);
      forall x | x in r ensures less(t, entries[0].key, x.key) {
        if x in tail {
          var i :| 0 <= i < |tail| && tail[i] == x;
          assert entries[i + 1] == x;
        }
      }
    } else if less(t, e.key, entries[0].key) {
      forall i | 0 <= i < |entries| ensures less(t, e.key, entries[i].key) {
        if i > 0 {
          assert less(t, entries[0].key, entries[i].key);
        }
      }
    } else {
      assert SameKey(less, t, entries[0].key, e.key) && entries[0] in entries;
    }
  }

  /**
   A map that already holds entries keeps every one of them with its old value; of the
   entries read, it gains exactly those whose key it lacked.
   */
  lemma {:induction false} MapDestination(less: Order, t: Type, into: seq<Entry>, entries: seq<Entry>)
    requires StrictOrder(less) && Increasing(less, t, into) && Increasing(less, t, entries)
    ensures var r := InsertAll(less, t, into, entries);
            && Increasing(less, t, r)
            && forall x :: x in r <==> x in into || (x in entries && !HasKey(less, t, into, x.key))
    decreases entries
  {
    if entries != [] {
      var e, tail := entries[0], entries[1..];
      var into' := Insert(less, t, into, e);
      InsertContents(less, t, into, e);
      MapDestination(less, t, into', tail);
      assert entries == [e] + tail;
      forall x | x in tail ensures HasKey(less, t, into', x.key) <==> HasKey(less, t, into, x.key) {
        var i :| 0 <= i < |tail| && tail[i] == x;
        assert less(t, entries[0].key, entries[i + 1].key);
        assert !SameKey(less, t, e.key, x.key);
      }
    }
  }

  /** A map holds its old entries, and of those read the ones whose key it lacked, in the order of the keys. */
  ghost predicate FilledIn(less: Order, t: Type, into: seq<Entry>, entries: seq<Entry>, r: seq<Entry>) {
    && Increasing(less, t, r)
    && forall x :: x in r <==> x in into || (x in entries && !HasKey(less, t, into, x.key))
  }

  /**
   What reading leaves in a destination that already holds something: a fixed-width object
   or a string is replaced, a vector keeps its items and gets the new ones behind them, a
   map keeps its entries and is filled in.
   */
  lemma ReadInto(less: Order, t: Type, into: Value, v: Value, rest: seq<byte>)
    requires t.Supported() && HasType(less, t, v) && HasType(less, t, into)
    requires t.Map? ==> StrictOrder(less)
    ensures Fits(t, into)
    ensures var d := Decode(less, t, into, Encode(v) + rest);
            && d.Some? && d.value.rest == rest
            && (t.Fixed? || t.Text? ==> d.value.result == v)
            && (t.Vector? ==> d.value.result == Vec(into.items + v.items))
            && (t.Map? ==> d.value.result.Dict?
                           && FilledIn(less, t.key, into.entries, v.entries, d.value.result.entries))
  {
    hide Decode, Encode, InsertAll, StrictOrder;
    RoundTrip(less, t, into, v, rest);
    if t.Map? {
      MapDestination(less, t.key, into.entries, v.entries);
    }
  }

  // ---------- The other direction ----------

  predicate HasMap(t: Type) {
    match t
    case Fixed(_, _) => false
    case Text => false
    case Vector(item) => HasMap(item)
    case Map(_, _) => true
  }

  /**
   Without maps the encoding is canonical: whatever bytes decode, they are the encoding of
   the value obtained.
   */
  lemma {:induction false} DecodeThenEncode(less: Order, t: Type, s: seq<byte>)
    requires !HasMap(t)
    ensures var d := Decode(less, t, Default(t), s);
            d.Some? ==> HasType(less, t, d.value.result) && s == Encode(d.value.result) + d.value.rest
    decreases t, 0
  {
    match t
    case Fixed(_, width) =>
    case Text =>
      SizeBack(s);
    case Vector(item) =>
      SizeBack(s);
      if DecodeSize(s).Some? {
        var size := DecodeSize(s).value;
        ItemsThenEncode(less, item, size.result, [], size.rest);
        var d := DecodeItems(less, item, size.result, [], size.rest);
        if d.Some? {
          AppendAssociates(EncodeSize(size.result), EncodeItems(d.value.result), d.value.rest);
        }
      }
  }

  lemma SizeBack(s: seq<byte>)
    ensures var d := DecodeSize(s);
            d.Some? ==> d.value.result < Capacity(SIZE_WIDTH) && s == EncodeSize(d.value.result) + d.value.rest
  {
    if SIZE_WIDTH <= |s| {
      FromLittleEndianRoundTrip(s[..SIZE_WIDTH]);
    }
  }

  lemma {:induction false} ItemsThenEncode(less: Order, item: Type, n: nat, into: seq<Value>, s: seq<byte>)
    requires !HasMap(item)
    ensures var d := DecodeItems(less, item, n, into, s);
            d.Some? ==>
              && |d.value.result| == |into| + n && d.value.result[..|into|] == into
              && (forall x :: x in d.value.result[|into|..] ==> HasType(less, item, x))
              && s == EncodeItems(d.value.result[|into|..]) + d.value.rest
    decreases item, n + 1
  {
    if n > 0 && Decode(less, item, Default(item), s).Some? {
      var head := Decode(less, item, Default(item), s).value;
      DecodeThenEncode(less, item, s);
      ItemsThenEncode(less, item, n - 1, into + [head.result], head.rest);
      var d := DecodeItems(less, item, n, into, s);
      if d.Some? {
        var all := d.value.result;
        assert all[..|into|] == all[..|into| + 1][..|into|] == into;
        assert all[|into|] == all[..|into| + 1][|into|] == head.result;
        assert all[|into|..] == [head.result] + all[|into| + 1..];
        AppendAssociates(Encode(head.result), EncodeItems(all[|into| + 1..]), d.value.rest);
      }
    }
  }
}
