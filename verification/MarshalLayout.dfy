/**
 The bytes themselves: where each part of an encoding lies and what it says, place by place
 (libhdk/marshall/marshal.hpp). Round trips alone would also hold of other layouts.
 */
module MarshalLayout {
  import opened Bytes
  import opened Marshal
  import opened MarshalStream

  // ---------- Sizes ----------

  /** The i-th digit to the base 256, counted from the lowest. */
  function Digit(n: nat, i: nat): nat {
    if i == 0 then n % 256 else Digit(n / 256, i - 1)
  }

  /** The lowest digit comes first. */
  lemma {:induction false} LittleEndianDigits(n: nat, width: nat, i: nat)
    requires i < width
    ensures LittleEndian(n, width)[i] as nat == Digit(n, i)
  {
    if i > 0 {
      LittleEndianDigits(n / 256, width - 1, i - 1);
    }
  }

  // ---------- Sequences of parts ----------

  /** The bytes lie in the string at the offset. */
  ghost predicate LiesAt(s: bytes, offset: nat, part: bytes) {
    offset + |part| <= |s| && s[offset..offset + |part|] == part
  }

  function ItemOffset(items: seq<Value>, i: nat): nat
    requires i <= |items|
  {
    if i == 0 then 0 else ItemOffset(items, i - 1) + |Encode(items[i - 1])|
  }

  function EntryOffset(entries: seq<Entry>, i: nat): nat
    requires i <= |entries|
  {
    if i == 0 then 0 else EntryOffset(entries, i - 1) + |Encode(entries[i - 1].key)| + |Encode(entries[i - 1].value)|
  }

  lemma LiesBehind(front: bytes, s: bytes, offset: nat, part: bytes)
    requires LiesAt(s, offset, part)
    ensures LiesAt(front + s, |front| + offset, part)
  {
    assert (front + s)[|front| + offset..|front| + offset + |part|] == s[offset..offset + |part|];
  }

  lemma {:induction false} ItemOffsetTail(items: seq<Value>, i: nat)
    requires 0 < i <= |items|
    ensures ItemOffset(items, i) == |Encode(items[0])| + ItemOffset(items[1..], i - 1)
  {
    hide Encode;
    if i > 1 {
      ItemOffsetTail(items, i - 1);
    }
  }

  lemma {:induction false} EntryOffsetTail(entries: seq<Entry>, i: nat)
    requires 0 < i <= |entries|
    ensures EntryOffset(entries, i)
         == |Encode(entries[0].key)| + |Encode(entries[0].value)| + EntryOffset(entries[1..], i - 1)
  {
    hide Encode;
    if i > 1 {
      EntryOffsetTail(entries, i - 1);
    }
  }

  lemma {:induction false} ItemLies(items: seq<Value>, i: nat)
    requires i < |items|
    ensures LiesAt(EncodeItems(items), ItemOffset(items, i), Encode(items[i]))
  {
    hide Encode;
    if i > 0 {
      ItemLies(items[1..], i - 1);
      ItemOffsetTail(items, i);
      LiesBehind(Encode(items[0]), EncodeItems(items[1..]), ItemOffset(items[1..], i - 1), Encode(items[i]));
    }
  }

  lemma {:induction false} ItemsLength(items: seq<Value>)
    ensures |EncodeItems(items)| == ItemOffset(items, |items|)
  {
    hide Encode;
    if items != [] {
      ItemsLength(items[1..]);
      ItemOffsetTail(items, |items|);
    }
  }

  lemma {:induction false} EntryLies(entries: seq<Entry>, i: nat)
    requires i < |entries|
    ensures LiesAt(EncodeEntries(entries), EntryOffset(entries, i),
                   Encode(entries[i].key) + Encode(entries[i].value))
  {
    hide Encode;
    if i > 0 {
      EntryLies(entries[1..], i - 1);
      EntryOffsetTail(entries, i);
      LiesBehind(EncodeEntry(entries[0]), EncodeEntries(entries[1..]), EntryOffset(entries[1..], i - 1),
                 Encode(entries[i].key) + Encode(entries[i].value));
    }
  }

  lemma {:induction false} EntriesLength(entries: seq<Entry>)
    ensures |EncodeEntries(entries)| == EntryOffset(entries, |entries|)
  {
    hide Encode;
    if entries != [] {
      EntriesLength(entries[1..]);
      EntryOffsetTail(entries, |entries|);
    }
  }

  // ---------- Values ----------

  /** Eight bytes, the lowest first, say how many elements follow. */
  ghost predicate Counts(s: bytes, count: nat) {
    |s| >= 8 && forall i :: 0 <= i < 8 ==> s[i] as nat == Digit(count, i)
  }

  lemma CountsSize(count: nat, rest: bytes)
    ensures Counts(EncodeSize(count) + rest, count)
  {
    forall i | 0 <= i < 8 ensures (EncodeSize(count) + rest)[i] as nat == Digit(count, i) {
      LittleEndianDigits(count, 8, i);
    }
  }

  /** What stands in the bytes, with element i if there is one. */
  ghost predicate Shows(s: bytes, v: Value, i: nat) {
    match v
    case Raw(bytes) => s == bytes
    case Str(chars) => Counts(s, |chars|) && s[8..] == chars
    case Vec(items) =>
      && Counts(s, |items|) && |s| == 8 + ItemOffset(items, |items|)
      && (i < |items| ==> LiesAt(s, 8 + ItemOffset(items, i), Encode(items[i])))
    case Dict(entries) =>
      && Counts(s, |entries|) && |s| == 8 + EntryOffset(entries, |entries|)
      && (i < |entries| ==>
            LiesAt(s, 8 + EntryOffset(entries, i), Encode(entries[i].key) + Encode(entries[i].value)))
  }

  /**
   An object of fixed width is its bytes. A string, vector or map begins with its size in
   eight bytes; then come the characters, the items one after another, or the entries, each
   key directly followed by its value; and nothing behind the last.
   */
  lemma LaidOut(v: Value, i: nat)
    ensures Shows(Encode(v), v, i)
  {
    hide EncodeSize, EncodeItems, EncodeEntries, LittleEndian, Counts, ItemOffset, EntryOffset;
    match v
    case Raw(_) =>
    case Str(chars) =>
      CountsSize(|chars|, chars);
      SizeLength(|chars|);
    case Vec(items) =>
      CountsSize(|items|, EncodeItems(items));
      SizeLength(|items|);
      ItemsLength(items);
      if i < |items| {
        ItemLies(items, i);
        LiesBehind(EncodeSize(|items|), EncodeItems(items), ItemOffset(items, i), Encode(items[i]));
      }
    case Dict(entries) =>
      CountsSize(|entries|, EncodeEntries(entries));
      SizeLength(|entries|);
      EntriesLength(entries);
      if i < |entries| {
        EntryLies(entries, i);
        LiesBehind(EncodeSize(|entries|), EncodeEntries(entries), EntryOffset(entries, i),
                   Encode(entries[i].key) + Encode(entries[i].value));
      }
  }

  lemma SizeLength(n: nat)
    ensures |EncodeSize(n)| == 8
  {
  }

  /** A struct is its fields one after another in the order they are visited, with nothing between them. */
  lemma {:induction false} FieldsLaidOut(fields: seq<Value>, order: seq<nat>)
    requires forall i :: 0 <= i < |order| ==> order[i] < |fields|
    ensures EncodeFields(fields, order)
         == EncodeItems(seq(|order|, i requires 0 <= i < |order| => fields[order[i]]))
  {
    hide Encode;
    if order != [] {
      FieldsLaidOut(fields, order[1..]);
      var visited := seq(|order|, i requires 0 <= i < |order| => fields[order[i]]);
      var rest := order[1..];
      assert visited[1..] == seq(|rest|, i requires 0 <= i < |rest| => fields[rest[i]]);
    }
  }
}
