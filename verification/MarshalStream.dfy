/**
 The `_marshal` and `_demarshal` overloads of libhdk/marshall/marshal.hpp as they run: they
 write to and read from a byte stream in place. Each is proved against the functions of
 `Marshal`. The variadic forms visit the fields of a struct in an order the language leaves
 open, so the order is a parameter.
 */
module MarshalStream {
  import opened Bytes
  import opened Marshal

  /** A stream over a fresh buffer: bytes are written at the back and read at the front. */
  class Stream {
    var buffer: seq<byte>

    constructor ()
      ensures buffer == []
    {
      buffer := [];
    }

    method Write(data: seq<byte>)
      modifies this
      ensures buffer == old(buffer) + data
    {
      buffer := buffer + data;
    }

    /** A short read fails and leaves the stream exhausted. */
    method Read(n: nat) returns (data: Option<seq<byte>>)
      modifies this
      ensures match Take(n, old(buffer))
              case Some(d) => data == Some(d.result) && buffer == d.rest
              case None => data == None && buffer == []
    {
      if n <= |buffer| {
        data := Some(buffer[..n]);
        buffer := buffer[n..];
      } else {
        data := None;
        buffer := [];
      }
    }
  }

  // ---------- Writing ----------

  method MarshalSize(output: Stream, n: nat)
    modifies output
    ensures output.buffer == old(output.buffer) + EncodeSize(n)
  {
    output.Write(LittleEndian(n, SIZE_WIDTH));
  }

  method MarshalValue(output: Stream, v: Value)
    modifies output
    ensures output.buffer == old(output.buffer) + Encode(v)
    decreases v
  {
    ghost var before := output.buffer;
    match v
    case Raw(bytes) =>
      output.Write(bytes);
    case Str(chars) =>
      MarshalSize(output, |chars|);
      output.Write(chars);
      AppendAssociates(before, EncodeSize(|chars|), chars);
    case Vec(items) =>
      MarshalSize(output, |items|);
      ghost var start := output.buffer;
      for i := 0 to |items|
        invariant output.buffer == start + EncodeItems(items[..i])
      {
        MarshalValue(output, items[i]);
        EncodeItemsSnoc(items[..i], items[i]);
        assert items[..i] + [items[i]] == items[..i + 1];
        AppendAssociates(start, EncodeItems(items[..i]), Encode(items[i]));
      }
      assert items[..|items|] == items;
      AppendAssociates(before, EncodeSize(|items|), EncodeItems(items));
    case Dict(entries) =>
      MarshalSize(output, |entries|);
      ghost var start := output.buffer;
      for i := 0 to |entries|
        invariant output.buffer == start + EncodeEntries(entries[..i])
      {
        var e := entries[i];
        MarshalValue(output, e.key);
        MarshalValue(output, e.value);
        EncodeEntriesSnoc(entries[..i], e);
        assert entries[..i] + [e] == entries[..i + 1];
        AppendAssociates(start + EncodeEntries(entries[..i]), Encode(e.key), Encode(e.value));
        AppendAssociates(start, EncodeEntries(entries[..i]), EncodeEntry(e));
      }
      assert entries[..|entries|] == entries;
      AppendAssociates(before, EncodeSize(|entries|), EncodeEntries(entries));
  }

  lemma {:induction false} EncodeItemsSnoc(items: seq<Value>, v: Value)
    ensures EncodeItems(items + [v]) == EncodeItems(items) + Encode(v)
  {
    if items != [] {
      assert (items + [v])[1..] == items[1..] + [v];
      EncodeItemsSnoc(items[1..], v);
    }
  }

  lemma {:induction false} EncodeEntriesSnoc(entries: seq<Entry>, e: Entry)
    ensures EncodeEntries(entries + [e]) == EncodeEntries(entries) + EncodeEntry(e)
  {
    if entries != [] {
      assert (entries + [e])[1..] == entries[1..] + [e];
      EncodeEntriesSnoc(entries[1..], e);
    }
  }

  // ---------- Reading ----------

  method DemarshalSize(input: Stream) returns (n: Option<nat>)
    modifies input
    ensures match DecodeSize(old(input.buffer))
            case Some(d) => n == Some(d.result) && input.buffer == d.rest
            case None => n == None
  {
    var data := input.Read(SIZE_WIDTH);
    match data
    case None => n := None;
    case Some(bytes) => n := Some(FromLittleEndian(bytes));
  }

  method DemarshalValue(less: Order, input: Stream, t: Type, into: Value) returns (v: Option<Value>)
    requires Fits(t, into)
    modifies input
    ensures match Decode(less, t, into, old(input.buffer))
            case Some(d) => v == Some(d.result) && input.buffer == d.rest
            case None => v == None
    decreases t, 1
  {
    match t
    case Fixed(_, width) =>
      var data := input.Read(width);
      v := match data case None => None case Some(bytes) => Some(Raw(bytes));
    case Text =>
      var size := DemarshalSize(input);
      if size.None? {
        return None;
      }
      var data := input.Read(size.value);
      v := match data case None => None case Some(chars) => Some(Str(chars));
    case Vector(item) =>
      var size := DemarshalSize(input);
      if size.None? {
        return None;
      }
      v := DemarshalVector(less, input, item, size.value, into.items);
    case Map(key, value) =>
      var size := DemarshalSize(input);
      if size.None? {
        return None;
      }
      v := DemarshalMap(less, input, key, value, size.value, into.entries);
  }

  method DemarshalVector(less: Order, input: Stream, item: Type, size: nat, into: seq<Value>) returns (v: Option<Value>)
    modifies input
    ensures match DecodeItems(less, item, size, into, old(input.buffer))
            case Some(d) => v == Some(Vec(d.result)) && input.buffer == d.rest
            case None => v == None
    decreases item, 2
  {
    var items := into;
    for i := 0 to size
      invariant DecodeItems(less, item, size, into, old(input.buffer))
             == DecodeItems(less, item, size - i, items, input.buffer)
    {
      var value := DemarshalValue(less, input, item, Default(item));
      if value.None? {
        return None;
      }
      items := items + [value.value];
    }
    v := Some(Vec(items));
  }

  method DemarshalMap(less: Order, input: Stream, key: Type, value: Type, size: nat, into: seq<Entry>)
    returns (v: Option<Value>)
    modifies input
    ensures match DecodeEntries(less, key, value, size, into, old(input.buffer))
            case Some(d) => v == Some(Dict(d.result)) && input.buffer == d.rest
            case None => v == None
    decreases Map(key, value), 0
  {
    var entries := into;
    for i := 0 to size
      invariant DecodeEntries(less, key, value, size, into, old(input.buffer))
             == DecodeEntries(less, key, value, size - i, entries, input.buffer)
    {
      var k := DemarshalValue(less, input, key, Default(key));
      if k.None? {
        return None;
      }
      var x := DemarshalValue(less, input, value, Default(value));
      if x.None? {
        return None;
      }
      entries := Insert(less, key, entries, Entry(k.value, x.value));
    }
    v := Some(Dict(entries));
  }

  // ---------- Whole structs ----------

  /** Every field is an argument exactly once, in whatever order arguments are evaluated. */
  ghost predicate EvaluationOrder(order: seq<nat>, fields: nat) {
    && (forall i :: 0 <= i < |order| ==> order[i] < fields)
    && (forall i, j :: 0 <= i < j < |order| ==> order[i] != order[j])
    && (forall k :: 0 <= k < fields ==> k in order)
  }

  function EncodeFields(fields: seq<Value>, order: seq<nat>): seq<byte>
    requires forall i :: 0 <= i < |order| ==> order[i] < |fields|
  {
    if order == [] then [] else Encode(fields[order[0]]) + EncodeFields(fields, order[1..])
  }

  predicate FieldsFit(types: seq<Type>, fields: seq<Value>) {
    |types| == |fields| && forall k :: 0 <= k < |fields| ==> Fits(types[k], fields[k])
  }

  function DecodeFields(less: Order, types: seq<Type>, into: seq<Value>, order: seq<nat>, s: seq<byte>)
    : Option<Decoded<seq<Value>>>
    requires FieldsFit(types, into)
    requires forall i :: 0 <= i < |order| ==> order[i] < |types|
    decreases order
  {
    if order == [] then Some(Decoded(into, s))
    else match Decode(less, types[order[0]], into[order[0]], s)
         case None => None
         case Some(d) => DecodeFields(less, types, into[order[0] := d.result], order[1..], d.rest)
  }

  method MarshalStruct(output: Stream, fields: seq<Value>, order: seq<nat>)
    requires forall i :: 0 <= i < |order| ==> order[i] < |fields|
    modifies output
    ensures output.buffer == old(output.buffer) + EncodeFields(fields, order)
  {
    for i := 0 to |order|
      invariant output.buffer + EncodeFields(fields, order[i..]) == old(output.buffer) + EncodeFields(fields, order)
    {
      AppendAssociates(output.buffer, Encode(fields[order[i]]), EncodeFields(fields, order[i + 1..]));
      assert order[i..][1..] == order[i + 1..];
      MarshalValue(output, fields[order[i]]);
    }
    assert EncodeFields(fields, order[|order|..]) == [];
  }

  method DemarshalStruct(less: Order, input: Stream, types: seq<Type>, into: seq<Value>, order: seq<nat>)
    returns (fields: Option<seq<Value>>)
    requires FieldsFit(types, into)
    requires forall i :: 0 <= i < |order| ==> order[i] < |types|
    modifies input
    ensures match DecodeFields(less, types, into, order, old(input.buffer))
            case Some(d) => fields == Some(d.result) && input.buffer == d.rest
            case None => fields == None
  {
    var current := into;
    assert order[0..] == order;
    for i := 0 to |order|
      invariant FieldsFit(types, current)
      invariant DecodeFields(less, types, into, order, old(input.buffer))
             == DecodeFields(less, types, current, order[i..], input.buffer)
    {
      assert order[i..][1..] == order[i + 1..];
      var v := DemarshalValue(less, input, types[order[i]], current[order[i]]);
      if v.None? {
        return None;
      }
      current := current[order[i] := v.value];
    }
    fields := Some(current);
  }

  /** What a struct holds after being read into: each field merged by its own type. */
  ghost predicate MergedFields(
    less: Order, types: seq<Type>, into: seq<Value>, v: seq<Value>, order: seq<nat>, r: seq<Value>)
    requires FieldsFit(types, into) && FieldsFit(types, v)
  {
    && |r| == |into|
    && forall k :: 0 <= k < |r| ==> r[k] == if k in order then Merge(less, types[k], into[k], v[k]) else into[k]
  }

  ghost predicate FieldsHaveType(less: Order, types: seq<Type>, fields: seq<Value>) {
    |types| == |fields| && forall k :: 0 <= k < |fields| ==> types[k].Supported() && HasType(less, types[k], fields[k])
  }

  lemma HaveTypeFit(less: Order, types: seq<Type>, fields: seq<Value>)
    requires FieldsHaveType(less, types, fields)
    ensures FieldsFit(types, fields)
  {
    forall k | 0 <= k < |fields| ensures Fits(types[k], fields[k]) {
      MergeIntoDefault(less, types[k], fields[k]);
    }
  }

  lemma {:induction false} FieldsRoundTrip(
    less: Order, types: seq<Type>, into: seq<Value>, v: seq<Value>, order: seq<nat>, rest: seq<byte>)
    requires FieldsFit(types, into) && FieldsFit(types, v) && FieldsHaveType(less, types, v)
    requires forall i :: 0 <= i < |order| ==> order[i] < |types|
    requires forall i, j :: 0 <= i < j < |order| ==> order[i] != order[j]
    ensures var d := DecodeFields(less, types, into, order, EncodeFields(v, order) + rest);
            d.Some? && d.value.rest == rest && MergedFields(less, types, into, v, order, d.value.result)
    decreases order
  {
    if order == [] {
      assert EncodeFields(v, order) + rest == rest;
    } else {
      var k, later := order[0], order[1..];
      AppendAssociates(Encode(v[k]), EncodeFields(v, later), rest);
      RoundTrip(less, types[k], into[k], v[k], EncodeFields(v, later) + rest);
      var into' := into[k := Merge(less, types[k], into[k], v[k])];
      assert k !in later;
      assert order == [k] + later;
      FieldsRoundTrip(less, types, into', v, later, rest);
    }
  }

  function Defaults(types: seq<Type>): (r: seq<Value>)
    ensures FieldsFit(types, r)
  {
    seq(|types|, k requires 0 <= k < |types| => Default(types[k]))
  }

  /**
   A struct survives the trip through bytes whatever the order its fields are visited in,
   as long as writer and reader visit them in the same order.
   */
  lemma StructRoundTrip(less: Order, types: seq<Type>, v: seq<Value>, order: seq<nat>, rest: seq<byte>)
    requires FieldsHaveType(less, types, v) && EvaluationOrder(order, |v|)
    ensures DecodeFields(less, types, Defaults(types), order, EncodeFields(v, order) + rest) == Some(Decoded(v, rest))
  {
    HaveTypeFit(less, types, v);
    FieldsRoundTrip(less, types, Defaults(types), v, order, rest);
    var r := DecodeFields(less, types, Defaults(types), order, EncodeFields(v, order) + rest).value.result;
    forall k | 0 <= k < |v| ensures r[k] == v[k] {
      MergeIntoDefault(less, types[k], v[k]);
    }
    assert r == v;
  }

  // ---------- The two sides must agree on the order ----------

  /** The field types of a struct: supported, and no object is without a byte. */
  predicate Declarable(types: seq<Type>) {
    forall k :: 0 <= k < |types| ==> types[k].Supported() && (types[k].Fixed? ==> types[k].width > 0)
  }

  /** A value of the type whose encoding starts with the byte 1. */
  function Telltale(t: Type): Value
    requires t.Fixed? ==> t.width > 0
  {
    match t
    case Fixed(_, width) => Raw([1] + seq(width - 1, _ => 0))
    case Text => Str([1])
    case Vector(item) => Vec([Default(item)])
    case Map(key, value) => Dict([Entry(Default(key), Default(value))])
  }

  lemma DefaultHasType(less: Order, t: Type)
    ensures HasType(less, t, Default(t))
  {
    SizeCapacity();
  }

  lemma TelltaleStarts(less: Order, t: Type)
    requires t.Fixed? ==> t.width > 0
    ensures HasType(less, t, Telltale(t))
    ensures Encode(Telltale(t)) != [] && Encode(Telltale(t))[0] == 1
  {
    SizeCapacity();
    match t
    case Fixed(_, _) =>
    case Text => assert EncodeSize(1)[0] == 1;
    case Vector(item) =>
      DefaultHasType(less, item);
      assert EncodeSize(1)[0] == 1;
    case Map(key, value) =>
      DefaultHasType(less, key);
      DefaultHasType(less, value);
      assert EncodeSize(1)[0] == 1;
  }

  lemma {:induction false} ItemsGrow(less: Order, item: Type, n: nat, into: seq<Value>, s: seq<byte>)
    ensures var d := DecodeItems(less, item, n, into, s); d.Some? ==> |d.value.result| == |into| + n
    decreases n
  {
    if n > 0 && Decode(less, item, Default(item), s).Some? {
      var d := Decode(less, item, Default(item), s).value;
      ItemsGrow(less, item, n - 1, into + [d.result], d.rest);
    }
  }

  lemma {:induction false} EntriesGrow(less: Order, key: Type, value: Type, n: nat, into: seq<Entry>, s: seq<byte>)
    requires n > 0 || into != []
    ensures var d := DecodeEntries(less, key, value, n, into, s); d.Some? ==> d.value.result != []
    decreases n
  {
    if n > 0 && DecodeEntry(less, key, value, s).Some? {
      var d := DecodeEntry(less, key, value, s).value;
      EntriesGrow(less, key, value, n - 1, Insert(less, key, into, d.result), d.rest);
    }
  }

  /** Bytes that start with 1 do not read as the default of any type. */
  lemma ReadsOtherwise(less: Order, t: Type, s: seq<byte>)
    requires s != [] && s[0] == 1 && (t.Fixed? ==> t.width > 0)
    ensures var d := Decode(less, t, Default(t), s); d.Some? ==> d.value.result != Default(t)
  {
    if t.Fixed? && t.width <= |s| {
      assert s[..t.width][0] == 1;
    }
    if !t.Fixed? && SIZE_WIDTH <= |s| {
      assert s[..SIZE_WIDTH][0] == 1;
      var size := DecodeSize(s).value;
      assert size.result > 0;
      match t
      case Vector(item) => ItemsGrow(less, item, size.result, [], size.rest);
      case Map(key, value) => EntriesGrow(less, key, value, size.result, [], size.rest);
      case _ =>
    }
  }

  /** Reading leaves the fields it does not visit alone. */
  lemma {:induction false} Untouched(
    less: Order, types: seq<Type>, into: seq<Value>, order: seq<nat>, s: seq<byte>, k: nat)
    requires FieldsFit(types, into) && k < |types| && k !in order
    requires forall i :: 0 <= i < |order| ==> order[i] < |types|
    ensures var d := DecodeFields(less, types, into, order, s);
            d.Some? ==> |d.value.result| == |types| && d.value.result[k] == into[k]
    decreases order
  {
    if order != [] {
      var d := Decode(less, types[order[0]], into[order[0]], s);
      if d.Some? {
        Untouched(less, types, into[order[0] := d.value.result], order[1..], d.value.rest, k);
      }
    }
  }

  /** Part of an order: nothing is visited twice. */
  ghost predicate Permuted(order: seq<nat>, fields: nat) {
    && (forall i :: 0 <= i < |order| ==> order[i] < fields)
    && (forall i, j :: 0 <= i < j < |order| ==> order[i] != order[j])
  }

  /** The writer starts with a telltale that the reader takes for another field, still default. */
  lemma DivergesNow(less: Order, types: seq<Type>, into: seq<Value>, order: seq<nat>, s: seq<byte>)
    requires Declarable(types) && FieldsFit(types, into) && Permuted(order, |types|) && order != []
    requires s != [] && s[0] == 1 && into[order[0]] == Default(types[order[0]])
    ensures var d := DecodeFields(less, types, into, order, s);
            d.Some? ==> |d.value.result| == |types| && d.value.result[order[0]] != Default(types[order[0]])
  {
    hide Decode, Default;
    var k := order[0];
    ReadsOtherwise(less, types[k], s);
    var d := Decode(less, types[k], into[k], s);
    if d.Some? {
      Untouched(less, types, into[k := d.value.result], order[1..], d.value.rest, k);
    }
  }

  /** Up to place i both sides agree; there the writer writes a telltale the reader takes for another field. */
  lemma {:induction false} Diverges(
    less: Order, types: seq<Type>, into: seq<Value>, v: seq<Value>, w: seq<nat>, r: seq<nat>, i: nat)
    requires Declarable(types) && FieldsFit(types, into) && FieldsHaveType(less, types, v)
    requires Permuted(w, |types|) && Permuted(r, |types|)
    requires i < |w| && i < |r| && w[..i] == r[..i] && w[i] != r[i]
    requires v[w[i]] == Telltale(types[w[i]])
    requires into[r[i]] == Default(types[r[i]]) && v[r[i]] == Default(types[r[i]])
    ensures var d := DecodeFields(less, types, into, r, EncodeFields(v, w));
            d.Some? ==> |d.value.result| == |types| && d.value.result[r[i]] != v[r[i]]
    decreases i
  {
    hide Decode, Encode, Default, Telltale, HasType, Merge;
    if i == 0 {
      TelltaleStarts(less, types[w[0]]);
      DivergesNow(less, types, into, r, EncodeFields(v, w));
    } else {
      var k := r[0];
      assert w[0] == w[..i][0] == r[..i][0] == k;
      assert w[1..][..i - 1] == w[..i][1..] && r[1..][..i - 1] == r[..i][1..];
      RoundTrip(less, types[k], into[k], v[k], EncodeFields(v, w[1..]));
      Diverges(less, types, into[k := Merge(less, types[k], into[k], v[k])], v, w[1..], r[1..], i - 1);
    }
  }

  lemma FirstDifference(w: seq<nat>, r: seq<nat>) returns (i: nat)
    requires w != r
    ensures i <= |w| && i <= |r| && w[..i] == r[..i]
    ensures i < |w| && i < |r| ==> w[i] != r[i]
    ensures i < |w| || i < |r|
  {
    i := 0;
    while i < |w| && i < |r| && w[i] == r[i]
      invariant i <= |w| && i <= |r| && w[..i] == r[..i]
    {
      i := i + 1;
    }
  }

  lemma NextIsNew(x: seq<nat>, y: seq<nat>, fields: nat)
    requires EvaluationOrder(y, fields) && |x| < |y| && y[..|x|] == x
    ensures y[|x|] < fields && y[|x|] !in x
  {
    forall j | 0 <= j < |x| ensures x[j] != y[|x|] {
      assert x[j] == y[j];
    }
  }

  /** An order has room for nothing behind it. */
  lemma NoLongerOrder(x: seq<nat>, y: seq<nat>, fields: nat)
    requires EvaluationOrder(x, fields) && EvaluationOrder(y, fields) && |x| <= |y| && y[..|x|] == x
    ensures x == y
  {
    if |x| < |y| {
      NextIsNew(x, y, fields);
      assert false;
    }
  }

  lemma OrdersDiffer(less: Order, types: seq<Type>, w: seq<nat>, r: seq<nat>) returns (v: seq<Value>)
    requires Declarable(types) && EvaluationOrder(w, |types|) && EvaluationOrder(r, |types|) && w != r
    ensures FieldsHaveType(less, types, v)
    ensures DecodeFields(less, types, Defaults(types), r, EncodeFields(v, w)) != Some(Decoded(v, []))
  {
    var i := FirstDifference(w, r);
    if i == |w| {
      NoLongerOrder(w, r, |types|);
    } else if i == |r| {
      NoLongerOrder(r, w, |types|);
    }
    v := Defaults(types)[w[i] := Telltale(types[w[i]])];
    forall k | 0 <= k < |v| ensures HasType(less, types[k], v[k]) {
      DefaultHasType(less, types[k]);
      TelltaleStarts(less, types[w[i]]);
    }
    Diverges(less, types, Defaults(types), v, w, r, i);
  }

  /** Every struct survives the trip exactly when both sides visit the fields in the same order. */
  lemma OrdersMustAgree(less: Order, types: seq<Type>, w: seq<nat>, r: seq<nat>)
    requires Declarable(types) && EvaluationOrder(w, |types|) && EvaluationOrder(r, |types|)
    ensures w == r <==> forall v :: FieldsHaveType(less, types, v) ==>
              DecodeFields(less, types, Defaults(types), r, EncodeFields(v, w)) == Some(Decoded(v, []))
  {
    if w == r {
      forall v | FieldsHaveType(less, types, v)
        ensures DecodeFields(less, types, Defaults(types), r, EncodeFields(v, w)) == Some(Decoded(v, []))
      {
        StructRoundTrip(less, types, v, w, []);
        assert EncodeFields(v, w) + [] == EncodeFields(v, w);
      }
    } else {
      var v := OrdersDiffer(less, types, w, r);
    }
  }

  /** The smallest case: visiting two one-byte fields in opposite orders swaps them. */
  lemma SwappedFields(less: Order)
    ensures var types, v := [Fixed(0, 1), Fixed(0, 1)], [Raw([1]), Raw([2])];
            && FieldsHaveType(less, types, v) && EvaluationOrder([0, 1], 2) && EvaluationOrder([1, 0], 2)
            && DecodeFields(less, types, Defaults(types), [1, 0], EncodeFields(v, [0, 1]))
               == Some(Decoded([Raw([2]), Raw([1])], []))
  {
    var types, v := [Fixed(0, 1), Fixed(0, 1)], [Raw([1]), Raw([2])];
    assert EncodeFields(v, [0, 1]) == [1, 2] by {
      assert [0, 1][1..] == [1];
      assert EncodeFields(v, [1]) == [2];
    }
    assert [1, 0][1..] == [0];
    var first := Defaults(types)[1 := Raw([1])];
    assert Decode(less, types[1], Defaults(types)[1], [1, 2]) == Some(Decoded(Raw([1]), [2]));
    assert Decode(less, types[0], first[0], [2]) == Some(Decoded(Raw([2]), []));
    assert first[0 := Raw([2])] == [Raw([2]), Raw([1])];
  }
}
