/**
 zmq::encode and zmq::decode of 3rdparty/cppzmq/zmq_addon.hpp, the layout of ZeroMQ RFC 50:
 each part is a size and the data. A size below 255 takes one byte; any other takes 0xFF
 and four bytes, most significant first. The decoder also accepts the long form for sizes
 that would fit the short one.
 */
module MultipartCodec {
  import opened Bytes

  type Part = seq<byte>

  const SHORT_LIMIT: nat := 255
  const LONG_MARK: byte := 255
  const MAX_SIZE: nat := 0xFFFF_FFFF

  // ---------- Sizes in network order ----------

  function NetworkOrder(value: nat): (r: seq<byte>)
    requires value <= MAX_SIZE
    ensures |r| == 4
  {
    [(value / 0x100_0000) as byte, (value / 0x1_0000 % 256) as byte,
     (value / 0x100 % 256) as byte, (value % 256) as byte]
  }

  function FromNetworkOrder(b: seq<byte>): (r: nat)
    requires |b| >= 4
    ensures r <= MAX_SIZE
  {
    b[0] as nat * 0x100_0000 + b[1] as nat * 0x1_0000 + b[2] as nat * 0x100 + b[3] as nat
  }

  /** Two digits: a number below 65536 and the bytes it splits into. */
  lemma TwoDigits(high: nat, low: nat)
    requires low < 256
    ensures (high * 256 + low) / 256 == high && (high * 256 + low) % 256 == low
  {
  }

  lemma Joined(value: nat)
    ensures value == value / 0x1_0000 * 0x1_0000 + value % 0x1_0000
    ensures value / 0x100_0000 == value / 0x1_0000 / 256 && value % 0x1_0000 / 256 == value / 0x100 % 256
    ensures value % 256 == value % 0x1_0000 % 256
  {
  }

  lemma NetworkOrderRoundTrip(value: nat, rest: seq<byte>)
    requires value <= MAX_SIZE
    ensures FromNetworkOrder(NetworkOrder(value) + rest) == value
  {
    var b := NetworkOrder(value) + rest;
    var high, low := value / 0x1_0000, value % 0x1_0000;
    Joined(value);
    assert high == high / 256 * 256 + high % 256;
    assert low == low / 256 * 256 + low % 256;
    assert b[0] as nat == high / 256 && b[1] as nat == high % 256;
    assert b[2] as nat == low / 256 && b[3] as nat == low % 256;
  }

  /** The highest digit to the base 256 comes first. */
  lemma NetworkOrderDigits(value: nat, i: nat)
    requires value <= MAX_SIZE && i < 4
    ensures NetworkOrder(value)[i] as nat == value / Capacity(3 - i) % 256
  {
    assert Capacity(0) == 1 && Capacity(1) == 0x100 && Capacity(2) == 0x1_0000;
    assert Capacity(3) == 256 * Capacity(2);
    assert value / 0x100_0000 < 256;
  }

  lemma FromNetworkOrderRoundTrip(b: seq<byte>)
    requires |b| == 4
    ensures NetworkOrder(FromNetworkOrder(b)) == b
  {
    var b0, b1, b2, b3 := b[0] as nat, b[1] as nat, b[2] as nat, b[3] as nat;
    var three := (b0 * 256 + b1) * 256 + b2;
    var value := FromNetworkOrder(b);
    TwoDigits(three, b3);
    TwoDigits(b0 * 256 + b1, b2);
    TwoDigits(b0, b1);
    assert value == three * 256 + b3;
    assert value / 0x100 == three;
    assert value / 0x1_0000 == three / 256;
    assert value / 0x100_0000 == three / 256 / 256;
  }

  // ---------- The layout ----------

  predicate Encodable(parts: seq<Part>) {
    forall i :: 0 <= i < |parts| ==> |parts[i]| <= MAX_SIZE
  }

  /** A size prefix in the chosen form; the long form is the only one from 255 on. */
  function Prefix(size: nat, long: bool): seq<byte>
    requires size <= MAX_SIZE && (size < SHORT_LIMIT || long)
  {
    if long then [LONG_MARK] + NetworkOrder(size) else [size as byte]
  }

  predicate Forms(parts: seq<Part>, longs: seq<bool>) {
    |longs| == |parts| && forall i :: 0 <= i < |parts| ==> |parts[i]| < SHORT_LIMIT || longs[i]
  }

  /** Every byte string that carries the parts, one for each choice of prefix forms. */
  function Render(parts: seq<Part>, longs: seq<bool>): seq<byte>
    requires Encodable(parts) && Forms(parts, longs)
  {
    if parts == [] then [] else (Prefix(|parts[0]|, longs[0]) + parts[0]) + Render(parts[1..], longs[1..])
  }

  function Shortest(parts: seq<Part>): (longs: seq<bool>)
    ensures Forms(parts, longs)
  {
    seq(|parts|, i requires 0 <= i < |parts| => |parts[i]| >= SHORT_LIMIT)
  }

  /** What the encoder produces. */
  function Encoding(parts: seq<Part>): seq<byte>
    requires Encodable(parts)
  {
    if parts == [] then [] else Frame(parts[0]) + Encoding(parts[1..])
  }

  function Frame(part: Part): seq<byte>
    requires |part| <= MAX_SIZE
  {
    Prefix(|part|, |part| >= SHORT_LIMIT) + part
  }

  // ---------- The decoder as a function ----------

  datatype Status = Accepted | SizeOverflow | PartOverflow

  /** The parts handed out, and how the run ended. */
  datatype Outcome = Outcome(parts: seq<Part>, status: Status)

  datatype Header = Header(size: nat, rest: seq<byte>, long: bool)

  function ReadHeader(s: seq<byte>): (r: Option<Header>)
    requires s != []
    ensures r.Some? ==> |r.value.rest| < |s|
  {
    if s[0] != LONG_MARK then Some(Header(s[0] as nat, s[1..], false))
    else if |s| - 1 < 4 then None
    else Some(Header(FromNetworkOrder(s[1..]), s[5..], true))
  }

  function Decoding(s: seq<byte>): Outcome
    decreases |s|
  {
    if s == [] then Outcome([], Accepted)
    else match ReadHeader(s)
         case None => Outcome([], SizeOverflow)
         case Some(h) =>
           if |h.rest| < h.size then Outcome([], PartOverflow)
           else var later := Decoding(h.rest[h.size..]);
                Outcome([h.rest[..h.size]] + later.parts, later.status)
  }

  // ---------- Encoding and decoding run in place ----------

  datatype EncodeResult = Encoded(buffer: array<byte>) | RangeError

  method WriteNetworkOrder(buf: array<byte>, at: nat, value: nat)
    requires at + 4 <= buf.Length && value <= MAX_SIZE
    modifies buf
    ensures buf[..] == old(buf[..at]) + NetworkOrder(value) + old(buf[at + 4..])
  {
    buf[at] := (value / 0x100_0000) as byte;
    buf[at + 1] := (value / 0x1_0000 % 256) as byte;
    buf[at + 2] := (value / 0x100 % 256) as byte;
    buf[at + 3] := (value % 256) as byte;
  }

  method CopyInto(buf: array<byte>, at: nat, data: seq<byte>)
    requires at + |data| <= buf.Length
    modifies buf
    ensures buf[..] == old(buf[..at]) + data + old(buf[at + |data|..])
  {
    forall i | 0 <= i < |data| {
      buf[at + i] := data[i];
    }
  }

  /** One turn of the second pass: a size prefix, then the data. */
  method WritePart(buf: array<byte>, at: nat, part: Part) returns (next: nat)
    requires |part| <= MAX_SIZE && at + |Frame(part)| <= buf.Length
    modifies buf
    ensures next == at + |Frame(part)|
    ensures buf[..next] == old(buf[..at]) + Frame(part)
  {
    hide NetworkOrder;
    var size := |part|;
    next := at;
    if size < 255 {
      buf[next] := size as byte;
      next := next + 1;
    } else {
      buf[next] := 255;
      next := next + 1;
      WriteNetworkOrder(buf, next, size);
      next := next + 4;
    }
    assert buf[..next] == old(buf[..at]) + Prefix(size, size >= SHORT_LIMIT);
    CopyInto(buf, next, part);
    next := next + size;
  }

  lemma {:induction false} EncodingSnoc(parts: seq<Part>, part: Part)
    requires Encodable(parts) && |part| <= MAX_SIZE
    ensures Encodable(parts + [part]) && Encoding(parts + [part]) == Encoding(parts) + Frame(part)
  {
    if parts == [] {
      assert (parts + [part])[1..] == [];
    } else {
      assert (parts + [part])[1..] == parts[1..] + [part];
      EncodingSnoc(parts[1..], part);
      assert Encoding(parts + [part]) == Frame(parts[0]) + (Encoding(parts[1..]) + Frame(part));
    }
  }

  lemma EncodingLength(parts: seq<Part>, i: nat)
    requires Encodable(parts) && i <= |parts|
    ensures Encodable(parts[..i]) && |Encoding(parts[..i])| <= |Encoding(parts)|
    ensures i < |parts| ==> |Encoding(parts[..i + 1])| == |Encoding(parts[..i])| + |Frame(parts[i])|
    decreases |parts| - i
  {
    if i == |parts| {
      assert parts[..i] == parts;
    } else {
      assert parts[..i + 1] == parts[..i] + [parts[i]];
      EncodingSnoc(parts[..i], parts[i]);
      EncodingLength(parts, i + 1);
    }
  }

  /** What one more part adds to the encoding. */
  lemma NextFrame(parts: seq<Part>, i: nat)
    requires i < |parts| && Encodable(parts[..i]) && |parts[i]| <= MAX_SIZE
    ensures Encodable(parts[..i + 1]) && Encoding(parts[..i + 1]) == Encoding(parts[..i]) + Frame(parts[i])
    ensures |Frame(parts[i])| == |parts[i]| + if |parts[i]| < SHORT_LIMIT then 1 else 5
  {
    EncodingSnoc(parts[..i], parts[i]);
    assert parts[..i] + [parts[i]] == parts[..i + 1];
  }

  lemma NoFrames(parts: seq<Part>)
    ensures Encodable(parts[..0]) && Encoding(parts[..0]) == []
  {
  }

  lemma PartFits(parts: seq<Part>, i: nat)
    requires i < |parts| && Encodable(parts)
    ensures |parts[i]| <= MAX_SIZE
  {
  }

  lemma TooLarge(parts: seq<Part>, i: nat)
    requires i < |parts| && |parts[i]| > MAX_SIZE
    ensures !Encodable(parts)
  {
  }

  /**
   Two passes: the first adds up sizes and rejects a part that does not fit 32 bits, the
   second fills a buffer of exactly that many bytes.
   */
  method Encode(parts: seq<Part>) returns (r: EncodeResult)
    ensures r.Encoded? <==> Encodable(parts)
    ensures r.Encoded? ==> fresh(r.buffer) && r.buffer[..] == Encoding(parts)
  {
    hide Encoding, Encodable, Frame;
    NoFrames(parts);
    var total := 0;
    for i := 0 to |parts|
      invariant Encodable(parts[..i])
      invariant total == |Encoding(parts[..i])|
    {
      var size := |parts[i]|;
      if size > MAX_SIZE {
        TooLarge(parts, i);
        return RangeError;
      }
      NextFrame(parts, i);
      total := total + size + if size < 255 then 1 else 5;
    }
    assert parts[..|parts|] == parts;

    var buf := new byte[total];
    var at := 0;
    for i := 0 to |parts|
      invariant Encodable(parts[..i])
      invariant at == |Encoding(parts[..i])| <= total
      invariant buf[..at] == Encoding(parts[..i])
    {
      EncodingLength(parts, i);
      EncodingLength(parts, i + 1);
      PartFits(parts, i);
      NextFrame(parts, i);
      at := WritePart(buf, at, parts[i]);
    }
    assert buf[..] == buf[..at];
    r := Encoded(buf);
  }

  function Following(out: seq<Part>, later: Outcome): Outcome {
    Outcome(out + later.parts, later.status)
  }

  lemma FollowingNothing(o: Outcome)
    ensures Following([], o) == o
  {
    assert [] + o.parts == o.parts;
  }

  lemma HeaderAt(s: seq<byte>, at: nat)
    requires at < |s|
    ensures ReadHeader(s[at..]) ==
            if s[at] != LONG_MARK then Some(Header(s[at] as nat, s[at + 1..], false))
            else if |s| - at - 1 < 4 then None
            else Some(Header(FromNetworkOrder(s[at + 1..at + 5]), s[at + 5..], true))
  {
    assert s[at..][1..] == s[at + 1..];
    if s[at] == LONG_MARK && |s| - at - 1 >= 4 {
      assert s[at..][5..] == s[at + 5..];
    }
  }

  lemma StoppedAt(s: seq<byte>, at: nat, out: seq<Part>)
    requires at <= |s|
    ensures at == |s| ==> Following(out, Decoding(s[at..])) == Outcome(out, Accepted)
    ensures at < |s| && ReadHeader(s[at..]).None? ==> Following(out, Decoding(s[at..])) == Outcome(out, SizeOverflow)
  {
    assert out + [] == out;
  }

  lemma PartAt(s: seq<byte>, at: nat, body: nat, size: nat, long: bool, out: seq<Part>)
    requires at < |s| && at < body <= |s|
    requires ReadHeader(s[at..]) == Some(Header(size, s[body..], long))
    ensures |s| - body < size ==> Following(out, Decoding(s[at..])) == Outcome(out, PartOverflow)
    ensures |s| - body >= size ==>
              Following(out, Decoding(s[at..])) == Following(out + [s[body..body + size]], Decoding(s[body + size..]))
  {
    if |s| - body >= size {
      assert s[body..][..size] == s[body..body + size];
      assert s[body..][size..] == s[body + size..];
      AppendAssociates(out, [s[body..body + size]], Decoding(s[body + size..]).parts);
    } else {
      assert out + [] == out;
    }
  }

  /** The decoder hands out parts as it goes, so an error leaves the earlier parts out. */
  method Decode(encoded: array<byte>) returns (out: seq<Part>, status: Status)
    ensures Outcome(out, status) == Decoding(encoded[..])
  {
    hide Decoding, ReadHeader, FromNetworkOrder, Following;
    out := [];
    var source, limit := 0, encoded.Length;
    ghost var s := encoded[..];
    assert s[0..] == s;
    FollowingNothing(Decoding(s));
    while source < limit
      invariant source <= limit
      invariant Following(out, Decoding(s[source..])) == Decoding(s)
    {
      ghost var at := source;
      HeaderAt(s, at);
      StoppedAt(s, at, out);
      var size := encoded[source] as nat;
      source := source + 1;
      if size == 255 {
        if limit - source < 4 {
          return out, SizeOverflow;
        }
        size := FromNetworkOrder(encoded[source..source + 4]);
        assert encoded[source..source + 4] == s[source..source + 4];
        source := source + 4;
      }
      PartAt(s, at, source, size, s[at] == LONG_MARK, out);
      if limit - source < size {
        return out, PartOverflow;
      }
      out := out + [encoded[source..source + size]];
      source := source + size;
    }
    StoppedAt(s, source, out);
    status := Accepted;
  }

  // ---------- Decoding undoes encoding ----------

  lemma PrefixHeader(size: nat, long: bool, rest: seq<byte>)
    requires size <= MAX_SIZE && (size < SHORT_LIMIT || long)
    ensures ReadHeader(Prefix(size, long) + rest) == Some(Header(size, rest, long))
  {
    var s := Prefix(size, long) + rest;
    if long {
      assert s[1..] == NetworkOrder(size) + rest;
      NetworkOrderRoundTrip(size, rest);
      assert s[5..] == rest;
    } else {
      assert s[1..] == rest;
    }
  }

  /** Whatever prefix forms were chosen, the decoder recovers the parts. */
  lemma {:induction false} DecodeRendering(parts: seq<Part>, longs: seq<bool>)
    requires Encodable(parts) && Forms(parts, longs)
    ensures Decoding(Render(parts, longs)) == Outcome(parts, Accepted)
  {
    if parts != [] {
      var part, later := parts[0], Render(parts[1..], longs[1..]);
      DecodeRendering(parts[1..], longs[1..]);
      AppendAssociates(Prefix(|part|, longs[0]), part, later);
      PrefixHeader(|part|, longs[0], part + later);
      SplitAppend(part, later);
      assert parts == [part] + parts[1..];
    }
  }

  lemma {:induction false} EncodingIsShortest(parts: seq<Part>)
    requires Encodable(parts)
    ensures Encoding(parts) == Render(parts, Shortest(parts))
  {
    if parts != [] {
      EncodingIsShortest(parts[1..]);
      assert Shortest(parts)[1..] == Shortest(parts[1..]);
    }
  }

  lemma DecodeEncoding(parts: seq<Part>)
    requires Encodable(parts)
    ensures Decoding(Encoding(parts)) == Outcome(parts, Accepted)
  {
    EncodingIsShortest(parts);
    DecodeRendering(parts, Shortest(parts));
  }

  // ---------- What the decoder accepts ----------

  lemma HeaderPrefix(s: seq<byte>)
    requires s != [] && ReadHeader(s).Some?
    ensures var h := ReadHeader(s).value;
            && h.size <= MAX_SIZE && (h.size < SHORT_LIMIT || h.long)
            && s == Prefix(h.size, h.long) + h.rest
  {
    if s[0] == LONG_MARK {
      FromNetworkOrderRoundTrip(s[1..5]);
      assert s == [s[0]] + s[1..5] + s[5..];
    } else {
      assert s == [s[0]] + s[1..];
    }
  }

  /** An accepted input is consumed exactly: it is a rendering of the parts handed out. */
  lemma {:induction false} AcceptedIsRendering(s: seq<byte>) returns (longs: seq<bool>)
    requires Decoding(s).status == Accepted
    ensures Encodable(Decoding(s).parts) && Forms(Decoding(s).parts, longs)
    ensures s == Render(Decoding(s).parts, longs)
    decreases |s|
  {
    if s == [] {
      longs := [];
    } else {
      var h := ReadHeader(s).value;
      HeaderPrefix(s);
      var later := h.rest[h.size..];
      var tail := AcceptedIsRendering(later);
      longs := [h.long] + tail;
      var parts := Decoding(s).parts;
      assert parts[1..] == Decoding(later).parts && longs[1..] == tail;
      assert h.rest == h.rest[..h.size] + later;
      AppendAssociates(Prefix(h.size, h.long), parts[0], later);
    }
  }

  /** The accepted inputs are the renderings, and nothing else. */
  lemma AcceptsExactly(s: seq<byte>, parts: seq<Part>)
    ensures Decoding(s) == Outcome(parts, Accepted) <==>
            Encodable(parts) && exists longs :: Forms(parts, longs) && s == Render(parts, longs)
  {
    if Decoding(s) == Outcome(parts, Accepted) {
      var longs := AcceptedIsRendering(s);
    }
    if Encodable(parts) {
      forall longs | Forms(parts, longs) && s == Render(parts, longs)
        ensures Decoding(s) == Outcome(parts, Accepted)
      {
        DecodeRendering(parts, longs);
      }
    }
  }

  lemma {:induction false} RenderingLength(parts: seq<Part>, longs: seq<bool>)
    requires Encodable(parts) && Forms(parts, longs)
    ensures |Encoding(parts)| <= |Render(parts, longs)|
    ensures |Encoding(parts)| == |Render(parts, longs)| ==> Encoding(parts) == Render(parts, longs)
  {
    if parts != [] {
      RenderingLength(parts[1..], longs[1..]);
    }
  }

  /**
   Encoding again what was decoded is never longer than the input, decodes to the same
   parts, and is as long only when it is the input.
   */
  lemma Reencoding(s: seq<byte>)
    requires Decoding(s).status == Accepted
    ensures var parts := Decoding(s).parts;
            && Encodable(parts)
            && Decoding(Encoding(parts)) == Decoding(s)
            && |Encoding(parts)| <= |s|
            && (|Encoding(parts)| == |s| <==> Encoding(parts) == s)
  {
    var longs := AcceptedIsRendering(s);
    RenderingLength(Decoding(s).parts, longs);
    DecodeEncoding(Decoding(s).parts);
  }

  /** A size of the long form does not fit into what is left. */
  predicate SizeCutOff(tail: seq<byte>) {
    tail != [] && tail[0] == 255 && |tail| < 5
  }

  /** A size is there, of either form, and announces more than is left. */
  predicate PartCutOff(tail: seq<byte>) {
    tail != []
    && if tail[0] != 255 then |tail| < 1 + tail[0] as nat
       else |tail| >= 5 && |tail| < 5 + FromNetworkOrder(tail[1..])
  }

  lemma CutOffHere(s: seq<byte>)
    requires s != []
    ensures SizeCutOff(s) <==> ReadHeader(s).None?
    ensures PartCutOff(s) <==> ReadHeader(s).Some? && |ReadHeader(s).value.rest| < ReadHeader(s).value.size
  {
    hide FromNetworkOrder;
  }

  /** A part that is there is handed out, and decoding goes on behind it, in any prefix that reaches so far. */
  lemma PartPassed(s: seq<byte>, later: seq<byte>, m: nat) returns (n: nat)
    requires s != [] && ReadHeader(s).Some? && ReadHeader(s).value.size <= |ReadHeader(s).value.rest|
    requires later == ReadHeader(s).value.rest[ReadHeader(s).value.size..]
    ensures |later| < |s| && Decoding(s).status == Decoding(later).status
    ensures m <= |later| ==>
              && n <= |s| && n - m == |s| - |later| && s[n..] == later[m..]
              && Decoding(s[..n]).status == Decoding(later[..m]).status
              && (Decoding(later[..m]).parts == Decoding(later).parts ==> Decoding(s[..n]).parts == Decoding(s).parts)
  {
    hide FromNetworkOrder, Prefix, ReadHeader, Decoding;
    var h := ReadHeader(s).value;
    HeaderPrefix(s);
    GoesOn(s);
    var part := h.rest[..h.size];
    var head := Prefix(h.size, h.long) + part;
    n := |head| + m;
    if m <= |later| {
      assert s == head + later && s[..n] == head + later[..m] && s[n..] == later[m..];
      AppendAssociates(Prefix(h.size, h.long), part, later[..m]);
      PrefixHeader(h.size, h.long, part + later[..m]);
      SplitAppend(part, later[..m]);
      GoesOn(s[..n]);
    }
  }

  lemma GoesOn(s: seq<byte>)
    requires s != [] && ReadHeader(s).Some? && ReadHeader(s).value.size <= |ReadHeader(s).value.rest|
    ensures var h := ReadHeader(s).value;
            var later := Decoding(h.rest[h.size..]);
            |h.rest| < |s| && Decoding(s) == Outcome([h.rest[..h.size]] + later.parts, later.status)
  {
  }

  /**
   Of a rejected input, the parts handed out are those of an accepted proper prefix, and the
   error says how what follows it is cut off: within a size, or within a part.
   */
  lemma {:induction false} RejectedPrefix(s: seq<byte>) returns (n: nat)
    requires Decoding(s).status != Accepted
    ensures n < |s| && Decoding(s[..n]) == Outcome(Decoding(s).parts, Accepted)
    ensures Decoding(s).status == SizeOverflow <==> SizeCutOff(s[n..])
    ensures Decoding(s).status == PartOverflow <==> PartCutOff(s[n..])
    decreases |s|
  {
    hide SizeCutOff, PartCutOff, FromNetworkOrder, Decoding;
    StopsOrGoesOn(s);
    if ReadHeader(s).None? || |ReadHeader(s).value.rest| < ReadHeader(s).value.size {
      n := 0;
      assert s[0..] == s && s[..0] == [];
      CutOffHere(s);
    } else {
      var later := ReadHeader(s).value.rest[ReadHeader(s).value.size..];
      n := PartPassed(s, later, 0);
      var m := RejectedPrefix(later);
      n := PartPassed(s, later, m);
    }
  }

  lemma StopsOrGoesOn(s: seq<byte>)
    ensures Decoding([]) == Outcome([], Accepted)
    ensures s != [] && ReadHeader(s).None? ==> Decoding(s) == Outcome([], SizeOverflow)
    ensures s != [] && ReadHeader(s).Some? && |ReadHeader(s).value.rest| < ReadHeader(s).value.size ==>
              Decoding(s) == Outcome([], PartOverflow)
  {
  }
}
