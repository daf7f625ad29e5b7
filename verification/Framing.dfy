/**
 Multipart messages over a socket: the SNDMORE loops of zmq::multipart_t and of
 libhdk/channel/impl/socket_helpers_zmq.hpp.

 One direction of a socket pair is a pipe of frames, each with its more-flag. Delivery is
 atomic, so the frames of a message become readable together, and only the first frame of
 a message can be refused.
 */
module Framing {
  import opened Bytes

  type Message = seq<seq<byte>>

  datatype Frame = Frame(data: seq<byte>, more: bool)

  /** A message on the wire: every frame but the last announces another one. */
  function Frames(parts: Message): seq<Frame> {
    if parts == [] then [] else [Frame(parts[0], |parts| > 1)] + Frames(parts[1..])
  }

  predicate WellFramed(q: seq<Frame>) {
    q == [] || !q[|q| - 1].more
  }

  function HeadLength(q: seq<Frame>): (n: nat)
    requires q != [] && WellFramed(q)
    ensures 1 <= n <= |q|
    ensures !q[n - 1].more && forall i :: 0 <= i < n - 1 ==> q[i].more
  {
    if !q[0].more then 1 else 1 + HeadLength(q[1..])
  }

  function Contents(q: seq<Frame>): (r: Message)
    ensures |r| == |q|
    ensures forall i :: 0 <= i < |q| ==> r[i] == q[i].data
  {
    seq(|q|, i requires 0 <= i < |q| => q[i].data)
  }

  /** The messages a readable queue of frames amounts to. */
  function Messages(q: seq<Frame>): seq<Message>
    requires WellFramed(q)
    decreases |q|
  {
    if q == [] then [] else [Contents(q[..HeadLength(q)])] + Messages(q[HeadLength(q)..])
  }

  lemma {:induction false} FramesShape(parts: Message)
    ensures |Frames(parts)| == |parts| && WellFramed(Frames(parts))
    ensures forall i :: 0 <= i < |parts| ==> Frames(parts)[i] == Frame(parts[i], i < |parts| - 1)
  {
    if parts != [] {
      FramesShape(parts[1..]);
    }
  }

  lemma {:induction false} MessagesOfFrames(parts: Message)
    requires parts != []
    ensures WellFramed(Frames(parts)) && Messages(Frames(parts)) == [parts]
  {
    FramesShape(parts);
    var q := Frames(parts);
    assert HeadLength(q) == |q|;
    assert q[..|q|] == q && Contents(q) == parts && q[|q|..] == [];
  }

  lemma HeadLengthUnique(q: seq<Frame>, n: nat)
    requires q != [] && WellFramed(q) && 1 <= n <= |q|
    requires !q[n - 1].more && forall i :: 0 <= i < n - 1 ==> q[i].more
    ensures HeadLength(q) == n
  {
    var m := HeadLength(q);
    if m < n {
      assert false;
    }
  }

  lemma WellFramedAppend(q: seq<Frame>, r: seq<Frame>)
    requires WellFramed(q) && WellFramed(r)
    ensures WellFramed(q + r)
  {
    if r != [] {
      assert (q + r)[|q + r| - 1] == r[|r| - 1];
    } else {
      assert q + r == q;
    }
  }

  lemma {:induction false} MessagesAppend(q: seq<Frame>, r: seq<Frame>)
    requires WellFramed(q) && WellFramed(r)
    ensures WellFramed(q + r) && Messages(q + r) == Messages(q) + Messages(r)
    decreases |q|
  {
    WellFramedAppend(q, r);
    if q == [] {
      assert q + r == r;
    } else {
      FirstMessage(q);
      MessagesAppend(q[HeadLength(q)..], r);
      MessagesAppendFirst(q, r);
    }
  }

  lemma HeadOfAppend(q: seq<Frame>, r: seq<Frame>)
    requires q != [] && WellFramed(q) && WellFramed(q + r)
    ensures HeadLength(q + r) == HeadLength(q)
  {
    var n := HeadLength(q);
    assert (q + r)[n - 1] == q[n - 1];
    forall i | 0 <= i < n - 1 ensures (q + r)[i].more {
      assert (q + r)[i] == q[i];
    }
    HeadLengthUnique(q + r, n);
  }

  lemma MessagesAppendFirst(q: seq<Frame>, r: seq<Frame>)
    requires q != [] && WellFramed(q) && WellFramed(q + r) && WellFramed(r)
    requires WellFramed(q[HeadLength(q)..]) && WellFramed(q[HeadLength(q)..] + r)
    requires Messages(q[HeadLength(q)..] + r) == Messages(q[HeadLength(q)..]) + Messages(r)
    ensures Messages(q + r) == Messages(q) + Messages(r)
  {
    hide HeadLength, Contents, Messages, WellFramed;
    var n := HeadLength(q);
    HeadOfAppend(q, r);
    FirstMessage(q);
    FirstMessage(q + r);
    assert (q + r)[..n] == q[..n];
    assert (q + r)[n..] == q[n..] + r;
    var first, rest, others := [Contents(q[..n])], Messages(q[n..]), Messages(r);
    assert Messages(q + r) == first + (rest + others);
    assert Messages(q) == first + rest;
    AppendAssociates(first, rest, others);
  }

  lemma FirstMessage(q: seq<Frame>)
    requires q != [] && WellFramed(q)
    ensures WellFramed(q[HeadLength(q)..])
    ensures Messages(q) == [Contents(q[..HeadLength(q)])] + Messages(q[HeadLength(q)..])
  {
  }

  class Pipe {
    /** Frames of complete messages, readable. */
    var queue: seq<Frame>
    /** Frames of the message being written. */
    var pending: seq<Frame>
    /** Whether the next message would be accepted without waiting. */
    var writable: bool

    predicate Valid()
      reads this
    {
      WellFramed(queue) && forall i :: 0 <= i < |pending| ==> pending[i].more
    }

    /** The message-level view: what a reader will receive, in order. */
    function Readable(): seq<Message>
      reads this
      requires Valid()
    {
      Messages(queue)
    }

    constructor (writable: bool)
      ensures Valid() && queue == [] && pending == [] && this.writable == writable
    {
      queue, pending := [], [];
      this.writable := writable;
    }

    method SendFrame(data: seq<byte>, more: bool) returns (ok: bool)
      requires Valid()
      modifies this
      ensures Valid() && writable == old(writable)
      ensures ok <==> old(pending != [] || writable)
      ensures !ok ==> queue == old(queue) && pending == old(pending)
      ensures ok && more ==> queue == old(queue) && pending == old(pending) + [Frame(data, more)]
      ensures ok && !more ==> queue == old(queue + pending) + [Frame(data, more)] && pending == []
    {
      if pending == [] && !writable {
        return false;
      }
      pending := pending + [Frame(data, more)];
      if !more {
        queue := queue + pending;
        pending := [];
      }
      return true;
    }

    method ReceiveFrame() returns (frame: Option<Frame>)
      modifies this
      ensures writable == old(writable) && pending == old(pending)
      ensures old(queue) == [] ==> frame == None && queue == []
      ensures old(queue) != [] ==> frame == Some(old(queue)[0]) && queue == old(queue)[1..]
    {
      if queue == [] {
        frame := None;
      } else {
        frame := Some(queue[0]);
        queue := queue[1..];
      }
    }
  }

  datatype ReceiveResult = Received(count: nat) | Again | TooManyParts

  class Multipart {
    var parts: Message

    constructor ()
      ensures parts == []
    {
      parts := [];
    }

    method Add(part: seq<byte>)
      modifies this
      ensures parts == old(parts) + [part]
    {
      parts := parts + [part];
    }

    method Push(part: seq<byte>)
      modifies this
      ensures parts == [part] + old(parts)
    {
      parts := [part] + parts;
    }

    method Pop() returns (part: seq<byte>)
      requires parts != []
      modifies this
      ensures [part] + parts == old(parts)
    {
      part := parts[0];
      parts := parts[1..];
    }

    method Remove() returns (part: seq<byte>)
      requires parts != []
      modifies this
      ensures parts + [part] == old(parts)
    {
      part := parts[|parts| - 1];
      parts := parts[..|parts| - 1];
    }

    /**
     Sends every part as one message. A refusal comes on the first frame, after that part
     was already popped, so it is lost from the object that is left behind.
     */
    method Send(socket: Pipe) returns (ok: bool)
      requires socket.Valid() && socket.pending == []
      modifies this, socket
      ensures socket.Valid() && socket.pending == [] && socket.writable == old(socket.writable)
      ensures ok <==> old(parts == [] || socket.writable)
      ensures ok ==> parts == [] && socket.queue == old(socket.queue) + Frames(old(parts))
      ensures ok && old(parts) != [] ==> socket.Readable() == old(socket.Readable()) + [old(parts)]
      ensures !ok ==> parts == old(parts)[1..] && socket.queue == old(socket.queue)
    {
      ghost var all := parts;
      FramesShape(all);
      var more := |parts| > 0;
      ghost var n := 0;
      while more
        invariant n <= |all| && parts == all[n..]
        invariant more <==> n < |all|
        invariant socket.Valid() && socket.writable == old(socket.writable)
        invariant n > 0 ==> socket.writable
        invariant more ==> socket.pending == Frames(all)[..n] && socket.queue == old(socket.queue)
        invariant !more ==> socket.pending == [] && socket.queue == old(socket.queue) + Frames(all)
        decreases |parts|
      {
        var message := Pop();
        assert message == all[n] && parts == all[n + 1..];
        more := |parts| > 0;
        var sent := socket.SendFrame(message, more);
        if !sent {
          return false;
        }
        assert Frames(all)[..n] + [Frames(all)[n]] == Frames(all)[..n + 1];
        n := n + 1;
        if !more {
          assert Frames(all)[..n] == Frames(all);
          AppendAssociates(old(socket.queue), Frames(all)[..n - 1], [Frames(all)[n - 1]]);
        }
      }
      if all != [] {
        MessagesOfFrames(all);
        MessagesAppend(old(socket.queue), Frames(all));
      }
      parts := [];
      return true;
    }

    /** Receives one message and only that one. */
    method Receive(socket: Pipe) returns (ok: bool)
      requires socket.Valid()
      modifies this, socket
      ensures socket.Valid() && socket.pending == old(socket.pending) && socket.writable == old(socket.writable)
      ensures ok <==> old(socket.Readable()) != []
      ensures ok ==> [parts] + socket.Readable() == old(socket.Readable())
      ensures !ok ==> parts == [] && socket.queue == old(socket.queue)
    {
      var out, result := ReceiveMultipart(socket, None);
      parts := out;
      ok := result.Received?;
      assert out[..|out|] == out;
    }

    /** Concatenates another message in front, one part at a time from its back. */
    method Prepend(other: Multipart)
      requires other != this
      modifies this, other
      ensures parts == old(other.parts) + old(parts) && other.parts == []
    {
      while other.parts != []
        invariant other.parts + parts == old(other.parts) + old(parts)
        decreases |other.parts|
      {
        ghost var before := other.parts;
        var part := other.Remove();
        AppendAssociates(other.parts, [part], parts);
        Push(part);
      }
      assert other.parts + parts == parts;
    }

    /** Concatenates another message behind, one part at a time from its front. */
    method Append(other: Multipart)
      requires other != this
      modifies this, other
      ensures parts == old(parts) + old(other.parts) && other.parts == []
    {
      while other.parts != []
        invariant parts + other.parts == old(parts) + old(other.parts)
        decreases |other.parts|
      {
        var part := other.Pop();
        AppendAssociates(parts, [part], other.parts);
        Add(part);
      }
      assert parts + other.parts == parts;
    }
  }

  /**
   The receive loop, with an optional limit on the number of parts. Exceeding the limit
   leaves the parts beyond it in the socket; a limit of zero is exceeded before reading.
   */
  method ReceiveMultipart(socket: Pipe, limit: Option<nat>) returns (out: Message, result: ReceiveResult)
    requires socket.Valid()
    modifies socket
    ensures socket.Valid() && socket.pending == old(socket.pending) && socket.writable == old(socket.writable)
    ensures result.Received? ==>
              && old(socket.queue) != [] && result.count == |out| && (limit.Some? ==> |out| <= limit.value)
              && old(socket.Readable()) == [out] + socket.Readable()
    ensures result.Again? <==> old(socket.queue) == [] && limit != Some(0)
    ensures result.Again? ==> out == [] && socket.queue == []
    ensures result.TooManyParts? ==>
              && limit.Some? && |out| == limit.value <= |old(socket.queue)|
              && old(socket.queue) == old(socket.queue)[..limit.value] + socket.queue
              && Contents(old(socket.queue)[..limit.value]) == out
              && (limit.value > 0 ==> limit.value < HeadLength(old(socket.queue)))
  {
    out := [];
    var count := 0;
    ghost var all := socket.queue;
    ghost var head := if all == [] then 0 else HeadLength(all);
    while true
      invariant count == |out| <= |all| && (all != [] ==> count < head)
      invariant limit.Some? ==> count <= limit.value
      invariant socket.queue == all[count..]
      invariant Contents(all[..count]) == out
      invariant socket.Valid() && socket.pending == old(socket.pending) && socket.writable == old(socket.writable)
      decreases |all| - count
    {
      if limit.Some? && count >= limit.value {
        assert all == all[..count] + all[count..];
        return out, TooManyParts;
      }
      var frame := socket.ReceiveFrame();
      if frame.None? {
        return [], Again;
      }
      assert frame.value == all[count];
      count := count + 1;
      out := out + [frame.value.data];
      assert Contents(all[..count]) == out;
      assert socket.queue == all[count..];
      if !frame.value.more {
        assert count == head;
        break;
      }
    }
    result := Received(count);
  }
}
