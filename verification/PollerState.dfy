/**
 The socket poller of libhdk/channel/impl/socket_poller_zmq.cpp as a state machine: one
 step for each control request and for each thing a poll turn can handle. `Poller` carries
 the state in objects; this module says what every run of the machine keeps.

 Handles are what the transport gives out. Addresses of socket records are a type
 parameter, so the same machine serves the class and the proofs.
 */
module PollerState {
  import opened Bytes
  import opened Peers

  type Handle = nat

  datatype Kind = Router | Dealer

  /**
   A socket_info_zmq: a channel's record, open while it holds its two sockets. `routes` is
   what a server's socket knows of its connections: the identities it can route to.
   */
  datatype Info<P> = Info(
    id: P, name: bytes, kind: Kind, socket: Option<Handle>, monitor: Option<Handle>, view: View, routes: set<bytes>)

  /** A record just created. */
  function Blank<P>(id: P, name: bytes, kind: Kind): Info<P> {
    Info(id, name, kind, None, None, NOBODY, {})
  }

  /**
   `running` turns false when an exception leaves the poll loop. The items are the handles
   of the poll vector, in order.
   */
  datatype State<P> = State(send: Handle, ctrl: Handle, items: seq<Handle>, sockets: seq<Info<P>>, running: bool)

  // ---------- Frames the poller writes and reads ----------

  const SOCKET_CONNECTED: nat := 4
  const SOCKET_SEND_DATA: nat := 5
  const SOCKET_RECV_DATA: nat := 6

  /** addtyp of a 32-bit value. */
  function U32(n: nat): (r: bytes)
    ensures |r| == 4
  {
    LittleEndian(n, 4)
  }

  function ReadU32(frame: bytes): nat {
    FromLittleEndian(frame)
  }

  /** What the poller asks of its surroundings. */
  datatype Output =
    | Transmit(socket: Handle, frames: seq<bytes>)
    | Post(typeId: nat, data: bytes, channel: bytes, sender: bytes, address: bytes)
    | PostStatus(connected: bool, channel: bytes, sender: bytes, address: bytes)

  // ---------- Inputs ----------

  /** How opening ends: the second and third outcomes raise out of the poll loop. */
  datatype Opening = Opened | MonitorFailed | EndpointFailed

  /** A received message with the descriptor and address the transport reports for it. */
  datatype Packet = Packet(frames: seq<bytes>, fd: int, address: bytes)

  datatype MonitorEvent = Connected(address: bytes) | Disconnected(fd: int, address: bytes) | Other

  datatype Input<P> =
    | Create(id: P, name: bytes, kind: Kind)
    | Open(id: P, data: Handle, monitor: Handle, opening: Opening)
    | Close(id: P)
    | Remove(id: P)
    /** `full` says which of the transmissions the transport has no room for. */
    | Send(id: P, peer: bytes, typeId: nat, payload: bytes, full: set<nat>)
    | Data(handle: Handle, packet: Option<Packet>)
    | Monitor(monitor: Handle, handle: Handle, event: MonitorEvent)
    /** Inside the transport a connection comes or goes; the poller is told of it later, if at all. */
    | Attach(handle: Handle, identity: bytes)
    | Detach(handle: Handle, identity: bytes)

  datatype Result<P> = Result(state: State<P>, outputs: seq<Output>)

  // ---------- Looking things up ----------

  /** Index of the record with the address, or the number of records. */
  function Position<P(==)>(sockets: seq<Info<P>>, id: P): (k: nat)
    ensures k <= |sockets|
    ensures k < |sockets| ==> sockets[k].id == id
    ensures forall j :: 0 <= j < k ==> sockets[j].id != id
  {
    if sockets == [] || sockets[0].id == id then 0 else 1 + Position(sockets[1..], id)
  }

  /** Index of the record whose data socket has the handle. */
  function Owner<P>(sockets: seq<Info<P>>, h: Handle): (k: nat)
    ensures k <= |sockets|
    ensures k < |sockets| ==> sockets[k].socket == Some(h)
    ensures forall j :: 0 <= j < k ==> sockets[j].socket != Some(h)
  {
    if sockets == [] || sockets[0].socket == Some(h) then 0 else 1 + Owner(sockets[1..], h)
  }

  function ItemPosition(items: seq<Handle>, h: Handle): (k: nat)
    ensures k <= |items|
    ensures k < |items| ==> items[k] == h
    ensures forall j :: 0 <= j < k ==> items[j] != h
  {
    if items == [] || items[0] == h then 0 else 1 + ItemPosition(items[1..], h)
  }

  // ---------- Steps ----------

  /** Erases the found item and its successor; past the end there would be nothing to erase. */
  function ErasePair(items: seq<Handle>, socket: Option<Handle>): seq<Handle> {
    match socket
    case None => items
    case Some(h) =>
      var k := ItemPosition(items, h);
      if k + 2 <= |items| then items[..k] + items[k + 2..] else items
  }

  function CloseInfo<P>(info: Info<P>): Info<P> {
    info.(socket := None, monitor := None, view := NOBODY, routes := {})
  }

  function Step<P(==)>(s: State<P>, input: Input<P>): Result<P> {
    if !s.running then Result(s, []) else
    match input
    case Create(id, name, kind) =>
      Result(s.(sockets := s.sockets + [Blank(id, name, kind)]), [])
    case Open(id, data, monitor, opening) =>
      var k := Position(s.sockets, id);
      if k == |s.sockets| then Result(s, [])
      else if opening.MonitorFailed? then
        Result(s.(sockets := s.sockets[k := s.sockets[k].(socket := Some(data))], running := false), [])
      else
        Result(s.(sockets := s.sockets[k := s.sockets[k].(socket := Some(data), monitor := Some(monitor))],
                  items := s.items + [data, monitor], running := opening.Opened?), [])
    case Close(id) =>
      var k := Position(s.sockets, id);
      if k == |s.sockets| then Result(s, [])
      else Result(Closing(s, k), [])
    case Remove(id) =>
      var k := Position(s.sockets, id);
      if k == |s.sockets| then Result(s, [])
      else
        var closed := if s.sockets[k].socket.Some? then Closing(s, k) else s;
        Result(closed.(sockets := closed.sockets[..k] + closed.sockets[k + 1..]), [])
    case Send(id, peer, typeId, payload, full) =>
      var k := Position(s.sockets, id);
      if k == |s.sockets| then Result(s, [])
      else
        var all := Transmissions(s.sockets[k], peer, typeId, payload);
        var n := BeforeRaise(s.sockets[k], all);
        Result(s.(running := n == |all|), Taken(all[..n], full))
    case Data(handle, packet) =>
      var k := Owner(s.sockets, handle);
      if k == |s.sockets| || packet.None? then Result(s, [])
      else
        var (info, outputs) := Receive(s.sockets[k], packet.value);
        Result(s.(sockets := s.sockets[k := info]), outputs)
    case Monitor(_, handle, event) =>
      var k := Owner(s.sockets, handle);
      if k == |s.sockets| then Result(s, [])
      else
        var (info, outputs) := Observe(s.sockets[k], event);
        Result(s.(sockets := s.sockets[k := info]), outputs)
    case Attach(handle, identity) => Result(Routing(s, handle, identity, true), [])
    case Detach(handle, identity) => Result(Routing(s, handle, identity, false), [])
  }

  function Rerouted<P>(info: Info<P>, identity: bytes, comes: bool): Info<P> {
    info.(routes := if comes then info.routes + {identity} else info.routes - {identity})
  }

  function Routing<P>(s: State<P>, handle: Handle, identity: bytes, comes: bool): State<P> {
    var k := Owner(s.sockets, handle);
    if k == |s.sockets| then s else s.(sockets := s.sockets[k := Rerouted(s.sockets[k], identity, comes)])
  }

  function Closing<P>(s: State<P>, k: nat): State<P>
    requires k < |s.sockets|
  {
    s.(items := ErasePair(s.items, s.sockets[k].socket), sockets := s.sockets[k := CloseInfo(s.sockets[k])])
  }

  /** The three ways of sending: to every peer of a server, from a client, to one peer. */
  function Transmissions<P>(info: Info<P>, peer: bytes, typeId: nat, payload: bytes): seq<Output> {
    var handle := Raw(info.socket);
    if peer != [] then [Transmit(handle, Addressed(peer, typeId, payload))]
    else if info.kind.Router? then
      seq(|info.view.peers|, i requires 0 <= i < |info.view.peers| =>
        Transmit(handle, Addressed(info.view.peers[i].id, typeId, payload)))
    else [Transmit(handle, [U32(SOCKET_RECV_DATA), U32(typeId), payload])]
  }

  /** What a router is given to send: the first frame picks the peer. */
  function Addressed(peer: bytes, typeId: nat, payload: bytes): (frames: seq<bytes>)
    ensures frames != []
  {
    [peer, U32(SOCKET_RECV_DATA), U32(typeId), payload]
  }

  /**
   Transmitting raises on a closed socket, whose handle is null, and on a server's, which is
   made to insist on delivery, when the identity in front is none it can route to.
   */
  predicate Raises<P>(info: Info<P>, message: Output) {
    info.socket.None?
    || (info.kind.Router? && message.Transmit? && message.frames != [] && message.frames[0] !in info.routes)
  }

  /** How many messages are dealt with before one raises. */
  function BeforeRaise<P>(info: Info<P>, all: seq<Output>): (n: nat)
    ensures n <= |all|
    ensures n < |all| ==> Raises(info, all[n])
    ensures forall i :: 0 <= i < n ==> !Raises(info, all[i])
  {
    if all == [] || Raises(info, all[0]) then 0 else 1 + BeforeRaise(info, all[1..])
  }

  /** The messages the transport takes: those it has no room for are refused, and lost without notice. */
  function Taken(all: seq<Output>, full: set<nat>): seq<Output>
    decreases |all|
  {
    if all == [] then []
    else
      var last := |all| - 1;
      Taken(all[..last], full) + if last in full then [] else [all[last]]
  }

  function Raw(socket: Option<Handle>): Handle {
    match socket
    case Some(h) => h
    case None => 0
  }

  /** Where the command frame is: a router finds the sender's identity in front of it. */
  function CommandAt(kind: Kind): nat {
    if kind.Dealer? then 0 else 1
  }

  /** What the far ends of this library send; anything else is not part of this model. */
  predicate WellFormedPacket(kind: Kind, frames: seq<bytes>) {
    var at := CommandAt(kind);
    |frames| < 2 ||
    (&& at < |frames| && |frames[at]| == 4
     && (ReadU32(frames[at]) == SOCKET_RECV_DATA ==> |frames| == at + 3 && |frames[at + 1]| == 4))
  }

  function Receive<P>(info: Info<P>, packet: Packet): (Info<P>, seq<Output>) {
    var frames, at := packet.frames, CommandAt(info.kind);
    if |frames| < 2 || !WellFormedPacket(info.kind, frames) then (info, [])
    else
      var sender := if info.kind.Dealer? then [0] else frames[0];
      if ReadU32(frames[at]) == SOCKET_CONNECTED then
        (info.(view := Adding(info.view, Peer(sender, packet.address, packet.fd))),
         [PostStatus(true, info.name, sender, packet.address)])
      else if ReadU32(frames[at]) == SOCKET_RECV_DATA then
        (info, [Post(ReadU32(frames[at + 1]), frames[at + 2], info.name, sender, packet.address)])
      else (info, [])
  }

  /** The peer a disconnect reports; blank when the list has none with the descriptor. */
  function Departed(v: View, fd: int): Peer {
    var k := First(v.peers, WithFd(fd));
    if k < |v.peers| then v.peers[k] else Peer([], [], 0)
  }

  function Observe<P>(info: Info<P>, event: MonitorEvent): (Info<P>, seq<Output>) {
    match event
    case Connected(address) =>
      (info.(view := info.view.(connected := true)),
       [Transmit(Raw(info.socket), [U32(SOCKET_CONNECTED)]), PostStatus(true, info.name, [], address)])
    case Disconnected(fd, address) =>
      if info.kind.Router? then
        (info.(view := Removing(info.view, WithFd(fd))),
         [PostStatus(false, info.name, Departed(info.view, fd).id, Departed(info.view, fd).address)])
      else
        (info.(view := info.view.(connected := false)), [PostStatus(false, info.name, [], address)])
    case Other => (info, [])
  }

  // ---------- Assumptions about the surroundings ----------

  predicate InUse<P>(s: State<P>, h: Handle) {
    h in s.items || h == s.send || h == s.ctrl
  }

  /**
   Requests name live records and create fresh ones; the transport gives out fresh
   handles; open is issued only for a closed record, which nothing in the code checks;
   CONNECTED reaches dealers only; messages and events arrive on polled pairs.
   */
  predicate Legal<P(==)>(s: State<P>, input: Input<P>) {
    match input
    case Create(id, _, _) => Position(s.sockets, id) == |s.sockets|
    case Open(id, data, monitor, _) =>
      var k := Position(s.sockets, id);
      && k < |s.sockets| && s.sockets[k].socket.None?
      && !InUse(s, data) && !InUse(s, monitor) && data != monitor
    case Close(id) => Position(s.sockets, id) < |s.sockets|
    case Remove(id) => Position(s.sockets, id) < |s.sockets|
    case Send(id, _, _, _, _) => Position(s.sockets, id) < |s.sockets|
    case Data(handle, packet) =>
      var k := Owner(s.sockets, handle);
      k < |s.sockets| && (packet.Some? ==> WellFormedPacket(s.sockets[k].kind, packet.value.frames))
    case Monitor(monitor, handle, event) =>
      var k := Owner(s.sockets, handle);
      k < |s.sockets| && s.sockets[k].monitor == Some(monitor) && (event.Connected? ==> s.sockets[k].kind.Dealer?)
    case Attach(handle, _) => Owner(s.sockets, handle) < |s.sockets|
    case Detach(handle, _) => Owner(s.sockets, handle) < |s.sockets|
  }

  // ---------- The invariant ----------

  predicate PairAt(items: seq<Handle>, i: nat, data: Handle, monitor: Handle) {
    i >= 2 && i % 2 == 0 && i + 1 < |items| && items[i] == data && items[i + 1] == monitor
  }

  /** [send, ctrl] and then adjacent pairs, no handle twice. */
  ghost predicate Shape<P>(s: State<P>) {
    && |s.items| >= 2 && |s.items| % 2 == 0 && s.items[0] == s.send && s.items[1] == s.ctrl
    && forall i, j :: 0 <= i < j < |s.items| ==> s.items[i] != s.items[j]
  }

  /** A record has both sockets or neither, and knows peers and connections only while it has them. */
  ghost predicate Sound<P>(info: Info<P>) {
    && info.socket.Some? == info.monitor.Some?
    && (info.socket.None? ==> info.view == NOBODY && info.routes == {})
  }

  ghost predicate Records<P>(s: State<P>) {
    && (forall j, k :: 0 <= j < k < |s.sockets| ==> s.sockets[j].id != s.sockets[k].id)
    && (forall j, k :: 0 <= j < k < |s.sockets| && s.sockets[j].socket.Some? ==>
          s.sockets[j].socket != s.sockets[k].socket)
    && (forall k :: 0 <= k < |s.sockets| ==> Sound(s.sockets[k]))
  }

  ghost predicate OwnsPair<P>(items: seq<Handle>, info: Info<P>) {
    info.socket.Some? && info.monitor.Some? ==> exists i :: PairAt(items, i, info.socket.value, info.monitor.value)
  }

  ghost predicate Owns<P>(info: Info<P>, data: Handle, monitor: Handle) {
    info.socket == Some(data) && info.monitor == Some(monitor)
  }

  ghost predicate PairOwned<P>(sockets: seq<Info<P>>, data: Handle, monitor: Handle) {
    exists k :: 0 <= k < |sockets| && Owns(sockets[k], data, monitor)
  }

  /** Every open record owns a pair of the vector, and every pair is owned. */
  ghost predicate Ownership<P>(s: State<P>) {
    && (forall k :: 0 <= k < |s.sockets| ==> OwnsPair(s.items, s.sockets[k]))
    && (forall i :: 2 <= i < |s.items| - 1 && i % 2 == 0 ==> PairOwned(s.sockets, s.items[i], s.items[i + 1]))
  }

  ghost predicate Layout<P>(s: State<P>) {
    Shape(s) && Records(s) && Ownership(s)
  }

  ghost predicate Inv<P>(s: State<P>) {
    s.running ==> Layout(s)
  }

  function Initial<P>(send: Handle, ctrl: Handle): State<P> {
    State(send, ctrl, [send, ctrl], [], true)
  }

  // ---------- Every step keeps the invariant ----------

  lemma PositionIs<P>(sockets: seq<Info<P>>, id: P, k: nat)
    requires k < |sockets| && sockets[k].id == id
    requires forall i, j :: 0 <= i < j < |sockets| ==> sockets[i].id != sockets[j].id
    ensures Position(sockets, id) == k
  {
  }

  lemma OwnerIs<P>(s: State<P>, k: nat)
    requires Records(s) && k < |s.sockets| && s.sockets[k].socket.Some?
    ensures Owner(s.sockets, s.sockets[k].socket.value) == k
  {
  }

  /** Looking for an open record's data socket finds its pair, behind the first two items. */
  lemma FoundPair<P>(s: State<P>, k: nat)
    requires Layout(s) && k < |s.sockets| && s.sockets[k].socket.Some?
    ensures s.sockets[k].monitor.Some?
    ensures var i := ItemPosition(s.items, s.sockets[k].socket.value);
            PairAt(s.items, i, s.sockets[k].socket.value, s.sockets[k].monitor.value)
  {
    var info := s.sockets[k];
    assert Sound(info) && OwnsPair(s.items, info);
    var i: nat :| PairAt(s.items, i, info.socket.value, info.monitor.value);
    hide Records, Ownership, ItemPosition, OwnsPair;
    assert ItemPosition(s.items, info.socket.value) == i;
  }

  /** The record at k is replaced by one with the same sockets. */
  lemma SameSocketsKeep<P>(s: State<P>, k: nat, info: Info<P>)
    requires Layout(s) && k < |s.sockets| && Sound(info)
    requires info.id == s.sockets[k].id && info.socket == s.sockets[k].socket && info.monitor == s.sockets[k].monitor
    ensures Layout(s.(sockets := s.sockets[k := info]))
  {
    var t := s.(sockets := s.sockets[k := info]);
    assert Records(t);
    assert OwnsPair(s.items, s.sockets[k]);
    assert OwnsPair(t.items, info);
    forall i | 2 <= i < |t.items| - 1 && i % 2 == 0 ensures PairOwned(t.sockets, t.items[i], t.items[i + 1]) {
      assert PairOwned(s.sockets, s.items[i], s.items[i + 1]);
      var j :| 0 <= j < |s.sockets| && Owns(s.sockets[j], s.items[i], s.items[i + 1]);
      assert Owns(t.sockets[j], t.items[i], t.items[i + 1]);
    }
  }

  lemma OwnsPairGrows<P>(items: seq<Handle>, more: seq<Handle>, info: Info<P>)
    requires OwnsPair(items, info)
    ensures OwnsPair(items + more, info)
  {
    if info.socket.Some? && info.monitor.Some? {
      var i: nat :| PairAt(items, i, info.socket.value, info.monitor.value);
      assert PairAt(items + more, i, info.socket.value, info.monitor.value);
    }
  }

  lemma PairOwnedGrows<P>(sockets: seq<Info<P>>, after: seq<Info<P>>, k: nat, data: Handle, monitor: Handle)
    requires PairOwned(sockets, data, monitor) && k < |sockets| && !sockets[k].socket.Some?
    requires |after| == |sockets| && forall j :: 0 <= j < |sockets| && j != k ==> after[j] == sockets[j]
    ensures PairOwned(after, data, monitor)
  {
    var j :| 0 <= j < |sockets| && Owns(sockets[j], data, monitor);
    assert Owns(after[j], data, monitor);
  }

  lemma FreshSocket<P>(s: State<P>, data: Handle)
    requires Layout(s) && !InUse(s, data)
    ensures forall j :: 0 <= j < |s.sockets| ==> s.sockets[j].socket != Some(data)
  {
    forall j | 0 <= j < |s.sockets| ensures s.sockets[j].socket != Some(data) {
      if s.sockets[j].socket.Some? {
        FoundPair(s, j);
      }
    }
  }

  lemma OpenKeeps<P>(s: State<P>, k: nat, data: Handle, monitor: Handle)
    requires Layout(s) && k < |s.sockets| && s.sockets[k].socket.None?
    requires !InUse(s, data) && !InUse(s, monitor) && data != monitor
    ensures Layout(s.(sockets := s.sockets[k := s.sockets[k].(socket := Some(data), monitor := Some(monitor))],
                      items := s.items + [data, monitor]))
  {
    var info := s.sockets[k].(socket := Some(data), monitor := Some(monitor));
    var t := s.(sockets := s.sockets[k := info], items := s.items + [data, monitor]);
    assert Shape(t);
    FreshSocket(s, data);
    assert Records(t);
    forall j | 0 <= j < |t.sockets| ensures OwnsPair(t.items, t.sockets[j]) {
      if j == k {
        assert PairAt(t.items, |s.items|, data, monitor);
      } else {
        OwnsPairGrows(s.items, [data, monitor], s.sockets[j]);
      }
    }
    forall i | 2 <= i < |t.items| - 1 && i % 2 == 0 ensures PairOwned(t.sockets, t.items[i], t.items[i + 1]) {
      if i < |s.items| {
        PairOwnedGrows(s.sockets, t.sockets, k, s.items[i], s.items[i + 1]);
      } else {
        assert Owns(t.sockets[k], t.items[i], t.items[i + 1]);
      }
    }
  }

  /** Erasing a pair at an even place behind the first two leaves a well-shaped vector. */
  lemma ShapeErase<P>(s: State<P>, p: nat)
    requires Shape(s) && 2 <= p < |s.items| && p % 2 == 0
    ensures p + 2 <= |s.items| && Shape(s.(items := s.items[..p] + s.items[p + 2..]))
  {
  }

  lemma OwnsPairErase<P>(items: seq<Handle>, p: nat, info: Info<P>)
    requires OwnsPair(items, info) && 2 <= p && p % 2 == 0 && p + 2 <= |items| && info.socket != Some(items[p])
    ensures OwnsPair(items[..p] + items[p + 2..], info)
  {
    if info.socket.Some? && info.monitor.Some? {
      var after := items[..p] + items[p + 2..];
      var i: nat :| PairAt(items, i, info.socket.value, info.monitor.value);
      assert i != p;
      if i < p {
        assert PairAt(after, i, info.socket.value, info.monitor.value);
      } else {
        assert i >= p + 2 && after[i - 2] == items[i] && after[i - 1] == items[i + 1];
        assert (i - 2) % 2 == 0;
        assert PairAt(after, i - 2, info.socket.value, info.monitor.value);
      }
    }
  }

  lemma ClosingIs<P>(s: State<P>, k: nat, p: nat)
    requires k < |s.sockets| && s.sockets[k].socket.Some? && p + 2 <= |s.items|
    requires ItemPosition(s.items, s.sockets[k].socket.value) == p
    ensures Closing(s, k)
         == s.(items := s.items[..p] + s.items[p + 2..], sockets := s.sockets[k := CloseInfo(s.sockets[k])])
  {
  }

  lemma RecordsAfterClose<P>(s: State<P>, k: nat)
    requires Records(s) && k < |s.sockets|
    ensures Records(s.(sockets := s.sockets[k := CloseInfo(s.sockets[k])]))
  {
  }

  lemma OwnersAfterClose<P>(s: State<P>, k: nat, p: nat)
    requires Records(s) && Ownership(s) && k < |s.sockets| && 2 <= p && p % 2 == 0 && p + 2 <= |s.items|
    requires s.sockets[k].socket == Some(s.items[p])
    ensures var items, sockets := s.items[..p] + s.items[p + 2..], s.sockets[k := CloseInfo(s.sockets[k])];
            forall j :: 0 <= j < |sockets| ==> OwnsPair(items, sockets[j])
  {
    var items, sockets := s.items[..p] + s.items[p + 2..], s.sockets[k := CloseInfo(s.sockets[k])];
    forall j | 0 <= j < |sockets| ensures OwnsPair(items, sockets[j]) {
      if j != k {
        assert s.sockets[j].socket != s.sockets[k].socket;
        OwnsPairErase(s.items, p, s.sockets[j]);
      }
    }
  }

  lemma PairsAfterClose<P>(s: State<P>, k: nat, p: nat, i: nat)
    requires Shape(s) && Ownership(s) && k < |s.sockets| && 2 <= p && p % 2 == 0 && p + 2 <= |s.items|
    requires s.sockets[k].socket == Some(s.items[p])
    requires 2 <= i < |s.items| - 3 && i % 2 == 0
    ensures var items, sockets := s.items[..p] + s.items[p + 2..], s.sockets[k := CloseInfo(s.sockets[k])];
            PairOwned(sockets, items[i], items[i + 1])
  {
    var items, sockets := s.items[..p] + s.items[p + 2..], s.sockets[k := CloseInfo(s.sockets[k])];
    var i' := if i < p then i else i + 2;
    assert items[i] == s.items[i'] && items[i + 1] == s.items[i' + 1];
    assert s.items[i'] != s.items[p];
    PairOwnedElsewhere(s.sockets, sockets, k, s.items[i'], s.items[i' + 1]);
  }

  lemma CloseOpenKeeps<P>(s: State<P>, k: nat)
    requires Layout(s) && k < |s.sockets| && s.sockets[k].socket.Some?
    ensures Layout(Closing(s, k))
  {
    FoundPair(s, k);
    var p := ItemPosition(s.items, s.sockets[k].socket.value);
    ClosingIs(s, k, p);
    ShapeErase(s, p);
    RecordsAfterClose(s, k);
    OwnersAfterClose(s, k, p);
    hide Closing, CloseInfo, OwnsPair, PairOwned, Sound, ItemPosition;
    var t := Closing(s, k);
    forall i | 2 <= i < |t.items| - 1 && i % 2 == 0 ensures PairOwned(t.sockets, t.items[i], t.items[i + 1]) {
      PairsAfterClose(s, k, p, i);
    }
  }

  lemma PairOwnedElsewhere<P>(sockets: seq<Info<P>>, after: seq<Info<P>>, k: nat, data: Handle, monitor: Handle)
    requires PairOwned(sockets, data, monitor) && k < |sockets| && sockets[k].socket != Some(data)
    requires |after| == |sockets| && forall j :: 0 <= j < |sockets| && j != k ==> after[j] == sockets[j]
    ensures PairOwned(after, data, monitor)
  {
    var j :| 0 <= j < |sockets| && Owns(sockets[j], data, monitor);
    assert Owns(after[j], data, monitor);
  }

  lemma ClosingUnfold<P>(s: State<P>, k: nat)
    requires k < |s.sockets|
    ensures Closing(s, k) == s.(items := ErasePair(s.items, s.sockets[k].socket),
                                sockets := s.sockets[k := CloseInfo(s.sockets[k])])
    ensures s.sockets[k].socket.None? ==> ErasePair(s.items, s.sockets[k].socket) == s.items
  {
  }

  lemma CloseKeeps<P>(s: State<P>, k: nat)
    requires Layout(s) && k < |s.sockets|
    ensures Layout(Closing(s, k))
  {
    if s.sockets[k].socket.Some? {
      CloseOpenKeeps(s, k);
    } else {
      assert Sound(s.sockets[k]);
      assert Closing(s, k).sockets == s.sockets;
    }
  }

  lemma DropRecords<P>(s: State<P>, k: nat)
    requires Records(s) && k < |s.sockets|
    ensures Records(s.(sockets := s.sockets[..k] + s.sockets[k + 1..]))
  {
    var t := s.(sockets := s.sockets[..k] + s.sockets[k + 1..]);
    assert forall j :: 0 <= j < |t.sockets| ==> t.sockets[j] == s.sockets[if j < k then j else j + 1];
  }

  lemma DropOwners<P>(s: State<P>, k: nat)
    requires Ownership(s) && k < |s.sockets| && s.sockets[k].socket.None?
    ensures Ownership(s.(sockets := s.sockets[..k] + s.sockets[k + 1..]))
  {
    var t := s.(sockets := s.sockets[..k] + s.sockets[k + 1..]);
    forall j | 0 <= j < |t.sockets| ensures OwnsPair(t.items, t.sockets[j]) {
      assert t.sockets[j] == s.sockets[if j < k then j else j + 1];
      assert OwnsPair(s.items, s.sockets[if j < k then j else j + 1]);
    }
    hide OwnsPair;
    forall i | 2 <= i < |t.items| - 1 && i % 2 == 0 ensures PairOwned(t.sockets, t.items[i], t.items[i + 1]) {
      assert PairOwned(s.sockets, s.items[i], s.items[i + 1]);
      var j :| 0 <= j < |s.sockets| && Owns(s.sockets[j], s.items[i], s.items[i + 1]);
      assert Owns(t.sockets[if j < k then j else j - 1], t.items[i], t.items[i + 1]);
    }
  }

  lemma DropKeeps<P>(s: State<P>, k: nat)
    requires Layout(s) && k < |s.sockets| && s.sockets[k].socket.None?
    ensures Layout(s.(sockets := s.sockets[..k] + s.sockets[k + 1..]))
  {
    hide Records, Ownership;
    DropRecords(s, k);
    DropOwners(s, k);
  }

  lemma CreateKeeps<P>(s: State<P>, id: P, name: bytes, kind: Kind)
    requires Layout(s) && Position(s.sockets, id) == |s.sockets|
    ensures Layout(s.(sockets := s.sockets + [Blank(id, name, kind)]))
  {
    var t := s.(sockets := s.sockets + [Blank(id, name, kind)]);
    assert Records(t);
    forall i | 2 <= i < |t.items| - 1 && i % 2 == 0 ensures PairOwned(t.sockets, t.items[i], t.items[i + 1]) {
      assert PairOwned(s.sockets, s.items[i], s.items[i + 1]);
      var j :| 0 <= j < |s.sockets| && Owns(s.sockets[j], s.items[i], s.items[i + 1]);
      assert Owns(t.sockets[j], t.items[i], t.items[i + 1]);
    }
  }

  lemma RemoveKeeps<P>(s: State<P>, id: P)
    requires s.running && Layout(s) && Legal(s, Remove(id))
    ensures Layout(Step(s, Remove(id)).state)
  {
    hide Layout, Closing;
    var k := Position(s.sockets, id);
    if s.sockets[k].socket.Some? {
      CloseKeeps(s, k);
      ClosedAt(s, k);
      DropKeeps(Closing(s, k), k);
    } else {
      DropKeeps(s, k);
    }
  }

  lemma RemoveUnfold<P>(s: State<P>, id: P)
    requires s.running && Legal(s, Remove(id))
    ensures var k := Position(s.sockets, id);
            var closed := if s.sockets[k].socket.Some? then Closing(s, k) else s;
            k < |closed.sockets| &&
            Step(s, Remove(id)).state == closed.(sockets := closed.sockets[..k] + closed.sockets[k + 1..])
  {
  }

  lemma ClosedAt<P>(s: State<P>, k: nat)
    requires k < |s.sockets|
    ensures |Closing(s, k).sockets| == |s.sockets| && Closing(s, k).sockets[k].socket.None?
  {
  }

  /** Handling a message or an event changes what a record knows of its peers, no more. */
  lemma HandlingFrame<P>(info: Info<P>, packet: Packet, event: MonitorEvent)
    ensures Receive(info, packet).0 == info.(view := Receive(info, packet).0.view)
    ensures Observe(info, event).0 == info.(view := Observe(info, event).0.view)
  {
  }

  lemma NewViewSound<P>(s: State<P>, h: Handle, v: View)
    requires Layout(s) && Owner(s.sockets, h) < |s.sockets|
    ensures Sound(s.sockets[Owner(s.sockets, h)].(view := v))
  {
  }

  lemma ReroutedKeeps<P>(s: State<P>, h: Handle, identity: bytes, comes: bool)
    requires Layout(s) && Owner(s.sockets, h) < |s.sockets|
    ensures Layout(Routing(s, h, identity, comes))
  {
    var k := Owner(s.sockets, h);
    assert Sound(s.sockets[k]);
    SameSocketsKeep(s, k, Rerouted(s.sockets[k], identity, comes));
  }

  /** Every legal step keeps the invariant. */
  lemma StepKeeps<P>(s: State<P>, input: Input<P>)
    requires Inv(s) && Legal(s, input)
    ensures Inv(Step(s, input).state)
  {
    hide Layout, Closing, Receive, Observe, Transmissions;
    if s.running {
      match input
      case Create(id, name, kind) => CreateKeeps(s, id, name, kind);
      case Open(id, data, monitor, opening) =>
        if opening.Opened? {
          OpenKeeps(s, Position(s.sockets, id), data, monitor);
        }
      case Close(id) => CloseKeeps(s, Position(s.sockets, id));
      case Remove(id) => RemoveKeeps(s, id);
      case Send(_, _, _, _, _) =>
      case Data(handle, packet) =>
        var k := Owner(s.sockets, handle);
        if packet.Some? {
          HandlingFrame(s.sockets[k], packet.value, Other);
          NewViewSound(s, handle, Receive(s.sockets[k], packet.value).0.view);
          SameSocketsKeep(s, k, Receive(s.sockets[k], packet.value).0);
        }
      case Monitor(_, handle, event) =>
        var k := Owner(s.sockets, handle);
        HandlingFrame(s.sockets[k], Packet([], 0, []), event);
        NewViewSound(s, handle, Observe(s.sockets[k], event).0.view);
        SameSocketsKeep(s, k, Observe(s.sockets[k], event).0);
      case Attach(handle, identity) => ReroutedKeeps(s, handle, identity, true);
      case Detach(handle, identity) => ReroutedKeeps(s, handle, identity, false);
    }
  }

  // ---------- Runs ----------

  function Run<P(==)>(s: State<P>, inputs: seq<Input<P>>): State<P>
    decreases inputs
  {
    if inputs == [] then s else Run(Step(s, inputs[0]).state, inputs[1..])
  }

  predicate LegalRun<P(==)>(s: State<P>, inputs: seq<Input<P>>)
    decreases inputs
  {
    inputs == [] || (Legal(s, inputs[0]) && LegalRun(Step(s, inputs[0]).state, inputs[1..]))
  }

  lemma {:induction false} RunKeeps<P>(s: State<P>, inputs: seq<Input<P>>)
    requires Inv(s) && LegalRun(s, inputs)
    ensures Inv(Run(s, inputs))
    decreases inputs
  {
    if inputs != [] {
      StepKeeps(s, inputs[0]);
      RunKeeps(Step(s, inputs[0]).state, inputs[1..]);
    }
  }

  /** In every run from start-up the layout holds as long as the poll loop is alive. */
  lemma EveryRun<P>(send: Handle, ctrl: Handle, inputs: seq<Input<P>>)
    requires send != ctrl && LegalRun(Initial(send, ctrl), inputs)
    ensures Inv(Run(Initial(send, ctrl), inputs))
  {
    RunKeeps(Initial(send, ctrl), inputs);
  }
}
