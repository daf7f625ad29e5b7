/**
 A message's way from one channel object to the far side's brokers: the request a channel
 hands its poller (libhdk/channel/impl/channel_impl_zmq.cpp), the frames the poller puts on
 the wire, and what the far poller makes of them.

 Between the two ends stands the ROUTER and DEALER framing of ZeroMQ RFC 28/REQREP: a
 ROUTER prepends the sender's identity to what it receives and takes the first frame of
 what it sends as the destination; a DEALER does neither.
 */
module Wire {
  import opened Bytes
  import opened Peers
  import opened PollerState
  import opened PollerRuns
  import opened Framing
  import D = Delivery
  import BrokerRegistry
  import opened Marshal
  import opened MarshalStream

  type Address = nat

  const ADDRESS_WIDTH: nat := 8

  // ---------- RFC 28/REQREP ----------

  function RouterReceives(identity: bytes, frames: seq<bytes>): seq<bytes> {
    [identity] + frames
  }

  datatype Routed = Routed(destination: bytes, content: seq<bytes>)

  function RouterSends(frames: seq<bytes>): Routed
    requires frames != []
  {
    Routed(frames[0], frames[1..])
  }

  // ---------- Between a channel and its poller ----------

  /** channel_impl_zmq::send */
  function SendRequest(info: Address, peer: bytes, typeId: nat, payload: bytes): seq<bytes> {
    [U32(SOCKET_SEND_DATA), LittleEndian(info, ADDRESS_WIDTH), peer, U32(typeId), payload]
  }

  /** parse_socket_create answers the requester with the address of the new record. */
  function CreationReply(requester: bytes, info: Address): seq<bytes> {
    [requester, LittleEndian(info, ADDRESS_WIDTH)]
  }

  /** The reply reaches the one who asked, and tells it the record's address. */
  lemma CreationReplyArrives(requester: bytes, info: Address)
    requires info < Capacity(ADDRESS_WIDTH)
    ensures var routed := RouterSends(CreationReply(requester, info));
            && routed.destination == requester && |routed.content| == 1
            && FromLittleEndian(routed.content[0]) == info
  {
    LittleEndianRoundTrip(info, ADDRESS_WIDTH);
  }

  /** A channel_impl_zmq, which keeps the address of its record in the poller. */
  class Channel {
    var info: Address

    /** The end of the constructor: the poller's reply is a single frame. */
    constructor (reply: bytes)
      ensures info == FromLittleEndian(reply)
    {
      info := FromLittleEndian(reply);
    }

    /** Sends without waiting: the poller gets the request, or the message is silently gone. */
    method Send(socket: Pipe, typeId: nat, payload: bytes, peer: bytes)
      requires socket.Valid() && socket.pending == []
      modifies socket
      ensures socket.Valid() && socket.pending == [] && socket.writable == old(socket.writable)
      ensures socket.Readable() == old(socket.Readable())
                                   + if socket.writable then [SendRequest(info, peer, typeId, payload)] else []
    {
      var message := new Multipart();
      message.Add(U32(SOCKET_SEND_DATA));
      message.Add(LittleEndian(info, ADDRESS_WIDTH));
      message.Add(peer);
      message.Add(U32(typeId));
      message.Add(payload);
      assert message.parts == SendRequest(info, peer, typeId, payload);
      var _ := message.Send(socket);
    }
  }

  const SEND_PACKET_SIZE: nat := 6

  /**
   The head of parse_send_data: the identity the router added, then the request. What the
   transport will have no room for is not part of it.
   */
  function ReadSendRequest(frames: seq<bytes>, full: set<nat>): Option<Input<Address>> {
    if |frames| != SEND_PACKET_SIZE then None
    else if ReadU32(frames[1]) != SOCKET_SEND_DATA then None
    else Some(Send(FromLittleEndian(frames[2]), frames[3], ReadU32(frames[4]), frames[5], full))
  }

  lemma U32RoundTrip(n: nat)
    requires n < Capacity(4)
    ensures ReadU32(U32(n)) == n
  {
    LittleEndianRoundTrip(n, 4);
  }

  lemma Commands()
    ensures ReadU32(U32(SOCKET_SEND_DATA)) == SOCKET_SEND_DATA
    ensures ReadU32(U32(SOCKET_CONNECTED)) == SOCKET_CONNECTED
    ensures ReadU32(U32(SOCKET_RECV_DATA)) == SOCKET_RECV_DATA
  {
    SizeCapacity();
    U32RoundTrip(SOCKET_SEND_DATA);
    U32RoundTrip(SOCKET_CONNECTED);
    U32RoundTrip(SOCKET_RECV_DATA);
  }

  /** A send request reaches the poller as the channel wrote it. */
  lemma SendRequestArrives(
    requester: bytes, info: Address, peer: bytes, typeId: nat, payload: bytes, full: set<nat>)
    requires info < Capacity(ADDRESS_WIDTH) && typeId < Capacity(4)
    ensures ReadSendRequest(RouterReceives(requester, SendRequest(info, peer, typeId, payload)), full)
         == Some(Send(info, peer, typeId, payload, full))
  {
    Commands();
    U32RoundTrip(typeId);
    LittleEndianRoundTrip(info, ADDRESS_WIDTH);
  }

  /** The request of a channel as its poller reads it. */
  ghost function AsRead(
    requester: bytes, info: Address, peer: bytes, typeId: nat, payload: bytes, full: set<nat>): (r: Input<Address>)
    requires info < Capacity(ADDRESS_WIDTH) && typeId < Capacity(4)
    ensures r == Send(info, peer, typeId, payload, full)
  {
    SendRequestArrives(requester, info, peer, typeId, payload, full);
    ReadSendRequest(RouterReceives(requester, SendRequest(info, peer, typeId, payload)), full).value
  }

  // ---------- What is read, and what is ignored ----------

  /** Four bytes say a small number exactly when they are it and three zeros. */
  lemma SmallU32(frame: bytes, n: byte)
    requires |frame| == 4
    ensures ReadU32(frame) == n as nat <==> frame == [n, 0, 0, 0]
    ensures U32(n as nat) == [n, 0, 0, 0]
  {
    FromLittleEndianRoundTrip(frame);
    assert LittleEndian(n as nat, 4) == [n, 0, 0, 0] by {
      assert LittleEndian(0, 2) == [0, 0];
    }
    SizeCapacity();
    LittleEndianRoundTrip(n as nat, 4);
  }

  /** What the poller takes for a send request is one a channel could have written, and it reads just that request. */
  lemma RequestExactly(frames: seq<bytes>, full: set<nat>)
    requires |frames| == 6 ==> |frames[1]| == 4 && |frames[2]| == 8 && |frames[4]| == 4
    ensures var r := ReadSendRequest(frames, full);
            && (r.Some? <==> |frames| == 6 && frames[1] == [5, 0, 0, 0])
            && (r.Some? ==>
                  && r.value.Send? && r.value.full == full
                  && frames == RouterReceives(frames[0],
                       SendRequest(r.value.id, r.value.peer, r.value.typeId, r.value.payload)))
  {
    if |frames| == 6 {
      SmallU32(frames[1], 5);
      FromLittleEndianRoundTrip(frames[2]);
      FromLittleEndianRoundTrip(frames[4]);
    }
  }

  /**
   What a record makes of a message of the far side: a single frame and unknown commands
   are ignored; a greeting adds the peer that sent it and is announced; data is posted. A
   client has no identity in front, and calls its server by a single zero byte.
   */
  lemma ReceivedExactly<P>(info: Info<P>, packet: Packet)
    requires WellFormedPacket(info.kind, packet.frames)
    ensures var (frames, r) := (packet.frames, Receive(info, packet));
            var at := if info.kind.Dealer? then 0 else 1;
            var sender := if info.kind.Dealer? || frames == [] then [0] else frames[0];
            if |frames| >= 2 && frames[at] == [4, 0, 0, 0] then
              && r.0 == info.(view := Adding(info.view, Peer(sender, packet.address, packet.fd)))
              && r.1 == [PostStatus(true, info.name, sender, packet.address)]
            else if |frames| >= 2 && frames[at] == [6, 0, 0, 0] then
              && |frames| == at + 3 && |frames[at + 1]| == 4
              && r.0 == info
              && r.1 == [Post(FromLittleEndian(frames[at + 1]), frames[at + 2], info.name, sender, packet.address)]
            else r == (info, [])
  {
    if |packet.frames| >= 2 {
      SmallU32(packet.frames[CommandAt(info.kind)], 4);
      SmallU32(packet.frames[CommandAt(info.kind)], 6);
    }
  }

  // ---------- From record to record ----------

  lemma DataAtServer<P>(server: Info<P>, identity: bytes, typeId: nat, payload: bytes, fd: int, address: bytes)
    requires server.kind.Router? && typeId < Capacity(4)
    ensures var frames := RouterReceives(identity, [U32(SOCKET_RECV_DATA), U32(typeId), payload]);
            && WellFormedPacket(server.kind, frames)
            && Receive(server, Packet(frames, fd, address))
               == (server, [Post(typeId, payload, server.name, identity, address)])
  {
    Commands();
    U32RoundTrip(typeId);
  }

  lemma DataAtClient<P>(client: Info<P>, typeId: nat, payload: bytes, fd: int, address: bytes)
    requires client.kind.Dealer? && typeId < Capacity(4)
    ensures var frames := [U32(SOCKET_RECV_DATA), U32(typeId), payload];
            && WellFormedPacket(client.kind, frames)
            && Receive(client, Packet(frames, fd, address))
               == (client, [Post(typeId, payload, client.name, [0], address)])
  {
    Commands();
    U32RoundTrip(typeId);
  }

  /** A client's greeting adds it to the server's peers under its own identity. */
  lemma HandshakeAtServer<P>(client: Info<P>, server: Info<P>, identity: bytes, fd: int, address: bytes, remote: bytes)
    requires client.kind.Dealer? && client.socket.Some? && server.kind.Router?
    ensures var (_, sent) := Observe(client, Connected(remote));
            && sent[0] == Transmit(client.socket.value, [U32(SOCKET_CONNECTED)])
            && var (after, posted) := Receive(server, Packet(RouterReceives(identity, sent[0].frames), fd, address));
               && after.view == Adding(server.view, Peer(identity, address, fd))
               && posted == [PostStatus(true, server.name, identity, address)]
  {
    Commands();
  }

  // ---------- From poller to poller ----------

  /** The record a handle belongs to, and that it is the only one. */
  ghost predicate Serves<P>(s: State<P>, h: Handle, info: Info<P>) {
    && s.running && Layout(s)
    && Owner(s.sockets, h) < |s.sockets| && s.sockets[Owner(s.sockets, h)] == info
  }

  lemma ReceiveStep<P>(s: State<P>, h: Handle, info: Info<P>, packet: Packet, outputs: seq<Output>)
    requires Serves(s, h, info) && WellFormedPacket(info.kind, packet.frames)
    requires Receive(info, packet) == (info, outputs)
    ensures Legal(s, Data(h, Some(packet)))
    ensures Step(s, Data(h, Some(packet))) == Result(s, outputs)
  {
    hide Receive, WellFormedPacket, Layout;
    var k := Owner(s.sockets, h);
    assert s.sockets[k := info] == s.sockets;
  }

  // ---------- The far end of a client ----------

  /** A connection's far end: the process, its socket and record, and what is known of the connection there. */
  datatype End = End(state: State<Address>, handle: Handle, info: Info<Address>, fd: int, address: bytes)

  /** A client's connection: the identity it has at the server, and the server. */
  datatype Link = Link(identity: bytes, end: End)

  /** Where the clients' sockets lead. */
  type Links = map<Handle, Link>

  ghost predicate Leads(links: Links) {
    forall h :: h in links ==>
      var end := links[h].end; Serves(end.state, end.handle, end.info) && end.info.kind.Router?
  }

  /** What becomes of a client's transmission at the server its socket leads to. */
  function Delivered(links: Links, sent: Output): Result<Address>
    requires sent.Transmit? && sent.socket in links
  {
    var link := links[sent.socket];
    var end := link.end;
    Step(end.state, Data(end.handle, Some(Packet(RouterReceives(link.identity, sent.frames), end.fd, end.address))))
  }

  /** An open client's record, and the connection its socket has. */
  ghost predicate Client(c: State<Address>, info: Address, links: Links) {
    && c.running && info < Capacity(ADDRESS_WIDTH) && Lookup(c, info).Some?
    && Lookup(c, info).value.kind.Dealer? && Lookup(c, info).value.socket.Some?
    && Lookup(c, info).value.socket.value in links && Leads(links)
  }

  ghost function LinkOf(c: State<Address>, info: Address, links: Links): Link
    requires Client(c, info, links)
  {
    links[Lookup(c, info).value.socket.value]
  }

  /**
   What a client sends without naming a receiver is posted at the server it is connected to,
   with the same type and bytes, under the identity it has there and the server's channel
   name; unless the transport has no room for it, and then it is lost. Either way the loop
   goes on.
   */
  lemma ClientReachesServer(
    c: State<Address>, info: Address, links: Links, requester: bytes, typeId: nat, payload: bytes, full: set<nat>)
    requires Client(c, info, links) && typeId < Capacity(4)
    ensures var request := AsRead(requester, info, [], typeId, payload, full);
            var sent, link := Step(c, request), LinkOf(c, info, links);
            && sent.state == c && |sent.outputs| == (if 0 in full then 0 else 1)
            && (0 !in full ==>
                  && sent.outputs[0].Transmit? && sent.outputs[0].socket in links
                  && Delivered(links, sent.outputs[0]) == Result(link.end.state,
                       [Post(typeId, payload, link.end.info.name, link.identity, link.end.address)]))
  {
    var link := LinkOf(c, info, links);
    var end := link.end;
    SendRequestArrives(requester, info, [], typeId, payload, full);
    ClientStep(c, info, typeId, payload, full);
    DataAtServer(end.info, link.identity, typeId, payload, end.fd, end.address);
    var frames := RouterReceives(link.identity, [U32(SOCKET_RECV_DATA), U32(typeId), payload]);
    ReceiveStep(end.state, end.handle, end.info, Packet(frames, end.fd, end.address),
                [Post(typeId, payload, end.info.name, link.identity, end.address)]);
  }

  lemma ClientStep<P>(c: State<P>, id: P, typeId: nat, payload: bytes, full: set<nat>)
    requires c.running && Lookup(c, id).Some?
    requires Lookup(c, id).value.kind.Dealer? && Lookup(c, id).value.socket.Some?
    ensures var message := Transmit(Lookup(c, id).value.socket.value, [U32(SOCKET_RECV_DATA), U32(typeId), payload]);
            Step(c, Send(id, [], typeId, payload, full)) == Result(c, if 0 in full then [] else [message])
  {
    TakenOne(Transmissions(Lookup(c, id).value, [], typeId, payload)[0], full);
  }

  /**
   A client that names a receiver transmits one frame more, and its server takes the name for
   the command. A name of four bytes that is not the command for data keeps the message from
   being posted; names of other lengths make frames of a shape this model leaves out.
   */
  lemma ClientNamesReceiver<P>(
    c: State<P>, id: P, peer: bytes, typeId: nat, payload: bytes, full: set<nat>,
    server: Info<P>, identity: bytes, fd: int, address: bytes)
    requires c.running && Lookup(c, id).Some? && peer != []
    requires Lookup(c, id).value.kind.Dealer? && Lookup(c, id).value.socket.Some? && server.kind.Router?
    ensures var frames := [peer, U32(SOCKET_RECV_DATA), U32(typeId), payload];
            var sent := Step(c, Send(id, peer, typeId, payload, full));
            && sent.state == c
            && sent.outputs
               == (if 0 in full then [] else [Transmit(Lookup(c, id).value.socket.value, frames)])
            && (|peer| == 4 && peer != [6, 0, 0, 0] ==>
                  var received := Packet(RouterReceives(identity, frames), fd, address);
                  forall posted :: posted in Receive(server, received).1 ==>
                    posted.PostStatus? && peer == [4, 0, 0, 0])
  {
    var info := Lookup(c, id).value;
    TakenOne(Transmissions(info, peer, typeId, payload)[0], full);
    if |peer| == 4 {
      SmallU32(peer, 4);
      SmallU32(peer, 6);
    }
  }

  // ---------- The far ends of a server ----------

  /** Each transmission of a server goes to one identity and is posted there unchanged. */
  lemma AddressedReachesClient(
    t: State<Address>, h: Handle, client: Info<Address>,
    peer: bytes, typeId: nat, payload: bytes, fd: int, address: bytes)
    requires Serves(t, h, client) && client.kind.Dealer? && typeId < Capacity(4)
    ensures var routed := RouterSends(Addressed(peer, typeId, payload));
            && routed.destination == peer
            && Step(t, Data(h, Some(Packet(routed.content, fd, address))))
               == Result(t, [Post(typeId, payload, client.name, [0], address)])
  {
    DataAtClient(client, typeId, payload, fd, address);
    assert Addressed(peer, typeId, payload)[1..] == [U32(SOCKET_RECV_DATA), U32(typeId), payload];
    ReceiveStep(t, h, client, Packet([U32(SOCKET_RECV_DATA), U32(typeId), payload], fd, address),
                [Post(typeId, payload, client.name, [0], address)]);
  }

  /** What the transport knows: which client connected under which identity. */
  type Network = map<bytes, End>

  ghost predicate Connects(net: Network) {
    forall x :: x in net ==> Serves(net[x].state, net[x].handle, net[x].info) && net[x].info.kind.Dealer?
  }

  /** The identity a transmission is for. */
  function DestinationOf(sent: Output): bytes
    requires sent.Transmit? && sent.frames != []
  {
    RouterSends(sent.frames).destination
  }

  /** What becomes of a transmission at the end its identity leads to. */
  function Arrives(net: Network, sent: Output): Result<Address>
    requires sent.Transmit? && sent.frames != [] && DestinationOf(sent) in net
  {
    var end := net[DestinationOf(sent)];
    Step(end.state, Data(end.handle, Some(Packet(RouterSends(sent.frames).content, end.fd, end.address))))
  }

  /** The transmission reaches exactly this client, where it is posted with this type and these bytes. */
  ghost predicate PostedAt(net: Network, sent: Output, x: bytes, typeId: nat, payload: bytes) {
    && sent.Transmit? && sent.frames != [] && DestinationOf(sent) == x && x in net
    && Arrives(net, sent) == Result(net[x].state, [Post(typeId, payload, net[x].info.name, [0], net[x].address)])
  }

  lemma AddressedPosts(net: Network, socket: Handle, x: bytes, typeId: nat, payload: bytes)
    requires Connects(net) && x in net && typeId < Capacity(4)
    ensures PostedAt(net, Transmit(socket, Addressed(x, typeId, payload)), x, typeId, payload)
  {
    AddressedReachesClient(net[x].state, net[x].handle, net[x].info, x, typeId, payload, net[x].fd, net[x].address);
  }

  /** An open server's record, and the network its socket can route to. */
  ghost predicate Hub(s: State<Address>, info: Address, net: Network) {
    && s.running && info < Capacity(ADDRESS_WIDTH) && Lookup(s, info).Some?
    && Lookup(s, info).value.kind.Router? && Lookup(s, info).value.socket.Some?
    && Connects(net) && net.Keys == Lookup(s, info).value.routes
  }

  /**
   A server sending to a named peer makes one transmission, posted at the client of that
   identity, unless the transport has no room for it. If no such client is connected the
   transport raises and the loop ends.
   */
  lemma ServerReachesPeer(
    s: State<Address>, info: Address, net: Network,
    requester: bytes, peer: bytes, typeId: nat, payload: bytes, full: set<nat>)
    requires Hub(s, info, net) && typeId < Capacity(4) && peer != []
    ensures var request := AsRead(requester, info, peer, typeId, payload, full);
            var sent := Step(s, request);
            && (sent.state.running <==> peer in net) && (sent.state.running ==> sent.state == s)
            && |sent.outputs| == (if peer in net && 0 !in full then 1 else 0)
            && (sent.outputs != [] ==> PostedAt(net, sent.outputs[0], peer, typeId, payload))
  {
    SendRequestArrives(requester, info, peer, typeId, payload, full);
    PeerStep(s, info, peer, typeId, payload, full);
    if peer in net {
      AddressedPosts(net, Lookup(s, info).value.socket.value, peer, typeId, payload);
    }
  }

  lemma PeerStep<P>(s: State<P>, id: P, peer: bytes, typeId: nat, payload: bytes, full: set<nat>)
    requires s.running && Lookup(s, id).Some? && peer != []
    requires Lookup(s, id).value.kind.Router? && Lookup(s, id).value.socket.Some?
    ensures var info := Lookup(s, id).value;
            var message := Transmit(info.socket.value, Addressed(peer, typeId, payload));
            Step(s, Send(id, peer, typeId, payload, full)) ==
              if peer !in info.routes then Result(s.(running := false), [])
              else Result(s, if 0 in full then [] else [message])
  {
    TakenOne(Transmissions(Lookup(s, id).value, peer, typeId, payload)[0], full);
  }

  /** The peer at this place was addressed before the first that could not be, and the message taken. */
  ghost predicate Addresses(live: seq<Peer>, n: nat, full: set<nat>, x: bytes) {
    exists i :: 0 <= i < n && i < |live| && i !in full && live[i].id == x
  }

  /** The peers of a server after a run, by their handshakes and disconnects. */
  ghost function Live(send: Handle, ctrl: Handle, inputs: seq<Input<Address>>, info: Address): seq<Peer> {
    Outstanding(History(Initial(send, ctrl), inputs, info, []))
  }

  /**
   After any run of the poller, a server sending to everyone addresses the handshakes not
   followed by a disconnect, in the order they came, up to the first whose client is no
   longer connected. Each of these clients for which there is room has the message posted,
   and nobody else has. The loop goes on exactly when they are all still connected.
   */
  lemma ServerReachesAll(
    send: Handle, ctrl: Handle, inputs: seq<Input<Address>>, info: Address,
    net: Network, requester: bytes, typeId: nat, payload: bytes, full: set<nat>)
    requires send != ctrl && LegalRun(Initial(send, ctrl), inputs)
    requires Hub(PollerState.Run(Initial(send, ctrl), inputs), info, net) && typeId < Capacity(4)
    requires DistinctDescriptors(History(Initial(send, ctrl), inputs, info, []))
    ensures var s, live := PollerState.Run(Initial(send, ctrl), inputs), Live(send, ctrl, inputs, info);
            var request := AsRead(requester, info, [], typeId, payload, full);
            var sent, n := Step(s, request), Reachable(live, net.Keys);
            && (sent.state.running <==> n == |live|)
            && (forall x :: Addresses(live, n, full, x) <==>
                  exists j :: 0 <= j < |sent.outputs| && PostedAt(net, sent.outputs[j], x, typeId, payload))
            && (full == {} ==>
                  && |sent.outputs| == n
                  && forall i :: 0 <= i < n ==> PostedAt(net, sent.outputs[i], live[i].id, typeId, payload))
  {
    hide LegalRun, Step, Connects, PostedAt, History, Outstanding, PollerState.Run, Addressing;
    var s, live := PollerState.Run(Initial(send, ctrl), inputs), Live(send, ctrl, inputs, info);
    SendRequestArrives(requester, info, [], typeId, payload, full);
    BroadcastEveryRun(send, ctrl, inputs, info, typeId, payload, full);
    var n := Reachable(live, net.Keys);
    EveryoneReached(net, Lookup(s, info).value.socket.value, live[..n], typeId, payload, full);
    AddressesPrefix(live, n, full);
    AllReachable(live, net.Keys);
  }

  lemma AllReachable(peers: seq<Peer>, routes: set<bytes>)
    ensures Reachable(peers, routes) == |peers| <==> forall p :: p in peers ==> p.id in routes
  {
  }

  lemma AddressesPrefix(live: seq<Peer>, n: nat, full: set<nat>)
    requires n <= |live|
    ensures forall x :: Addresses(live, n, full, x) <==> Addresses(live[..n], n, full, x)
  {
    assert forall i :: 0 <= i < n ==> live[..n][i] == live[i];
    forall x ensures Addresses(live, n, full, x) <==> Addresses(live[..n], n, full, x) {
      if Addresses(live, n, full, x) {
        var i :| 0 <= i < n && i < |live| && i !in full && live[i].id == x;
        assert live[..n][i].id == x;
      }
    }
  }

  lemma EveryoneReached(
    net: Network, socket: Handle, peers: seq<Peer>, typeId: nat, payload: bytes, full: set<nat>)
    requires Connects(net) && typeId < Capacity(4) && forall i :: 0 <= i < |peers| ==> peers[i].id in net
    ensures var sent := Addressing(socket, peers, typeId, payload, full);
            && (forall x :: Addresses(peers, |peers|, full, x) <==>
                  exists j :: 0 <= j < |sent| && PostedAt(net, sent[j], x, typeId, payload))
            && (full == {} ==>
                  && |sent| == |peers|
                  && forall i :: 0 <= i < |peers| ==> PostedAt(net, sent[i], peers[i].id, typeId, payload))
  {
    hide Connects, PostedAt, Taken, Addressed;
    var all := seq(|peers|, i requires 0 <= i < |peers| => Transmit(socket, Addressed(peers[i].id, typeId, payload)));
    var sent := Addressing(socket, peers, typeId, payload, full);
    forall message ensures message in sent <==> NotRefused(all, full, message) {
      TakenContents(all, full, message);
    }
    TakenContents(all, full, Transmit(socket, []));
    forall i | 0 <= i < |peers| ensures PostedAt(net, all[i], peers[i].id, typeId, payload) {
      AddressedPosts(net, socket, peers[i].id, typeId, payload);
    }
    forall x ensures Addresses(peers, |peers|, full, x) <==>
      exists j :: 0 <= j < |sent| && PostedAt(net, sent[j], x, typeId, payload)
    {
      if Addresses(peers, |peers|, full, x) {
        var i :| 0 <= i < |peers| && i !in full && peers[i].id == x;
        assert NotRefused(all, full, all[i]);
        var j :| 0 <= j < |sent| && sent[j] == all[i];
      }
      if j :| 0 <= j < |sent| && PostedAt(net, sent[j], x, typeId, payload) {
        assert NotRefused(all, full, sent[j]);
        var i :| 0 <= i < |all| && i !in full && all[i] == sent[j];
        OneDestination(net, sent[j], peers[i].id, x, typeId, payload);
      }
    }
  }

  lemma OneDestination(net: Network, sent: Output, x: bytes, y: bytes, typeId: nat, payload: bytes)
    requires PostedAt(net, sent, x, typeId, payload) && PostedAt(net, sent, y, typeId, payload)
    ensures x == y
  {
  }

  // ---------- Answering from inside a handler ----------

  /** brocker_manager::post fills the sender from the post it delivers. */
  function SenderOf(post: Output): D.Sender
    requires post.Post?
  {
    D.Sender(post.sender, post.channel, post.address)
  }

  // ---------- From value to value ----------

  /**
   A struct a client sends is posted at the server it is connected to, and there handed to
   exactly the brokers that handle its type and let the server's channel through, once each,
   in registration order, labelled with the client's identity; unless the transport has no
   room for it.
   */
  lemma StructCrossesTheWire<B, C>(
    c: State<Address>, info: Address, links: Links, requester: bytes, typeId: nat, full: set<nat>,
    less: Order, events: seq<D.Event<B, C>>, types: seq<Type>, v: seq<Value>, order: seq<nat>)
    requires Client(c, info, links) && typeId < Capacity(4)
    requires D.Play(less, events).Some?
    requires FieldsHaveType(less, types, v) && EvaluationOrder(order, |v|)
    requires D.AllRead(D.Play(less, events).value.world, typeId, types, order)
    ensures BrokerRegistry.Run(D.Operations(events)).Some?
    ensures var payload := EncodeFields(v, order);
            var request := AsRead(requester, info, [], typeId, payload, full);
            var sent, link := Step(c, request).outputs, LinkOf(c, info, links);
            && |sent| == (if 0 in full then 0 else 1)
            && (sent != [] ==>
                  && sent[0].Transmit? && sent[0].socket in links
                  && var posted := Delivered(links, sent[0]).outputs;
                     && |posted| == 1 && posted[0].Post? && posted[0].typeId == typeId
                     && var batch := D.Posted(
                          D.Play(less, events).value.world, typeId, posted[0].data, SenderOf(posted[0]));
                        D.DealtOut(less, events, batch, typeId,
                                   D.Sender(link.identity, link.end.info.name, link.end.address), v))
  {
    hide Step, ReadSendRequest, Client, Delivered, D.DealtOut, D.Posted, D.Play;
    var link := LinkOf(c, info, links);
    ClientReachesServer(c, info, links, requester, typeId, EncodeFields(v, order), full);
    D.StructPostDelivers(less, events, typeId, types, v, order,
                         D.Sender(link.identity, link.end.info.name, link.end.address));
  }
}
