/**
 The objects of libhdk/channel/impl/socket_info_zmq.hpp and socket_poller_zmq.cpp, updated
 in place. Every method is proved to take the step of `PollerState` it is named after.
 */
module Poller {
  import opened Bytes
  import opened Peers
  import opened PollerState
  import opened PollerRuns
  import opened PollerLife
  import opened PollerTurns

  class SocketInfo {
    const name: bytes
    const kind: Kind
    var socket: Option<Handle>
    var monitor: Option<Handle>
    var peers: seq<Peer>
    var connected: bool
    /** What the transport inside the data socket knows of its connections. */
    var routes: set<bytes>

    ghost function Abs(): Info<SocketInfo>
      reads this
    {
      Info(this, name, kind, socket, monitor, View(peers, connected), routes)
    }

    constructor (name: bytes, kind: Kind)
      ensures Abs() == Blank(this, name, kind)
      ensures this.name == name && this.kind == kind && socket == None && monitor == None && peers == [] && !connected
    {
      this.name := name;
      this.kind := kind;
      socket, monitor := None, None;
      peers, connected, routes := [], false, {};
    }

    /** The sockets are closed and what is known of peers forgotten. */
    method Reset()
      modifies this
      ensures Abs() == CloseInfo(old(Abs()))
    {
      monitor := None;
      socket := None;
      connected := false;
      peers := [];
      routes := {};
    }

    method Add(peer: Peer)
      modifies this
      ensures Abs() == old(Abs()).(view := Adding(old(Abs().view), peer))
      ensures peers == old(peers) + [peer] && connected == (old(peers) == [] || old(connected))
    {
      if |peers| == 0 {
        connected := true;
      }
      peers := peers + [peer];
    }

    method Find(test: Peer -> bool) returns (i: nat)
      ensures i == First(peers, test)
    {
      i := 0;
      assert peers[0..] == peers;
      while i < |peers|
        invariant i <= |peers| && First(peers, test) == i + First(peers[i..], test)
      {
        if test(peers[i]) {
          return;
        }
        assert peers[i..][1..] == peers[i + 1..];
        i := i + 1;
      }
    }

    method EraseAndCheck(i: nat)
      modifies this
      ensures var rest := Without(old(peers), i);
              Abs() == old(Abs()).(view := View(rest, rest != [] && old(connected)))
    {
      if i < |peers| {
        peers := peers[..i] + peers[i + 1..];
      }
      if |peers| == 0 {
        connected := false;
      }
    }

    method RemoveByAddress(address: bytes)
      modifies this
      ensures Abs() == old(Abs()).(view := Removing(old(Abs().view), WithAddress(address)))
      ensures (forall p :: p in old(peers) ==> p.address != address) ==> peers == old(peers)
      ensures forall k :: 0 <= k < |old(peers)| && old(peers)[k].address == address
                          && (forall j :: 0 <= j < k ==> old(peers)[j].address != address) ==>
                peers == old(peers)[..k] + old(peers)[k + 1..]
      ensures connected == (old(connected) && peers != [])
    {
      var i := Find(WithAddress(address));
      EraseAndCheck(i);
    }

    method RemoveById(id: bytes)
      modifies this
      ensures Abs() == old(Abs()).(view := Removing(old(Abs().view), WithId(id)))
      ensures (forall p :: p in old(peers) ==> p.id != id) ==> peers == old(peers)
      ensures forall k :: 0 <= k < |old(peers)| && old(peers)[k].id == id
                          && (forall j :: 0 <= j < k ==> old(peers)[j].id != id) ==>
                peers == old(peers)[..k] + old(peers)[k + 1..]
      ensures connected == (old(connected) && peers != [])
    {
      var i := Find(WithId(id));
      EraseAndCheck(i);
    }

    /** A peer that is not found is reported blank; its descriptor is then arbitrary. */
    method RemoveByFd(fd: int) returns (gone: Peer)
      modifies this
      ensures Abs() == old(Abs()).(view := Removing(old(Abs().view), WithFd(fd)))
      ensures (forall p :: p in old(peers) ==> p.fd != fd) ==> peers == old(peers)
      ensures forall k :: 0 <= k < |old(peers)| && old(peers)[k].fd == fd
                          && (forall j :: 0 <= j < k ==> old(peers)[j].fd != fd) ==>
                peers == old(peers)[..k] + old(peers)[k + 1..]
      ensures connected == (old(connected) && peers != [])
      ensures gone.id == Departed(old(Abs().view), fd).id && gone.address == Departed(old(Abs().view), fd).address
    {
      var garbage: int := *;
      gone := Peer([], [], garbage);
      var i := Find(WithFd(fd));
      if i < |peers| {
        gone := peers[i];
      }
      EraseAndCheck(i);
    }
  }

  function WithAddress(address: bytes): Peer -> bool {
    (p: Peer) => p.address == address
  }

  function WithId(id: bytes): Peer -> bool {
    (p: Peer) => p.id == id
  }

  datatype PollItem = PollItem(socket: Handle, ready: bool)

  ghost function HandlesOf(items: seq<PollItem>): (r: seq<Handle>)
    ensures |r| == |items| && forall i :: 0 <= i < |items| ==> r[i] == items[i].socket
  {
    seq(|items|, i requires 0 <= i < |items| => items[i].socket)
  }

  ghost function InfosOf(sockets: seq<SocketInfo>): (r: seq<Info<SocketInfo>>)
    reads sockets
    ensures |r| == |sockets| && forall i :: 0 <= i < |sockets| ==> r[i] == sockets[i].Abs()
  {
    seq(|sockets|, i requires 0 <= i < |sockets| reads sockets => sockets[i].Abs())
  }

  lemma InfosUpdate(sockets: seq<SocketInfo>, before: seq<Info<SocketInfo>>, k: nat)
    requires |before| == |sockets| && k < |sockets|
    requires forall j :: 0 <= j < |sockets| && j != k ==> sockets[j].Abs() == before[j]
    ensures InfosOf(sockets) == before[k := sockets[k].Abs()]
  {
  }

  lemma InfosDrop(sockets: seq<SocketInfo>, k: nat)
    requires k < |sockets|
    ensures InfosOf(sockets[..k] + sockets[k + 1..]) == InfosOf(sockets)[..k] + InfosOf(sockets)[k + 1..]
  {
  }

  ghost predicate OneGone(before: seq<SocketInfo>, after: seq<SocketInfo>, k: nat) {
    k < |before| && after == before[..k] + before[k + 1..]
  }

  /** One pair of items, on an even place behind the first two, is gone. */
  ghost predicate OnePairGone(before: seq<PollItem>, after: seq<PollItem>) {
    exists p :: 2 <= p < |before| - 1 && p % 2 == 0 && after == before[..p] + before[p + 2..]
  }

  ghost predicate Marked(items: seq<PollItem>, i: nat, polled: set<Handle>) {
    forall j :: i <= j < |items| ==> items[j].ready == (items[j].socket in polled)
  }

  /** Appending a pair that was not polled, or erasing one, leaves the other flags right. */
  lemma MarksSurvive(before: seq<PollItem>, after: seq<PollItem>, data: Handle, monitor: Handle, polled: set<Handle>)
    requires |before| >= 2 && Marked(before, 2, polled)
    requires after == before || OnePairGone(before, after) ||
             (after == before + [PollItem(data, false), PollItem(monitor, false)]
              && data !in polled && monitor !in polled)
    ensures |after| >= 2 && after[0] == before[0] && after[1] == before[1] && Marked(after, 2, polled)
  {
    if OnePairGone(before, after) {
      var p :| 2 <= p < |before| - 1 && p % 2 == 0 && after == before[..p] + before[p + 2..];
      forall j | 2 <= j < |after| ensures after[j].ready == (after[j].socket in polled) {
        assert after[j] == before[if j < p then j else j + 2];
      }
    }
  }

  class Poller {
    const send: Handle
    const ctrl: Handle
    var items: seq<PollItem>
    var sockets: seq<SocketInfo>
    var running: bool

    ghost function Abs(): State<SocketInfo>
      reads this, sockets
    {
      State(send, ctrl, HandlesOf(items), InfosOf(sockets), running)
    }

    /** From index i on, the flags are set on exactly the polled handles. */
    ghost predicate MarkedFrom(i: nat, polled: set<Handle>)
      reads this
    {
      Marked(items, i, polled)
    }

    /** Start-up binds the two control sockets and puts them first. */
    constructor (send: Handle, ctrl: Handle)
      requires send != ctrl
      ensures Abs() == Initial(send, ctrl) && Inv(Abs())
    {
      this.send := send;
      this.ctrl := ctrl;
      items := [PollItem(send, false), PollItem(ctrl, false)];
      sockets := [];
      running := true;
    }

    /** The loop is alive, the layout holds and the surroundings keep their promises. */
    ghost predicate Ready(input: Input<SocketInfo>)
      reads this, sockets
    {
      running && Inv(Abs()) && Legal(Abs(), input)
    }

    lemma Keeps(input: Input<SocketInfo>)
      requires Ready(input)
      ensures Inv(Step(Abs(), input).state)
    {
      StepKeeps(Abs(), input);
    }

    method FindSocket(info: SocketInfo) returns (k: nat)
      ensures k == Position(Abs().sockets, info)
    {
      ghost var s := Abs().sockets;
      k := 0;
      assert s[0..] == s;
      while k < |sockets|
        invariant k <= |sockets| && Position(s, info) == k + Position(s[k..], info)
      {
        if sockets[k] == info {
          return;
        }
        assert s[k..][1..] == s[k + 1..];
        k := k + 1;
      }
    }

    /** get_zmq_socket_info */
    method FindOwner(handle: Handle) returns (k: nat)
      ensures k == Owner(Abs().sockets, handle)
    {
      ghost var s := Abs().sockets;
      k := 0;
      assert s[0..] == s;
      while k < |sockets|
        invariant k <= |sockets| && Owner(s, handle) == k + Owner(s[k..], handle)
      {
        if sockets[k].socket == Some(handle) {
          return;
        }
        assert s[k..][1..] == s[k + 1..];
        k := k + 1;
      }
    }

    method FindItem(handle: Handle) returns (k: nat)
      ensures k == ItemPosition(Abs().items, handle)
    {
      ghost var h := Abs().items;
      k := 0;
      assert h[0..] == h;
      while k < |items|
        invariant k <= |items| && ItemPosition(h, handle) == k + ItemPosition(h[k..], handle)
      {
        if items[k].socket == handle {
          return;
        }
        assert h[k..][1..] == h[k + 1..];
        k := k + 1;
      }
    }

    lemma PositionOf(info: SocketInfo, k: nat)
      requires Records(Abs()) && k < |sockets| && sockets[k] == info
      ensures Position(Abs().sockets, info) == k
    {
      PositionIs(Abs().sockets, info, k);
    }

    /** parse_socket_create: appends a record just made. */
    method ParseCreate(info: SocketInfo)
      requires Ready(Create(info, info.name, info.kind))
      requires info.Abs() == Blank(info, info.name, info.kind)
      modifies this
      ensures Abs() == Step(old(Abs()), Create(info, info.name, info.kind)).state && Inv(Abs())
      ensures items == old(items) && sockets == old(sockets) + [info]
    {
      Keeps(Create(info, info.name, info.kind));
      sockets := sockets + [info];
    }

    /** parse_socket_open and create_socket_info_zmq */
    method ParseOpen(info: SocketInfo, data: Handle, monitor: Handle, opening: Opening)
      requires Ready(Open(info, data, monitor, opening))
      modifies this, sockets
      ensures Abs() == Step(old(Abs()), Open(info, data, monitor, opening)).state && Inv(Abs())
      ensures sockets == old(sockets)
      ensures items == old(items) ||
              items == old(items) + [PollItem(data, false), PollItem(monitor, false)]
    {
      hide Ready, Inv, Step, Position;
      ghost var s := Abs();
      ghost var k := Position(s.sockets, info);
      OpenStep(info, data, monitor, opening);
      info.socket := Some(data);
      if opening.MonitorFailed? {
        running := false;
        InfosUpdate(sockets, s.sockets, k);
        return;
      }
      info.monitor := Some(monitor);
      items := items + [PollItem(data, false), PollItem(monitor, false)];
      if opening.EndpointFailed? {
        running := false;
      }
      InfosUpdate(sockets, s.sockets, k);
      assert HandlesOf(items) == s.items + [data, monitor];
    }

    lemma OpenStep(info: SocketInfo, data: Handle, monitor: Handle, opening: Opening)
      requires Ready(Open(info, data, monitor, opening))
      ensures var s := Abs();
              var k := Position(s.sockets, info);
              && running && k < |sockets| && sockets[k] == info
              && (forall j :: 0 <= j < |sockets| && j != k ==> sockets[j] != info)
              && Step(s, Open(info, data, monitor, opening)).state ==
                 (if opening.MonitorFailed? then
                    s.(sockets := s.sockets[k := s.sockets[k].(socket := Some(data))], running := false)
                  else
                    s.(sockets := s.sockets[k := s.sockets[k].(socket := Some(data), monitor := Some(monitor))],
                       items := s.items + [data, monitor], running := opening.Opened?))
              && Inv(Step(s, Open(info, data, monitor, opening)).state)
    {
      Keeps(Open(info, data, monitor, opening));
      LayoutRecords(Abs());
      DistinctRecords();
      assert Abs().sockets[Position(Abs().sockets, info)].id == info;
    }

    /**
     find_if and erase of two items. That both exist, behind the first two and not split
     from another pair, is what the callers prove.
     */
    method EraseTwo(handle: Handle)
      requires var p := ItemPosition(HandlesOf(items), handle); 2 <= p < |items| - 1 && p % 2 == 0
      modifies this`items
      ensures HandlesOf(items) == ErasePair(old(HandlesOf(items)), Some(handle))
      ensures OnePairGone(old(items), items)
    {
      var p := FindItem(handle);
      if p != |items| {
        items := items[..p] + items[p + 2..];
        assert HandlesOf(items) == old(HandlesOf(items))[..p] + old(HandlesOf(items))[p + 2..];
      }
    }

    /** Takes an open record's pair off the vector; a closed one has none there. */
    method ErasePairOf(info: SocketInfo, ghost k: nat)
      requires Layout(Abs()) && k < |sockets| && sockets[k] == info
      modifies this`items
      ensures HandlesOf(items) == ErasePair(old(HandlesOf(items)), info.socket)
      ensures items == old(items) || OnePairGone(old(items), items)
    {
      if info.socket.Some? {
        FoundPair(Abs(), k);
        EraseTwo(info.socket.value);
      }
    }

    /** remove_socket_info_zmq */
    method RemoveSocketInfo(info: SocketInfo)
      requires running && Layout(Abs()) && info in sockets
      modifies this`items, info
      ensures Abs() == Closing(old(Abs()), Position(old(Abs().sockets), info)) && Layout(Abs())
      ensures info.socket == None
      ensures items == old(items) || OnePairGone(old(items), items)
    {
      ghost var k: nat :| k < |sockets| && sockets[k] == info;
      ghost var s := Abs();
      LayoutRecords(s);
      PositionOf(info, k);
      CloseKeeps(s, k);
      DistinctRecords();
      ClosingUnfold(s, k);
      ErasePairOf(info, k);
      info.Reset();
      InfosUpdate(sockets, s.sockets, k);
    }

    lemma DistinctRecords()
      requires Records(Abs())
      ensures forall i, j :: 0 <= i < j < |sockets| ==> sockets[i] != sockets[j]
    {
      forall i, j | 0 <= i < j < |sockets| ensures sockets[i] != sockets[j] {
        assert Abs().sockets[i].id == sockets[i] && Abs().sockets[j].id == sockets[j];
      }
    }

    method ParseClose(info: SocketInfo)
      requires Ready(Close(info))
      modifies this, sockets
      ensures Abs() == Step(old(Abs()), Close(info)).state && Inv(Abs())
      ensures sockets == old(sockets)
      ensures items == old(items) || OnePairGone(old(items), items)
    {
      assert sockets[Position(Abs().sockets, info)] == info;
      RemoveSocketInfo(info);
    }

    method CloseIfOpen(info: SocketInfo, ghost k: nat)
      requires running && Layout(Abs()) && k == Position(Abs().sockets, info) < |sockets|
      modifies this`items, info
      ensures Abs() == if old(info.socket).Some? then Closing(old(Abs()), k) else old(Abs())
      ensures Position(Abs().sockets, info) == k
      ensures items == old(items) || OnePairGone(old(items), items)
    {
      ghost var before := Abs().sockets;
      assert sockets[k] == info;
      if info.socket.Some? {
        RemoveSocketInfo(info);
        PositionUpdate(before, k, CloseInfo(before[k]), info);
      }
    }

    method DropRecord(info: SocketInfo, ghost k: nat)
      requires k == Position(Abs().sockets, info) < |sockets|
      modifies this`sockets
      ensures Abs() == old(Abs()).(sockets := old(Abs().sockets)[..k] + old(Abs().sockets)[k + 1..])
      ensures OneGone(old(sockets), sockets, k)
    {
      hide Position;
      var found := FindSocket(info);
      InfosDrop(sockets, k);
      sockets := sockets[..found] + sockets[found + 1..];
    }

    method ParseRemove(info: SocketInfo)
      requires Ready(Remove(info))
      modifies this, sockets
      ensures Abs() == Step(old(Abs()), Remove(info)).state && Inv(Abs())
      ensures exists k :: OneGone(old(sockets), sockets, k)
      ensures items == old(items) || OnePairGone(old(items), items)
    {
      ghost var s := Abs();
      ghost var k := Position(s.sockets, info);
      Keeps(Remove(info));
      RemoveUnfold(s, info);
      hide Layout, Step, OnePairGone, ErasePair, CloseInfo, Position;
      assert sockets[k] == info;
      CloseIfOpen(info, k);
      DropRecord(info, k);
    }

    /** parse_send_data: the three ways out, stopping where the transport raises. */
    method ParseSendData(info: SocketInfo, peer: bytes, typeId: nat, payload: bytes, full: set<nat>)
      returns (outputs: seq<Output>)
      requires Ready(Send(info, peer, typeId, payload, full))
      modifies this`running
      ensures Result(Abs(), outputs) == Step(old(Abs()), Send(info, peer, typeId, payload, full)) && Inv(Abs())
    {
      Keeps(Send(info, peer, typeId, payload, full));
      assert sockets[Position(Abs().sockets, info)] == info;
      var raised;
      outputs, raised := TransmitAll(info, peer, typeId, payload, full);
      if raised {
        running := false;
      }
    }

    ghost function Route(handle: Handle, identity: bytes, comes: bool): Input<SocketInfo> {
      if comes then Attach(handle, identity) else Detach(handle, identity)
    }

    /** A connection comes or goes inside the transport. */
    method Reroute(info: SocketInfo, handle: Handle, identity: bytes, comes: bool)
      requires info in sockets && info.socket == Some(handle) && Ready(Route(handle, identity, comes))
      modifies info`routes
      ensures Abs() == Step(old(Abs()), Route(handle, identity, comes)).state && Inv(Abs())
    {
      hide Ready, Inv, Step, Owner;
      ghost var s := Abs();
      ghost var k := RouteStep(info, handle, identity, comes);
      info.routes := if comes then info.routes + {identity} else info.routes - {identity};
      InfosUpdate(sockets, s.sockets, k);
    }

    lemma RouteStep(info: SocketInfo, handle: Handle, identity: bytes, comes: bool) returns (k: nat)
      requires info in sockets && info.socket == Some(handle) && Ready(Route(handle, identity, comes))
      ensures k < |sockets| && sockets[k] == info && (forall j :: 0 <= j < |sockets| && j != k ==> sockets[j] != info)
      ensures var s := Abs();
              var t := Step(s, Route(handle, identity, comes)).state;
              t == s.(sockets := s.sockets[k := Rerouted(s.sockets[k], identity, comes)]) && Inv(t)
    {
      hide Layout, Records;
      Keeps(Route(handle, identity, comes));
      LayoutRecords(Abs());
      DistinctRecords();
      k :| k < |sockets| && sockets[k] == info;
      OwnerIs(Abs(), k);
    }

    lemma DataStep(handle: Handle, packet: Packet)
      requires Ready(Data(handle, Some(packet)))
      ensures var s := Abs();
              var k := Owner(s.sockets, handle);
              && k < |sockets| && WellFormedPacket(sockets[k].kind, packet.frames)
              && (forall j :: 0 <= j < |sockets| && j != k ==> sockets[j] != sockets[k])
              && var r := Receive(sockets[k].Abs(), packet);
                 && Step(s, Data(handle, Some(packet))) == Result(s.(sockets := s.sockets[k := r.0]), r.1)
                 && Inv(s.(sockets := s.sockets[k := r.0]))
    {
      Keeps(Data(handle, Some(packet)));
      LayoutRecords(Abs());
      DistinctRecords();
    }

    /** parse_recv_data: a handshake adds a peer, data is posted to the brokers. */
    method ParseReceiveData(handle: Handle, packet: Option<Packet>) returns (outputs: seq<Output>)
      requires Ready(Data(handle, packet))
      modifies sockets
      ensures Result(Abs(), outputs) == Step(old(Abs()), Data(handle, packet)) && Inv(Abs())
    {
      if packet.None? {
        return [];
      }
      ghost var s := Abs();
      DataStep(handle, packet.value);
      hide Ready, Inv, Step, Receive, WellFormedPacket, Owner;
      var k := FindOwner(handle);
      outputs := HandleMessage(sockets[k], packet.value);
      InfosUpdate(sockets, s.sockets, k);
    }

    lemma MonitorStep(monitor: Handle, handle: Handle, event: MonitorEvent)
      requires Ready(Monitor(monitor, handle, event))
      ensures var s := Abs();
              var k := Owner(s.sockets, handle);
              && k < |sockets| && sockets[k].socket == Some(handle)
              && (forall j :: 0 <= j < |sockets| && j != k ==> sockets[j] != sockets[k])
              && var r := Observe(sockets[k].Abs(), event);
                 && Step(s, Monitor(monitor, handle, event)) == Result(s.(sockets := s.sockets[k := r.0]), r.1)
                 && Inv(s.(sockets := s.sockets[k := r.0]))
    {
      Keeps(Monitor(monitor, handle, event));
      LayoutRecords(Abs());
      DistinctRecords();
    }

    /** parse_event_data: connections made and lost, as the monitor reports them. */
    method ParseEventData(monitor: Handle, handle: Handle, event: MonitorEvent) returns (outputs: seq<Output>)
      requires Ready(Monitor(monitor, handle, event))
      modifies sockets
      ensures Result(Abs(), outputs) == Step(old(Abs()), Monitor(monitor, handle, event)) && Inv(Abs())
    {
      ghost var s := Abs();
      MonitorStep(monitor, handle, event);
      hide Ready, Inv, Step, Observe, Owner;
      var k := FindOwner(handle);
      outputs := HandleEvent(sockets[k], handle, event);
      InfosUpdate(sockets, s.sockets, k);
    }

    /** zmq::poll sets the flags of every item. */
    method Poll(a: Arrivals)
      modifies this`items
      ensures Abs() == old(Abs())
      ensures |items| == |old(items)|
      ensures forall i :: 0 <= i < |items| ==>
                items[i] == PollItem(old(items)[i].socket, old(items)[i].socket in a.ready)
      ensures MarkedFrom(0, Polled(Abs().items, a))
    {
      ghost var before := HandlesOf(items);
      var polled := items;
      items := seq(|polled|, i requires 0 <= i < |polled| => PollItem(polled[i].socket, polled[i].socket in a.ready));
      assert HandlesOf(items) == before;
    }

    method Unmark(i: nat)
      requires i < |items|
      modifies this`items
      ensures items == old(items)[i := PollItem(old(items)[i].socket, false)]
      ensures Abs() == old(Abs())
    {
      ghost var before := HandlesOf(items);
      items := items[i := PollItem(items[i].socket, false)];
      assert HandlesOf(items) == before;
    }

    lemma PairLegal(
      s: State<SocketInfo>, polled: set<Handle>, a: Arrivals, log: seq<Input<SocketInfo>>, input: Input<SocketInfo>)
      requires s.running && Inv(s) && SoundArrivals(s, a)
      requires input in PairInputs<SocketInfo>(s.items, 2, polled, a)
      requires forall x :: x in log ==> x in PairInputs<SocketInfo>(s.items, 2, polled, a)
      requires Abs() == PollerState.Run(s, log)
      ensures Ready(input)
    {
      hide Inv, Legal, SoundArrivals;
      forall x | x in log ensures (x.Data? || x.Monitor?) && Legal(s, x) {
        PairInputLegal(s, polled, a, x);
      }
      HandlingRunLegal(s, log);
      RunKeeps(s, log);
      PairInputLegal(s, polled, a, input);
      LegalSame(s, Abs(), input);
    }

    /** One item of the pair loop: handled if marked, then unmarked. */
    method HandleItem(i: nat, a: Arrivals, input: Input<SocketInfo>) returns (outputs: seq<Output>)
      requires i < |items| && items[i].ready && Ready(input)
      requires input == Data(items[i].socket, a.packets(items[i].socket)) || input.Monitor?
      modifies this`items, sockets
      ensures Result(Abs(), outputs) == Step(old(Abs()), input) && Inv(Abs())
      ensures items == old(items)[i := PollItem(old(items)[i].socket, false)]
    {
      hide Inv, Step, Ready;
      match input {
        case Data(handle, packet) => outputs := ParseReceiveData(handle, packet);
        case Monitor(monitor, handle, event) => outputs := ParseEventData(monitor, handle, event);
      }
      Unmark(i);
    }

    lemma Advance(
      s: State<SocketInfo>, log: seq<Input<SocketInfo>>, input: Input<SocketInfo>, t: State<SocketInfo>,
      outputs: seq<Output>)
      requires Result(t, outputs) == Step(PollerState.Run(s, log), input)
      ensures PollerState.Run(s, log + [input]) == t
      ensures Outputs(s, log + [input]) == Outputs(s, log) + outputs
    {
      hide Step;
      RunAppend(s, log, [input]);
      RunOne(PollerState.Run(s, log), input);
    }

    /** The loop of thread_poll over the pairs: each marked item is handled, in order. */
    method PairLoop(a: Arrivals, ghost polled: set<Handle>)
      returns (ghost log: seq<Input<SocketInfo>>, outputs: seq<Output>)
      requires running && Inv(Abs()) && SoundArrivals(Abs(), a) && MarkedFrom(2, polled)
      modifies this`items, sockets
      ensures log == PairInputs<SocketInfo>(old(Abs()).items, 2, polled, a)
      ensures Abs() == PollerState.Run(old(Abs()), log) && outputs == Outputs(old(Abs()), log)
      ensures Inv(Abs())
    {
      assert Shape(Abs());
      hide Inv, Step, SoundArrivals, Outputs, PollerState.Run, Marked;
      ghost var s := Abs();
      ghost var all := PairInputs<SocketInfo>(s.items, 2, polled, a);
      RunNone(s);
      log, outputs := [], [];
      var i := 2;
      while i < |items| - 1
        invariant i % 2 == 0 && 2 <= i <= |items|
        invariant log + PairInputs<SocketInfo>(s.items, i, polled, a) == all
        invariant Abs().items == s.items && sockets == old(sockets)
        invariant Abs() == PollerState.Run(s, log) && outputs == Outputs(s, log) && Inv(Abs())
        invariant MarkedFrom(i, polled)
        decreases |items| - i
      {
        var more;
        log, more := HandlePair(i, a, s, polled, log);
        outputs := outputs + more;
        i := i + 2;
      }
    }

    /** One turn of that loop. */
    method HandlePair(
      i: nat, a: Arrivals, ghost s: State<SocketInfo>, ghost polled: set<Handle>, ghost log: seq<Input<SocketInfo>>)
      returns (ghost log': seq<Input<SocketInfo>>, outputs: seq<Output>)
      requires i >= 2 && i % 2 == 0 && i + 1 < |items|
      requires s.running && Inv(s) && SoundArrivals(s, a) && Abs().items == s.items
      requires log + PairInputs<SocketInfo>(s.items, i, polled, a) == PairInputs<SocketInfo>(s.items, 2, polled, a)
      requires Abs() == PollerState.Run(s, log) && Inv(Abs()) && MarkedFrom(i, polled)
      modifies this`items, sockets
      ensures log' + PairInputs<SocketInfo>(s.items, i + 2, polled, a) == PairInputs<SocketInfo>(s.items, 2, polled, a)
      ensures Abs().items == s.items && Abs() == PollerState.Run(s, log') && Inv(Abs())
      ensures Outputs(s, log') == Outputs(s, log) + outputs
      ensures MarkedFrom(i + 2, polled)
    {
      hide Inv, Step, SoundArrivals, Outputs, PollerState.Run;
      var h := items[i].socket;
      var m := items[i + 1].socket;
      ghost var all := PairInputs<SocketInfo>(s.items, 2, polled, a);
      ghost var later := PairInputs<SocketInfo>(s.items, i + 2, polled, a);
      ghost var x: seq<Input<SocketInfo>> := if items[i].ready then [Data(h, a.packets(h))] else [];
      ghost var y: seq<Input<SocketInfo>> := if items[i + 1].ready then [Monitor(m, h, a.events(m))] else [];
      assert PairInputs<SocketInfo>(s.items, i, polled, a) == x + y + later;
      Regroup(log, x, y, later, all);
      outputs := HandleMarked(i, a, Data(h, a.packets(h)), s, polled, log);
      var more := HandleMarked(i + 1, a, Monitor(m, h, a.events(m)), s, polled, log + x);
      outputs := outputs + more;
      log' := log + x + y;
    }

    lemma Regroup(log: seq<Input<SocketInfo>>, x: seq<Input<SocketInfo>>, y: seq<Input<SocketInfo>>,
                  later: seq<Input<SocketInfo>>, all: seq<Input<SocketInfo>>)
      requires log + (x + y + later) == all
      ensures log + x + y + later == all
      ensures forall input :: input in log || input in x || input in y ==> input in all
    {
      assert log + x + y + later == all;
      assert forall input :: input in log || input in x || input in y ==> input in log + x + y + later;
    }

    method HandleMarked(j: nat, a: Arrivals, input: Input<SocketInfo>,
                        ghost s: State<SocketInfo>, ghost polled: set<Handle>, ghost log: seq<Input<SocketInfo>>)
      returns (outputs: seq<Output>)
      requires j < |items| && (input == Data(items[j].socket, a.packets(items[j].socket)) || input.Monitor?)
      requires s.running && Inv(s) && SoundArrivals(s, a)
      requires items[j].ready ==> input in PairInputs<SocketInfo>(s.items, 2, polled, a)
      requires forall x :: x in log ==> x in PairInputs<SocketInfo>(s.items, 2, polled, a)
      requires Abs() == PollerState.Run(s, log) && Inv(Abs())
      modifies this`items, sockets
      ensures var log' := log + if old(items)[j].ready then [input] else [];
              Abs() == PollerState.Run(s, log') && Outputs(s, log') == Outputs(s, log) + outputs
      ensures Abs().items == old(Abs()).items && Inv(Abs())
      ensures |items| == |old(items)| && forall k :: 0 <= k < |items| && k != j ==> items[k] == old(items)[k]
    {
      if items[j].ready {
        PairLegal(s, polled, a, log, input);
        HandlingKeepsSockets(Abs(), input);
        hide Inv, Step, Ready, SoundArrivals;
        outputs := HandleItem(j, a, input);
        Advance(s, log, input, Abs(), outputs);
      } else {
        outputs := [];
        assert log + [] == log;
      }
    }

    /** parse_ctrl_data: hands a control request to its handler. */
    method ParseControl(input: Input<SocketInfo>, ghost polled: set<Handle>)
      requires Ready(input) && (input.Create? || input.Open? || input.Close? || input.Remove?)
      requires input.Create? ==> input.id.Abs() == Blank(input.id, input.name, input.kind)
      requires MarkedFrom(2, polled) && forall h :: h in polled ==> h in Abs().items
      modifies this, sockets
      ensures Abs() == Step(old(Abs()), input).state && Inv(Abs())
      ensures MarkedFrom(2, polled)
      ensures |items| >= 2 && items[0] == old(items)[0] && items[1] == old(items)[1]
      ensures forall x :: x in sockets ==> x in old(sockets) || (input.Create? && x == input.id)
    {
      ghost var before := items;
      assert Shape(Abs());
      ghost var d, m := if input.Open? then input.data else 0, if input.Open? then input.monitor else 0;
      assert input.Open? ==> d !in polled && m !in polled;
      hide Inv, Step, Ready, Marked, OnePairGone, InUse;
      match input {
        case Create(info, _, _) => ParseCreate(info);
        case Open(info, data, monitor, opening) => ParseOpen(info, data, monitor, opening);
        case Close(info) => ParseClose(info);
        case Remove(info) => ParseRemove(info);
      }
      MarksSurvive(before, items, d, m, polled);
    }

    /** The ctrl item of a turn. */
    method ControlPart(ctrl: Option<Input<SocketInfo>>, ghost polled: set<Handle>)
      requires running && Inv(Abs()) && MarkedFrom(0, polled) && forall h :: h in polled ==> h in Abs().items
      requires ctrl.Some? ==> ControlRequest(ctrl.value)
      requires ctrl.Some? && Abs().items[1] in polled ==> Legal(Abs(), ctrl.value)
      modifies this, sockets
      ensures Abs() == PollerState.Run(old(Abs()), Prelude(old(Abs()).items[1] in polled, ctrl)) && Inv(Abs())
      ensures Outputs(old(Abs()), Prelude(old(Abs()).items[1] in polled, ctrl)) == []
      ensures |items| >= 2 && MarkedFrom(2, polled)
      ensures items[0].ready == (old(Abs()).items[0] in polled)
      ensures forall x :: x in sockets ==> x in old(sockets) || x in Created(ctrl)
    {
      ghost var s := Abs();
      assert Shape(s);
      hide Inv, Step;
      if items[1].ready {
        if ctrl.Some? {
          RunOne(s, ctrl.value);
          ControlIsSilent(s, ctrl.value);
          ParseControl(ctrl.value, polled);
        }
        Unmark(1);
      }
    }

    /** The send item of a turn. */
    method SendPart(send: Option<Input<SocketInfo>>, ghost marked: bool) returns (outputs: seq<Output>)
      requires running && Inv(Abs()) && |items| >= 2 && items[0].ready == marked
      requires send.Some? ==> send.value.Send? && (marked ==> Legal(Abs(), send.value))
      modifies this`running, this`items
      ensures Abs() == PollerState.Run(old(Abs()), Prelude(marked, send)) && Inv(Abs())
      ensures outputs == Outputs(old(Abs()), Prelude(marked, send))
      ensures |items| == |old(items)| && forall j :: 2 <= j < |items| ==> items[j] == old(items)[j]
    {
      outputs := [];
      ghost var s := Abs();
      hide Inv, Step;
      if items[0].ready {
        if send.Some? {
          RunOne(s, send.value);
          var o := send.value;
          outputs := ParseSendData(o.id, o.peer, o.typeId, o.payload, o.full);
        }
        Unmark(0);
      }
    }

    /** A turn from its send item on. */
    method SendAndPairs(a: Arrivals, send: Option<Input<SocketInfo>>, ghost marked: bool, ghost polled: set<Handle>)
      returns (ghost log: seq<Input<SocketInfo>>, outputs: seq<Output>)
      requires running && Inv(Abs()) && |items| >= 2 && items[0].ready == marked && MarkedFrom(2, polled)
      requires send.Some? ==> send.value.Send? && (marked ==> Legal(Abs(), send.value))
      requires var sent := PollerState.Run(Abs(), Prelude(marked, send)); sent.running ==> SoundArrivals(sent, a)
      modifies this`running, this`items, sockets
      ensures log == AfterControl(old(Abs()), polled, marked, a, send)
      ensures Abs() == PollerState.Run(old(Abs()), log) && Inv(Abs())
      ensures outputs == Outputs(old(Abs()), log)
    {
      hide Inv, Step, SoundArrivals, Outputs, PollerState.Run, Prelude;
      ghost var s := Abs();
      log := Prelude(marked, send);
      outputs := SendPart(send, marked);
      if running {
        var later, more := PairLoop(a, polled);
        outputs := outputs + more;
        RunAppend(s, log, later);
        log := log + later;
      }
    }

    /** The body of the endless loop in thread_poll. */
    method Turn(a: Arrivals, ctrl: Option<Input<SocketInfo>>, send: Option<Input<SocketInfo>>)
      returns (ghost log: seq<Input<SocketInfo>>, outputs: seq<Output>)
      requires running && Inv(Abs())
      requires ctrl.Some? ==> ControlRequest(ctrl.value)
      requires send.Some? ==> send.value.Send?
      requires TurnLegal(Abs(), a, ctrl, send)
      modifies this, sockets, Created(ctrl)
      ensures log == TurnInputs(old(Abs()), a, ctrl, send) && LegalRun(old(Abs()), log)
      ensures HandlesReady(old(Abs()), a, ctrl, send, log)
      ensures Abs() == PollerState.Run(old(Abs()), log) && Inv(Abs())
      ensures outputs == Outputs(old(Abs()), log)
    {
      assert |Abs().items| >= 2;
      hide Inv, Step, Legal, TurnLegal, LegalRun, TurnInputs, Outputs, PollerState.Run, HandlesReady;
      TurnLegalRun(Abs(), a, ctrl, send);
      TurnHandlesReady(Abs(), a, ctrl, send);
      Poll(a);
      log, outputs := HandleMarks(a, ctrl, send);
    }

    /** What follows the polling. */
    method HandleMarks(a: Arrivals, ctrl: Option<Input<SocketInfo>>, send: Option<Input<SocketInfo>>)
      returns (ghost log: seq<Input<SocketInfo>>, outputs: seq<Output>)
      requires running && Inv(Abs()) && |Abs().items| >= 2 && MarkedFrom(0, Polled(Abs().items, a))
      requires ctrl.Some? ==> ControlRequest(ctrl.value)
      requires send.Some? ==> send.value.Send?
      requires TurnLegal(Abs(), a, ctrl, send)
      modifies this, sockets, Created(ctrl)
      ensures log == TurnInputs(old(Abs()), a, ctrl, send)
      ensures Abs() == PollerState.Run(old(Abs()), log) && Inv(Abs())
      ensures outputs == Outputs(old(Abs()), log)
    {
      ghost var s := Abs();
      hide Inv, Step, Legal, TurnLegal, SoundArrivals, TurnInputs, AfterControl, Outputs, PollerState.Run, Prelude,
           Polled;
      ghost var polled := Polled(s.items, a);
      TurnParts(s, a, ctrl, send);
      TurnJoins(s, a, ctrl, send);
      PolledItems(s.items, a);
      outputs := [];
      ControlPart(ctrl, polled);
      log := Prelude(s.items[1] in polled, ctrl);
      if running {
        ghost var rest;
        rest, outputs := SendAndPairs(a, send, s.items[0] in polled, polled);
        log := log + rest;
      }
    }
  }

  lemma PolledItems(items: seq<Handle>, a: Arrivals)
    ensures forall h :: h in Polled(items, a) ==> h in items
  {
  }

  lemma ControlIsSilent<P>(s: State<P>, input: Input<P>)
    requires input.Create? || input.Open? || input.Close? || input.Remove?
    ensures Step(s, input).outputs == []
  {
  }

  /** The record a creation request brings along. */
  ghost function Created(ctrl: Option<Input<SocketInfo>>): set<SocketInfo> {
    if ctrl.Some? && ctrl.value.Create? then {ctrl.value.id} else {}
  }

  ghost predicate ControlRequest(input: Input<SocketInfo>)
    reads if input.Create? then {input.id} else {}
  {
    match input
    case Create(id, name, kind) => id.Abs() == Blank(id, name, kind)
    case Open(_, _, _, _) => true
    case Close(_) => true
    case Remove(_) => true
    case _ => false
  }

  /** One multipart message for the socket: it raises, or is taken, or is refused and lost. */
  method TransmitOne(info: SocketInfo, frames: seq<bytes>, room: bool) returns (outputs: seq<Output>, raised: bool)
    requires frames != []
    ensures raised == Raises(info.Abs(), Transmit(Raw(info.socket), frames))
    ensures outputs == if raised || !room then [] else [Transmit(Raw(info.socket), frames)]
  {
    if info.socket == None || (info.kind == Router && frames[0] !in info.routes) {
      return [], true;
    }
    outputs := if room then [Transmit(Raw(info.socket), frames)] else [];
    raised := false;
  }

  lemma TakenNext(all: seq<Output>, i: nat, full: set<nat>)
    requires i < |all|
    ensures Taken(all[..i + 1], full) == Taken(all[..i], full) + if i in full then [] else [all[i]]
  {
    assert all[..i + 1][..i] == all[..i];
  }

  lemma NotYet<P>(info: Info<P>, all: seq<Output>, i: nat)
    requires i <= BeforeRaise(info, all) && i < |all|
    ensures if Raises(info, all[i]) then BeforeRaise(info, all) == i else i + 1 <= BeforeRaise(info, all)
  {
  }

  method Broadcast(info: SocketInfo, typeId: nat, payload: bytes, full: set<nat>)
    returns (outputs: seq<Output>, raised: bool)
    requires info.kind.Router?
    ensures var all := Transmissions(info.Abs(), [], typeId, payload);
            var n := BeforeRaise(info.Abs(), all);
            outputs == Taken(all[..n], full) && raised == (n < |all|)
  {
    hide BeforeRaise, Raises, Addressed, Taken;
    ghost var all := Transmissions(info.Abs(), [], typeId, payload);
    ghost var n := BeforeRaise(info.Abs(), all);
    outputs := [];
    NoneTaken(all, full);
    for i := 0 to |info.peers|
      invariant i <= n && outputs == Taken(all[..i], full)
    {
      var sent;
      sent, raised := TransmitOne(info, Addressed(info.peers[i].id, typeId, payload), i !in full);
      NotYet(info.Abs(), all, i);
      if raised {
        return outputs, true;
      }
      TakenNext(all, i, full);
      outputs := outputs + sent;
    }
    raised := false;
  }

  lemma NoneTaken(all: seq<Output>, full: set<nat>)
    ensures Taken(all[..0], full) == []
  {
  }

  method TransmitAll(info: SocketInfo, peer: bytes, typeId: nat, payload: bytes, full: set<nat>)
    returns (outputs: seq<Output>, raised: bool)
    ensures var all := Transmissions(info.Abs(), peer, typeId, payload);
            var n := BeforeRaise(info.Abs(), all);
            outputs == Taken(all[..n], full) && raised == (n < |all|)
  {
    if peer == [] && info.kind.Router? {
      outputs, raised := Broadcast(info, typeId, payload, full);
      return;
    }
    hide BeforeRaise, Raises, Addressed, Taken;
    var frames :=
      if peer == [] then [U32(SOCKET_RECV_DATA), U32(typeId), payload] else Addressed(peer, typeId, payload);
    ghost var all := Transmissions(info.Abs(), peer, typeId, payload);
    assert all == [Transmit(Raw(info.socket), frames)];
    outputs, raised := TransmitOne(info, frames, 0 !in full);
    NotYet(info.Abs(), all, 0);
    NoneTaken(all, full);
    TakenNext(all, 0, full);
  }

  method HandleMessage(info: SocketInfo, packet: Packet) returns (outputs: seq<Output>)
    requires WellFormedPacket(info.kind, packet.frames)
    modifies info
    ensures (info.Abs(), outputs) == Receive(old(info.Abs()), packet)
  {
    var frames := packet.frames;
    outputs := [];
    if |frames| < 2 {
      return;
    }
    var at, sender := 1, frames[0];
    if info.kind.Dealer? {
      at, sender := 0, [0];
    }
    var command := ReadU32(frames[at]);
    if command == SOCKET_CONNECTED {
      info.Add(Peer(sender, packet.address, packet.fd));
      outputs := [PostStatus(true, info.name, sender, packet.address)];
    }
    if command == SOCKET_RECV_DATA {
      outputs := [Post(ReadU32(frames[at + 1]), frames[at + 2], info.name, sender, packet.address)];
    }
  }

  method HandleEvent(info: SocketInfo, handle: Handle, event: MonitorEvent) returns (outputs: seq<Output>)
    requires info.socket == Some(handle)
    modifies info
    ensures (info.Abs(), outputs) == Observe(old(info.Abs()), event)
  {
    outputs := [];
    match event {
      case Connected(address) =>
        info.connected := true;
        outputs := [Transmit(handle, [U32(SOCKET_CONNECTED)]), PostStatus(true, info.name, [], address)];
      case Disconnected(fd, address) =>
        if info.kind.Router? {
          var gone := info.RemoveByFd(fd);
          outputs := [PostStatus(false, info.name, gone.id, gone.address)];
        } else {
          info.connected := false;
          outputs := [PostStatus(false, info.name, [], address)];
        }
      case Other =>
    }
  }
}
