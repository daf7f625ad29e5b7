/**
 What becomes of records and of the poll loop itself: how long a record can be looked up,
 which requests end the loop, and which turns the surroundings may not ask for.
 */
module PollerLife {
  import opened Bytes
  import opened Peers
  import opened PollerState
  import opened PollerRuns

  // ---------- Records ----------

  /** What a step other than creation and removal makes of one record. */
  function RecordAfter<P(==)>(info: Info<P>, input: Input<P>): Info<P> {
    match input
    case Open(id, data, monitor, opening) =>
      if id != info.id then info
      else if opening.MonitorFailed? then info.(socket := Some(data))
      else info.(socket := Some(data), monitor := Some(monitor))
    case Close(id) => if id == info.id then CloseInfo(info) else info
    case Data(h, packet) =>
      if info.socket == Some(h) && packet.Some? then Receive(info, packet.value).0 else info
    case Monitor(_, h, event) => if info.socket == Some(h) then Observe(info, event).0 else info
    case Attach(h, x) => if info.socket == Some(h) then Rerouted(info, x, true) else info
    case Detach(h, x) => if info.socket == Some(h) then Rerouted(info, x, false) else info
    case _ => info
  }

  function RecordsAfter<P(==)>(before: Option<Info<P>>, input: Input<P>): Option<Info<P>> {
    match before
    case None => None
    case Some(info) => Some(RecordAfter(info, input))
  }

  /** Replacing the record at k by what the step makes of it. */
  lemma Replaced<P>(s: State<P>, t: State<P>, k: nat, input: Input<P>, id: P)
    requires Records(s) && k < |s.sockets| && t.sockets == s.sockets[k := RecordAfter(s.sockets[k], input)]
    requires RecordAfter(s.sockets[k], input).id == s.sockets[k].id
    requires forall j :: 0 <= j < |s.sockets| && j != k ==> RecordAfter(s.sockets[j], input) == s.sockets[j]
    ensures Lookup(t, id) == RecordsAfter(Lookup(s, id), input)
  {
    hide RecordAfter;
    LookupUpdate(s, t, k, RecordAfter(s.sockets[k], input), id);
    if s.sockets[k].id == id {
      PositionIs(s.sockets, id, k);
    }
  }

  lemma ControlLookup<P>(s: State<P>, input: Input<P>, id: P)
    requires s.running && Records(s) && Legal(s, input) && (input.Open? || input.Close?)
    ensures Lookup(Step(s, input).state, id) == RecordsAfter(Lookup(s, id), input)
  {
    hide ErasePair, Lookup, RecordsAfter;
    var t, k := Step(s, input).state, Position(s.sockets, input.id);
    Replaced(s, t, k, input, id);
  }

  lemma ArrivalLookup<P>(s: State<P>, input: Input<P>, id: P)
    requires s.running && Records(s) && Legal(s, input)
    requires input.Data? || input.Monitor? || input.Attach? || input.Detach?
    ensures Lookup(Step(s, input).state, id) == RecordsAfter(Lookup(s, id), input)
  {
    hide Receive, Observe, Lookup, RecordsAfter;
    var t, k := Step(s, input).state, Owner(s.sockets, input.handle);
    var packet := if input.Data? && input.packet.Some? then input.packet.value else Packet([], 0, []);
    HandlingFrame(s.sockets[k], packet, if input.Monitor? then input.event else Other);
    assert s.sockets[k := s.sockets[k]] == s.sockets;
    Replaced(s, t, k, input, id);
  }

  lemma SendLookup<P>(s: State<P>, input: Input<P>, id: P)
    requires input.Send?
    ensures Lookup(Step(s, input).state, id) == RecordsAfter(Lookup(s, id), input)
  {
    hide Transmissions;
  }

  /** Creation brings a record, removal takes it away, and every other step changes it as it says. */
  lemma LookupStep<P>(s: State<P>, input: Input<P>, id: P)
    requires s.running && Layout(s) && Legal(s, input)
    ensures var t := Step(s, input).state;
            match input
            case Create(other, name, kind) =>
              Lookup(t, id) == if other == id then Some(Blank(id, name, kind)) else Lookup(s, id)
            case Remove(other) => Lookup(t, id) == if other == id then None else Lookup(s, id)
            case _ => Lookup(t, id) == RecordsAfter(Lookup(s, id), input)
  {
    LayoutRecords(s);
    hide Layout, Records, Lookup, RecordsAfter;
    match input
    case Create(other, name, kind) => CreatedLookup(s, other, name, kind, id);
    case Remove(other) => RemovedLookup(s, other, id);
    case Open(_, _, _, _) => ControlLookup(s, input, id);
    case Close(_) => ControlLookup(s, input, id);
    case Send(_, _, _, _, _) => SendLookup(s, input, id);
    case _ => ArrivalLookup(s, input, id);
  }

  /** The record is there before and after, with the same name and kind, or at neither time. */
  ghost predicate SameRecord<P>(before: Option<Info<P>>, after: Option<Info<P>>) {
    match before
    case None => after == None
    case Some(x) => after.Some? && after.value.id == x.id && after.value.name == x.name && after.value.kind == x.kind
  }

  lemma KeptRecord<P>(s: State<P>, input: Input<P>, id: P)
    requires s.running && Layout(s) && Legal(s, input) && !input.Create? && !input.Remove?
    ensures SameRecord(Lookup(s, id), Lookup(Step(s, input).state, id))
  {
    hide Layout, Legal, Step, Receive, Observe;
    LookupStep(s, input, id);
    if Lookup(s, id).Some? {
      var packet := if input.Data? && input.packet.Some? then input.packet.value else Packet([], 0, []);
      HandlingFrame(Lookup(s, id).value, packet, if input.Monitor? then input.event else Other);
    }
  }

  lemma CreatedLookup<P>(s: State<P>, other: P, name: bytes, kind: Kind, id: P)
    requires s.running && Legal(s, Create(other, name, kind))
    ensures Lookup(Step(s, Create(other, name, kind)).state, id)
         == if other == id then Some(Blank(id, name, kind)) else Lookup(s, id)
  {
    LookupAppend(s, Step(s, Create(other, name, kind)).state, Blank(other, name, kind), id);
  }

  lemma ClosingRecords<P>(s: State<P>, k: nat)
    requires Records(s) && k < |s.sockets|
    ensures Records(Closing(s, k))
  {
    hide ErasePair;
  }

  lemma RemovedLookup<P>(s: State<P>, other: P, id: P)
    requires s.running && Records(s) && Legal(s, Remove(other))
    ensures Lookup(Step(s, Remove(other)).state, id) == if other == id then None else Lookup(s, id)
  {
    hide ErasePair, Records, Lookup, Closing;
    var k := Position(s.sockets, other);
    var t := Step(s, Remove(other)).state;
    if s.sockets[k].socket.Some? {
      ClosingRecords(s, k);
      ClosedAt(s, k);
      ClosingSockets(s, k);
      LookupUpdate(s, Closing(s, k), k, CloseInfo(s.sockets[k]), id);
      LookupDrop(Closing(s, k), t, k, id);
    } else {
      LookupDrop(s, t, k, id);
    }
  }

  lemma ClosingSockets<P>(s: State<P>, k: nat)
    requires k < |s.sockets|
    ensures Closing(s, k).sockets == s.sockets[k := CloseInfo(s.sockets[k])]
  {
  }

  // ---------- What a socket can route to ----------

  /** The identity came at place k, and since then neither left nor was the socket opened anew. */
  ghost predicate ConnectedAt<P>(inputs: seq<Input<P>>, k: nat, h: Handle, x: bytes) {
    && k < |inputs| && inputs[k] == Attach(h, x)
    && forall j :: k < j < |inputs| ==> inputs[j] != Detach(h, x) && !(inputs[j].Open? && inputs[j].data == h)
  }

  ghost predicate Attached<P>(inputs: seq<Input<P>>, h: Handle, x: bytes) {
    exists k :: ConnectedAt(inputs, k, h, x)
  }

  lemma AttachedNext<P>(inputs: seq<Input<P>>, input: Input<P>, h: Handle, x: bytes)
    ensures Attached(inputs + [input], h, x) <==>
              input == Attach(h, x)
              || (Attached(inputs, h, x) && input != Detach(h, x) && !(input.Open? && input.data == h))
  {
    var all := inputs + [input];
    assert all[|inputs|] == input && forall j :: 0 <= j < |inputs| ==> all[j] == inputs[j];
    if Attached(all, h, x) && input != Attach(h, x) {
      var k :| ConnectedAt(all, k, h, x);
      assert ConnectedAt(inputs, k, h, x);
    }
    if input == Attach(h, x) {
      assert ConnectedAt(all, |inputs|, h, x);
    } else if Attached(inputs, h, x) && input != Detach(h, x) && !(input.Open? && input.data == h) {
      var k :| ConnectedAt(inputs, k, h, x);
      assert ConnectedAt(all, k, h, x);
    }
  }

  /** An open record's socket can route to just the identities that came and have not left. */
  ghost predicate RoutesRight<P>(inputs: seq<Input<P>>, info: Info<P>) {
    info.socket.Some? ==> forall x :: x in info.routes <==> Attached(inputs, info.socket.value, x)
  }

  lemma RoutesNext<P>(inputs: seq<Input<P>>, input: Input<P>, info: Info<P>)
    requires RoutesRight(inputs, info) && Sound(info)
    requires !(input.Open? && info.socket == Some(input.data))
    requires input.Open? && input.id == info.id ==> info.socket.None?
    ensures RoutesRight(inputs + [input], RecordAfter(info, input))
  {
    hide Receive, Observe, Attached;
    var packet := if input.Data? && input.packet.Some? then input.packet.value else Packet([], 0, []);
    HandlingFrame(info, packet, if input.Monitor? then input.event else Other);
    var next := RecordAfter(info, input);
    if next.socket.Some? {
      forall x ensures x in next.routes <==> Attached(inputs + [input], next.socket.value, x) {
        AttachedNext(inputs, input, next.socket.value, x);
      }
    }
  }

  /** A handle given out for opening belongs to no record yet. */
  lemma OpensFresh<P>(s: State<P>, input: Input<P>, id: P)
    requires Layout(s) && Legal(s, input) && Lookup(s, id).Some?
    ensures Sound(Lookup(s, id).value)
    ensures input.Open? ==> Lookup(s, id).value.socket != Some(input.data)
    ensures input.Open? && input.id == id ==> Lookup(s, id).value.socket.None?
  {
    assert Sound(s.sockets[Position(s.sockets, id)]);
    if input.Open? {
      FreshSocket(s, input.data);
    }
  }

  lemma RoutesStep<P>(s: State<P>, before: seq<Input<P>>, input: Input<P>, id: P)
    requires Inv(s) && Legal(s, input)
    requires s.running && Lookup(s, id).Some? ==> RoutesRight(before, Lookup(s, id).value)
    ensures var t := Step(s, input).state;
            t.running && Lookup(t, id).Some? ==> RoutesRight(before + [input], Lookup(t, id).value)
  {
    if !s.running {
      assert Step(s, input).state == s;
    } else {
      assert Layout(s);
      hide Layout, Step, Legal, Attached, Lookup, Receive, Observe;
      LookupStep(s, input, id);
      if Lookup(s, id).Some? {
        OpensFresh(s, input, id);
        LookupId(s, id);
        RoutesNext(before, input, Lookup(s, id).value);
      }
    }
  }

  lemma LookupId<P>(s: State<P>, id: P)
    requires Lookup(s, id).Some?
    ensures Lookup(s, id).value.id == id
  {
  }

  /** Over every run, what a socket can route to is what the coming and going of its connections leaves. */
  lemma {:induction false} RoutesEveryRun<P>(send: Handle, ctrl: Handle, inputs: seq<Input<P>>, id: P)
    requires send != ctrl && LegalRun(Initial<P>(send, ctrl), inputs)
    ensures var s := PollerState.Run(Initial<P>(send, ctrl), inputs);
            s.running && Lookup(s, id).Some? ==> RoutesRight(inputs, Lookup(s, id).value)
    decreases |inputs|
  {
    hide Legal, Layout, Step, RoutesRight;
    if inputs != [] {
      var last := |inputs| - 1;
      var before, input := inputs[..last], inputs[last];
      var s := PollerState.Run(Initial<P>(send, ctrl), before);
      assert inputs == before + [input];
      LegalRunAppend(Initial<P>(send, ctrl), before, [input]);
      RunAppend(Initial<P>(send, ctrl), before, [input]);
      RunOne(s, input);
      RoutesEveryRun(send, ctrl, before, id);
      EveryRun(send, ctrl, before);
      RoutesStep(s, before, input, id);
    }
  }

  // ---------- Which records there are ----------

  /** The record was created at place k, and not removed since. */
  ghost predicate CreatedAt<P>(inputs: seq<Input<P>>, k: nat, id: P, name: bytes, kind: Kind) {
    k < |inputs| && inputs[k] == Create(id, name, kind) && forall j :: k < j < |inputs| ==> inputs[j] != Remove(id)
  }

  ghost predicate Exists<P>(inputs: seq<Input<P>>, id: P, name: bytes, kind: Kind) {
    exists k :: CreatedAt(inputs, k, id, name, kind)
  }

  /** The record was opened with these sockets at place k, and neither closed nor removed since. */
  ghost predicate OpenedAt<P>(inputs: seq<Input<P>>, k: nat, id: P, data: Handle, monitor: Handle) {
    && k < |inputs| && inputs[k].Open? && inputs[k].id == id && inputs[k].data == data && inputs[k].monitor == monitor
    && forall j :: k < j < |inputs| ==> inputs[j] != Close(id) && inputs[j] != Remove(id)
  }

  ghost predicate HasSockets<P>(inputs: seq<Input<P>>, id: P, data: Handle, monitor: Handle) {
    exists k :: OpenedAt(inputs, k, id, data, monitor)
  }

  lemma ExistsNext<P>(inputs: seq<Input<P>>, input: Input<P>, id: P, name: bytes, kind: Kind)
    ensures Exists(inputs + [input], id, name, kind) <==>
              input == Create(id, name, kind) || (Exists(inputs, id, name, kind) && input != Remove(id))
  {
    var all := inputs + [input];
    assert all[|inputs|] == input && forall j :: 0 <= j < |inputs| ==> all[j] == inputs[j];
    if input == Create(id, name, kind) {
      assert CreatedAt(all, |inputs|, id, name, kind);
    } else if Exists(all, id, name, kind) {
      var k: nat :| CreatedAt(all, k, id, name, kind);
      assert CreatedAt(inputs, k, id, name, kind);
    }
    if Exists(inputs, id, name, kind) && input != Remove(id) {
      var k: nat :| CreatedAt(inputs, k, id, name, kind);
      assert CreatedAt(all, k, id, name, kind);
    }
  }

  predicate Opens<P(==)>(input: Input<P>, id: P, data: Handle, monitor: Handle) {
    input.Open? && input.id == id && input.data == data && input.monitor == monitor
  }

  lemma SocketsNext<P>(inputs: seq<Input<P>>, input: Input<P>, id: P, data: Handle, monitor: Handle)
    ensures HasSockets(inputs + [input], id, data, monitor) <==>
              Opens(input, id, data, monitor)
              || (HasSockets(inputs, id, data, monitor) && input != Close(id) && input != Remove(id))
  {
    var all := inputs + [input];
    assert all[|inputs|] == input && forall j :: 0 <= j < |inputs| ==> all[j] == inputs[j];
    if Opens(input, id, data, monitor) {
      assert OpenedAt(all, |inputs|, id, data, monitor);
    } else if HasSockets(all, id, data, monitor) {
      var k: nat :| OpenedAt(all, k, id, data, monitor);
      assert OpenedAt(inputs, k, id, data, monitor);
    }
    if HasSockets(inputs, id, data, monitor) && input != Close(id) && input != Remove(id) {
      var k: nat :| OpenedAt(inputs, k, id, data, monitor);
      assert OpenedAt(all, k, id, data, monitor);
    }
  }

  ghost predicate Named<P>(r: Option<Info<P>>, name: bytes, kind: Kind) {
    r.Some? && r.value.name == name && r.value.kind == kind
  }

  ghost predicate Holds<P>(r: Option<Info<P>>, data: Handle, monitor: Handle) {
    r.Some? && r.value.socket == Some(data) && r.value.monitor == Some(monitor)
  }

  /** The record is there, under its name and with its sockets, just as the requests left it. */
  ghost predicate Requested<P>(inputs: seq<Input<P>>, id: P, r: Option<Info<P>>) {
    && (forall name, kind :: Exists(inputs, id, name, kind) <==> Named(r, name, kind))
    && (forall data, monitor :: HasSockets(inputs, id, data, monitor) <==> Holds(r, data, monitor))
  }

  lemma RequestedStep<P>(s: State<P>, before: seq<Input<P>>, input: Input<P>, id: P)
    requires Inv(s) && Legal(s, input)
    requires s.running ==> Requested(before, id, Lookup(s, id))
    ensures var t := Step(s, input).state;
            t.running ==> Requested(before + [input], id, Lookup(t, id))
  {
    var t := Step(s, input).state;
    if t.running {
      LookupStep(s, input, id);
      LegalLookup(s, input, id);
      hide Layout, Step, Legal, Exists, HasSockets, Lookup, Receive, Observe;
      forall name, kind ensures Exists(before + [input], id, name, kind) <==> Named(Lookup(t, id), name, kind) {
        ExistsNext(before, input, id, name, kind);
        RecordKeeps(s, input, id);
        assert Exists(before, id, name, kind) <==> Named(Lookup(s, id), name, kind);
      }
      forall data, monitor
        ensures HasSockets(before + [input], id, data, monitor) <==> Holds(Lookup(t, id), data, monitor)
      {
        SocketsNext(before, input, id, data, monitor);
        RecordKeeps(s, input, id);
        assert HasSockets(before, id, data, monitor) <==> Holds(Lookup(s, id), data, monitor);
      }
    }
  }

  lemma LegalLookup<P>(s: State<P>, input: Input<P>, id: P)
    requires Legal(s, input)
    ensures input.Create? && input.id == id ==> Lookup(s, id) == None
    ensures input.Open? && input.id == id ==> Lookup(s, id).Some? && Lookup(s, id).value.socket == None
    ensures s.running && Step(s, input).state.running && input.Open? ==> input.opening.Opened?
    ensures Lookup(s, id).Some? ==> Lookup(s, id).value.id == id
  {
  }

  /** What messages, events and connections leave alone. */
  lemma RecordKeeps<P>(s: State<P>, input: Input<P>, id: P)
    ensures Lookup(s, id).Some? ==>
              var info := Lookup(s, id).value;
              var next := RecordAfter(info, input);
              && next.name == info.name && next.kind == info.kind
              && (!input.Open? && !input.Close? ==> next.socket == info.socket && next.monitor == info.monitor)
  {
    hide Receive, Observe, Lookup;
    if Lookup(s, id).Some? {
      var packet := if input.Data? && input.packet.Some? then input.packet.value else Packet([], 0, []);
      HandlingFrame(Lookup(s, id).value, packet, if input.Monitor? then input.event else Other);
    }
  }

  /**
   Over every run of a live loop: a record is there exactly if it was created and not removed
   since, under the name and kind it was created with; and it has exactly the sockets it was
   opened with, if it was neither closed nor removed since.
   */
  lemma {:induction false} RecordsEveryRun<P>(send: Handle, ctrl: Handle, inputs: seq<Input<P>>, id: P)
    requires send != ctrl && LegalRun(Initial<P>(send, ctrl), inputs)
    ensures var s := PollerState.Run(Initial<P>(send, ctrl), inputs);
            s.running ==> Requested(inputs, id, Lookup(s, id))
    decreases |inputs|
  {
    hide Legal, Layout, Step, Requested;
    if inputs != [] {
      var last := |inputs| - 1;
      var before, input := inputs[..last], inputs[last];
      var s := PollerState.Run(Initial<P>(send, ctrl), before);
      assert inputs == before + [input];
      LegalRunAppend(Initial<P>(send, ctrl), before, [input]);
      RunAppend(Initial<P>(send, ctrl), before, [input]);
      RunOne(s, input);
      RecordsEveryRun(send, ctrl, before, id);
      EveryRun(send, ctrl, before);
      RequestedStep(s, before, input, id);
    } else {
      NothingRequested<P>(send, ctrl, id);
    }
  }

  lemma NothingRequested<P>(send: Handle, ctrl: Handle, id: P)
    ensures Requested<P>([], id, Lookup(Initial<P>(send, ctrl), id))
  {
  }

  // ---------- How long the loop lives ----------

  /**
   A request that cannot be carried out in full: on a closed record one that names a peer or
   comes from a client; on an open server one for a peer its socket cannot route to.
   */
  predicate Unreachable<P>(info: Info<P>, peer: bytes) {
    if info.socket.None? then info.kind.Dealer? || peer != []
    else info.kind.Router?
         && if peer != [] then peer !in info.routes else exists p :: p in info.view.peers && p.id !in info.routes
  }

  /** What ends the loop: an open that fails, a send that cannot be carried out in full. */
  predicate Stops<P(==)>(s: State<P>, input: Input<P>) {
    match input
    case Open(_, _, _, opening) => !opening.Opened?
    case Send(id, peer, _, _, _) => Lookup(s, id).Some? && Unreachable(Lookup(s, id).value, peer)
    case _ => false
  }

  lemma RaisesExactly<P>(info: Info<P>, peer: bytes, typeId: nat, payload: bytes)
    requires Sound(info)
    ensures var all := Transmissions(info, peer, typeId, payload);
            BeforeRaise(info, all) < |all| <==> Unreachable(info, peer)
  {
    var all := Transmissions(info, peer, typeId, payload);
    if info.socket.Some? && info.kind.Router? && peer == [] {
      BroadcastReaches(info, typeId, payload);
    }
  }

  lemma StopsExactly<P>(s: State<P>, input: Input<P>)
    requires s.running && Inv(s) && Legal(s, input)
    ensures Step(s, input).state.running <==> !Stops(s, input)
  {
    hide Receive, Observe, Transmissions, Unreachable;
    if input.Send? {
      assert Sound(s.sockets[Position(s.sockets, input.id)]);
      RaisesExactly(Lookup(s, input.id).value, input.peer, input.typeId, input.payload);
    }
  }

  /**
   The loop is alive after a run exactly when no open failed and no send named a closed
   record with a peer or from a client, a peer its server could not route to, or everyone
   while some listed peer could not be routed to.
   */
  lemma {:induction false} AliveExactly<P>(s: State<P>, inputs: seq<Input<P>>)
    requires s.running && Inv(s) && LegalRun(s, inputs)
    ensures PollerState.Run(s, inputs).running <==>
            forall k :: 0 <= k < |inputs| ==> !Stops(PollerState.Run(s, inputs[..k]), inputs[k])
    decreases inputs
  {
    if inputs != [] {
      hide Step, Stops, Legal, Inv;
      var t, later := Step(s, inputs[0]).state, inputs[1..];
      StopsExactly(s, inputs[0]);
      StepKeeps(s, inputs[0]);
      assert PollerState.Run(s, inputs[..0]) == s;
      if t.running {
        AliveExactly(t, later);
        forall k | 0 < k < |inputs|
          ensures inputs[k] == later[k - 1] && PollerState.Run(s, inputs[..k]) == PollerState.Run(t, later[..k - 1])
        {
          assert inputs[..k][1..] == later[..k - 1];
        }
        assert forall j :: 0 <= j < |later| ==> later[j] == inputs[j + 1];
      } else {
        DeadStays(t, later);
      }
    }
  }

  lemma {:induction false} DeadStays<P>(s: State<P>, inputs: seq<Input<P>>)
    requires !s.running
    ensures PollerState.Run(s, inputs) == s
    decreases inputs
  {
    if inputs != [] {
      DeadStays(s, inputs[1..]);
    }
  }

  /**
   A turn handles a closing before a send that came first: then the send ends the loop
   exactly when it is a client's or names a peer.
   */
  lemma CloseOvertakesSend<P>(s: State<P>, id: P, peer: bytes, typeId: nat, payload: bytes, full: set<nat>)
    requires s.running && Inv(s) && Legal(s, Close(id))
    ensures var t, send := Step(s, Close(id)).state, Send(id, peer, typeId, payload, full);
            && Legal(t, send)
            && (Step(t, send).state.running <==> Lookup(s, id).value.kind.Router? && peer == [])
  {
    hide Layout, Step, Transmissions;
    var t, send := Step(s, Close(id)).state, Send(id, peer, typeId, payload, full);
    StepKeeps(s, Close(id));
    StopsExactly(s, Close(id));
    LookupStep(s, Close(id), id);
    StopsExactly(t, send);
  }

  // ---------- Clients that leave ----------

  /** An open server's record, with what its socket can route to. */
  ghost predicate Server<P>(s: State<P>, id: P, h: Handle, info: Info<P>) {
    Lookup(s, id) == Some(info) && info.kind.Router? && info.socket == Some(h)
  }

  lemma DetachedServer<P>(s: State<P>, id: P, h: Handle, info: Info<P>, x: bytes)
    requires s.running && Inv(s) && Server(s, id, h, info)
    ensures Legal(s, Detach(h, x))
    ensures var t := Step(s, Detach(h, x)).state;
            t.running && Inv(t) && Server(t, id, h, Rerouted(info, x, false))
  {
    hide Layout;
    LayoutRecords(s);
    OwnerIs(s, Position(s.sockets, id));
    StepKeeps(s, Detach(h, x));
    LookupStep(s, Detach(h, x), id);
  }

  /**
   One client that leaves before its disconnect is handled is enough: the next send to
   everyone, or to it, ends the loop for every channel of the process.
   */
  lemma DepartureStops<P>(
    s: State<P>, id: P, h: Handle, info: Info<P>, p: Peer, peer: bytes, typeId: nat, payload: bytes, full: set<nat>)
    requires s.running && Inv(s) && Server(s, id, h, info) && p in info.view.peers
    requires peer == [] || peer == p.id
    ensures Legal(s, Detach(h, p.id))
    ensures var t, send := Step(s, Detach(h, p.id)).state, Send(id, peer, typeId, payload, full);
            Legal(t, send) && !Step(t, send).state.running
  {
    hide Layout, Step, Transmissions;
    DetachedServer(s, id, h, info, p.id);
    StopsExactly(Step(s, Detach(h, p.id)).state, Send(id, peer, typeId, payload, full));
  }

  /** With its disconnect handled first, and nobody else gone, a send to everyone leaves the loop alive. */
  lemma DisconnectInTime<P>(
    s: State<P>, id: P, h: Handle, m: Handle, info: Info<P>, k: nat, address: bytes,
    typeId: nat, payload: bytes, full: set<nat>)
    requires s.running && Inv(s) && Server(s, id, h, info) && info.monitor == Some(m)
    requires k < |info.view.peers| && First(info.view.peers, WithFd(info.view.peers[k].fd)) == k
    requires var p := info.view.peers;
             forall j :: 0 <= j < |p| && j != k ==> p[j].id in info.routes && p[j].id != p[k].id
    ensures var p := info.view.peers[k];
            var t := Step(s, Detach(h, p.id)).state;
            var gone := Monitor(m, h, Disconnected(p.fd, address));
            && Legal(s, Detach(h, p.id)) && Legal(t, gone)
            && var u := Step(t, gone).state;
               && Legal(u, Send(id, [], typeId, payload, full))
               && Step(u, Send(id, [], typeId, payload, full)).state.running
  {
    hide Layout, Transmissions;
    var p := info.view.peers[k];
    DetachedServer(s, id, h, info, p.id);
    var t, gone := Step(s, Detach(h, p.id)).state, Monitor(m, h, Disconnected(p.fd, address));
    LayoutRecords(t);
    OwnerIs(t, Position(t.sockets, id));
    assert Legal(t, gone);
    hide Step;
    StepKeeps(t, gone);
    StopsExactly(t, gone);
    LookupStep(t, gone, id);
    StopsExactly(Step(t, gone).state, Send(id, [], typeId, payload, full));
  }

  // ---------- Turns that are asked too much ----------

  predicate Control<P>(input: Input<P>) {
    input.Create? || input.Open? || input.Close? || input.Remove?
  }

  /**
   A turn handles the control request before the send request. A send whose record is live
   when the turn begins still finds it exactly when the control request is not its removal.
   */
  lemma SendSurvivesControl<P>(
    s: State<P>, ctrl: Input<P>, id: P, peer: bytes, typeId: nat, payload: bytes, full: set<nat>)
    requires s.running && Inv(s) && Control(ctrl) && Legal(s, ctrl) && Legal(s, Send(id, peer, typeId, payload, full))
    ensures Legal(Step(s, ctrl).state, Send(id, peer, typeId, payload, full)) <==> ctrl != Remove(id)
  {
    hide Step, Layout;
    LookupStep(s, ctrl, id);
  }

  /** With a removal pending, the send that names the record is legal before the turn but not within it. */
  lemma RemovalPending<P>(
    s: State<P>, a: Arrivals, id: P, peer: bytes, typeId: nat, payload: bytes, full: set<nat>)
    requires s.running && Inv(s) && Legal(s, Remove(id)) && |s.items| >= 2
    requires s.items[0] in a.ready && s.items[1] in a.ready
    ensures !TurnLegal(s, a, Some(Remove(id)), Some(Send(id, peer, typeId, payload, full)))
  {
    LookupStep(s, Remove(id), id);
    RunOne(s, Remove(id));
    assert Step(s, Remove(id)).state.running;
  }

  function OneClient(name: bytes): State<nat> {
    State(0, 1, [0, 1, 2, 3], [Blank(7, name, Dealer).(socket := Some(2), monitor := Some(3))], true)
  }

  lemma OneClientRun(name: bytes)
    ensures PollerState.Run<nat>(Initial(0, 1), [Create(7, name, Dealer), Open(7, 2, 3, Opened)]) == OneClient(name)
  {
    var start: State<nat> := Initial(0, 1);
    var create, open := Create(7, name, Dealer), Open(7, 2, 3, Opened);
    var made := State(0, 1, [0, 1], [Blank(7, name, Dealer)], true);
    assert Step(start, create).state == made;
    assert Step(made, open).state == OneClient(name);
    hide Step, PollerState.Run;
    RunOne(start, create);
    RunOne(made, open);
    RunAppend(start, [create], [open]);
    assert [create] + [open] == [create, open];
  }

  lemma OneClientLayout(name: bytes)
    ensures Layout(OneClient(name))
  {
    var s := OneClient(name);
    assert PairAt(s.items, 2, 2, 3);
    assert Owns(s.sockets[0], s.items[2], s.items[3]);
  }

  /** The smallest case: a channel is made and opened, sends, and is destroyed before the next turn. */
  lemma SendThenDestroy(name: bytes, payload: bytes, a: Arrivals)
    requires 0 in a.ready && 1 in a.ready
    ensures var s := PollerState.Run<nat>(Initial(0, 1), [Create(7, name, Dealer), Open(7, 2, 3, Opened)]);
            && s == OneClient(name) && Legal<nat>(s, Remove(7)) && Legal<nat>(s, Send(7, [], 0, payload, {}))
            && !TurnLegal<nat>(s, a, Some(Remove(7)), Some(Send(7, [], 0, payload, {})))
  {
    hide PollerState.Run, TurnLegal, Step, Layout;
    OneClientRun(name);
    OneClientLayout(name);
    RemovalPending(OneClient(name), a, 7, [], 0, payload, {});
  }

  // ---------- Every legal turn is a legal run ----------

  lemma {:induction false} LegalRunAppend<P>(s: State<P>, x: seq<Input<P>>, y: seq<Input<P>>)
    ensures LegalRun(s, x + y) <==> LegalRun(s, x) && LegalRun(PollerState.Run(s, x), y)
    decreases x
  {
    hide Step, Legal;
    if x == [] {
      assert x + y == y;
    } else {
      assert (x + y)[1..] == x[1..] + y;
      LegalRunAppend(Step(s, x[0]).state, x[1..], y);
    }
  }

  lemma PreludeLegal<P>(s: State<P>, marked: bool, input: Option<Input<P>>)
    requires input.Some? && marked ==> Legal(s, input.value)
    ensures LegalRun(s, Prelude(marked, input))
  {
    hide Step, Legal;
  }

  lemma TurnLegalRun<P>(s: State<P>, a: Arrivals, ctrl: Option<Input<P>>, send: Option<Input<P>>)
    requires s.running && Inv(s) && |s.items| >= 2 && TurnLegal(s, a, ctrl, send)
    ensures LegalRun(s, TurnInputs(s, a, ctrl, send))
  {
    hide Step, Legal, Inv, SoundArrivals, TurnLegal;
    var polled := Polled(s.items, a);
    var first, second := Prelude(s.items[1] in polled, ctrl), Prelude(s.items[0] in polled, send);
    var s1 := PollerState.Run(s, first);
    var s2 := PollerState.Run(s1, second);
    TurnParts(s, a, ctrl, send);
    TurnJoins(s, a, ctrl, send);
    PreludeLegal(s, s.items[1] in polled, ctrl);
    RunKeeps(s, first);
    if s1.running {
      PreludeLegal(s1, s.items[0] in polled, send);
      RunKeeps(s1, second);
      if s2.running {
        PairLoopSound(s2, polled, a);
        LegalRunAppend(s1, second, PairInputs<P>(s2.items, 2, polled, a));
      }
      LegalRunAppend(s, first, AfterControl(s1, polled, s.items[0] in polled, a, send));
    }
  }

  /**
   A turn handles the send request before any event. So a disconnect that is already waiting
   when the turn begins does not help: the send to everyone still meets the peer in the list.
   */
  lemma SendOvertakesDisconnect<P>(
    s: State<P>, a: Arrivals, id: P, h: Handle, info: Info<P>, p: Peer, typeId: nat, payload: bytes, full: set<nat>)
    requires s.running && Inv(s) && |s.items| >= 2 && s.items[0] in a.ready
    requires Server(s, id, h, info) && p in info.view.peers && p.id !in info.routes
    ensures !PollerState.Run(s, TurnInputs(s, a, None, Some(Send(id, [], typeId, payload, full)))).running
  {
    hide Layout, Step, Transmissions, TurnInputs;
    var send := Send(id, [], typeId, payload, full);
    StopsExactly(s, send);
    RunOne(s, send);
    RunNone(s);
    TurnJoins(s, a, None, Some(send));
    assert s.items[0] in Polled(s.items, a);
  }
}
