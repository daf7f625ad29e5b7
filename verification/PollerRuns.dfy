/**
 What whole runs and whole turns of the poller amount to: a server record's peer list is
 its outstanding handshakes, and one turn of the poll loop handles each ready item once.
 */
module PollerRuns {
  import opened Bytes
  import opened Peers
  import opened PollerState

  // ---------- Peer lists over runs ----------

  function Lookup<P(==)>(s: State<P>, id: P): Option<Info<P>> {
    var k := Position(s.sockets, id);
    if k < |s.sockets| then Some(s.sockets[k]) else None
  }

  function OwnerId<P>(s: State<P>, h: Handle): Option<P> {
    var k := Owner(s.sockets, h);
    if k < |s.sockets| then Some(s.sockets[k].id) else None
  }

  /** The handshake a message to the record carries, if it is one. */
  function HandshakeOf<P>(info: Info<P>, packet: Packet): seq<Event> {
    var frames, at := packet.frames, CommandAt(info.kind);
    if |frames| >= 2 && WellFormedPacket(info.kind, frames) && ReadU32(frames[at]) == SOCKET_CONNECTED then
      [Handshake(Peer(if info.kind.Dealer? then [0] else frames[0], packet.address, packet.fd))]
    else []
  }

  /** The connection events of a record since it was last created or closed. */
  function Recorded<P(==)>(s: State<P>, input: Input<P>, id: P, before: seq<Event>): seq<Event> {
    if !s.running then before else
    match input
    case Create(other, _, _) => if other == id then [] else before
    case Close(other) => if other == id then [] else before
    case Remove(other) => if other == id then [] else before
    case Data(h, packet) =>
      if OwnerId(s, h) == Some(id) && packet.Some? then
        before + HandshakeOf(s.sockets[Owner(s.sockets, h)], packet.value)
      else before
    case Monitor(_, h, event) =>
      if OwnerId(s, h) == Some(id) && event.Disconnected? then before + [Disconnect(event.fd)] else before
    case Open(_, _, _, _) => before
    case Send(_, _, _, _, _) => before
    case Attach(_, _) => before
    case Detach(_, _) => before
  }

  function History<P(==)>(s: State<P>, inputs: seq<Input<P>>, id: P, before: seq<Event>): seq<Event>
    decreases inputs
  {
    if inputs == [] then before
    else History(Step(s, inputs[0]).state, inputs[1..], id, Recorded(s, inputs[0], id, before))
  }

  /** While the loop runs, a server's view is what its events amount to. */
  ghost predicate Follows<P>(s: State<P>, id: P, events: seq<Event>) {
    var info := Lookup(s, id);
    s.running && info.Some? && info.value.kind.Router? ==> info.value.view == Peers.Run(events)
  }

  lemma RunSnoc(events: seq<Event>, e: Event)
    ensures Peers.Run(events + [e]) == Apply(Peers.Run(events), e)
  {
    assert (events + [e])[..|events|] == events;
  }

  lemma {:induction false} PositionUpdate<P>(sockets: seq<Info<P>>, k: nat, info: Info<P>, id: P)
    requires k < |sockets| && info.id == sockets[k].id
    ensures Position(sockets[k := info], id) == Position(sockets, id)
  {
    if k > 0 {
      assert sockets[k := info][1..] == sockets[1..][k - 1 := info];
      PositionUpdate(sockets[1..], k - 1, info, id);
    } else {
      assert sockets[k := info][1..] == sockets[1..];
    }
  }

  lemma LookupUpdate<P>(s: State<P>, t: State<P>, k: nat, info: Info<P>, id: P)
    requires k < |s.sockets| && info.id == s.sockets[k].id && t.sockets == s.sockets[k := info]
    requires Records(s)
    ensures Lookup(t, id) == if s.sockets[k].id == id then Some(info) else Lookup(s, id)
  {
    PositionUpdate(s.sockets, k, info, id);
    if s.sockets[k].id == id {
      PositionIs(s.sockets, id, k);
    }
  }

  lemma LookupDrop<P>(s: State<P>, t: State<P>, k: nat, id: P)
    requires k < |s.sockets| && t.sockets == s.sockets[..k] + s.sockets[k + 1..] && Records(s)
    ensures Lookup(t, id) == if s.sockets[k].id == id then None else Lookup(s, id)
  {
    var p := Position(s.sockets, id);
    if s.sockets[k].id != id && p < |s.sockets| {
      var p' := if p < k then p else p - 1;
      assert t.sockets[p'] == s.sockets[p];
      PositionIs(t.sockets, id, p');
    }
  }

  lemma LookupAppend<P>(s: State<P>, t: State<P>, info: Info<P>, id: P)
    requires t.sockets == s.sockets + [info] && Position(s.sockets, info.id) == |s.sockets|
    ensures Lookup(t, id) == if info.id == id then Some(info) else Lookup(s, id)
  {
    var p, q := Position(s.sockets, id), Position(t.sockets, id);
    if p < |s.sockets| {
      assert t.sockets[p] == s.sockets[p];
      assert q == p;
    } else {
      assert t.sockets[|s.sockets|] == info;
    }
  }

  lemma ReceiveApplies<P>(info: Info<P>, packet: Packet, events: seq<Event>)
    requires info.view == Peers.Run(events)
    ensures Receive(info, packet).0.view == Peers.Run(events + HandshakeOf(info, packet))
  {
    var more := HandshakeOf(info, packet);
    if more == [] {
      assert events + more == events;
    } else {
      RunSnoc(events, more[0]);
    }
  }

  lemma ObserveApplies<P>(info: Info<P>, event: MonitorEvent, events: seq<Event>)
    requires info.kind.Router? && info.view == Peers.Run(events) && !event.Connected?
    ensures Observe(info, event).0.view ==
            Peers.Run(if event.Disconnected? then events + [Disconnect(event.fd)] else events)
  {
    if event.Disconnected? {
      RunSnoc(events, Disconnect(event.fd));
    }
  }

  lemma FollowsData<P>(s: State<P>, h: Handle, packet: Packet, id: P, events: seq<Event>)
    requires s.running && Layout(s) && Legal(s, Data(h, Some(packet))) && Follows(s, id, events)
    ensures var input := Data(h, Some(packet));
            Follows(Step(s, input).state, id, Recorded(s, input, id, events))
  {
    hide Layout, Receive, HandshakeOf;
    var k := Owner(s.sockets, h);
    HandlingFrame(s.sockets[k], packet, Other);
    LayoutRecords(s);
    LookupUpdate(s, Step(s, Data(h, Some(packet))).state, k, Receive(s.sockets[k], packet).0, id);
    if s.sockets[k].id == id {
      PositionIs(s.sockets, id, k);
      if s.sockets[k].kind.Router? {
        ReceiveApplies(s.sockets[k], packet, events);
      }
    }
  }

  lemma LayoutRecords<P>(s: State<P>)
    requires Layout(s)
    ensures Records(s)
    ensures forall i, j :: 0 <= i < j < |s.sockets| ==> s.sockets[i].id != s.sockets[j].id
  {
  }

  lemma FollowsMonitor<P>(s: State<P>, m: Handle, h: Handle, event: MonitorEvent, id: P, events: seq<Event>)
    requires s.running && Layout(s) && Legal(s, Monitor(m, h, event)) && Follows(s, id, events)
    ensures var input := Monitor(m, h, event);
            Follows(Step(s, input).state, id, Recorded(s, input, id, events))
  {
    hide Layout, Observe;
    var k := Owner(s.sockets, h);
    HandlingFrame(s.sockets[k], Packet([], 0, []), event);
    LayoutRecords(s);
    LookupUpdate(s, Step(s, Monitor(m, h, event)).state, k, Observe(s.sockets[k], event).0, id);
    if s.sockets[k].id == id {
      PositionIs(s.sockets, id, k);
      if s.sockets[k].kind.Router? {
        ObserveApplies(s.sockets[k], event, events);
      }
    }
  }

  lemma FollowsControl<P>(s: State<P>, input: Input<P>, id: P, events: seq<Event>)
    requires s.running && Layout(s) && Legal(s, input) && Follows(s, id, events)
    requires !input.Data? && !input.Monitor? && !input.Attach? && !input.Detach?
    ensures Follows(Step(s, input).state, id, Recorded(s, input, id, events))
  {
    hide Layout, ErasePair, Transmissions;
    LayoutRecords(s);
    var t := Step(s, input).state;
    match input
    case Create(other, name, kind) =>
      LookupAppend(s, t, Blank(other, name, kind), id);
    case Open(other, data, monitor, opening) =>
      var k := Position(s.sockets, other);
      LookupUpdate(s, t, k, t.sockets[k], id);
      if s.sockets[k].id == id {
        PositionIs(s.sockets, id, k);
      }
    case Close(other) =>
      var k := Position(s.sockets, other);
      LookupUpdate(s, t, k, CloseInfo(s.sockets[k]), id);
    case Remove(other) =>
      var k := Position(s.sockets, other);
      if s.sockets[k].socket.Some? {
        LookupUpdate(s, Closing(s, k), k, CloseInfo(s.sockets[k]), id);
        CloseKeeps(s, k);
        LayoutRecords(Closing(s, k));
        LookupDrop(Closing(s, k), t, k, id);
      } else {
        LookupDrop(s, t, k, id);
      }
    case Send(_, _, _, _, _) =>
  }

  lemma FollowsRouting<P>(s: State<P>, input: Input<P>, id: P, events: seq<Event>)
    requires s.running && Layout(s) && Legal(s, input) && Follows(s, id, events)
    requires input.Attach? || input.Detach?
    ensures Follows(Step(s, input).state, id, Recorded(s, input, id, events))
  {
    hide Layout;
    LayoutRecords(s);
    var k := Owner(s.sockets, input.handle);
    LookupUpdate(s, Step(s, input).state, k, Rerouted(s.sockets[k], input.identity, input.Attach?), id);
    if s.sockets[k].id == id {
      PositionIs(s.sockets, id, k);
    }
  }

  lemma {:induction false} FollowsRun<P>(s: State<P>, inputs: seq<Input<P>>, id: P, events: seq<Event>)
    requires Inv(s) && LegalRun(s, inputs) && Follows(s, id, events)
    ensures Follows(PollerState.Run(s, inputs), id, History(s, inputs, id, events))
    decreases inputs
  {
    if inputs != [] {
      hide Layout, Step, Recorded, Legal, Follows;
      StepFollows(s, inputs[0], id, events);
      StepKeeps(s, inputs[0]);
      FollowsRun(Step(s, inputs[0]).state, inputs[1..], id, Recorded(s, inputs[0], id, events));
    }
  }

  lemma StepFollows<P>(s: State<P>, input: Input<P>, id: P, events: seq<Event>)
    requires Inv(s) && Legal(s, input) && Follows(s, id, events)
    ensures Follows(Step(s, input).state, id, Recorded(s, input, id, events))
  {
    hide Layout;
    if s.running {
      match input
      case Data(h, packet) =>
        if packet.Some? {
          FollowsData(s, h, packet.value, id, events);
        }
      case Monitor(m, h, event) => FollowsMonitor(s, m, h, event, id, events);
      case Attach(_, _) => FollowsRouting(s, input, id, events);
      case Detach(_, _) => FollowsRouting(s, input, id, events);
      case _ => FollowsControl(s, input, id, events);
    }
  }

  /**
   Over every run, an open server's peer list is exactly the handshakes not yet followed by
   a disconnect on the same descriptor, in arrival order, and the flag says whether there
   are any.
   */
  lemma ServerPeersEveryRun<P>(send: Handle, ctrl: Handle, inputs: seq<Input<P>>, id: P)
    requires send != ctrl && LegalRun(Initial<P>(send, ctrl), inputs)
    requires DistinctDescriptors(History(Initial<P>(send, ctrl), inputs, id, []))
    ensures var s := PollerState.Run(Initial<P>(send, ctrl), inputs);
            var live := Outstanding(History(Initial<P>(send, ctrl), inputs, id, []));
            var info := Lookup(s, id);
            s.running && info.Some? && info.value.kind.Router? ==> info.value.view == View(live, live != [])
  {
    FollowsRun(Initial<P>(send, ctrl), inputs, id, []);
    ServerPeers(History(Initial<P>(send, ctrl), inputs, id, []));
  }

  /** How many peers, from the first on, a socket can still route to. */
  function Reachable(peers: seq<Peer>, routes: set<bytes>): (n: nat)
    ensures n <= |peers|
    ensures n < |peers| ==> peers[n].id !in routes
    ensures forall i :: 0 <= i < n ==> peers[i].id in routes
  {
    if peers == [] || peers[0].id !in routes then 0 else 1 + Reachable(peers[1..], routes)
  }

  /** The messages of a broadcast to these peers, save those at the places in `full`. */
  function Addressing(socket: Handle, peers: seq<Peer>, typeId: nat, payload: bytes, full: set<nat>): seq<Output> {
    Taken(seq(|peers|, i requires 0 <= i < |peers| => Transmit(socket, Addressed(peers[i].id, typeId, payload))), full)
  }

  /** The message is at some place where it is not refused. */
  ghost predicate NotRefused(all: seq<Output>, full: set<nat>, message: Output) {
    exists i :: 0 <= i < |all| && i !in full && all[i] == message
  }

  lemma NotRefusedNext(all: seq<Output>, last: Output, full: set<nat>, message: Output)
    ensures NotRefused(all + [last], full, message)
            <==> NotRefused(all, full, message) || (|all| !in full && message == last)
  {
    var more := all + [last];
    assert more[|all|] == last;
    if NotRefused(more, full, message) {
      var i :| 0 <= i < |more| && i !in full && more[i] == message;
      assert i < |all| ==> all[i] == message;
    }
    if NotRefused(all, full, message) {
      var i :| 0 <= i < |all| && i !in full && all[i] == message;
      assert more[i] == message;
    }
  }

  /** What the transport takes is what was not refused, and everything if there is room for all. */
  lemma {:induction false} TakenContents(all: seq<Output>, full: set<nat>, message: Output)
    ensures message in Taken(all, full) <==> NotRefused(all, full, message)
    ensures full == {} ==> Taken(all, full) == all
    decreases |all|
  {
    if all != [] {
      hide NotRefused;
      var last := |all| - 1;
      TakenContents(all[..last], full, message);
      assert all == all[..last] + [all[last]];
      NotRefusedNext(all[..last], all[last], full, message);
    }
  }

  lemma TakenOne(message: Output, full: set<nat>)
    ensures Taken([message], full) == if 0 in full then [] else [message]
    ensures Taken([message][..1], full) == Taken([message], full) && Taken([message][..0], full) == []
  {
    assert [message][..1] == [message] && [message][..0] == [];
  }

  lemma BroadcastReaches<P>(info: Info<P>, typeId: nat, payload: bytes)
    requires info.kind.Router? && info.socket.Some?
    ensures BeforeRaise(info, Transmissions(info, [], typeId, payload)) == Reachable(info.view.peers, info.routes)
  {
    var all, peers := Transmissions(info, [], typeId, payload), info.view.peers;
    var n, m := BeforeRaise(info, all), Reachable(peers, info.routes);
    assert |all| == |peers| && forall i :: 0 <= i < |all| ==> all[i].frames[0] == peers[i].id;
    assert forall i :: 0 <= i < |all| ==> (Raises(info, all[i]) <==> peers[i].id !in info.routes);
  }

  /**
   Over every run: sending to everyone addresses the outstanding handshakes one by one, in
   the order they came, up to the first whose peer the socket can no longer route to. There
   the transport raises and the loop ends; so one peer that left before its disconnect was
   handled keeps the message from all the later ones, and stops the poller.
   */
  lemma BroadcastEveryRun<P>(
    send: Handle, ctrl: Handle, inputs: seq<Input<P>>, id: P, typeId: nat, payload: bytes, full: set<nat>)
    requires send != ctrl && LegalRun(Initial<P>(send, ctrl), inputs)
    requires DistinctDescriptors(History(Initial<P>(send, ctrl), inputs, id, []))
    ensures var s := PollerState.Run(Initial<P>(send, ctrl), inputs);
            var live := Outstanding(History(Initial<P>(send, ctrl), inputs, id, []));
            var info := Lookup(s, id);
            s.running && info.Some? && info.value.kind.Router? && info.value.socket.Some? ==>
              var r := Step(s, Send(id, [], typeId, payload, full));
              var n := Reachable(live, info.value.routes);
              && r.outputs == Addressing(info.value.socket.value, live[..n], typeId, payload, full)
              && (r.state.running <==> forall p :: p in live ==> p.id in info.value.routes)
  {
    ServerPeersEveryRun(send, ctrl, inputs, id);
    var s := PollerState.Run(Initial<P>(send, ctrl), inputs);
    var info := Lookup(s, id);
    if s.running && info.Some? && info.value.kind.Router? && info.value.socket.Some? {
      BroadcastReaches(info.value, typeId, payload);
      BroadcastStep(s, id, typeId, payload, full);
    }
  }

  lemma BroadcastStep<P>(s: State<P>, id: P, typeId: nat, payload: bytes, full: set<nat>)
    requires s.running && Lookup(s, id).Some?
    requires Lookup(s, id).value.kind.Router? && Lookup(s, id).value.socket.Some?
    ensures var info := Lookup(s, id).value;
            var r := Step(s, Send(id, [], typeId, payload, full));
            var peers := info.view.peers;
            var n := Reachable(peers, info.routes);
            && r.outputs == Addressing(info.socket.value, peers[..n], typeId, payload, full)
            && (r.state.running <==> forall p :: p in peers ==> p.id in info.routes)
  {
    var info := Lookup(s, id).value;
    var all, peers := Transmissions(info, [], typeId, payload), info.view.peers;
    var n := Reachable(peers, info.routes);
    BroadcastReaches(info, typeId, payload);
    assert all[..n]
        == seq(n, i requires 0 <= i < n => Transmit(info.socket.value, Addressed(peers[..n][i].id, typeId, payload)));
  }

  // ---------- One turn of the poll loop ----------

  function Outputs<P(==)>(s: State<P>, inputs: seq<Input<P>>): seq<Output>
    decreases inputs
  {
    if inputs == [] then [] else Step(s, inputs[0]).outputs + Outputs(Step(s, inputs[0]).state, inputs[1..])
  }

  lemma {:induction false} RunAppend<P>(s: State<P>, x: seq<Input<P>>, y: seq<Input<P>>)
    ensures PollerState.Run(s, x + y) == PollerState.Run(PollerState.Run(s, x), y)
    ensures Outputs(s, x + y) == Outputs(s, x) + Outputs(PollerState.Run(s, x), y)
    decreases x
  {
    hide Step;
    if x == [] {
      assert x + y == y;
    } else {
      assert (x + y)[1..] == x[1..] + y;
      RunAppend(Step(s, x[0]).state, x[1..], y);
    }
  }

  lemma RunNone<P>(s: State<P>)
    ensures PollerState.Run(s, []) == s && Outputs(s, []) == []
  {
  }

  lemma RunOne<P>(s: State<P>, input: Input<P>)
    ensures PollerState.Run(s, [input]) == Step(s, input).state
    ensures Outputs(s, [input]) == Step(s, input).outputs
  {
    hide Step;
    assert [input][1..] == [];
    assert PollerState.Run(Step(s, input).state, []) == Step(s, input).state;
  }

  /** What polling finds ready, and what a receive on each handle would give. */
  datatype Arrivals = Arrivals(ready: set<Handle>, packets: Handle -> Option<Packet>, events: Handle -> MonitorEvent)

  /** The loop over pairs, from index i on. */
  function PairInputs<P>(items: seq<Handle>, i: nat, polled: set<Handle>, a: Arrivals): seq<Input<P>>
    decreases |items| - i
  {
    if i + 1 >= |items| then []
    else
      (if items[i] in polled then [Data(items[i], a.packets(items[i]))] else [])
      + (if items[i + 1] in polled then [Monitor(items[i + 1], items[i], a.events(items[i + 1]))] else [])
      + PairInputs(items, i + 2, polled, a)
  }

  /** Only items that were in the vector when it was polled can be marked ready. */
  function Polled(items: seq<Handle>, a: Arrivals): set<Handle> {
    set h | h in items && h in a.ready
  }

  function Prelude<P>(marked: bool, input: Option<Input<P>>): seq<Input<P>> {
    if marked && input.Some? then [input.value] else []
  }

  /**
   Everything one turn handles, in order: a control request, a send request, then the pairs
   of the vector as the control request left it.
   */
  function TurnInputs<P(==)>(s: State<P>, a: Arrivals, ctrl: Option<Input<P>>, send: Option<Input<P>>): seq<Input<P>>
    requires |s.items| >= 2
  {
    var polled := Polled(s.items, a);
    var first := Prelude(s.items[1] in polled, ctrl);
    var s1 := PollerState.Run(s, first);
    var second := if s1.running then Prelude(s.items[0] in polled, send) else [];
    var s2 := PollerState.Run(s1, second);
    first + second + if s2.running then PairInputs(s2.items, 2, polled, a) else []
  }

  /** Each part of a turn is legal in the state the parts before it leave. */
  ghost predicate TurnLegal<P>(s: State<P>, a: Arrivals, ctrl: Option<Input<P>>, send: Option<Input<P>>)
    requires |s.items| >= 2
  {
    var polled := Polled(s.items, a);
    var first := Prelude(s.items[1] in polled, ctrl);
    var s1 := PollerState.Run(s, first);
    var second := Prelude(s.items[0] in polled, send);
    var s2 := PollerState.Run(s1, second);
    && (first != [] ==> Legal(s, first[0]))
    && (s1.running ==>
          && (second != [] ==> Legal(s1, second[0]))
          && (s2.running ==> SoundArrivals(s2, a)))
  }

  /** What is handled after the control step: a send request, then the pairs unless it raised. */
  ghost function AfterControl<P>(s: State<P>, polled: set<Handle>, marked: bool, a: Arrivals, send: Option<Input<P>>)
    : seq<Input<P>>
  {
    var second := Prelude(marked, send);
    var sent := PollerState.Run(s, second);
    if sent.running then second + PairInputs<P>(sent.items, 2, polled, a) else second
  }

  /** A turn is its control step, and if that did not raise, what comes after it. */
  lemma TurnJoins<P>(s: State<P>, a: Arrivals, ctrl: Option<Input<P>>, send: Option<Input<P>>)
    requires |s.items| >= 2
    ensures var polled := Polled(s.items, a);
            var first := Prelude(s.items[1] in polled, ctrl);
            var s1 := PollerState.Run(s, first);
            var rest := AfterControl(s1, polled, s.items[0] in polled, a, send);
            && (!s1.running ==> TurnInputs(s, a, ctrl, send) == first)
            && (s1.running ==>
                  && TurnInputs(s, a, ctrl, send) == first + rest
                  && PollerState.Run(s, first + rest) == PollerState.Run(s1, rest)
                  && Outputs(s, first + rest) == Outputs(s, first) + Outputs(s1, rest))
  {
    hide Step;
    var polled := Polled(s.items, a);
    var first := Prelude(s.items[1] in polled, ctrl);
    assert first + [] + [] == first;
    assert PollerState.Run(PollerState.Run(s, first), []) == PollerState.Run(s, first);
    RunAppend(s, first, AfterControl(PollerState.Run(s, first), polled, s.items[0] in polled, a, send));
  }

  /** What a legal turn grants each of its parts. */
  lemma TurnParts<P>(s: State<P>, a: Arrivals, ctrl: Option<Input<P>>, send: Option<Input<P>>)
    requires |s.items| >= 2 && TurnLegal(s, a, ctrl, send)
    ensures var polled := Polled(s.items, a);
            var s1 := PollerState.Run(s, Prelude(s.items[1] in polled, ctrl));
            var s2 := PollerState.Run(s1, Prelude(s.items[0] in polled, send));
            && (ctrl.Some? && s.items[1] in polled ==> Legal(s, ctrl.value))
            && (s1.running && send.Some? && s.items[0] in polled ==> Legal(s1, send.value))
            && (s1.running && s2.running ==> SoundArrivals(s2, a))
  {
    hide Legal, SoundArrivals, PollerState.Run;
  }

  function Touched<P>(input: Input<P>): Option<Handle> {
    match input
    case Data(h, _) => Some(h)
    case Monitor(m, _, _) => Some(m)
    case _ => None
  }

  function Occurrences<P>(inputs: seq<Input<P>>, h: Handle): nat {
    if inputs == [] then 0 else (if Touched(inputs[0]) == Some(h) then 1 else 0) + Occurrences(inputs[1..], h)
  }

  lemma {:induction false} OccurrencesAppend<P>(x: seq<Input<P>>, y: seq<Input<P>>, h: Handle)
    ensures Occurrences(x + y, h) == Occurrences(x, h) + Occurrences(y, h)
  {
    if x == [] {
      assert x + y == y;
    } else {
      assert (x + y)[1..] == x[1..] + y;
      OccurrencesAppend(x[1..], y, h);
    }
  }

  lemma NothingTouched<P>(h: Handle)
    ensures Occurrences<P>([], h) == 0
  {
  }

  /** How often a handle is touched by the inputs of one pair. */
  lemma OnePairTouches<P>(data: Handle, monitor: Handle, polled: set<Handle>, a: Arrivals, h: Handle)
    requires data != monitor
    ensures var x: seq<Input<P>> := if data in polled then [Data(data, a.packets(data))] else [];
            var y: seq<Input<P>> := if monitor in polled then [Monitor(monitor, data, a.events(monitor))] else [];
            Occurrences(x + y, h) == if (h == data || h == monitor) && h in polled then 1 else 0
  {
    var x: seq<Input<P>> := if data in polled then [Data(data, a.packets(data))] else [];
    var y: seq<Input<P>> := if monitor in polled then [Monitor(monitor, data, a.events(monitor))] else [];
    OccurrencesAppend(x, y, h);
    assert Occurrences(x, h) == if h == data && h in polled then 1 else 0;
    assert Occurrences(y, h) == if h == monitor && h in polled then 1 else 0;
  }

  lemma {:induction false} PairsOnceFrom<P>(items: seq<Handle>, i: nat, polled: set<Handle>, a: Arrivals, h: Handle)
    requires |items| % 2 == i % 2 && i <= |items|
    requires forall j, k :: 0 <= j < k < |items| ==> items[j] != items[k]
    ensures Occurrences(PairInputs<P>(items, i, polled, a), h) == if h in items[i..] && h in polled then 1 else 0
    decreases |items| - i
  {
    hide Occurrences;
    NothingTouched<P>(h);
    if i + 1 < |items| {
      var x: seq<Input<P>> := if items[i] in polled then [Data(items[i], a.packets(items[i]))] else [];
      var y: seq<Input<P>> :=
        if items[i + 1] in polled then [Monitor(items[i + 1], items[i], a.events(items[i + 1]))] else [];
      var z := PairInputs<P>(items, i + 2, polled, a);
      PairsOnceFrom<P>(items, i + 2, polled, a, h);
      OnePairTouches<P>(items[i], items[i + 1], polled, a, h);
      OccurrencesAppend(x + y, z, h);
      assert items[i..] == [items[i], items[i + 1]] + items[i + 2..];
    }
  }

  lemma {:induction false} PairsPaired<P>(items: seq<Handle>, i: nat, polled: set<Handle>, a: Arrivals, input: Input<P>)
    requires i % 2 == 0 && i >= 2 && input in PairInputs<P>(items, i, polled, a)
    ensures input.Data? || input.Monitor?
    ensures input.Data? ==>
              && input.packet == a.packets(input.handle)
              && exists j :: i <= j < |items| - 1 && j % 2 == 0 && items[j] == input.handle
    ensures input.Monitor? ==>
              && input.event == a.events(input.monitor)
              && exists j :: PairAt(items, j, input.handle, input.monitor)
    decreases |items| - i
  {
    if i + 1 < |items| {
      if input in PairInputs<P>(items, i + 2, polled, a) {
        PairsPaired(items, i + 2, polled, a, input);
      } else if input.Monitor? {
        assert PairAt(items, i, input.handle, input.monitor);
      }
    }
  }

  /**
   Whatever the control step appended or erased, every ready item still behind the first
   two is handled exactly once, and nothing else is.
   */
  lemma TurnHandlesOnce<P>(s: State<P>, polled: set<Handle>, a: Arrivals, h: Handle)
    requires s.running && Inv(s)
    ensures Occurrences(PairInputs<P>(s.items, 2, polled, a), h) == if h in s.items[2..] && h in polled then 1 else 0
  {
    PairsOnceFrom<P>(s.items, 2, polled, a, h);
  }

  /** The data socket at an even place has a record, which also has the monitor next to it. */
  lemma PairHasRecord<P>(s: State<P>, i: nat)
    requires Layout(s) && 2 <= i < |s.items| - 1 && i % 2 == 0
    ensures var k := Owner(s.sockets, s.items[i]);
            k < |s.sockets| && s.sockets[k].monitor == Some(s.items[i + 1])
  {
    assert PairOwned(s.sockets, s.items[i], s.items[i + 1]);
    var j :| 0 <= j < |s.sockets| && Owns(s.sockets[j], s.items[i], s.items[i + 1]);
    OwnerIs(s, j);
  }

  /** What the surroundings owe a turn: well-formed messages, CONNECTED for dealers only. */
  ghost predicate SoundArrivals<P>(s: State<P>, a: Arrivals) {
    forall k :: 0 <= k < |s.sockets| ==>
      && (s.sockets[k].socket.Some? && a.packets(s.sockets[k].socket.value).Some? ==>
            WellFormedPacket(s.sockets[k].kind, a.packets(s.sockets[k].socket.value).value.frames))
      && (s.sockets[k].monitor.Some? && a.events(s.sockets[k].monitor.value).Connected? ==> s.sockets[k].kind.Dealer?)
  }

  /** Each handled item is legal: its data socket's record is found and owns the monitor. */
  lemma PairInputLegal<P>(s: State<P>, polled: set<Handle>, a: Arrivals, input: Input<P>)
    requires s.running && Inv(s) && SoundArrivals(s, a) && input in PairInputs<P>(s.items, 2, polled, a)
    ensures Legal(s, input)
    ensures (input.Data? || input.Monitor?)
         && exists k :: 0 <= k < |s.sockets| && s.sockets[k].socket == Some(input.handle)
  {
    PairsPaired(s.items, 2, polled, a, input);
    if input.Data? {
      var j :| 2 <= j < |s.items| - 1 && j % 2 == 0 && s.items[j] == input.handle;
      PairHasRecord(s, j);
    } else {
      var j: nat :| PairAt(s.items, j, input.handle, input.monitor);
      PairHasRecord(s, j);
    }
    assert s.sockets[Owner(s.sockets, input.handle)].socket == Some(input.handle);
  }

  /** Handling messages and events leaves vector and records where they are. */
  ghost predicate SameSockets<P>(s: State<P>, t: State<P>) {
    && t.send == s.send && t.ctrl == s.ctrl && t.items == s.items && t.running == s.running
    && |t.sockets| == |s.sockets|
    && forall k :: 0 <= k < |s.sockets| ==>
         t.sockets[k].kind == s.sockets[k].kind && t.sockets[k].socket == s.sockets[k].socket
         && t.sockets[k].monitor == s.sockets[k].monitor
  }

  lemma HandlingKeepsSockets<P>(s: State<P>, input: Input<P>)
    requires input.Data? || input.Monitor?
    ensures SameSockets(s, Step(s, input).state)
  {
    var k := Owner(s.sockets, input.handle);
    if s.running && k < |s.sockets| {
      var packet := if input.Data? && input.packet.Some? then input.packet.value else Packet([], 0, []);
      HandlingFrame(s.sockets[k], packet, if input.Monitor? then input.event else Other);
      hide Receive, Observe;
      assert SameSockets(s, Step(s, input).state);
    }
  }

  lemma {:induction false} OwnerSame<P>(x: seq<Info<P>>, y: seq<Info<P>>, h: Handle)
    requires |x| == |y| && forall k :: 0 <= k < |x| ==> x[k].socket == y[k].socket
    ensures Owner(x, h) == Owner(y, h)
  {
    if x != [] {
      OwnerSame(x[1..], y[1..], h);
    }
  }

  lemma LegalSame<P>(s: State<P>, t: State<P>, input: Input<P>)
    requires SameSockets(s, t) && (input.Data? || input.Monitor?) && Legal(s, input)
    ensures Legal(t, input)
  {
    OwnerSame(s.sockets, t.sockets, input.handle);
  }

  lemma {:induction false} HandlingRunLegal<P>(s: State<P>, inputs: seq<Input<P>>)
    requires forall input :: input in inputs ==> (input.Data? || input.Monitor?) && Legal(s, input)
    ensures LegalRun(s, inputs) && SameSockets(s, PollerState.Run(s, inputs))
    decreases inputs
  {
    if inputs != [] {
      hide Step, Legal;
      var t := Step(s, inputs[0]).state;
      HandlingKeepsSockets(s, inputs[0]);
      forall input | input in inputs[1..] ensures Legal(t, input) {
        LegalSame(s, t, input);
      }
      HandlingRunLegal(t, inputs[1..]);
    }
  }

  /**
   The pair loop of a turn is a legal run that moves no item and no record, so its indices
   stay in bounds, and the layout holds again at its end.
   */
  lemma PairLoopSound<P>(s: State<P>, polled: set<Handle>, a: Arrivals)
    requires s.running && Inv(s) && SoundArrivals(s, a)
    ensures var inputs := PairInputs<P>(s.items, 2, polled, a);
            && LegalRun(s, inputs)
            && SameSockets(s, PollerState.Run(s, inputs))
            && Inv(PollerState.Run(s, inputs))
  {
    var inputs := PairInputs<P>(s.items, 2, polled, a);
    forall input | input in inputs ensures (input.Data? || input.Monitor?) && Legal(s, input) {
      PairsPaired(s.items, 2, polled, a, input);
      PairInputLegal(s, polled, a, input);
    }
    HandlingRunLegal(s, inputs);
    RunKeeps(s, inputs);
  }
}
