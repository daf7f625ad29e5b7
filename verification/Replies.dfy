/**
 One process as a whole: its channel handles, the poller's records of its remote channels,
 and its brokers. What send_current does in it (libhdk/channel/channel.hpp) depends on all
 three: a job remembers a channel by name, handles decide whether the name still has an
 object, and the object has its record in the poller.

 The constructor and the destructor of a remote channel wait until the poller has made or
 removed the record, so each is one step here. A poller whose loop has ended never answers.
 */
module Replies {
  import opened Bytes
  import opened Marshal
  import opened Peers
  import opened PollerState
  import opened PollerRuns
  import opened PollerLife
  import opened Wire
  import opened MarshalStream
  import BrokerRegistry
  import C = ChannelRegistry
  import D = Delivery

  const SEND_SOCKET: Handle := 1
  const CTRL_SOCKET: Handle := 2

  /**
   What has happened so far to handles, poller and brokers, and which record belongs to
   which live remote channel. `less` and `status` are what the message types are built
   from: the order of map keys, and the type of connection status messages.
   */
  datatype Logs<H, O, K, X> = Logs(
    less: Order, status: nat,
    ops: seq<C.Operation<H, O>>, inputs: seq<Input<Address>>, events: seq<D.Event<K, X>>,
    records: map<O, Address>)

  ghost predicate Played<H, O, K, X>(p: Logs<H, O, K, X>) {
    && C.Run(p.ops).Some?
    && LegalRun(Initial(SEND_SOCKET, CTRL_SOCKET), p.inputs)
    && D.Play(p.less, p.events).Some?
  }

  function Beginning<H, O, K, X>(less: Order, status: nat): Logs<H, O, K, X> {
    Logs(less, status, [], [], [], map[])
  }

  type Process<H, O, K, X> = p: Logs<H, O, K, X> | Played(p)
    ghost witness Beginning<H, O, K, X>((_, _, _) => false, 0)

  function Channels<H, O, K, X>(p: Process<H, O, K, X>): C.State<H, O> {
    C.Run(p.ops).value.state
  }

  function Poller<H, O, K, X>(p: Process<H, O, K, X>): State<Address> {
    PollerState.Run(Initial(SEND_SOCKET, CTRL_SOCKET), p.inputs)
  }

  ghost function Brokers<H, O, K, X>(p: Process<H, O, K, X>): D.History<K, X> {
    D.Play(p.less, p.events).value
  }

  // ---------- Steps ----------

  datatype Action<H, O, K, X> =
    /** make_client_zmq or make_server_zmq; the address is that of the new record. */
    | MakeRemote(handle: H, newcomer: O, name: bytes, address: Address, kind: Kind)
    /** Anything else done with handles, local channels included. */
    | Handles(op: C.Operation<H, O>)
    /** Anything else the poller handles: opening, closing, sending, messages and events. */
    | Polls(input: Input<Address>)
    | Brokering(event: D.Event<K, X>)

  /** A struct of one bool. */
  function StatusBytes(connected: bool): bytes {
    [if connected then 1 else 0]
  }

  /** What the poller posts goes straight to the brokers. */
  function PostsOf<K, X>(status: nat, outputs: seq<Output>): seq<D.Event<K, X>>
    decreases |outputs|
  {
    if outputs == [] then []
    else
      var last := |outputs| - 1;
      PostsOf(status, outputs[..last])
      + match outputs[last]
        case Transmit(_, _) => []
        case Post(typeId, data, _, _, _) => [D.Post(typeId, data, SenderOf(outputs[last]))]
        case PostStatus(connected, channel, sender, address) =>
          [D.Post(status, StatusBytes(connected), D.Sender(sender, channel, address))]
  }

  /** Posts are made one after another in the order of the outputs. */
  lemma {:induction false} PostsAppend<K, X>(status: nat, a: seq<Output>, b: seq<Output>)
    ensures PostsOf<K, X>(status, a + b) == PostsOf<K, X>(status, a) + PostsOf<K, X>(status, b)
    decreases |b|
  {
    if b == [] {
      assert a + b == a;
    } else {
      var last := |b| - 1;
      assert (a + b)[..|a + b| - 1] == a + b[..last];
      PostsAppend<K, X>(status, a, b[..last]);
    }
  }

  /** The fields of a connection status message: one bool, one byte wide. */
  function StatusFields(connected: bool): seq<Value> {
    [Raw([if connected then 1 else 0])]
  }

  /**
   A status message is a post of that struct: given that its handlers take it, the jobs are
   one for each broker that handles status messages and lets the channel through, in
   registration order, each of them handing over the flag, labelled with the peer.
   */
  lemma StatusDealtOut<K, X>(
    less: Order, status: nat, events: seq<D.Event<K, X>>,
    connected: bool, channel: bytes, sender: bytes, address: bytes)
    requires D.Play(less, events).Some?
    requires D.AllRead(D.Play(less, events).value.world, status, [Fixed(0, 1)], [0])
    ensures BrokerRegistry.Run(D.Operations(events)).Some?
    ensures var posts := PostsOf<K, X>(status, [PostStatus(connected, channel, sender, address)]);
            && |posts| == 1 && posts[0].Post? && posts[0].typeId == status
            && posts[0].sender == D.Sender(sender, channel, address)
            && var batch := D.Posted(D.Play(less, events).value.world, status, posts[0].data, posts[0].sender);
               D.DealtOut(less, events, batch, status, D.Sender(sender, channel, address), StatusFields(connected))
  {
    hide D.Play, D.Posted, D.DealtOut;
    var v := StatusFields(connected);
    assert EncodeFields(v, [0]) == StatusBytes(connected) by {
      assert EncodeFields(v, [0]) == Encode(v[0]) + EncodeFields(v, [0][1..]);
    }
    assert [PostStatus(connected, channel, sender, address)][..0] == [];
    D.StructPostDelivers(less, events, status, [Fixed(0, 1)], v, [0], D.Sender(sender, channel, address));
  }

  ghost predicate Allowed<H, O, K, X>(p: Process<H, O, K, X>, a: Action<H, O, K, X>) {
    match a
    case MakeRemote(h, o, name, address, kind) =>
      && C.Legal(Channels(p), C.Make(h, o, name))
      && (name !in Channels(p).index ==> Poller(p).running && Legal(Poller(p), Create(address, name, kind)))
    case Handles(op) =>
      && C.Legal(Channels(p), op)
      && (var gone := C.Dropped(Channels(p), op);
          gone.Some? && gone.value in p.records ==>
            Poller(p).running && Legal(Poller(p), Remove(p.records[gone.value])))
    case Polls(input) =>
      Poller(p).running && Legal(Poller(p), input) && !input.Create? && !input.Remove?
    case Brokering(e) => D.Allowed(Brokers(p).world, e)
  }

  ghost function Effect<H, O, K, X>(p: Process<H, O, K, X>, a: Action<H, O, K, X>): Logs<H, O, K, X>
    requires Allowed(p, a)
  {
    match a
    case MakeRemote(h, o, name, address, kind) =>
      var made := p.(ops := p.ops + [C.Make(h, o, name)]);
      if name in Channels(p).index then made
      else made.(inputs := p.inputs + [Create(address, name, kind)], records := p.records[o := address])
    case Handles(op) =>
      var used := p.(ops := p.ops + [op]);
      var gone := C.Dropped(Channels(p), op);
      if gone.Some? && gone.value in p.records
      then used.(inputs := p.inputs + [Remove(p.records[gone.value])], records := p.records - {gone.value})
      else used
    case Polls(input) =>
      p.(inputs := p.inputs + [input],
         events := p.events + PostsOf(p.status, Step(Poller(p), input).outputs))
    case Brokering(e) => p.(events := p.events + [e])
  }

  ghost function After<H, O, K, X>(p: Process<H, O, K, X>, a: Action<H, O, K, X>): Process<H, O, K, X>
    requires Allowed(p, a)
  {
    EffectPlayed(p, a);
    Effect(p, a)
  }

  ghost function RunFrom<H, O, K, X>(p: Process<H, O, K, X>, actions: seq<Action<H, O, K, X>>)
    : Option<Process<H, O, K, X>>
    decreases |actions|
  {
    if actions == [] then Some(p)
    else if Allowed(p, actions[0]) then RunFrom(After(p, actions[0]), actions[1..])
    else None
  }

  lemma {:induction false} RunFromAppend<H, O, K, X>(
    p: Process<H, O, K, X>, x: seq<Action<H, O, K, X>>, y: seq<Action<H, O, K, X>>)
    requires RunFrom(p, x).Some?
    ensures RunFrom(p, x + y) == RunFrom(RunFrom(p, x).value, y)
    decreases |x|
  {
    hide Allowed, Effect;
    if x == [] {
      assert x + y == y;
    } else {
      assert (x + y)[1..] == x[1..] + y;
      RunFromAppend(After(p, x[0]), x[1..], y);
    }
  }

  ghost predicate Goes<H, O, K, X>(p: Process<H, O, K, X>, a: Action<H, O, K, X>, q: Process<H, O, K, X>) {
    Allowed(p, a) && q == After(p, a)
  }

  lemma RunNothing<H, O, K, X>(p: Process<H, O, K, X>)
    ensures RunFrom(p, []) == Some(p)
  {
  }

  lemma RunThen<H, O, K, X>(
    start: Process<H, O, K, X>, actions: seq<Action<H, O, K, X>>, p: Process<H, O, K, X>,
    a: Action<H, O, K, X>, q: Process<H, O, K, X>)
    requires RunFrom(start, actions) == Some(p) && Goes(p, a, q)
    ensures RunFrom(start, actions + [a]) == Some(q)
  {
    hide Allowed, Effect;
    RunFromAppend(start, actions, [a]);
    assert [a][1..] == [];
    assert RunFrom(q, []) == Some(q);
  }

  lemma PollerNext(inputs: seq<Input<Address>>, input: Input<Address>)
    requires LegalRun(Initial(SEND_SOCKET, CTRL_SOCKET), inputs)
    requires Legal(PollerState.Run(Initial(SEND_SOCKET, CTRL_SOCKET), inputs), input)
    ensures LegalRun(Initial(SEND_SOCKET, CTRL_SOCKET), inputs + [input])
    ensures PollerState.Run(Initial(SEND_SOCKET, CTRL_SOCKET), inputs + [input])
         == Step(PollerState.Run(Initial(SEND_SOCKET, CTRL_SOCKET), inputs), input).state
  {
    hide Step, Legal;
    var start: State<Address> := Initial(SEND_SOCKET, CTRL_SOCKET);
    var s := PollerState.Run(start, inputs);
    LegalRunAppend(start, inputs, [input]);
    RunAppend(start, inputs, [input]);
    RunOne(s, input);
    assert [input][1..] == [];
  }

  /** Posting only adds to what was posted. */
  lemma {:induction false} PostsPlay<K, X>(less: Order, status: nat, events: seq<D.Event<K, X>>, outputs: seq<Output>)
    requires D.Play(less, events).Some?
    ensures D.Play(less, events + PostsOf(status, outputs)).Some?
    ensures D.Play(less, events + PostsOf(status, outputs)).value.ran == D.Play(less, events).value.ran
    decreases |outputs|
  {
    hide D.Play;
    if outputs == [] {
      assert events + [] == events;
    } else {
      var last := |outputs| - 1;
      var before, all: seq<D.Event<K, X>> := PostsOf(status, outputs[..last]), PostsOf(status, outputs);
      PostsPlay(less, status, events, outputs[..last]);
      if outputs[last].Transmit? {
        assert all == before;
      } else {
        var e := all[|before|];
        assert all == before + [e];
        D.PostExtends(less, events + before, e.typeId, e.data, e.sender);
        AppendAssociates(events, before, [e]);
      }
    }
  }

  lemma EffectPlayed<H, O, K, X>(p: Process<H, O, K, X>, a: Action<H, O, K, X>)
    requires Allowed(p, a)
    ensures Played(Effect(p, a))
  {
    hide Step, Legal, C.Step, C.Legal, C.Run, D.Allowed, D.Play, LegalRun, PollerState.Run, C.Dropped;
    match a
    case MakeRemote(h, o, name, address, kind) =>
      C.RunNext(p.ops, C.Make(h, o, name));
      if name !in Channels(p).index {
        PollerNext(p.inputs, Create(address, name, kind));
      }
    case Handles(op) =>
      C.RunNext(p.ops, op);
      var gone := C.Dropped(Channels(p), op);
      if gone.Some? && gone.value in p.records {
        PollerNext(p.inputs, Remove(p.records[gone.value]));
      }
    case Polls(input) =>
      PollerNext(p.inputs, input);
      PostsPlay(p.less, p.status, p.events, Step(Poller(p), input).outputs);
    case Brokering(e) =>
      D.PlayNext(p.less, p.events, e);
  }

  // ---------- Objects and their records ----------

  /** The record is there, under the name. */
  ghost predicate Bound(s: State<Address>, id: Address, name: bytes) {
    Lookup(s, id).Some? && Lookup(s, id).value.name == name
  }

  /**
   Only live objects have records, no two the same; and while the loop is alive every record
   is that of a live object, under the object's name.
   */
  ghost predicate Ties<H, O>(c: C.State<H, O>, s: State<Address>, records: map<O, Address>) {
    && (forall o :: o in records ==> o in c.objects && C.Live(c, o))
    && (s.running ==>
          && (forall o :: o in records && o in c.objects ==> Bound(s, records[o], c.objects[o].name))
          && (forall o, u :: o in records && u in records && records[o] == records[u] ==> o == u)
          && (forall id: Address :: Lookup(s, id).Some? ==> id in records.Values))
  }

  ghost predicate Tied<H, O, K, X>(p: Process<H, O, K, X>) {
    Ties(Channels(p), Poller(p), p.records)
  }

  lemma TiesMake<H, O>(
    c: C.State<H, O>, c': C.State<H, O>, s: State<Address>, records: map<O, Address>,
    o: O, name: bytes, address: Address, kind: Kind)
    requires Ties(c, s, records) && s.running && Inv(s) && Legal(s, Create(address, name, kind))
    requires C.Outlived(c, c', None) && o !in c.objects
    requires C.Live(c', o) && c'.objects[o].name == name
    ensures Ties(c', Step(s, Create(address, name, kind)).state, records[o := address])
  {
    hide Step, Lookup, Legal;
    var t := Step(s, Create(address, name, kind)).state;
    CreatedLookups(s, address, name, kind);
    assert address !in records.Values by {
      forall u | u in records ensures records[u] != address {
        assert Bound(s, records[u], c.objects[u].name);
      }
    }
    forall u | u in records[o := address] && u in c'.objects
      ensures Bound(t, records[o := address][u], c'.objects[u].name)
    {
      if u != o {
        assert Bound(s, records[u], c.objects[u].name);
      }
    }
  }

  lemma CreatedLookups(s: State<Address>, address: Address, name: bytes, kind: Kind)
    requires s.running && Inv(s) && Legal(s, Create(address, name, kind))
    ensures var t := Step(s, Create(address, name, kind)).state;
            && Lookup(s, address) == None && Lookup(t, address) == Some(Blank(address, name, kind))
            && forall id: Address :: id != address ==> Lookup(t, id) == Lookup(s, id)
  {
    hide Layout;
    var t := Step(s, Create(address, name, kind)).state;
    forall id: Address ensures Lookup(t, id) == if address == id then Some(Blank(id, name, kind)) else Lookup(s, id) {
      LookupStep(s, Create(address, name, kind), id);
    }
  }

  /**
   Making a remote channel under a free name makes a record of its name and kind, which is
   the new object's; under a taken name it makes nothing.
   */
  lemma RemoteMade<H, O, K, X>(p: Process<H, O, K, X>, h: H, o: O, name: bytes, address: Address, kind: Kind)
    requires Allowed(p, MakeRemote(h, o, name, address, kind))
    ensures var q := After(p, MakeRemote(h, o, name, address, kind));
            && Channels(q) == C.Step(Channels(p), C.Make(h, o, name)) && Brokers(q) == Brokers(p)
            && if name in Channels(p).index then Poller(q) == Poller(p) && q.records == p.records
               else q.records == p.records[o := address]
                    && Lookup(Poller(q), address) == Some(Info(address, name, kind, None, None, NOBODY, {}))
  {
    hide Step, Legal, C.Step, C.Legal, C.Run, PollerState.Run, LegalRun, D.Play, Layout;
    var q := After(p, MakeRemote(h, o, name, address, kind));
    C.RunNext(p.ops, C.Make(h, o, name));
    if name !in Channels(p).index {
      ProcessSound(p);
      PollerMoves(p, q, Create(address, name, kind));
      CreatedLookups(Poller(p), address, name, kind);
    }
  }

  lemma TiesRemove<H, O>(c: C.State<H, O>, c': C.State<H, O>, s: State<Address>, records: map<O, Address>, o: O)
    requires Ties(c, s, records) && s.running && Inv(s)
    requires o in records && Legal(s, Remove(records[o])) && C.Outlived(c, c', Some(o))
    ensures Ties(c', Step(s, Remove(records[o])).state, records - {o})
  {
    hide Layout;
    var t := Step(s, Remove(records[o])).state;
    forall id: Address ensures Lookup(t, id) == if records[o] == id then None else Lookup(s, id) {
      LookupStep(s, Remove(records[o]), id);
    }
    hide Step, Lookup;
    forall u | u in records - {o} && u in c'.objects ensures Bound(t, (records - {o})[u], c'.objects[u].name) {
      assert Bound(s, records[u], c.objects[u].name);
    }
    forall id: Address | Lookup(t, id).Some? ensures id in (records - {o}).Values {
      var u :| u in records && records[u] == id;
      assert u in records - {o};
    }
  }

  lemma TiesUse<H, O>(c: C.State<H, O>, c': C.State<H, O>, s: State<Address>, records: map<O, Address>, gone: Option<O>)
    requires Ties(c, s, records) && C.Outlived(c, c', gone) && (gone.Some? ==> gone.value !in records)
    ensures Ties(c', s, records)
  {
    hide Lookup, Bound;
  }

  lemma TiesPoll<H, O>(c: C.State<H, O>, s: State<Address>, records: map<O, Address>, input: Input<Address>)
    requires Ties(c, s, records) && s.running && Inv(s) && Legal(s, input) && !input.Create? && !input.Remove?
    ensures Ties(c, Step(s, input).state, records)
  {
    hide Layout, Legal;
    var t := Step(s, input).state;
    forall id: Address ensures SameRecord(Lookup(s, id), Lookup(t, id)) {
      KeptRecord(s, input, id);
    }
    hide Step, Lookup;
    forall u | u in records && u in c.objects ensures Bound(t, records[u], c.objects[u].name) {
      assert Bound(s, records[u], c.objects[u].name);
      assert SameRecord(Lookup(s, records[u]), Lookup(t, records[u]));
    }
    forall id: Address | Lookup(t, id).Some? ensures id in records.Values {
      assert SameRecord(Lookup(s, id), Lookup(t, id));
    }
  }

  lemma ProcessSound<H, O, K, X>(p: Process<H, O, K, X>)
    ensures C.Inv(Channels(p)) && Inv(Poller(p))
  {
    C.EveryRun(p.ops);
    PollerState.EveryRun(SEND_SOCKET, CTRL_SOCKET, p.inputs);
  }

  lemma ChannelsNext<H, O, K, X>(p: Process<H, O, K, X>, q: Process<H, O, K, X>, op: C.Operation<H, O>)
    requires C.Legal(Channels(p), op) && q.ops == p.ops + [op]
    ensures Channels(q) == C.Step(Channels(p), op)
    ensures C.Outlived(Channels(p), Channels(q), C.Dropped(Channels(p), op))
  {
    hide C.Step, C.Legal, C.Dropped, C.Outlived;
    C.RunNext(p.ops, op);
    ProcessSound(p);
    C.DroppedDies(Channels(p), op);
  }

  lemma PollerMoves<H, O, K, X>(p: Process<H, O, K, X>, q: Process<H, O, K, X>, input: Input<Address>)
    requires Legal(Poller(p), input) && q.inputs == p.inputs + [input]
    ensures Poller(q) == Step(Poller(p), input).state
  {
    hide Step, Legal;
    PollerNext(p.inputs, input);
  }

  lemma TiedNext<H, O, K, X>(p: Process<H, O, K, X>, a: Action<H, O, K, X>)
    requires Tied(p) && Allowed(p, a)
    ensures Tied(After(p, a))
  {
    hide Ties, Step, Legal, Inv, C.Legal, C.Step, C.Dropped, C.Outlived, C.Inv, C.Run, PollerState.Run, LegalRun,
         D.Play, D.Allowed, PostsOf;
    var q := After(p, a);
    ProcessSound(p);
    match a
    case MakeRemote(h, o, name, address, kind) =>
      ChannelsNext(p, q, C.Make(h, o, name));
      MadeLives(p, h, o, name);
      if name !in Channels(p).index {
        PollerMoves(p, q, Create(address, name, kind));
        TiesMake(Channels(p), Channels(q), Poller(p), p.records, o, name, address, kind);
      } else {
        TiesUse(Channels(p), Channels(q), Poller(p), p.records, None);
      }
    case Handles(op) =>
      var gone := C.Dropped(Channels(p), op);
      ChannelsNext(p, q, op);
      if gone.Some? && gone.value in p.records {
        PollerMoves(p, q, Remove(p.records[gone.value]));
        TiesRemove(Channels(p), Channels(q), Poller(p), p.records, gone.value);
      } else {
        TiesUse(Channels(p), Channels(q), Poller(p), p.records, gone);
      }
    case Polls(input) =>
      PollerMoves(p, q, input);
      TiesPoll(Channels(p), Poller(p), p.records, input);
    case Brokering(e) =>
  }

  lemma MadeLives<H, O, K, X>(p: Process<H, O, K, X>, h: H, o: O, name: bytes)
    requires C.Legal(Channels(p), C.Make(h, o, name))
    ensures o !in Channels(p).objects && C.Dropped(Channels(p), C.Make(h, o, name)) == None
    ensures name !in Channels(p).index ==>
              var next := C.Step(Channels(p), C.Make(h, o, name));
              C.Live(next, o) && next.objects[o].name == name
  {
    hide C.Step, C.Inv;
    ProcessSound(p);
    C.DroppedDies(Channels(p), C.Make(h, o, name));
  }

  // ---------- An object over a run ----------

  /** The object keeps its name, and its record for as long as it lives. */
  ghost predicate Traced<H, O, K, X>(p: Process<H, O, K, X>, q: Process<H, O, K, X>, o: O) {
    && o in p.records && o in Channels(p).objects && o in Channels(q).objects
    && Channels(q).objects[o].name == Channels(p).objects[o].name
    && (o in q.records <==> C.Live(Channels(q), o))
    && (o in q.records ==> q.records[o] == p.records[o])
  }

  lemma TracedNext<H, O, K, X>(p: Process<H, O, K, X>, q: Process<H, O, K, X>, a: Action<H, O, K, X>, o: O)
    requires Traced(p, q, o) && Allowed(q, a)
    ensures Traced(p, After(q, a), o)
  {
    hide Step, Legal, C.Legal, C.Step, C.Dropped, C.Live, C.Run, PollerState.Run, LegalRun, D.Play, D.Allowed, PostsOf;
    var r := After(q, a);
    match a
    case MakeRemote(h, u, name, address, kind) =>
      ChannelsNext(q, r, C.Make(h, u, name));
      MadeLives(q, h, u, name);
    case Handles(op) =>
      ChannelsNext(q, r, op);
    case Polls(_) =>
    case Brokering(_) =>
  }

  lemma {:induction false} TracedRun<H, O, K, X>(
    p: Process<H, O, K, X>, q: Process<H, O, K, X>, actions: seq<Action<H, O, K, X>>, o: O)
    requires Traced(p, q, o) && Tied(q) && RunFrom(q, actions).Some?
    ensures Traced(p, RunFrom(q, actions).value, o) && Tied(RunFrom(q, actions).value)
    decreases |actions|
  {
    hide Traced, Tied, Allowed, Effect;
    if actions != [] {
      TracedNext(p, q, actions[0], o);
      TiedNext(q, actions[0]);
      TracedRun(p, After(q, actions[0]), actions[1..], o);
    }
  }

  lemma DeadNext<H, O, K, X>(q: Process<H, O, K, X>, a: Action<H, O, K, X>, o: O)
    requires o in Channels(q).objects && !C.Live(Channels(q), o) && Allowed(q, a)
    ensures o in Channels(After(q, a)).objects && !C.Live(Channels(After(q, a)), o)
  {
    hide Step, Legal, C.Legal, C.Step, C.Dropped, C.Live, C.Run, PollerState.Run, LegalRun, D.Play, D.Allowed, PostsOf;
    var r := After(q, a);
    match a
    case MakeRemote(h, u, name, address, kind) => ChannelsNext(q, r, C.Make(h, u, name));
    case Handles(op) => ChannelsNext(q, r, op);
    case Polls(_) =>
    case Brokering(_) =>
  }

  /** An object that is gone never comes back. */
  lemma {:induction false} DeadForGood<H, O, K, X>(q: Process<H, O, K, X>, actions: seq<Action<H, O, K, X>>, o: O)
    requires o in Channels(q).objects && !C.Live(Channels(q), o) && RunFrom(q, actions).Some?
    ensures !C.Live(Channels(RunFrom(q, actions).value), o)
    decreases |actions|
  {
    hide C.Live, C.Run, Allowed, Effect;
    if actions != [] {
      DeadNext(q, actions[0], o);
      DeadForGood(After(q, actions[0]), actions[1..], o);
    }
  }

  lemma {:induction false} TiedRun<H, O, K, X>(p: Process<H, O, K, X>, actions: seq<Action<H, O, K, X>>)
    requires Tied(p) && RunFrom(p, actions).Some?
    ensures Tied(RunFrom(p, actions).value)
    decreases |actions|
  {
    hide Tied, Allowed, Effect;
    if actions != [] {
      TiedNext(p, actions[0]);
      TiedRun(After(p, actions[0]), actions[1..]);
    }
  }

  /** In every run the records of a live poller are those of the live remote channels. */
  lemma EveryRun<H, O, K, X>(less: Order, status: nat, actions: seq<Action<H, O, K, X>>)
    requires RunFrom(Beginning<H, O, K, X>(less, status), actions).Some?
    ensures Tied(RunFrom(Beginning<H, O, K, X>(less, status), actions).value)
  {
    TiedRun(Beginning<H, O, K, X>(less, status), actions);
  }

  /** The object's record, while it has one in a live poller, is of this kind. */
  ghost predicate HasKind<H, O, K, X>(p: Process<H, O, K, X>, o: O, kind: Kind) {
    && o in Channels(p).objects
    && (o in p.records && Poller(p).running ==>
          Lookup(Poller(p), p.records[o]).Some? && Lookup(Poller(p), p.records[o]).value.kind == kind)
  }

  /** A poller that is alive after a step was alive before it. */
  lemma StillRunning<P>(s: State<P>, input: Input<P>)
    requires Step(s, input).state.running
    ensures s.running
  {
  }

  lemma KindMake<H, O, K, X>(
    p: Process<H, O, K, X>, q: Process<H, O, K, X>, o: O, kind: Kind, address: Address, name: bytes, made: Kind)
    requires HasKind(p, o, kind) && o in Channels(q).objects
    requires Legal(Poller(p), Create(address, name, made)) && q.inputs == p.inputs + [Create(address, name, made)]
    requires o in q.records ==> o in p.records && q.records[o] == p.records[o]
    ensures HasKind(q, o, kind)
  {
    hide Step, C.Run, PollerState.Run, LegalRun, D.Play, Layout;
    ProcessSound(p);
    PollerMoves(p, q, Create(address, name, made));
    if o in q.records && Poller(q).running {
      StillRunning(Poller(p), Create(address, name, made));
      LookupStep(Poller(p), Create(address, name, made), p.records[o]);
    }
  }

  lemma KindRemove<H, O, K, X>(
    p: Process<H, O, K, X>, q: Process<H, O, K, X>, o: O, kind: Kind, address: Address)
    requires HasKind(p, o, kind) && o in Channels(q).objects
    requires Legal(Poller(p), Remove(address)) && q.inputs == p.inputs + [Remove(address)]
    requires o in q.records ==> o in p.records && q.records[o] == p.records[o] && p.records[o] != address
    ensures HasKind(q, o, kind)
  {
    hide Step, C.Run, PollerState.Run, LegalRun, D.Play, Layout;
    ProcessSound(p);
    PollerMoves(p, q, Remove(address));
    if o in q.records && Poller(q).running {
      StillRunning(Poller(p), Remove(address));
      LookupStep(Poller(p), Remove(address), p.records[o]);
    }
  }

  lemma KindPoll<H, O, K, X>(
    p: Process<H, O, K, X>, q: Process<H, O, K, X>, o: O, kind: Kind, input: Input<Address>)
    requires HasKind(p, o, kind) && Channels(q) == Channels(p) && q.records == p.records
    requires Legal(Poller(p), input) && !input.Create? && !input.Remove? && q.inputs == p.inputs + [input]
    ensures HasKind(q, o, kind)
  {
    hide Step, Legal, C.Run, PollerState.Run, LegalRun, D.Play, Layout;
    ProcessSound(p);
    PollerMoves(p, q, input);
    if o in q.records && Poller(q).running {
      StillRunning(Poller(p), input);
      KeptRecord(Poller(p), input, p.records[o]);
    }
  }

  lemma KindNext<H, O, K, X>(p: Process<H, O, K, X>, a: Action<H, O, K, X>, o: O, kind: Kind)
    requires Tied(p) && HasKind(p, o, kind) && Allowed(p, a)
    ensures HasKind(After(p, a), o, kind)
  {
    hide Step, Legal, C.Legal, C.Step, C.Dropped, C.Live, C.Run, PollerState.Run, LegalRun, D.Play, D.Allowed, PostsOf,
         Lookup;
    var q := After(p, a);
    match a
    case MakeRemote(h, u, name, address, made) =>
      ChannelsNext(p, q, C.Make(h, u, name));
      MadeLives(p, h, u, name);
      if name !in Channels(p).index {
        KindMake(p, q, o, kind, address, name, made);
      }
    case Handles(op) =>
      var gone := C.Dropped(Channels(p), op);
      ChannelsNext(p, q, op);
      if gone.Some? && gone.value in p.records {
        KindRemove(p, q, o, kind, p.records[gone.value]);
      }
    case Polls(input) => KindPoll(p, q, o, kind, input);
    case Brokering(_) =>
  }

  lemma {:induction false} KindRun<H, O, K, X>(
    p: Process<H, O, K, X>, actions: seq<Action<H, O, K, X>>, o: O, kind: Kind)
    requires Tied(p) && HasKind(p, o, kind) && RunFrom(p, actions).Some?
    ensures HasKind(RunFrom(p, actions).value, o, kind)
    decreases |actions|
  {
    hide Tied, HasKind, Allowed, Effect;
    if actions != [] {
      TiedNext(p, actions[0]);
      KindNext(p, actions[0], o, kind);
      KindRun(After(p, actions[0]), actions[1..], o, kind);
    }
  }

  // ---------- Receiving ----------

  /** A message of a peer, as a server's socket gives it out. */
  function DataFrom(identity: bytes, typeId: nat, payload: bytes, fd: int, address: bytes): Packet {
    Packet(RouterReceives(identity, [U32(SOCKET_RECV_DATA), U32(typeId), payload]), fd, address)
  }

  /** The object is a server with an open socket. */
  ghost predicate Listening<H, O, K, X>(p: Process<H, O, K, X>, o: O, server: Info<Address>) {
    && o in p.records && o in Channels(p).objects && Poller(p).running
    && Lookup(Poller(p), p.records[o]) == Some(server) && server.kind.Router? && server.socket.Some?
  }

  /** The jobs an action gave to the brokers. */
  ghost function JobsOf<H, O, K, X>(p: Process<H, O, K, X>, q: Process<H, O, K, X>): seq<D.Job<K, X>> {
    if |Brokers(p).posted| <= |Brokers(q).posted| then Brokers(q).posted[|Brokers(p).posted|..] else []
  }

  lemma ReceiptSteps<H, O, K, X>(
    p: Process<H, O, K, X>, o: O, server: Info<Address>,
    identity: bytes, typeId: nat, payload: bytes, fd: int, address: bytes)
    requires Listening(p, o, server) && typeId < Capacity(4)
    ensures var input := Data(server.socket.value, Some(DataFrom(identity, typeId, payload, fd, address)));
            && Legal(Poller(p), input)
            && Step(Poller(p), input)
               == Result(Poller(p), [Post(typeId, payload, server.name, identity, address)])
  {
    hide PollerState.Run, Receive, WellFormedPacket;
    ProcessSound(p);
    var s := Poller(p);
    var k := Position(s.sockets, p.records[o]);
    assert s.sockets[k] == server;
    LayoutRecords(s);
    OwnerIs(s, k);
    DataAtServer(server, identity, typeId, payload, fd, address);
    ReceiveStep(s, server.socket.value, server, DataFrom(identity, typeId, payload, fd, address),
                [Post(typeId, payload, server.name, identity, address)]);
  }

  /** Receiving the message makes jobs for the brokers, all of them labelled with the peer and the channel. */
  lemma ReceiptJobs<H, O, K, X>(
    p: Process<H, O, K, X>, o: O, server: Info<Address>,
    identity: bytes, typeId: nat, payload: bytes, fd: int, address: bytes)
    requires Listening(p, o, server) && typeId < Capacity(4)
    ensures var receipt := Polls(Data(server.socket.value, Some(DataFrom(identity, typeId, payload, fd, address))));
            && Allowed(p, receipt)
            && var q := After(p, receipt);
               && q.ops == p.ops && q.records == p.records
               && JobsOf(p, q) == D.Posted(Brokers(p).world, typeId, payload, D.Sender(identity, server.name, address))
               && forall job :: job in JobsOf(p, q) ==> job.sender == D.Sender(identity, server.name, address)
  {
    hide Step, Legal, PollerState.Run, LegalRun, C.Run, D.Play, D.Posted;
    var post := Post(typeId, payload, server.name, identity, address);
    var sender := D.Sender(identity, server.name, address);
    ReceiptSteps(p, o, server, identity, typeId, payload, fd, address);
    OnePost<K, X>(p.status, post);
    D.PostExtends(p.less, p.events, typeId, payload, sender);
    SplitAppend(Brokers(p).posted, D.Posted(Brokers(p).world, typeId, payload, sender));
    D.PostReachesEligible(p.less, p.events, typeId, payload, sender);
  }

  lemma OnePost<K, X>(status: nat, post: Output)
    requires post.Post?
    ensures PostsOf<K, X>(status, [post]) == [D.Post(post.typeId, post.data, SenderOf(post))]
  {
    assert [post][..0] == [];
    assert PostsOf<K, X>(status, []) == [];
  }

  // ---------- Answering from inside a handler ----------

  /** The job a context ran last is among these. */
  ghost predicate Running<H, O, K, X>(p: Process<H, O, K, X>, x: X, jobs: seq<D.Job<K, X>>) {
    D.LastOn(Brokers(p).ran, x).Some? && D.LastOn(Brokers(p).ran, x).value in jobs
  }

  /** What a handler that runs on the context can ask: the sender of the job its thread ran last. */
  ghost function Current<H, O, K, X>(p: Process<H, O, K, X>, x: X): D.Sender
    requires D.LastOn(Brokers(p).ran, x).Some?
  {
    D.LastOn(Brokers(p).ran, x).value.sender
  }

  ghost predicate Open<H, O, K, X>(p: Process<H, O, K, X>, o: O) {
    && o in p.records
    && Lookup(Poller(p), p.records[o]).Some? && Lookup(Poller(p), p.records[o]).value.socket.Some?
  }

  /** The object's socket is open and can route to the peer. */
  ghost predicate Routable<H, O, K, X>(p: Process<H, O, K, X>, o: O, identity: bytes) {
    Open(p, o) && identity in Lookup(Poller(p), p.records[o]).value.routes
  }

  /** The request that a found channel sent off, as the poller reads it. */
  ghost function RequestOf<H, O, K, X>(
    asked: Process<H, O, K, X>, found: Option<O>,
    sender: D.Sender, requester: bytes, typeId: nat, payload: bytes, full: set<nat>): Option<Input<Address>>
  {
    if found.Some? && found.value in asked.records then
      ReadSendRequest(
        RouterReceives(requester, SendRequest(asked.records[found.value], sender.id, typeId, payload)), full)
    else None
  }

  /** The request is carried out by one message on this object's socket, to this peer and to nobody else. */
  ghost predicate AnswersOn<H, O, K, X>(
    request: Option<Input<Address>>, later: Process<H, O, K, X>, o: O, sender: D.Sender, typeId: nat, payload: bytes)
  {
    && request.Some? && Open(later, o)
    && Step(Poller(later), request.value).outputs
       == [Transmit(Lookup(Poller(later), later.records[o]).value.socket.value,
                    Addressed(sender.id, typeId, payload))]
  }

  /** The request makes the transport raise: nothing goes out, and the poll loop ends. */
  ghost predicate EndsLoop<H, O, K, X>(request: Option<Input<Address>>, later: Process<H, O, K, X>) {
    && request.Some? && !Step(Poller(later), request.value).state.running
    && Step(Poller(later), request.value).outputs == []
  }

  lemma GetIs<H, O, K, X>(p: Process<H, O, K, X>, h: H, name: bytes)
    requires h !in Channels(p).handles
    ensures Allowed(p, Handles(C.Get(h, name)))
    ensures var asked := After(p, Handles(C.Get(h, name)));
            && C.Holding(Channels(asked), h) == C.Lock(Channels(p), name)
            && asked.records == p.records && Poller(asked) == Poller(p)
  {
    hide C.Run, C.Lock, PollerState.Run, D.Play, LegalRun;
    C.RunNext(p.ops, C.Get(h, name));
  }

  /** A live object is what its name stands for. */
  lemma LockLive<H, O, K, X>(p: Process<H, O, K, X>, o: O)
    requires o in Channels(p).objects
    ensures C.Lock(Channels(p), Channels(p).objects[o].name) == Some(o) <==> C.Live(Channels(p), o)
  {
    hide C.Run, PollerState.Run, D.Play, LegalRun;
    ProcessSound(p);
  }

  lemma AnswerStep<H, O, K, X>(
    p: Process<H, O, K, X>, o: O, sender: D.Sender, requester: bytes, typeId: nat, payload: bytes, full: set<nat>)
    requires Poller(p).running && sender.id != [] && HasKind(p, o, Router)
    requires o in p.records && p.records[o] < Capacity(ADDRESS_WIDTH) && typeId < Capacity(4)
    ensures var request := RequestOf(p, Some(o), sender, requester, typeId, payload, full);
            && (AnswersOn(request, p, o, sender, typeId, payload) <==> Routable(p, o, sender.id) && 0 !in full)
            && (EndsLoop(request, p) <==> !Routable(p, o, sender.id))
  {
    hide PollerState.Run, LegalRun, C.Run, D.Play, ReadSendRequest, Step;
    SendRequestArrives(requester, p.records[o], sender.id, typeId, payload, full);
    RouterStep(Poller(p), p.records[o], sender.id, typeId, payload, full);
  }

  /** What sending to a named peer does to a server's record, open or closed. */
  lemma RouterStep<P>(s: State<P>, id: P, peer: bytes, typeId: nat, payload: bytes, full: set<nat>)
    requires s.running && Lookup(s, id).Some? && Lookup(s, id).value.kind.Router? && peer != []
    ensures var info := Lookup(s, id).value;
            var message := Transmit(PollerState.Raw(info.socket), Addressed(peer, typeId, payload));
            Step(s, Send(id, peer, typeId, payload, full)) ==
              if info.socket.None? || peer !in info.routes then Result(s.(running := false), [])
              else Result(s, if 0 in full then [] else [message])
  {
    TakenOne(Transmissions(Lookup(s, id).value, peer, typeId, payload)[0], full);
  }

  /** A server posts a message of a peer, and some time later a handler of one of its jobs runs. */
  ghost predicate HandlesReceipt<H, O, K, X>(
    p: Process<H, O, K, X>, packet: Packet, server: Info<Address>,
    received: Process<H, O, K, X>, meanwhile: seq<Action<H, O, K, X>>, handling: Process<H, O, K, X>, x: X)
  {
    && server.socket.Some? && Goes(p, Polls(Data(server.socket.value, Some(packet))), received)
    && RunFrom(received, meanwhile) == Some(handling)
    && Running(handling, x, JobsOf(p, received))
  }

  /** The handler is told the peer and the channel, and gets the channel back exactly if it still lives. */
  lemma HandlerKnows<H, O, K, X>(
    p: Process<H, O, K, X>, o: O, server: Info<Address>,
    identity: bytes, typeId: nat, payload: bytes, fd: int, address: bytes,
    received: Process<H, O, K, X>, meanwhile: seq<Action<H, O, K, X>>, handling: Process<H, O, K, X>, x: X)
    requires Tied(p) && Listening(p, o, server) && typeId < Capacity(4)
    requires HandlesReceipt(
      p, DataFrom(identity, typeId, payload, fd, address), server, received, meanwhile, handling, x)
    ensures Current(handling, x) == D.Sender(identity, server.name, address)
    ensures Traced(p, handling, o) && Tied(handling) && HasKind(handling, o, Router)
    ensures C.Lock(Channels(handling), server.name) == Some(o) <==> C.Live(Channels(handling), o)
  {
    hide RunFrom, Allowed, Effect, C.Run, C.Lock, C.Live, PollerState.Run, LegalRun, D.Play;
    var receipt := Polls(Data(server.socket.value, Some(DataFrom(identity, typeId, payload, fd, address))));
    ReceiptJobs(p, o, server, identity, typeId, payload, fd, address);
    TiedNext(p, receipt);
    KindNext(p, receipt, o, Router);
    TracedRun(p, received, meanwhile, o);
    KindRun(received, meanwhile, o, Router);
    LockLive(handling, o);
  }

  /**
   Some time after a handler called send_current, whatever happens meanwhile to channels,
   poller, connections and brokers, the poller comes to its request. Then
   - the sender the handler asked for is the peer the message came from and the channel's name;
   - get yielded the channel the message came in on exactly if that channel still lived;
   - the reply goes out on that channel's socket, to that peer and nobody else, exactly if the
     channel still lives, is open and can route to the peer by the time the poller comes to
     the request, and the transport has room for it;
   - if the channel still lives but is closed, or its peer has left, the poll loop ends.
   The transport gives no peer the empty identity.
   */
  lemma ReplyGoesBack<H, O, K, X>(
    less: Order, status: nat, before: seq<Action<H, O, K, X>>,
    p: Process<H, O, K, X>, o: O, server: Info<Address>,
    identity: bytes, typeId: nat, payload: bytes, fd: int, address: bytes,
    received: Process<H, O, K, X>, meanwhile: seq<Action<H, O, K, X>>, handling: Process<H, O, K, X>, x: X,
    h: H, asked: Process<H, O, K, X>, after: seq<Action<H, O, K, X>>, later: Process<H, O, K, X>,
    requester: bytes, answerId: nat, answer: bytes, full: set<nat>)
    requires RunFrom(Beginning<H, O, K, X>(less, status), before) == Some(p)
    requires Listening(p, o, server) && p.records[o] < Capacity(ADDRESS_WIDTH)
    requires typeId < Capacity(4) && answerId < Capacity(4) && identity != []
    requires HandlesReceipt(
      p, DataFrom(identity, typeId, payload, fd, address), server, received, meanwhile, handling, x)
    requires Goes(handling, Handles(C.Get(h, Current(handling, x).name)), asked)
    requires RunFrom(asked, after) == Some(later) && Poller(later).running
    ensures var sender, found := Current(handling, x), C.Holding(Channels(asked), h);
            var request := RequestOf(asked, found, sender, requester, answerId, answer, full);
            && sender == D.Sender(identity, server.name, address)
            && (found == Some(o) <==> C.Live(Channels(handling), o))
            && (AnswersOn(request, later, o, sender, answerId, answer) <==>
                  C.Live(Channels(later), o) && Routable(later, o, identity) && 0 !in full)
            && (C.Live(Channels(later), o) ==> (EndsLoop(request, later) <==> !Routable(later, o, identity)))
            && RouterSends(Addressed(sender.id, answerId, answer))
               == Routed(identity, [U32(SOCKET_RECV_DATA), U32(answerId), answer])
  {
    hide RunFrom, Effect, Ties, C.Run, C.Step, C.Lock, C.Live, PollerState.Run, LegalRun, D.Play, AnswersOn,
         EndsLoop, RequestOf, Routable, RouterReceives, Step, Listening, HasKind;
    EveryRun(less, status, before);
    HandlerKnows(p, o, server, identity, typeId, payload, fd, address, received, meanwhile, handling, x);
    var sender := Current(handling, x);
    var get := Handles(C.Get(h, sender.name));
    GetIs(handling, h, sender.name);
    TracedNext(p, handling, get, o);
    TiedNext(handling, get);
    KindNext(handling, get, o, Router);
    TracedRun(p, asked, after, o);
    KindRun(asked, after, o, Router);
    assert Addressed(identity, answerId, answer)[1..] == [U32(SOCKET_RECV_DATA), U32(answerId), answer];
    AnswersIfLive(p, o, asked, C.Holding(Channels(asked), h), after, later, sender, requester, answerId, answer, full);
  }

  lemma AnswersIfLive<H, O, K, X>(
    p: Process<H, O, K, X>, o: O, asked: Process<H, O, K, X>, found: Option<O>,
    after: seq<Action<H, O, K, X>>, later: Process<H, O, K, X>,
    sender: D.Sender, requester: bytes, typeId: nat, payload: bytes, full: set<nat>)
    requires Traced(p, asked, o) && Traced(p, later, o) && HasKind(later, o, Router) && Poller(later).running
    requires RunFrom(asked, after) == Some(later)
    requires found == Some(o) <==> C.Live(Channels(asked), o)
    requires p.records[o] < Capacity(ADDRESS_WIDTH) && typeId < Capacity(4) && sender.id != []
    ensures var request := RequestOf(asked, found, sender, requester, typeId, payload, full);
            && (AnswersOn(request, later, o, sender, typeId, payload) <==>
                  C.Live(Channels(later), o) && Routable(later, o, sender.id) && 0 !in full)
            && (C.Live(Channels(later), o) ==> (EndsLoop(request, later) <==> !Routable(later, o, sender.id)))
  {
    hide RunFrom, C.Run, C.Live, PollerState.Run, LegalRun, D.Play, Step, HasKind, ReadSendRequest;
    if !C.Live(Channels(asked), o) {
      DeadForGood(asked, after, o);
    }
    if C.Live(Channels(later), o) {
      AnswerStep(later, o, sender, requester, typeId, payload, full);
    }
  }

  // ---------- When the reply does not go back ----------

  /** A broker is interested in the message, and its context has nothing else to do. */
  ghost predicate Waiting<K, X>(w: D.World<K, X>, k: K, x: X, typeId: nat, channel: bytes) {
    D.Eligible(w, k, typeId, channel) && k in w.home && w.home[k] == x && x in w.queues && w.queues[x] == []
  }

  lemma {:induction false} JobAt<K, X>(jobs: seq<D.Job<K, X>>, k: nat, x: X)
    requires k < |jobs| && jobs[k].context == x
    ensures D.JobsAt(jobs, x) != [] && D.JobsAt(jobs, x)[0] in jobs
    decreases |jobs|
  {
    var last := |jobs| - 1;
    D.JobsAtContext(jobs, x);
    if k < last {
      JobAt(jobs[..last], k, x);
    }
  }

  lemma PostQueues<K, X>(less: Order, events: seq<D.Event<K, X>>, t: nat, data: bytes, sender: D.Sender, k: K, x: X)
    requires D.Play(less, events).Some?
    requires Waiting(D.Play(less, events).value.world, k, x, t, sender.name)
    ensures var w := D.Play(less, events).value.world;
            var q := D.After(w, D.Post(t, data, sender));
            && x in q.queues && q.queues[x] != [] && q.queues[x][0] in D.Posted(w, t, data, sender)
  {
    hide D.Play, D.Posted, D.Eligible;
    var w := D.Play(less, events).value.world;
    var batch := D.Posted(w, t, data, sender);
    D.PostReachesEligible(less, events, t, data, sender);
    assert D.Reaches(batch, k);
    var j :| 0 <= j < |batch| && batch[j].broker == k;
    assert batch[j] in batch;
    JobAt(batch, j, x);
    assert D.After(w, D.Post(t, data, sender)).queues[x] == [] + D.JobsAt(batch, x);
  }

  lemma ReceiptQueues<H, O, K, X>(
    p: Process<H, O, K, X>, o: O, server: Info<Address>,
    identity: bytes, typeId: nat, payload: bytes, fd: int, address: bytes, k: K, x: X,
    received: Process<H, O, K, X>)
    requires Listening(p, o, server) && typeId < Capacity(4) && Waiting(Brokers(p).world, k, x, typeId, server.name)
    requires Goes(p, Polls(Data(server.socket.value, Some(DataFrom(identity, typeId, payload, fd, address)))), received)
    ensures var w := Brokers(received).world;
            && x in w.queues && w.queues[x] != [] && w.queues[x][0] in JobsOf(p, received)
    ensures Channels(received) == Channels(p) && received.records == p.records && Poller(received) == Poller(p)
  {
    hide Step, Legal, PollerState.Run, LegalRun, C.Run, D.Play, D.Posted, D.Eligible, D.After;
    var post := Post(typeId, payload, server.name, identity, address);
    var sender := D.Sender(identity, server.name, address);
    ReceiptSteps(p, o, server, identity, typeId, payload, fd, address);
    ReceiptJobs(p, o, server, identity, typeId, payload, fd, address);
    OnePost<K, X>(p.status, post);
    D.PostExtends(p.less, p.events, typeId, payload, sender);
    PostQueues(p.less, p.events, typeId, payload, sender, k, x);
    PollerMoves(p, received, Data(server.socket.value, Some(DataFrom(identity, typeId, payload, fd, address))));
  }

  /** The context runs the job at the head of its queue. */
  lemma RunsHead<H, O, K, X>(p: Process<H, O, K, X>, x: X, jobs: seq<D.Job<K, X>>)
    requires var w := Brokers(p).world; x in w.queues && w.queues[x] != [] && w.queues[x][0] in jobs
    ensures Allowed(p, Brokering(D.RunOne(x)))
    ensures var q := After(p, Brokering(D.RunOne(x)));
            Running(q, x, jobs) && Channels(q) == Channels(p) && Poller(q) == Poller(p) && q.records == p.records
  {
    hide D.Play, C.Run, PollerState.Run, LegalRun;
    D.PlayNext(p.less, p.events, D.RunOne(x));
    var h := Brokers(p);
    D.HeadIsLive(h.world, x);
    LastIs(h.ran, D.Perform(p.less, h.world.registry.calls, h.world.queues[x][0]), x);
  }

  lemma LastIs<K, X>(ran: seq<D.Outcome<K, X>>, outcome: D.Outcome<K, X>, x: X)
    requires outcome.job.context == x
    ensures D.LastOn(ran + [outcome], x) == Some(outcome.job)
  {
  }

  /** Taking the last handle of a listening channel is possible, and leaves its name to nobody. */
  lemma LastHandleGoes<H, O, K, X>(p: Process<H, O, K, X>, h: H, o: O, server: Info<Address>)
    requires Tied(p) && Listening(p, o, server)
    requires C.LastHandle(Channels(p), h) && C.Holding(Channels(p), h) == Some(o)
    ensures Allowed(p, Handles(C.Destroy(h)))
    ensures var q := After(p, Handles(C.Destroy(h)));
            && Brokers(q) == Brokers(p) && Poller(q).running && Tied(q)
            && !C.Live(Channels(q), o) && o in Channels(q).objects
            && server.name !in Channels(q).index && C.Lock(Channels(q), server.name) == None
  {
    hide PollerState.Run, LegalRun, C.Run, D.Play, C.Inv;
    assert Bound(Poller(p), p.records[o], Channels(p).objects[o].name);
    var q := After(p, Handles(C.Destroy(h)));
    ChannelsNext(p, q, C.Destroy(h));
    PollerMoves(p, q, Remove(p.records[o]));
    TiedNext(p, Handles(C.Destroy(h)));
    DestroyedIndex(Channels(p), h);
  }

  lemma DestroyedIndex<H, O>(c: C.State<H, O>, h: H)
    requires C.LastHandle(c, h)
    ensures c.objects[C.Holding(c, h).value].name !in C.Step(c, C.Destroy(h)).index
  {
  }

  /**
   Whenever the last handle of a server channel goes between the receipt and the handler,
   the handler's get finds nothing: send_current then uses a null object.
   */
  lemma ChannelGone<H, O, K, X>(
    p: Process<H, O, K, X>, o: O, server: Info<Address>,
    identity: bytes, typeId: nat, payload: bytes, fd: int, address: bytes, k: K, x: X,
    received: Process<H, O, K, X>, h: H)
    requires Tied(p) && Listening(p, o, server) && typeId < Capacity(4)
    requires Waiting(Brokers(p).world, k, x, typeId, server.name)
    requires Goes(p, Polls(Data(server.socket.value, Some(DataFrom(identity, typeId, payload, fd, address)))), received)
    requires C.LastHandle(Channels(p), h) && C.Holding(Channels(p), h) == Some(o)
    ensures Allowed(received, Handles(C.Destroy(h)))
    ensures var gone := After(received, Handles(C.Destroy(h)));
            && Allowed(gone, Brokering(D.RunOne(x)))
            && var handling := After(gone, Brokering(D.RunOne(x)));
               && Running(handling, x, JobsOf(p, received))
               && C.Lock(Channels(handling), Current(handling, x).name) == None
  {
    hide Step, PollerState.Run, LegalRun, C.Run, C.Lock, D.Play, Tied, Effect, Allowed;
    ReceiptJobs(p, o, server, identity, typeId, payload, fd, address);
    ReceiptQueues(p, o, server, identity, typeId, payload, fd, address, k, x, received);
    TiedNext(p, Polls(Data(server.socket.value, Some(DataFrom(identity, typeId, payload, fd, address)))));
    LastHandleGoes(received, h, o, server);
    RunsHead(After(received, Handles(C.Destroy(h))), x, JobsOf(p, received));
  }

  /** If a channel is then made under the same name, get finds that one: the reply would go out on it. */
  lemma ChannelReplaced<H, O, K, X>(
    p: Process<H, O, K, X>, o: O, server: Info<Address>,
    identity: bytes, typeId: nat, payload: bytes, fd: int, address: bytes, k: K, x: X,
    received: Process<H, O, K, X>, h: H, h': H, u: O, record: Address, kind: Kind)
    requires Tied(p) && Listening(p, o, server) && typeId < Capacity(4)
    requires Waiting(Brokers(p).world, k, x, typeId, server.name)
    requires Goes(p, Polls(Data(server.socket.value, Some(DataFrom(identity, typeId, payload, fd, address)))), received)
    requires C.LastHandle(Channels(p), h) && C.Holding(Channels(p), h) == Some(o)
    requires h' !in Channels(p).handles && u !in Channels(p).objects && Lookup(Poller(p), record) == None
    ensures Allowed(received, Handles(C.Destroy(h)))
    ensures var gone := After(received, Handles(C.Destroy(h)));
            && Allowed(gone, MakeRemote(h', u, server.name, record, kind))
            && var replaced := After(gone, MakeRemote(h', u, server.name, record, kind));
               && Allowed(replaced, Brokering(D.RunOne(x)))
               && var handling := After(replaced, Brokering(D.RunOne(x)));
                  && Running(handling, x, JobsOf(p, received)) && u != o
                  && C.Lock(Channels(handling), Current(handling, x).name) == Some(u)
  {
    hide Step, PollerState.Run, LegalRun, C.Run, C.Lock, C.LastHandle, D.Play, Tied, Effect, Allowed;
    ReceiptJobs(p, o, server, identity, typeId, payload, fd, address);
    ReceiptQueues(p, o, server, identity, typeId, payload, fd, address, k, x, received);
    TiedNext(p, Polls(Data(server.socket.value, Some(DataFrom(identity, typeId, payload, fd, address)))));
    LastHandleGoes(received, h, o, server);
    var gone := After(received, Handles(C.Destroy(h)));
    DestroyedFrame(received, h, h', u, o, record);
    NamedAnew(gone, h', u, server.name, record, kind);
    RunsHead(After(gone, MakeRemote(h', u, server.name, record, kind)), x, JobsOf(p, received));
  }

  lemma DestroyedFrame<H, O, K, X>(p: Process<H, O, K, X>, h: H, h': H, u: O, o: O, record: Address)
    requires Tied(p) && Allowed(p, Handles(C.Destroy(h))) && Poller(p).running
    requires C.LastHandle(Channels(p), h) && C.Holding(Channels(p), h) == Some(o) && o in p.records
    requires h' !in Channels(p).handles && u !in Channels(p).objects && Lookup(Poller(p), record) == None
    ensures var q := After(p, Handles(C.Destroy(h)));
            h' !in Channels(q).handles && u !in Channels(q).objects && Lookup(Poller(q), record) == None
  {
    hide Step, PollerState.Run, LegalRun, C.Run, D.Play, C.Inv, Layout;
    var q := After(p, Handles(C.Destroy(h)));
    ProcessSound(p);
    ChannelsNext(p, q, C.Destroy(h));
    PollerMoves(p, q, Remove(p.records[o]));
    LookupStep(Poller(p), Remove(p.records[o]), record);
  }

  lemma NamedAnew<H, O, K, X>(p: Process<H, O, K, X>, h: H, u: O, name: bytes, record: Address, kind: Kind)
    requires Poller(p).running && name !in Channels(p).index
    requires h !in Channels(p).handles && u !in Channels(p).objects && Lookup(Poller(p), record) == None
    ensures Allowed(p, MakeRemote(h, u, name, record, kind))
    ensures var q := After(p, MakeRemote(h, u, name, record, kind));
            C.Lock(Channels(q), name) == Some(u) && Brokers(q) == Brokers(p)
  {
    hide Step, PollerState.Run, LegalRun, C.Run, D.Play, C.Inv;
    var q := After(p, MakeRemote(h, u, name, record, kind));
    ChannelsNext(p, q, C.Make(h, u, name));
    MadeLives(p, h, u, name);
  }
}
