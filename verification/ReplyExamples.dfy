/**
 Three runs of send_current from the beginning (libhdk/channel/channel.hpp): a server channel
 is set up and has one connection, a broker registers, a message of the connected peer
 arrives and the broker's handler runs. In the first the reply goes back; in the second the
 peer leaves before the poller comes to the request; in the third the channel's only handle
 goes before the handler runs.
 */
module ReplyExamples {
  import opened Bytes
  import opened PollerState
  import opened PollerRuns
  import opened Replies
  import Peers
  import C = ChannelRegistry
  import D = Delivery
  import BrokerRegistry
  import opened Marshal
  import opened Wire

  type Small = Process<nat, nat, nat, nat>
  type Steps = seq<Action<nat, nat, nat, nat>>

  // ---------- The server ----------

  const NO_CHANNELS: C.State<nat, nat> := C.State(map[], map[], map[])

  function OneChannel(name: bytes): C.State<nat, nat> {
    C.State(map[0 := Some(0)], map[0 := C.Object(name, 1)], map[name := 0])
  }

  function Record(name: bytes, routes: set<bytes>): Info<Address> {
    Info(7, name, Router, Some(3), Some(4), Peers.NOBODY, routes)
  }

  const NO_RECORDS: State<Address> := State(1, 2, [1, 2], [], true)

  function ClosedRecord(name: bytes): State<Address> {
    State(1, 2, [1, 2], [PollerState.Blank(7, name, Router)], true)
  }

  function OpenRecord(name: bytes, routes: set<bytes>): State<Address> {
    State(1, 2, [1, 2, 3, 4], [Record(name, routes)], true)
  }

  /** The channel exists under its only handle, and its record is open and has these connections. */
  ghost predicate Basis(p: Small, name: bytes, routes: set<bytes>) {
    Channels(p) == OneChannel(name) && Poller(p) == OpenRecord(name, routes) && p.records == map[0 := 7]
  }

  lemma SmallSteps(name: bytes)
    ensures C.Legal(NO_CHANNELS, C.Make(0, 0, name)) && C.Step(NO_CHANNELS, C.Make(0, 0, name)) == OneChannel(name)
    ensures Legal(NO_RECORDS, Create(7, name, Router))
    ensures Step(NO_RECORDS, Create(7, name, Router)).state == ClosedRecord(name)
    ensures Legal(ClosedRecord(name), PollerState.Open(7, 3, 4, Opened))
    ensures Step(ClosedRecord(name), PollerState.Open(7, 3, 4, Opened)) == Result(OpenRecord(name, {}), [])
  {
  }

  lemma RoutingSteps(name: bytes, x: bytes)
    ensures Legal(OpenRecord(name, {}), Attach(3, x))
    ensures Step(OpenRecord(name, {}), Attach(3, x)) == Result(OpenRecord(name, {x}), [])
    ensures Legal(OpenRecord(name, {x}), Detach(3, x))
    ensures Step(OpenRecord(name, {x}), Detach(3, x)) == Result(OpenRecord(name, {}), [])
  {
    assert Rerouted(Record(name, {}), x, true) == Record(name, {x}) by {
      assert {} + {x} == {x};
    }
    assert Rerouted(Record(name, {x}), x, false) == Record(name, {}) by {
      assert {x} - {x} == {};
    }
  }

  lemma MakesServer(p: Small, name: bytes) returns (q: Small)
    requires Channels(p) == NO_CHANNELS && Poller(p) == NO_RECORDS && p.records == map[]
    ensures Goes(p, MakeRemote(0, 0, name, 7, Router), q)
    ensures Channels(q) == OneChannel(name) && Poller(q) == ClosedRecord(name) && q.records == map[0 := 7]
    ensures Brokers(q) == Brokers(p)
  {
    hide Step, Legal, C.Step, C.Legal, C.Run, PollerState.Run, LegalRun, D.Play;
    SmallSteps(name);
    q := After(p, MakeRemote(0, 0, name, 7, Router));
    ChannelsNext(p, q, C.Make(0, 0, name));
    PollerMoves(p, q, Create(7, name, Router));
  }

  /** A step of the poller that posts nothing leaves channels and brokers where they are. */
  lemma PollerOnly(p: Small, input: Input<Address>, next: State<Address>) returns (q: Small)
    requires Poller(p).running && Legal(Poller(p), input) && !input.Create? && !input.Remove?
    requires Step(Poller(p), input) == Result(next, [])
    ensures Goes(p, Polls(input), q)
    ensures Channels(q) == Channels(p) && Poller(q) == next && q.records == p.records && Brokers(q) == Brokers(p)
  {
    hide Step, Legal, C.Run, PollerState.Run, LegalRun, D.Play;
    q := After(p, Polls(input));
    PollerMoves(p, q, input);
    assert p.events + [] == p.events;
  }

  /** A server channel is made and opened, and a client connects. */
  function ServerSetUp(name: bytes, x: bytes): Steps {
    [MakeRemote(0, 0, name, 7, Router), Polls(PollerState.Open(7, 3, 4, Opened)), Polls(Attach(3, x))]
  }

  lemma ServerRuns(p: Small, name: bytes, x: bytes) returns (q: Small)
    requires Channels(p) == NO_CHANNELS && Poller(p) == NO_RECORDS && p.records == map[]
    ensures RunFrom(p, ServerSetUp(name, x)) == Some(q) && Basis(q, name, {x}) && Brokers(q) == Brokers(p)
  {
    hide RunFrom, Allowed, Effect, Channels, Poller, Brokers, Step, Legal;
    SmallSteps(name);
    RoutingSteps(name, x);
    var a := MakesServer(p, name);
    var b := PollerOnly(a, PollerState.Open(7, 3, 4, Opened), OpenRecord(name, {}));
    q := PollerOnly(b, Attach(3, x), OpenRecord(name, {x}));
    Three(p, MakeRemote(0, 0, name, 7, Router), a, Polls(PollerState.Open(7, 3, 4, Opened)), b, Polls(Attach(3, x)), q);
  }

  lemma Three(
    p: Small, a: Action<nat, nat, nat, nat>, q: Small, b: Action<nat, nat, nat, nat>, r: Small,
    c: Action<nat, nat, nat, nat>, s: Small)
    requires Goes(p, a, q) && Goes(q, b, r) && Goes(r, c, s)
    ensures RunFrom(p, [a, b, c]) == Some(s) && RunFrom(q, [b]) == Some(r) && RunFrom(s, []) == Some(s)
  {
    hide Allowed, Effect, Goes;
    RunNothing(p);
    RunNothing(q);
    RunNothing(s);
    hide RunFrom;
    RunThen(p, [], p, a, q);
    RunThen(p, [] + [a], q, b, r);
    RunThen(p, [] + [a] + [b], r, c, s);
    RunThen(q, [], q, b, r);
    assert [] + [a] + [b] + [c] == [a, b, c] && [] + [b] == [b];
  }

  // ---------- The broker ----------

  const ONE_CONTEXT: D.Contents<nat, nat> :=
    D.World(BrokerRegistry.State({}, map[], map[]), map[], map[], map[0 := []])

  const IDLE_BROKER: D.Contents<nat, nat> :=
    D.World(BrokerRegistry.State({0}, map[0 := map[]], map[]), map[0 := []], map[0 := 0], map[0 := []])

  function OneBroker(t: nat, f: BrokerRegistry.Callback): D.Contents<nat, nat> {
    D.World(BrokerRegistry.State({0}, map[0 := map[t := f]], map[t := [0]]), map[0 := []], map[0 := 0], map[0 := []])
  }

  lemma ContextStarts(w: D.World<nat, nat>)
    requires w == D.Blank()
    ensures D.Allowed(w, D.Start(0)) && D.After(w, D.Start(0)) == ONE_CONTEXT
  {
    hide D.Sound, D.Posted, D.Idle;
  }

  lemma BrokerJoins(w: D.World<nat, nat>)
    requires w == ONE_CONTEXT
    ensures D.Allowed(w, D.Join(0, 0)) && D.After(w, D.Join(0, 0)) == IDLE_BROKER
  {
    hide D.Sound, D.Posted, D.Idle;
  }

  lemma BrokerRegisters(w: D.World<nat, nat>, t: nat, f: BrokerRegistry.Callback)
    requires w == IDLE_BROKER
    ensures var e := D.Change(BrokerRegistry.Register(0, t, f)); D.Allowed(w, e) && D.After(w, e) == OneBroker(t, f)
  {
    hide D.Sound, D.Posted, D.Idle;
    assert [] + [0] == [0];
  }

  /** A step of the brokers leaves channels and poller where they are. */
  lemma BrokersMove(p: Small, e: D.Event<nat, nat>) returns (q: Small)
    requires D.Allowed(Brokers(p).world, e)
    ensures Goes(p, Brokering(e), q) && Brokers(q).world == D.After(Brokers(p).world, e)
    ensures Channels(q) == Channels(p) && Poller(q) == Poller(p) && q.records == p.records
  {
    hide C.Run, PollerState.Run, LegalRun, D.Play, D.Allowed, D.After;
    D.PlayNext(p.less, p.events, e);
    q := After(p, Brokering(e));
  }

  /** One broker registers for one type. */
  function BrokerSetUp(t: nat, f: BrokerRegistry.Callback): Steps {
    [Brokering(D.Start(0)), Brokering(D.Join(0, 0)), Brokering(D.Change(BrokerRegistry.Register(0, t, f)))]
  }

  lemma BrokerRuns(p: Small, t: nat, f: BrokerRegistry.Callback) returns (q: Small)
    requires Brokers(p).world == D.Blank()
    ensures RunFrom(p, BrokerSetUp(t, f)) == Some(q) && Brokers(q).world == OneBroker(t, f)
    ensures Channels(q) == Channels(p) && Poller(q) == Poller(p) && q.records == p.records
  {
    hide RunFrom, Allowed, Effect, Channels, Poller, Brokers, OneBroker, D.After, D.Allowed, Goes;
    var register := D.Change(BrokerRegistry.Register(0, t, f));
    ContextStarts(Brokers(p).world);
    var a := BrokersMove(p, D.Start(0));
    BrokerJoins(Brokers(a).world);
    var b := BrokersMove(a, D.Join(0, 0));
    BrokerRegisters(Brokers(b).world, t, f);
    q := BrokersMove(b, register);
    Three(p, Brokering(D.Start(0)), a, Brokering(D.Join(0, 0)), b, Brokering(register), q);
  }

  // ---------- Both ----------

  function SetUp(name: bytes, x: bytes, t: nat, f: BrokerRegistry.Callback): Steps {
    ServerSetUp(name, x) + BrokerSetUp(t, f)
  }

  /** The server listens through its only handle, and the broker waits for its messages. */
  ghost predicate Prepared(p: Small, name: bytes, x: bytes, t: nat) {
    && Basis(p, name, {x}) && Tied(p) && Waiting(Brokers(p).world, 0, 0, t, name)
  }

  lemma BasisMeans(p: Small, name: bytes, routes: set<bytes>)
    requires Basis(p, name, routes)
    ensures Listening(p, 0, Record(name, routes))
    ensures C.LastHandle(Channels(p), 0) && C.Holding(Channels(p), 0) == Some(0)
  {
    hide Channels, Poller;
  }

  lemma SmallWaits(w: D.World<nat, nat>, name: bytes, t: nat, f: BrokerRegistry.Callback)
    requires w == OneBroker(t, f)
    ensures Waiting(w, 0, 0, t, name)
  {
    hide D.Sound;
  }

  lemma BeginsEmpty(less: Order, status: nat)
    ensures Played(Beginning<nat, nat, nat, nat>(less, status))
    ensures var p: Small := Beginning<nat, nat, nat, nat>(less, status);
            Channels(p) == NO_CHANNELS && Poller(p) == NO_RECORDS && Brokers(p).world == D.Blank()
  {
  }

  lemma SetUpPrepares(less: Order, status: nat, name: bytes, x: bytes, t: nat, f: BrokerRegistry.Callback)
    returns (p: Small)
    ensures RunFrom(Beginning<nat, nat, nat, nat>(less, status), SetUp(name, x, t, f)) == Some(p)
    ensures Prepared(p, name, x, t)
  {
    hide RunFrom, Channels, Poller, Brokers, ServerSetUp, BrokerSetUp, OneBroker, OneChannel, OpenRecord, Waiting, Ties;
    BeginsEmpty(less, status);
    var start: Small := Beginning<nat, nat, nat, nat>(less, status);
    var server := ServerRuns(start, name, x);
    p := BrokerRuns(server, t, f);
    RunFromAppend(start, ServerSetUp(name, x), BrokerSetUp(t, f));
    Replies.EveryRun(less, status, SetUp(name, x, t, f));
    SmallWaits(Brokers(p).world, name, t, f);
  }

  // ---------- The three runs ----------

  lemma Receives(p: Small, name: bytes, x: bytes, t: nat, payload: bytes, fd: int, address: bytes)
    returns (received: Small)
    requires Prepared(p, name, x, t) && t < Capacity(4)
    ensures Goes(p, Polls(Data(3, Some(DataFrom(x, t, payload, fd, address)))), received)
    ensures Basis(received, name, {x}) && Tied(received)
    ensures var w := Brokers(received).world;
            0 in w.queues && w.queues[0] != [] && w.queues[0][0] in JobsOf(p, received)
    ensures forall job :: job in JobsOf(p, received) ==> job.sender == D.Sender(x, name, address)
  {
    hide Effect, Allowed, Channels, Poller, Brokers, Ties, Waiting, JobsOf, Listening, C.LastHandle, C.Holding;
    var message := Polls(Data(3, Some(DataFrom(x, t, payload, fd, address))));
    BasisMeans(p, name, {x});
    ReceiptJobs(p, 0, Record(name, {x}), x, t, payload, fd, address);
    received := After(p, message);
    ReceiptQueues(p, 0, Record(name, {x}), x, t, payload, fd, address, 0, 0, received);
    TiedNext(p, message);
  }

  /** A message arrives, the broker's handler runs, and it asks for the channel. */
  function Answering(name: bytes, packet: Packet): Steps {
    [Polls(Data(3, Some(packet))), Brokering(D.RunOne(0)), Handles(C.Get(1, name))]
  }

  /** What the handler's send_current puts before the poller. */
  ghost function Reply(asked: Small, sender: D.Sender, requester: bytes, typeId: nat, answer: bytes)
    : Option<Input<Address>>
  {
    RequestOf(asked, C.Holding(Channels(asked), 1), sender, requester, typeId, answer, {})
  }

  ghost predicate Standing(p: Small, name: bytes, routes: set<bytes>) {
    Tied(p) && Poller(p) == OpenRecord(name, routes) && p.records == map[0 := 7]
  }

  /** The run up to the handler's request: what each of its last three steps leads to. */
  lemma Asks(p: Small, name: bytes, x: bytes, t: nat, payload: bytes, fd: int, address: bytes)
    returns (received: Small, handling: Small, asked: Small)
    requires Prepared(p, name, x, t) && t < Capacity(4)
    ensures var packet := DataFrom(x, t, payload, fd, address);
            && HandlesReceipt(p, packet, Record(name, {x}), received, [Brokering(D.RunOne(0))], handling, 0)
            && Current(handling, 0) == D.Sender(x, name, address)
            && Goes(handling, Handles(C.Get(1, name)), asked) && Standing(asked, name, {x})
            && RunFrom(p, Answering(name, packet)) == Some(asked) && RunFrom(asked, []) == Some(asked)
  {
    hide RunFrom, Effect, Allowed, Channels, Poller, Brokers, Ties, Waiting, JobsOf, DataFrom;
    var message := Polls(Data(3, Some(DataFrom(x, t, payload, fd, address))));
    received := Receives(p, name, x, t, payload, fd, address);
    var run, get := Brokering(D.RunOne(0)), Handles(C.Get(1, name));
    RunsHead(received, 0, JobsOf(p, received));
    handling := After(received, run);
    GetIs(handling, 1, name);
    asked := After(handling, get);
    TiedNext(received, run);
    TiedNext(handling, get);
    Three(p, message, received, run, handling, get, asked);
  }

  lemma StandingMeans(p: Small, name: bytes, routes: set<bytes>, x: bytes)
    requires Standing(p, name, routes)
    ensures C.Live(Channels(p), 0) && Poller(p).running && (Routable(p, 0, x) <==> x in routes)
  {
    hide Poller, Channels, C.Live;
  }

  /** What ReplyGoesBack says of a later state in which the channel still stands. */
  lemma Answers(
    less: Order, status: nat, setUp: Steps, p: Small, name: bytes, x: bytes,
    t: nat, payload: bytes, fd: int, address: bytes, received: Small, handling: Small, asked: Small,
    after: Steps, later: Small, routes: set<bytes>, requester: bytes, typeId: nat, answer: bytes)
    requires RunFrom(Beginning<nat, nat, nat, nat>(less, status), setUp) == Some(p) && Prepared(p, name, x, t)
    requires t < Capacity(4) && typeId < Capacity(4) && x != []
    requires HandlesReceipt(p, DataFrom(x, t, payload, fd, address), Record(name, {x}),
                            received, [Brokering(D.RunOne(0))], handling, 0)
    requires Current(handling, 0) == D.Sender(x, name, address) && Goes(handling, Handles(C.Get(1, name)), asked)
    requires RunFrom(asked, after) == Some(later) && Standing(later, name, routes)
    ensures var sender := D.Sender(x, name, address);
            var request := Reply(asked, sender, requester, typeId, answer);
            && (AnswersOn(request, later, 0, sender, typeId, answer) <==> x in routes)
            && (EndsLoop(request, later) <==> x !in routes)
  {
    hide RunFrom, Allowed, Effect, Channels, Poller, Brokers, Ties, JobsOf, AnswersOn, EndsLoop, RequestOf, Routable,
         C.Live, C.Holding, Running, Listening, Waiting, Current, DataFrom, Goes;
    SizeCapacity();
    BasisMeans(p, name, {x});
    StandingMeans(later, name, routes, x);
    ReplyGoesBack(less, status, setUp, p, 0, Record(name, {x}), x, t, payload, fd, address,
                  received, [Brokering(D.RunOne(0))], handling, 0, 1, asked, after, later,
                  requester, typeId, answer, {});
  }

  /** From the beginning: in this run of nine steps the reply goes back to the peer. */
  lemma ReplyArrives(
    less: Order, status: nat, name: bytes, f: BrokerRegistry.Callback,
    x: bytes, t: nat, payload: bytes, fd: int, address: bytes, requester: bytes, typeId: nat, answer: bytes)
    requires t < Capacity(4) && typeId < Capacity(4) && x != []
    ensures var asked := RunFrom(Beginning<nat, nat, nat, nat>(less, status),
                                 SetUp(name, x, t, f) + Answering(name, DataFrom(x, t, payload, fd, address)));
            var sender := D.Sender(x, name, address);
            && asked.Some?
            && AnswersOn(Reply(asked.value, sender, requester, typeId, answer), asked.value, 0, sender, typeId, answer)
  {
    hide RunFrom, Channels, Poller, Brokers, Ties, AnswersOn, EndsLoop, Reply, SetUp, Prepared, HandlesReceipt,
         DataFrom, Goes, Current;
    var start: Small := Start(less, status);
    var p := SetUpPrepares(less, status, name, x, t, f);
    var received, handling, asked := Asks(p, name, x, t, payload, fd, address);
    Answers(less, status, SetUp(name, x, t, f), p, name, x, t, payload, fd, address,
            received, handling, asked, [], asked, {x}, requester, typeId, answer);
    RunFromAppend(start, SetUp(name, x, t, f), Answering(name, DataFrom(x, t, payload, fd, address)));
  }

  function Start(less: Order, status: nat): (p: Small)
    ensures p == Beginning<nat, nat, nat, nat>(less, status)
  {
    BeginsEmpty(less, status);
    Beginning<nat, nat, nat, nat>(less, status)
  }

  /**
   From the beginning: the peer leaves after the handler asked, and the poller comes to the
   reply before it hears of the disconnect. The loop ends for every channel of the process.
   */
  lemma PeerLeaves(
    less: Order, status: nat, name: bytes, f: BrokerRegistry.Callback,
    x: bytes, t: nat, payload: bytes, fd: int, address: bytes, requester: bytes, typeId: nat, answer: bytes)
    requires t < Capacity(4) && typeId < Capacity(4) && x != []
    ensures var steps := SetUp(name, x, t, f) + Answering(name, DataFrom(x, t, payload, fd, address));
            var asked := RunFrom(Beginning<nat, nat, nat, nat>(less, status), steps);
            var left := RunFrom(Beginning<nat, nat, nat, nat>(less, status), steps + [Polls(Detach(3, x))]);
            && asked.Some? && left.Some?
            && EndsLoop(Reply(asked.value, D.Sender(x, name, address), requester, typeId, answer), left.value)
  {
    hide RunFrom, Channels, Poller, Brokers, Ties, AnswersOn, EndsLoop, Reply, SetUp, Prepared, HandlesReceipt,
         DataFrom, Current, Step, Legal, Allowed, Effect;
    var start: Small := Start(less, status);
    var p := SetUpPrepares(less, status, name, x, t, f);
    var received, handling, asked := Asks(p, name, x, t, payload, fd, address);
    RunFromAppend(start, SetUp(name, x, t, f), Answering(name, DataFrom(x, t, payload, fd, address)));
    RoutingSteps(name, x);
    var left := PollerOnly(asked, Detach(3, x), OpenRecord(name, {}));
    TiedNext(asked, Polls(Detach(3, x)));
    RunThen(asked, [], asked, Polls(Detach(3, x)), left);
    var leave: Steps := [Polls(Detach(3, x))];
    assert [] + leave == leave;
    RunThen(start, SetUp(name, x, t, f) + Answering(name, DataFrom(x, t, payload, fd, address)),
            asked, Polls(Detach(3, x)), left);
    Answers(less, status, SetUp(name, x, t, f), p, name, x, t, payload, fd, address,
            received, handling, asked, [Polls(Detach(3, x))], left, {}, requester, typeId, answer);
  }

  /** A message arrives, the channel's only handle goes, and the broker's handler runs. */
  function Losing(packet: Packet): Steps {
    [Polls(Data(3, Some(packet))), Handles(C.Destroy(0)), Brokering(D.RunOne(0))]
  }

  lemma LostFrom(p: Small, name: bytes, x: bytes, t: nat, payload: bytes, fd: int, address: bytes)
    requires Prepared(p, name, x, t) && t < Capacity(4)
    ensures var end := RunFrom(p, Losing(DataFrom(x, t, payload, fd, address)));
            && end.Some? && D.LastOn(Brokers(end.value).ran, 0).Some?
            && Current(end.value, 0) == D.Sender(x, name, address)
            && C.Lock(Channels(end.value), name) == None
  {
    hide RunFrom, Allowed, Effect, Channels, Poller, Brokers, C.Lock, C.LastHandle, C.Holding, Ties, Listening, Waiting,
         JobsOf, DataFrom;
    var message := Polls(Data(3, Some(DataFrom(x, t, payload, fd, address))));
    var received := Receives(p, name, x, t, payload, fd, address);
    BasisMeans(p, name, {x});
    ChannelGone(p, 0, Record(name, {x}), x, t, payload, fd, address, 0, 0, received, 0);
    var gone := After(received, Handles(C.Destroy(0)));
    var end := After(gone, Brokering(D.RunOne(0)));
    Three(p, message, received, Handles(C.Destroy(0)), gone, Brokering(D.RunOne(0)), end);
  }

  /** From the beginning: in this run of nine steps the handler's get finds nothing. */
  lemma ReplyLost(
    less: Order, status: nat, name: bytes, f: BrokerRegistry.Callback,
    x: bytes, t: nat, payload: bytes, fd: int, address: bytes)
    requires t < Capacity(4)
    ensures var end := RunFrom(Beginning<nat, nat, nat, nat>(less, status),
                               SetUp(name, x, t, f) + Losing(DataFrom(x, t, payload, fd, address)));
            && end.Some? && D.LastOn(Brokers(end.value).ran, 0).Some?
            && Current(end.value, 0) == D.Sender(x, name, address)
            && C.Lock(Channels(end.value), name) == None
  {
    hide RunFrom, Channels, Poller, Brokers, C.Lock, Prepared, SetUp, Losing, DataFrom, Current;
    var p := SetUpPrepares(less, status, name, x, t, f);
    LostFrom(p, name, x, t, payload, fd, address);
    RunFromAppend(Start(less, status), SetUp(name, x, t, f), Losing(DataFrom(x, t, payload, fd, address)));
  }
}
