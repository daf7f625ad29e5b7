/**
 From a post to the handlers: brocker_manager::post queues one job per interested broker
 on the broker's execution context (libhdk/brocker/brocker_manager.cpp), and each context
 runs its jobs in turn (libhdk/brocker/brocker.cpp, brocker_call.hpp).

 A context is a queue that runs jobs first come, first served.
 */
module Delivery {
  import opened Bytes
  import opened Marshal
  import opened MarshalStream
  import opened BrokerRegistry

  /** What a handler can ask about the message it is handling. */
  datatype Sender = Sender(id: bytes, name: bytes, address: bytes)

  datatype Job<B, C> = Job(broker: B, context: C, typeId: TypeId, data: bytes, sender: Sender)

  datatype Contents<B, C> = World(
    registry: State<B>, filters: map<B, seq<bytes>>, home: map<B, C>, queues: map<C, seq<Job<B, C>>>)

  datatype Event<B, C> =
    | Start(context: C)
    | Join(newcomer: B, home: C)
    | Change(op: Operation<B>)
    | SetFilter(broker: B, filters: seq<bytes>)
    | Post(typeId: TypeId, data: bytes, sender: Sender)
    | RunOne(context: C)

  /** What running a job comes to. A value of None means the bytes ran out while reading. */
  datatype Outcome<B, C> =
    | Called(job: Job<B, C>, callback: Callback, value: Option<seq<Value>>)
    | Ignored(job: Job<B, C>)

  // ---------- What always holds ----------

  ghost predicate Sound<B, C>(w: Contents<B, C>) {
    && Inv(w.registry)
    && w.filters.Keys == w.registry.live && w.home.Keys == w.registry.live
    && (forall b :: b in w.home ==> w.home[b] in w.queues)
    && (forall c, k :: c in w.queues && 0 <= k < |w.queues[c]| ==>
          w.queues[c][k].context == c && w.queues[c][k].broker in w.registry.live)
  }

  function Blank<B, C>(): Contents<B, C> {
    World(Empty<B>(), map[], map[], map[])
  }

  type World<B, C> = w: Contents<B, C> | Sound(w) ghost witness Blank<B, C>()

  // ---------- Posting ----------

  /** No filter lets every channel through. */
  predicate Passes(filters: seq<bytes>, channel: bytes) {
    filters == [] || channel in filters
  }

  /** The jobs a post makes: one per broker on the list that lets the channel through. */
  function Batch<B, C>(
    list: seq<B>, filters: map<B, seq<bytes>>, home: map<B, C>, typeId: TypeId, data: bytes, sender: Sender)
    : seq<Job<B, C>>
    requires forall b :: b in list ==> b in filters && b in home
    decreases |list|
  {
    if list == [] then []
    else
      var last := |list| - 1;
      var b := list[last];
      Batch(list[..last], filters, home, typeId, data, sender)
      + if Passes(filters[b], sender.name) then [Job(b, home[b], typeId, data, sender)] else []
  }

  function JobsAt<B, C(==)>(jobs: seq<Job<B, C>>, c: C): seq<Job<B, C>>
    decreases |jobs|
  {
    if jobs == [] then []
    else
      var last := |jobs| - 1;
      JobsAt(jobs[..last], c) + if jobs[last].context == c then [jobs[last]] else []
  }

  function Posted<B(==), C>(w: World<B, C>, typeId: TypeId, data: bytes, sender: Sender): seq<Job<B, C>>
  {
    assert forall b :: b in ListFor(w.registry.index, typeId) ==> Listed(w.registry.index, b, typeId);
    Batch(ListFor(w.registry.index, typeId), w.filters, w.home, typeId, data, sender)
  }

  // ---------- Running ----------

  function Perform<B(==), C>(less: Order, calls: map<B, map<TypeId, Callback>>, job: Job<B, C>): (r: Outcome<B, C>)
    ensures r.job == job
  {
    if job.broker in calls && job.typeId in calls[job.broker] then
      var f := calls[job.broker][job.typeId];
      Called(job, f, match DecodeFields(less, f.types, Defaults(f.types), f.order, job.data)
                      case Some(d) => Some(d.result)
                      case None => None)
    else
      Ignored(job)
  }

  // ---------- Steps ----------

  /** Nothing is queued for a broker that is being destroyed. */
  ghost predicate Idle<B, C>(w: World<B, C>, b: B) {
    forall c, k :: c in w.queues && 0 <= k < |w.queues[c]| ==> w.queues[c][k].broker != b
  }

  ghost predicate Allowed<B, C>(w: World<B, C>, e: Event<B, C>) {
    match e
    case Start(c) => c !in w.queues
    case Join(b, c) => Legal(w.registry, Construct(b)) && c in w.queues
    case Change(op) => Legal(w.registry, op) && !op.Construct? && (op.Destroy? ==> Idle(w, op.broker))
    case SetFilter(b, _) => b in w.registry.live
    case Post(_, _, _) => true
    case RunOne(c) => c in w.queues && w.queues[c] != []
  }

  ghost function Effect<B, C>(w: World<B, C>, e: Event<B, C>): Contents<B, C>
    requires Allowed(w, e)
  {
    match e
    case Start(c) => w.(queues := w.queues[c := []])
    case Join(b, c) => World(Step(w.registry, Construct(b)), w.filters[b := []], w.home[b := c], w.queues)
    case Change(op) =>
      var registry := Step(w.registry, op);
      (match op
       case Copy(source, target) =>
         World(registry, w.filters[target := w.filters[source]], w.home[target := w.home[source]], w.queues)
       case Destroy(b) => World(registry, w.filters - {b}, w.home - {b}, w.queues)
       case _ => w.(registry := registry))
    case SetFilter(b, filters) => w.(filters := w.filters[b := filters])
    case Post(t, data, sender) =>
      w.(queues := map c | c in w.queues :: w.queues[c] + JobsAt(Posted(w, t, data, sender), c))
    case RunOne(c) => w.(queues := w.queues[c := w.queues[c][1..]])
  }

  ghost function After<B, C>(w: World<B, C>, e: Event<B, C>): World<B, C>
    requires Allowed(w, e)
  {
    EffectSound(w, e);
    Effect(w, e)
  }

  /** What an event runs: the job at the head of its context's queue. */
  ghost function Runs<B, C>(less: Order, w: World<B, C>, e: Event<B, C>): seq<Outcome<B, C>>
    requires Allowed(w, e)
  {
    if e.RunOne? then [Perform(less, w.registry.calls, w.queues[e.context][0])] else []
  }

  lemma {:induction false} JobsAtContext<B, C>(jobs: seq<Job<B, C>>, c: C)
    ensures forall k :: 0 <= k < |JobsAt(jobs, c)| ==> JobsAt(jobs, c)[k].context == c && JobsAt(jobs, c)[k] in jobs
    decreases |jobs|
  {
    if jobs != [] {
      JobsAtContext(jobs[..|jobs| - 1], c);
    }
  }

  lemma EffectSound<B, C>(w: World<B, C>, e: Event<B, C>)
    requires Allowed(w, e)
    ensures Sound(Effect(w, e))
  {
    hide Perform, Batch, Inv;
    match e
    case Start(c) =>
    case Join(b, c) => StepKeeps(w.registry, Construct(b));
    case Change(op) => StepKeeps(w.registry, op);
    case SetFilter(b, filters) =>
    case Post(t, data, sender) =>
      var jobs := Posted(w, t, data, sender);
      ListedAreHomed(w, t);
      BatchContents(ListFor(w.registry.index, t), w.filters, w.home, t, data, sender);
      forall c ensures forall k :: 0 <= k < |JobsAt(jobs, c)| ==>
        JobsAt(jobs, c)[k].context == c && JobsAt(jobs, c)[k].broker in w.registry.live
      {
        JobsAtContext(jobs, c);
      }
    case RunOne(c) =>
  }

  // ---------- Runs ----------

  /** The world after a run, every job ever posted and every job run, both in order. */
  datatype History<B, C> = History(world: World<B, C>, posted: seq<Job<B, C>>, ran: seq<Outcome<B, C>>)

  ghost function Extended<B, C>(less: Order, h: History<B, C>, e: Event<B, C>): History<B, C>
    requires Allowed(h.world, e)
  {
    History(After(h.world, e),
            h.posted + (if e.Post? then Posted(h.world, e.typeId, e.data, e.sender) else []),
            h.ran + Runs(less, h.world, e))
  }

  function Nothing<B, C>(): History<B, C> {
    History(Blank(), [], [])
  }

  ghost function Play<B, C>(less: Order, events: seq<Event<B, C>>): Option<History<B, C>>
    decreases |events|
  {
    if events == [] then Some(Nothing())
    else
      var last := |events| - 1;
      var before := Play(less, events[..last]);
      if before.Some? && Allowed(before.value.world, events[last]) then
        Some(Extended(less, before.value, events[last]))
      else
        None
  }

  /** The registry operations of a run. */
  function Operations<B, C>(events: seq<Event<B, C>>): seq<Operation<B>>
    decreases |events|
  {
    if events == [] then []
    else
      var last := |events| - 1;
      Operations(events[..last])
      + match events[last]
        case Join(b, _) => [Construct(b)]
        case Change(op) => [op]
        case _ => []
  }

  lemma {:induction false} RegistryOfRun<B, C>(less: Order, events: seq<Event<B, C>>)
    requires Play(less, events).Some?
    ensures Run(Operations(events)) == Some(Play(less, events).value.world.registry)
    decreases |events|
  {
    if events != [] {
      var last := |events| - 1;
      RegistryOfRun(less, events[..last]);
      var before, ops := Operations(events[..last]), Operations(events);
      if events[last].Join? || events[last].Change? {
        assert ops[..|ops| - 1] == before;
      } else {
        assert ops == before;
      }
    }
  }

  // ---------- Nothing is lost, repeated or overtaken ----------

  function Done<B, C>(ran: seq<Outcome<B, C>>): seq<Job<B, C>> {
    seq(|ran|, k requires 0 <= k < |ran| => ran[k].job)
  }

  /** The job a context's thread ran last: the one whose sender its handlers are told. */
  function LastOn<B, C(==)>(ran: seq<Outcome<B, C>>, c: C): Option<Job<B, C>>
    decreases |ran|
  {
    if ran == [] then None
    else
      var last := |ran| - 1;
      if ran[last].job.context == c then Some(ran[last].job) else LastOn(ran[..last], c)
  }

  function Queue<B, C(==)>(w: World<B, C>, c: C): seq<Job<B, C>> {
    if c in w.queues then w.queues[c] else []
  }

  lemma {:induction false} JobsAtAppend<B, C>(a: seq<Job<B, C>>, b: seq<Job<B, C>>, c: C)
    ensures JobsAt(a + b, c) == JobsAt(a, c) + JobsAt(b, c)
    decreases |b|
  {
    if b == [] {
      assert a + b == a;
    } else {
      var last := |b| - 1;
      assert (a + b)[..|a + b| - 1] == a + b[..last];
      JobsAtAppend(a, b[..last], c);
    }
  }

  lemma JobsAtOne<B, C>(t: Job<B, C>, c: C)
    ensures JobsAt([t], c) == if t.context == c then [t] else []
  {
    assert [t][..0] == [];
  }

  /** Where each context stands: the jobs it has run, then those it still holds. */
  ghost predicate Conserved<B, C>(h: History<B, C>, c: C) {
    JobsAt(h.posted, c) == JobsAt(Done(h.ran), c) + Queue(h.world, c)
  }

  lemma {:induction false} BatchContext<B, C>(
    list: seq<B>, filters: map<B, seq<bytes>>, home: map<B, C>, t: TypeId, data: bytes, sender: Sender, c: C)
    requires forall b :: b in list ==> b in filters && b in home && home[b] != c
    ensures JobsAt(Batch(list, filters, home, t, data, sender), c) == []
    decreases |list|
  {
    if list != [] {
      var last := |list| - 1;
      var b := list[last];
      var rest := Batch(list[..last], filters, home, t, data, sender);
      BatchContext(list[..last], filters, home, t, data, sender, c);
      assert b in list && rest + [] == rest;
      JobsAtAppend(rest, [Job(b, home[b], t, data, sender)], c);
      JobsAtOne(Job(b, home[b], t, data, sender), c);
    }
  }

  /**
   In every run each context has run exactly a first part of the jobs posted to it, in the
   order they were posted, and still holds the others.
   */
  lemma {:induction false} EveryJobOnce<B, C>(less: Order, events: seq<Event<B, C>>, c: C)
    requires Play(less, events).Some?
    ensures Conserved(Play(less, events).value, c)
    decreases |events|
  {
    if events != [] {
      var last := |events| - 1;
      EveryJobOnce(less, events[..last], c);
      ConservedNext(less, Play(less, events[..last]).value, events[last], c);
    }
  }

  lemma ConservedNext<B, C>(less: Order, h: History<B, C>, e: Event<B, C>, c: C)
    requires Allowed(h.world, e) && Conserved(h, c)
    ensures Conserved(Extended(less, h, e), c)
  {
    hide Sound, Step, Legal, Perform, Posted, Done, Idle, JobsAt;
    var next := Extended(less, h, e);
    match e
    case Post(t, data, sender) =>
      var batch := Posted(h.world, t, data, sender);
      JobsAtAppend(h.posted, batch, c);
      if c !in h.world.queues {
        PostedElsewhere(h.world, t, data, sender, c);
      }
      assert next.ran == h.ran;
    case RunOne(at) =>
      var job := h.world.queues[at][0];
      DoneAppend(h.ran, Perform(less, h.world.registry.calls, job));
      JobsAtAppend(Done(h.ran), [job], c);
      JobsAtOne(job, c);
      assert next.posted == h.posted;
      assert next.ran == h.ran + [Perform(less, h.world.registry.calls, job)];
      HeadIsLive(h.world, at);
      if at == c {
        assert Queue(h.world, c) == [job] + Queue(next.world, c);
      } else {
        assert Queue(h.world, c) == [] + Queue(next.world, c);
      }
    case _ =>
      assert next.ran == h.ran && next.posted == h.posted;
  }

  /** The job a context ran last is the last of those it has run. */
  lemma {:induction false} LastOnIsLast<B, C>(ran: seq<Outcome<B, C>>, c: C)
    ensures var own := JobsAt(Done(ran), c);
            LastOn(ran, c) == if own == [] then None else Some(own[|own| - 1])
    decreases |ran|
  {
    if ran != [] {
      var last := |ran| - 1;
      LastOnIsLast(ran[..last], c);
      assert Done(ran)[..|Done(ran)| - 1] == Done(ran[..last]);
    }
  }

  lemma ListsNotEmpty<B, C>(w: World<B, C>)
    ensures forall t :: t in w.registry.index ==> w.registry.index[t] != []
  {
  }

  lemma DoneAppend<B, C>(ran: seq<Outcome<B, C>>, o: Outcome<B, C>)
    ensures Done(ran + [o]) == Done(ran) + [o.job]
  {
  }

  lemma HeadIsLive<B, C>(w: World<B, C>, c: C)
    requires c in w.queues && w.queues[c] != []
    ensures w.queues[c][0].context == c && w.queues[c][0].broker in w.registry.live
    ensures w.queues[c][0].broker in w.registry.calls
  {
  }

  /** Posting never reaches a context that was not started. */
  lemma PostedElsewhere<B, C>(w: World<B, C>, t: TypeId, data: bytes, sender: Sender, c: C)
    requires c !in w.queues
    ensures JobsAt(Posted(w, t, data, sender), c) == []
  {
    ListedAreHomed(w, t);
    BatchContext(ListFor(w.registry.index, t), w.filters, w.home, t, data, sender, c);
  }

  lemma ListedAreHomed<B, C>(w: World<B, C>, t: TypeId)
    ensures forall b :: b in ListFor(w.registry.index, t) ==>
      b in w.registry.live && b in w.filters && b in w.home && w.home[b] in w.queues
  {
    forall b | b in ListFor(w.registry.index, t)
      ensures b in w.registry.live && b in w.filters && b in w.home && w.home[b] in w.queues
    {
      assert Listed(w.registry.index, b, t);
    }
  }

  // ---------- Filters and contexts of brokers ----------

  /** The event makes the broker. */
  predicate Creates<B(==), C>(e: Event<B, C>, b: B) {
    (e.Join? && e.newcomer == b) || (e.Change? && e.op.Copy? && e.op.target == b)
  }

  predicate Refilters<B(==), C>(e: Event<B, C>, b: B) {
    Creates(e, b) || (e.SetFilter? && e.broker == b)
  }

  /** The length of the run just after the last event that made the broker, or set its filters. */
  function LastSet<B(==), C>(events: seq<Event<B, C>>, b: B, filtersToo: bool): (k: nat)
    ensures k <= |events|
    decreases |events|
  {
    if events == [] then 0
    else
      var e := events[|events| - 1];
      if (if filtersToo then Refilters(e, b) else Creates(e, b)) then |events|
      else LastSet(events[..|events| - 1], b, filtersToo)
  }

  ghost predicate HasFilters<B, C>(w: World<B, C>, b: B, filters: seq<bytes>) {
    b in w.filters && w.filters[b] == filters
  }

  ghost predicate RunsOn<B, C>(w: World<B, C>, b: B, c: C) {
    b in w.home && w.home[b] == c
  }

  /** The filters the event left the broker with: none, those given, or those of its original. */
  ghost predicate Filtered<B, C>(w: World<B, C>, e: Event<B, C>, filters: seq<bytes>) {
    match e
    case Join(_, _) => filters == []
    case SetFilter(_, given) => filters == given
    case Change(op) => op.Copy? && HasFilters(w, op.source, filters)
    case _ => false
  }

  /** The context the event put the broker on: the one given, or its original's. */
  ghost predicate Settled<B, C>(w: World<B, C>, e: Event<B, C>, c: C) {
    match e
    case Join(_, home) => c == home
    case Change(op) => op.Copy? && RunsOn(w, op.source, c)
    case _ => false
  }

  lemma SettingsOfLive<B, C>(w: World<B, C>)
    ensures w.filters.Keys == w.registry.live && w.home.Keys == w.registry.live
  {
  }

  lemma FiltersNext<B, C>(w: World<B, C>, e: Event<B, C>, b: B, filters: seq<bytes>)
    requires Allowed(w, e) && HasFilters(After(w, e), b, filters)
    ensures if Refilters(e, b) then Filtered(w, e, filters) else HasFilters(w, b, filters)
  {
    hide Sound, Step, Posted, Idle, JobsAt;
    SettingsOfLive(w);
  }

  lemma ContextNext<B, C>(w: World<B, C>, e: Event<B, C>, b: B, c: C)
    requires Allowed(w, e) && RunsOn(After(w, e), b, c)
    ensures if Creates(e, b) then Settled(w, e, c) else RunsOn(w, b, c)
  {
    hide Sound, Step, Posted, Idle, JobsAt;
    SettingsOfLive(w);
  }

  /**
   In every run the filters of a broker are those the last event that set them gave it; a
   copy begins with the filters its original had at that moment.
   */
  lemma {:induction false} FiltersEveryRun<B, C>(less: Order, events: seq<Event<B, C>>, b: B, filters: seq<bytes>)
    requires Play(less, events).Some? && HasFilters(Play(less, events).value.world, b, filters)
    ensures var k := LastSet(events, b, true);
            && 0 < k && Play(less, events[..k - 1]).Some?
            && Filtered(Play(less, events[..k - 1]).value.world, events[k - 1], filters)
    decreases |events|
  {
    hide Refilters, Creates, Filtered, After, Allowed;
    if events == [] {
      assert false;
    }
    var last := |events| - 1;
    var earlier := events[..last];
    FiltersNext(Play(less, earlier).value.world, events[last], b, filters);
    if !Refilters(events[last], b) {
      FiltersEveryRun(less, earlier, b, filters);
      var k := LastSet(earlier, b, true);
      assert events[..k - 1] == earlier[..k - 1];
    }
  }

  /** In every run a broker's jobs go to the context it was made for, a copy's to its original's. */
  lemma {:induction false} ContextEveryRun<B, C>(less: Order, events: seq<Event<B, C>>, b: B, c: C)
    requires Play(less, events).Some? && RunsOn(Play(less, events).value.world, b, c)
    ensures var k := LastSet(events, b, false);
            && 0 < k && Play(less, events[..k - 1]).Some?
            && Settled(Play(less, events[..k - 1]).value.world, events[k - 1], c)
    decreases |events|
  {
    hide Creates, Settled, After, Allowed;
    if events == [] {
      assert false;
    }
    var last := |events| - 1;
    var earlier := events[..last];
    ContextNext(Play(less, earlier).value.world, events[last], b, c);
    if !Creates(events[last], b) {
      ContextEveryRun(less, earlier, b, c);
      var k := LastSet(earlier, b, false);
      assert events[..k - 1] == earlier[..k - 1];
    }
  }

  // ---------- Who is told, and in which order ----------

  ghost predicate Reaches<B, C>(batch: seq<Job<B, C>>, b: B) {
    exists k :: 0 <= k < |batch| && batch[k].broker == b
  }

  lemma {:induction false} BatchContents<B, C>(
    list: seq<B>, filters: map<B, seq<bytes>>, home: map<B, C>, t: TypeId, data: bytes, sender: Sender)
    requires forall b :: b in list ==> b in filters && b in home
    ensures var batch := Batch(list, filters, home, t, data, sender);
            && (forall job :: job in batch ==>
                  job.broker in list && Passes(filters[job.broker], sender.name)
                  && job == Job(job.broker, home[job.broker], t, data, sender))
            && (forall b :: b in list && Passes(filters[b], sender.name) ==> Reaches(batch, b))
            && (forall i, j :: 0 <= i < j < |batch| ==> Before(list, batch[i].broker, batch[j].broker))
    decreases |list|
  {
    if list != [] {
      var last := |list| - 1;
      var b, front := list[last], list[..last];
      var rest := Batch(front, filters, home, t, data, sender);
      var batch := Batch(list, filters, home, t, data, sender);
      assert list == front + [b];
      BatchContents(front, filters, home, t, data, sender);
      forall x | x in list && Passes(filters[x], sender.name) ensures Reaches(batch, x) {
        if x in front {
          var k :| 0 <= k < |rest| && rest[k].broker == x;
          assert batch[k] == rest[k];
        } else {
          assert batch[|rest|].broker == x;
        }
      }
      forall i, j | 0 <= i < j < |batch| ensures Before(list, batch[i].broker, batch[j].broker) {
        BeforeGrows(front, b, rest, batch, i, j);
      }
    }
  }

  lemma BeforeGrows<B, C>(front: seq<B>, b: B, rest: seq<Job<B, C>>, batch: seq<Job<B, C>>, i: nat, j: nat)
    requires i < j < |batch|
    requires batch == rest || (|batch| == |rest| + 1 && batch[..|rest|] == rest && batch[|rest|].broker == b)
    requires forall job :: job in rest ==> job.broker in front
    requires forall i, j :: 0 <= i < j < |rest| ==> Before(front, rest[i].broker, rest[j].broker)
    ensures Before(front + [b], batch[i].broker, batch[j].broker)
  {
    var list := front + [b];
    assert batch[i] == rest[i];
    if j < |rest| {
      assert batch[j] == rest[j];
      var p, q :| 0 <= p < q < |front| && front[p] == rest[i].broker && front[q] == rest[j].broker;
      assert list[p] == front[p] && list[q] == front[q];
    } else {
      assert rest[i] in rest;
      var p :| 0 <= p < |front| && front[p] == rest[i].broker;
      assert list[p] == front[p] && list[|front|] == b;
    }
  }

  /** A broker is meant by a post when it handles the type and lets the channel through. */
  ghost predicate Eligible<B, C>(w: World<B, C>, b: B, t: TypeId, channel: bytes) {
    Handles(w.registry, b, t) && b in w.filters && (w.filters[b] == [] || channel in w.filters[b])
  }

  /**
   In every run, a post makes exactly one job for each eligible broker and none for any
   other, in the order in which the brokers began to handle the type.
   */
  lemma PostReachesEligible<B, C>(less: Order, events: seq<Event<B, C>>, t: TypeId, data: bytes, sender: Sender)
    requires Play(less, events).Some?
    ensures Run(Operations(events)).Some?
    ensures var w := Play(less, events).value.world;
            var batch := Posted(w, t, data, sender);
            && (forall b :: Eligible(w, b, t, sender.name) <==> Reaches(batch, b))
            && (forall job :: job in batch ==>
                  job.broker in w.home && job == Job(job.broker, w.home[job.broker], t, data, sender))
            && (forall i, j :: 0 <= i < j < |batch| ==>
                  Since(Operations(events), batch[i].broker, t) < Since(Operations(events), batch[j].broker, t))
  {
    var w := Play(less, events).value.world;
    var list, batch := ListFor(w.registry.index, t), Posted(w, t, data, sender);
    ListedAreHomed(w, t);
    BatchContents(list, w.filters, w.home, t, data, sender);
    RegistryOfRun(less, events);
    RegistrationOrder(Operations(events), t);
    forall b ensures b in list <==> Handles(w.registry, b, t) {
      ListedHandles(w.registry, b, t);
    }
    forall b ensures Eligible(w, b, t, sender.name) <==> Reaches(batch, b) {
      if Reaches(batch, b) {
        var k :| 0 <= k < |batch| && batch[k].broker == b;
        assert batch[k] in batch;
      }
    }
    forall i, j | 0 <= i < j < |batch|
      ensures Since(Operations(events), batch[i].broker, t) < Since(Operations(events), batch[j].broker, t)
    {
      assert Before(list, batch[i].broker, batch[j].broker);
    }
  }

  // ---------- What they are told ----------

  const LOCAL: bytes := [108, 111, 99, 97, 108]

  /** channel_impl_local::send */
  function LocalPost<B, C>(typeId: TypeId, fields: seq<Value>, order: seq<nat>, channel: bytes): Event<B, C>
    requires forall i :: 0 <= i < |order| ==> order[i] < |fields|
  {
    Post(typeId, EncodeFields(fields, order), Sender(LOCAL, channel, LOCAL))
  }

  /** A handler for a struct reads the fields the sender wrote, in the sender's order. */
  predicate Reads(f: Callback, types: seq<Type>, order: seq<nat>) {
    f.types == types && f.order == order
  }

  /**
   A job for a struct, run while its broker handles the type, calls the handler once with
   the very value that was sent.
   */
  lemma JobDelivers<B, C>(
    less: Order, calls: map<B, map<TypeId, Callback>>, job: Job<B, C>, types: seq<Type>, v: seq<Value>, order: seq<nat>)
    requires FieldsHaveType(less, types, v) && EvaluationOrder(order, |v|)
    requires job.data == EncodeFields(v, order)
    requires job.broker in calls && job.typeId in calls[job.broker]
    requires Reads(calls[job.broker][job.typeId], types, order)
    ensures Perform(less, calls, job) == Called(job, calls[job.broker][job.typeId], Some(v))
  {
    StructRoundTrip(less, types, v, order, []);
    assert EncodeFields(v, order) + [] == EncodeFields(v, order);
  }

  /** Every handler of the type takes this struct. */
  ghost predicate AllRead<B, C>(w: World<B, C>, t: TypeId, types: seq<Type>, order: seq<nat>) {
    forall b :: b in w.registry.calls && t in w.registry.calls[b] ==> Reads(w.registry.calls[b][t], types, order)
  }

  /** The job, run before its broker changes its handlers, hands over the value. */
  ghost predicate Delivers<B, C>(less: Order, w: World<B, C>, job: Job<B, C>, v: seq<Value>) {
    var calls := w.registry.calls;
    && job.broker in calls && job.typeId in calls[job.broker]
    && Perform(less, calls, job) == Called(job, calls[job.broker][job.typeId], Some(v))
  }

  /**
   The jobs are one for each broker that handles the type and lets the channel through, in
   registration order, and each of them hands over this value, labelled with the sender.
   */
  ghost predicate DealtOut<B, C>(
    less: Order, events: seq<Event<B, C>>, batch: seq<Job<B, C>>, t: TypeId, sender: Sender, v: seq<Value>)
    requires Play(less, events).Some? && Run(Operations(events)).Some?
  {
    var w := Play(less, events).value.world;
    && (forall b :: b in w.registry.live ==> (Eligible(w, b, t, sender.name) <==> Reaches(batch, b)))
    && (forall i, j :: 0 <= i < j < |batch| ==>
          Since(Operations(events), batch[i].broker, t) < Since(Operations(events), batch[j].broker, t))
    && (forall job :: job in batch ==>
          Eligible(w, job.broker, t, sender.name) && job.sender == sender && Delivers(less, w, job, v))
  }

  /** A struct posted after any run is dealt out. */
  lemma StructPostDelivers<B, C>(
    less: Order, events: seq<Event<B, C>>, t: TypeId, types: seq<Type>, v: seq<Value>, order: seq<nat>, sender: Sender)
    requires Play(less, events).Some?
    requires FieldsHaveType(less, types, v) && EvaluationOrder(order, |v|)
    requires AllRead(Play(less, events).value.world, t, types, order)
    ensures Run(Operations(events)).Some?
    ensures var batch := Posted(Play(less, events).value.world, t, EncodeFields(v, order), sender);
            DealtOut(less, events, batch, t, sender, v)
  {
    var w := Play(less, events).value.world;
    var batch := Posted(w, t, EncodeFields(v, order), sender);
    PostReachesEligible(less, events, t, EncodeFields(v, order), sender);
    forall job | job in batch ensures Eligible(w, job.broker, t, sender.name) && Delivers(less, w, job, v) {
      assert Reaches(batch, job.broker);
      assert Eligible(w, job.broker, t, sender.name);
      JobDelivers(less, w.registry.calls, job, types, v, order);
    }
  }

  lemma PlayNext<B, C>(less: Order, events: seq<Event<B, C>>, e: Event<B, C>)
    requires Play(less, events).Some? && Allowed(Play(less, events).value.world, e)
    ensures Play(less, events + [e]) == Some(Extended(less, Play(less, events).value, e))
  {
    hide Extended, Allowed;
    assert (events + [e])[..|events|] == events;
  }

  /** A post adds its batch to what was posted, and runs nothing. */
  lemma PostExtends<B, C>(less: Order, events: seq<Event<B, C>>, t: TypeId, data: bytes, sender: Sender)
    requires Play(less, events).Some?
    ensures var h, sent := Play(less, events).value, Play(less, events + [Post(t, data, sender)]);
            && sent.Some? && sent.value.ran == h.ran && sent.value.world == After(h.world, Post(t, data, sender))
            && sent.value.posted == h.posted + Posted(h.world, t, data, sender)
  {
    hide Posted, Effect, Sound, After, Play;
    PlayNext(less, events, Post(t, data, sender));
  }

  /** A local send is such a post, under the channel's name; nothing runs and nothing queued before is touched. */
  lemma LocalSend<B, C>(
    less: Order, events: seq<Event<B, C>>, t: TypeId, types: seq<Type>, v: seq<Value>, order: seq<nat>, channel: bytes)
    requires Play(less, events).Some?
    requires FieldsHaveType(less, types, v) && EvaluationOrder(order, |v|)
    requires AllRead(Play(less, events).value.world, t, types, order)
    ensures Run(Operations(events)).Some?
    ensures var h := Play(less, events).value;
            var sent := Play(less, events + [LocalPost(t, v, order, channel)]);
            && sent.Some? && sent.value.ran == h.ran && |h.posted| <= |sent.value.posted|
            && sent.value.posted[..|h.posted|] == h.posted
            && var batch := sent.value.posted[|h.posted|..];
               DealtOut(less, events, batch, t, Sender(LOCAL, channel, LOCAL), v)
  {
    hide DealtOut, Posted, EncodeFields, AllRead, After, Sound, Play;
    var h := Play(less, events).value;
    var sender := Sender(LOCAL, channel, LOCAL);
    StructPostDelivers(less, events, t, types, v, order, sender);
    PostExtends(less, events, t, EncodeFields(v, order), sender);
    SplitAppend(h.posted, Posted(h.world, t, EncodeFields(v, order), sender));
  }

  /** Whoever registers for the type registers a handler for this struct. */
  ghost predicate RegistersFor<B, C>(e: Event<B, C>, t: TypeId, types: seq<Type>, order: seq<nat>) {
    e.Change? && e.op.Register? && e.op.typeId == t ==> Reads(e.op.callback, types, order)
  }

  /** Every callback for these bytes so far was handed this value. */
  ghost predicate HandedOver<B, C>(ran: seq<Outcome<B, C>>, t: TypeId, data: bytes, v: seq<Value>) {
    forall k :: 0 <= k < |ran| && ran[k].job.typeId == t && ran[k].job.data == data && ran[k].Called? ==>
      ran[k].value == Some(v)
  }

  lemma AllReadNext<B, C>(w: World<B, C>, e: Event<B, C>, t: TypeId, types: seq<Type>, order: seq<nat>)
    requires Allowed(w, e) && RegistersFor(e, t, types, order) && AllRead(w, t, types, order)
    ensures AllRead(After(w, e), t, types, order)
  {
    hide Sound, Inv, Idle, Posted, Batch, JobsAt, Registered, Unregistered, Cloned, Removed, Reads;
  }

  lemma HandedOverNext<B, C>(
    less: Order, h: History<B, C>, e: Event<B, C>, t: TypeId, types: seq<Type>, v: seq<Value>, order: seq<nat>)
    requires FieldsHaveType(less, types, v) && EvaluationOrder(order, |v|)
    requires Allowed(h.world, e) && AllRead(h.world, t, types, order)
    requires HandedOver(h.ran, t, EncodeFields(v, order), v)
    ensures HandedOver(Extended(less, h, e).ran, t, EncodeFields(v, order), v)
  {
    hide Sound, Inv, Idle, Posted, After, FieldsHaveType, EncodeFields, DecodeFields;
    if e.RunOne? {
      var job := h.world.queues[e.context][0];
      if job.broker in h.world.registry.calls && t in h.world.registry.calls[job.broker]
         && job.typeId == t && job.data == EncodeFields(v, order) {
        JobDelivers(less, h.world.registry.calls, job, types, v, order);
      }
    }
  }

  /**
   In every run in which only handlers for the struct register for its type, whatever is
   posted, filtered, copied, unregistered and run meanwhile: each callback for the encoding
   of a value is handed that value.
   */
  lemma {:induction false} ValuesArrive<B, C>(
    less: Order, events: seq<Event<B, C>>, t: TypeId, types: seq<Type>, v: seq<Value>, order: seq<nat>)
    requires FieldsHaveType(less, types, v) && EvaluationOrder(order, |v|)
    requires Play(less, events).Some? && forall k :: 0 <= k < |events| ==> RegistersFor(events[k], t, types, order)
    ensures AllRead(Play(less, events).value.world, t, types, order)
    ensures HandedOver(Play(less, events).value.ran, t, EncodeFields(v, order), v)
    decreases |events|
  {
    if events != [] {
      hide AllRead, HandedOver, RegistersFor, FieldsHaveType, EvaluationOrder, EncodeFields, Allowed, Effect;
      var last := |events| - 1;
      var before := Play(less, events[..last]).value;
      ValuesArrive(less, events[..last], t, types, v, order);
      AllReadNext(before.world, events[last], t, types, order);
      HandedOverNext(less, before, events[last], t, types, v, order);
    }
  }

  // ---------- Unregistered brokers ----------

  /** The event does not make the broker handle the type. */
  ghost predicate Quiet<B, C>(e: Event<B, C>, b: B, t: TypeId) {
    e.Change? ==>
      && (e.op.Register? ==> e.op.broker != b || e.op.typeId != t)
      && (e.op.Copy? ==> e.op.target != b)
  }

  /** None of the jobs run, from the given one on, was a callback of this broker for this type. */
  ghost predicate Silent<B, C>(ran: seq<Outcome<B, C>>, from: nat, b: B, t: TypeId) {
    forall k :: from <= k < |ran| ==> ran[k].Ignored? || ran[k].job.broker != b || ran[k].job.typeId != t
  }

  lemma CallsOfLive<B, C>(w: World<B, C>)
    ensures w.registry.calls.Keys == w.registry.live
  {
  }

  lemma QuietStep<B, C>(less: Order, h: History<B, C>, e: Event<B, C>, from: nat, b: B, t: TypeId)
    requires Allowed(h.world, e) && Quiet(e, b, t)
    requires !Handles(h.world.registry, b, t) && Silent(h.ran, from, b, t)
    ensures var next := Extended(less, h, e);
            |h.ran| <= |next.ran| && !Handles(next.world.registry, b, t) && Silent(next.ran, from, b, t)
  {
    hide Sound, Inv, Idle, Batch, Posted, JobsAt, Registered, Unregistered, Cloned, Removed, ListFor;
    CallsOfLive(h.world);
  }

  /**
   Once a broker has stopped handling a type it gets no callback for it until it registers
   again, whatever was queued for it before.
   */
  lemma {:induction false} UnregisteredGetsNothing<B, C>(
    less: Order, events: seq<Event<B, C>>, later: seq<Event<B, C>>, b: B, t: TypeId)
    requires Play(less, events).Some? && Play(less, events + later).Some?
    requires !Handles(Play(less, events).value.world.registry, b, t)
    requires forall k :: 0 <= k < |later| ==> Quiet(later[k], b, t)
    ensures var h, end := Play(less, events).value, Play(less, events + later).value;
            |h.ran| <= |end.ran| && !Handles(end.world.registry, b, t) && Silent(end.ran, |h.ran|, b, t)
    decreases |later|
  {
    hide Play, Extended, Handles, Silent, Quiet, Allowed;
    if later == [] {
      assert events + later == events;
      NothingSince(Play(less, events).value.ran, b, t);
    } else {
      var last := |later| - 1;
      var before := events + later[..last];
      assert events + later == before + [later[last]];
      PlayLast(less, before, later[last]);
      UnregisteredGetsNothing(less, events, later[..last], b, t);
      QuietStep(less, Play(less, before).value, later[last], |Play(less, events).value.ran|, b, t);
    }
  }

  lemma NothingSince<B, C>(ran: seq<Outcome<B, C>>, b: B, t: TypeId)
    ensures Silent(ran, |ran|, b, t)
  {
  }

  lemma PlayLast<B, C>(less: Order, events: seq<Event<B, C>>, e: Event<B, C>)
    requires Play(less, events + [e]).Some?
    ensures Play(less, events).Some? && Allowed(Play(less, events).value.world, e)
    ensures Play(less, events + [e]) == Some(Extended(less, Play(less, events).value, e))
  {
    hide Extended, Allowed;
    assert (events + [e])[..|events|] == events;
  }

  /** In particular a delivery still queued when its broker unregisters comes to nothing. */
  lemma UnregisterWithdraws<B, C>(
    less: Order, events: seq<Event<B, C>>, later: seq<Event<B, C>>, b: B, t: TypeId)
    requires Play(less, events).Some? && Play(less, events + [Change(Unregister(b, t))]).Some?
    requires Play(less, events + [Change(Unregister(b, t))] + later).Some?
    requires forall k :: 0 <= k < |later| ==> Quiet(later[k], b, t)
    ensures var end := Play(less, events + [Change(Unregister(b, t))] + later).value;
            Silent(end.ran, |Play(less, events).value.ran|, b, t)
  {
    var after := events + [Change(Unregister(b, t))];
    assert after[..|events|] == events;
    UnregisteredGetsNothing(less, after, later, b, t);
  }
}
