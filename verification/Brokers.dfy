/**
 The brokers, their manager and the contexts that run their jobs, as objects
 (libhdk/brocker/brocker.cpp, brocker.hpp, brocker_call.hpp and brocker_manager.cpp). Every
 method does to the objects what its event does to the `World` of `Delivery`.

 Callbacks are user code: a call is the handler with the value it is handed.
 */
module Brokers {
  import opened Bytes
  import opened Marshal
  import opened MarshalStream
  import opened BrokerRegistry
  import opened Delivery

  /** An io_context and the thread that runs it, which remembers who sent the message being handled. */
  class Context {
    var queue: seq<Job<Broker, Context>>
    var sender: Sender

    constructor (manager: Manager)
      requires manager.Mirrors()
      modifies manager
      ensures fresh(this)
      ensures this !in old(manager.world).queues
      ensures manager.Mirrors() && manager.world == After(old(manager.world), Start(this))
    {
      hide Sound, Inv, Perform, Posted, Batch, Idle, Removed, Cloned, Registered, Unregistered, EncodeFields;
      queue := [];
      sender := Sender([], [], []);
      new;
      manager.world := After(manager.world, Start(this));
    }

    method Dispatch(job: Job<Broker, Context>)
      modifies this`queue
      ensures queue == old(queue) + [job]
    {
      queue := queue + [job];
    }

    /** Runs the job at the head of the queue. */
    method RunOne(manager: Manager) returns (outcome: Outcome<Broker, Context>)
      requires manager.Mirrors() && Allowed(manager.world, Delivery.RunOne(this))
      modifies this, manager`world
      ensures manager.Mirrors() && manager.world == After(old(manager.world), Delivery.RunOne(this))
      ensures Runs(manager.less, old(manager.world), Delivery.RunOne(this)) == [outcome]
      ensures sender == outcome.job.sender
    {
      hide Sound, Inv, Posted, Batch, Idle, Perform;
      HeadIsLive(manager.world, this);
      var job := queue[0];
      queue := queue[1..];
      sender := job.sender;
      outcome := job.broker.Call(manager.less, job, manager.world.registry.calls);
      manager.world := After(manager.world, Delivery.RunOne(this));
    }
  }

  class Broker {
    const context: Context
    var calls: map<TypeId, Callback>
    var filters: seq<bytes>

    constructor (manager: Manager, context: Context)
      requires manager.Mirrors() && context in manager.world.queues
      modifies manager
      ensures fresh(this) && this.context == context && calls == map[] && filters == []
      ensures manager.Mirrors() && manager.world == After(old(manager.world), Join(this, context))
    {
      hide Sound, Inv, Perform, Posted, Batch, Idle, Removed, Cloned, Registered, Unregistered, EncodeFields;
      this.context := context;
      calls, filters := map[], [];
      new;
      manager.world := After(manager.world, Join(this, context));
    }

    /** The copy constructor. */
    constructor Copy(manager: Manager, source: Broker)
      requires manager.Mirrors() && source in manager.world.registry.live
      modifies manager
      ensures fresh(this) && context == source.context && calls == source.calls && filters == source.filters
      ensures manager.Mirrors() && manager.world == After(old(manager.world), Change(BrokerRegistry.Copy(source, this)))
    {
      hide Sound, Inv, Perform, Posted, Batch, Idle, Removed, Cloned, Registered, Unregistered, EncodeFields;
      context := source.context;
      calls := source.calls;
      filters := source.filters;
      new;
      manager.Clone(source, this);
      manager.world := After(manager.world, Change(BrokerRegistry.Copy(source, this)));
    }

    /** The destructor. */
    method Destroy(manager: Manager)
      requires manager.Mirrors() && Allowed(manager.world, Change(BrokerRegistry.Destroy(this)))
      modifies manager
      ensures manager.Mirrors() && manager.world == After(old(manager.world), Change(BrokerRegistry.Destroy(this)))
    {
      hide Sound, Inv, Perform, Posted, Batch, Idle, Removed, Cloned, Registered, Unregistered, EncodeFields;
      ListsNotEmpty(manager.world);
      manager.Remove(this);
      manager.world := After(manager.world, Change(BrokerRegistry.Destroy(this)));
    }

    /** Lets a single channel through. */
    method Filter(manager: Manager, only: bytes)
      requires manager.Mirrors() && this in manager.world.registry.live
      modifies this`filters, manager`world
      ensures filters == [only]
      ensures manager.Mirrors() && manager.world == After(old(manager.world), SetFilter(this, [only]))
    {
      hide Sound, Inv, Perform, Posted, Batch, Idle, Removed, Cloned, Registered, Unregistered, EncodeFields;
      filters := [];
      filters := filters + [only];
      manager.world := After(manager.world, SetFilter(this, [only]));
    }

    method SetFilters(manager: Manager, filters: seq<bytes>)
      requires manager.Mirrors() && this in manager.world.registry.live
      modifies this`filters, manager`world
      ensures this.filters == filters
      ensures manager.Mirrors() && manager.world == After(old(manager.world), SetFilter(this, filters))
    {
      hide Sound, Inv, Perform, Posted, Batch, Idle, Removed, Cloned, Registered, Unregistered, EncodeFields;
      this.filters := filters;
      manager.world := After(manager.world, SetFilter(this, filters));
    }

    method CheckFilter(channel: bytes) returns (ok: bool)
      ensures ok <==> filters == [] || channel in filters
    {
      if filters == [] {
        return true;
      }
      for i := 0 to |filters|
        invariant channel !in filters[..i]
      {
        if filters[i] == channel {
          return true;
        }
      }
      assert filters[..|filters|] == filters;
      return false;
    }

    /** Queues the message for this broker, unless its filter stops the channel. */
    method Offer(t: TypeId, data: bytes, sender: Sender)
      modifies context
      ensures context.queue == old(context.queue)
                               + if filters == [] || sender.name in filters
                                 then [Job(this, context, t, data, sender)] else []
    {
      var ok := CheckFilter(sender.name);
      if ok {
        context.Dispatch(Job(this, context, t, data, sender));
      }
    }

    /** A handler already registered for the type stays. */
    method Reg(manager: Manager, t: TypeId, f: Callback)
      requires manager.Mirrors() && this in manager.world.registry.live
      modifies this`calls, manager`index, manager`world
      ensures calls == if t in old(calls) then old(calls) else old(calls)[t := f]
      ensures manager.Mirrors() && manager.world == After(old(manager.world), Change(Register(this, t, f)))
    {
      hide Sound, Inv, Perform, Posted, Batch, Idle, Removed, Cloned, Registered, Unregistered, EncodeFields;
      if t !in calls {
        calls := calls[t := f];
      }
      manager.Reg(this, t);
      manager.world := After(manager.world, Change(Register(this, t, f)));
    }

    method Unreg(manager: Manager, t: TypeId)
      requires manager.Mirrors() && this in manager.world.registry.live
      modifies this`calls, manager`index, manager`world
      ensures calls == old(calls) - {t}
      ensures manager.Mirrors() && manager.world == After(old(manager.world), Change(Unregister(this, t)))
    {
      hide Sound, Inv, Perform, Posted, Batch, Idle, Removed, Cloned, Registered, Unregistered, EncodeFields;
      calls := calls - {t};
      manager.Unreg(this, t);
      manager.world := After(manager.world, Change(Unregister(this, t)));
    }

    /** __call, and brocker_call::call for the handler it finds. */
    method Call(less: Order, job: Job<Broker, Context>, ghost all: map<Broker, map<TypeId, Callback>>)
      returns (outcome: Outcome<Broker, Context>)
      requires job.broker == this && this in all && all[this] == calls
      ensures outcome == Perform(less, all, job)
    {
      if job.typeId in calls {
        var f := calls[job.typeId];
        var input := new Stream();
        input.Write(job.data);
        assert input.buffer == job.data;
        var value := DemarshalStruct(less, input, f.types, Defaults(f.types), f.order);
        return Called(job, f, value);
      }
      return Ignored(job);
    }
  }

  lemma {:induction false} WithoutAt<B>(list: seq<B>, b: B, k: nat)
    requires k < |list| && list[k] == b && b !in list[..k]
    ensures Without(list, b) == list[..k] + list[k + 1..]
  {
    if k > 0 {
      assert list[0] == list[..k][0];
      assert list[1..][..k - 1] == list[..k][1..];
      WithoutAt(list[1..], b, k - 1);
    }
  }

  lemma {:induction false} WithoutAbsent<B>(list: seq<B>, b: B)
    requires b !in list
    ensures Without(list, b) == list
  {
    if list != [] {
      WithoutAbsent(list[1..], b);
    }
  }

  ghost predicate Homed<B, C>(w: World<B, C>, list: seq<B>) {
    forall b :: b in list ==> b in w.filters && b in w.home
  }

  ghost function BatchOf<B, C>(w: World<B, C>, list: seq<B>, t: TypeId, data: bytes, sender: Sender): seq<Job<B, C>>
    requires Homed(w, list)
  {
    Batch(list, w.filters, w.home, t, data, sender)
  }

  lemma PostEffect<B, C>(w: World<B, C>, t: TypeId, data: bytes, sender: Sender)
    ensures var list, next := ListFor(w.registry.index, t), After(w, Post(t, data, sender));
            && Homed(w, list)
            && next.registry == w.registry && next.filters == w.filters && next.home == w.home
            && next.queues.Keys == w.queues.Keys
            && forall c :: c in w.queues ==>
                 next.queues[c] == w.queues[c] + JobsAt(BatchOf(w, list, t, data, sender), c)
  {
    ListedAreHomed(w, t);
  }

  lemma NoJobs<B, C>(w: World<B, C>, t: TypeId, data: bytes, sender: Sender)
    ensures BatchOf(w, [], t, data, sender) == []
    ensures forall c :: c in w.queues ==> w.queues[c] + JobsAt(BatchOf(w, [], t, data, sender), c) == w.queues[c]
  {
  }

  /** What visiting one more broker adds to each context. */
  lemma NextJob<B, C>(w: World<B, C>, list: seq<B>, i: nat, t: TypeId, data: bytes, sender: Sender)
    requires i < |list| && Homed(w, list)
    ensures var b := list[i];
            forall c :: c in w.queues ==>
              w.queues[c] + JobsAt(BatchOf(w, list[..i + 1], t, data, sender), c)
              == w.queues[c] + JobsAt(BatchOf(w, list[..i], t, data, sender), c)
                 + if Passes(w.filters[b], sender.name) && w.home[b] == c then [Job(b, c, t, data, sender)] else []
  {
    var b, rest := list[i], BatchOf(w, list[..i], t, data, sender);
    assert list[..i + 1][..i] == list[..i];
    var added := if Passes(w.filters[b], sender.name) then [Job(b, w.home[b], t, data, sender)] else [];
    forall c | c in w.queues
      ensures JobsAt(rest + added, c) == JobsAt(rest, c) + if added != [] && w.home[b] == c then added else []
    {
      JobsAtAppend(rest, added, c);
      JobsAtOne(Job(b, w.home[b], t, data, sender), c);
    }
  }

  /** The manager. */
  class Manager {
    var index: Index<Broker>
    const less: Order
    ghost var world: World<Broker, Context>

    /** The objects hold what the world says they hold. */
    ghost predicate Mirrors()
      reads this`index, this`world, world.registry.live, world.queues.Keys
    {
      && index == world.registry.index
      && (forall b :: b in world.registry.live ==>
            && b in world.registry.calls && b.calls == world.registry.calls[b]
            && b in world.filters && b.filters == world.filters[b]
            && b in world.home && b.context == world.home[b])
      && (forall c :: c in world.queues ==> c.queue == world.queues[c])
    }

    constructor (less: Order)
      ensures this.less == less && Mirrors() && world == Blank()
    {
      index := map[];
      this.less := less;
      world := Blank();
    }

    /** std::find: the broker's place in a list, or the length of the list. */
    method Find(list: seq<Broker>, b: Broker) returns (k: nat)
      ensures k <= |list| && b !in list[..k]
      ensures k < |list| ==> list[k] == b
    {
      k := 0;
      while k < |list| && list[k] != b
        invariant k <= |list| && b !in list[..k]
      {
        k := k + 1;
      }
    }

    method Reg(b: Broker, t: TypeId)
      modifies this`index
      ensures index == Registered(old(index), b, t)
    {
      var list := if t in index then index[t] else [];
      var k := Find(list, b);
      if k < |list| {
        return;
      }
      assert list[..k] == list;
      index := index[t := list + [b]];
    }

    method Unreg(b: Broker, t: TypeId)
      modifies this`index
      ensures index == Unregistered(old(index), b, t)
    {
      if t in index {
        var list := index[t];
        var k := Find(list, b);
        if k < |list| {
          WithoutAt(list, b, k);
          list := list[..k] + list[k + 1..];
          index := if list == [] then index - {t} else index[t := list];
        } else {
          assert list[..k] == list;
        }
      }
    }

    /** Lists are visited in an order the container chooses. */
    method Clone(source: Broker, target: Broker)
      modifies this`index
      ensures index == Cloned(old(index), source, target)
    {
      var todo := index.Keys;
      while todo != {}
        invariant todo <= old(index).Keys && index.Keys == old(index).Keys
        invariant forall t :: t in todo ==> index[t] == old(index)[t]
        invariant forall t :: t in index && t !in todo ==> index[t] == Cloned(old(index), source, target)[t]
      {
        var t :| t in todo;
        var list := index[t];
        var k := Find(list, source);
        assert k < |list| <==> source in list by {
          assert list[..|list|] == list;
        }
        if k < |list| {
          index := index[t := list + [target]];
        }
        todo := todo - {t};
      }
    }

    /** Removal by its intent: see BrokerRegistry.RemoveAsWritten. */
    method Remove(b: Broker)
      requires forall t :: t in index ==> index[t] != []
      modifies this`index
      ensures index == Removed(old(index), b)
    {
      var todo := index.Keys;
      while todo != {}
        invariant todo <= index.Keys <= old(index).Keys
        invariant forall t :: t in todo ==> index[t] == old(index)[t]
        invariant forall t :: t in old(index) && t !in todo ==>
          (t in index <==> Without(old(index)[t], b) != []) && (t in index ==> index[t] == Without(old(index)[t], b))
      {
        var t :| t in todo;
        var list := index[t];
        var k := Find(list, b);
        if k < |list| {
          WithoutAt(list, b, k);
          list := list[..k] + list[k + 1..];
          index := if list == [] then index - {t} else index[t := list];
        } else {
          assert list[..k] == list;
          WithoutAbsent(list, b);
        }
        todo := todo - {t};
      }
    }

    /** Every context has been given its jobs for the brokers of the list, and no others. */
    ghost predicate Dispatched(w: World<Broker, Context>, list: seq<Broker>, t: TypeId, data: bytes, sender: Sender)
      requires Homed(w, list)
      reads w.queues.Keys
    {
      forall c :: c in w.queues ==> c.queue == w.queues[c] + JobsAt(BatchOf(w, list, t, data, sender), c)
    }

    method OfferAll(list: seq<Broker>, t: TypeId, data: bytes, sender: Sender)
      requires Mirrors()
      requires forall b :: b in list ==> b in world.registry.live && b.context in world.queues
      modifies world.queues.Keys
      ensures Homed(world, list) && Dispatched(world, list, t, data, sender)
    {
      hide Sound, Inv, BatchOf, Batch, JobsAt, Perform;
      NoJobs(world, t, data, sender);
      assert forall b :: b in list ==> b.context == world.home[b] && b.filters == world.filters[b];
      for i := 0 to |list|
        invariant Homed(world, list[..i]) && Dispatched(world, list[..i], t, data, sender)
      {
        assert list[i] in list;
        NextJob(world, list, i, t, data, sender);
        list[i].Offer(t, data, sender);
      }
      assert list[..|list|] == list;
    }

    method Post(t: TypeId, data: bytes, channel: bytes, id: bytes, address: bytes)
      requires Mirrors()
      modifies this`world, world.queues.Keys
      ensures Mirrors() && world == After(old(world), Delivery.Post(t, data, Sender(id, channel, address)))
    {
      var sender := Sender(id, channel, address);
      hide Sound, Inv, BatchOf, Batch, JobsAt, Perform, After, Effect, Posted;
      NoJobs(world, t, data, sender);
      PostEffect(world, t, data, sender);
      if t in index {
        ListedAreHomed(world, t);
        OfferAll(index[t], t, data, sender);
      }
      world := After(world, Delivery.Post(t, data, sender));
    }
  }

  /** A channel inside the process. */
  class LocalChannel {
    const name: bytes

    constructor (name: bytes)
      ensures this.name == name
    {
      this.name := name;
    }

    /** channel::send on a local channel: the struct becomes bytes, the bytes a post. */
    method Send(manager: Manager, typeId: TypeId, fields: seq<Value>, order: seq<nat>)
      requires manager.Mirrors()
      requires forall i :: 0 <= i < |order| ==> order[i] < |fields|
      modifies manager`world, manager.world.queues.Keys
      ensures manager.Mirrors() && manager.world == After(old(manager.world), LocalPost(typeId, fields, order, name))
    {
      hide Sound, Inv, Perform, Posted, Batch, Idle, Removed, Cloned, Registered, Unregistered, EncodeFields;
      var output := new Stream();
      MarshalStruct(output, fields, order);
      assert output.buffer == EncodeFields(fields, order);
      manager.Post(typeId, output.buffer, name, LOCAL, LOCAL);
    }
  }
}
