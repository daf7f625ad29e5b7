/**
 Channel handles and the objects they share, updated in place (libhdk/channel/channel.cpp).
 Every method does to the objects what its operation does in `ChannelRegistry`.
 */
module Channels {
  import opened Bytes
  import opened ChannelRegistry

  /** A channel_impl with the count its shared pointers keep. */
  class Impl {
    const name: bytes
    var uses: nat

    constructor (name: bytes)
      ensures this.name == name && uses == 0
    {
      this.name := name;
      uses := 0;
    }
  }

  /** The global map g_channels of weak pointers. */
  class Globals {
    var index: map<bytes, Impl>
    ghost var state: Registry<Channel, Impl>

    constructor ()
      ensures Mirrors() && state == NoChannels()
    {
      index := map[];
      state := NoChannels();
    }

    /** The objects hold what the state says they hold. */
    ghost predicate Mirror(s: State<Channel, Impl>)
      reads this`index, s.handles.Keys, s.objects.Keys
    {
      && index == s.index
      && (forall h :: h in s.handles ==> h.impl == s.handles[h])
      && (forall o :: o in s.objects ==> o.uses == s.objects[o].uses && o.name == s.objects[o].name)
    }

    ghost predicate Mirrors()
      reads this`state, this`index, state.handles.Keys, state.objects.Keys
    {
      Mirror(state)
    }
  }

  ghost function Pointees(a: Option<Impl>, b: Option<Impl>): set<Impl> {
    (if a.Some? then {a.value} else {}) + (if b.Some? then {b.value} else {})
  }

  class Channel {
    var impl: Option<Impl>

    /** Assignment of the shared pointer inside: the new object gains an owner, the old one loses one. */
    method Point(g: Globals, ghost s: State<Channel, Impl>, r: Option<Impl>)
      requires g.Mirror(s) && Counted(s) && Holding(s, this) == impl && (r.Some? ==> r.value in s.objects)
      modifies this, Pointees(impl, r)
      ensures impl == r && g.Mirror(ChannelRegistry.Point(s, this, r))
    {
      hide Counted, ChannelRegistry.Point;
      PointUses(s, this, r);
      if r.Some? {
        r.value.uses := r.value.uses + 1;
      }
      if impl.Some? {
        impl.value.uses := impl.value.uses - 1;
      }
      impl := r;
    }

    constructor (g: Globals)
      requires g.Mirrors()
      modifies g`state
      ensures fresh(this) && impl == None
      ensures g.Mirrors() && this !in old(g.state).handles && g.state == After(old(g.state), Default(this))
    {
      impl := None;
      new;
      g.state := After(g.state, Default(this));
    }

    /** A handle outside the registry, before anything is known of it. */
    constructor Blank()
      ensures impl == None
    {
      impl := None;
    }

    constructor Copy(g: Globals, source: Channel)
      requires g.Mirrors() && source in g.state.handles
      modifies g`state, Pointees(source.impl, None)
      ensures fresh(this) && impl == source.impl == old(source.impl)
      ensures g.Mirrors() && this !in old(g.state).handles && g.state == After(old(g.state), CopyNew(this, source))
    {
      hide Inv, ChannelRegistry.Point;
      impl := None;
      new;
      InvCounted(g.state);
      Point(g, g.state, source.impl);
      g.state := After(g.state, CopyNew(this, source));
    }

    constructor Move(g: Globals, source: Channel)
      requires g.Mirrors() && source in g.state.handles
      modifies g`state, source, Pointees(source.impl, None)
      ensures fresh(this) && impl == old(source.impl) && source.impl == None
      ensures g.Mirrors() && this !in old(g.state).handles && g.state == After(old(g.state), MoveNew(this, source))
    {
      hide Inv, ChannelRegistry.Point, Counted, Repointed, Step;
      impl := None;
      new;
      MovesAreTwo(g.state, this, source);
      ghost var copied := Copied(g.state, this, source);
      Point(g, g.state, source.impl);
      source.Point(g, copied, None);
      g.state := After(g.state, MoveNew(this, source));
    }

    method Assign(g: Globals, source: Channel)
      requires g.Mirrors() && this in g.state.handles && source in g.state.handles
      modifies g`state, this, Pointees(impl, source.impl)
      ensures impl == source.impl == old(source.impl)
      ensures g.Mirrors() && g.state == After(old(g.state), ChannelRegistry.Assign(this, source))
    {
      hide Inv, ChannelRegistry.Point;
      InvCounted(g.state);
      Point(g, g.state, source.impl);
      g.state := After(g.state, ChannelRegistry.Assign(this, source));
    }

    /** Moving a handle onto itself empties it. */
    method MoveAssign(g: Globals, source: Channel)
      requires g.Mirrors() && this in g.state.handles && source in g.state.handles
      modifies g`state, this, source, Pointees(impl, source.impl)
      ensures source.impl == None && (this != source ==> impl == old(source.impl))
      ensures g.Mirrors() && g.state == After(old(g.state), ChannelRegistry.MoveAssign(this, source))
    {
      hide Inv, ChannelRegistry.Point, Counted, Repointed, Step;
      MovesAreTwo(g.state, this, source);
      ghost var copied := Copied(g.state, this, source);
      Point(g, g.state, source.impl);
      source.Point(g, copied, None);
      g.state := After(g.state, ChannelRegistry.MoveAssign(this, source));
    }

    /** The body of the destructor: the last handle takes the name out of the index. */
    method EraseName(g: Globals)
      requires g.Mirrors() && this in g.state.handles
      modifies g`index
      ensures g.index == old(g.index) - LastName(g.state, this)
    {
      InvCounted(g.state);
      if impl.Some? && impl.value.uses == 1 {
        g.index := g.index - {impl.value.name};
      }
    }

    /** The destructor, which then drops the shared pointer. */
    method Destroy(g: Globals)
      requires g.Mirrors() && this in g.state.handles
      modifies g`state, g`index, this, Pointees(impl, None)
      ensures impl == None
      ensures g.index == old(g.index) - old(LastName(g.state, this))
      ensures g.Mirrors() && g.state == After(old(g.state), ChannelRegistry.Destroy(this))
    {
      hide Inv, ChannelRegistry.Point, Counted, Step, LastName;
      DestroyIs(g.state, this);
      EraseName(g);
      Point(g, g.state.(index := g.index), None);
      g.state := After(g.state, ChannelRegistry.Destroy(this));
    }

    predicate IsValid()
      reads this
    {
      impl.Some?
    }
  }

  lemma DestroyIs<H, O>(s: State<H, O>, h: H)
    requires Inv(s) && h in s.handles
    ensures var erased := s.(index := s.index - LastName(s, h));
            && Counted(erased)
            && var dropped := ChannelRegistry.Point(erased, h, None);
               && dropped.handles == s.handles[h := None]
               && Step(s, ChannelRegistry.Destroy(h)) == dropped.(handles := dropped.handles - {h})
  {
  }

  /** The first half of a move, after which both handles own the object. */
  ghost function Copied<H, O>(s: State<H, O>, h: H, source: H): State<H, O>
    requires source in s.handles
  {
    ChannelRegistry.Point(s, h, s.handles[source])
  }

  /** Moving is pointing the one handle and then clearing the other. */
  lemma MovesAreTwo<H, O>(s: State<H, O>, h: H, source: H)
    requires Inv(s) && source in s.handles
    ensures Counted(s) && (s.handles[source].Some? ==> s.handles[source].value in s.objects)
    ensures var copied := Copied(s, h, source);
            var moved := ChannelRegistry.Point(copied, source, None);
            && copied == ChannelRegistry.Point(s, h, s.handles[source])
            && Counted(copied) && Holding(copied, source) == s.handles[source]
            && (h !in s.handles ==> Step(s, MoveNew(h, source)) == moved)
            && (h in s.handles ==> Step(s, ChannelRegistry.MoveAssign(h, source)) == moved)
  {
    PointCounted(s, h, s.handles[source]);
  }

  lemma MakeIs<H, O>(s: State<H, O>, h: H, o: O, name: bytes)
    requires Inv(s) && Legal(s, Make(h, o, name)) && name !in s.index
    ensures var made := Made(s, o, name);
            && Counted(made) && Holding(made, h) == None && made.index == s.index[name := o]
            && made.handles == s.handles && made.objects == s.objects[o := Object(name, 0)]
            && Step(s, Make(h, o, name)) == ChannelRegistry.Point(made, h, Some(o))
  {
    MadeCounted(s, o, name);
  }

  lemma InvCounted<H, O>(s: State<H, O>)
    requires Inv(s)
    ensures Counted(s)
    ensures forall h :: h in s.handles && s.handles[h].Some? ==> s.handles[h].value in s.objects
    ensures forall n :: n in s.index ==> s.index[n] in s.objects
  {
  }

  /** make_client_zmq, make_server_zmq and make_local alike: a taken name is refused. */
  method MakeChannel(g: Globals, name: bytes) returns (c: Channel)
    requires g.Mirrors()
    modifies g
    ensures fresh(c) && g.Mirrors() && c !in old(g.state).handles
    ensures c.IsValid() <==> name !in old(g.index)
    ensures c.IsValid() ==>
              fresh(c.impl.value) && c.impl.value.name == name && g.index == old(g.index)[name := c.impl.value]
    ensures c.IsValid() ==> g.state == After(old(g.state), Make(c, c.impl.value, name))
    ensures !c.IsValid() ==> g.state == After(old(g.state), Default(c))
  {
    hide Inv, ChannelRegistry.Point, Counted, Step, Made;
    if name in g.index {
      c := new Channel(g);
      return;
    }
    c := new Channel.Blank();
    var impl := new Impl(name);
    g.index := g.index[name := impl];
    MakeIs(g.state, c, impl, name);
    c.Point(g, Made(g.state, impl, name), Some(impl));
    g.state := After(g.state, Make(c, impl, name));
  }

  method GetChannel(g: Globals, name: bytes) returns (c: Channel)
    requires g.Mirrors()
    modifies g`state, if name in g.index then {g.index[name]} else {}
    ensures fresh(c) && g.Mirrors() && c !in old(g.state).handles
    ensures c.impl == if name in g.index && old(g.index[name].uses) > 0 then Some(g.index[name]) else None
    ensures g.state == After(old(g.state), Get(c, name))
  {
    hide Inv, ChannelRegistry.Point, Counted;
    c := new Channel.Blank();
    InvCounted(g.state);
    var found := None;
    if name in g.index {
      found := if g.index[name].uses > 0 then Some(g.index[name]) else None;
    }
    c.Point(g, g.state, found);
    g.state := After(g.state, Get(c, name));
  }
}
