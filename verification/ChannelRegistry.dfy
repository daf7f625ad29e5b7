/**
 The handles of libhdk/channel/channel.cpp: shared owners of channel objects, and a global
 index from names to the objects that does not own them. Only a destructor removes an entry
 of the index, so an assignment that drops the last handle leaves a stale one behind.

 Handles and objects are type parameters, which `Channels` instantiates.
 */
module ChannelRegistry {
  import opened Bytes

  /** A channel object with the count its owners share. Zero: the object is gone. */
  datatype Object = Object(name: bytes, uses: nat)

  datatype State<H, O> = State(handles: map<H, Option<O>>, objects: map<O, Object>, index: map<bytes, O>)

  datatype Operation<H, O> =
    | Default(handle: H)
    | Make(handle: H, newcomer: O, name: bytes)
    | Get(handle: H, name: bytes)
    | CopyNew(handle: H, source: H)
    | MoveNew(handle: H, source: H)
    | Assign(target: H, source: H)
    | MoveAssign(target: H, source: H)
    | Destroy(handle: H)

  // ---------- Owners ----------

  function Retain<O>(objects: map<O, Object>, r: Option<O>): map<O, Object> {
    if r.Some? && r.value in objects
    then objects[r.value := objects[r.value].(uses := objects[r.value].uses + 1)]
    else objects
  }

  function Release<O>(objects: map<O, Object>, r: Option<O>): map<O, Object> {
    if r.Some? && r.value in objects && objects[r.value].uses > 0
    then objects[r.value := objects[r.value].(uses := objects[r.value].uses - 1)]
    else objects
  }

  function Holding<H, O>(s: State<H, O>, h: H): Option<O> {
    if h in s.handles then s.handles[h] else None
  }

  /** Makes a handle own another object, or none. */
  function Point<H, O>(s: State<H, O>, h: H, r: Option<O>): State<H, O> {
    s.(objects := Release(Retain(s.objects, r), Holding(s, h)), handles := s.handles[h := r])
  }

  predicate Live<H, O>(s: State<H, O>, o: O) {
    o in s.objects && s.objects[o].uses > 0
  }

  /** weak_ptr::lock on an entry of the index. */
  function Lock<H, O>(s: State<H, O>, name: bytes): Option<O> {
    if name in s.index && Live(s, s.index[name]) then Some(s.index[name]) else None
  }

  // ---------- Steps ----------

  /** A new object with no owner yet, under its name in the index. */
  function Made<H, O>(s: State<H, O>, o: O, name: bytes): State<H, O> {
    s.(objects := s.objects[o := Object(name, 0)], index := s.index[name := o])
  }

  predicate Legal<H, O>(s: State<H, O>, op: Operation<H, O>) {
    match op
    case Default(h) => h !in s.handles
    case Make(h, o, _) => h !in s.handles && o !in s.objects
    case Get(h, _) => h !in s.handles
    case CopyNew(h, source) => h !in s.handles && source in s.handles
    case MoveNew(h, source) => h !in s.handles && source in s.handles
    case Assign(target, source) => target in s.handles && source in s.handles
    case MoveAssign(target, source) => target in s.handles && source in s.handles
    case Destroy(h) => h in s.handles
  }

  /** Whether this handle is the only one left on its object. */
  predicate LastHandle<H, O>(s: State<H, O>, h: H) {
    Holding(s, h).Some? && Holding(s, h).value in s.objects && s.objects[Holding(s, h).value].uses == 1
  }

  /** The name whose last handle this is. */
  function LastName<H, O>(s: State<H, O>, h: H): set<bytes> {
    if LastHandle(s, h) then {s.objects[Holding(s, h).value].name} else {}
  }

  function Step<H, O>(s: State<H, O>, op: Operation<H, O>): State<H, O>
    requires Legal(s, op)
  {
    match op
    case Default(h) => Point(s, h, None)
    case Make(h, o, name) =>
      if name in s.index then Point(s, h, None)
      else Point(Made(s, o, name), h, Some(o))
    case Get(h, name) => Point(s, h, Lock(s, name))
    case CopyNew(h, source) => Point(s, h, s.handles[source])
    case MoveNew(h, source) => Point(Point(s, h, s.handles[source]), source, None)
    case Assign(target, source) => Point(s, target, s.handles[source])
    case MoveAssign(target, source) => Point(Point(s, target, s.handles[source]), source, None)
    case Destroy(h) =>
      var dropped := Point(s.(index := s.index - LastName(s, h)), h, None);
      dropped.(handles := dropped.handles - {h})
  }

  /** The name an operation strands: an assignment over the last handle of its object. */
  function Strands<H, O>(s: State<H, O>, op: Operation<H, O>): set<bytes>
    requires Legal(s, op)
  {
    match op
    case Assign(target, source) => if target != source then LastName(s, target) else {}
    case MoveAssign(target, _) => LastName(s, target)
    case _ => {}
  }

  // ---------- The invariant ----------

  ghost function Holders<H, O>(handles: map<H, Option<O>>, o: O): set<H> {
    set h | h in handles && handles[h] == Some(o)
  }

  /** The shared count of an object is the number of handles on it. */
  ghost predicate Counted<H, O>(s: State<H, O>) {
    && (forall h :: h in s.handles && s.handles[h].Some? ==> s.handles[h].value in s.objects)
    && (forall o :: o in s.objects ==> s.objects[o].uses == |Holders(s.handles, o)|)
  }

  /** Every live object is the one the index has for its name. */
  ghost predicate Indexed<H, O>(s: State<H, O>) {
    && (forall o :: o in s.objects && Live(s, o) ==> s.objects[o].name in s.index && s.index[s.objects[o].name] == o)
    && (forall n :: n in s.index ==> s.index[n] in s.objects && s.objects[s.index[n]].name == n)
  }

  ghost predicate Inv<H, O>(s: State<H, O>) {
    Counted(s) && Indexed(s)
  }

  /** Some live object has the name. */
  ghost predicate LiveName<H, O>(s: State<H, O>, name: bytes) {
    exists o :: o in s.objects && s.objects[o].uses > 0 && s.objects[o].name == name
  }

  lemma HoldersPoint<H, O>(handles: map<H, Option<O>>, h: H, r: Option<O>, o: O)
    ensures var before := (if h in handles && handles[h] == Some(o) then 1 else 0);
            var after := (if r == Some(o) then 1 else 0);
            |Holders(handles[h := r], o)| == |Holders(handles, o)| - before + after
    ensures h in handles && handles[h] == Some(o) ==> |Holders(handles, o)| > 0
  {
    var before, after := Holders(handles, o), Holders(handles[h := r], o);
    assert before - {h} == after - {h};
    CountWithout(before, h);
    CountWithout(after, h);
  }

  lemma CountWithout<H>(s: set<H>, h: H)
    ensures |s| == |s - {h}| + if h in s then 1 else 0
  {
    if h in s {
      assert s == (s - {h}) + {h};
    } else {
      assert s - {h} == s;
    }
  }

  /** The count of one object after a handle is pointed elsewhere. */
  function UsesAfter<H, O>(s: State<H, O>, h: H, r: Option<O>, o: O): int
    requires o in s.objects
  {
    s.objects[o].uses + (if r == Some(o) then 1 else 0) - (if Holding(s, h) == Some(o) then 1 else 0)
  }

  lemma PointUses<H, O>(s: State<H, O>, h: H, r: Option<O>)
    requires Counted(s) && (r.Some? ==> r.value in s.objects)
    ensures Holding(s, h).Some? ==> Holding(s, h).value in s.objects && s.objects[Holding(s, h).value].uses > 0
    ensures var next := Point(s, h, r);
            && next.handles == s.handles[h := r] && next.index == s.index && next.objects.Keys == s.objects.Keys
            && forall o :: o in s.objects ==>
                 next.objects[o].name == s.objects[o].name && next.objects[o].uses == UsesAfter(s, h, r, o)
  {
    if Holding(s, h).Some? {
      HeldIsLive(s, h);
    }
  }

  /** What pointing a handle elsewhere does to the objects. */
  ghost predicate Repointed<H, O>(s: State<H, O>, h: H, r: Option<O>, next: State<H, O>) {
    && next.index == s.index && next.objects.Keys == s.objects.Keys
    && (forall o :: o in s.objects ==>
          && next.objects[o].name == s.objects[o].name
          && (Live(next, o) <==> r == Some(o) || (Live(s, o) && !(Holding(s, h) == Some(o) && s.objects[o].uses == 1))))
  }

  lemma PointCounted<H, O>(s: State<H, O>, h: H, r: Option<O>)
    requires Counted(s) && (r.Some? ==> r.value in s.objects)
    ensures Counted(Point(s, h, r)) && Repointed(s, h, r, Point(s, h, r))
  {
    hide Holders;
    forall o | o in s.objects
      ensures Point(s, h, r).objects[o].uses == |Holders(Point(s, h, r).handles, o)|
    {
      HoldersPoint(s.handles, h, r, o);
    }
    if Holding(s, h).Some? {
      HoldersPoint(s.handles, h, r, Holding(s, h).value);
    }
  }

  lemma NameIsLive<H, O>(s: State<H, O>, name: bytes)
    requires Indexed(s)
    ensures LiveName(s, name) <==> Lock(s, name).Some?
  {
    if LiveName(s, name) {
      var o :| o in s.objects && s.objects[o].uses > 0 && s.objects[o].name == name;
      assert Live(s, o);
    }
  }

  // ---------- What the index holds ----------

  /** Every entry is for a live object or a stranded name, never both. */
  ghost predicate Accounted<H, O>(s: State<H, O>, stranded: set<bytes>) {
    forall n :: (n in s.index <==> LiveName(s, n) || n in stranded) && !(LiveName(s, n) && n in stranded)
  }

  lemma PointAccounted<H, O>(s: State<H, O>, h: H, r: Option<O>, stranded: set<bytes>)
    requires Inv(s) && Accounted(s, stranded) && (r.Some? ==> Live(s, r.value))
    ensures var next := Point(s, h, r);
            var lost := if r != Holding(s, h) then LastName(s, h) else {};
            Inv(next) && Accounted(next, stranded + lost)
  {
    hide Point, Counted;
    var next := Point(s, h, r);
    PointCounted(s, h, r);
    assert Indexed(next);
    forall n ensures LiveName(next, n) <==> Lock(next, n).Some? {
      NameIsLive(next, n);
    }
    forall n ensures LiveName(s, n) <==> Lock(s, n).Some? {
      NameIsLive(s, n);
    }
  }

  lemma HeldIsLive<H, O>(s: State<H, O>, h: H)
    requires Counted(s) && Holding(s, h).Some?
    ensures Live(s, Holding(s, h).value)
  {
    assert h in Holders(s.handles, Holding(s, h).value);
  }

  lemma SharedIsNotLast<H, O>(s: State<H, O>, h: H, other: H)
    requires Counted(s) && h != other && Holding(s, h) == Holding(s, other)
    ensures !LastHandle(s, h)
  {
    if Holding(s, h).Some? {
      var holders := Holders(s.handles, Holding(s, h).value);
      assert h in holders && other in holders;
      CountWithout(holders, h);
      assert other in holders - {h};
    }
  }

  lemma PointSame<H, O>(s: State<H, O>, h: H)
    requires Counted(s) && h in s.handles
    ensures Point(s, h, s.handles[h]) == s
  {
    assert s.handles[h := s.handles[h]] == s.handles;
    assert Release(Retain(s.objects, s.handles[h]), s.handles[h]) == s.objects;
  }

  /** Moving from a handle that shares its object with another only empties it. */
  lemma EmptiedAccounted<H, O>(s: State<H, O>, h: H, other: H, stranded: set<bytes>)
    requires Inv(s) && Accounted(s, stranded) && h != other && Holding(s, h) == Holding(s, other)
    ensures Inv(Point(s, h, None)) && Accounted(Point(s, h, None), stranded)
  {
    hide Point, Accounted, Indexed;
    SharedIsNotLast(s, h, other);
    PointAccounted(s, h, None, stranded);
    assert stranded + {} == stranded;
  }

  lemma MadeCounted<H, O>(s: State<H, O>, o: O, name: bytes)
    requires Counted(s) && o !in s.objects
    ensures Counted(Made(s, o, name))
  {
    assert Holders(s.handles, o) == {};
  }

  lemma MakeAccounted<H, O>(s: State<H, O>, h: H, o: O, name: bytes, stranded: set<bytes>)
    requires Inv(s) && Accounted(s, stranded) && Legal(s, Make(h, o, name)) && name !in s.index
    ensures Inv(Step(s, Make(h, o, name))) && Accounted(Step(s, Make(h, o, name)), stranded)
  {
    hide Point, Strands, Counted;
    var made := Made(s, o, name);
    MadeCounted(s, o, name);
    PointCounted(made, h, Some(o));
    var next := Point(made, h, Some(o));
    assert Indexed(next);
    forall n ensures LiveName(next, n) <==> LiveName(s, n) || n == name {
      NameIsLive(next, n);
      NameIsLive(s, n);
    }
  }

  /** An empty handle goes, and the index forgets names no live object has. */
  lemma Forget<H, O>(s: State<H, O>, h: H, lost: set<bytes>, stranded: set<bytes>)
    requires Inv(s) && Accounted(s, stranded + lost) && Holding(s, h) == None && stranded !! lost
    ensures var next := s.(handles := s.handles - {h}, index := s.index - lost);
            Inv(next) && Accounted(next, stranded)
  {
    var next := s.(handles := s.handles - {h}, index := s.index - lost);
    assert Counted(next) by {
      forall o ensures Holders(next.handles, o) == Holders(s.handles, o) {
      }
    }
    assert Indexed(next) by {
      forall o | Live(s, o) ensures s.objects[o].name !in lost {
        assert LiveName(s, s.objects[o].name);
      }
    }
    forall n ensures LiveName(next, n) <==> LiveName(s, n) {
      NameIsLive(next, n);
      NameIsLive(s, n);
    }
  }

  lemma DestroyAccounted<H, O>(s: State<H, O>, h: H, stranded: set<bytes>)
    requires Inv(s) && Accounted(s, stranded) && h in s.handles
    ensures Inv(Step(s, Destroy(h))) && Accounted(Step(s, Destroy(h)), stranded)
  {
    hide Counted, Indexed;
    var lost := if s.handles[h] != None then LastName(s, h) else {};
    if LastHandle(s, h) {
      assert LiveName(s, s.objects[s.handles[h].value].name);
    }
    PointAccounted(s, h, None, stranded);
    Forget(Point(s, h, None), h, lost, stranded);
  }

  lemma AssignAccounted<H, O>(s: State<H, O>, target: H, source: H, stranded: set<bytes>)
    requires Inv(s) && Accounted(s, stranded) && Legal(s, Assign(target, source))
    ensures Inv(Step(s, Assign(target, source)))
    ensures Accounted(Step(s, Assign(target, source)), stranded + Strands(s, Assign(target, source)))
  {
    if Holding(s, source).Some? {
      HeldIsLive(s, source);
    }
    PointAccounted(s, target, s.handles[source], stranded);
    if target != source && Holding(s, target) == Holding(s, source) {
      SharedIsNotLast(s, target, source);
    }
  }

  lemma StepAccounted<H, O>(s: State<H, O>, op: Operation<H, O>, stranded: set<bytes>)
    requires Inv(s) && Accounted(s, stranded) && Legal(s, op)
    ensures Inv(Step(s, op)) && Accounted(Step(s, op), stranded + Strands(s, op))
  {
    hide Inv, Accounted, Point, LastHandle;
    assert stranded + {} == stranded;
    match op
    case Default(h) => FreshAccounted(s, h, None, stranded);
    case Make(h, o, name) =>
      if name in s.index {
        FreshAccounted(s, h, None, stranded);
      } else {
        MakeAccounted(s, h, o, name, stranded);
      }
    case Get(h, name) => FreshAccounted(s, h, Lock(s, name), stranded);
    case CopyNew(h, source) => CopyAccounted(s, h, source, stranded);
    case MoveNew(h, source) =>
      CopyAccounted(s, h, source, stranded);
      EmptiedAccounted(Point(s, h, s.handles[source]), source, h, stranded);
    case Assign(target, source) => AssignAccounted(s, target, source, stranded);
    case MoveAssign(target, source) => MoveAccounted(s, target, source, stranded);
    case Destroy(h) => DestroyAccounted(s, h, stranded);
  }

  lemma FreshAccounted<H, O>(s: State<H, O>, h: H, r: Option<O>, stranded: set<bytes>)
    requires Inv(s) && Accounted(s, stranded) && h !in s.handles && (r.Some? ==> Live(s, r.value))
    ensures Inv(Point(s, h, r)) && Accounted(Point(s, h, r), stranded)
  {
    PointAccounted(s, h, r, stranded);
    assert stranded + {} == stranded;
  }

  lemma CopyAccounted<H, O>(s: State<H, O>, h: H, source: H, stranded: set<bytes>)
    requires Inv(s) && Accounted(s, stranded) && h !in s.handles && source in s.handles
    ensures Inv(Point(s, h, s.handles[source])) && Accounted(Point(s, h, s.handles[source]), stranded)
    ensures var next := Point(s, h, s.handles[source]);
            h != source && source in next.handles && Holding(next, h) == Holding(next, source)
  {
    if Holding(s, source).Some? {
      HeldIsLive(s, source);
    }
    FreshAccounted(s, h, s.handles[source], stranded);
  }

  lemma MoveAccounted<H, O>(s: State<H, O>, target: H, source: H, stranded: set<bytes>)
    requires Inv(s) && Accounted(s, stranded) && Legal(s, MoveAssign(target, source))
    ensures Inv(Step(s, MoveAssign(target, source)))
    ensures Accounted(Step(s, MoveAssign(target, source)), stranded + Strands(s, MoveAssign(target, source)))
  {
    if target == source {
      PointSame(s, target);
      PointAccounted(s, target, None, stranded);
    } else {
      AssignAccounted(s, target, source, stranded);
      var more := stranded + Strands(s, Assign(target, source));
      EmptiedAccounted(Point(s, target, s.handles[source]), source, target, more);
    }
  }

  // ---------- When objects go ----------

  /** The object whose last handle an operation takes. */
  function Dropped<H, O>(s: State<H, O>, op: Operation<H, O>): Option<O>
    requires Legal(s, op)
  {
    match op
    case Assign(target, source) => if target != source && LastHandle(s, target) then Holding(s, target) else None
    case MoveAssign(target, _) => if LastHandle(s, target) then Holding(s, target) else None
    case Destroy(h) => if LastHandle(s, h) then Holding(s, h) else None
    case _ => None
  }

  /** Every object keeps its name; it stays as it was, live or gone, but for the one that goes. */
  ghost predicate Outlived<H, O>(s: State<H, O>, next: State<H, O>, gone: Option<O>) {
    forall o :: o in s.objects ==>
      && o in next.objects && next.objects[o].name == s.objects[o].name
      && (Live(next, o) <==> Live(s, o) && gone != Some(o))
  }

  lemma PointOutlived<H, O>(s: State<H, O>, h: H, r: Option<O>)
    requires Counted(s) && (r.Some? ==> Live(s, r.value))
    ensures Counted(Point(s, h, r))
    ensures Outlived(s, Point(s, h, r), if LastHandle(s, h) && r != Holding(s, h) then Holding(s, h) else None)
  {
    hide Point, Counted;
    PointCounted(s, h, r);
  }

  lemma HeldOutlived<H, O>(s: State<H, O>, h: H, source: H)
    requires Counted(s) && source in s.handles
    ensures Counted(Point(s, h, s.handles[source]))
    ensures Outlived(s, Point(s, h, s.handles[source]),
                     if LastHandle(s, h) && h != source then Holding(s, h) else None)
  {
    hide Point, Counted, Outlived, LastHandle;
    if Holding(s, source).Some? {
      HeldIsLive(s, source);
    }
    PointOutlived(s, h, s.handles[source]);
    if h != source && Holding(s, h) == Holding(s, source) {
      SharedIsNotLast(s, h, source);
    }
  }

  lemma EmptiedOutlived<H, O>(s: State<H, O>, h: H, other: H)
    requires Counted(s) && h != other && Holding(s, h) == Holding(s, other)
    ensures Outlived(s, Point(s, h, None), None)
  {
    hide Point, Counted, Outlived, LastHandle;
    SharedIsNotLast(s, h, other);
    PointOutlived(s, h, None);
  }

  lemma OutlivedTwice<H, O>(s: State<H, O>, t: State<H, O>, u: State<H, O>, gone: Option<O>)
    requires Outlived(s, t, gone) && Outlived(t, u, None)
    ensures Outlived(s, u, gone)
  {
  }

  /** Moving out of one handle into another, which then shares the object for a moment. */
  lemma MoveOutlived<H, O>(s: State<H, O>, h: H, source: H)
    requires Counted(s) && source in s.handles && h != source
    ensures var moved := Point(Point(s, h, s.handles[source]), source, None);
            Outlived(s, moved, if LastHandle(s, h) then Holding(s, h) else None)
  {
    var shared := Point(s, h, s.handles[source]);
    assert Holding(shared, h) == Holding(shared, source);
    hide Point, Counted, Outlived, LastHandle;
    HeldOutlived(s, h, source);
    EmptiedOutlived(shared, source, h);
    OutlivedTwice(s, shared, Point(shared, source, None), if LastHandle(s, h) then Holding(s, h) else None);
  }

  /** An operation ends the object whose last handle it takes, and no other. */
  lemma DroppedDies<H, O>(s: State<H, O>, op: Operation<H, O>)
    requires Inv(s) && Legal(s, op)
    ensures Outlived(s, Step(s, op), Dropped(s, op))
    ensures op.Make? && op.name !in s.index ==>
              Live(Step(s, op), op.newcomer) && Step(s, op).objects[op.newcomer].name == op.name
  {
    hide Inv, Point, Counted, Outlived, LastHandle;
    CountedOf(s);
    match op
    case Default(h) => PointOutlived(s, h, None);
    case Make(h, o, name) => MakeOutlived(s, h, o, name);
    case Get(h, name) => PointOutlived(s, h, Lock(s, name));
    case CopyNew(h, source) => HeldOutlived(s, h, source);
    case MoveNew(h, source) => MoveOutlived(s, h, source);
    case Assign(target, source) => HeldOutlived(s, target, source);
    case MoveAssign(target, source) =>
      if target == source {
        PointSame(s, target);
        PointOutlived(s, target, None);
      } else {
        MoveOutlived(s, target, source);
      }
    case Destroy(h) => DestroyOutlived(s, h);
  }

  lemma CountedOf<H, O>(s: State<H, O>)
    requires Inv(s)
    ensures Counted(s)
  {
  }

  lemma MakeOutlived<H, O>(s: State<H, O>, h: H, o: O, name: bytes)
    requires Counted(s) && Legal(s, Make(h, o, name))
    ensures Outlived(s, Step(s, Make(h, o, name)), None)
    ensures name !in s.index ==>
              Live(Step(s, Make(h, o, name)), o) && Step(s, Make(h, o, name)).objects[o].name == name
  {
    hide Counted, Point;
    if name in s.index {
      PointOutlived(s, h, None);
    } else {
      MadeCounted(s, o, name);
      PointCounted(Made(s, o, name), h, Some(o));
    }
  }

  lemma DestroyOutlived<H, O>(s: State<H, O>, h: H)
    requires Counted(s) && h in s.handles
    ensures Outlived(s, Step(s, Destroy(h)), if LastHandle(s, h) then Holding(s, h) else None)
  {
    hide Counted;
    PointOutlived(s, h, None);
  }

  lemma StepKeeps<H, O>(s: State<H, O>, op: Operation<H, O>)
    requires Inv(s) && Legal(s, op)
    ensures Inv(Step(s, op))
  {
    hide Step, Legal, Strands;
    var stranded := set n | n in s.index && Lock(s, n) == None;
    forall n ensures LiveName(s, n) <==> Lock(s, n).Some? {
      NameIsLive(s, n);
    }
    StepAccounted(s, op, stranded);
  }

  ghost function NoChannels<H, O>(): State<H, O> {
    State(map[], map[], map[])
  }

  type Registry<H, O> = s: State<H, O> | Inv(s) ghost witness NoChannels<H, O>()

  function After<H, O>(s: Registry<H, O>, op: Operation<H, O>): Registry<H, O>
    requires Legal(s, op)
  {
    StepKeeps(s, op);
    Step(s, op)
  }

  // ---------- Runs ----------

  datatype History<H, O> = History(state: State<H, O>, stranded: set<bytes>)

  /** The state after a run, with every name stranded on the way. */
  function Run<H, O>(ops: seq<Operation<H, O>>): Option<History<H, O>>
    decreases |ops|
  {
    if ops == [] then Some(History(State(map[], map[], map[]), {}))
    else
      var last := |ops| - 1;
      var before := Run(ops[..last]);
      if before.Some? && Legal(before.value.state, ops[last])
      then Some(History(Step(before.value.state, ops[last]),
                        before.value.stranded + Strands(before.value.state, ops[last])))
      else None
  }

  /** In every run the shared counts are right, and the index is accounted for. */
  lemma {:induction false} EveryRun<H, O>(ops: seq<Operation<H, O>>)
    requires Run(ops).Some?
    ensures Inv(Run(ops).value.state) && Accounted(Run(ops).value.state, Run(ops).value.stranded)
    decreases |ops|
  {
    if ops != [] {
      hide Step, Strands;
      var last := |ops| - 1;
      var before := Run(ops[..last]).value;
      EveryRun(ops[..last]);
      StepAccounted(before.state, ops[last], before.stranded);
    }
  }

  /** The handles an operation is about; a move also empties the handle it moves from. */
  function Touched<H, O>(op: Operation<H, O>): set<H> {
    match op
    case Assign(target, _) => {target}
    case MoveAssign(target, source) => {target, source}
    case MoveNew(h, source) => {h, source}
    case _ => {op.handle}
  }

  /** What the handles of an operation hold, in terms of what the handles held before it. */
  ghost predicate Handed<H, O>(s: State<H, O>, op: Operation<H, O>, next: State<H, O>) {
    match op
    case Default(h) => h in next.handles && Holding(next, h) == None
    case Make(h, o, name) => h in next.handles && Holding(next, h) == if name in s.index then None else Some(o)
    case Get(h, name) => h in next.handles && (Holding(next, h) == None <==> !LiveName(s, name))
    case CopyNew(h, source) => h in next.handles && Holding(next, h) == Holding(s, source)
    case MoveNew(h, source) =>
      h in next.handles && Holding(next, h) == Holding(s, source) && Holding(next, source) == None
    case Assign(target, source) => Holding(next, target) == Holding(s, source)
    case MoveAssign(target, source) =>
      Holding(next, source) == None && (target != source ==> Holding(next, target) == Holding(s, source))
    case Destroy(h) => h !in next.handles
  }

  /**
   In every run, copying and assigning share the object of the source, moving hands it over
   and leaves the source empty, and every other handle keeps what it held.
   */
  lemma HandlesFollow<H, O>(ops: seq<Operation<H, O>>, op: Operation<H, O>, other: H)
    requires Run(ops).Some? && Legal(Run(ops).value.state, op)
    ensures Handed(Run(ops).value.state, op, Step(Run(ops).value.state, op))
    ensures other !in Touched(op) ==>
              var s, next := Run(ops).value.state, Step(Run(ops).value.state, op);
              (other in next.handles <==> other in s.handles) && Holding(next, other) == Holding(s, other)
  {
    EveryRun(ops);
    if op.Get? {
      NameIsLive(Run(ops).value.state, op.name);
    }
  }

  /** In every run, no two live channel objects share a name. */
  lemma NamesAreUnique<H, O>(ops: seq<Operation<H, O>>, a: O, b: O)
    requires Run(ops).Some?
    ensures var s := Run(ops).value.state;
            Live(s, a) && Live(s, b) && s.objects[a].name == s.objects[b].name ==> a == b
  {
    EveryRun(ops);
  }

  /** In every run, get yields a valid handle exactly when a live object has the name, and yields that object. */
  lemma GetFindsLive<H, O>(ops: seq<Operation<H, O>>, h: H, name: bytes)
    requires Run(ops).Some? && h !in Run(ops).value.state.handles
    ensures var s := Run(ops).value.state;
            var got := Holding(Step(s, Get(h, name)), h);
            && (got.Some? <==> LiveName(s, name))
            && (got.Some? ==> Live(s, got.value) && s.objects[got.value].name == name)
  {
    EveryRun(ops);
    NameIsLive(Run(ops).value.state, name);
  }

  /**
   In every run, making a channel succeeds exactly when no live one has the name and no
   assignment has stranded it: a stranded name is never usable again.
   */
  lemma MakeSucceeds<H, O>(ops: seq<Operation<H, O>>, h: H, o: O, name: bytes)
    requires Run(ops).Some? && Legal(Run(ops).value.state, Make(h, o, name))
    ensures var s := Run(ops).value.state;
            Holding(Step(s, Make(h, o, name)), h).Some? <==> !LiveName(s, name) && name !in Run(ops).value.stranded
  {
    EveryRun(ops);
  }

  lemma {:induction false} StrandedForGood<H, O>(ops: seq<Operation<H, O>>, later: seq<Operation<H, O>>)
    requires Run(ops + later).Some?
    ensures Run(ops).Some? && Run(ops).value.stranded <= Run(ops + later).value.stranded
    decreases |later|
  {
    if later == [] {
      assert ops + later == ops;
    } else {
      assert (ops + later)[..|ops + later| - 1] == ops + later[..|later| - 1];
      StrandedForGood(ops, later[..|later| - 1]);
    }
  }

  /** Two handles and one assignment are enough to lose a name that no live object has. */
  lemma AssignmentStrands(name: bytes)
    ensures var ops: seq<Operation<nat, nat>> := [Make(0, 0, name), Default(1), Assign(0, 1)];
            && Run(ops).Some?
            && !LiveName(Run(ops).value.state, name)
            && Legal(Run(ops).value.state, Make(2, 1, name))
            && Holding(Step(Run(ops).value.state, Make(2, 1, name)), 2) == None
  {
    var ops: seq<Operation<nat, nat>> := [Make(0, 0, name), Default(1), Assign(0, 1)];
    var none: seq<Operation<nat, nat>> := [];
    RunNext(none, ops[0]);
    assert Step(Run(none).value.state, ops[0]) == State(map[0 := Some(0)], map[0 := Object(name, 1)], map[name := 0]);
    RunNext([ops[0]], ops[1]);
    RunNext([ops[0], ops[1]], ops[2]);
    assert ops == [ops[0], ops[1]] + [ops[2]];
  }

  lemma RunNext<H, O>(ops: seq<Operation<H, O>>, op: Operation<H, O>)
    requires Run(ops).Some? && Legal(Run(ops).value.state, op)
    ensures Run(ops + [op])
         == Some(History(Step(Run(ops).value.state, op), Run(ops).value.stranded + Strands(Run(ops).value.state, op)))
  {
    assert (ops + [op])[..|ops|] == ops;
  }
}
