/**
 The registry of libhdk/brocker/brocker_manager.cpp: an index from message type to the
 brokers that handle it, kept beside each broker's own map of handlers
 (libhdk/brocker/brocker.hpp and brocker.cpp). The two must agree in every run.

 Brokers are a type parameter; `Brokers` instantiates it with objects.
 */
module BrokerRegistry {
  import opened Bytes
  import opened Marshal

  type TypeId = nat

  /** A handler, with the field types of the struct it takes and the order they are read in. */
  datatype Handler = Handler(target: nat, types: seq<Type>, order: seq<nat>)

  type Callback = f: Handler | forall i :: 0 <= i < |f.order| ==> f.order[i] < |f.types|
    witness Handler(0, [], [])

  type Index<B> = map<TypeId, seq<B>>

  datatype State<B> = State(live: set<B>, calls: map<B, map<TypeId, Callback>>, index: Index<B>)

  datatype Operation<B> =
    | Construct(broker: B)
    | Register(broker: B, typeId: TypeId, callback: Callback)
    | Unregister(broker: B, typeId: TypeId)
    | Copy(source: B, target: B)
    | Destroy(broker: B)

  // ---------- Lists ----------

  function Without<B(==)>(list: seq<B>, b: B): seq<B> {
    if list == [] then []
    else if list[0] == b then list[1..]
    else [list[0]] + Without(list[1..], b)
  }

  ghost predicate Distinct<B>(list: seq<B>) {
    forall i, j :: 0 <= i < j < |list| ==> list[i] != list[j]
  }

  lemma {:induction false} WithoutContents<B>(list: seq<B>, b: B)
    requires Distinct(list)
    ensures Distinct(Without(list, b))
    ensures forall x :: x in Without(list, b) <==> x in list && x != b
  {
    if list != [] {
      var tail := list[1..];
      assert list == [list[0]] + tail;
      assert Distinct(tail) && list[0] !in tail;
      if list[0] != b {
        WithoutContents(tail, b);
      }
    }
  }

  // ---------- The index operations ----------

  /** An already registered broker stays where it is. */
  function Registered<B(==)>(index: Index<B>, b: B, t: TypeId): Index<B> {
    var list := if t in index then index[t] else [];
    if b in list then index else index[t := list + [b]]
  }

  /** A list that becomes empty is dropped. */
  function Unregistered<B(==)>(index: Index<B>, b: B, t: TypeId): Index<B> {
    if t !in index || b !in index[t] then index
    else
      var list := Without(index[t], b);
      if list == [] then index - {t} else index[t := list]
  }

  /** The copy joins, at the end, every list its original is in. */
  function Cloned<B(==)>(index: Index<B>, source: B, target: B): Index<B> {
    map t | t in index :: if source in index[t] then index[t] + [target] else index[t]
  }

  /** What removing a broker from the registry is for: it leaves every list. */
  function Removed<B(==)>(index: Index<B>, b: B): Index<B> {
    map t | t in index && Without(index[t], b) != [] :: Without(index[t], b)
  }

  // ---------- Steps ----------

  function Step<B(==)>(s: State<B>, op: Operation<B>): State<B>
    requires Legal(s, op)
  {
    match op
    case Construct(b) => s.(live := s.live + {b}, calls := s.calls[b := map[]])
    case Register(b, t, f) =>
      var own := s.calls[b];
      s.(calls := s.calls[b := if t in own then own else own[t := f]], index := Registered(s.index, b, t))
    case Unregister(b, t) =>
      s.(calls := s.calls[b := s.calls[b] - {t}], index := Unregistered(s.index, b, t))
    case Copy(source, target) =>
      State(s.live + {target}, s.calls[target := s.calls[source]], Cloned(s.index, source, target))
    case Destroy(b) =>
      State(s.live - {b}, s.calls - {b}, Removed(s.index, b))
  }

  /** Operations are called on live brokers, and construction makes new ones. */
  predicate Legal<B(==)>(s: State<B>, op: Operation<B>) {
    match op
    case Construct(b) => b !in s.live
    case Register(b, _, _) => b in s.live && b in s.calls
    case Unregister(b, _) => b in s.live && b in s.calls
    case Copy(source, target) => source in s.live && source in s.calls && target !in s.live
    case Destroy(b) => b in s.live
  }

  // ---------- The invariant ----------

  ghost predicate ListsSound<B>(live: set<B>, index: Index<B>) {
    forall t :: t in index ==> index[t] != [] && Distinct(index[t]) && forall b :: b in index[t] ==> b in live
  }

  ghost predicate Listed<B>(index: Index<B>, b: B, t: TypeId) {
    t in index && b in index[t]
  }

  /** A live broker is listed for a type exactly when it has a handler for it. */
  ghost predicate Agree<B>(s: State<B>) {
    && s.calls.Keys == s.live
    && forall b, t :: b in s.live ==> (Listed(s.index, b, t) <==> t in s.calls[b])
  }

  ghost predicate Inv<B>(s: State<B>) {
    ListsSound(s.live, s.index) && Agree(s)
  }

  lemma RegisterKeeps<B>(s: State<B>, b: B, t: TypeId, f: Callback)
    requires Inv(s) && b in s.live
    ensures Inv(Step(s, Register(b, t, f)))
  {
    var r := Step(s, Register(b, t, f));
    var list := if t in s.index then s.index[t] else [];
    assert Listed(s.index, b, t) <==> t in s.calls[b];
    assert b in list <==> Listed(s.index, b, t);
    assert ListsSound(r.live, r.index) by {
      assert b !in list ==> Distinct(list + [b]);
    }
    forall x, u | x in r.live ensures Listed(r.index, x, u) <==> u in r.calls[x] {
      assert Listed(s.index, x, u) <==> u in s.calls[x];
      if u == t && b !in list {
        assert r.index[u] == list + [b];
      }
    }
  }

  lemma UnregisterKeeps<B>(s: State<B>, b: B, t: TypeId)
    requires Inv(s) && b in s.live
    ensures Inv(Step(s, Unregister(b, t)))
  {
    var r := Step(s, Unregister(b, t));
    assert Listed(s.index, b, t) <==> t in s.calls[b];
    if Listed(s.index, b, t) {
      WithoutContents(s.index[t], b);
    }
    assert ListsSound(r.live, r.index);
    forall x, u | x in r.live ensures Listed(r.index, x, u) <==> u in r.calls[x] {
      assert Listed(s.index, x, u) <==> u in s.calls[x];
    }
  }

  lemma CopyKeeps<B>(s: State<B>, source: B, target: B)
    requires Inv(s) && source in s.live && target !in s.live
    ensures Inv(Step(s, Copy(source, target)))
  {
    var r := Step(s, Copy(source, target));
    assert ListsSound(r.live, r.index) by {
      forall u | u in r.index
        ensures r.index[u] != [] && Distinct(r.index[u]) && forall x :: x in r.index[u] ==> x in r.live
      {
        if source in s.index[u] {
          assert r.index[u] == s.index[u] + [target] && target !in s.index[u];
        }
      }
    }
    forall x, u | x in r.live ensures Listed(r.index, x, u) <==> u in r.calls[x] {
      assert Listed(s.index, source, u) <==> u in s.calls[source];
      assert !Listed(s.index, target, u);
      if x != target {
        assert Listed(s.index, x, u) <==> u in s.calls[x];
      }
    }
  }

  lemma RemovedContents<B>(index: Index<B>, b: B, x: B, t: TypeId)
    requires t in index ==> Distinct(index[t])
    ensures Listed(Removed(index, b), x, t) <==> Listed(index, x, t) && x != b
  {
    if t in index {
      WithoutContents(index[t], b);
    }
  }

  lemma DestroyKeeps<B>(s: State<B>, b: B)
    requires Inv(s) && b in s.live
    ensures Inv(Step(s, Destroy(b)))
  {
    var r := Step(s, Destroy(b));
    assert ListsSound(r.live, r.index) by {
      forall t | t in r.index
        ensures r.index[t] != [] && Distinct(r.index[t]) && forall x :: x in r.index[t] ==> x in r.live
      {
        WithoutContents(s.index[t], b);
        forall x | x in r.index[t] ensures x in r.live {
          RemovedContents(s.index, b, x, t);
          assert Listed(r.index, x, t);
        }
      }
    }
    assert r.calls.Keys == r.live;
    forall x, u | x in r.live ensures Listed(r.index, x, u) <==> u in r.calls[x] {
      assert Listed(s.index, x, u) <==> u in s.calls[x];
      RemovedContents(s.index, b, x, u);
    }
  }

  lemma StepKeeps<B>(s: State<B>, op: Operation<B>)
    requires Inv(s) && Legal(s, op)
    ensures Inv(Step(s, op))
  {
    match op
    case Construct(b) =>
      var r := Step(s, op);
      assert forall u :: !Listed(s.index, b, u);
      assert forall x, u :: x in s.live ==> (Listed(s.index, x, u) <==> u in s.calls[x]);
      assert forall x, u :: Listed(r.index, x, u) <==> Listed(s.index, x, u);
    case Register(b, t, f) => RegisterKeeps(s, b, t, f);
    case Unregister(b, t) => UnregisterKeeps(s, b, t);
    case Copy(source, target) => CopyKeeps(s, source, target);
    case Destroy(b) => DestroyKeeps(s, b);
  }

  // ---------- Runs ----------

  function Empty<B>(): State<B> {
    State({}, map[], map[])
  }

  /** The state after a run of operations, if each was allowed when it came. */
  function Run<B(==)>(ops: seq<Operation<B>>): Option<State<B>>
    decreases |ops|
  {
    if ops == [] then Some(Empty<B>())
    else
      var last := |ops| - 1;
      var before := Run(ops[..last]);
      if before.Some? && Legal(before.value, ops[last]) then Some(Step(before.value, ops[last])) else None
  }

  /**
   In every run from an empty registry, a live broker is in the list for a type exactly when
   it has a handler for the type; lists are never empty, hold nobody twice and hold only
   live brokers.
   */
  lemma {:induction false} EveryRun<B>(ops: seq<Operation<B>>)
    requires Run(ops).Some?
    ensures Inv(Run(ops).value)
    decreases |ops|
  {
    if ops != [] {
      hide Step;
      var last := |ops| - 1;
      EveryRun(ops[..last]);
      StepKeeps(Run(ops[..last]).value, ops[last]);
    }
  }

  ghost predicate Handles<B>(s: State<B>, b: B, t: TypeId) {
    b in s.live && b in s.calls && t in s.calls[b]
  }

  /**
   When a broker began to handle a type: the length of the run just after the operation
   since which it has handled it throughout. The index plays no part in this.
   */
  ghost function Since<B>(ops: seq<Operation<B>>, b: B, t: TypeId): (k: nat)
    requires Run(ops).Some?
    ensures k <= |ops|
    decreases |ops|
  {
    if ops == [] then 0
    else
      var earlier := ops[..|ops| - 1];
      if Handles(Run(earlier).value, b, t) then Since(earlier, b, t) else |ops|
  }

  ghost predicate InOrder<B>(ops: seq<Operation<B>>, list: seq<B>, t: TypeId)
    requires Run(ops).Some?
  {
    forall i, j :: 0 <= i < j < |list| ==> Since(ops, list[i], t) < Since(ops, list[j], t)
  }

  ghost predicate Before<B>(list: seq<B>, x: B, y: B) {
    exists p, q :: 0 <= p < q < |list| && list[p] == x && list[q] == y
  }

  function ListFor<B>(index: Index<B>, t: TypeId): seq<B> {
    if t in index then index[t] else []
  }

  function Omitting<B>(list: seq<B>, k: nat): seq<B>
    requires k < |list|
  {
    list[..k] + list[k + 1..]
  }

  /** A list stays, loses one broker, or gains one it did not hold, at the end. */
  ghost predicate Evolves<B>(list: seq<B>, next: seq<B>) {
    || next == list
    || (exists k :: 0 <= k < |list| && next == Omitting(list, k))
    || (|next| == |list| + 1 && next[..|list|] == list && next[|list|] !in list)
  }

  lemma {:induction false} WithoutOmits<B>(list: seq<B>, b: B)
    ensures Evolves(list, Without(list, b))
    ensures |Without(list, b)| <= |list|
  {
    if list != [] {
      var rest := list[1..];
      if list[0] == b {
        assert Omitting(list, 0) == rest;
      } else {
        WithoutOmits(rest, b);
        if Without(rest, b) == rest {
          assert Without(list, b) == list;
        } else {
          var k :| 0 <= k < |rest| && Without(rest, b) == Omitting(rest, k);
          assert Omitting(list, k + 1) == [list[0]] + Omitting(rest, k);
        }
      }
    }
  }

  lemma ListEvolves<B>(s: State<B>, op: Operation<B>, t: TypeId)
    requires Inv(s) && Legal(s, op)
    ensures Evolves(ListFor(s.index, t), ListFor(Step(s, op).index, t))
  {
    var list := ListFor(s.index, t);
    match op
    case Construct(b) =>
    case Register(b, u, f) => assert b !in list ==> Evolves(list, list + [b]);
    case Unregister(b, u) => WithoutOmits(list, b);
    case Copy(source, target) => assert Evolves(list, list + [target]);
    case Destroy(b) => WithoutOmits(list, b);
  }

  lemma EvolvesInOrder<B>(list: seq<B>, next: seq<B>, i: nat, j: nat)
    requires Evolves(list, next) && i < j < |next|
    ensures next[i] in list
    ensures next[j] in list ==> Before(list, next[i], next[j])
  {
    if k :| 0 <= k < |list| && next == Omitting(list, k) {
      assert list[if i < k then i else i + 1] == next[i];
      assert list[if j < k then j else j + 1] == next[j];
    } else {
      assert list[i] == next[i];
      if j < |list| {
        assert list[j] == next[j];
      }
    }
  }

  /** In every run, each list is in the order its brokers began to handle the type. */
  lemma {:induction false} RegistrationOrder<B>(ops: seq<Operation<B>>, t: TypeId)
    requires Run(ops).Some?
    ensures InOrder(ops, ListFor(Run(ops).value.index, t), t)
    decreases |ops|
  {
    if ops != [] {
      var earlier := ops[..|ops| - 1];
      var s, next := Run(earlier).value, Run(ops).value;
      EveryRun(earlier);
      EveryRun(ops);
      RegistrationOrder(earlier, t);
      ListEvolves(s, ops[|ops| - 1], t);
      var list, list' := ListFor(s.index, t), ListFor(next.index, t);
      forall b ensures b in list <==> Handles(s, b, t) {
        ListedHandles(s, b, t);
      }
      forall i, j | 0 <= i < j < |list'| ensures Since(ops, list'[i], t) < Since(ops, list'[j], t) {
        EvolvesInOrder(list, list', i, j);
      }
    }
  }

  lemma ListedHandles<B>(s: State<B>, b: B, t: TypeId)
    requires Inv(s)
    ensures b in ListFor(s.index, t) <==> Handles(s, b, t)
  {
    assert b in s.live ==> (Listed(s.index, b, t) <==> t in s.calls[b]);
  }

  // ---------- Which handler a broker keeps ----------

  ghost function HandlerOf<B>(s: State<B>, b: B, t: TypeId): Callback
    requires Handles(s, b, t)
  {
    s.calls[b][t]
  }

  /** The operation gave the broker its handler for the type: by registering it, or by copying the source's. */
  ghost predicate Gave<B>(s: State<B>, op: Operation<B>, b: B, t: TypeId, f: Callback) {
    match op
    case Register(x, u, g) => x == b && u == t && g == f
    case Copy(source, target) => target == b && Handles(s, source, t) && f == HandlerOf(s, source, t)
    case _ => false
  }

  /** The operation makes the broker handle the type. */
  ghost predicate Begins<B>(s: State<B>, op: Operation<B>, b: B, t: TypeId) {
    match op
    case Register(x, u, _) => x == b && u == t
    case Copy(source, target) => target == b && Handles(s, source, t)
    case _ => false
  }

  /** The operation makes the broker not handle the type. */
  ghost predicate Ends<B>(op: Operation<B>, b: B, t: TypeId) {
    op == Unregister(b, t) || op == Destroy(b)
  }

  lemma HandlesNext<B>(s: State<B>, op: Operation<B>, b: B, t: TypeId)
    requires Inv(s) && Legal(s, op)
    ensures Handles(Step(s, op), b, t) <==> Begins(s, op, b, t) || (Handles(s, b, t) && !Ends(op, b, t))
  {
  }

  /** The broker began to handle the type at place k, and nothing after that ended it. */
  ghost predicate BegunAt<B>(ops: seq<Operation<B>>, k: nat, b: B, t: TypeId) {
    && k < |ops| && Run(ops[..k]).Some? && Begins(Run(ops[..k]).value, ops[k], b, t)
    && forall j :: k < j < |ops| ==> !Ends(ops[j], b, t)
  }

  ghost predicate Begun<B>(ops: seq<Operation<B>>, b: B, t: TypeId) {
    exists k :: BegunAt(ops, k, b, t)
  }

  lemma BegunNext<B>(ops: seq<Operation<B>>, op: Operation<B>, b: B, t: TypeId)
    requires Run(ops).Some?
    ensures Begun(ops + [op], b, t) <==> Begins(Run(ops).value, op, b, t) || (Begun(ops, b, t) && !Ends(op, b, t))
  {
    hide Run, Begins;
    var all := ops + [op];
    assert all[..|ops|] == ops && all[|ops|] == op;
    assert forall j :: 0 <= j < |ops| ==> all[j] == ops[j] && all[..j] == ops[..j];
    if Begins(Run(ops).value, op, b, t) {
      assert BegunAt(all, |ops|, b, t);
    } else if Begun(all, b, t) {
      var k: nat :| BegunAt(all, k, b, t);
      assert BegunAt(ops, k, b, t);
    }
    if Begun(ops, b, t) && !Ends(op, b, t) {
      var k: nat :| BegunAt(ops, k, b, t);
      assert BegunAt(all, k, b, t);
    }
  }

  /**
   In every run a broker handles a type exactly if it registered for it, or was copied from a
   broker that handled it then, and has neither unregistered nor been destroyed since.
   */
  lemma {:induction false} HandlesEveryRun<B>(ops: seq<Operation<B>>, b: B, t: TypeId)
    requires Run(ops).Some?
    ensures Handles(Run(ops).value, b, t) <==> Begun(ops, b, t)
    decreases |ops|
  {
    if ops != [] {
      hide Step, Legal, Handles, Begins, Ends, Begun;
      var last := |ops| - 1;
      var earlier := ops[..last];
      assert ops == earlier + [ops[last]];
      EveryRun(earlier);
      HandlesEveryRun(earlier, b, t);
      HandlesNext(Run(earlier).value, ops[last], b, t);
      BegunNext(earlier, ops[last], b, t);
    } else {
      NothingBegun(b, t);
    }
  }

  lemma NothingBegun<B>(b: B, t: TypeId)
    ensures !Begun([], b, t)
  {
  }

  /** A handler stays the same for as long as there is one. */
  lemma HandlerStays<B>(s: State<B>, op: Operation<B>, b: B, t: TypeId)
    requires Inv(s) && Legal(s, op) && Handles(Step(s, op), b, t)
    ensures Handles(s, b, t) ==> HandlerOf(Step(s, op), b, t) == HandlerOf(s, b, t)
    ensures !Handles(s, b, t) ==> Gave(s, op, b, t, HandlerOf(Step(s, op), b, t))
  {
  }

  /**
   In every run, the handler a broker has for a type is the one given by the operation since
   which it handles the type, whatever was registered later: the first registration wins.
   */
  lemma {:induction false} FirstRegistrationWins<B>(ops: seq<Operation<B>>, b: B, t: TypeId)
    requires Run(ops).Some? && Handles(Run(ops).value, b, t)
    ensures var k := Since(ops, b, t);
            && 0 < k && Run(ops[..k - 1]).Some?
            && Gave(Run(ops[..k - 1]).value, ops[k - 1], b, t, HandlerOf(Run(ops).value, b, t))
    decreases |ops|
  {
    var last := |ops| - 1;
    var earlier := ops[..last];
    EveryRun(earlier);
    HandlerStays(Run(earlier).value, ops[last], b, t);
    if Handles(Run(earlier).value, b, t) {
      FirstRegistrationWins(earlier, b, t);
      var k := Since(earlier, b, t);
      assert ops[..k - 1] == earlier[..k - 1];
    }
  }

  // ---------- remove, as it is written ----------

  /**
   brocker_manager::remove step by step. The map is the sequence of its lists in iteration
   order; `owner` says which list the inner iterator belongs to, None once that list is
   erased. Comparing it with the end of another list, or dereferencing the end of the map,
   is undefined.
   */
  datatype Config<B> =
    | Outer(lists: seq<seq<B>>, at: nat)
    | Inner(lists: seq<seq<B>>, at: nat, owner: Option<nat>, within: nat)
    | Finished(lists: seq<seq<B>>)
    | Undefined

  function Advance<B(==)>(c: Config<B>, b: B): Config<B> {
    match c
    case Outer(lists, at) =>
      if at >= |lists| then Finished(lists) else Inner(lists, at, Some(at), 0)
    case Inner(lists, at, owner, within) =>
      if at >= |lists| || owner != Some(at) then Undefined
      else if within >= |lists[at]| then Outer(lists, at)
      else if lists[at][within] != b then Inner(lists, at, owner, within + 1)
      else
        var list := lists[at][..within] + lists[at][within + 1..];
        if list == [] then Inner(lists[..at] + lists[at + 1..], at, None, 0)
        else Inner(lists[at := list], at + 1, owner, within)
    case Finished(_) => c
    case Undefined => c
  }

  function AdvanceMany<B(==)>(n: nat, c: Config<B>, b: B): Config<B> {
    if n == 0 then c else AdvanceMany(n - 1, Advance(c, b), b)
  }

  /** The configurations reachable once there is a list: none of them leads out. */
  ghost predicate Trapped<B>(c: Config<B>) {
    match c
    case Outer(lists, at) => lists != [] && at == 0
    case Inner(lists, at, owner, within) => (at == 0 && owner == Some(0) && lists != []) || owner != Some(at)
    case Finished(_) => false
    case Undefined => true
  }

  lemma {:induction false} StaysTrapped<B>(n: nat, c: Config<B>, b: B)
    requires Trapped(c)
    ensures Trapped(AdvanceMany(n, c, b))
  {
    if n > 0 {
      StaysTrapped(n - 1, Advance(c, b), b);
    }
  }

  /** The first list is gone through over and over. */
  ghost predicate Circling<B>(c: Config<B>, b: B) {
    match c
    case Outer(lists, at) => lists != [] && at == 0 && b !in lists[0]
    case Inner(lists, at, owner, within) => lists != [] && at == 0 && owner == Some(0) && b !in lists[0]
    case _ => false
  }

  lemma {:induction false} CirclesOn<B>(n: nat, c: Config<B>, b: B)
    requires Circling(c, b)
    ensures Circling(AdvanceMany(n, c, b), b)
  {
    if n > 0 {
      CirclesOn(n - 1, Advance(c, b), b);
    }
  }

  lemma {:induction false} EndsEmpty<B>(n: nat, b: B)
    ensures !AdvanceMany<B>(n, Outer([], 0), b).Undefined?
  {
    if n > 0 {
      StaysFinished<B>(n - 1, [], b);
    }
  }

  lemma {:induction false} StaysFinished<B>(n: nat, lists: seq<seq<B>>, b: B)
    ensures AdvanceMany(n, Finished(lists), b) == Finished(lists)
  {
    if n > 0 {
      StaysFinished(n - 1, lists, b);
    }
  }

  /** Once the broker is found, the next comparison is with the end of another list. */
  lemma {:induction false} FindsAndFails<B>(lists: seq<seq<B>>, b: B, within: nat, k: nat)
    requires lists != [] && within <= k < |lists[0]| && lists[0][k] == b
    ensures exists n: nat :: AdvanceMany(n, Inner(lists, 0, Some(0), within), b).Undefined?
    decreases k - within
  {
    var c := Inner(lists, 0, Some(0), within);
    if lists[0][within] == b {
      assert AdvanceMany(0, Advance(Advance(c, b), b), b).Undefined?;
      assert AdvanceMany(1, Advance(c, b), b).Undefined?;
      assert AdvanceMany(2, c, b).Undefined?;
    } else {
      FindsAndFails(lists, b, within + 1, k);
      var n: nat :| AdvanceMany(n, Advance(c, b), b).Undefined?;
      assert AdvanceMany(n + 1, c, b).Undefined?;
    }
  }

  /**
   As written the loop completes exactly when the map is empty. On a first list that lacks
   the broker the outer iterator never moves on, and the loop never ends; on one that has
   it, iterators of different lists are compared after the erasure, which is undefined. That
   is why `Removed` models the intent instead.
   */
  lemma RemoveAsWritten<B>(lists: seq<seq<B>>, b: B)
    ensures (exists n: nat :: AdvanceMany(n, Outer(lists, 0), b).Finished?) <==> lists == []
    ensures (exists n: nat :: AdvanceMany(n, Outer(lists, 0), b).Undefined?) <==> lists != [] && b in lists[0]
  {
    if lists != [] && b in lists[0] {
      var k: nat :| k < |lists[0]| && lists[0][k] == b;
      FindsAndFails(lists, b, 0, k);
      var n: nat :| AdvanceMany(n, Advance(Outer(lists, 0), b), b).Undefined?;
      assert AdvanceMany(n + 1, Outer(lists, 0), b).Undefined?;
    } else if lists != [] {
      forall n: nat ensures !AdvanceMany(n, Outer(lists, 0), b).Undefined? {
        CirclesOn(n, Outer(lists, 0), b);
      }
    } else {
      forall n: nat ensures !AdvanceMany(n, Outer(lists, 0), b).Undefined? {
        EndsEmpty(n, b);
      }
    }
    if lists == [] {
      assert AdvanceMany(0, Advance(Outer(lists, 0), b), b).Finished?;
      assert AdvanceMany(1, Outer(lists, 0), b).Finished?;
    } else {
      forall n: nat ensures !AdvanceMany(n, Outer(lists, 0), b).Finished? {
        StaysTrapped(n, Outer(lists, 0), b);
      }
    }
  }
}
