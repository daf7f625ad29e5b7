/**
 The double-checked instance() of libhdk/singleton.hpp as the steps its threads take: loads
 and stores of one atomic pointer, and a mutex. Any number of threads call it any number of
 times, in any interleaving.
 */
module Singleton {
  import opened Bytes

  type Thread = nat

  /** Objects are told apart by the order of their construction. */
  type Instance = nat

  /** Where a thread is: named after the step it takes next. */
  datatype Place =
    | Outside
    | FirstLoad
    | Lock
    | SecondLoad
    | Construct
    | Store(made: Instance)
    | Unlock(threw: bool)
    | LastLoad

  datatype State = State(
    published: Option<Instance>,
    owner: Option<Thread>,
    places: map<Thread, Place>,
    built: nat,
    returned: seq<Option<Instance>>)

  /** A thread's next step; `throws` is whether a constructor it runs throws. */
  datatype Action = Action(thread: Thread, throws: bool)

  function At(s: State, t: Thread): Place {
    if t in s.places then s.places[t] else Outside
  }

  predicate Enabled(s: State, a: Action) {
    At(s, a.thread).Lock? ==> s.owner == None
  }

  function Step(s: State, a: Action): State
    requires Enabled(s, a)
  {
    var t := a.thread;
    match At(s, t)
    case Outside => s.(places := s.places[t := FirstLoad])
    case FirstLoad => s.(places := s.places[t := if s.published.Some? then LastLoad else Lock])
    case Lock => s.(owner := Some(t), places := s.places[t := SecondLoad])
    case SecondLoad => s.(places := s.places[t := if s.published.Some? then Unlock(false) else Construct])
    case Construct =>
      if a.throws then s.(places := s.places[t := Unlock(true)])
      else s.(built := s.built + 1, places := s.places[t := Store(s.built)])
    case Store(made) => s.(published := Some(made), places := s.places[t := Unlock(false)])
    case Unlock(threw) => s.(owner := None, places := s.places[t := if threw then Outside else LastLoad])
    case LastLoad => s.(returned := s.returned + [s.published], places := s.places[t := Outside])
  }

  // ---------- The invariant ----------

  predicate Inside(p: Place) {
    p.SecondLoad? || p.Construct? || p.Store? || p.Unlock?
  }

  /** What a thread may count on where it is. */
  ghost predicate Fits(s: State, t: Thread) {
    match At(s, t)
    case Outside => true
    case FirstLoad => true
    case Lock => true
    case SecondLoad => s.built == (if s.published.Some? then 1 else 0)
    case Construct => s.published == None && s.built == 0
    case Store(made) => s.published == None && s.built == 1 && made == 0
    case Unlock(threw) => if threw then s.published == None && s.built == 0 else s.published.Some?
    case LastLoad => s.published.Some?
  }

  /** Nothing is built before it is published, except by the thread that holds the mutex. */
  ghost predicate Published(s: State) {
    && (s.published.Some? ==> s.published == Some(0) && s.built == 1)
    && (s.owner == None && s.published == None ==> s.built == 0)
  }

  /** The mutex is held by the one thread inside. */
  ghost predicate Guarded(s: State) {
    forall t: Thread :: Inside(At(s, t)) <==> s.owner == Some(t)
  }

  ghost predicate Placed(s: State) {
    forall t: Thread :: Fits(s, t)
  }

  ghost predicate Agreed(s: State) {
    forall k :: 0 <= k < |s.returned| ==> s.returned[k] == Some(0) && s.published == Some(0)
  }

  ghost predicate Inv(s: State) {
    Published(s) && Guarded(s) && Placed(s) && Agreed(s)
  }

  /** What is known of the thread that takes a step. */
  lemma Mover(s: State, t: Thread)
    requires Inv(s)
    ensures Fits(s, t) && (Inside(At(s, t)) <==> s.owner == Some(t))
  {
  }

  lemma Moved(s: State, a: Action, t: Thread)
    requires Enabled(s, a) && t != a.thread
    ensures At(Step(s, a), t) == At(s, t)
  {
  }

  lemma PublishedKeeps(s: State, a: Action)
    requires Inv(s) && Enabled(s, a)
    ensures Published(Step(s, a))
  {
    Mover(s, a.thread);
    hide Guarded, Placed, Agreed;
  }

  lemma GuardedKeeps(s: State, a: Action, t: Thread)
    requires Inv(s) && Enabled(s, a)
    ensures Inside(At(Step(s, a), t)) <==> Step(s, a).owner == Some(t)
  {
    Mover(s, a.thread);
    Mover(s, t);
    hide Guarded, Placed, Agreed;
    if t != a.thread {
      Moved(s, a, t);
    }
  }

  lemma PlacedKeeps(s: State, a: Action, t: Thread)
    requires Inv(s) && Enabled(s, a)
    ensures Fits(Step(s, a), t)
  {
    Mover(s, a.thread);
    Mover(s, t);
    hide Guarded, Placed, Agreed;
    if t != a.thread {
      Moved(s, a, t);
    }
  }

  lemma AgreedKeeps(s: State, a: Action)
    requires Inv(s) && Enabled(s, a)
    ensures Agreed(Step(s, a))
  {
    hide Guarded, Placed;
    Mover(s, a.thread);
    AgreedNext(s, a);
  }

  lemma AgreedNext(s: State, a: Action)
    requires Published(s) && Agreed(s) && Fits(s, a.thread) && Enabled(s, a)
    ensures Agreed(Step(s, a))
  {
    var next := Step(s, a);
    if At(s, a.thread).LastLoad? {
      assert next.returned == s.returned + [Some(0)] && next.published == Some(0);
    } else {
      assert next.returned == s.returned;
      if s.returned != [] {
        assert s.returned[0] == Some(0);
        assert s.published == Some(0);
      }
    }
  }

  lemma StepKeeps(s: State, a: Action)
    requires Inv(s) && Enabled(s, a)
    ensures Inv(Step(s, a))
  {
    PublishedKeeps(s, a);
    AgreedKeeps(s, a);
    hide Step, Fits, Inside, Published, Agreed;
    forall t: Thread ensures (Inside(At(Step(s, a), t)) <==> Step(s, a).owner == Some(t)) && Fits(Step(s, a), t) {
      GuardedKeeps(s, a, t);
      PlacedKeeps(s, a, t);
    }
  }

  // ---------- Runs ----------

  const START: State := State(None, None, map[], 0, [])

  function Run(actions: seq<Action>): Option<State>
    decreases |actions|
  {
    if actions == [] then Some(START)
    else
      var last := |actions| - 1;
      var before := Run(actions[..last]);
      if before.Some? && Enabled(before.value, actions[last]) then Some(Step(before.value, actions[last])) else None
  }

  lemma {:induction false} RunKeeps(actions: seq<Action>)
    requires Run(actions).Some?
    ensures Inv(Run(actions).value)
    decreases |actions|
  {
    if actions != [] {
      hide Step, Enabled;
      var last := |actions| - 1;
      RunKeeps(actions[..last]);
      StepKeeps(Run(actions[..last]).value, actions[last]);
    }
  }

  /** At most one object is ever constructed, and every call that returns returns that one. */
  lemma OneInstance(actions: seq<Action>)
    requires Run(actions).Some?
    ensures var s := Run(actions).value;
            && s.built <= 1
            && (forall k :: 0 <= k < |s.returned| ==> s.returned[k].Some? && s.returned[k].value < s.built)
            && (forall j, k :: 0 <= j < |s.returned| && 0 <= k < |s.returned| ==> s.returned[j] == s.returned[k])
  {
    RunKeeps(actions);
    var s := Run(actions).value;
    if s.published == None && s.owner.Some? {
      assert Inside(At(s, s.owner.value)) && Fits(s, s.owner.value);
    }
  }

  /** The mutex never strands anybody: in every run somebody inside a call can take a step. */
  lemma SomebodyMoves(actions: seq<Action>, t: Thread)
    requires Run(actions).Some? && At(Run(actions).value, t) != Outside
    ensures var s := Run(actions).value;
            exists u: Thread :: At(s, u) != Outside && Enabled(s, Action(u, false))
  {
    RunKeeps(actions);
    var s := Run(actions).value;
    if s.owner.Some? {
      assert Inside(At(s, s.owner.value));
      assert Enabled(s, Action(s.owner.value, false));
    } else {
      assert Enabled(s, Action(t, false));
    }
  }

  // ---------- A call comes to an end ----------

  /** How many of its own steps a thread still has to take before its call is over. */
  function Remaining(p: Place): nat {
    match p
    case Outside => 0
    case LastLoad => 1
    case Unlock(_) => 2
    case Store(_) => 3
    case Construct => 4
    case SecondLoad => 5
    case Lock => 6
    case FirstLoad => 7
  }

  /** Each step of a call brings it nearer its end and leaves the other threads where they are. */
  lemma CallsEnd(s: State, a: Action)
    requires Enabled(s, a) && At(s, a.thread) != Outside
    ensures Remaining(At(Step(s, a), a.thread)) < Remaining(At(s, a.thread))
    ensures forall t: Thread :: t != a.thread ==> At(Step(s, a), t) == At(s, t)
  {
  }

  // ---------- What a call comes to ----------

  function Alone(s: State, t: Thread, throws: bool, n: nat): Option<State>
    decreases n
  {
    if n == 0 then Some(s)
    else if Enabled(s, Action(t, throws)) then Alone(Step(s, Action(t, throws)), t, throws, n - 1)
    else None
  }

  lemma AloneNext(s: State, t: Thread, throws: bool, n: nat, u: State)
    requires Enabled(s, Action(t, throws)) && Step(s, Action(t, throws)) == u
    ensures Alone(s, t, throws, n + 1) == Alone(u, t, throws, n)
    ensures Alone(s, t, throws, 0) == Some(s)
  {
  }

  /** A call that finds the object published returns it after three steps, and changes nothing else. */
  lemma PublishedCall(s: State, t: Thread, throws: bool)
    requires At(s, t) == Outside && s.published.Some?
    ensures Alone(s, t, throws, 3)
         == Some(s.(places := s.places[t := Outside], returned := s.returned + [s.published]))
  {
    hide Alone;
    AloneNext(s, t, throws, 2, s.(places := s.places[t := FirstLoad]));
    var loaded := s.(places := s.places[t := FirstLoad][t := LastLoad]);
    AloneNext(s.(places := s.places[t := FirstLoad]), t, throws, 1, loaded);
    var end := s.(places := s.places[t := FirstLoad][t := LastLoad][t := Outside],
                  returned := s.returned + [s.published]);
    AloneNext(loaded, t, throws, 0, end);
    AloneNext(end, t, throws, 0, Step(end, Action(t, throws)));
    assert s.places[t := FirstLoad][t := LastLoad][t := Outside] == s.places[t := Outside];
  }

  /** How far an undisturbed first call is, the constructor throwing or not. */
  function FirstCall(s: State, t: Thread, p: Place): State {
    s.(owner := if Inside(p) then Some(t) else None, places := s.places[t := p])
  }

  lemma MovesOn(s: State, t: Thread, p: Place, q: Place)
    ensures s.places[t := p][t := q] == s.places[t := q]
  {
  }

  /**
   In every run, an undisturbed call while nothing is published and nobody has the mutex
   constructs the object, publishes it and returns it. If the constructor throws, the call
   ends with nothing returned, the mutex free and nothing published, so that the next call
   constructs again.
   */
  lemma FirstCallComes(actions: seq<Action>, t: Thread)
    requires Run(actions).Some? && At(Run(actions).value, t) == Outside
    requires Run(actions).value.published == None && Run(actions).value.owner == None
    ensures var s := Run(actions).value;
            && Alone(s, t, false, 8)
               == Some(s.(published := Some(0), places := s.places[t := Outside], built := 1,
                          returned := s.returned + [Some(0)]))
            && Alone(s, t, true, 6) == Some(s.(places := s.places[t := Outside]))
  {
    hide Alone, Run;
    var s := Run(actions).value;
    RunKeeps(actions);
    hide Placed, Guarded, Agreed;
    var made := s.(built := 1);
    var out := made.(published := Some(0));
    MovesOn(s, t, FirstLoad, Lock);
    MovesOn(s, t, Lock, SecondLoad);
    MovesOn(s, t, SecondLoad, Construct);
    MovesOn(s, t, Construct, Store(0));
    MovesOn(s, t, Store(0), Unlock(false));
    MovesOn(s, t, Unlock(false), LastLoad);
    MovesOn(s, t, LastLoad, Outside);
    MovesOn(s, t, Construct, Unlock(true));
    MovesOn(s, t, Unlock(true), Outside);
    AloneNext(s, t, false, 7, FirstCall(s, t, FirstLoad));
    AloneNext(FirstCall(s, t, FirstLoad), t, false, 6, FirstCall(s, t, Lock));
    AloneNext(FirstCall(s, t, Lock), t, false, 5, FirstCall(s, t, SecondLoad));
    AloneNext(FirstCall(s, t, SecondLoad), t, false, 4, FirstCall(s, t, Construct));
    AloneNext(FirstCall(s, t, Construct), t, false, 3, FirstCall(made, t, Store(0)));
    AloneNext(FirstCall(made, t, Store(0)), t, false, 2, FirstCall(out, t, Unlock(false)));
    AloneNext(FirstCall(out, t, Unlock(false)), t, false, 1, FirstCall(out, t, LastLoad));
    var end := out.(places := out.places[t := Outside], returned := out.returned + [Some(0)]);
    AloneNext(FirstCall(out, t, LastLoad), t, false, 0, end);
    AloneNext(end, t, false, 0, Step(end, Action(t, false)));
    AloneNext(s, t, true, 5, FirstCall(s, t, FirstLoad));
    AloneNext(FirstCall(s, t, FirstLoad), t, true, 4, FirstCall(s, t, Lock));
    AloneNext(FirstCall(s, t, Lock), t, true, 3, FirstCall(s, t, SecondLoad));
    AloneNext(FirstCall(s, t, SecondLoad), t, true, 2, FirstCall(s, t, Construct));
    AloneNext(FirstCall(s, t, Construct), t, true, 1, FirstCall(s, t, Unlock(true)));
    AloneNext(FirstCall(s, t, Unlock(true)), t, true, 0, FirstCall(s, t, Outside));
    AloneNext(FirstCall(s, t, Outside), t, true, 0, Step(FirstCall(s, t, Outside), Action(t, true)));
  }

  // ---------- The mutex is needed only once ----------

  /** The thread is in none of the steps around the mutex. */
  predicate Unlocked(p: Place) {
    p.Outside? || p.FirstLoad? || p.LastLoad?
  }

  /**
   Once the object is published, a thread that is not already at the mutex never comes to
   it again, in however many calls and whatever the other threads do in between: each of
   its steps is a load or a return, and none of them can block.
   */
  lemma {:induction false} FastPath(actions: seq<Action>, later: seq<Action>, t: Thread)
    requires Run(actions).Some? && Run(actions + later).Some?
    requires Run(actions).value.published.Some? && Unlocked(At(Run(actions).value, t))
    ensures var s, end := Run(actions).value, Run(actions + later).value;
            && end.published == s.published
            && Unlocked(At(end, t))
            && forall throws :: Enabled(end, Action(t, throws))
    decreases |later|
  {
    if later == [] {
      assert actions + later == actions;
    } else {
      var last := |later| - 1;
      var before := actions + later[..last];
      assert (actions + later)[..|actions + later| - 1] == before;
      FastPath(actions, later[..last], t);
      RunKeeps(before);
      FastStep(Run(before).value, later[last], t);
    }
  }

  lemma FastStep(s: State, a: Action, t: Thread)
    requires Inv(s) && Enabled(s, a) && s.published.Some? && Unlocked(At(s, t))
    ensures Step(s, a).published == s.published && Unlocked(At(Step(s, a), t))
  {
    Mover(s, a.thread);
    if t != a.thread {
      Moved(s, a, t);
    }
  }
}
