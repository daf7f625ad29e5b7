/**
 The handshake by which the constructor of the socket poller waits for its thread
 (libhdk/channel/impl/socket_poller_zmq.cpp, startup and the head of thread_poll): a mutex
 and a condition variable waited on without a predicate.
 */
module Startup {
  import opened Bytes

  datatype Owner = Nobody | Starter | Poller

  /** Named after the step that comes next. */
  datatype StarterPlace = Lock | Spawn | Wait | Waiting | Relock | Unlock | Returned

  datatype PollerPlace =
    | Unborn | PollerLock | BindSend | BindCtrl | PushSend | PushCtrl | PollerUnlock | Notify | Polling | Failed

  datatype Item = SendSocket | CtrlSocket

  /** `lost` tells whether a notification found nobody waiting. */
  datatype State = State(owner: Owner, starter: StarterPlace, poller: PollerPlace, items: seq<Item>, lost: bool)

  /** A poller step may fail where it binds a socket; a wait may end for no reason. */
  datatype Action = StarterStep | PollerStep(fails: bool) | Spurious

  const BOTH: seq<Item> := [SendSocket, CtrlSocket]

  predicate Enabled(s: State, a: Action) {
    match a
    case StarterStep =>
      (s.starter.Lock? || s.starter.Relock? ==> s.owner == Nobody) && !s.starter.Waiting? && !s.starter.Returned?
    case PollerStep(fails) =>
      && (s.poller.PollerLock? ==> s.owner == Nobody)
      && !s.poller.Unborn? && !s.poller.Polling? && !s.poller.Failed?
      && (fails ==> s.poller.BindSend? || s.poller.BindCtrl?)
    case Spurious => s.starter.Waiting?
  }

  function Step(s: State, a: Action): State
    requires Enabled(s, a)
  {
    match a
    case StarterStep =>
      (match s.starter
       case Lock => s.(owner := Starter, starter := Spawn)
       case Spawn => s.(poller := PollerLock, starter := Wait)
       case Wait => s.(owner := Nobody, starter := Waiting)
       case Relock => s.(owner := Starter, starter := Unlock)
       case Unlock => s.(owner := Nobody, starter := Returned)
       case _ => s)
    case PollerStep(fails) =>
      if fails then s.(owner := Nobody, poller := Failed)
      else
        (match s.poller
         case PollerLock => s.(owner := Poller, poller := BindSend)
         case BindSend => s.(poller := BindCtrl)
         case BindCtrl => s.(poller := PushSend)
         case PushSend => s.(items := s.items + [SendSocket], poller := PushCtrl)
         case PushCtrl => s.(items := s.items + [CtrlSocket], poller := PollerUnlock)
         case PollerUnlock => s.(owner := Nobody, poller := Notify)
         case Notify =>
           if s.starter.Waiting? then s.(starter := Relock, poller := Polling)
           else s.(lost := true, poller := Polling)
         case _ => s)
    case Spurious => s.(starter := Relock)
  }

  const START: State := State(Nobody, Lock, Unborn, [], false)

  function Run(actions: seq<Action>): Option<State>
    decreases |actions|
  {
    if actions == [] then Some(START)
    else
      var last := |actions| - 1;
      var before := Run(actions[..last]);
      if before.Some? && Enabled(before.value, actions[last]) then Some(Step(before.value, actions[last])) else None
  }

  // ---------- In every run ----------

  predicate Holding(p: PollerPlace) {
    p.BindSend? || p.BindCtrl? || p.PushSend? || p.PushCtrl? || p.PollerUnlock?
  }

  /** The mutex is held by the thread between its lock and its unlock; the vector grows under it. */
  ghost predicate Ordered(s: State) {
    && (s.owner == Poller <==> Holding(s.poller))
    && (s.owner == Starter <==> s.starter.Spawn? || s.starter.Wait? || s.starter.Unlock?)
    && (s.poller.Unborn? <==> s.starter.Lock? || s.starter.Spawn?)
    && (s.starter.Wait? ==> s.poller.PollerLock?)
    && s.items == match s.poller
                  case PushCtrl => [SendSocket]
                  case PollerUnlock => BOTH
                  case Notify => BOTH
                  case Polling => BOTH
                  case _ => []
  }

  lemma {:induction false} AlwaysOrdered(actions: seq<Action>)
    requires Run(actions).Some?
    ensures Ordered(Run(actions).value)
    decreases |actions|
  {
    if actions != [] {
      AlwaysOrdered(actions[..|actions| - 1]);
    }
  }

  /**
   Spurious wakeups or not, when the starter has the mutex back and is about to return the
   vector is full or empty and never in between: full exactly when the poller has given the
   mutex back, empty exactly when the poller has yet to take it or has failed.
   */
  lemma AllOrNothing(actions: seq<Action>)
    requires Run(actions).Some? && Run(actions).value.starter.Unlock?
    ensures var s := Run(actions).value;
            && (s.items == BOTH <==> s.poller.Notify? || s.poller.Polling?)
            && (s.items == [] <==> s.poller.PollerLock? || s.poller.Failed?)
            && (s.items == BOTH || s.items == [])
  {
    AlwaysOrdered(actions);
  }

  // ---------- Without spurious wakeups ----------

  ghost predicate Inv(s: State) {
    && Ordered(s) && !s.lost
    && (s.poller.Polling? <==> s.starter.Relock? || s.starter.Unlock? || s.starter.Returned?)
  }

  lemma {:induction false} RunKeeps(actions: seq<Action>)
    requires Run(actions).Some? && Spurious !in actions
    ensures Inv(Run(actions).value)
    decreases |actions|
  {
    if actions != [] {
      RunKeeps(actions[..|actions| - 1]);
    }
  }

  /** No notification is lost: it always comes after the starter began to wait. */
  lemma NoLostWakeup(actions: seq<Action>)
    requires Run(actions).Some? && Spurious !in actions
    ensures var s := Run(actions).value; !s.lost && (s.poller.Notify? ==> s.starter.Waiting?)
  {
    RunKeeps(actions);
  }

  /** When startup returns, both control sockets are in the poll vector, in order. */
  lemma ReadyOnReturn(actions: seq<Action>)
    requires Run(actions).Some? && Spurious !in actions && Run(actions).value.starter.Returned?
    ensures Run(actions).value.items == BOTH && Run(actions).value.poller.Polling?
  {
    RunKeeps(actions);
  }

  /** Where no further step is possible. */
  predicate Stuck(s: State) {
    !Enabled(s, StarterStep) && !Enabled(s, PollerStep(false))
  }

  lemma {:induction false} FailureIsFinal(actions: seq<Action>)
    requires Run(actions).Some? && Spurious !in actions
    ensures PollerStep(true) in actions <==> Run(actions).value.poller.Failed?
    decreases |actions|
  {
    if actions != [] {
      var last := |actions| - 1;
      FailureIsFinal(actions[..last]);
      RunKeeps(actions[..last]);
      assert PollerStep(true) in actions <==> PollerStep(true) in actions[..last] || actions[last] == PollerStep(true);
    }
  }

  /**
   A run cannot go on exactly when startup has returned and the poller polls, or a socket
   could not be bound. In the second case the starter waits forever.
   */
  lemma EndsReady(actions: seq<Action>)
    requires Run(actions).Some? && Spurious !in actions
    ensures var s := Run(actions).value;
            && (Stuck(s) <==> s.starter.Returned? || (PollerStep(true) in actions && s.starter.Waiting?))
            && (PollerStep(true) in actions ==> s.starter.Waiting? && s.owner == Nobody)
  {
    RunKeeps(actions);
    FailureIsFinal(actions);
  }

  /** Steps both threads have left. */
  function Remaining(s: State): nat {
    (match s.starter
     case Lock => 6 case Spawn => 5 case Wait => 4 case Waiting => 3
     case Relock => 2 case Unlock => 1 case Returned => 0)
    + (match s.poller
       case Unborn => 8 case PollerLock => 7 case BindSend => 6 case BindCtrl => 5 case PushSend => 4
       case PushCtrl => 3 case PollerUnlock => 2 case Notify => 1 case Polling => 0 case Failed => 0)
  }

  /** Every run is finite: no run without spurious wakeups has more than fourteen steps. */
  lemma {:induction false} RunsEnd(actions: seq<Action>)
    requires Run(actions).Some? && Spurious !in actions
    ensures |actions| + Remaining(Run(actions).value) <= 14
    decreases |actions|
  {
    if actions != [] {
      var last := |actions| - 1;
      RunsEnd(actions[..last]);
      RunKeeps(actions[..last]);
    }
  }

  // ---------- With them ----------

  /** The wait has no predicate: one spurious wakeup lets startup return before anything is set up. */
  lemma SpuriousReturnsEarly()
    ensures var actions := [StarterStep, StarterStep, StarterStep] + [Spurious, StarterStep, StarterStep];
            && Run(actions).Some? && Run(actions).value.starter.Returned?
            && Run(actions).value.items == []
  {
    var none: seq<Action> := [];
    RunNext(none, StarterStep);
    RunNext([StarterStep], StarterStep);
    RunNext([StarterStep, StarterStep], StarterStep);
    var waiting := [StarterStep, StarterStep, StarterStep];
    assert waiting == [StarterStep, StarterStep] + [StarterStep];
    assert Run(waiting) == Some(State(Nobody, Waiting, PollerLock, [], false));
    EarlyReturn(waiting);
  }

  /** From any wait while the mutex is free, a spurious wakeup lets startup return with whatever is there by then. */
  lemma EarlyReturn(waiting: seq<Action>)
    requires Run(waiting).Some? && Run(waiting).value.starter.Waiting? && Run(waiting).value.owner == Nobody
    ensures Run(waiting + [Spurious, StarterStep, StarterStep])
         == Some(Run(waiting).value.(starter := Returned))
  {
    RunNext(waiting, Spurious);
    RunNext(waiting + [Spurious], StarterStep);
    assert waiting + [Spurious, StarterStep] == waiting + [Spurious] + [StarterStep];
    RunNext(waiting + [Spurious, StarterStep], StarterStep);
    assert waiting + [Spurious, StarterStep, StarterStep] == waiting + [Spurious, StarterStep] + [StarterStep];
  }

  lemma RunNext(actions: seq<Action>, a: Action)
    requires Run(actions).Some? && Enabled(Run(actions).value, a)
    ensures Run(actions + [a]) == Some(Step(Run(actions).value, a))
  {
    assert (actions + [a])[..|actions|] == actions;
  }
}
