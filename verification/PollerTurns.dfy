/**
 Which items a turn of the poll loop handles and in which order, in terms of what polling
 found ready: libhdk/channel/impl/socket_poller_zmq.cpp, thread_poll.
 */
module PollerTurns {
  import opened Bytes
  import opened PollerState
  import opened PollerRuns
  import opened PollerLife

  // ---------- Order ----------

  /** The place in the vector of the item an input was read from. */
  ghost function Place<P>(items: seq<Handle>, input: Input<P>): nat {
    match Touched(input)
    case Some(h) => ItemPosition(items, h)
    case None => 0
  }

  /** Messages and events come in the order of their items, each item once. */
  ghost predicate InItemOrder<P>(items: seq<Handle>, inputs: seq<Input<P>>) {
    && (forall k :: 0 <= k < |inputs| ==> inputs[k].Data? || inputs[k].Monitor?)
    && (forall j, k :: 0 <= j < k < |inputs| ==> Place(items, inputs[j]) < Place(items, inputs[k]))
  }

  lemma PlaceOf(items: seq<Handle>, i: nat)
    requires i < |items|
    requires forall j, k :: 0 <= j < k < |items| ==> items[j] != items[k]
    ensures ItemPosition(items, items[i]) == i
  {
  }

  /** The inputs lie between two places of the vector. */
  ghost predicate Among<P>(items: seq<Handle>, inputs: seq<Input<P>>, low: nat, high: nat) {
    forall k :: 0 <= k < |inputs| ==> low <= Place(items, inputs[k]) < high
  }

  lemma OrdersJoin<P>(items: seq<Handle>, x: seq<Input<P>>, y: seq<Input<P>>, low: nat, middle: nat, high: nat)
    requires InItemOrder(items, x) && Among(items, x, low, middle)
    requires InItemOrder(items, y) && Among(items, y, middle, high)
    requires low <= middle <= high
    ensures InItemOrder(items, x + y) && Among(items, x + y, low, high)
  {
    hide Place;
  }

  lemma OneInOrder<P>(items: seq<Handle>, x: seq<Input<P>>, i: nat)
    requires |x| <= 1 && i < |items|
    requires x != [] ==> (x[0].Data? || x[0].Monitor?) && Touched(x[0]) == Some(items[i])
    requires forall j, k :: 0 <= j < k < |items| ==> items[j] != items[k]
    ensures InItemOrder(items, x) && Among(items, x, i, i + 1)
  {
    hide ItemPosition;
    PlaceOf(items, i);
  }

  /** In front of each pair's events come its messages, and both in front of later pairs. */
  lemma {:induction false} PairsInOrder<P>(items: seq<Handle>, i: nat, polled: set<Handle>, a: Arrivals)
    requires i <= |items| && forall j, k :: 0 <= j < k < |items| ==> items[j] != items[k]
    ensures InItemOrder(items, PairInputs<P>(items, i, polled, a))
    ensures Among(items, PairInputs<P>(items, i, polled, a), i, |items|)
    decreases |items| - i
  {
    hide InItemOrder, Among;
    if i + 1 < |items| {
      var x: seq<Input<P>> := if items[i] in polled then [Data(items[i], a.packets(items[i]))] else [];
      var y: seq<Input<P>> :=
        if items[i + 1] in polled then [Monitor(items[i + 1], items[i], a.events(items[i + 1]))] else [];
      PairsInOrder<P>(items, i + 2, polled, a);
      OneInOrder(items, x, i);
      OneInOrder(items, y, i + 1);
      OrdersJoin(items, x, y, i, i + 1, i + 2);
      OrdersJoin(items, x + y, PairInputs<P>(items, i + 2, polled, a), i, i + 2, |items|);
    } else {
      NothingInOrder<P>(items, i);
    }
  }

  lemma NothingInOrder<P>(items: seq<Handle>, i: nat)
    ensures InItemOrder<P>(items, []) && Among<P>(items, [], i, |items|)
  {
  }

  // ---------- Whole turns ----------

  /** The requests a turn handles: the control request, and the send request unless the first ended the loop. */
  ghost function Requests<P>(s: State<P>, a: Arrivals, ctrl: Option<Input<P>>, send: Option<Input<P>>): seq<Input<P>> {
    var first := if s.ctrl in a.ready && ctrl.Some? then [ctrl.value] else [];
    var second := if s.send in a.ready && send.Some? then [send.value] else [];
    if PollerState.Run(s, first).running then first + second else first
  }

  /** The item is in the vector behind the first two. */
  ghost predicate InPairs(items: seq<Handle>, h: Handle) {
    exists k :: 2 <= k < |items| && items[k] == h
  }

  lemma RequestsTouchNothing<P>(s: State<P>, a: Arrivals, ctrl: Option<Input<P>>, send: Option<Input<P>>, h: Handle)
    requires ctrl.Some? ==> Control(ctrl.value)
    requires send.Some? ==> send.value.Send?
    ensures Occurrences(Requests(s, a, ctrl, send), h) == 0
  {
    hide PollerState.Run;
    var first := if s.ctrl in a.ready && ctrl.Some? then [ctrl.value] else [];
    var second := if s.send in a.ready && send.Some? then [send.value] else [];
    OccurrencesAppend(first, second, h);
  }

  lemma TurnIsRequestsThenPairs<P>(s: State<P>, a: Arrivals, ctrl: Option<Input<P>>, send: Option<Input<P>>)
    requires s.running && Inv(s)
    ensures |s.items| >= 2
    ensures var requests := Requests(s, a, ctrl, send);
            var t := PollerState.Run(s, requests);
            TurnInputs(s, a, ctrl, send)
              == requests + if t.running then PairInputs<P>(t.items, 2, Polled(s.items, a), a) else []
  {
    assert Shape(s);
    hide Layout, Step, PollerState.Run, PairInputs;
    var polled := Polled(s.items, a);
    var first, second := Prelude(s.items[1] in polled, ctrl), Prelude(s.items[0] in polled, send);
    RunAppend(s, first, second);
    assert first + [] == first;
    assert PollerState.Run(PollerState.Run(s, first), []) == PollerState.Run(s, first) by {
      RunNone(PollerState.Run(s, first));
    }
  }

  /**
   First the pending requests, control before send. If they leave the loop alive, then every
   item that was found ready and is still in the vector, exactly once and in the order of the
   vector, and nothing else.
   */
  ghost predicate HandlesReady<P>(
    s: State<P>, a: Arrivals, ctrl: Option<Input<P>>, send: Option<Input<P>>, inputs: seq<Input<P>>)
  {
    var requests := Requests(s, a, ctrl, send);
    var t := PollerState.Run(s, requests);
    && requests <= inputs
    && InItemOrder(t.items, inputs[|requests|..])
    && forall h :: Occurrences(inputs, h)
                   == if t.running && InPairs(t.items, h) && h in s.items && h in a.ready then 1 else 0
  }

  lemma RequestsComeFirst<P>(s: State<P>, a: Arrivals, ctrl: Option<Input<P>>, send: Option<Input<P>>)
    requires s.running && Inv(s) && |s.items| >= 2 && TurnLegal(s, a, ctrl, send)
    ensures var inputs, requests := TurnInputs(s, a, ctrl, send), Requests(s, a, ctrl, send);
            requests <= inputs && InItemOrder(PollerState.Run(s, requests).items, inputs[|requests|..])
  {
    hide Inv, Step, PairInputs, PollerState.Run, InItemOrder, Requests, TurnInputs, TurnLegal;
    var inputs, requests := TurnInputs(s, a, ctrl, send), Requests(s, a, ctrl, send);
    var t := PollerState.Run(s, requests);
    var pairs := if t.running then PairInputs<P>(t.items, 2, Polled(s.items, a), a) else [];
    TurnIsRequestsThenPairs(s, a, ctrl, send);
    assert inputs == requests + pairs && inputs[|requests|..] == pairs;
    if t.running {
      AliveAfterRequests(s, a, ctrl, send);
      PairsInOrder<P>(t.items, 2, Polled(s.items, a), a);
    } else {
      NothingInOrder<P>(t.items, 0);
    }
  }

  lemma EachReadyOnce<P>(s: State<P>, a: Arrivals, ctrl: Option<Input<P>>, send: Option<Input<P>>, h: Handle)
    requires s.running && Inv(s) && |s.items| >= 2 && TurnLegal(s, a, ctrl, send)
    requires ctrl.Some? ==> Control(ctrl.value)
    requires send.Some? ==> send.value.Send?
    ensures var t := PollerState.Run(s, Requests(s, a, ctrl, send));
            Occurrences(TurnInputs(s, a, ctrl, send), h)
            == if t.running && InPairs(t.items, h) && h in s.items && h in a.ready then 1 else 0
  {
    hide Inv, Step, PairInputs, PollerState.Run, Occurrences, Requests, TurnInputs, TurnLegal;
    var requests := Requests(s, a, ctrl, send);
    var t := PollerState.Run(s, requests);
    TurnIsRequestsThenPairs(s, a, ctrl, send);
    RequestsTouchNothing(s, a, ctrl, send, h);
    OccurrencesAppend(requests, if t.running then PairInputs<P>(t.items, 2, Polled(s.items, a), a) else [], h);
    NothingTouched<P>(h);
    if t.running {
      AliveAfterRequests(s, a, ctrl, send);
      TurnHandlesOnce(t, Polled(s.items, a), a, h);
    }
  }

  /** What a legal turn handles. */
  lemma TurnHandlesReady<P>(s: State<P>, a: Arrivals, ctrl: Option<Input<P>>, send: Option<Input<P>>)
    requires s.running && Inv(s) && |s.items| >= 2 && TurnLegal(s, a, ctrl, send)
    requires ctrl.Some? ==> Control(ctrl.value)
    requires send.Some? ==> send.value.Send?
    ensures HandlesReady(s, a, ctrl, send, TurnInputs(s, a, ctrl, send))
  {
    hide Inv, Step, TurnLegal, TurnInputs, Requests, PollerState.Run, Occurrences, InItemOrder, InPairs;
    RequestsComeFirst(s, a, ctrl, send);
    forall h ensures var t := PollerState.Run(s, Requests(s, a, ctrl, send));
      Occurrences(TurnInputs(s, a, ctrl, send), h)
      == if t.running && InPairs(t.items, h) && h in s.items && h in a.ready then 1 else 0
    {
      EachReadyOnce(s, a, ctrl, send, h);
    }
  }

  lemma AliveAfterRequests<P>(s: State<P>, a: Arrivals, ctrl: Option<Input<P>>, send: Option<Input<P>>)
    requires s.running && Inv(s) && |s.items| >= 2 && TurnLegal(s, a, ctrl, send)
    requires PollerState.Run(s, Requests(s, a, ctrl, send)).running
    ensures Inv(PollerState.Run(s, Requests(s, a, ctrl, send)))
    ensures var items := PollerState.Run(s, Requests(s, a, ctrl, send)).items;
            && |items| >= 2 && (forall j, k :: 0 <= j < k < |items| ==> items[j] != items[k])
            && forall h :: h in items[2..] <==> InPairs(items, h)
  {
    hide Step, Legal, SoundArrivals, PollerState.Run;
    TurnIsRequestsThenPairs(s, a, ctrl, send);
    TurnLegalRun(s, a, ctrl, send);
    var requests := Requests(s, a, ctrl, send);
    LegalRunAppend(s, requests, TurnInputs(s, a, ctrl, send)[|requests|..]);
    assert TurnInputs(s, a, ctrl, send) == requests + TurnInputs(s, a, ctrl, send)[|requests|..];
    RunKeeps(s, requests);
    var t := PollerState.Run(s, requests);
    assert Shape(t);
    assert forall h :: InPairs(t.items, h) ==> h in t.items[2..];
  }
}
