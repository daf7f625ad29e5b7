/**
 The peer list of libhdk/channel/impl/socket_info_zmq.hpp and its derived connected flag,
 over every sequence of handshakes and disconnects.
 */
module Peers {
  import opened Bytes

  datatype Peer = Peer(id: bytes, address: bytes, fd: int)

  /** The list and the flag kept beside it. */
  datatype View = View(peers: seq<Peer>, connected: bool)

  const NOBODY: View := View([], false)

  // ---------- The operations ----------

  function Adding(v: View, p: Peer): View {
    View(v.peers + [p], v.peers == [] || v.connected)
  }

  /** Index of the first peer that passes the test, or the length of the list. */
  function First(peers: seq<Peer>, test: Peer -> bool): (i: nat)
    ensures i <= |peers|
    ensures i < |peers| ==> test(peers[i])
    ensures forall j :: 0 <= j < i ==> !test(peers[j])
  {
    if peers == [] || test(peers[0]) then 0 else 1 + First(peers[1..], test)
  }

  function Without(peers: seq<Peer>, i: nat): seq<Peer> {
    if i < |peers| then peers[..i] + peers[i + 1..] else peers
  }

  function Removing(v: View, test: Peer -> bool): View {
    var rest := Without(v.peers, First(v.peers, test));
    View(rest, rest != [] && v.connected)
  }

  function WithFd(fd: int): Peer -> bool {
    (p: Peer) => p.fd == fd
  }

  // ---------- Runs ----------

  datatype Event = Handshake(peer: Peer) | Disconnect(fd: int)

  function Apply(v: View, e: Event): View {
    match e
    case Handshake(p) => Adding(v, p)
    case Disconnect(fd) => Removing(v, WithFd(fd))
  }

  function Run(events: seq<Event>): View
    decreases |events|
  {
    if events == [] then NOBODY else Apply(Run(events[..|events| - 1]), events[|events| - 1])
  }

  /** The handshakes that no later event disconnects, in arrival order. */
  function Outstanding(events: seq<Event>): seq<Peer> {
    if events == [] then []
    else (match events[0]
          case Handshake(p) => if Disconnect(p.fd) in events[1..] then [] else [p]
          case Disconnect(_) => [])
         + Outstanding(events[1..])
  }

  function Sharing(peers: seq<Peer>, fd: int): nat {
    if peers == [] then 0 else (if peers[0].fd == fd then 1 else 0) + Sharing(peers[1..], fd)
  }

  /** No disconnect arrives while two outstanding connections share its descriptor. */
  ghost predicate Unambiguous(events: seq<Event>) {
    forall i :: 0 <= i < |events| && events[i].Disconnect? ==> Sharing(Outstanding(events[..i]), events[i].fd) <= 1
  }

  /** The stronger promise of the transport: live connections have distinct descriptors. */
  ghost predicate DistinctDescriptors(events: seq<Event>) {
    forall i :: 0 <= i < |events| && events[i].Handshake? ==>
      Sharing(Outstanding(events[..i]), events[i].peer.fd) == 0
  }

  // ---------- Proofs ----------

  function Dropping(peers: seq<Peer>, fd: int): seq<Peer> {
    if peers == [] then [] else (if peers[0].fd == fd then [] else [peers[0]]) + Dropping(peers[1..], fd)
  }

  lemma {:induction false} OutstandingHandshake(events: seq<Event>, p: Peer)
    ensures Outstanding(events + [Handshake(p)]) == Outstanding(events) + [p]
  {
    if events == [] {
      assert (events + [Handshake(p)])[1..] == [];
    } else {
      assert (events + [Handshake(p)])[1..] == events[1..] + [Handshake(p)];
      OutstandingHandshake(events[1..], p);
    }
  }

  lemma {:induction false} OutstandingDisconnect(events: seq<Event>, fd: int)
    ensures Outstanding(events + [Disconnect(fd)]) == Dropping(Outstanding(events), fd)
  {
    var e := Disconnect(fd);
    if events == [] {
      assert (events + [e])[1..] == [];
    } else {
      assert (events + [e])[1..] == events[1..] + [e];
      OutstandingDisconnect(events[1..], fd);
      var tail := Outstanding(events[1..]);
      if events[0].Handshake? && Disconnect(events[0].peer.fd) !in events[1..] {
        var p := events[0].peer;
        assert ([p] + tail)[1..] == tail;
        assert Disconnect(p.fd) in events[1..] + [e] <==> p.fd == fd;
      } else {
        assert [] + tail == tail;
        if events[0].Handshake? {
          assert Disconnect(events[0].peer.fd) in events[1..] + [e];
        }
        assert [] + Dropping(tail, fd) == Dropping(tail, fd);
      }
    }
  }

  lemma {:induction false} DroppingNone(peers: seq<Peer>, fd: int)
    requires Sharing(peers, fd) == 0
    ensures Dropping(peers, fd) == peers
  {
    if peers != [] {
      DroppingNone(peers[1..], fd);
    }
  }

  lemma {:induction false} DroppingLength(peers: seq<Peer>, fd: int)
    ensures |Dropping(peers, fd)| + Sharing(peers, fd) == |peers|
  {
    if peers != [] {
      DroppingLength(peers[1..], fd);
    }
  }

  lemma WithoutCons(p: Peer, tail: seq<Peer>, i: nat)
    ensures Without([p] + tail, i + 1) == [p] + Without(tail, i)
    ensures Without([p] + tail, 0) == tail
  {
    if i < |tail| {
      assert ([p] + tail)[..i + 1] == [p] + tail[..i];
      assert ([p] + tail)[i + 2..] == tail[i + 1..];
      AppendAssociates([p], tail[..i], tail[i + 1..]);
    }
  }

  lemma FirstUnfold(peers: seq<Peer>, fd: int)
    requires peers != []
    ensures First(peers, WithFd(fd)) == if peers[0].fd == fd then 0 else 1 + First(peers[1..], WithFd(fd))
  {
  }

  lemma {:induction false} RemovingOne(peers: seq<Peer>, fd: int)
    requires Sharing(peers, fd) <= 1
    ensures Without(peers, First(peers, WithFd(fd))) == Dropping(peers, fd)
  {
    if peers != [] {
      FirstUnfold(peers, fd);
      var tail := peers[1..];
      var rest := First(tail, WithFd(fd));
      WithoutCons(peers[0], tail, rest);
      hide First, Without;
      assert peers == [peers[0]] + tail;
      if peers[0].fd == fd {
        DroppingNone(tail, fd);
      } else {
        RemovingOne(tail, fd);
      }
    }
  }

  /** The flag is never out of step with the list. */
  lemma {:induction false} ConnectedMeansPeers(events: seq<Event>)
    ensures Run(events).connected <==> Run(events).peers != []
    decreases |events|
  {
    if events != [] {
      ConnectedMeansPeers(events[..|events| - 1]);
    }
  }

  ghost predicate Tracks(events: seq<Event>) {
    Run(events).peers == Outstanding(events)
  }

  /** One event keeps the list right, if and only if a disconnect names at most one peer. */
  lemma TracksNext(events: seq<Event>, e: Event)
    requires Tracks(events)
    ensures Tracks(events + [e]) <==> (e.Disconnect? ==> Sharing(Outstanding(events), e.fd) <= 1)
  {
    assert (events + [e])[..|events|] == events;
    var live := Outstanding(events);
    match e
    case Handshake(p) =>
      OutstandingHandshake(events, p);
    case Disconnect(fd) =>
      OutstandingDisconnect(events, fd);
      DroppingLength(live, fd);
      if Sharing(live, fd) <= 1 {
        RemovingOne(live, fd);
      }
  }

  /**
   The list is the outstanding handshakes throughout a run exactly when no disconnect is
   ambiguous.
   */
  lemma {:induction false} TracksThroughout(events: seq<Event>)
    ensures Unambiguous(events) <==> forall n :: 0 <= n <= |events| ==> Tracks(events[..n])
    decreases |events|
  {
    hide Run, Outstanding, Sharing, Tracks, Unambiguous;
    if events == [] {
      TracksNothing();
      assert forall n :: 0 <= n <= |events| ==> events[..n] == [];
    } else {
      var before, e := events[..|events| - 1], events[|events| - 1];
      assert events == before + [e] && events[..|events|] == events;
      assert forall n :: 0 <= n <= |before| ==> events[..n] == before[..n];
      assert before[..|before|] == before;
      TracksThroughout(before);
      if Tracks(before) {
        TracksNext(before, e);
      }
      UnambiguousNext(before, e);
    }
  }

  lemma TracksNothing()
    ensures Unambiguous([]) && Tracks([])
  {
  }

  lemma UnambiguousNext(before: seq<Event>, e: Event)
    ensures Unambiguous(before + [e]) <==>
              Unambiguous(before) && (e.Disconnect? ==> Sharing(Outstanding(before), e.fd) <= 1)
  {
    hide Outstanding, Sharing;
    var events := before + [e];
    assert events[|before|] == e && events[..|before|] == before;
    assert forall i :: 0 <= i < |before| ==> events[i] == before[i] && events[..i] == before[..i];
  }

  /** What a server sees, given that live connections have distinct descriptors. */
  lemma DistinctAreUnambiguous(events: seq<Event>)
    requires DistinctDescriptors(events)
    ensures Unambiguous(events)
  {
    forall i | 0 <= i < |events| && events[i].Disconnect?
      ensures Sharing(Outstanding(events[..i]), events[i].fd) <= 1
    {
      AtMostOne(events, i, events[i].fd);
    }
  }

  lemma {:induction false} AtMostOne(events: seq<Event>, n: nat, fd: int)
    requires n <= |events| && DistinctDescriptors(events)
    ensures Sharing(Outstanding(events[..n]), fd) <= 1
  {
    if n > 0 {
      AtMostOne(events, n - 1, fd);
      var before, e := events[..n - 1], events[n - 1];
      assert events[..n] == before + [e];
      match e
      case Handshake(p) =>
        OutstandingHandshake(before, p);
        SharingSnoc(Outstanding(before), p, fd);
      case Disconnect(other) =>
        OutstandingDisconnect(before, other);
        SharingDropping(Outstanding(before), other, fd);
    }
  }

  lemma {:induction false} SharingSnoc(peers: seq<Peer>, p: Peer, fd: int)
    ensures Sharing(peers + [p], fd) == Sharing(peers, fd) + if p.fd == fd then 1 else 0
  {
    if peers == [] {
      assert peers + [p] == [p];
    } else {
      assert (peers + [p])[1..] == peers[1..] + [p];
      SharingSnoc(peers[1..], p, fd);
    }
  }

  lemma {:induction false} SharingDropping(peers: seq<Peer>, other: int, fd: int)
    ensures Sharing(Dropping(peers, other), fd) <= Sharing(peers, fd)
  {
    if peers != [] {
      SharingDropping(peers[1..], other, fd);
      if peers[0].fd != other {
        assert ([peers[0]] + Dropping(peers[1..], other))[1..] == Dropping(peers[1..], other);
      } else {
        assert [] + Dropping(peers[1..], other) == Dropping(peers[1..], other);
      }
    }
  }

  /** The peer list of an open server is exactly its outstanding handshakes. */
  lemma ServerPeers(events: seq<Event>)
    requires DistinctDescriptors(events)
    ensures Run(events) == View(Outstanding(events), Outstanding(events) != [])
  {
    DistinctAreUnambiguous(events);
    TracksThroughout(events);
    assert events[..|events|] == events;
    ConnectedMeansPeers(events);
  }

  /** Without that, a disconnect may drop the wrong peer: only the first one goes. */
  lemma SharedDescriptorMisleads(a: Peer, b: Peer)
    requires a.fd == b.fd
    ensures Outstanding([Handshake(a), Handshake(b), Disconnect(a.fd)]) == []
    ensures Run([Handshake(a), Handshake(b), Disconnect(a.fd)]).peers == [b]
  {
    var events := [Handshake(a), Handshake(b), Disconnect(a.fd)];
    assert events[1..] == [Handshake(b), Disconnect(a.fd)] && events[1..][1..] == [Disconnect(a.fd)];
    assert Disconnect(b.fd) in [Disconnect(a.fd)] && Disconnect(a.fd) in events[1..];
    assert Outstanding(events[1..][1..]) == [];
    var two := events[..2];
    assert two == [Handshake(a), Handshake(b)] && two[..1] == [Handshake(a)] && two[..1][..0] == [];
    assert Run(two[..1]).peers == [a];
    assert Run(two).peers == [a, b];
    assert First([a, b], WithFd(a.fd)) == 0;
  }
}
