/**
 What brokers are told of connections, over whole runs: the status messages a record has
 posted since it was created or last closed, against the greetings it got and the
 disconnects its monitor reported (libhdk/channel/impl/socket_poller_zmq.cpp).
 */
module PollerNews {
  import opened Bytes
  import opened Peers
  import opened PollerState
  import opened PollerRuns
  import opened PollerLife

  /** What a record learns of its connections. */
  datatype News = Greeting(peer: Peer) | Up(address: bytes) | Lost(fd: int, address: bytes)

  function NewsFrom<P>(info: Info<P>, input: Input<P>): seq<News> {
    match input
    case Data(_, Some(packet)) =>
      var greeting := HandshakeOf(info, packet);
      if greeting == [] then [] else [Greeting(greeting[0].peer)]
    case Monitor(_, _, Connected(address)) => [Up(address)]
    case Monitor(_, _, Disconnected(fd, address)) => [Lost(fd, address)]
    case _ => []
  }

  function Statuses(outputs: seq<Output>): seq<Output> {
    if outputs == [] then []
    else (if outputs[0].PostStatus? then [outputs[0]] else []) + Statuses(outputs[1..])
  }

  /** The input is a message or an event for the record. */
  predicate Concerns<P(==)>(s: State<P>, input: Input<P>, id: P) {
    (input.Data? || input.Monitor?) && OwnerId(s, input.handle) == Some(id)
  }

  /** Notes about a record are begun anew when it is created, closed or removed. */
  function Noted<P(==), T>(s: State<P>, input: Input<P>, id: P, before: seq<T>, more: seq<T>): seq<T> {
    if (input.Create? || input.Close? || input.Remove?) && input.id == id then []
    else if Concerns(s, input, id) then before + more
    else before
  }

  datatype Notes = Notes(news: seq<News>, told: seq<Output>)

  const NO_NOTES: Notes := Notes([], [])

  /** The news of the record, and the statuses posted about it. */
  function NotesNext<P(==)>(s: State<P>, input: Input<P>, id: P, before: Notes): Notes {
    if !s.running then before
    else
      var k := if Concerns(s, input, id) then Owner(s.sockets, input.handle) else 0;
      var news := if Concerns(s, input, id) then NewsFrom(s.sockets[k], input) else [];
      Notes(Noted(s, input, id, before.news, news), Noted(s, input, id, before.told, Statuses(Step(s, input).outputs)))
  }

  function NotesOf<P(==)>(s: State<P>, inputs: seq<Input<P>>, id: P, before: Notes): Notes
    decreases inputs
  {
    if inputs == [] then before
    else NotesOf(Step(s, inputs[0]).state, inputs[1..], id, NotesNext(s, inputs[0], id, before))
  }

  // ---------- What the news amount to ----------

  function ViewNext(kind: Kind, v: View, n: News): View {
    match n
    case Greeting(p) => Adding(v, p)
    case Up(_) => v.(connected := true)
    case Lost(fd, _) => if kind.Router? then Removing(v, WithFd(fd)) else v.(connected := false)
  }

  function ViewAfter(kind: Kind, news: seq<News>): View
    decreases |news|
  {
    if news == [] then NOBODY else ViewNext(kind, ViewAfter(kind, news[..|news| - 1]), news[|news| - 1])
  }

  function Announcement(name: bytes, kind: Kind, v: View, n: News): Output {
    match n
    case Greeting(p) => PostStatus(true, name, p.id, p.address)
    case Up(address) => PostStatus(true, name, [], address)
    case Lost(fd, address) =>
      if kind.Router? then PostStatus(false, name, Departed(v, fd).id, Departed(v, fd).address)
      else PostStatus(false, name, [], address)
  }

  function Announcements(name: bytes, kind: Kind, news: seq<News>): seq<Output>
    decreases |news|
  {
    if news == [] then []
    else
      var before := news[..|news| - 1];
      Announcements(name, kind, before) + [Announcement(name, kind, ViewAfter(kind, before), news[|news| - 1])]
  }

  /** While the loop runs, a record's view and the statuses posted about it are what its news amount to. */
  ghost predicate Tells<P>(info: Info<P>, notes: Notes) {
    && info.view == ViewAfter(info.kind, notes.news)
    && notes.told == Announcements(info.name, info.kind, notes.news)
    && (info.kind.Router? ==> forall n :: n in notes.news ==> !n.Up?)
  }

  ghost predicate AllTells<P>(s: State<P>, id: P, notes: Notes) {
    s.running && Lookup(s, id).Some? ==> Tells(Lookup(s, id).value, notes)
  }

  lemma ConcernedIs<P>(s: State<P>, input: Input<P>, id: P)
    requires Records(s) && Lookup(s, id).Some?
    ensures Concerns(s, input, id)
            <==> (input.Data? || input.Monitor?) && Lookup(s, id).value.socket == Some(input.handle)
    ensures Concerns(s, input, id) ==>
              Owner(s.sockets, input.handle) < |s.sockets|
              && s.sockets[Owner(s.sockets, input.handle)] == Lookup(s, id).value
  {
    var k := Position(s.sockets, id);
    if (input.Data? || input.Monitor?) && s.sockets[k].socket == Some(input.handle) {
      OwnerIs(s, k);
    }
    if Concerns(s, input, id) {
      PositionIs(s.sockets, id, Owner(s.sockets, input.handle));
    }
  }

  /** What a record makes of a message or an event, and what it posts. */
  function Handled<P>(info: Info<P>, input: Input<P>): (Info<P>, seq<Output>) {
    match input
    case Data(_, Some(packet)) => Receive(info, packet)
    case Monitor(_, _, event) => Observe(info, event)
    case _ => (info, [])
  }

  lemma TellsMore<P>(info: Info<P>, notes: Notes, n: News, next: Info<P>)
    requires Tells(info, notes) && (info.kind.Router? ==> !n.Up?)
    requires next.name == info.name && next.kind == info.kind && next.view == ViewNext(info.kind, info.view, n)
    ensures Tells(next, Notes(notes.news + [n], notes.told + [Announcement(info.name, info.kind, info.view, n)]))
  {
    hide ViewNext, Announcement;
    var more := notes.news + [n];
    assert more[..|more| - 1] == notes.news && more[|more| - 1] == n;
  }

  lemma HandledSilent<P>(info: Info<P>, input: Input<P>)
    requires NewsFrom(info, input) == []
    ensures Handled(info, input).0 == info && Statuses(Handled(info, input).1) == []
  {
    hide WellFormedPacket, ReadU32;
  }

  lemma HandledNews<P>(info: Info<P>, input: Input<P>)
    requires NewsFrom(info, input) != []
    ensures var (next, outputs), n := Handled(info, input), NewsFrom(info, input)[0];
            && NewsFrom(info, input) == [n]
            && next.name == info.name && next.kind == info.kind && next.view == ViewNext(info.kind, info.view, n)
            && Statuses(outputs) == [Announcement(info.name, info.kind, info.view, n)]
            && (n.Up? ==> input.Monitor? && input.event.Connected?)
  {
    hide WellFormedPacket, ReadU32, Removing, Departed, Adding;
    StatusOnly(Handled(info, input).1);
  }

  lemma StatusOnly(outputs: seq<Output>)
    ensures |outputs| == 1 && outputs[0].PostStatus? ==> Statuses(outputs) == outputs
    ensures |outputs| == 2 && outputs[0].Transmit? && outputs[1].PostStatus? ==> Statuses(outputs) == [outputs[1]]
  {
    if |outputs| == 2 {
      assert outputs[1..] == [outputs[1]] && outputs[1..][1..] == [];
    }
  }

  lemma HandledTells<P>(info: Info<P>, input: Input<P>, notes: Notes)
    requires Tells(info, notes)
    requires input.Monitor? && input.event.Connected? ==> info.kind.Dealer?
    ensures var (next, outputs) := Handled(info, input);
            Tells(next, Notes(notes.news + NewsFrom(info, input), notes.told + Statuses(outputs)))
  {
    hide Tells, Handled, Statuses, NewsFrom, ViewNext, Announcement;
    if NewsFrom(info, input) == [] {
      HandledSilent(info, input);
      assert notes.news + [] == notes.news && notes.told + [] == notes.told;
    } else {
      HandledNews(info, input);
      TellsMore(info, notes, NewsFrom(info, input)[0], Handled(info, input).0);
    }
  }

  lemma ConcernedStep<P>(s: State<P>, input: Input<P>, id: P)
    requires s.running && Records(s) && Legal(s, input) && Lookup(s, id).Some? && Concerns(s, input, id)
    ensures var (next, outputs) := Handled(Lookup(s, id).value, input);
            RecordAfter(Lookup(s, id).value, input) == next && Step(s, input).outputs == outputs
  {
    hide Receive, Observe;
    ConcernedIs(s, input, id);
  }

  lemma TellsNext<P>(s: State<P>, input: Input<P>, id: P, notes: Notes)
    requires Inv(s) && Legal(s, input) && AllTells(s, id, notes)
    ensures AllTells(Step(s, input).state, id, NotesNext(s, input, id, notes))
  {
    if s.running {
      LayoutRecords(s);
      hide Layout, Tells, Step, Handled, Statuses, NewsFrom, Records, RecordAfter, Legal;
      LookupStep(s, input, id);
      if input.Create? {
        NobodyTells(Blank(id, input.name, input.kind));
      } else if Lookup(s, id).Some? && !input.Remove? {
        LookupId(s, id);
        KnownTellsNext(s, input, id, notes);
      }
    }
  }

  lemma KnownTellsNext<P>(s: State<P>, input: Input<P>, id: P, notes: Notes)
    requires s.running && Records(s) && Legal(s, input) && Lookup(s, id).Some? && Tells(Lookup(s, id).value, notes)
    requires !input.Create? && !input.Remove? && Lookup(s, id).value.id == id
    ensures Tells(RecordAfter(Lookup(s, id).value, input), NotesNext(s, input, id, notes))
  {
    hide Tells, Step, Handled, Statuses, NewsFrom, Records, RecordAfter, Legal, Lookup;
    var info := Lookup(s, id).value;
    ConcernedIs(s, input, id);
    if Concerns(s, input, id) {
      ConcernedStep(s, input, id);
      ConnectedIsDealer(s, input, id);
      HandledTells(info, input, notes);
    } else {
      UnconcernedTells(info, input, notes);
    }
  }

  lemma ConnectedIsDealer<P>(s: State<P>, input: Input<P>, id: P)
    requires Records(s) && Legal(s, input) && Lookup(s, id).Some? && Concerns(s, input, id)
    ensures input.Monitor? && input.event.Connected? ==> Lookup(s, id).value.kind.Dealer?
  {
    ConcernedIs(s, input, id);
  }

  lemma NobodyTells<P>(info: Info<P>)
    requires info.view == NOBODY
    ensures Tells(info, NO_NOTES)
  {
  }

  /** A step that is not for the record leaves what it tells alone, unless it closes it. */
  lemma UnconcernedTells<P>(info: Info<P>, input: Input<P>, notes: Notes)
    requires Tells(info, notes) && !input.Create? && !input.Remove?
    requires (input.Data? || input.Monitor?) ==> info.socket != Some(input.handle)
    ensures Tells(RecordAfter(info, input), if input == Close(info.id) then NO_NOTES else notes)
  {
    hide Receive, Observe, Announcements, ViewAfter;
    NobodyTells(CloseInfo(info));
  }

  lemma {:induction false} TellsRun<P>(s: State<P>, inputs: seq<Input<P>>, id: P, notes: Notes)
    requires Inv(s) && LegalRun(s, inputs) && AllTells(s, id, notes)
    ensures AllTells(PollerState.Run(s, inputs), id, NotesOf(s, inputs, id, notes))
    decreases inputs
  {
    if inputs != [] {
      hide Layout, Step, Legal, AllTells, NotesNext;
      TellsNext(s, inputs[0], id, notes);
      StepKeeps(s, inputs[0]);
      TellsRun(Step(s, inputs[0]).state, inputs[1..], id, NotesNext(s, inputs[0], id, notes));
    }
  }

  lemma TellsEveryRun<P>(send: Handle, ctrl: Handle, inputs: seq<Input<P>>, id: P)
    requires send != ctrl && LegalRun(Initial<P>(send, ctrl), inputs)
    ensures AllTells(PollerState.Run(Initial<P>(send, ctrl), inputs), id,
                     NotesOf(Initial<P>(send, ctrl), inputs, id, NO_NOTES))
  {
    TellsRun(Initial<P>(send, ctrl), inputs, id, NO_NOTES);
  }

  // ---------- Servers ----------

  datatype Contact = Contact(id: bytes, address: bytes)

  function ContactOf(p: Peer): Contact {
    Contact(p.id, p.address)
  }

  function ContactsOf(peers: seq<Peer>): multiset<Contact> {
    if peers == [] then multiset{} else multiset{ContactOf(peers[0])} + ContactsOf(peers[1..])
  }

  /** Who has been announced as connected and not yet as gone. */
  function Announced(told: seq<Output>): multiset<Contact>
    decreases |told|
  {
    if told == [] then multiset{}
    else
      var before := Announced(told[..|told| - 1]);
      match told[|told| - 1]
      case PostStatus(connected, _, sender, address) =>
        if connected then before + multiset{Contact(sender, address)} else before - multiset{Contact(sender, address)}
      case _ => before
  }

  lemma AnnouncedNext(told: seq<Output>, connected: bool, name: bytes, sender: bytes, address: bytes)
    ensures Announced(told + [PostStatus(connected, name, sender, address)])
         == if connected then Announced(told) + multiset{Contact(sender, address)}
            else Announced(told) - multiset{Contact(sender, address)}
  {
    assert (told + [PostStatus(connected, name, sender, address)])[..|told|] == told;
  }

  lemma {:induction false} ContactsAppend(x: seq<Peer>, y: seq<Peer>)
    ensures ContactsOf(x + y) == ContactsOf(x) + ContactsOf(y)
  {
    if x == [] {
      assert x + y == y;
    } else {
      assert (x + y)[1..] == x[1..] + y;
      ContactsAppend(x[1..], y);
    }
  }

  lemma ContactsCons(p: Peer, tail: seq<Peer>)
    ensures ContactsOf([p] + tail) == multiset{ContactOf(p)} + ContactsOf(tail)
  {
    assert ([p] + tail)[1..] == tail;
  }

  lemma WithoutNext(peers: seq<Peer>, k: nat)
    requires 0 < k < |peers|
    ensures Peers.Without(peers, k) == [peers[0]] + Peers.Without(peers[1..], k - 1)
  {
  }

  lemma TakenFromSum(x: Contact, rest: multiset<Contact>, y: Contact)
    requires y in rest
    ensures multiset{x} + (rest - multiset{y}) == (multiset{x} + rest) - multiset{y}
  {
  }

  lemma {:induction false} ContactsWithout(peers: seq<Peer>, k: nat)
    requires k < |peers|
    ensures ContactOf(peers[k]) in ContactsOf(peers)
    ensures ContactsOf(Peers.Without(peers, k)) == ContactsOf(peers) - multiset{ContactOf(peers[k])}
  {
    hide ContactsOf, Peers.Without;
    var first, tail := peers[0], peers[1..];
    assert peers == [first] + tail;
    ContactsCons(first, tail);
    if k == 0 {
      WithoutFirst(peers);
    } else {
      WithoutNext(peers, k);
      ContactsWithout(tail, k - 1);
      ContactsCons(first, Peers.Without(tail, k - 1));
      TakenFromSum(ContactOf(first), ContactsOf(tail), ContactOf(peers[k]));
    }
  }

  lemma WithoutFirst(peers: seq<Peer>)
    requires peers != []
    ensures Peers.Without(peers, 0) == peers[1..]
  {
  }

  /** A disconnect that no listed peer is meant by is reported with a blank contact. */
  const BLANK: Contact := Contact([], [])

  ghost predicate SameButBlank(x: multiset<Contact>, y: multiset<Contact>) {
    forall c :: c != BLANK ==> x[c] == y[c]
  }

  lemma GoneOnce(told: multiset<Contact>, v: View, fd: int)
    requires SameButBlank(told, ContactsOf(v.peers))
    ensures SameButBlank(told - multiset{ContactOf(Departed(v, fd))}, ContactsOf(Removing(v, WithFd(fd)).peers))
  {
    hide ContactsOf, First;
    var k := First(v.peers, WithFd(fd));
    if k < |v.peers| {
      ContactsWithout(v.peers, k);
    }
  }

  lemma ComeOnce(told: multiset<Contact>, v: View, p: Peer)
    requires SameButBlank(told, ContactsOf(v.peers))
    ensures SameButBlank(told + multiset{ContactOf(p)}, ContactsOf(Adding(v, p).peers))
  {
    ContactsAppend(v.peers, [p]);
    assert [p][1..] == [];
  }

  lemma AnnouncementsNext(name: bytes, kind: Kind, news: seq<News>, n: News)
    ensures ViewAfter(kind, news + [n]) == ViewNext(kind, ViewAfter(kind, news), n)
    ensures Announcements(name, kind, news + [n])
         == Announcements(name, kind, news) + [Announcement(name, kind, ViewAfter(kind, news), n)]
  {
    assert (news + [n])[..|news|] == news;
  }

  lemma {:induction false} AnnouncedAreListed(name: bytes, news: seq<News>)
    requires forall n :: n in news ==> !n.Up?
    ensures SameButBlank(Announced(Announcements(name, Router, news)), ContactsOf(ViewAfter(Router, news).peers))
    decreases |news|
  {
    if news != [] {
      hide Announced, Announcements, ViewAfter, SameButBlank, ContactsOf, Departed, Removing, Adding;
      var before, n := news[..|news| - 1], news[|news| - 1];
      assert n in news && news == before + [n];
      AnnouncedAreListed(name, before);
      AnnouncementsNext(name, Router, before, n);
      var v, told := ViewAfter(Router, before), Announcements(name, Router, before);
      match n
      case Greeting(p) =>
        AnnouncedNext(told, true, name, p.id, p.address);
        ComeOnce(Announced(told), v, p);
      case Lost(fd, address) =>
        AnnouncedNext(told, false, name, Departed(v, fd).id, Departed(v, fd).address);
        GoneOnce(Announced(told), v, fd);
    } else {
      NobodyAnnounced(name);
    }
  }

  lemma NobodyAnnounced(name: bytes)
    ensures SameButBlank(Announced(Announcements(name, Router, [])), ContactsOf(ViewAfter(Router, []).peers))
  {
  }

  /**
   In every run, whoever a server has announced as connected and not yet as gone is exactly
   an outstanding handshake of its history, with that peer's identity and address; a closing
   ends the history without announcing anything.
   */
  lemma AnnouncedEveryRun<P>(send: Handle, ctrl: Handle, inputs: seq<Input<P>>, id: P)
    requires send != ctrl && LegalRun(Initial<P>(send, ctrl), inputs)
    requires DistinctDescriptors(History(Initial<P>(send, ctrl), inputs, id, []))
    ensures var s := PollerState.Run(Initial<P>(send, ctrl), inputs);
            var told := NotesOf(Initial<P>(send, ctrl), inputs, id, NO_NOTES).told;
            var live := Outstanding(History(Initial<P>(send, ctrl), inputs, id, []));
            var info := Lookup(s, id);
            s.running && info.Some? && info.value.kind.Router? ==> SameButBlank(Announced(told), ContactsOf(live))
  {
    hide Step, Outstanding, Announced, Announcements, ContactsOf, SameButBlank, ViewAfter, DistinctDescriptors;
    var s := PollerState.Run(Initial<P>(send, ctrl), inputs);
    var notes := NotesOf(Initial<P>(send, ctrl), inputs, id, NO_NOTES);
    TellsEveryRun(send, ctrl, inputs, id);
    ServerPeersEveryRun(send, ctrl, inputs, id);
    if s.running && Lookup(s, id).Some? && Lookup(s, id).value.kind.Router? {
      AnnouncedAreListed(Lookup(s, id).value.name, notes.news);
    }
  }

  /**
   In every run, the disconnect of an outstanding handshake is reported as such, with that
   peer's identity and address, and any other disconnect with a blank contact.
   */
  lemma DisconnectReported<P>(
    send: Handle, ctrl: Handle, inputs: seq<Input<P>>, id: P, m: Handle, h: Handle, fd: int, address: bytes)
    requires send != ctrl && LegalRun(Initial<P>(send, ctrl), inputs)
    requires DistinctDescriptors(History(Initial<P>(send, ctrl), inputs, id, []))
    requires var s := PollerState.Run(Initial<P>(send, ctrl), inputs);
             && s.running && Legal(s, Monitor(m, h, Disconnected(fd, address)))
             && Lookup(s, id).Some? && Lookup(s, id).value.kind.Router? && Lookup(s, id).value.socket == Some(h)
    ensures var s := PollerState.Run(Initial<P>(send, ctrl), inputs);
            var live := Outstanding(History(Initial<P>(send, ctrl), inputs, id, []));
            var outputs := Step(s, Monitor(m, h, Disconnected(fd, address))).outputs;
            var name := Lookup(s, id).value.name;
            && (forall p :: p in live && p.fd == fd ==> outputs == [PostStatus(false, name, p.id, p.address)])
            && ((forall p :: p in live ==> p.fd != fd) ==> outputs == [PostStatus(false, name, [], [])])
  {
    hide Layout, Step, DistinctDescriptors, Outstanding, Departed, Legal;
    var s := PollerState.Run(Initial<P>(send, ctrl), inputs);
    var events := History(Initial<P>(send, ctrl), inputs, id, []);
    var live, info := Outstanding(events), Lookup(s, id).value;
    ServerPeersEveryRun(send, ctrl, inputs, id);
    EveryRun(send, ctrl, inputs);
    LayoutRecords(s);
    ConcernedIs(s, Monitor(m, h, Disconnected(fd, address)), id);
    ConcernedStep(s, Monitor(m, h, Disconnected(fd, address)), id);
    AtMostOne(events, |events|, fd);
    assert events[..|events|] == events;
    DepartedIs(info.view, fd);
  }

  lemma {:induction false} SharedOnce(peers: seq<Peer>, j: nat, k: nat, fd: int)
    requires j < k < |peers| && peers[j].fd == fd && peers[k].fd == fd
    ensures Sharing(peers, fd) >= 2
  {
    if j == 0 {
      SharedAtAll(peers[1..], k - 1, fd);
    } else {
      SharedOnce(peers[1..], j - 1, k - 1, fd);
    }
  }

  lemma {:induction false} SharedAtAll(peers: seq<Peer>, k: nat, fd: int)
    requires k < |peers| && peers[k].fd == fd
    ensures Sharing(peers, fd) >= 1
  {
    if k > 0 {
      SharedAtAll(peers[1..], k - 1, fd);
    }
  }

  lemma DepartedIs(v: View, fd: int)
    requires Sharing(v.peers, fd) <= 1
    ensures forall p :: p in v.peers && p.fd == fd ==> Departed(v, fd) == p
    ensures (forall p :: p in v.peers ==> p.fd != fd) ==> Departed(v, fd) == Peer([], [], 0)
  {
    hide Sharing;
    var k := First(v.peers, WithFd(fd));
    forall p | p in v.peers && p.fd == fd ensures Departed(v, fd) == p {
      var j :| 0 <= j < |v.peers| && v.peers[j] == p;
      if k < j {
        SharedOnce(v.peers, k, j, fd);
      }
    }
  }

  // ---------- Clients ----------

  /** The news that make a client count as connected: a connection made, or the first greeting it gets. */
  ghost predicate Connects(news: seq<News>, k: nat) {
    k < |news| && (news[k].Up? || (news[k].Greeting? && forall j :: 0 <= j < k ==> !news[j].Greeting?))
  }

  ghost predicate ConnectedSince(news: seq<News>, k: nat) {
    Connects(news, k) && forall j :: k < j < |news| ==> !news[j].Lost?
  }

  ghost predicate Online(news: seq<News>) {
    exists k :: ConnectedSince(news, k)
  }

  lemma OnlineNext(news: seq<News>, n: News)
    ensures Online(news + [n]) <==>
              match n
              case Greeting(_) => Online(news) || forall j :: 0 <= j < |news| ==> !news[j].Greeting?
              case Up(_) => true
              case Lost(_, _) => false
  {
    var more := news + [n];
    assert more[|news|] == n && forall j :: 0 <= j < |news| ==> more[j] == news[j];
    if Online(news) && !n.Lost? {
      var k: nat :| ConnectedSince(news, k);
      assert ConnectedSince(more, k);
    }
    if Online(more) {
      var k: nat :| ConnectedSince(more, k);
      assert k < |news| ==> ConnectedSince(news, k);
    }
    if Connects(more, |news|) {
      assert ConnectedSince(more, |news|);
    }
  }

  lemma {:induction false} ClientAfter(name: bytes, news: seq<News>)
    ensures var v := ViewAfter(Dealer, news);
            && (v.connected <==> Online(news))
            && (v.peers == [] <==> forall j :: 0 <= j < |news| ==> !news[j].Greeting?)
    ensures var told := Announcements(name, Dealer, news);
            && |told| == |news|
            && forall j :: 0 <= j < |news| ==> told[j] == ClientStatus(name, news[j])
    decreases |news|
  {
    if news == [] {
      assert !Online(news);
    } else {
      hide Online;
      var before, n := news[..|news| - 1], news[|news| - 1];
      assert news == before + [n];
      ClientAfter(name, before);
      OnlineNext(before, n);
    }
  }

  function ClientStatus(name: bytes, n: News): Output {
    match n
    case Greeting(p) => PostStatus(true, name, p.id, p.address)
    case Up(address) => PostStatus(true, name, [], address)
    case Lost(_, address) => PostStatus(false, name, [], address)
  }

  /**
   In every run a client counts as connected exactly when it connected, or first was greeted,
   and its connection was not lost since; and each connection made or lost is posted as such,
   in order, with a blank identity and the address of the event.
   */
  lemma ClientEveryRun<P>(send: Handle, ctrl: Handle, inputs: seq<Input<P>>, id: P)
    requires send != ctrl && LegalRun(Initial<P>(send, ctrl), inputs)
    ensures var s := PollerState.Run(Initial<P>(send, ctrl), inputs);
            var notes := NotesOf(Initial<P>(send, ctrl), inputs, id, NO_NOTES);
            var info := Lookup(s, id);
            s.running && info.Some? && info.value.kind.Dealer? ==>
              && (info.value.view.connected <==> Online(notes.news))
              && |notes.told| == |notes.news|
              && forall j :: 0 <= j < |notes.news| ==> notes.told[j] == ClientStatus(info.value.name, notes.news[j])
  {
    hide Step, Online, Announcements, ViewAfter;
    var s := PollerState.Run(Initial<P>(send, ctrl), inputs);
    TellsEveryRun(send, ctrl, inputs, id);
    if s.running && Lookup(s, id).Some? && Lookup(s, id).value.kind.Dealer? {
      ClientAfter(Lookup(s, id).value.name, NotesOf(Initial<P>(send, ctrl), inputs, id, NO_NOTES).news);
    }
  }
}
