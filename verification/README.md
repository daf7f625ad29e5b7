# A verified model of libhdk

libhdk lets the parts of a program, in one process or several, send each other C++ structs.
A struct becomes bytes and a type identifier; a channel carries both; brokers on the other
side turn the bytes back into a struct and hand it to whoever registered for the type. This
project models that path from end to end in Dafny and proves what it promises.

| module | what it models |
|---|---|
| `Bytes`, `SerialCrc`, `Checksum`, `CrcValues` | the CRC-32 of section 8 of RFC 1952 bit by bit, the table-driven loops and the compile-time form that refine it, and its numbers |
| `Marshal`, `MarshalMaps`, `MarshalStream`, `MarshalLayout` | the type-directed encoding: its functions, what encoding again gives, the overloads that write to and read from a stream in place, and where each part lies |
| `MultipartCodec`, `Framing` | the one-message encoding of multipart messages, and the loops that send and receive them frame by frame |
| `Peers`, `PollerState`, `PollerRuns`, `PollerLife`, `PollerTurns`, `PollerNews`, `Poller` | the socket poller: the peer list, the state machine and its invariant, what whole runs amount to, how long records and the loop live, what a turn handles, what brokers are told of connections, and the objects that carry it out |
| `Wire` | a message's way from one channel object to the far side's brokers |
| `Replies`, `ReplyExamples` | channels, poller and brokers of one process together, and what answering from inside a handler depends on |
| `BrokerRegistry`, `Delivery`, `Brokers` | who is registered for what, which jobs a post queues and what running them comes to, and the objects that do it |
| `ChannelRegistry`, `Channels` | shared channel handles and the weak index of their names |
| `Singleton`, `Startup` | two protocols between threads, as the steps the threads take |

Code that updates things in place is modelled by methods on objects and arrays, each proved
against a function of the old state; what holds of all runs is proved about those functions.
In `Poller`, `Brokers` and `Channels` every method is shown to take exactly one step of the
state machine in `PollerState`, `Delivery` or `ChannelRegistry`, so an invariant of the
machine is an invariant of the objects.

## What the proofs found

- `brocker_manager::remove` completes exactly when the registry is empty; if the first list
  has the broker it compares iterators of different lists, and otherwise it never ends
  (`BrokerRegistry.RemoveAsWritten`). Everything else about destroying brokers is proved for
  its evident intent: the broker leaves every list, and emptied lists are dropped.
- Assigning over the last handle of a channel strands its name: no live channel has it, and
  no channel can be made under it again (`ChannelRegistry.MakeSucceeds`, `AssignmentStrands`).
- A peer list is right throughout a run if and only if no disconnect names a descriptor that
  two outstanding connections share (`Peers.TracksThroughout`).
- A turn handles a pending control request before a pending send. A channel that sends and is
  then destroyed leaves both pending, and the send dereferences a record that is gone. Given a
  live record before the turn, the send finds it if and only if the control request is not its
  removal (`PollerLife.SendSurvivesControl`, `RemovalPending`, `SendThenDestroy`). The results
  on turns and `Poller.Poller.Turn` assume that no such send is pending.
- In the same way a send handled after the closing of its record ends the poll loop, for every
  channel of the process, if and only if it is a client's or names a peer
  (`PollerLife.CloseOvertakesSend`).
- A server's socket is made to insist on delivery (`router_mandatory`), so sending to a peer
  that has left raises, and the poll loop ends. A send to everyone ends it if and only if some
  listed peer cannot be routed to any more; the peers listed behind it get nothing
  (`PollerRuns.BroadcastEveryRun`). One client that leaves is enough, until its disconnect is
  handled (`PollerLife.DepartureStops`, `DisconnectInTime`), and a disconnect that already
  waits does not help, since a turn handles the send first (`SendOvertakesDisconnect`). The
  loop is alive after a run if and only if no open failed and no send met one of these two
  cases (`PollerLife.AliveExactly`).
- Closing a server tells brokers nothing: whoever it had announced as connected is not
  announced as gone. Up to then the announcements are exactly right, given distinct
  descriptors (`PollerNews.AnnouncedEveryRun`). A disconnect that comes before the greeting is
  announced with a blank identity (`PollerNews.DisconnectReported`).
- A client that names a receiver puts the name where its server reads the command
  (`Wire.ClientNamesReceiver`), so only servers can send to a named peer.
- A second registration for a type does not replace the handler
  (`BrokerRegistry.FirstRegistrationWins`).
- `send_current` finds its channel by name when the handler runs. It gets the channel the
  message came in on if and only if that channel still lives. The reply goes back if and only
  if, when the poller comes to the request, the channel still lives, is open, and can route to
  the peer, and the transport has room for the message. If the channel lives but is closed or
  the peer has left, the poll loop ends (`Replies.ReplyGoesBack`,
  `ReplyExamples.PeerLeaves`). If it does not live, the handler uses a null object
  (`Replies.ChannelGone`, `ReplyExamples.ReplyLost`) or another channel made under the name
  (`Replies.ChannelReplaced`).
- The sender a handler is told is kept per thread and set when a job starts. When a handler
  sends on a local channel to a broker of its own context, the dispatch runs that broker's job
  at once, inside the handler, and overwrites the sender: a `send_current` that follows then
  answers on the local channel. The model queues such jobs, so this is not among its runs.
- A multipart message refused by its socket has already lost its first part
  (`Framing.Multipart.Send`); a channel's send is refused without notice
  (`Wire.Channel.Send`).
- Every struct of given field types survives the trip if and only if writer and reader visit
  its fields in the same order, which the language leaves open
  (`MarshalStream.OrdersMustAgree`).
- Encoding a decoded map again gives the bytes it was read from if and only if the keys of
  every map in them came in strictly increasing order (`MarshalMaps.Reencoding`).
- `startup` waits without a predicate, so a spurious wakeup lets it return before anything is
  set up; when it returns the poll vector was full or empty, never in between
  (`Startup.AllOrNothing`, `EarlyReturn`). A failed bind makes it wait forever
  (`Startup.EndsReady`).

## Assumptions about the surroundings

- The host is little-endian, `size_t` has eight bytes, and the sizes of one multipart message
  add up within it.
- A ZeroMQ socket is a queue of frames with a more-flag and delivers messages atomically.
  ROUTER and DEALER sockets frame messages as ZeroMQ RFC 28/REQREP says.
- Fresh handles are distinct. Open is requested only for a closed record, which nothing in
  the code guards. CONNECTED reaches DEALER sockets only, as the comment at
  `libhdk/channel/impl/socket_poller_zmq.cpp:447` says. There is one handshake per connection.
- An execution context runs its jobs first come, first served. A broker is not destroyed
  while a delivery to it is queued.
- No send is pending on a record whose removal is handled before it.
- The transport knows which identities a server's socket can route to. They change as
  connections come and go, at any time but while one request is carried out. An identity
  stands for the same client throughout. A message that can be routed may still be refused for
  want of room, and is then lost without notice; so is a client's while it has no connection.
- A context is run by a thread of its own.
- A live object's record is made and removed by requests that wait for the poller, so in
  `Replies` each is one step; a poller whose loop has ended answers none.
- Messages from peers have the shape this library gives them. In `Marshal` a read past the
  end of the stream is an error value.

## Model

| member | source | states |
|---|---|---|
| Checksum.Crc32 | libhdk/checksum.cpp:182-214 | the four-bytes-a-turn loop and its byte tail return the bit-at-a-time CRC-32 of RFC 1952, for every input, length and previous value |
| Checksum.MultiIsSteps | libhdk/checksum.cpp:39-181 | entry i of table k is the register after feeding byte i and k zero bytes bit by bit |
| CrcValues.PowerEntry | libhdk/checksum.cpp:41-179 | in each of the four tables the entries for the eight powers of two are the literals written there |
| CrcValues.EntriesLinear | libhdk/checksum.cpp:41-179 | the entry for an exclusive or of two bytes is the exclusive or of their entries, so those literals fix all the others |
| CrcValues.CheckValue | libhdk/checksum.cpp:182-214 | the CRC of the digits 1 to 9 is 0xCBF43926, the check value published for CRC-32 |
| Checksum.SlicedTurnIsSteps | libhdk/checksum.cpp:197-201 | one four-table turn is 32 one-bit steps |
| Checksum.TailTurnIsSteps | libhdk/checksum.cpp:209-211 | one turn of the byte tail is eight one-bit steps |
| Checksum.Chained | libhdk/checksum.cpp:182-214 | the CRC of b continued from the CRC of a is the CRC of a followed by b, wherever the input is cut |
| Checksum.BurstDetected | libhdk/checksum.cpp:182-214 | inputs of equal length that differ only within 32 consecutive bits, at any bit offset, have different CRCs |
| Checksum.WindowDetected | libhdk/checksum.cpp:189-213 | the same for any window of four consecutive bytes between any common prefix and suffix |
| Checksum.StaticIsCrc | libhdk/checksum.hpp:52-56 | the recursive compile-time form agrees with the loop on the text of a literal |
| Checksum.TypeId | libhdk/marshall/marshall_macro.hpp:28-33 | a message's type identifier is the CRC of its field list followed by its type name |
| SerialCrc.StepsLinear | libhdk/checksum.cpp:182-214 | any number of register steps distributes over exclusive or |
| SerialCrc.StepsInjective | libhdk/checksum.cpp:182-214 | register steps never merge two different registers |
| Marshal.RoundTrip | libhdk/marshall/marshal.hpp:34-118 | decoding the encoding of any nested value followed by any bytes leaves those bytes and merges the value into any destination of its type |
| Marshal.MergeIntoDefault | libhdk/marshall/marshal.hpp:56-118 | merging into a default-constructed object yields the value itself |
| Marshal.PrefixFree | libhdk/marshall/marshal.hpp:34-118 | encodings of one type are injective and none is a proper prefix of another |
| Marshal.MapDestination | libhdk/marshall/marshal.hpp:102-118 | reading into a map keeps the entries it had, in order of keys, and adds exactly the entries read whose key it lacked |
| Marshal.ReadInto | libhdk/marshall/marshal.hpp:41-118 | reading into an object that already holds something replaces a fixed-width object or a string, puts the items read behind those of a vector, and fills in a map |
| Marshal.DecodeThenEncode | libhdk/marshall/marshal.hpp:41-87 | without maps the encoding is canonical: bytes that decode are the encoding of what they decode to |
| MarshalMaps.Reencoding | libhdk/marshall/marshal.hpp:89-118 | for any type, encoding what was decoded is never longer than the bytes read, and is those bytes exactly when the keys of every map in them came in strictly increasing order |
| MarshalMaps.CameInserted | libhdk/marshall/marshal.hpp:102-118 | the map loop inserts the entries in the order they come from the stream |
| MarshalLayout.LaidOut | libhdk/marshall/marshal.hpp:34-100 | a size is eight bytes, lowest digit first; behind it come the characters, the items one after another, or the entries, each key directly followed by its value, and nothing else |
| MarshalLayout.FieldsLaidOut | libhdk/marshall/marshal.hpp:120-124 | a struct is its fields one after another in the order they are visited, with nothing in between |
| MarshalStream.MarshalValue | libhdk/marshall/marshal.hpp:34-100 | the writing overloads append exactly the encoding of the value to the stream |
| MarshalStream.DemarshalValue | libhdk/marshall/marshal.hpp:41-118 | the reading overloads leave in destination and stream what the decoder says, or fail when it does |
| MarshalStream.DemarshalVector | libhdk/marshall/marshal.hpp:74-87 | the vector loop appends the items read to those present |
| MarshalStream.DemarshalMap | libhdk/marshall/marshal.hpp:102-118 | the map loop inserts the entries read one by one |
| MarshalStream.MarshalStruct | libhdk/marshall/marshal.hpp:120-124 | the fields are written in whatever order the pack is evaluated |
| MarshalStream.DemarshalStruct | libhdk/marshall/marshal.hpp:126-130 | the fields are read in whatever order the pack is evaluated |
| MarshalStream.FieldsRoundTrip | libhdk/marshall/marshal.hpp:120-130 | a struct read into any destination merges field by field, for any order shared by both sides |
| MarshalStream.StructRoundTrip | libhdk/marshall/marshal.hpp:120-130 | a struct read into a default one is the struct written, and the bytes behind it stay |
| MarshalStream.OrdersMustAgree | libhdk/marshall/marshal.hpp:120-130 | for all field types and any two orders of writing and reading, every struct survives the trip if and only if the orders are the same |
| MarshalStream.SwappedFields | libhdk/marshall/marshal.hpp:120-130 | the smallest case: two one-byte fields are swapped |
| MultipartCodec.Encode | 3rdparty/cppzmq/zmq_addon.hpp:220-258 | an error exactly when some part does not fit 32 bits; otherwise the second pass fills exactly the bytes the first one counted, with the encoding of the parts |
| MultipartCodec.Decode | 3rdparty/cppzmq/zmq_addon.hpp:275-302 | the loop hands out the parts and ends as the decoding function says, staying in bounds |
| MultipartCodec.WriteNetworkOrder | 3rdparty/cppzmq/zmq_addon.hpp:77-88 | four bytes in network order are written at the place given and nothing else changes |
| MultipartCodec.NetworkOrderDigits | 3rdparty/cppzmq/zmq_addon.hpp:77-88 | the digits of a size to the base 256 are written highest first |
| MultipartCodec.NetworkOrderRoundTrip | 3rdparty/cppzmq/zmq_addon.hpp:77-102 | reading the four bytes written returns the value |
| MultipartCodec.DecodeEncoding | 3rdparty/cppzmq/zmq_addon.hpp:220-302 | decoding undoes encoding for every list of parts whose sizes fit 32 bits |
| MultipartCodec.AcceptsExactly | 3rdparty/cppzmq/zmq_addon.hpp:275-302 | a byte string decodes to given parts exactly when it lays them out with one or five byte sizes, and nothing is left over |
| MultipartCodec.Reencoding | 3rdparty/cppzmq/zmq_addon.hpp:220-302 | encoding what was decoded is never longer than the input, decodes to the same parts, and is as long only when it is the input |
| MultipartCodec.RejectedPrefix | 3rdparty/cppzmq/zmq_addon.hpp:280-298 | the parts handed out before an error are those of an accepted proper prefix, and the error says whether what follows it is cut off within a size or within a part |
| Framing.ReceiveMultipart | 3rdparty/cppzmq/zmq_addon.hpp:45-69 | the loop takes exactly one message from the socket, or reports that there is none or that it has too many parts, leaving the rest in place |
| Framing.Multipart.Send | 3rdparty/cppzmq/zmq_addon.hpp:416-435 | all parts become one message at the end of what the peer will read, or the first one is refused and lost |
| Framing.Multipart.Receive | 3rdparty/cppzmq/zmq_addon.hpp:396-413 | the object holds the next message and the socket the later ones |
| Framing.Multipart.Prepend | 3rdparty/cppzmq/zmq_addon.hpp:437-441 | the other message's parts come in front in their order, and it is left empty |
| Framing.Multipart.Append | 3rdparty/cppzmq/zmq_addon.hpp:444-448 | the other message's parts come behind in their order, and it is left empty |
| Framing.MessagesAppend | libhdk/channel/impl/socket_helpers_zmq.hpp:40-91 | frames of whole messages put one behind the other are read as those messages |
| Peers.ConnectedMeansPeers | libhdk/channel/impl/socket_info_zmq.hpp:32-86 | the connected flag is true exactly when the peer list is not empty |
| Peers.TracksThroughout | libhdk/channel/impl/socket_info_zmq.hpp:32-86 | the peer list is the outstanding handshakes throughout a run if and only if no disconnect is ambiguous |
| Peers.ServerPeers | libhdk/channel/impl/socket_info_zmq.hpp:32-86 | with distinct descriptors the list is the handshakes without a later disconnect, in arrival order |
| Peers.SharedDescriptorMisleads | libhdk/channel/impl/socket_info_zmq.hpp:69-86 | with a shared descriptor a disconnect can leave the wrong list |
| PollerState.EveryRun | libhdk/channel/impl/socket_poller_zmq.cpp:108-277 | in every run the poll vector is the two control sockets and adjacent (data, monitor) pairs, no handle twice, one pair per open record and none for a closed one |
| PollerState.StepKeeps | libhdk/channel/impl/socket_poller_zmq.cpp:108-482 | every control request, send, message and event keeps that layout |
| PollerState.FoundPair | libhdk/channel/impl/socket_poller_zmq.cpp:255-277 | finding an open record's data socket and erasing two items hits its own pair, behind the first two items |
| PollerRuns.ServerPeersEveryRun | libhdk/channel/impl/socket_poller_zmq.cpp:368-482 | in every run an open server's peers are the handshakes not followed by a disconnect on the same descriptor, and the flag says whether there are any |
| PollerRuns.BroadcastEveryRun | libhdk/channel/impl/socket_poller_zmq.cpp:332-346 | in every run a send to everyone addresses the outstanding handshakes in order up to the first whose peer cannot be routed to, save those refused for want of room, and the loop goes on if and only if all of them can be routed to |
| PollerRuns.TurnHandlesOnce | libhdk/channel/impl/socket_poller_zmq.cpp:63-98 | whatever the control step appended or erased, of any set of marked items the loop over pairs handles each one still in the vector exactly once, and nothing else |
| PollerTurns.TurnHandlesReady | libhdk/channel/impl/socket_poller_zmq.cpp:63-98 | a legal turn handles the pending control request, then, if that did not end the loop, the pending send request, then each item that was found ready and is still in the vector, exactly once, in the order of the vector, and nothing else |
| PollerTurns.PairsInOrder | libhdk/channel/impl/socket_poller_zmq.cpp:80-96 | a pair's message is handled before its event, and both before those of later pairs |
| PollerRuns.PairsPaired | libhdk/channel/impl/socket_poller_zmq.cpp:80-96 | each monitor item is handled together with the data socket of its own pair |
| PollerRuns.PairInputLegal | libhdk/channel/impl/socket_poller_zmq.cpp:498-510 | the record of a handled data socket is found |
| PollerRuns.PairLoopSound | libhdk/channel/impl/socket_poller_zmq.cpp:80-96 | the loop over pairs moves no item and no record, and the layout holds again at its end |
| PollerLife.LookupStep | libhdk/channel/impl/socket_poller_zmq.cpp:108-203 | a record is looked up from its creation to its removal, and each step changes it just as it says |
| PollerLife.RecordsEveryRun | libhdk/channel/impl/socket_poller_zmq.cpp:108-203 | in every run of a live loop a record is there exactly if it was created and not removed since, under that name and kind, and has exactly the sockets it was opened with and neither closed nor removed since |
| PollerNews.AnnouncedEveryRun | libhdk/channel/impl/socket_poller_zmq.cpp:397-482 | in every run, given distinct descriptors, the contacts a server has announced as connected and not yet as gone are exactly those of its outstanding handshakes |
| PollerNews.DisconnectReported | libhdk/channel/impl/socket_poller_zmq.cpp:475-482 | in every run the disconnect of an outstanding handshake is posted as such with that peer's identity and address, any other with a blank contact |
| PollerNews.ClientEveryRun | libhdk/channel/impl/socket_poller_zmq.cpp:443-472 | in every run a client counts as connected exactly if a connection was made, or a first greeting came, and it was not lost since; and each one made or lost is posted as such, in order, with the address of the event |
| PollerLife.RoutesEveryRun | libhdk/channel/impl/socket_poller_zmq.cpp:205-253 | in every run an open record's socket can route to just the identities that connected since it was opened and have not left |
| PollerLife.AliveExactly | libhdk/channel/impl/socket_poller_zmq.cpp:63-105 | the loop is alive after a run if and only if no open failed and no send met a closed record with something to transmit, a named peer its server could not route to, or a listed peer it could not route to |
| PollerLife.DepartureStops | libhdk/channel/impl/socket_poller_zmq.cpp:221-222 | after any state, once one listed client has left, the next send to everyone or to it ends the loop |
| PollerLife.DisconnectInTime | libhdk/channel/impl/socket_poller_zmq.cpp:457-482 | with its disconnect handled first and nobody else gone, the send to everyone leaves the loop alive |
| PollerLife.SendOvertakesDisconnect | libhdk/channel/impl/socket_poller_zmq.cpp:72-96 | in a turn whose disconnect already waits the send is still handled first and ends the loop |
| PollerLife.CloseOvertakesSend | libhdk/channel/impl/socket_poller_zmq.cpp:67-79 | a send handled after its record was closed ends the loop if and only if it is a client's or names a peer |
| PollerLife.SendSurvivesControl | libhdk/channel/impl/socket_poller_zmq.cpp:67-79 | a send whose record is live before the control step can be handled after it if and only if the step does not remove that record |
| PollerLife.RemovalPending | libhdk/channel/impl/socket_poller_zmq.cpp:177-203 | with the removal pending in the same turn the send is not legal within the turn |
| PollerLife.SendThenDestroy | libhdk/channel/impl/socket_poller_zmq.cpp:312-333 | a run of two requests after which the removal and the send are each legal and the turn with both is not |
| PollerLife.TurnLegalRun | libhdk/channel/impl/socket_poller_zmq.cpp:63-98 | what a legal turn handles is a legal run, so what holds of all runs holds of turns |
| Poller.SocketInfo.Add | libhdk/channel/impl/socket_info_zmq.hpp:32-38 | the peer joins at the end and the flag is set |
| Poller.SocketInfo.RemoveByAddress | libhdk/channel/impl/socket_info_zmq.hpp:42-54 | the first peer with the address leaves, and the flag falls with the last peer |
| Poller.SocketInfo.RemoveById | libhdk/channel/impl/socket_info_zmq.hpp:56-67 | the same by identity |
| Poller.SocketInfo.RemoveByFd | libhdk/channel/impl/socket_info_zmq.hpp:69-86 | the same by descriptor, reporting the peer that left |
| Poller.Poller.ParseCreate | libhdk/channel/impl/socket_poller_zmq.cpp:108-136 | takes the create step: the new record joins the list |
| Poller.Poller.ParseOpen | libhdk/channel/impl/socket_poller_zmq.cpp:138-253 | takes the open step, in each of its three outcomes |
| Poller.Poller.ParseClose | libhdk/channel/impl/socket_poller_zmq.cpp:161-175 | takes the close step: the pair leaves the vector, the record is reset |
| Poller.Poller.ParseRemove | libhdk/channel/impl/socket_poller_zmq.cpp:177-203 | takes the remove step: the pair and the record go |
| Poller.Poller.EraseTwo | libhdk/channel/impl/socket_poller_zmq.cpp:255-277 | find and erase remove one item and its successor |
| Poller.Poller.ParseSendData | libhdk/channel/impl/socket_poller_zmq.cpp:312-366 | takes the send step: to every peer, to the server, or to the named peer; a transmission refused for want of room is lost and the next goes on, one that raises ends the loop |
| Poller.Poller.Reroute | libhdk/channel/impl/socket_poller_zmq.cpp:210-222 | a connection that comes or goes inside the transport changes what a record's socket can route to, and nothing else |
| Poller.Poller.ParseReceiveData | libhdk/channel/impl/socket_poller_zmq.cpp:368-420 | takes the receive step: a handshake adds a peer, data is posted |
| Poller.Poller.ParseEventData | libhdk/channel/impl/socket_poller_zmq.cpp:422-482 | takes the monitor step: a client greets its server and both ways reports its state, a lost connection removes its peer, who is reported as gone |
| Poller.Poller.Turn | libhdk/channel/impl/socket_poller_zmq.cpp:63-98 | one turn of the loop on the objects handles the pending requests, control before send, and then just the items that were found ready and are still in the vector, in order and each once; that is a legal run, the turn ends in its state with its outputs, and the layout holds again |
| Wire.Channel.Send | libhdk/channel/impl/channel_impl_zmq.cpp:126-137 | the request reaches the poller's socket as one message, or is dropped |
| Wire.SendRequestArrives | libhdk/channel/impl/socket_poller_zmq.cpp:312-331 | the poller reads back the record, peer, type and bytes the channel wrote |
| Wire.RequestExactly | libhdk/channel/impl/socket_poller_zmq.cpp:312-331 | a send request is taken from six frames with command 5 and from nothing else, and it is the request that those frames are |
| Wire.ReceivedExactly | libhdk/channel/impl/socket_poller_zmq.cpp:368-420 | a message with command 4 adds its sender as a peer and announces it, one with command 6 is posted with its type and bytes, and a single frame or any other command is ignored |
| Wire.HandshakeAtServer | libhdk/channel/impl/socket_poller_zmq.cpp:390-455 | a connected client's greeting adds it to the server's peers under its identity |
| Wire.ClientReachesServer | libhdk/channel/impl/socket_poller_zmq.cpp:312-419 | a client's send is posted at the server its socket is connected to, with the same type and bytes, under the identity it has there, or is lost for want of room; the loop goes on |
| Wire.ClientNamesReceiver | libhdk/channel/impl/socket_poller_zmq.cpp:357-365 | a client that names a receiver transmits the name in front, where the server expects the command: with a name of four bytes other than the command for data its message is not posted |
| Wire.CreationReplyArrives | libhdk/channel/impl/channel_impl_zmq.cpp:49-55 | the poller's reply reaches the requester and tells it the address of its record |
| Wire.ServerReachesPeer | libhdk/channel/impl/socket_poller_zmq.cpp:354-365 | a server's send to a named peer makes one transmission, posted at the client connected under that identity unless there is no room; the loop goes on if and only if there is such a client |
| Wire.ServerReachesAll | libhdk/channel/impl/socket_poller_zmq.cpp:332-346 | after any run a server's send to everyone is posted at just the clients with an outstanding handshake before the first that has left, for which there is room, in order; the loop goes on if and only if none has left |
| Wire.StructCrossesTheWire | libhdk/brocker/brocker_manager.cpp:57-78 | a struct a client sends, unless lost for want of room, is handed at the server it is connected to to exactly the eligible brokers, once each, in registration order, equal to what was sent |
| Replies.EveryRun | libhdk/channel/impl/channel_impl_zmq.cpp:12-56 | in every run of a process the records of a live poller are those of the live remote channels, one each, under the channel's name |
| Replies.RemoteMade | libhdk/channel/impl/channel_impl_zmq.cpp:12-56 | making a remote channel under a free name makes a record of that name and kind for the new object; under a taken name it makes nothing |
| Replies.StatusDealtOut | libhdk/channel/impl/socket_poller_zmq.cpp:512-523 | a status message is a post of a struct of one bool: each broker that handles it and lets the channel through is handed the flag once, in registration order, labelled with the peer |
| Replies.PostsAppend | libhdk/channel/impl/socket_poller_zmq.cpp:397-419 | what the poller posts comes to the brokers in the order it was posted |
| Replies.HandlerKnows | libhdk/brocker/brocker_manager.cpp:71-84 | the handler of a message, the last its own context ran, is told the peer and channel it came from, whatever happened since here and on other contexts, and the name stands for that channel if and only if it still lives |
| Replies.ReplyGoesBack | libhdk/channel/channel.hpp:49-54 | in every run from receipt over handler to request, get yields the channel the message came in on if and only if it still lives; the reply goes to the originating peer alone, on that channel's socket, if and only if the channel lives, is open, can route to the peer and has room when the poller comes to the request; if it lives but is closed or the peer has left, the loop ends |
| Replies.ChannelGone | libhdk/channel/channel.hpp:56-64 | whenever the last handle goes between receipt and handler, get yields an empty handle |
| Replies.ChannelReplaced | libhdk/channel/channel.hpp:49-54 | if a channel is then made under the same name, get yields that one |
| ReplyExamples.ReplyArrives | libhdk/channel/channel.hpp:49-54 | a run of nine steps from the beginning at whose end the handler's reply goes back to the peer |
| ReplyExamples.PeerLeaves | libhdk/channel/impl/socket_poller_zmq.cpp:221-222 | the same run with the peer leaving before the poller comes to the reply: the loop ends |
| ReplyExamples.ReplyLost | libhdk/channel/channel.hpp:49-64 | a run of nine steps from the beginning at whose end the handler's get yields nothing |
| BrokerRegistry.EveryRun | libhdk/brocker/brocker_manager.cpp:10-55 | in every run a live broker is listed for a type exactly when it has a handler for it; lists are not empty, hold nobody twice and only live brokers |
| BrokerRegistry.RegistrationOrder | libhdk/brocker/brocker_manager.cpp:86-94 | in every run each list is in the order in which its brokers began to handle the type |
| BrokerRegistry.HandlesEveryRun | libhdk/brocker/brocker.hpp:54-116 | in every run a broker handles a type exactly if it registered for it, or was copied from a broker that handled it then, and has neither unregistered nor been destroyed since |
| BrokerRegistry.FirstRegistrationWins | libhdk/brocker/brocker.hpp:54-96 | in every run the handler of a live broker for a type is the one registered, or copied from its original, by the very operation since which it handles the type |
| BrokerRegistry.RemoveAsWritten | libhdk/brocker/brocker_manager.cpp:10-29 | the loop as written completes if and only if the registry is empty, and comes to undefined behaviour if and only if the first list has the broker |
| Delivery.PostReachesEligible | libhdk/brocker/brocker_manager.cpp:57-78 | in every run a post makes exactly one job for each broker that handles the type and lets the channel through, in registration order, and none for others |
| Delivery.FiltersEveryRun | libhdk/brocker/brocker.cpp:11-40 | in every run the filters of a broker are those last set; a new one has none, and a copy begins with those its original had at that moment |
| Delivery.ContextEveryRun | libhdk/brocker/brocker.cpp:7-40 | in every run a broker's jobs go to the context it was constructed with, a copy's to its original's |
| Delivery.EveryJobOnce | libhdk/brocker/brocker_manager.cpp:69-76 | in every run each context has run a first part of the jobs posted to it, in order, and holds the rest |
| Delivery.LastOnIsLast | libhdk/brocker/brocker_manager.cpp:71-84 | the job whose sender a context tells its handlers is the last of the jobs it has run |
| Delivery.StructPostDelivers | libhdk/brocker/brocker_call.hpp:34-44 | each job of a posted struct hands its handler the value that was encoded |
| Delivery.LocalSend | libhdk/channel/impl/channel_impl_local.cpp:25-29 | a local send does this under the channel's name, and touches nothing run or queued before |
| Delivery.ValuesArrive | libhdk/brocker/brocker_call.hpp:34-44 | in every run in which only handlers for the struct register for its type, each callback for the encoding of a value is handed that value, whatever else happens between post and callback |
| Delivery.UnregisteredGetsNothing | libhdk/brocker/brocker.cpp:54-58 | a broker that stopped handling a type gets no callback for it until it registers again, whatever was queued |
| Delivery.UnregisterWithdraws | libhdk/brocker/brocker.hpp:98-116 | a delivery still queued when its broker unregisters comes to nothing |
| Brokers.Broker.Reg | libhdk/brocker/brocker.hpp:54-96 | a handler already present stays, otherwise the one given is entered; takes the registration step on handlers and index |
| Brokers.Broker.Unreg | libhdk/brocker/brocker.hpp:98-116 | takes the unregistration step on handlers and index |
| Brokers.Broker.Copy | libhdk/brocker/brocker.cpp:35-40 | has the handlers, filters and context of its original; takes the copy step, every list membership included |
| Brokers.Broker.Destroy | libhdk/brocker/brocker.cpp:30-33 | takes the destruction step, by intent |
| Brokers.Broker.CheckFilter | libhdk/brocker/brocker.cpp:70-76 | true exactly when there is no filter or one of them is the channel |
| Brokers.Broker.Filter | libhdk/brocker/brocker.cpp:23-28 | takes the step that leaves one channel as the only filter |
| Brokers.Broker.SetFilters | libhdk/brocker/brocker.cpp:11-21 | takes the step that replaces the filters |
| Brokers.Broker.Call | libhdk/brocker/brocker_call.hpp:34-44 | decodes the bytes into a fresh struct and calls the handler for the type, or does nothing without one |
| Brokers.Manager.Reg | libhdk/brocker/brocker_manager.cpp:86-94 | the list search and insertion compute the registered index |
| Brokers.Manager.Unreg | libhdk/brocker/brocker_manager.cpp:96-113 | the list search and removal compute the unregistered index |
| Brokers.Manager.Clone | libhdk/brocker/brocker_manager.cpp:43-55 | the copy joins exactly the lists of its original |
| Brokers.Manager.Remove | libhdk/brocker/brocker_manager.cpp:10-29 | the broker leaves every list and emptied lists go, by intent |
| Brokers.Manager.Post | libhdk/brocker/brocker_manager.cpp:57-78 | takes the post step: each context's queue grows by its jobs |
| Brokers.Context.RunOne | libhdk/brocker/brocker_manager.cpp:71-75 | runs the job at the head of the queue with its sender set, with the outcome the model gives it |
| Brokers.LocalChannel.Send | libhdk/channel/channel.hpp:56-64 | the struct is encoded and posted under the channel's name |
| ChannelRegistry.EveryRun | libhdk/channel/channel.cpp:19-111 | in every run an object's shared count is the number of its handles, live objects are indexed by name, and every entry is for a live or a stranded name |
| ChannelRegistry.HandlesFollow | libhdk/channel/channel.cpp:19-114 | in every run copying and assigning share the object of the source, moving hands it over and empties the source, and every other handle keeps what it held |
| ChannelRegistry.NamesAreUnique | libhdk/channel/channel.cpp:50-92 | in every run no two live channel objects share a name |
| ChannelRegistry.GetFindsLive | libhdk/channel/channel.cpp:104-114 | in every run get yields a valid handle exactly when a live object has the name, and it is a handle on that object |
| ChannelRegistry.MakeSucceeds | libhdk/channel/channel.cpp:50-92 | in every run making a channel succeeds exactly when no live object has the name and no assignment has stranded it |
| ChannelRegistry.AssignmentStrands | libhdk/channel/channel.cpp:36-40 | a run after which no live object has a name and it is refused all the same |
| ChannelRegistry.DroppedDies | libhdk/channel/channel.cpp:19-47 | an operation ends the object whose last handle it takes, and no other |
| Channels.Channel.Copy | libhdk/channel/channel.cpp:19-22 | the new handle shares the object of the source, which keeps it; takes the step of copy construction |
| Channels.Channel.Move | libhdk/channel/channel.cpp:24-28 | the new handle has the object the source had, and the source is empty; takes the step of move construction |
| Channels.Channel.Assign | libhdk/channel/channel.cpp:36-40 | both handles have the object the source had; takes the step of copy assignment, onto itself included |
| Channels.Channel.MoveAssign | libhdk/channel/channel.cpp:42-47 | the target has the object the source had, and the source is empty; onto itself it empties the handle |
| Channels.Channel.Destroy | libhdk/channel/channel.cpp:30-34 | takes the step of destruction: the last handle takes the name out of the index |
| Channels.MakeChannel | libhdk/channel/channel.cpp:50-92 | refuses a name in the index; otherwise the handle has a new object of that name, which the index then has for it |
| Channels.GetChannel | libhdk/channel/channel.cpp:104-114 | the handle has the object in the index if that is still alive, and is empty otherwise |
| Singleton.OneInstance | libhdk/singleton.hpp:9-25 | for any number of threads and any interleaving at most one object is constructed, and every call that returns yields that one |
| Singleton.FirstCallComes | libhdk/singleton.hpp:12-24 | in every run an undisturbed call with nothing published and the mutex free constructs, publishes and returns the object; if the constructor throws, nothing is returned or published and the mutex is free again |
| Singleton.PublishedCall | libhdk/singleton.hpp:12-24 | a call that finds the object published returns it after three steps and changes nothing else |
| Singleton.SomebodyMoves | libhdk/singleton.hpp:15-23 | in every run, while a call is under way some thread in a call can take a step |
| Singleton.CallsEnd | libhdk/singleton.hpp:12-24 | every step of a call brings it nearer its end, also when the constructor throws |
| Singleton.FastPath | libhdk/singleton.hpp:12-24 | once the object is published a thread not already at the mutex never comes to it again and never blocks, in any number of calls and whatever other threads do in between |
| Startup.NoLostWakeup | libhdk/channel/impl/socket_poller_zmq.cpp:41-61 | without spurious wakeups the notification always comes after the starter began to wait |
| Startup.ReadyOnReturn | libhdk/channel/impl/socket_poller_zmq.cpp:525-535 | without spurious wakeups both control sockets are in the poll vector when startup returns |
| Startup.EndsReady | libhdk/channel/impl/socket_poller_zmq.cpp:41-61 | a run cannot go on exactly when startup has returned, or a bind failed and the starter waits |
| Startup.RunsEnd | libhdk/channel/impl/socket_poller_zmq.cpp:525-535 | every run without spurious wakeups has at most fourteen steps |
| Startup.AllOrNothing | libhdk/channel/impl/socket_poller_zmq.cpp:41-61 | in every run, spurious wakeups included, when the starter has the mutex back the vector is full exactly if the poller has released the mutex, empty exactly if it has yet to take it or has failed, and nothing else |
| Startup.EarlyReturn | libhdk/channel/impl/socket_poller_zmq.cpp:534 | from any wait with the mutex free, a spurious wakeup lets startup return with whatever is there |
| Startup.SpuriousReturnsEarly | libhdk/channel/impl/socket_poller_zmq.cpp:525-535 | six steps from the start after which startup has returned and the vector is empty |

## Left out

- Brokers.Manager.Remove: models the intent of the loop, because the loop as written completes only on an empty registry.
- Checksum.MultiIsSteps: does not compare the 1024 table literals one by one. CrcValues.PowerEntry compares 32, and by CrcValues.EntriesLinear the others must be their exclusive ors.
- Checksum.Crc32: does not model the big-endian branch, which uses undeclared names, nor the prefetching and byte swapping beside it; its octets are bit vectors, while the codecs use bounded integers.
- MarshalStream.DemarshalValue: does not model what a short read leaves in the destination.
- Brokers.Broker.Call: does not model `from_byte_array` on a buffer that already holds data; the only caller passes a fresh one. User code inside a callback is a later event of the run.
- Brokers.Manager.Post: does not model the message printed for an unknown type, nor a dispatch that runs at once because the caller is already on the context and then overwrites the sender the caller's handler is told.
- Poller.Poller.ParseReceiveData: does not expand the encoding of the connection status message; it appears as an output of its own.
- Replies.ReplyGoesBack: covers servers; on a client, send_current names a one-byte receiver and takes the named-peer path.
- Poller.Poller.ParseCreate: does not return the reply that carries the record's address to the channel; the reply's frames and their way back are in Wire.CreationReplyArrives.
- Poller.Poller.ParseEventData: does not model that the greeting is sent without a limit on waiting, so that a connection lost again at once can hold up the poll loop.
- Poller.Poller.Turn: does not say what a send on a removed record does, which is undefined; PollerLife.SendSurvivesControl says exactly when that happens.
- Brokers.Broker.Destroy: takes the removal by its intent, which the code as written reaches only on an empty registry.
- Channels.MakeChannel: does not distinguish client, server and local objects, whose registration is the same.
- Liveness of the control requests and of `call_sync`, which dispatch before they take the lock and wait without a predicate; the condition variables and mutexes they pass by address.
- `socket_info_zmq::remove` by value, which has no caller and does not keep the flag.
- The wrappers in `3rdparty/cppzmq/zmq.hpp` and all of `3rdparty/asio`, beyond queues of frames, queues of jobs and byte buffers.
- The asio channel and its factories, which are stubs; `active_poller_t` and `str()`; shutdown of the poller.
- Kill handler, timers, `async_sleep`, thread pool map, address formatting, uuid and socket options, which would add easy members only.
