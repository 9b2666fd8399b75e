# UIP daemon: model and proofs

UIP is a peer-to-peer daemon. Local clients bind ports over a Unix socket; the daemon carries
their frames over authenticated connections to other daemons, and all connections of a local
address share one UDP socket. This project models the daemon's logic in Dafny and proves what
it guarantees in every run.

Where the source changes an object in place (the codecs' buffers, the UDP socket, the port
table, the peer table, the open sockets and their registries, the debounced stream) there is a
class whose methods are proved against functions on values. Where the source is a set of tasks
that interleave, there is a step system: receiving and sending are separate steps with a value
"in hand" between them, every queue has the bound the daemon gives it, and a property of "every
run" is a property of every interleaving.

| file | part of the daemon |
|---|---|
| `Bytes`, `FrameCodec`, `FrameStream` | frames between daemons, one by one and as a stream cut into chunks |
| `Places`, `Merging`, `Pipeline`, `PipelineSafety`, `PipelineRuns` | the delivery pipeline of any number of daemons, client to client, with real bytes on a wire that may lose whole frames, and its invariant |
| `Causes` | what the actions of a run decide by themselves: connections and sockets, clients and ports, what was put on each connection |
| `Submission`, `Delivery`, `Origins`, `LocalDelivery`, `Heartbeat`, `Quiescence` | what the pipeline guarantees: order from the clients into the connections, order over a connection and exactly when it is kept, provenance, shares of the binders, accounting of pings, silence |
| `Passage`, `Draining` | runs that exist: packets, replies and pongs arrive, order is broken, frames are forged |
| `PortTable` | binding ports and delivering to local clients |
| `UdpDemux` | the demultiplexer of a UDP socket and its race with `connect` |
| `PeerInfo`, `Records` | the peer-information protocol among any number of nodes, the peer table, and both on top of the pipeline |
| `Reconcile` | open sockets against discovered addresses, registries of connections, routing |
| `Debounce`, `Keepalive` | the two timed machines |
| `Identifiers`, `LocalCodec` | identifiers as text, and the frames of local clients |

## Findings

These promises do not hold of the code as it is; each has a lemma with the failing input or run,
and, where it is a condition on the input or the state, the exact condition under which it holds.

- A payload of 65536 bytes or more does not survive: its length is cut to 16 bits and the surplus
  bytes are read as further frames (src/network/transport/codec.rs:28; `FrameCodec.RoundTripIffFits`,
  `FrameStream.OversizedPayloadLeaks`, `Passage.OrderIsKeptIffPayloadFits`). A connection keeps its
  order laws exactly until such a frame is read there (`Delivery.OrderIsKeptIffNoneCut`); other
  connections are not affected, nor is what was decoded before (`Origins.ArrivedAsSent`).
- With such a payload a client can make the other end decode any frame it likes
  (src/network/transport/codec.rs:28; `Passage.AnyFrameCanBeSmuggled`): a packet from a port that no
  client is bound to (`Passage.PacketCanBeForged`), or a pong where no ping was sent
  (`Passage.PongCanBeUnasked`). What is decoded is known exactly for all payloads
  (`Origins.WhatIsDecoded`).
- Order is kept among client frames and among control messages, but not between the two: a control
  message can be processed before a client frame sent earlier on the same connection
  (src/network/state.rs:236; `Passage.ControlCanOvertake`). It overtakes those between the split and
  the port table and no others (`Delivery.ControlOvertakesOnlyTheWaiting`).
- The newest `connect` of the UDP socket does not always keep the table entry
  (src/network/io/socket.rs:117; the run is `UdpDemux.NewestConnectCanLose`, the exact condition
  `UdpDemux.EntryIsSafeIff`); the connection that lost never gets a datagram again
  (`UdpDemux.ForgottenGetsNothing`).
- A relay's answer about a third peer never changes the asker's table
  (src/network/state.rs:252; `PeerInfo.AnswersAboutOthersAreIgnored`, and a run in
  `PeerInfo.AskingTeachesNothing`).
- The debounced stream's loop inside the window does not stop once its inner stream has ended
  (src/network/change/debounce.rs:39-44; `Debounce.DrainEndsIffOpen`).
- Pings that may take exactly 5 s can let a connection time out
  (src/network/transport/connection.rs:57-65,118; `Keepalive.FiveSecondsAreTooMany`).
- A local frame in a longer encoding than needed is read, but its last bytes are read again
  (src/unix/codec.rs:39-43; `LocalCodec.LeavesTheUnreadIffShortest`, `LocalCodec.LongFormIsReadTwice`),
  and a local frame that has arrived only in part is an error (src/unix/codec.rs:32-37;
  `LocalCodec.PartOfAFrameIsAnError`), so a stream of frames is read if and only if every chunk ends
  between frames (`LocalCodec.ChunksAreReadIffCutBetweenFrames`).

## Model

| member | source | states |
|---|---|---|
| `FrameCodec.ParseOfEncoding` | src/network/transport/codec.rs:16-67 | for a payload of any length n, decoding its encoding gives the same ports and the first n mod 65536 bytes, and leaves precisely the others in front of what follows |
| `FrameCodec.RoundTripIffFits` | src/network/transport/codec.rs:25-29 | one frame comes back with nothing left over if and only if its payload has at most 65535 bytes |
| `FrameCodec.ParseIsCanonical` | src/network/transport/codec.rs:16-67 | a frame is decoded from a buffer, leaving a rest, if and only if it fits and the buffer is its encoding followed by that rest |
| `FrameCodec.ParseIsStable` | src/network/transport/codec.rs:35-67 | later bytes never change a decoded frame or an error, and every decoded frame consumes something |
| `FrameCodec.NotReadyIffIncomplete` | src/network/transport/codec.rs:36-60 | "not ready" means exactly that the buffer is a proper prefix of some frame's encoding |
| `FrameCodec.WireFormat` | src/network/transport/codec.rs:16-33 | byte by byte: the type bytes 1, 2 and 3, then ports and the length modulo 65536 with the high byte first, then the payload |
| `FrameStream.DrainIsCanonical` | src/network/transport/codec.rs:35-67 | what decoding to exhaustion consumes is the encoding of what comes out, for any bytes |
| `FrameStream.DrainOfEncodings` | src/network/transport/codec.rs:16-67 | any list of fitting frames comes back from the concatenation of their encodings, and decoding goes on with what follows |
| `FrameStream.DrainInTwo` | src/network/transport/connection.rs:56-64 | decoding, appending and decoding on equals decoding the whole, up to the first error |
| `FrameStream.ChunkingIsIrrelevant` | src/network/transport/connection.rs:56-88 | for any bytes, valid or not, and any way of cutting them, the read loop yields the same frames, the same verdict and, short of an error, the same undecoded tail |
| `FrameStream.StreamRoundTrip` | src/network/transport/connection.rs:56-88 | a list of fitting frames and an incomplete tail, cut in any way, give back exactly that list and that tail |
| `FrameStream.NextFrameOfStream` | src/network/transport/codec.rs:35-67 | what is decoded from a partly arrived stream is the first frame of it, if that one fits, and the others stay whole |
| `FrameStream.OversizedPayloadLeaks` | src/network/transport/codec.rs:28-29 | an oversized payload is delivered cut, and its surplus bytes are decoded as the frames that follow |
| `FrameStream.FrameBuffer.Encode` | src/network/transport/codec.rs:16-33 | the writes into the buffer append the frame's encoding |
| `FrameStream.FrameBuffer.Decode` | src/network/transport/codec.rs:35-67 | in place: a frame is taken off the front, or the buffer is left untouched when not ready or invalid |
| `FrameStream.FrameBuffer.DecodeAll` | src/network/transport/connection.rs:59-64 | the loop ends, with the frames, the tail and the verdict of decoding the buffer to exhaustion |
| `FrameStream.FrameBuffer.ReadChunks` | src/network/transport/connection.rs:56-88 | the read loop over arriving chunks yields what decoding the whole stream at once yields |
| `Places.ShiftKeepsFlow` | src/network/transport/connection.rs:100-112 | moving the oldest token one stage on keeps, for every connection and kind, the sequence of frames along the path |
| `PipelineRuns.StepKeepsInv` | src/network/transport/connection.rs:54-112 | every step of every task, whatever the payloads, keeps the invariant: bounds; links that may lose frames but never reorder them; what each reader has decoded and has ahead of it being, byte for byte, what was written, and up to the first payload too long frame for frame; order past the readers; the provenance of every token |
| `PipelineRuns.ReachableInv` | src/bin/uipd.rs:49-89 | so every reachable state of any number of daemons satisfies it |
| `PipelineRuns.ReadsTheOldest` | src/network/transport/connection.rs:56-64 | as long as nothing was cut on the connection, the next frame decoded is the oldest one under way, unless that is itself too long |
| `Causes.FactsAreWhatHappened` | src/unix/state.rs:72-143 | in every run, going by its actions: clients and ports are as bound, a port belongs to the last that bound it, what a client has sent is what was read from it, in order and under its port, and each end of a connection has the label, peer and socket it was opened with |
| `Causes.EnteredIsWhatWasSent` | src/network/transport/connection.rs:54-127 | in every run, the pings on a direction are as many as its ping task sent, the pongs as many as the pings answered at its near end, and the control messages are those the daemon sent, in order, with those of clients on port 0 among them |
| `Causes.EachEndHasItsSocket` | src/network/transport/socket.rs:103-107 | what is decoded on a connection goes through the socket on which its receiving end was opened, and no other |
| `Delivery.PayloadInOrder` | src/network/transport/connection.rs:54-112 | per connection on which nothing was cut, the client frames put into its sink are, in order and with the lost ones among them, those handed to the port table and then those in hand or queued at each stage; without losses exactly those |
| `Delivery.ControlInOrder` | src/network/state.rs:127-144 | the same for control messages, up to the task that processes them |
| `Delivery.OrderIsKeptIffNoneCut` | src/network/transport/codec.rs:25-29 | for every reachable state and every direction of a connection, the order law holds for all four kinds if and only if no too long payload has been read there: as many have entered as are still on the link or were lost |
| `Delivery.OneOrderUpToReaderIffNoneCut` | src/network/transport/connection.rs:54-112 | and exactly then all four kinds together come off the link in the one order in which they entered |
| `Delivery.PastReader` | src/network/transport/connection.rs:67-87 | whatever was decoded, each kind keeps its order from the reader to the log where it ends |
| `Delivery.DataKeepsOneOrderIffNoneCut` | src/network/state.rs:127-144 | client frames and control messages of a connection share one order, from the sink to the task that tells them apart, if and only if nothing was cut there |
| `Delivery.ControlOvertakesOnlyTheWaiting` | src/network/state.rs:229-243 | in every run, a processed control message has overtaken precisely the client frames that came before it on its connection and have not reached the port table: the oldest waiting in the upstream queue or the forwarder's hand, never more than six |
| `Delivery.QueuesStayBounded` | src/bin/uipd.rs:49-52 | no queue holds more than its bound (5, or 10 per connection, socket and client) and no task more than one value, and there is room exactly below that |
| `Submission.PacketsAreSubmittedInOrder` | src/unix/state.rs:101-143 | in every run, what a client has sent is, in order and each once, what the forwarder is done with, then what of it is in the forwarder's hand, the host's queue and the client's read task |
| `Submission.EnteredAsForwarded` | src/network/state.rs:287-301 | in every run, the client frames that entered a connection are exactly those the forwarder has put there, in order, and each client's are among them in the order it sent them |
| `Submission.OneConnectionKeepsTheClientsOrder` | src/network/state.rs:287-301 | if all packets of a client settled so far went over one connection, the first it sent, as many as were settled, entered that connection in that order among those of other clients |
| `Origins.WhatIsDecoded` | src/network/transport/connection.rs:54-112 | in every reachable state and whatever the payloads, what a reader has decoded, and what the bytes ahead of it decode to, is exactly what decoding all bytes written there yields |
| `Origins.UncutIsDecoded` | src/network/transport/codec.rs:25-67 | up to the first frame too long that was read, frames decoded are frames written; if there was none, that is all of them |
| `Origins.ArrivedAsSent` | src/network/transport/connection.rs:54-112 | in every run and for every kind, what has come to the end of its way, as far as it was decoded before the first cut, is the oldest of what was sent and not lost, in order, whatever was read later |
| `Origins.NothingIsForged` | src/unix/state.rs:137-171 | in every run, whatever a client receives came over a connection from the host it is shown to its own; unless it was decoded there only after a payload too long, it was sent, with these bytes and to this client's host and port, by a client bound to that port on that host |
| `Origins.LabelsAreTruthful` | src/network/state.rs:287-314 | in every run, what waits for delivery carries the host at the connection's other end; unless decoded only after a payload too long, a client there sent it to here |
| `LocalDelivery.StepIsSimulated` | src/unix/state.rs:149-171 | each step of the whole pipeline is at most one event of a host's port table, and logs what that event looks up |
| `LocalDelivery.EachBinderIsServedItsBlock` | src/unix/state.rs:116-171 | in every run, whatever was cut or lost, what reached a host's table for a port splits in order into an initial block and one block to each client that ever bound it, the last to the present one; each has been handed a prefix of its block, and while it is open at most the packet in the forwarder's hand is missing |
| `Heartbeat.PingsAreAccountedFor` | src/network/transport/connection.rs:67-72 | in every run, the pings put on a direction, with the pings and pongs that cut payloads added, are those under way or lost, those whose pong is under way or lost and those whose pong arrived; without cuts pongs never exceed pings |
| `Heartbeat.ExtraIsSinceTheCut` | src/network/transport/codec.rs:25-29 | what cut payloads added is counted over what was decoded after the first cut alone, and is nothing if nothing was cut |
| `Quiescence.ReadLowersMeasure` | src/network/transport/connection.rs:67-87 | each frame the read task finishes lowers 2 x pings + pongs + data still to be read, even when it answers with a pong, whatever the bytes ahead decode to |
| `Quiescence.ConnectionQuiesces` | src/network/transport/connection.rs:54-112 | from any reachable state, with timers paused and nothing more lost, the two ends of a connection finish at most that many frames in any interleaving |
| `Quiescence.PendingIsUnderWay` | src/network/transport/connection.rs:54-112 | where nothing was cut and all on the link fits, the frames still to be read are those in hand, under way and unwritten |
| `Passage.PacketArrives` | src/unix/state.rs:101-171 | over an idle path a client's packet reaches the client bound to the addressed port, under the sender's host and port |
| `Draining.PacketCanAlwaysArrive` | src/unix/state.rs:101-171 | from every reachable state in which no payload too long is on the connection or was read there, whatever fills the queues, a run drains the way and brings the packet to the client bound to the addressed port, under the sender's host and port |
| `Passage.ReplyComesBack` | src/unix/state.rs:137-171 | in every run, answering the host and port that were received reaches, over an idle path, whoever is bound there, under the answering client's host and port |
| `Passage.PingComesBack` | src/network/transport/connection.rs:67-72 | from any reachable state, over a connection quiet in both directions, a run sends a ping, answers it and hears the pong |
| `Passage.ControlCanOvertake` | src/network/state.rs:229-243 | a reachable state in which a control message is processed and a client frame sent before it is still queued |
| `Passage.OrderIsKeptIffPayloadFits` | src/network/transport/codec.rs:25-29 | a run for every payload: after a client frame has crossed an idle connection the order law holds there if and only if its payload has at most 65535 bytes |
| `Passage.AnyFrameCanBeSmuggled` | src/network/transport/codec.rs:25-29 | for every frame of less than 65536 bytes there is a run in which the only client sends a single payload, and the frame is decoded and in the other end's hand |
| `Passage.PacketCanBeForged` | src/network/transport/codec.rs:25-29 | a reachable state with a packet decoded from a port on which no client ever was |
| `Passage.PongCanBeUnasked` | src/network/transport/codec.rs:25-29 | a reachable state with a pong heard and no ping sent |
| `PortTable.BlocksPartitionTheTraffic` | src/unix/state.rs:116-171 | the packets looked up for a port are, in order, an initial block without owner and one block per successive binder |
| `PortTable.EachBinderGetsAPrefixOfItsBlock` | src/unix/state.rs:149-171 | each binder is handed a prefix of its own block, even if a rebind falls between lookup and send; all but a packet in hand while it is open |
| `PortTable.EveryBinderHasABlock` | src/unix/state.rs:116-122 | whoever is bound has bound, so owns a block |
| `PortTable.BlocksNameTheTable` | src/unix/state.rs:116-122 | the last block belongs to the client in the table, and no client owns two |
| `PortTable.UnixState.Bind` | src/unix/state.rs:116-122 | a bind replaces the port's queue and leaves older queues and packets in hand where they are |
| `PortTable.UnixState.FindQueue` | src/unix/state.rs:160-164 | the lookup, as one event of the table's history |
| `PortTable.UnixState.PushToQueue` | src/unix/state.rs:165-170 | the send goes to the queue that was found, with the sender's host, port and bytes, waits exactly while that is open and holds 10 frames, and is dropped exactly if its client is gone; no other queue changes |
| `PortTable.UnixState.TakeFromQueue` | src/unix/state.rs:123-134 | the client's write task takes the oldest frame of its queue |
| `UdpDemux.NothingIsLostOrMixed` | src/network/io/socket.rs:50-119 | whatever `connect` calls interleave, the arrivals are, in order, those queued on a channel of their sender or dropped, plus at most one in hand; each channel has held exactly those logged for it, in order, all from its own remote |
| `UdpDemux.ReceivedIsQueuedOrDropped` | src/network/io/socket.rs:113-116 | going by the actions of a run, the datagrams received are those queued, dropped or in hand, and one was dropped only if the channel found for it had been closed |
| `UdpDemux.UnknownRemotesAreSurfaced` | src/network/io/socket.rs:64-118 | while the reader runs, a remote never named in `connect` has had exactly one connection surfaced as soon as one of its datagrams was queued, but for the time in which the reader is still busy with the first of them |
| `UdpDemux.AtMostOneSurfaced` | src/network/io/socket.rs:64-71 | over a socket's life each remote surfaces at most one connection, and the first datagram that connection ever sees is the one that caused it; those surfaced are, in order, those accepted and at most ten waiting |
| `UdpDemux.KnownRemotesAreNotSurfaced` | src/network/io/socket.rs:84-118 | once a remote is known before a lookup, no connection is surfaced for it in any continuation |
| `UdpDemux.EntryIsSafeIff` | src/network/io/socket.rs:84-118 | a table entry is safe from everything but another `connect` for the remote if and only if the reader is not past the lookup with another usable channel for it |
| `UdpDemux.NewestConnectCanLose` | src/network/io/socket.rs:84-118 | the race is reachable: arrival, lookup, `connect`, and the reader's own channel replaces the newest entry, which is then neither in the table nor in the reader's hand |
| `UdpDemux.ForgottenGetsNothing` | src/network/io/socket.rs:50-119 | such a channel never gets another datagram, in any continuation |
| `UdpDemux.StepKeepsInv` | src/network/io/socket.rs:50-119 | every step of the reader, `connect` and the connections keeps the invariant behind these |
| `UdpDemux.Socket.Connect` | src/network/io/socket.rs:84-93 | `connect` is one step of the demultiplexer at whatever point it comes |
| `UdpDemux.Socket.FindOrCreate` | src/network/io/socket.rs:100-112 | the lookup, or the making of a channel that is not in the table yet |
| `UdpDemux.Socket.Forward` | src/network/io/socket.rs:113-116 | the awaited send: waits exactly while the channel is open and holds ten datagrams, drops exactly if its receiver is gone |
| `UdpDemux.Socket.WriteBack` | src/network/io/socket.rs:117-118 | the destination is written back over whatever is there by now |
| `UdpDemux.Socket.Announce` | src/network/io/socket.rs:64-71 | a new connection is handed on, waiting exactly while that queue is full |
| `PeerInfo.RecordsHaveAHistory` | src/network/state.rs:100-122 | in every run, going by its actions: every record in a table was in an initial table, or the node it names published it with the addresses and relays it had at that moment, or a port-0 client of that node had it sent; so with those under way or handled, but for what a port-0 client of the sender had it say of others; requests go to the first relay of the entry their sender had |
| `PeerInfo.PublishingInforms` | src/network/state.rs:245-255 | a record published and delivered becomes the receiver's entry for that node, addresses and relays included, and no other entry changes |
| `PeerInfo.RequestsAreAnsweredFromTheTable` | src/network/state.rs:256-267 | a request for X is answered with the entry for X, exactly when there is one and the asker can be reached; nothing else is answered |
| `PeerInfo.EntriesAreTheSubjectsLastWord` | src/network/state.rs:245-255 | a node's entry for X is the last self-describing record from X it handled, else its initial entry; keys stay the records' ids |
| `PeerInfo.AnswersAboutOthersAreIgnored` | src/network/state.rs:252-254 | a message changes the receiver's table if and only if it is a new record of its own sender |
| `PeerInfo.AskingTeachesNothing` | src/network/state.rs:271-287 | a node that asks its first relay about a third peer gets the relay's entry as an answer, and its table stays as it was |
| `Records.HandledAsSent` | src/network/state.rs:229-243 | in every run, the control messages handled over a connection, as far as they were decoded before the first cut there, are the oldest of those sent there that were not lost, in order; without a cut these are all that were handled |
| `Records.EntriesNeverFallBack` | src/network/state.rs:245-255 | in every run, a node's entry for X is the newest record from X it handled over this connection or over the others, however they interleave; a record handled earlier over the same connection never comes back |
| `PeerInfo.PeerInformationBase.AddPeer` | src/data/peer_information_base.rs:20-22 | one entry is replaced, the others kept; its first address is the one looked up |
| `PeerInfo.PeerInformationBase.AddPeerAddress` | src/data/peer_information_base.rs:34-40 | the address is added at the end of an existing or new entry; the first known address never changes |
| `PeerInfo.PeerInformationBase.ProcessControlMessage` | src/network/state.rs:245-269 | only a record of the host itself is stored, only a request is answered, with the entry asked for; both as in the protocol among the nodes |
| `Reconcile.PassFollowsDiscovery` | src/network/state.rs:53-74 | after a pass the open addresses are addresses of discovered interfaces with the node's own port; one that was open stays if and only if it is found, another is open if and only if an entry with it could be opened; without failures they are exactly those found |
| `Reconcile.SecondPassIsIdle` | src/network/state.rs:53-74 | after a failure-free pass another one with the same discovery closes nothing and finds nothing to open |
| `Reconcile.OpenIffFoundEverSince` | src/network/state.rs:148-161 | after any passes, failures included, an address is open if and only if it was opened at some point and every discovery since has found it |
| `Reconcile.NetworkState.CloseStaleSockets` | src/network/state.rs:76-98 | exactly the sockets no longer discovered are removed, closed and cleared; the others are the same objects, unchanged |
| `Reconcile.NetworkState.FollowDiscovery` | src/network/state.rs:62-72 | closing and opening together: survivors are the same unchanged objects, the others are closed and cleared, new ones are fresh and empty and on the addresses whose opening succeeded |
| `Reconcile.NetworkState.OpenNewSockets` | src/network/state.rs:53-74 | a whole pass: survivors unchanged, stale ones cleared, new ones fresh and empty, each on a discovered interface at that interface's address with the node's own port; everyone registered told once |
| `Reconcile.NetworkState.ObserveNetworkChanges` | src/network/state.rs:148-161 | over any number of passes, with peers connecting in between, a socket open before is the same object if every pass found its address, its registry being the old one with new connections of those accepted since, else it is closed and cleared; all others are new; the open addresses are as specified, each its socket's own with the configured port |
| `Reconcile.NetworkState.MyPeerInformation` | src/network/state.rs:100-110 | the node's record of itself lists each open address once |
| `Reconcile.NetworkState.PublishesItself` | src/network/state.rs:100-122 | what the node publishes in the protocol among the nodes describes it: identifier, relays and each open address once; and any record that does can be the one it publishes |
| `Reconcile.NetworkState.PublishAddresses` | src/network/state.rs:112-122 | every connection registered on an open socket, and no other, is told exactly once |
| `Reconcile.NetworkState.GetConnection` | src/network/state.rs:202-314 | for a host with a registered connection, one of these and nothing else happens; otherwise one socket dials the host at its first known address, and the connection is new and labelled with the host; which of the errors, exactly when |
| `Reconcile.TransportSocket.Accept` | src/network/transport/socket.rs:96-108 | an accepted connection is new and registered under the identifier it is labelled with, in place of an earlier one |
| `Reconcile.TransportSocket.OpenConnection` | src/network/transport/socket.rs:125-152 | an outgoing connection is labelled with the identifier it was opened for, and the registry does not change |
| `Reconcile.TransportSocket.Close` | src/network/transport/socket.rs:114-119 | the registry is cleared |
| `Debounce.EmissionsAreRateLimited` | src/network/change/debounce.rs:34-46 | in every run N emissions take more than N windows, and between one emission's poll and the start of any later one's more than a window passes, with two clock readings per poll |
| `Debounce.NothingIsInvented` | src/network/change/debounce.rs:34-46 | in every run of a new stream, what arrived is what was taken from the inner stream and what waits there, in order; the output is what was taken and not thrown away |
| `Debounce.PollsByTheWindow` | src/network/change/debounce.rs:34-46 | going by the events alone, the window restarts when the stream is made and at the second clock reading of every poll that came more than a window after the last restart; such a poll answers the oldest waiting event, if any, and any other answers "pending", emits nothing and leaves nothing waiting, or never returns once the inner stream has ended |
| `Debounce.DrainEndsIffOpen` | src/network/change/debounce.rs:39-44 | the loop inside the window ends if and only if the inner stream has not ended |
| `Debounce.Debouncer.PollNext` | src/network/change/debounce.rs:34-46 | a poll answers and changes what the specification says, and its loop takes exactly the waiting items |
| `Keepalive.TimesOutIffLongGap` | src/network/transport/connection.rs:56-66 | whatever else arrives and however long handling takes, the read loop can time out if and only if some gap between pings, or before the first, is 20 s or more |
| `Keepalive.TimelyPingsKeepAlive` | src/network/transport/connection.rs:115-127 | pings sent every 15 s that each arrive within less than 5 s, the first within 20 s, keep the connection alive in every run |
| `Keepalive.FiveSecondsAreTooMany` | src/network/transport/connection.rs:115-127 | the bound is sharp: with delays of up to exactly 5 s there is a run that times out |
| `Keepalive.SilenceEndsTheLoop` | src/network/transport/connection.rs:56-66 | once nothing arrives, a waiting reader ends exactly 20 s after it was last armed: from wherever a run is it can, no run ends it otherwise, and a run that can go no further has ended |
| `Identifiers.IdentifierRoundTrip` | src/data/identifier.rs:53-76 | every identifier prints as 64 characters that read back as it |
| `Identifiers.TextRoundTrip` | src/data/identifier.rs:56-66 | exactly the texts of 64 characters 0-9, A-F and a-f, or a plus sign as the first of a pair, are read, and printing what was read gives the text in upper case with zeros for the plus signs |
| `Identifiers.PrintedDigits` | src/data/identifier.rs:69-76 | each byte prints as its two digits, the high one first |
| `Identifiers.Read` | src/data/identifier.rs:90-106 | filling the array pair by pair, giving up at the first malformed one, reads what the specification reads |
| `Identifiers.Print` | src/data/identifier.rs:69-76 | writing byte by byte prints the specified text |
| `LocalCodec.FrameRoundTrip` | src/unix/codec.rs:27-60 | every serialised frame reads back as itself with what follows left over |
| `LocalCodec.StreamRoundTrip` | src/unix/codec.rs:27-60 | any list of frames comes back from the concatenation of its serialisations and the buffer ends up empty |
| `LocalCodec.NeverOverruns` | src/unix/codec.rs:38-43 | dropping as many bytes as the frame serialises to never drops more than were read |
| `LocalCodec.LeavesTheUnreadIffShortest` | src/unix/codec.rs:38-43 | precisely the unread bytes are left if and only if every number and length had its shortest form |
| `LocalCodec.EveryLengthFormIsRead` | src/unix/codec.rs:32-37 | lengths of strings and arrays are read from each of their forms, shortest or not |
| `LocalCodec.OtherTagsAreErrors` | src/unix/codec.rs:32-37 | a buffer that starts with another tag is no frame |
| `LocalCodec.PartOfAFrameIsAnError` | src/unix/codec.rs:28-37 | a buffer with a proper part of a frame is an error, with none "not ready", with all of it the frame |
| `LocalCodec.ChunksAreReadIffCutBetweenFrames` | src/unix/codec.rs:27-45 | for any list of frames and any way of cutting its serialisation, decoding chunk by chunk yields the list if and only if every cut falls between frames |
| `LocalCodec.LongFormIsReadTwice` | src/unix/codec.rs:38-43 | a concrete buffer of four bytes, which depend on the assumed one-byte variant tag, holds one bind in a longer form and is decoded as two |
| `LocalCodec.LocalBuffer.TryDecode` | src/unix/codec.rs:27-45 | in place: a frame and the advance by its re-serialised length, or the buffer untouched |
| `LocalCodec.LocalBuffer.DecodeAll` | src/unix/codec.rs:27-45 | decoding until nothing is ready ends, with the specified frames and bytes |

## Left out

- Delivery.PayloadInOrder: stated for a connection on which no payload longer than 65535 bytes has been read, because there the law fails (`Delivery.OrderIsKeptIffNoneCut`); likewise `Delivery.ControlInOrder`. What holds in every run is `Origins.ArrivedAsSent`.
- Origins.NothingIsForged: no sender is given for what was decoded only after a payload too long, because it can be any frame (`Passage.AnyFrameCanBeSmuggled`); likewise `Origins.LabelsAreTruthful`.
- Quiescence.ConnectionQuiesces: while the two ends fall silent no further frame is lost; frames lost before are allowed.
- Records.EntriesNeverFallBack: how the messages of a node's several connections interleave is left open, and so is how a message is read off its bytes.
- Draining.PacketCanAlwaysArrive: the run exists; in it packets that still wait in the sending host's queue are given up, as when no connection can be made for them. That every schedule delivers is not claimed, because binders may stop reading and connections may end.
- Submission.OneConnectionKeepsTheClientsOrder: a client's packets to one host that go over different connections may overtake each other, since the choice among connections is left open.
- Keepalive.SilenceEndsTheLoop: a waiting reader with a frame, or past its timeout, is scheduled before time goes on; if both happen at once either branch may be taken, as in the source.
- Reconcile.NetworkState.OpenNewSockets: the source collects the new addresses in a list before it opens them; here one loop opens those that had no socket before it, which comes to the same.
- TLS and DTLS, certificates and key hashing (src/data/identity.rs): a connection's label is taken to be truthful.
- Real sockets, netlink and interface enumeration: discovery is an arbitrary list of addresses or a failure, and each opening or handshake succeeds or fails at will.
- Failures in the middle of a connection (write errors, read errors, closing of its tasks): the wire between two transport ends carries each frame's bytes in order or loses the frame whole; the UDP part below it has its own model.
- The lifetime of queues and tasks: tasks do not end, except that clients go away and the UDP reader stops.
- While a control message is processed the real task may wait for a connection to answer on; here processing and answering are separate steps, and answers may be lost.
- The MessagePack library: only the forms that occur, with one-byte variant tags; signed, 64-bit and binary forms are left out, and a control message is a typed value, not bytes.
- Non-ASCII identifier text, where slicing inside a character panics, counts as malformed.
- `connect_to_relays` appears as publishing to a relay; that asking a relay makes progress is not claimed, because its answer about others is ignored.
- Connections opened for outgoing traffic are never registered, so no reuse of them is claimed, and order is per connection, not per peer.
- The UDP table and the port table never drop an entry; no liveness depends on that.
- Debouncing throws away events inside the window; that each burst is eventually reported is not what the code gives.
- Locks: a method's reads and writes are atomic steps, except where the source awaits between them.
- The adapter src/network/io/connection.rs, command line, configuration files, logging, the RPC stub and the Mininet script.
