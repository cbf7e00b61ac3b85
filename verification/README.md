# A verified model of the GNL packet protocol and of the asio buffers under it

GNL moves command packets between a game server and its clients. Two parts of it are modelled here, and the
theorems about them are statements over every input, every interleaving and every run.

**The packet protocol**, from a client's script to the server's packet handler and back.

| file | what it models |
|---|---|
| `Bytes.dfy`, `NetPacket.dfy` | integers as bytes, packets, the header's image on the wire, the operators `<<` and `>>` |
| `NetTCPConnection.dfy` | one connection object: a chain of single writes, a chain of single reads, their handlers, and a count of the operations started and ended |
| `Channel.dfy` | sender, byte wire and receiver as a step system with arbitrary chunks, failures and closes: safety and progress |
| `Closing.dfy` | what a closed socket means for the rest of a run |
| `Misdelivery.dfy` | runs in which what is delivered is not what was sent |
| `NetQueue.dfy` | the queue object, and its two mutexes with any number of producers and one consumer |
| `NetQueueRuns.dfy` | what producers asked to push arrives; pushes and `Process` calls that nobody disturbs; lost wake-ups |
| `Delivery.dfy`, `HubRuns.dfy` | many connections feeding one queue while `Process` empties it: the end-to-end theorem, and the same from the events alone |
| `World.dfy`, `Roster.dfy`, `Traffic.dfy` | the server's state and handlers as functions; what they keep over whole runs; what they send to whom, and how it reads back |
| `Handlers.dfy`, `Accepting.dfy` | what the dispatcher does with every command, and who is connected, said without naming the handlers' own functions |
| `Server.dfy` | the server object whose methods do in place, with the source's loops, what those functions say |
| `Replies.dfy` | the way back: every packet the server sends is framed, so clients receive an intact prefix of them |
| `GDNative.dfy`, `Scripts.dfy` | the script-facing writer and reader of values; what scripts send, and which send framed packets |

**The byte-buffer algorithms** of asio that the protocol rests on: `BuffersIterator.dfy` (a cursor over a list of
buffers), `BufferCopy.dfy` (the scatter/gather copies), `ByteQueue.dfy` (a bounded FIFO), `DynamicBuffer.dfy` (proved
to be that FIFO), `StreamQueue.dfy` (the FIFO with its prepared space, operation by operation, and its equality with
the plain one), and `StreamBuf.dfy` (proved to be the latter).

## How to read it

Objects that the source updates in place are classes. Each handler of such a class is proved against a function on
values, for example `Sending() == HeaderWritten(old(Sending()))`, and the theorems are about those functions and
their runs. A *run* is any list of events; an event that is not possible in a state leaves the state unchanged, so
the theorems quantify over all lists without side conditions. Handlers are atomic because one thread runs the
`io_context`.

Some of the properties one would expect hold only under a condition. The code is modelled as it is; a lemma
whose name ends in `Iff` states the exact condition, in terms of what a caller can see beforehand.

- *Framing.* The sender decides by the body's length whether a body follows, the receiver by the header's size
  field. Delivered packets are the sent ones exactly when the packets sent were framed (`DeliveredIntactIff`).
  `UnframedTakesBytes` is a family of runs that deliver something else. `PreparePacket` and `ReadString` leave the
  size field behind (`ClearedFraming`, `ReadBackFramedIff`); `SentFramedIff` says which scripts are safe.
- *Stale bodies.* A received packet of size zero keeps the previous packet's body. Delivered packets are therefore
  compared on header and on the first `size` bytes; full equality has its own condition (`DeliveredEqualIff`).
- *16-bit IDs.* A character's ID is the connection's ID cut to 16 bits. World and connection list stay in step
  throughout a run if and only if nobody enters with an ID of 65536 or more while the cut-off ID is free
  (`AlwaysInStepIff`), and the same condition decides whether the roster holds throughout and goes on to hold
  whichever client leaves next (`RosterAlwaysLastsIff`). `LateEnterBreaksRoster` and `CloseAfterEnterBreaksRoster` are runs of three and four events
  that fail; the counter has no initial value, so such a run needs no long history.
- *Concurrent reads.* A second call of `ConnectToClient` would start a second read (`StartReadAloneIff`); the server
  makes one call per connection.
- *Lost wake-ups.* `wait` tests for emptiness before it locks, so a push in between is not noticed (`WakeUpIsLost`)
  until the next push or a spurious wake-up (`WakeUpIsMadeGood`).
- *Throwing prepare.* `basic_streambuf::prepare` moves bytes before it throws (`DisplacedHarmlessIff`, `DisplacedExample`), although the
  documentation of `prepare` mentions no effect besides the exception.
- *Unprepared dynamic buffers* count contents only up to the maximum, so they throw like the FIFO only for contents
  within the maximum (`UnpreparedThrowsLikeQueueIff`).

## Model

| member | source | states |
|---|---|---|
| Bytes.ToLeFromLe | Common/include/NetPacket.h:45-46 | the bytes copied out of a value and back give the value's bytes again, for any width |
| Bytes.FromLeToLe | Common/include/NetPacket.h:64-65 | a value of any size copied into k bytes and back comes back modulo 256^k, and so unchanged if it fits |
| Bytes.LittleEndian | Common/include/NetPacket.h:45-46 | the byte at offset i of a value's bytes is the one that weighs 256^i, for any width |
| NetPacket.DecodeEncodeHeader | Common/include/NetTCPConnection.h:87 | eight header bytes handed to the socket read back as the same header |
| NetPacket.EncodeDecodeHeader | Common/include/NetTCPConnection.h:135 | any eight received bytes are the image of the header they decode to, so no header is unreadable |
| NetPacket.HeaderInjective | Common/include/NetPacket.h:17-23 | different headers have different images |
| NetPacket.HeaderLayout | Common/include/NetPacket.h:17-23 | which byte of command, padding or size each of the eight header bytes is |
| NetPacket.PopPush | Common/include/NetPacket.h:34-75 | `>>` undoes the last `<<`: value and body, and for a framed packet the size as well |
| NetPacket.PushPop | Common/include/NetPacket.h:34-75 | pushing back what was popped restores a framed packet completely |
| NetPacket.FramingRestored | Common/include/NetPacket.h:32-75 | both operators leave size equal to the body's length if and only if the new length fits in 32 bits, whatever the size was |
| NetPacket.PacketObject.Append | Common/include/NetPacket.h:34-53 | `<<` in place: resize, copy, refresh the size; the new packet is the pushed one |
| NetPacket.PacketObject.Extract | Common/include/NetPacket.h:55-75 | `>>` in place: returns the last bytes and leaves the popped packet |
| NetTCPConnection.TCPConnection.SendPacket | Common/include/NetTCPConnection.h:66-80 | a send only posts the packet, behind those already posted |
| NetTCPConnection.TCPConnection.OnPosted | Common/include/NetTCPConnection.h:69-78 | the posted lambda queues the packet and starts a write exactly if the queue was empty; the write-chain invariant is kept |
| NetTCPConnection.TCPConnection.OnHeaderWritten | Common/include/NetTCPConnection.h:86-114 | after the header comes the body if it is non-empty, else the next packet; an error closes the socket and leaves the queue |
| NetTCPConnection.TCPConnection.OnDataWritten | Common/include/NetTCPConnection.h:115-133 | after the body the packet is dropped and the next write starts exactly if the queue is non-empty |
| NetTCPConnection.TCPConnection.OnHeaderRead | Common/include/NetTCPConnection.h:134-161 | a non-zero size starts a body read into a buffer of that size; zero delivers the packet with the body left there |
| NetTCPConnection.TCPConnection.OnDataRead | Common/include/NetTCPConnection.h:162-177 | a complete body is delivered to the incoming queue and the next header read starts; an error delivers nothing |
| NetTCPConnection.TCPConnection.PushToIncomingQueue | Common/include/NetTCPConnection.h:178-185 | exactly the packet read is appended, tagged with the connection on the server and with none on the client |
| NetTCPConnection.TCPConnection.ConnectToClient | Common/include/NetTCPConnection.h:28-37 | one more read is started, and the ID is set, exactly on an open server-side connection |
| NetTCPConnection.StartReadAloneIff | Common/include/NetTCPConnection.h:28-37 | the call leaves a single read outstanding if and only if none was outstanding before |
| NetTCPConnection.TCPConnection.WriteHeader | Common/include/NetTCPConnection.h:86-87 | one more write is started; the caller must show that none is under way |
| NetTCPConnection.TCPConnection.WriteData | Common/include/NetTCPConnection.h:115-116 | the same for the body |
| Channel.WriteHeaderDoneInv | Common/include/NetTCPConnection.h:86-114 | the byte and packet accounting survives the completion of a header write |
| Channel.WriteDataDoneInv | Common/include/NetTCPConnection.h:115-133 | the same for the completion of a body write |
| Channel.ReadHeaderDoneInv | Common/include/NetTCPConnection.h:134-161 | the same for the completion of a header read, stale body included |
| Channel.ReadDataDoneInv | Common/include/NetTCPConnection.h:162-185 | the same for the completion of a body read and its delivery |
| Channel.RunInv | Common/include/NetTCPConnection.h:54-185 | after every run of a two-way link, in both directions: one write if and only if packets are queued, bytes out equal bytes in plus bytes on the wire, sent packets equal popped plus queued plus posted |
| Channel.DecodePrefix | Common/include/NetTCPConnection.h:134-185 | decoding is unambiguous: if the consumed bytes start the bytes of framed packets, the consumed packets are the first of those packets |
| Channel.DeliveredIntactIff | Common/include/NetTCPConnection.h:93-140 | in any state that satisfies the invariant, the delivered packets are an intact prefix of the sent ones if and only if the sent packets at delivered positions were framed |
| Channel.DeliveredEqualIff | Common/include/NetTCPConnection.h:140-148 | among framed packets, delivered packets equal sent ones in full if and only if no empty packet directly follows a non-empty one |
| Misdelivery.StaleBody | Common/include/NetTCPConnection.h:140-148 | for any framed non-empty packet and any empty one after it, a run that delivers the second with the first one's body: intact on its bytes, but not what was sent |
| Misdelivery.StaleBodyExample | Common/include/NetTCPConnection.h:140-148 | such a run with a one-byte packet |
| Misdelivery.UnframedTakesBytes | Common/include/NetTCPConnection.h:93-140 | for any packet without a body that claims bytes, and any packet after it long enough: a run that delivers the first with the beginning of the second one's bytes as its body, so not intact |
| Misdelivery.UnframedExample | Common/include/NetTCPConnection.h:93-140 | such a run: size 1 and no body, and the next packet's command arrives as the body |
| Channel.DeliveryIsPrefix | Common/include/NetTCPConnection.h:66-185 | main safety theorem: over all runs of framed sends, partial transfers, failures and closes, delivered packets are an intact, in-order prefix of the packets posted; no partly read packet is delivered |
| Channel.WriteStartsWhenFree | Common/include/NetTCPConnection.h:66-133 | a step starts at most one write, and one only if none is under way or the one under way has just completed; any other step leaves the write as it is, advances it or ends it |
| Channel.ReadStartsWhenFree | Common/include/NetTCPConnection.h:134-185 | the same for reads |
| Channel.OneWriteIffQueued | Common/include/NetTCPConnection.h:66-133 | over all runs, of all the writes ever started exactly one has not ended if the queue is non-empty and no write has failed, and none otherwise; so a front packet exists whenever one is taken |
| Channel.OneReadUntilFailure | Common/include/NetTCPConnection.h:134-185 | over all runs, once reading has begun and until a read fails, exactly one of all the reads ever started has not ended |
| Channel.RunMirrored | Common/include/NetTCPConnection.h:66-185 | exchanging the names of the two ends exchanges the two directions of every run, so the theorems hold both ways |
| Channel.DeliveryBackIsPrefix | Common/include/NetTCPConnection.h:66-185 | the main safety theorem for the direction from B to A |
| Channel.WriteFailureIsFinal | Common/include/NetTCPConnection.h:86-133 | after a failed write, no event of any later run starts a write, writes a byte or pops a packet; what the closed socket means for the other direction is `Closing.EndedSideIsDone` |
| Closing.EndedSideIsDone | Common/include/NetTCPConnection.h:54-61 | over all runs: once a write or read of A has failed or A has disconnected, no byte leaves A and A takes none, in either direction, in any continuation of the run |
| Closing.EndedSideIsDoneB | Common/include/NetTCPConnection.h:107-176 | the same for B, whose failing handlers close its socket |
| Channel.ProgressDecreases | Common/include/NetTCPConnection.h:86-185 | every protocol step makes the remaining work strictly smaller |
| Channel.RestIsComplete | Common/include/NetTCPConnection.h:86-185 | a failure-free direction that can take no step has delivered everything sent, with an empty queue and wire and the reader at a header boundary |
| Channel.EveryRunCompletes | Common/include/NetTCPConnection.h:86-185 | main progress theorem: whatever enabled steps are chosen, their number is bounded by the initial work, and a run that can go no further has delivered every packet |
| NetQueue.NetQueue.PopFront | Common/include/NetQueue.h:25-31 | removes and returns the front |
| NetQueue.NetQueue.PushBack | Common/include/NetQueue.h:38-46 | adds at the back and changes nothing before it |
| NetQueue.RunInv | Common/include/NetQueue.h:25-73 | after every interleaving, each mutex is held by exactly the thread whose position says so, and what producers put in (all they were asked to: `NetQueueRuns.PushesArrive`) is what was handled followed by the deque |
| NetQueue.QueueIsSafe | Server/include/NetServerApp.h:154-166 | for any number of producers and any interleaving: `pop_front` never meets an empty queue, packets leave in pushing order, a call handles at most `max_pkt`, and `wait` returns only on a non-empty queue |
| NetQueue.WaitingProcessHandlesOne | Server/include/NetServerApp.h:154-166 | a finished `Process` call that waited has handled a packet, unless `max_pkt` is 0 |
| NetQueue.WaitChainsAreShort | Common/include/NetQueue.h:38-73 | the holder of `m_muxBlock` never waits for `m_muxQueue`; chains of blocked threads never close |
| NetQueue.NoDeadlock | Common/include/NetQueue.h:25-73 | in every reachable state with an active thread, some active thread can step |
| NetQueueRuns.PushesArrive | Common/include/NetQueue.h:38-46 | over all runs, read off the events: the items of a producer among those handled and queued, then the one it holds, are exactly those it was asked to push, in order; once it is idle all are handled or queued |
| NetQueueRuns.PushAlone | Common/include/NetQueue.h:38-46 | six undisturbed steps of a push put the item at the back, wake a sleeping consumer, free both mutexes and change nothing else |
| NetQueueRuns.ProcessAlone | Server/include/NetServerApp.h:154-166 | an undisturbed call, waiting or not, handles exactly the first min(max_pkt, size) packets in order and ends |
| NetQueueRuns.CallEndsOnlyThen | Server/include/NetServerApp.h:159 | over all runs, a call ends only when max_pkt packets were handled or the queue is empty at that moment |
| NetQueueRuns.SignalWakes | Common/include/NetQueue.h:38-46 | over all runs, the consumer is not asleep once a producer has signalled, until that producer has released the mutex |
| NetQueueRuns.WakeUpIsLost | Common/include/NetQueue.h:66-73 | a run in which a whole push falls between the consumer's test and its lock: it sleeps although the queue holds the item |
| NetQueueRuns.WakeUpIsMadeGood | Common/include/NetQueue.h:38-73 | from every such sleep, the next push, or a spurious wake-up, lets the consumer handle all that waits, as far as max_pkt allows |
| Delivery.HubRunInv | Server/include/NetServerApp.h:154-166 | after every run of accepts, link steps and `Process` steps: what arrived is what was handled followed by what is queued, and of each connection exactly what it delivered arrived |
| Delivery.PostedGrows | Common/include/NetTCPConnection.h:66-80 | a client's list of posted packets grows by its own sends only |
| Delivery.QueueConserves | Common/include/NetTCPConnection.h:178-185 | per connection, handled packets followed by queued ones are exactly the delivered ones, in order |
| Delivery.ProcessIsBounded | Server/include/NetServerApp.h:158-165 | one `Process` call handles at most `max_pkt` packets, however many arrive meanwhile |
| Delivery.HandledIsPrefixOfPosted | Server/include/NetServerApp.h:154-166 | end-to-end theorem: the packets handled for a client are an intact, in-order prefix of those it posted, for any interleaving of all clients |
| HubRuns.LinksFollowEvents | Server/include/NetServerApp.h:56-63 | over all runs there is a link for exactly the accepted clients, and each is where its own events since then bring it, whatever else happens |
| HubRuns.HandledFromEvents | Server/include/NetServerApp.h:154-166 | end to end from the events alone: what was handled and then what is queued for a client is an intact beginning of the framed packets it posted since it was accepted |
| HubRuns.ProcessHandles | Server/include/NetServerApp.h:158-165 | after n turns of its loop a call has handled the first min(n, max_pkt, size) packets in order, and it ends exactly when these are min(max_pkt, size) |
| World.WithoutMembers | Server/include/NetServerApp.h:126 | erase-remove drops exactly the given reference and keeps the list free of duplicates |
| World.SendToClientInv | Server/include/NetServerApp.h:117-129 | sending keeps the connection list in order and loses the client exactly if its socket is closed |
| World.NotifyInv | Server/src/Server.cpp:75-77 | notifying any list of clients keeps the list and the map in step |
| Roster.SendToAllWorld | Server/include/NetServerApp.h:130-153 | after `SendToAll` the characters in the world are exactly those whose connection is open |
| Roster.EnterWorldInv | Server/src/Server.cpp:46-98 | entering keeps connection list and world in step, even for a client that is already gone |
| Roster.MovePlayerInv | Server/src/Server.cpp:99-115 | moving keeps them in step |
| Roster.OnPacketInv | Server/src/Server.cpp:19-117 | every packet handler keeps them in step |
| Roster.AcceptInv | Server/include/NetServerApp.h:60-64 | accepting a client under an ID that no other connection has keeps them in step and the IDs distinct |
| Roster.RunBase | Server/src/Server.cpp:19-122 | over all runs and whatever the IDs: every open connection is listed, none twice, and every character belongs to a connection that was accepted |
| Roster.EnterKeepsWorldIff | Server/src/Server.cpp:46-98 | entering keeps world and list in step if and only if the client's ID is below 65536 or the cut-off ID is taken, for open and closed clients |
| Roster.AlwaysInStepIff | Server/src/Server.cpp:19-122 | the exact condition for whole runs: world and list are in step after every beginning of the run if and only if every client that enters meets that condition |
| Roster.InStepIffRosterLasts | Server/src/Server.cpp:120-122 | world and list are in step if and only if the roster holds now and after any one client closes and leaves a ping behind |
| Roster.LeavingBreaksRoster | Server/include/NetServerApp.h:123-128 | if a character's key is not its connection's ID, the roster fails when its client closes and a ping it left behind is handled |
| Roster.RosterAlwaysLastsIff | Server/src/Server.cpp:19-122 | the exact condition for the roster itself: after every beginning of a run the roster holds, and does so after any client leaves, if and only if every client that enters meets the entry condition |
| Roster.RosterHolds | Server/src/Server.cpp:19-122 | roster theorem, over all such runs of accepts, closes and late packets: every character is keyed by its own ID and its connection is still listed, every open connection is listed, nothing is listed twice |
| Roster.ShortRunsEnterInStep | Server/include/NetServerApp.h:63 | runs too short for the counter to pass 65536 meet the condition |
| Roster.LateEnterKeepsRosterIff | Server/src/Server.cpp:46-98 | a gone client's enter-world packet keeps the roster if and only if its ID is below 65536 or the cut-off ID is taken |
| Roster.EnterLeavesGhost | Server/src/Server.cpp:50-54 | otherwise a character stays under a key that is not its connection's ID, and its connection is not listed if it was closed |
| Roster.GhostLosesConnectionIff | Server/include/NetServerApp.h:130-153 | when the client of such a character closes, the next `SendToAll` keeps the roster if and only if it also drops a client whose ID is that key |
| Roster.LateEnterBreaksRoster | Server/src/Server.cpp:46-98 | a run that fails: client 65536 is accepted, closes, and its enter-world packet is handled late |
| Roster.CloseAfterEnterBreaksRoster | Server/include/NetServerApp.h:130-153 | a run that fails: client 65536 enters while connected, closes, and a message to all is sent |
| Traffic.SendToAllDelivers | Server/include/NetServerApp.h:130-153 | each open client but the ignored one gets exactly one copy, others none; the list is its old order restricted to open clients |
| Traffic.EnterWorldDelivers | Server/src/Server.cpp:46-98 | every open client with a character, the newcomer's included, is told once, and the newcomer then gets the reply; `Handlers.EveryPacketHandled` says the same of the dispatcher without `AddCharacter` |
| Traffic.MovePlayerDelivers | Server/src/Server.cpp:99-115 | only the mover's position changes; every other character's client gets exactly one packet and the mover's none |
| Traffic.TellOthersDelivers | Server/src/World.cpp:25-36 | the update loop sends one packet per character other than the mover |
| Traffic.RelayedBodyIff | Server/src/World.cpp:25-36 | the relayed body equals the last 18 bytes received if and only if the client's ID in them matches; positions are relayed either way |
| Traffic.PingEchoes | Server/src/Server.cpp:22-33 | a framed ping comes back to its sender unchanged |
| Traffic.PlacesReadBack | Server/src/Server.cpp:59-65 | popping as many (y, x, id) triples as were pushed yields all of them in order and restores the packet below |
| Traffic.WorldSize | Server/src/Server.cpp:67 | whatever the connections' IDs, the world has at most 65536 characters, so the 32-bit count and the packet length are exact |
| Traffic.EnterReplyReadsBack | Server/src/Server.cpp:54-68 | in every state that a run can reach, the enter-world reply decodes to the client's 16-bit ID, the number of characters and each one's ID and position, and all 18 * count + 6 bytes are consumed |
| Handlers.EveryPacketHandled | Server/src/Server.cpp:19-117 | for every command, any client, open or gone, and any ID, a packet is handled exactly if it has the bytes its handler pops. 2: a character at 0, 0 under the free 16-bit key, or the old one untouched; one news packet to each open client with a character; to the sender a reply listing that world; closed ones leave list and world. 5: the mover's place becomes the last 16 bytes, which go to every other character's client once. 6: the packet comes back. 7: the sender's ID goes once to every other open client. Any other: nothing |
| Handlers.RunKeyed | Server/src/Server.cpp:50-54 | over all runs, every character stands under its own ID, the cut-off ID of its connection, so no connection has two |
| Handlers.RunHandles | Server/src/Server.cpp:19-117 | the same effects of every command after any run, and none of a packet that cannot be handled |
| Handlers.EnteredInStep | Server/src/Server.cpp:46-98 | in step and with an ID below 65536, the world after entering is the newcomer's character and the old ones, of open clients; an open newcomer is in it and is told once |
| Handlers.BroadcastInStep | Server/include/NetServerApp.h:130-153 | in step, the world after a message to all is what it was of open clients |
| Handlers.RunEnters | Server/src/Server.cpp:46-98 | over all runs in which everybody enters in step, for an open client with an ID below 65536: afterwards its character is in the world, the open clients' are as they were, and it was sent the news once and then a reply that decodes to the world it entered |
| Accepting.RunAccepts | Server/include/NetServerApp.h:56-64 | over all runs with up to 2^32 clients: exactly the accepted ones are known, numbered by the counter in the order of acceptance, open unless closed since, greeted before anything else, and listed in that order |
| Server.ErasedIsLive | Server/include/NetServerApp.h:148-152 | nulling the dead entries and erasing the nulls leaves exactly the open connections, in order |
| Server.ScanStep | Server/include/NetServerApp.h:133-146 | one iteration of the scan does to list, world and packets what `SendToAll` on one more connection does |
| Server.AnyOrderWorks | Server/src/Server.cpp:59-77 | whatever order the map is visited in, every connection in it is known, so the handler is defined |
| Server.HandleAllKeepsWorld | Server/include/NetServerApp.h:159-165 | handling any list of packets keeps list and world in step if those who enter have IDs below 65536 |
| Server.Server.SendToClient | Server/include/NetServerApp.h:117-129 | posts to an open client; removes a dead one from list and world and nulls the caller's reference |
| Server.Server.SendToAll | Server/include/NetServerApp.h:130-153 | the scan-and-null loop followed by the erase is the one-copy-each function |
| Server.Server.Accept | Server/include/NetServerApp.h:56-64 | the client is greeted, then listed, then numbered from the 32-bit counter |
| Server.Server.OnClientDisconnect | Server/src/Server.cpp:120-122 | removes the character under the connection's ID |
| Server.Server.AddChaToWorld | Server/src/World.cpp:17-19 | inserts only if the key is free |
| Server.Server.OnPing | Server/src/Server.cpp:22-33 | pops the time, pushes it back, and sends the packet to its sender |
| Server.Server.OnMessageAll | Server/src/Server.cpp:35-45 | sends the client's 32-bit ID to all others |
| Server.Server.BuildReply | Server/src/Server.cpp:56-68 | the loop over the map builds the reply that `EnterReplyReadsBack` decodes, and the list of clients to tell |
| Server.Server.OnSelfEnterWorld | Server/src/Server.cpp:46-98 | add, list, notify and reply, in this order, is the enter-world function, whose effect `Handlers.EveryPacketHandled` states |
| Server.Server.FlagMoveUpdate | Server/src/World.cpp:25-36 | the loop posts the mover's place to every other character's connection |
| Server.Server.OnMovePlayer | Server/src/Server.cpp:99-115 | pops y, x and ID, moves the character if it is in the world, and tells the others |
| Server.Server.OnPacket | Server/src/Server.cpp:19-117 | dispatches on the command as `World.OnPacket` does, whose effect `Handlers.EveryPacketHandled` states for every command |
| Server.Server.Process | Server/include/NetServerApp.h:154-166 | takes exactly the first min(max_pkt, size) packets, handles each in queue order without skipping any, leaves the rest queued, keeps the connection list in order, and keeps the world in step with it if those who enter have IDs below 65536 |
| Replies.PostedIsFramed | Server/src/Server.cpp:19-122 | over all runs and whatever the IDs, every packet posted to any client is framed, given that received bodies fit in 32 bits |
| Replies.DeliveredBodiesFit | Common/include/NetTCPConnection.h:140-148 | which they do: every delivered body, stale or not, is one that a 32-bit size allowed |
| Replies.ReplyFramed | Server/src/Server.cpp:54-68 | the enter-world reply is framed however full the world is |
| Replies.RepliesArrive | Server/include/NetServerApp.h:117-129 | what a client receives is an intact, in-order prefix of what the server's handlers sent it, with no assumption about framing |
| GDNative.TailIsUnique | Client/src/GDNative.cpp:136-140 | the backward scan can stop at one place only |
| GDNative.WriteLayout | Client/src/GDNative.cpp:92-114 | for every packet and value a write keeps command, padding and the bytes before, sets the size to the new length, and adds a NUL and the characters of a string, or a number's 2, 4 or 8 bytes, lowest first |
| GDNative.ReadUndoesWrite | Client/src/GDNative.cpp:92-150 | a read returns the value written last and restores the body, even if the body below holds NULs, and leaves the command |
| GDNative.ReadAllUndoesWriteAll | Client/src/GDNative.cpp:92-150 | any list of values written onto any body reads back in reverse order, and the body is restored |
| GDNative.WritesFrame | Client/src/GDNative.cpp:92-114 | after any non-empty list of writes the packet is framed, if the body fits in 32 bits |
| Scripts.ScriptSends | Client/src/GDNative.cpp:75-114 | any script sends exactly what can be told from its calls: one packet for each send while connected, with the command set last before it (0 if none) and as its body the values written since the last prepare, in order |
| GDNative.ReadBackFramedIff | Client/src/GDNative.cpp:134-144 | reading back leaves a framed packet, whatever its size field was, if and only if the last read was not a string, or strings only were read and the field was the place of the NUL that the last one stops at |
| GDNative.ClearedFraming | Client/src/GDNative.cpp:75-81 | a prepared packet is framed without a write if and only if its size was zero; any write repairs it |
| Scripts.SentFramedIff | Client/src/GDNative.cpp:75-114 | for any script of prepare, command, writes and sends over a connection that comes and goes: all packets sent are framed if and only if, once anything has been written, no packet is sent that was prepared and not written to since |
| Scripts.ScriptArrives | Client/src/GDNative.cpp:87-90 | what such a script sends is delivered as an intact prefix, with no assumption about framing |
| GDNative.NetNode.PreparePacket | Client/src/GDNative.cpp:75-81 | clears the body only, and only while connected |
| GDNative.NetNode.SendPacket | Client/include/NetClient.h:53-56 | posts the packet while connected, and drops it otherwise |
| GDNative.NetNode.WriteString | Client/src/GDNative.cpp:104-110 | NUL and characters are added in place and the size refreshed, as `WriteLayout` states; command and padding stay |
| GDNative.NetNode.CountBack | Client/src/GDNative.cpp:137-140 | the loop counts the bytes after the last NUL |
| GDNative.NetNode.ReadString | Client/src/GDNative.cpp:134-144 | through the local buffer, returns exactly the bytes after the last NUL and removes them and the NUL |
| GDNative.NetNode.ProcessFrame | Client/src/GDNative.cpp:49-63 | copies the front packet while connected and leaves it queued |
| GDNative.NetNode.PrepareNextPkt | Client/src/GDNative.cpp:152-157 | drops the front packet; the copy keeps its old size field |
| BuffersIterator.CursorIsUnique | commonlibs/asio/include/asio/buffers_iterator.hpp:348-351 | on one list, equal positions mean equal cursors: same buffer, same offset |
| BuffersIterator.CursorOnByte | commonlibs/asio/include/asio/buffers_iterator.hpp:341-345 | a cursor before the end is on byte `position_` of the concatenation; the end cursor is the one at the total size |
| BuffersIterator.StepsReach | commonlibs/asio/include/asio/buffers_iterator.hpp:354-485 | any number of increments or decrements reaches the cursor that one `advance` by the same distance reaches |
| BuffersIterator.MovesCompose | commonlibs/asio/include/asio/buffers_iterator.hpp:407-485 | `advance(a)` then `advance(b)` reaches the cursor of `advance(a + b)`, for any signs |
| BuffersIterator.BuffersIterator.Begin | commonlibs/asio/include/asio/buffers_iterator.hpp:167-184 | position 0, on the first non-empty buffer or at the end |
| BuffersIterator.BuffersIterator.End | commonlibs/asio/include/asio/buffers_iterator.hpp:187-203 | position at the total size |
| BuffersIterator.BuffersIterator.Increment | commonlibs/asio/include/asio/buffers_iterator.hpp:354-374 | moves by one byte over any number of empty buffers and keeps the invariant |
| BuffersIterator.BuffersIterator.Decrement | commonlibs/asio/include/asio/buffers_iterator.hpp:377-404 | moves back by one byte; the search for an earlier non-empty buffer succeeds |
| BuffersIterator.BuffersIterator.Advance | commonlibs/asio/include/asio/buffers_iterator.hpp:407-485 | moves by any in-bounds distance and keeps the invariant |
| BuffersIterator.BuffersIterator.Backward | commonlibs/asio/include/asio/buffers_iterator.hpp:442-484 | the backward loop ends, because bytes before the cursor mean an earlier non-empty buffer |
| BuffersIterator.BuffersIterator.ByteAt | commonlibs/asio/include/asio/buffers_iterator.hpp:218-223 | `operator[]` yields the byte at the shifted position of the concatenation |
| BuffersIterator.BuffersIterator.Dereference | commonlibs/asio/include/asio/buffers_iterator.hpp:341-345 | yields byte `position_` of the concatenation |
| BuffersIterator.BuffersIterator.Equal | commonlibs/asio/include/asio/buffers_iterator.hpp:348-351 | comparing positions decides equality of cursors |
| BuffersIterator.BuffersIterator.DistanceTo | commonlibs/asio/include/asio/buffers_iterator.hpp:488-491 | the difference of two iterators is the distance by which advancing the one reaches the cursor of the other |
| BuffersIterator.CopyOut | commonlibs/asio/include/asio/buffers_iterator.hpp:167-203 | going from `begin` to `end` visits every byte of every buffer once, in order |
| BufferCopy.CopyIsDetermined | commonlibs/asio/include/asio/buffer.hpp:2185-2339 | the flat-copy specification fixes the memory, so overloads that copy the same bytes leave the same memory |
| BufferCopy.CopyJoined | commonlibs/asio/include/asio/buffer.hpp:2293-2339 | the concatenated targets become the first bytes of the concatenated sources followed by their old rest; the sources are intact |
| BufferCopy.SingletonsAgree | commonlibs/asio/include/asio/buffer.hpp:2185-2247 | on single buffers, one-buffer and many-buffer overloads agree on count and memory when the cap is no smaller than the data, and on the count only then |
| BufferCopy.RestIsPiece | commonlibs/asio/include/asio/buffer.hpp:650-688 | `operator+` leaves exactly the addresses after the first `n` of the buffer, and none if the buffer has no more than `n` |
| BufferCopy.CappedIsPiece | commonlibs/asio/include/asio/buffer.hpp:922-962 | `buffer(b, max)` keeps a beginning of the buffer's addresses |
| BufferCopy.BufferSize | commonlibs/asio/include/asio/buffer.hpp:558-572 | the sizes add up to the number of bytes in the sequence |
| BufferCopy.CopyOne | commonlibs/asio/include/asio/buffer.hpp:2173-2183 | one `memcpy` of the smaller size extends a larger copy by that many bytes and touches nothing else |
| BufferCopy.OneToOne | commonlibs/asio/include/asio/buffer.hpp:2185-2191 | meets the flat-copy specification for the smaller of both sizes |
| BufferCopy.OneToOneCapped | commonlibs/asio/include/asio/buffer.hpp:2193-2201 | the same, capped |
| BufferCopy.ManyToOne | commonlibs/asio/include/asio/buffer.hpp:2203-2224 | many sources into one target: min(target, sources, cap) bytes, flat-copy specification |
| BufferCopy.OneToMany | commonlibs/asio/include/asio/buffer.hpp:2226-2247 | one source into many targets: the same |
| BufferCopy.ManyToMany | commonlibs/asio/include/asio/buffer.hpp:2249-2291 | many into many, with empty buffers anywhere: min of both totals, flat-copy specification, and it ends |
| BufferCopy.ManyToManyCapped | commonlibs/asio/include/asio/buffer.hpp:2293-2339 | the same with a cap |
| ByteQueue.FifoConserves | commonlibs/asio/include/asio/basic_streambuf.hpp:214-254 | over any run, bytes taken out followed by bytes left are the initial bytes followed by bytes put in; the size bound is kept |
| StreamBuf.DisplacedHarmlessIff | commonlibs/asio/include/asio/basic_streambuf.hpp:322-340 | a throwing `prepare` leaves the unread bytes alone if and only if nothing was consumed before them, or the gap is at least as long as they are, or they repeat with the gap's period |
| StreamBuf.DisplacedExample | commonlibs/asio/include/asio/basic_streambuf.hpp:308-346 | a buffer that gets there: maximum 4, four bytes committed, one consumed, `prepare(2)` throws, and the unread 2, 3, 4 have become 3, 4, 4 |
| StreamBuf.ShiftedAtOldPlace | commonlibs/asio/include/asio/basic_streambuf.hpp:322-327 | what the unchanged pointers see after the `memmove` |
| StreamBuf.StreamBuf.constructor | commonlibs/asio/include/asio/basic_streambuf.hpp:131-141 | an empty queue with the pointers in order |
| StreamBuf.StreamBuf.Reserve | commonlibs/asio/include/asio/basic_streambuf.hpp:308-346 | throws if and only if size() + n exceeds max_size(); otherwise unread bytes are kept and n bytes of space exist |
| StreamBuf.StreamBuf.Prepare | commonlibs/asio/include/asio/basic_streambuf.hpp:214-219 | the same for `prepare` |
| StreamBuf.StreamBuf.Commit | commonlibs/asio/include/asio/basic_streambuf.hpp:233-238 | moves min(n, output) bytes from output to input |
| StreamBuf.StreamBuf.Consume | commonlibs/asio/include/asio/basic_streambuf.hpp:247-254 | drops min(n, input) bytes from the front |
| StreamBuf.StreamBuf.Underflow | commonlibs/asio/include/asio/basic_streambuf.hpp:263-274 | shows the first unread byte, put or committed, without consuming it; end-of-file exactly if there is none |
| StreamBuf.StreamBuf.Overflow | commonlibs/asio/include/asio/basic_streambuf.hpp:283-306 | for a character, throws if and only if size() equals max_size() and then changes nothing; otherwise appends the character, whether or not the put area was full |
| StreamBuf.StreamBuf.Sputc | commonlibs/asio/include/asio/basic_streambuf.hpp:283-306 | putting a character appends it exactly if the queue is not full |
| StreamBuf.StreamBuf.Sbumpc | commonlibs/asio/include/asio/basic_streambuf.hpp:263-274 | getting a character takes the first unread one |
| StreamBuf.StreamBuf.Apply | commonlibs/asio/include/asio/basic_streambuf.hpp:214-306 | each of prepare, fill, commit, consume, put and get does to the buffer what it does to the queue of unread bytes, prepared room and filled part, and throws exactly when that does |
| StreamBuf.StreamBuf.Replay | commonlibs/asio/include/asio/basic_streambuf.hpp:214-306 | any run of these six operations as separate steps, in any order that fills only prepared room and commits only what was filled, acts as that queue up to the first operation that throws, throws exactly there, and every get returns the front of the queue at its time; a put that throws changes nothing |
| StreamQueue.StreamConserves | commonlibs/asio/include/asio/basic_streambuf.hpp:214-306 | over any such run, bytes taken out followed by bytes unread are the initial ones followed by those committed and put; the size bound is kept |
| StreamQueue.SameQueue | commonlibs/asio/include/asio/basic_streambuf.hpp:214-254 | for equal runs of prepare, fill, commit and consume, this queue and the bounded FIFO of the dynamic buffers hold the same bytes and throw alike |
| StreamQueue.GetsThenRest | commonlibs/asio/include/asio/basic_streambuf.hpp:214-306 | over any run without `consume`, the characters got followed by those still unread are the initial ones followed by those committed and put |
| DynamicBuffer.DynamicBuffer.Prepare | commonlibs/asio/include/asio/buffer.hpp:1714-1728 | throws by the size it counts, leaves the sentinel mode, keeps the input, and makes exactly n bytes of output |
| DynamicBuffer.DynamicBuffer.Commit | commonlibs/asio/include/asio/buffer.hpp:1743-1747 | moves min(n, output) bytes to the input and discards the rest |
| DynamicBuffer.DynamicBuffer.Consume | commonlibs/asio/include/asio/buffer.hpp:2065-2077 | drops min(n, input) bytes; an unprepared vector drops only within its maximum |
| DynamicBuffer.DynamicBuffer.Data | commonlibs/asio/include/asio/buffer.hpp:1651-1654 | shows exactly the input, in both modes |
| DynamicBuffer.DynamicBuffer.Replay | commonlibs/asio/include/asio/buffer.hpp:1987-2020 | any run, with any maximum including the default, acts as the same FIFO as the stream buffer's, and a throwing operation changes nothing |
| DynamicBuffer.UnpreparedThrowsLikeQueueIff | commonlibs/asio/include/asio/buffer.hpp:1611-1618 | what `prepare` refuses is what the FIFO refuses, for every request, if and only if the contents of the unprepared buffer are within the maximum; once prepared it always is |

## Left out

- UDP (`Common/include/NetUDP.h`, `AwaitUDPConnection`): it repeats the TCP chain over datagrams, with no delivery guarantee to state.
- Sockets, resolvers, timers, threads, console output, clocks and the engine's signals: a write or read moves its bytes in arbitrary chunks and completes, or fails.
- Wake-ups of `NetQueue::wait`: emptiness is tested before `m_muxBlock` is taken, so a push in between can be missed (`NetQueueRuns.WakeUpIsLost`) until the next one (`NetQueueRuns.WakeUpIsMadeGood`). The queue is proved safe and free of deadlock, not live; `get_back`, `pop_back`, `push_front`, `get_count` and `clear` are not called by the server or the client.
- Data races between the io thread and the main thread on the connection list and the world: handlers are atomic, and a socket does not close in the middle of one.
- A failing handshake: a freshly accepted socket is open, so its greeting is sent before it has an ID.
- Roster.RosterHolds: no two connections get the same ID; the run stops accepting when the 32-bit counter comes round to an ID given out before, where the code would give it out again.
- Server.Server.SendToClient: is not asked to send to a null reference, which the code would dereference on its error path.
- Server.Server.Process: queued pings hold at least 8 bytes and moves at least 18, since a pop on a shorter body has no meaning in C++; a move of a client outside the world pops nothing but is held to the same length. `max_pkt` is any natural number. Packets that arrive during a call are the subject of `Delivery` and of the machine in `NetQueue`, not of this method.
- Connections of the server are known by identity; that the object behind an identity is a `TCPConnection` sharing the server's queue is expressed in `Delivery`, not by object references.
- The order in which `unordered_map` is visited is a parameter; the theorems hold for every order.
- NetTCPConnection.TCPConnection.ConnectToClient: what two concurrent reads would do to each other's bytes is not modelled; the count tells that there are two, and the slot shows the newest.
- GDNative.ReadBackFramedIff: bodies are shorter than 2^32 bytes, as those of received packets are.
- GDNative.ReadAllUndoesWriteAll: strings are single-byte characters without NUL, shorter than 5120 bytes; other string reads overrun the local buffer or find another NUL.
- Doubles are opaque eight-byte values, and integers travel in one fixed byte order; the two padding bytes of a header are carried as they are.
- Bytes of a header that is being read are kept in the outstanding read and reach `m_tmpPktIn` on completion; no handler looks at them before.
- BufferCopy.ManyToMany: buffers do not overlap, as `memcpy` demands, and sizes do not wrap around `size_t`.
- StreamBuf.StreamBuf.Replay: counts handed to `commit` and `consume` fit in `int`, to which the code casts them; nothing is filled beyond what was prepared or committed beyond what was filled, where the three kinds of buffer differ. `gptr() + n` in `consume` does not wrap.
- DynamicBuffer.DynamicBuffer.Replay: initial contents are within the maximum; with the default maximum, what a run asks for stays below the sentinel, which no string or vector reaches. The version 2 calls `grow`, `shrink` and `data(pos, n)` are not modelled.
- `sputc` and `sbumpc` are the base class's documented entry points; `pbackfail`, `xsputn` and `xsgetn` are not modelled.
