# Node Management: a verified model

Node Management (NoM) watches service nodes over UDP. A node registers from its own port; from then on
NoM pings it, marks it TIMEOUT when a ping goes unanswered, tells every registered node so, and after
RETRY_NUM further unanswered pings declares it DEAD and removes it. This project models that monitor in
three layers and proves properties of whole runs.

* **The protocol** (`Registry`, `Mailbox`, `Protocol`, `ProtocolInvariant`, `ProtocolRuns`,
  `ProtocolTrace`, `ProtocolWire`, `ProtocolSteps`, `ProtocolFlow`, `ProtocolExchange`, `ProtocolLoss`,
  `Manager`). `Protocol.State` holds the registry, the three queues and
  what NoM's threads have popped but not yet handled; `Protocol.Apply` is one step of any thread. A DEAD
  notice names its node by port only, and the destructor of the erased node joins a thread nobody
  stopped: `Inv` is the global invariant that makes this sound. `Manager.NodeManagement` is the class of
  the source, with its vector scans, proved against the same registry functions.
* **The node** (`Node`, `NodeLife`, `NodeHistory`, `NodeThread`). `Node.Next` is one atomic step of a node's
  thread, gated by the transition table, with a local clock. `NodeThread.NodeBase` is the class with its
  four state handlers and thread loop, proved to perform exactly those steps.
* **The wire** (`Bits`, `Packets`, `Client`). The bit loops over byte buffers, the packet encoders and
  decoders, and the Python client's builders and parser.

`SafeQueue` is the bounded queue between the threads, `Flow` the bookkeeping of what becomes of everything
that enters one, `Types` the constants and enumerations.

## Assumptions

* Each NoM handler is one atomic step, and so is each stretch of a node's thread between two points at
  which another thread can tell the difference (`Node.Phase`). NoM's two threads share the vector of nodes
  without a lock, so nothing here says that the vector is free of data races.
* A ping window is opened by one step and closed by another. It can close as expired only while the pong
  flag is clear and the node running, because `wait_for` tests its predicate again when time runs out.
* While a node sleeps after an answer it holds its mutex, so a PONG for it waits, and NoM's receiving
  thread with it.
* Time is ideal: a wait that runs out lasts exactly TIMEOUT_PERIODS and a sleep exactly TIMESEND_PING
  milliseconds. The output of `saveTime` is any 19 bytes. A datagram is any 256-byte buffer with any
  sender.
* `Msg.emitter`, `NodeVal.wins`, `NodeVal.log`, `State.lost`, `State.seen` and `State.wire` are history: no
  step depends on them.

## What the proofs found

* **A dead node is not always removed.** Its DEAD notice disappears if the message queue is stopped when
  it is pushed, if it is the oldest in a full queue when another node pushes, or if NoM stops between
  popping and handling it. Then the entry stays for good and no REGISTER from that port is ever admitted
  again (`ProtocolTrace.LostBlocksPort`). `ProtocolLoss.DeathCanBeLost` gives a run, and
  `ProtocolLoss.AllBuriedIff` says that draining NoM leaves no dead entry behind exactly when no step lost
  a notice in one of these three ways.
* The comment in source/Packet.h:60-62 says NOTIFY is broadcast for timeouts and deaths. The code
  broadcasts timeouts only, and the model follows the code.
* `sendPing` stamps a ping with the static counter `m_nodeID`, not with the sender's own id
  (source/node_service/NodeBase.cpp:134). Nothing reads that field of a ping; `Node.PingMsg` keeps it as it is.
* The stop-path requests for INIT in ALIVE and TIMEOUT are always refused by the table; stopping a node
  leaves its state as it was.

## Model

| member | source | states |
|---|---|---|
| `ProtocolInvariant.KeepStep` | source/NodeManagament.cpp:86-311 | the global invariant (ports and identities, node counters, message homes, balance of deaths, packet kinds) survives every step of every thread |
| `ProtocolRuns.RunKeepsInv` | source/NodeManagament.cpp:28-63 | it holds in every state of every run, stops and starts of NoM included |
| `ProtocolRuns.DeathNoticeIsSafe` | source/NodeManagament.cpp:295-305 | a DEAD notice finds by port exactly one entry, its own emitter, past its DEAD push with at most three thread steps left, and is that emitter's last message |
| `ProtocolRuns.EmitterIsRegistered` | source/NodeManagament.cpp:126-149 | in every state, evictions included, whoever pushed an unhandled message is still registered |
| `ProtocolRuns.TimeoutReachesAll` | source/NodeManagament.cpp:275-294 | handling a TIMEOUT puts exactly one NOTIFY per registered node, in order and the emitter included, at the end of the running send queue; only older packets can be evicted |
| `ProtocolRuns.PingGoesToItsNode` | source/NodeManagament.cpp:259-268 | handling a ping message puts exactly one PING, for its emitter's address, behind the running send queue, of which only the oldest packet can be evicted when it is full |
| `ProtocolRuns.DeathsBalance` | source/Utils.h:86-102 | an entry is past its DEAD push iff its notice is pending or lost, never both, and at most one is pending |
| `ProtocolRuns.DrainBuriesTheDead` | source/NodeManagament.cpp:126-149 | draining the message queue ends, removes exactly the dead entries whose notice was not lost, and keeps the others in order |
| `ProtocolRuns.CastsAreValid` | source/IOHandler.cpp:110-123 | in every state the downcasts chosen by the type field fit the packet's class |
| `ProtocolRuns.ClientsUnderstand` | source/IOHandler.cpp:98-143 | every datagram ever sent goes to an address that registered and parses at the client as a ping, or as a TIMEOUT notification about a host port that registered with the known node type it names, "Timeout " and a stamp uncut |
| `ProtocolRuns.EmptyDatagramIsIgnored` | source/udp_connected_lib/UDPConnector.cpp:171-204 | an all-zero buffer is a REGISTER of type BASE with an empty message and changes neither registry nor flags |
| `ProtocolRuns.AbsorbIsThreeSteps` | source/IOHandler.cpp:150-196 | with an idle receiver, receiving, taking and handling one datagram are three enabled steps with one combined effect |
| `ProtocolRuns.PongArrives` | source/NodeManagament.cpp:154-173 | a PONG datagram built by a client sets exactly the flag of the node at its port |
| `ProtocolRuns.RegisterArrives` | source/NodeManagament.cpp:178-254 | a REGISTER datagram built by a client adds, unless its port is taken or its type is not 1, 2 or 3, a running node in INIT with the sender's whole address, that type, the next identity, a clear flag and nothing pushed |
| `ProtocolTrace.WindowsTellTheTruth` | source/node_service/NodeBase.cpp:153-158 | every closed window was opened and closed by two steps of the run; expired means no PONG from its port was handled in between, answered means one was, so no wakeup is lost |
| `ProtocolTrace.DeadOnlyAfterSilence` | source/node_service/NodeBase.cpp:275-305 | a node is DEAD only if NoM handled no PONG from its port in any of its last RETRY_NUM + 1 windows |
| `ProtocolTrace.TimeoutOnlyAfterSilence` | source/node_service/NodeBase.cpp:256-300 | a running node is in TIMEOUT only if NoM handled no PONG from its port in its last window, nor in any of the retries' windows before it |
| `ProtocolWire.NotesComeFromNodes` | source/node_service/NodeBase.cpp:132-140 | every message NoM has not handled was pushed by an earlier step of a registered node's thread |
| `ProtocolWire.NoticesAreTrue` | source/node_service/NodeBase.cpp:266-272 | a TIMEOUT notice names the id, address and type of a node that was in TIMEOUT when it pushed, its last window silent |
| `ProtocolWire.PacketsAreAnswers` | source/NodeManagament.cpp:259-294 | every packet waiting to be sent was queued by an earlier handling of a node's message |
| `ProtocolWire.ClientsAreToldTheTruth` | source/IOHandler.cpp:98-143 | a PING sent goes to the node that pushed it, as its window opened; a NOTIFY sent goes to a node registered when it was queued, and names the type, the host port and the time stamp of a node that was in TIMEOUT after a silent window: no client is told of a timeout that did not happen |
| `ProtocolSteps.WhenPossible` | source/node_service/NodeBase.cpp:228-238 | exactly when each step of the queues, the nodes and NoM can happen: a PONG is held up exactly while the node at its port sleeps |
| `ProtocolSteps.SleepersAreLeftAlone` | source/node_service/NodeBase.cpp:278-291 | a node asleep with its mutex held is changed or removed by no step but its own |
| `ProtocolSteps.ReceiveDoes` | source/IOHandler.cpp:150-196 | a REGISTER or PONG joins the packets waiting in a running queue, of which a full one loses the oldest; anything else changes nothing |
| `ProtocolSteps.TakePacketDoes` | source/NodeManagament.cpp:91-95 | NoM takes the packet that has waited longest and leaves the others in order |
| `ProtocolSteps.PongDoes` | source/NodeManagament.cpp:154-173 | a PONG sets the flag of the entry at its port, whatever else waits, and nothing else changes |
| `ProtocolSteps.RegisterDoes` | source/NodeManagament.cpp:178-254 | a REGISTER adds exactly the entry described, for types 1, 2 and 3 from a new port, and otherwise changes nothing |
| `ProtocolSteps.NodeStepDoes` | source/node_service/NodeBase.cpp:132-140 | a node's step changes its own entry; it logs a note exactly if it pushes the message behind that note, given field by field, to the end of a running message queue |
| `ProtocolSteps.NodeStopDoes` | source/node_service/NodeBase.cpp:34-43 | stop() from outside clears one flag of one node |
| `ProtocolSteps.DeadDoes` | source/NodeManagament.cpp:295-305 | a DEAD notice removes its announced emitter and nothing else |
| `ProtocolSteps.TransmitDoes` | source/IOHandler.cpp:98-143 | the oldest packet leaves the send queue as one datagram for its address, appended to those sent, which the client reads as the packet says |
| `ProtocolSteps.SwitchesDo` | source/NodeManagament.cpp:28-63 | starting and stopping NoM and the I/O threads keep the contents of all queues; a stop drops what NoM had popped |
| `ProtocolFlow.PacketsInOrder` | source/NodeManagament.cpp:86-120 | over any run the receiving queue is a bounded FIFO: what was received was handled, in order of arrival, or is in hand, waits, or was refused, evicted or dropped, and exactly one of these |
| `ProtocolFlow.MessagesInOrder` | source/NodeManagament.cpp:126-149 | the same for the messages nodes push: none is lost in any other way, none is handled out of turn |
| `ProtocolFlow.SendingInOrder` | source/IOHandler.cpp:98-143 | the same for the send queue; the datagrams sent are, in order, one for each packet taken from it, for its address and read as it says |
| `ProtocolFlow.EveryPushHasAFate` | source/Utils.h:86-102 | a pushed message is at every later time waiting, in hand, handled, refused, evicted or dropped |
| `ProtocolFlow.HandledIs` | source/NodeManagament.cpp:86-149 | what counts as handled is what NoM had in hand in its handling steps |
| `ProtocolFlow.EntriesRegistered` | source/NodeManagament.cpp:210-254 | every entry was made, with the next identity, from a REGISTER datagram that came from its whole address and named its type |
| `ProtocolFlow.DestinationsRegistered` | source/IOHandler.cpp:98-143 | every datagram goes to an address a REGISTER came from |
| `ProtocolExchange.PingIsAnswered` | source/node_service/NodeBase.cpp:221-247 | from an idle monitor an ALIVE node's ping reaches its client, any PONG within 2000 ms comes back, and the window closes as answered, in eight steps that change nothing else |
| `ProtocolExchange.PortLivesAgain` | source/NodeManagament.cpp:295-305 | from an idle monitor a node in DEAD is announced and removed, and its address can register again with a new identity, in six steps |
| `Flow.PlayKeeps` | source/Utils.h:86-165 | whatever is pushed, popped, handled, dropped or switched, every element has exactly one fate and order is kept |
| `ProtocolTrace.StatesFollowTheTable` | source/NodeManagament.cpp:13-17 | over any run, whenever a registered node's state changes the change is an edge of the table |
| `ProtocolTrace.NewcomersStartInInit` | source/NodeManagament.cpp:210-254 | an identity not registered one step before is the counter's next and starts in INIT with nothing pushed |
| `ProtocolTrace.IdsNeverReused` | source/node_service/NodeBase.cpp:9-16 | an identity that left the registry never returns |
| `ProtocolTrace.IdsIncrease` | source/node_service/NodeBase.cpp:88-90 | ids increase along the registry and none is ahead of the counter |
| `ProtocolTrace.LostBlocksPort` | source/NodeManagament.cpp:178-205 | after a lost DEAD notice the dead entry stays and no REGISTER from its port is admitted, in every later state |
| `ProtocolLoss.DeathCanBeLost` | source/Utils.h:86-90 | a run ending with NoM running, nothing to handle, and a dead entry still registered |
| `ProtocolLoss.AllBuriedIff` | source/NodeManagament.cpp:42-63 | draining leaves no dead entry iff no step refused, evicted or dropped a DEAD notice |
| `ProtocolInvariant.RegistryFits` | source/NodeManagament.cpp:183-205 | distinct 16-bit ports bound the registry by 65536, below a queue's capacity |
| `ProtocolInvariant.WireMeaning` | source/IOHandler.cpp:107-135 | a packet NoM queues is cast validly, and its bytes mean to the client what NoM meant |
| `Registry.PongRefines` | source/NodeManagament.cpp:154-173 | as a map from ports, PONG updates exactly the matching entry |
| `Registry.RegisterRefines` | source/NodeManagament.cpp:178-254 | as a map, REGISTER is insert-if-absent, for types 1, 2 and 3 only; the new entry is given field by field |
| `Registry.EraseRefines` | source/NodeManagament.cpp:295-305 | DEAD removes exactly the matching key |
| `Registry.PushAllArrives` | source/Utils.h:86-102 | a burst of forced pushes ends up whole at the end of a running queue, evicting exactly the overflow |
| `Mailbox.MailPush` | source/node_service/NodeBase.cpp:132-140 | an accepted push keeps every message homed, DEAD notices last and deaths balanced |
| `Mailbox.MailLose` | source/Utils.h:92-99 | losing any one message keeps them too, at the price of recording a lost DEAD notice |
| `Mailbox.MailErased` | source/NodeManagament.cpp:295-305 | erasing the emitter of the oldest DEAD notice keeps them too |
| `Manager.NodeManagement.CheckPongMessage` | source/NodeManagament.cpp:154-173 | the scan updates the vector in place as `MarkPong` says |
| `Manager.NodeManagement.CheckRegisterMessage` | source/NodeManagament.cpp:178-205 | the scan and push extend the vector as `Admit` says |
| `Manager.NodeManagement.PushNodeToVector` | source/NodeManagament.cpp:210-254 | a started node with the next id is appended for the three known types, otherwise nothing |
| `Manager.NodeManagement.CheckPingMessage` | source/NodeManagament.cpp:259-268 | one PING packet is pushed |
| `Manager.NodeManagement.CheckNotifyMessage` | source/NodeManagament.cpp:275-311 | broadcast for TIMEOUT, erase for DEAD, nothing else |
| `Manager.NodeManagement.HandleReceived` | source/NodeManagament.cpp:97-114 | one round of the receiving thread |
| `Manager.NodeManagement.HandleReceivedData` | source/NodeManagament.cpp:86-120 | the thread from start to stop, whatever arrives while it waits: registry, counter and queue are those of handling the packets one by one, oldest first |
| `Manager.NodeManagement.ReceiveNext` | source/NodeManagament.cpp:86-120 | one pass: arrivals are pushed, then the oldest packet, if any, is handled |
| `Manager.NodeManagement.HandleSendData` | source/NodeManagament.cpp:126-149 | the thread from start to stop, whatever arrives while it waits: registry and queues are those of handling the messages one by one; a message popped while NoM stops is dropped |
| `Manager.NodeManagement.HandleNext` | source/NodeManagament.cpp:126-149 | one pass: arrivals are pushed, then the oldest message, if any, is handled |
| `Manager.NodeManagement.Start` | source/NodeManagament.cpp:28-40 | starts once, and restarts both input queues with their contents |
| `Manager.NodeManagement.Stop` | source/NodeManagament.cpp:42-63 | stops once, and both input queues keep their contents |
| `Manager.DrainIsTheLoop` | source/NodeManagament.cpp:126-149 | draining the step system is that loop when nothing more arrives |
| `Manager.NoteRoundIsTwoSteps` | source/NodeManagament.cpp:126-149 | a pass that handles a message is the two steps that pop and handle it, and a pop during a stop is the two steps that pop and drop it |
| `Manager.PacketRoundIsTwoSteps` | source/NodeManagament.cpp:86-120 | however many packets wait, a pass of the receiving loop is the two steps that take the oldest and handle it, and a pop during a stop is the two steps that take and drop it |
| `Manager.RoundIsTheStep` | source/NodeManagament.cpp:86-120 | the receiving round is the step system's step for every packet its queue can hold |
| `NodeLife.StateIsTheCounter` | source/node_service/NodeBase.cpp:188-309 | for every sequence of answered and unanswered windows the state is the counter k of trailing silences: ALIVE at 0, TIMEOUT with retryTime k-1 up to RETRY_NUM, DEAD at RETRY_NUM + 1, INIT only before the first |
| `NodeLife.ChangesAreEdges` | source/node_service/NodeBase.cpp:74-86 | a request is refused exactly when made because of a stop, and then the state stays |
| `Node.SixEdges` | source/NodeManagament.cpp:13-17 | the table allows exactly six changes of state |
| `NodeLife.StoppedExits` | source/node_service/NodeBase.cpp:34-69 | a stopped node's thread ends within three steps with its state unchanged, or in INIT if the stop came between DEAD's push and its request for INIT |
| `NodeLife.TailIsBounded` | source/node_service/NodeBase.cpp:18-22 | after the DEAD push at most three steps are left, none pushing or opening a window |
| `NodeLife.SendsBeforeDeath` | source/node_service/NodeBase.cpp:318-342 | nothing is pushed after DEAD, and pushing DEAD is what marks the node |
| `NodeLife.LogIsWhatIsSent` | source/node_service/NodeBase.cpp:132-140 | the recorded log is the list of pushed messages |
| `NodeLife.SilenceKills` | source/node_service/NodeBase.cpp:256-309 | from any state, a running node that hears nothing more announces its death within 16 steps |
| `NodeHistory.MessagesObeyGrammar` | source/node_service/NodeBase.cpp:256-342 | the log begins with a ping, TIMEOUT follows pings and precedes one, DEAD is last and earned |
| `NodeHistory.DeathIsEarned` | source/node_service/NodeBase.cpp:266-305 | a DEAD notice is directly preceded by a ping, TIMEOUT and exactly RETRY_NUM pings |
| `NodeHistory.RetryPings` | source/node_service/NodeBase.cpp:274-300 | in each of TIMEOUT's windows the notice has been followed by 1 to RETRY_NUM pings |
| `NodeHistory.DeathTiming` | source/Utils.h:26-28 | DEAD comes exactly (RETRY_NUM + 1) * TIMEOUT_PERIODS after the first of the final silent pings, and TIMESEND_PING or nothing more after the last answer |
| `NodeHistory.PingSpacing` | source/node_service/NodeBase.cpp:221-247 | any q consecutive pings of a life span at least (q - 2) * TIMESEND_PING |
| `NodeHistory.NextPingTime` | source/node_service/NodeBase.cpp:188-309 | the next ping comes 2000 ms after an unanswered one, or 500 ms after an answer whenever that came, or at once after the very first answer |
| `NodeHistory.DeathInFigures` | source/Utils.h:26-28 | death comes 12000 ms after the first of six silent pings and 12500 ms after the last answer (12000 if that was the first); the log ends in a ping, TIMEOUT, five pings and DEAD |
| `NodeThread.NodeBase.HandleInit` | source/node_service/NodeBase.cpp:188-212 | the handler performs the steps of `Node`, pushes included |
| `NodeThread.NodeBase.HandleAlive` | source/node_service/NodeBase.cpp:221-247 | the same for ALIVE |
| `NodeThread.NodeBase.HandleTimeout` | source/node_service/NodeBase.cpp:256-309 | the same for TIMEOUT and its retry loop; each push finds its own counter and time |
| `NodeThread.NodeBase.HandleDead` | source/node_service/NodeBase.cpp:318-342 | the same for DEAD |
| `NodeThread.NodeBase.HandleThread` | source/node_service/NodeBase.cpp:48-69 | the loop runs handler after handler until the node is stopped, and ends |
| `NodeThread.NodeBase.WaitFor` | source/node_service/NodeBase.cpp:194-196 | false exactly when the time ran out with the flag clear and the node running |
| `NodeThread.NodeBase.RequestState` | source/node_service/NodeBase.cpp:74-86 | the state changes only along the table |
| `NodeThread.HandleProgress` | source/node_service/NodeBase.cpp:256-309 | every handler uses up a window or brings the node nearer its end |
| `NodeThread.LifeEndsInDeath` | source/node_service/NodeBase.cpp:48-69 | however its windows go, a node nobody stops ends announced dead, its messages in order |
| `NodeThread.LifeSendsItsLog` | source/node_service/NodeBase.cpp:132-140 | a life sends exactly what it logs: one message a note, in order, with the node's identity, address and type and the text, counter and time of that push |
| `SafeQueue.RunFromEmpty` | source/Utils.h:73-193 | along any run a queue is within capacity, holds a suffix of the accepted pushes, and has delivered a subsequence of the rest |
| `SafeQueue.ForcedPushIsLast` | source/Utils.h:86-102 | at any point a forced push on a running queue is its last element; stop then start keeps the contents |
| `SafeQueue.ThreadSafeQueue.Push` | source/Utils.h:86-102 | refuse, append, or evict the oldest and append |
| `SafeQueue.ThreadSafeQueue.WaitAndPop` | source/Utils.h:153-165 | after the wait: -1 and untouched if stopped, else the oldest element |
| `SafeQueue.ThreadSafeQueue.TryPop` | source/Utils.h:134-146 | the oldest element, unless stopped or empty |
| `SafeQueue.ThreadSafeQueue.Pop` | source/Utils.h:114-126 | drops the oldest element, unless stopped or empty |
| `SafeQueue.ThreadSafeQueue.Peek` | source/Utils.h:104-112 | shows the oldest element, stopped or not, and changes nothing |
| `SafeQueue.ThreadSafeQueue.ResetQueue` | source/Utils.h:128-132 | empties the queue and leaves it running or stopped |
| `Bits.FieldsRoundTrip` | source/Utils.cpp:18-57 | any list of fields written from any bit offset over clear bits reads back as each value mod 2^width |
| `Bits.ReadsBackIff` | source/Utils.cpp:18-57 | over bits already set, a field reads back as written exactly when its value covers them |
| `Bits.DepositAllFrame` | source/Utils.cpp:18-27 | and no bit outside the range changes |
| `Bits.StringRoundTrip` | source/Utils.cpp:29-73 | strings survive at any offset, aligned or not |
| `Bits.DepositBit` | source/Utils.cpp:18-27 | each bit of the buffer after a write is the old bit, or-ed with the value's bit inside the range |
| `Bits.SetBits` | source/Utils.cpp:18-27 | the loop writes the value and advances the offset by its width |
| `Bits.SetBitsStr` | source/Utils.cpp:29-43 | the nested loops write the string as 8-bit fields |
| `Bits.GetBits` | source/Utils.cpp:45-57 | the loop reads the number its bits spell, as a 32-bit `int` |
| `Bits.SignOfField` | source/Utils.cpp:18-57 | a field read back is negative exactly when it is 32 bits wide with its top bit set, and has the value's bit pattern always |
| `Bits.GetBitsStr` | source/Utils.cpp:59-73 | the nested loops read the bytes and touch nothing beyond them |
| `Packets.DecodeRegister` | source/Packet.cpp:46-73 | type, length, node type and message up to the first NUL, byte by byte; no byte at or beyond max(length, 3) is read, and the cursor ends at 8 times that |
| `Packets.DecodePong` | source/Packet.cpp:165-190 | type, length and exact message; no byte at or beyond max(length, 2) is read, and the cursor ends at 8 times that |
| `Packets.DecodeIsLocal` | source/Packet.cpp:46-73 | the bytes below max(declared length, header) alone decode to the same packet as the whole receive buffer |
| `Packets.EncodePing` | source/Packet.cpp:132-162 | 20 bytes: header and fitted message |
| `Packets.EncodeNotify` | source/Packet.cpp:100-129 | 40 bytes: type, length, node type, port high byte first, state, fitted message |
| `Packets.HandleDatagram` | source/IOHandler.cpp:150-196 | REGISTER and PONG datagrams are pushed decoded, all others ignored |
| `Packets.HandleOutgoing` | source/IOHandler.cpp:107-135 | the bytes handed to the socket, given valid casts |
| `Client.RegisterRoundTrip` | tool/udp_client_gui.py:49-56 | every REGISTER a client can build decodes to its length, node type and message up to the first NUL |
| `Client.PongRoundTrip` | tool/udp_client_gui.py:58-64 | every PONG a client can build decodes exactly |
| `Client.NotifyReachesClient` | tool/udp_client_gui.py:66-86 | the client's parse of a NOTIFY recovers the host-order port, the type, the state and the first 33 message bytes, zero-padded to 34 |
| `Client.PingReachesClient` | tool/udp_client_gui.py:75-77 | the client's parse of a PING recovers the fitted message |
| `Client.OtherDatagrams` | tool/udp_client_gui.py:66-89 | exactly which datagrams the client cannot read, and what it reads of other types |
| `Client.WireInFigures` | tool/udp_client_gui.py:49-86 | the four formats byte by byte; host port 5000 is 136, 19 in a NOTIFY |

## Left out

- Sockets, Winsock set-up, the UDP receiving thread and its queue of raw buffers: foreign I/O; a datagram arrives at the parser in any order and with any content.
- The menu, the consoles and logging (source/AppCtrl.cpp, source/Log_Handler.h), the client's windows and timers, and the stress client: user interface and load.
- The C++ memory model, pointer ownership, exceptions caught in the node loop, and the construction of singletons.
- `NodeThread.NodeBase.HandleThread`: other threads act on the node only while it waits, as a script says; arbitrary interleavings are the subject of `Protocol`.
- `Manager.NodeManagement.Stop`: the joins are not modelled; that NoM's threads drop what they have popped is the `StopNom` step of `Protocol`.
- `SafeQueue.ThreadSafeQueue.WaitAndPop`: blocking is modelled by a precondition, the condition the wait ends with.
- `Bits.GetBits`: widths above 32 bits are excluded: the source shifts an `int` by more than its width there.
- Matching by IP address: the code matches nodes by port alone, and so does the model; addresses carry an IP only for sending.
- UTF-8 decoding and the text formatting of the client's display: messages are bytes and a parse result is a record.
