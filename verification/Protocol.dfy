/** The whole monitor as a step system: the registry, the three queues and the threads
    (source/NodeManagament.cpp, source/IOHandler.cpp, source/node_service/NodeBase.cpp). Every NoM
    handler is one atomic step; popping a message and handling it are two. */
module Protocol {
  import opened Types
  import opened SafeQueue
  import opened Packets
  import opened Client
  import opened Node
  import opened Registry
  import opened Mailbox

  /** Addresses and the node types they registered with. */
  type Seen = set<(Addr, byte)>

  /** `inHand` and `noteHand` are what NoM's two threads have popped but not yet handled. `lost`,
      `seen` (what ever registered) and `wire` (datagrams handed to the socket) are history. */
  datatype State = State(
    nodes: Nodes, counter: nat,
    inbox: Queue<Packet>, inHand: Option<Packet>,
    notes: Queue<Msg>, noteHand: Option<Msg>,
    outbox: Queue<Packet>,
    nomRunning: bool, ioRunning: bool,
    lost: set<nat>, seen: Seen, wire: seq<(Addr, Bytes)>)

  const INITIAL := State([], 0, Queue([], true), None, Queue([], true), None, Queue([], true),
                         false, false, {}, {}, [])

  datatype Step =
    | Receive(buf: Buffer, addr: Addr)             // IOHandler parses a datagram
    | TakePacket | HandlePacket                    // NodeManagament::handleReceivedData
    | TakeNote | HandleNote                        // NodeManagament::handleSendData
    | NodeStep(i: nat, delay: nat, stamp: Bytes)   // the thread of entry i
    | NodeStop(i: nat)                             // NodeBase::stop from outside
    | Transmit                                     // IOHandler::handleTxThread
    | StartNom | StopNom | StartIo | StopIo

  predicate IsPong(p: Packet) {
    p.msgType == PONG
  }

  predicate Enabled(s: State, step: Step) {
    match step
    case Receive(_, _) => s.ioRunning
    case TakePacket => s.nomRunning && s.inHand == None && s.inbox.CanPop()
    case HandlePacket =>
      && s.nomRunning && s.inHand.Some?
      && (IsPong(s.inHand.value) ==>
            var i := FindPort(s.nodes, s.inHand.value.addr.port);
            i < |s.nodes| ==> !Locked(s.nodes[i]))
    case TakeNote => s.nomRunning && s.noteHand == None && s.notes.CanPop()
    case HandleNote => s.nomRunning && s.noteHand.Some?
    case NodeStep(i, delay, stamp) =>
      i < |s.nodes| && s.nodes[i].phase != Exited && delay <= TIMEOUT_PERIODS && |stamp| == STAMP_LENGTH
    case NodeStop(i) => i < |s.nodes| && !Locked(s.nodes[i])
    case Transmit => s.ioRunning && s.outbox.CanPop()
    case StartNom => !s.nomRunning
    case StopNom => s.nomRunning
    case StartIo => !s.ioRunning
    case StopIo => s.ioRunning
  }

  // ------------------------------------------------------------ effects

  function Deliver(s: State, buf: Buffer, addr: Addr): State {
    s.(inbox := Accept(s.inbox, buf, addr))
  }

  function Handled(s: State, p: Packet): State {
    if p.msgType == PONG then s.(inHand := None, nodes := MarkPong(s.nodes, p.addr.port))
    else if p.RegisterPacket? && Admits(s.nodes, p) then
      s.(inHand := None, nodes := Admit(s.nodes, s.counter, p), counter := s.counter + 1,
         seen := s.seen + {(p.addr, p.typeNode)})
    else s.(inHand := None)
  }

  function Replied(s: State, m: Msg): State {
    s.(noteHand := None, outbox := PushAll(s.outbox, Replies(s.nodes, m)), nodes := Survivors(s.nodes, m))
  }

  function PushNote(q: Queue<Msg>, sent: seq<Msg>): Queue<Msg> {
    if sent == [] then q else q.Push(sent[0], true)
  }

  /** The emitter whose DEAD notice the push evicts or the queue refuses, if any. */
  function LostBy(q: Queue<Msg>, sent: seq<Msg>): set<nat> {
    if sent == [] then {}
    else if !q.running then Dead(sent[0])
    else if |q.items| < MAX_SAFE_QUEUE then {}
    else Dead(q.items[0])
  }

  function Stepped(s: State, i: nat, delay: nat, stamp: Bytes): State
    requires i < |s.nodes|
  {
    var sent := Sends(s.nodes[i], Ctx(s.counter, stamp));
    s.(nodes := s.nodes[i := Next(s.nodes[i], delay)],
       notes := PushNote(s.notes, sent), lost := s.lost + LostBy(s.notes, sent))
  }

  function Sent(s: State, p: Packet): State {
    if SentCastOk(p) && WireOf(p).Some? then
      s.(outbox := s.outbox.Rest(), wire := s.wire + [(p.addr, WireOf(p).value)])
    else s.(outbox := s.outbox.Rest())
  }

  function Apply(s: State, step: Step): State
    requires Enabled(s, step)
  {
    match step
    case Receive(buf, addr) => Deliver(s, buf, addr)
    case TakePacket => s.(inHand := Some(s.inbox.items[0]), inbox := s.inbox.Rest())
    case HandlePacket => Handled(s, s.inHand.value)
    case TakeNote => s.(noteHand := Some(s.notes.items[0]), notes := s.notes.Rest())
    case HandleNote => Replied(s, s.noteHand.value)
    case NodeStep(i, delay, stamp) => Stepped(s, i, delay, stamp)
    case NodeStop(i) => s.(nodes := s.nodes[i := Halted(s.nodes[i])])
    case Transmit => Sent(s, s.outbox.items[0])
    case StartNom =>
      s.(nomRunning := true, inbox := Queue(s.inbox.items, true), notes := Queue(s.notes.items, true))
    case StopNom =>
      s.(nomRunning := false, inbox := Queue(s.inbox.items, false), notes := Queue(s.notes.items, false),
         inHand := None, noteHand := None,
         lost := s.lost + (if s.noteHand.Some? then Dead(s.noteHand.value) else {}))
    case StartIo => s.(ioRunning := true, outbox := Queue(s.outbox.items, true))
    case StopIo => s.(ioRunning := false, outbox := Queue(s.outbox.items, false))
  }

  // ------------------------------------------------------------ the invariant

  /** Unhandled node messages, oldest first. */
  function Pending(s: State): seq<Msg> {
    (if s.noteHand.Some? then [s.noteHand.value] else []) + s.notes.items
  }

  ghost predicate EntryOk(n: NodeVal, counter: nat, seen: Seen) {
    NodeOk(n) && KnownType(n.typeNode) && n.id <= counter && (n.addr, n.typeNode) in seen
  }

  ghost predicate NodesOk(nodes: Nodes, counter: nat, seen: Seen) {
    UniquePorts(nodes) && forall i :: 0 <= i < |nodes| ==> EntryOk(nodes[i], counter, seen)
  }

  predicate NoticeOk(m: Msg) {
    && m.nodeId == m.emitter
    && (m.state == TIMEOUT || m.state == DEAD)
    && (m.state == TIMEOUT ==> |m.text| == 27 && m.text[..8] == TIMEOUT_TEXT)
    && (m.state == DEAD ==> |m.text| == STAMP_LENGTH)
  }

  ghost predicate AddrSeen(addr: Addr, seen: Seen) {
    exists typeNode: byte :: (addr, typeNode) in seen
  }

  ghost predicate TypeSeen(port: word, typeNode: byte, seen: Seen) {
    exists ip: nat :: (Addr(ip, port), typeNode) in seen
  }

  predicate MsgOk(m: Msg, seen: Seen) {
    && KnownType(m.typeNode) && (m.addr, m.typeNode) in seen
    && (if m.messageType == 0 then m.text == PING_TEXT else m.messageType == 1 && NoticeOk(m))
  }

  ghost predicate MsgsOk(msgs: seq<Msg>, seen: Seen) {
    forall k :: 0 <= k < |msgs| ==> MsgOk(msgs[k], seen)
  }

  predicate ReceivedOk(p: Packet) {
    if p.RegisterPacket? then p.msgType == REGISTER else p.PongPacket? && p.msgType == PONG
  }

  ghost predicate InOk(inbox: Queue<Packet>, inHand: Option<Packet>) {
    && inbox.Valid()
    && (forall k :: 0 <= k < |inbox.items| ==> ReceivedOk(inbox.items[k]))
    && (inHand.Some? ==> ReceivedOk(inHand.value))
  }

  /** A packet NoM may queue for sending. */
  ghost predicate SendOk(p: Packet, seen: Seen) {
    AddrSeen(p.addr, seen) &&
    if p.PingPacket? then p.msgType == PING && p.payloadLength == PING_LENGTH && p.message == PING_TEXT
    else
      && p.NotifyPacket? && p.msgType == NOTIFY && p.payloadLength == NOTIFY_LENGTH
      && |p.message| == 27 && p.message[..8] == TIMEOUT_TEXT
      && KnownType(p.typeNode) && TypeSeen(p.portNode, p.typeNode, seen) && p.stateNode == TIMEOUT
  }

  /** What a client makes of a datagram: a ping, or a NOTIFY that a node of a known type, at a port
      that registered with that type, is in TIMEOUT, with the uncut text "Timeout " and a time stamp. */
  ghost predicate ClientSees(bytes: Bytes, seen: Seen) {
    match ParseIncoming(bytes)
    case Some(ParsedPing(text)) => text == PING_TEXT + Zeros(14)
    case Some(ParsedNotify(typeNode, port, state, text)) =>
      && KnownType(typeNode) && TypeSeen(Swap16(port), typeNode, seen) && state == TIMEOUT.Code()
      && |text| == 34 && text[..8] == TIMEOUT_TEXT && text[27..] == Zeros(7)
    case _ => false
  }

  ghost predicate OutOk(outbox: Queue<Packet>, wire: seq<(Addr, Bytes)>, seen: Seen) {
    && outbox.Valid()
    && (forall k :: 0 <= k < |outbox.items| ==> SendOk(outbox.items[k], seen))
    && (forall k :: 0 <= k < |wire| ==> AddrSeen(wire[k].0, seen) && ClientSees(wire[k].1, seen))
  }

  predicate SwitchesOk(s: State) {
    && s.notes.Valid()
    && (s.nomRunning ==> s.inbox.running && s.notes.running)
    && (!s.nomRunning ==> s.inHand == None && s.noteHand == None)
    && (s.ioRunning ==> s.outbox.running)
  }

  ghost predicate Inv(s: State) {
    && NodesOk(s.nodes, s.counter, s.seen)
    && MailOk(s.nodes, Pending(s), s.lost)
    && MsgsOk(Pending(s), s.seen)
    && InOk(s.inbox, s.inHand)
    && OutOk(s.outbox, s.wire, s.seen)
    && SwitchesOk(s)
  }
}
