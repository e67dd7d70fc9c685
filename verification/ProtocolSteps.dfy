/** What each step does to the whole state, field by field and in plain values: queue contents, packet
    and message fields, wire codes. Everything a step does not mention stays as it was. */
module ProtocolSteps {
  import opened Types
  import opened SafeQueue
  import opened Packets
  import opened Client
  import opened Node
  import opened NodeLife
  import opened Registry
  import opened Mailbox
  import opened Protocol
  import opened ProtocolInvariant
  import opened ProtocolRuns
  import opened ProtocolTrace

  // ------------------------------------------------------------ when steps can happen

  /** NoM's receiving thread is held up exactly by a PONG for a node that sleeps with its mutex held;
      nobody else can stop such a node. */
  lemma WhenPossible(s: State)
    requires UniquePorts(s.nodes)
    ensures Enabled(s, HandlePacket) <==>
              && s.nomRunning && s.inHand.Some?
              && !(s.inHand.value.msgType == 2
                   && exists i :: 0 <= i < |s.nodes| && s.nodes[i].addr.port == s.inHand.value.addr.port
                                  && s.nodes[i].phase == Sleeping)
    ensures forall i: nat :: Enabled(s, NodeStop(i)) <==> i < |s.nodes| && s.nodes[i].phase != Sleeping
    ensures forall i: nat, delay: nat, stamp: Bytes :: Enabled(s, NodeStep(i, delay, stamp)) <==>
              i < |s.nodes| && s.nodes[i].phase != Exited && delay <= 2000 && |stamp| == 19
    ensures Enabled(s, TakePacket) <==> s.nomRunning && s.inHand == None && s.inbox.running && s.inbox.items != []
    ensures Enabled(s, TakeNote) <==> s.nomRunning && s.noteHand == None && s.notes.running && s.notes.items != []
    ensures Enabled(s, HandleNote) <==> s.nomRunning && s.noteHand.Some?
    ensures Enabled(s, Transmit) <==> s.ioRunning && s.outbox.running && s.outbox.items != []
  {
    hide FindPort;
    if s.inHand.Some? {
      var port := s.inHand.value.addr.port;
      forall i | 0 <= i < |s.nodes| && s.nodes[i].addr.port == port
        ensures i == FindPort(s.nodes, port)
      {
        FindsIt(s.nodes, i);
      }
    }
  }

  // ------------------------------------------------------------ receiving

  /** A REGISTER or a PONG joins the packets already waiting; any other datagram changes nothing. */
  lemma ReceiveDoes(s: State, buf: Buffer, addr: Addr)
    requires Enabled(s, Receive(buf, addr))
    ensures var s', items := Apply(s, Receive(buf, addr)), s.inbox.items;
            && s' == s.(inbox := Queue(s'.inbox.items, s.inbox.running))
            && (!s.inbox.running || (buf[0] != 0 && buf[0] != 2) ==> s'.inbox.items == items)
            && (s.inbox.running && buf[0] == 0 ==>
                  s'.inbox.items == Room(items) + [RegisterPacket(0, buf[1], CStr(Text(buf, 3)), addr, buf[2])])
            && (s.inbox.running && buf[0] == 2 ==>
                  s'.inbox.items == Room(items) + [PongPacket(2, buf[1], Text(buf, 2), addr)])
  {
    hide CStr;
    assert Payload(buf, 3) == Text(buf, 3) && Payload(buf, 2) == Text(buf, 2);
  }

  /** The bytes from `from` up to the declared length. */
  function Text(buf: Buffer, from: nat): Bytes
    requires from <= 3
  {
    buf[from..if buf[1] < from then from else buf[1]]
  }

  /** NoM takes the packet that has waited longest. */
  lemma TakePacketDoes(s: State, first: Packet, rest: seq<Packet>)
    requires Enabled(s, TakePacket) && s.inbox.items == [first] + rest
    ensures Apply(s, TakePacket) == s.(inHand := Some(first), inbox := Queue(rest, true))
  {
    hide FindPort;
    assert s.inbox.items[1..] == rest;
  }

  /** A PONG sets the flag of the node at its port. */
  lemma PongDoes(s: State)
    requires UniquePorts(s.nodes) && Enabled(s, HandlePacket) && s.inHand.value.msgType == 2
    ensures var s', port := Apply(s, HandlePacket), s.inHand.value.addr.port;
            && s' == s.(inHand := None, nodes := s'.nodes)
            && |s'.nodes| == |s.nodes|
            && forall i :: 0 <= i < |s.nodes| ==>
                 s'.nodes[i] == if s.nodes[i].addr.port == port then s.nodes[i].(pong := true) else s.nodes[i]
  {
    hide FindPort;
    var port := s.inHand.value.addr.port;
    forall i | 0 <= i < |s.nodes| && s.nodes[i].addr.port == port
      ensures i == FindPort(s.nodes, port)
    {
      FindsIt(s.nodes, i);
    }
  }

  /** A REGISTER adds an entry if its port is new and its type is 1, 2 or 3. */
  lemma RegisterDoes(s: State)
    requires Enabled(s, HandlePacket) && s.inHand.value.RegisterPacket? && s.inHand.value.msgType == 0
    ensures var s', p := Apply(s, HandlePacket), s.inHand.value;
            if 1 <= p.typeNode <= 3 && (forall i :: 0 <= i < |s.nodes| ==> s.nodes[i].addr.port != p.addr.port) then
              s' == s.(inHand := None, counter := s.counter + 1, seen := s.seen + {(p.addr, p.typeNode)},
                       nodes := s.nodes + [NodeVal(s.counter + 1, p.addr, p.typeNode, INIT, 0, false, true, Top,
                                                   0, 0, [], [])])
            else s' == s.(inHand := None)
  {
    hide FindPort;
  }

  // ------------------------------------------------------------ a node's thread

  /** The message behind a note, with its fields spelled out. */
  function MessageOf(note: Note, n: NodeVal, counter: nat, stamp: Bytes): Msg {
    match note
    case PingNote => Msg(n.id, counter, n.typeNode, n.state, 0, [80, 105, 110, 103], n.addr)
    case TimeoutNote => Msg(n.id, n.id, n.typeNode, TIMEOUT, 1, [84, 105, 109, 101, 111, 117, 116, 32] + stamp, n.addr)
    case DeadNote => Msg(n.id, n.id, n.typeNode, DEAD, 1, stamp, n.addr)
  }

  /** A node's step changes its own entry only; if it logs a note, a running message queue gets exactly
      the message behind that note. */
  lemma NodeStepDoes(s: State, i: nat, delay: nat, stamp: Bytes)
    requires Enabled(s, NodeStep(i, delay, stamp))
    ensures var s', n := Apply(s, NodeStep(i, delay, stamp)), s.nodes[i];
            && s' == s.(nodes := s.nodes[i := s'.nodes[i]], notes := s'.notes, lost := s'.lost)
            && SameNode(n, s'.nodes[i])
            && n.log <= s'.nodes[i].log && |s'.nodes[i].log| <= |n.log| + 1
            && (s'.nodes[i].log == n.log || !s.notes.running ==> s'.notes == s.notes)
            && (s'.nodes[i].log != n.log && s.notes.running ==>
                  s'.notes == Queue(Room(s.notes.items)
                                    + [MessageOf(s'.nodes[i].log[|n.log|], n, s.counter, stamp)], true))
  {
    hide FindPort, LostBy, Next, Sends;
    var n, ctx := s.nodes[i], Ctx(s.counter, stamp);
    NextSame(n, delay);
    LogSays(n, ctx, delay);
  }

  lemma LogSays(n: NodeVal, ctx: Ctx, delay: nat)
    ensures var sent, log := Sends(n, ctx), Next(n, delay).log;
            if sent == [] then log == n.log
            else |log| == |n.log| + 1 && n.log <= log && sent[0] == MessageOf(log[|n.log|], n, ctx.counter, ctx.stamp)
  {
    LogIsWhatIsSent(n, ctx, delay);
    hide CloseWindow;
  }

  /** stop() from outside clears one flag. */
  lemma NodeStopDoes(s: State, i: nat)
    requires Enabled(s, NodeStop(i))
    ensures Apply(s, NodeStop(i)) == s.(nodes := s.nodes[i := s.nodes[i].(running := false)])
  {
    hide FindPort;
  }

  // ------------------------------------------------------------ handling messages

  lemma TakeNoteDoes(s: State, first: Msg, rest: seq<Msg>)
    requires Enabled(s, TakeNote) && s.notes.items == [first] + rest
    ensures Apply(s, TakeNote) == s.(noteHand := Some(first), notes := Queue(rest, true))
  {
    hide FindPort;
    assert s.notes.items[1..] == rest;
  }

  /** A DEAD notice removes its emitter's entry, which is past its DEAD push, and nothing else. */
  lemma DeadDoes(s: State) returns (i: nat)
    requires Inv(s) && Enabled(s, HandleNote)
    requires s.noteHand.value.messageType == 1 && s.noteHand.value.state == DEAD
    ensures i < |s.nodes| && s.nodes[i].id == s.noteHand.value.emitter && Announced(s.nodes[i])
    ensures Apply(s, HandleNote) == s.(noteHand := None, nodes := s.nodes[..i] + s.nodes[i + 1..])
  {
    hide Inv, FindPort, UniquePorts, Announced;
    HandIsHome(s);
    i := FindPort(s.nodes, s.noteHand.value.addr.port);
    PushNone(s.outbox, []);
  }

  // ------------------------------------------------------------ sending

  /** What the client that receives a packet reads. */
  function Reading(p: Packet): Parsed {
    if p.NotifyPacket? then ParsedNotify(p.typeNode, Swap16(p.portNode), 2, p.message + Zeros(7))
    else ParsedPing([80, 105, 110, 103] + Zeros(14))
  }

  /** The oldest packet leaves the queue and goes out, as one datagram for its address that the client
      reads as the packet says. */
  lemma TransmitDoes(s: State, first: Packet, rest: seq<Packet>)
    requires Inv(s) && Enabled(s, Transmit) && s.outbox.items == [first] + rest
    ensures var s', k := Apply(s, Transmit), |s.wire|;
            && s' == s.(outbox := Queue(rest, true), wire := s'.wire)
            && |s'.wire| == k + 1 && s'.wire[..k] == s.wire
            && s'.wire[k].0 == first.addr && ParseIncoming(s'.wire[k].1) == Some(Reading(first))
  {
    hide NodesOk, MailOk, MsgsOk, InOk, FindPort, ParseIncoming, WireOf, AddrSeen, TypeSeen, ClientSees, SentCastOk;
    assert s.outbox.items[0] == first && s.outbox.items[1..] == rest;
    assert SendOk(first, s.seen);
    PacketReads(first, s.seen);
  }

  lemma PacketReads(p: Packet, seen: Seen)
    requires SendOk(p, seen)
    ensures SentCastOk(p) && WireOf(p).Some? && ParseIncoming(WireOf(p).value) == Some(Reading(p))
  {
    hide ParseIncoming, NotifyBytes, PingBytes, Fit, Zeros, AddrSeen, TypeSeen;
    if p.PingPacket? {
      PingReachesClient(p.message, p.addr);
      FitShort(PING_TEXT, 18);
    } else {
      NotifyReachesClient(p.message, p.addr, p.typeNode, Swap16(p.portNode), p.stateNode);
      assert Swap16(Swap16(p.portNode)) == p.portNode;
      FitShort(p.message, 34);
    }
  }

  // ------------------------------------------------------------ switches

  /** Starting and stopping keep the contents of every queue; stopping NoM drops what it had popped. */
  lemma SwitchesDo(s: State)
    ensures Enabled(s, StartNom) <==> !s.nomRunning
    ensures Enabled(s, StopNom) <==> s.nomRunning
    ensures Enabled(s, StartIo) <==> !s.ioRunning
    ensures Enabled(s, StopIo) <==> s.ioRunning
    ensures !s.nomRunning ==>
      Apply(s, StartNom) == s.(nomRunning := true, inbox := Queue(s.inbox.items, true),
                               notes := Queue(s.notes.items, true))
    ensures s.nomRunning ==>
      var s' := Apply(s, StopNom);
      s' == s.(nomRunning := false, inbox := Queue(s.inbox.items, false), notes := Queue(s.notes.items, false),
               inHand := None, noteHand := None, lost := s'.lost)
    ensures !s.ioRunning ==>
      Apply(s, StartIo) == s.(ioRunning := true, outbox := Queue(s.outbox.items, true))
    ensures s.ioRunning ==>
      Apply(s, StopIo) == s.(ioRunning := false, outbox := Queue(s.outbox.items, false))
  {
    hide FindPort;
  }

  // ------------------------------------------------------------ sleepers

  /** A node that sleeps is left alone: every step but its own keeps its entry as it is. */
  lemma SleepersAreLeftAlone(s: State, step: Step, i: nat) returns (k: nat)
    requires Inv(s) && Enabled(s, step) && i < |s.nodes| && s.nodes[i].phase == Sleeping
    requires !(step.NodeStep? && step.i == i)
    ensures k < |Apply(s, step).nodes| && Apply(s, step).nodes[k] == s.nodes[i]
  {
    hide Inv, Apply, Enabled;
    k := i;
    InvIncreasing(s);
    WhenPossible(s);
    match step {
      case HandlePacket => PacketKeeps(s, i);
      case HandleNote => k := NoteKeeps(s, i);
      case NodeStep(j, delay, stamp) => NodeStepDoes(s, j, delay, stamp);
      case NodeStop(j) => NodeStopDoes(s, j);
      case _ => OthersKeepNodes(s, step);
    }
  }

  lemma OthersKeepNodes(s: State, step: Step)
    requires Enabled(s, step)
    requires !step.HandlePacket? && !step.HandleNote? && !step.NodeStep? && !step.NodeStop?
    ensures Apply(s, step).nodes == s.nodes
  {
    hide FindPort, Parse, SentCastOk, WireOf;
  }

  lemma PacketKeeps(s: State, i: nat)
    requires UniquePorts(s.nodes) && Enabled(s, HandlePacket) && i < |s.nodes| && s.nodes[i].phase == Sleeping
    ensures i < |Apply(s, HandlePacket).nodes| && Apply(s, HandlePacket).nodes[i] == s.nodes[i]
  {
    hide FindPort;
    if s.inHand.value.msgType == 2 {
      PongDoes(s);
      WhenPossible(s);
    }
  }

  lemma NoteKeeps(s: State, i: nat) returns (k: nat)
    requires Inv(s) && Enabled(s, HandleNote) && i < |s.nodes| && s.nodes[i].phase == Sleeping
    ensures k < |Apply(s, HandleNote).nodes| && Apply(s, HandleNote).nodes[k] == s.nodes[i]
  {
    hide Inv, FindPort, UniquePorts, PushAll, Replies, Announced, NodeOk;
    k := i;
    if IsDead(s.noteHand.value) {
      DyingIsAwake(s, i);
      var j := DeadDoes(s);
      k := if i < j then i else i - 1;
    }
  }

  lemma DyingIsAwake(s: State, i: nat)
    requires Inv(s) && i < |s.nodes| && s.nodes[i].phase == Sleeping
    ensures !Announced(s.nodes[i])
  {
    hide NodeOk, MailOk, MsgsOk, InOk, OutOk, Announced;
    assert EntryOk(s.nodes[i], s.counter, s.seen);
    AnnouncedPhase(s.nodes[i]);
  }
}
