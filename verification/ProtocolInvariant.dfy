/** Every step of the monitor keeps the invariant. */
module ProtocolInvariant {
  import opened Types
  import opened SafeQueue
  import opened Packets
  import opened Client
  import opened Node
  import opened NodeLife
  import opened Registry
  import opened Mailbox
  import opened Protocol

  // ------------------------------------------------------------ the registry

  lemma NodesUpdate(nodes: Nodes, i: nat, n': NodeVal, counter: nat, seen: Seen)
    requires NodesOk(nodes, counter, seen) && i < |nodes|
    requires NodeOk(n') && SameNode(nodes[i], n')
    ensures NodesOk(nodes[i := n'], counter, seen)
  {
    hide NodeOk;
    assert forall j :: 0 <= j < |nodes| ==> nodes[i := n'][j].addr == nodes[j].addr;
    assert EntryOk(nodes[i], counter, seen);
  }

  lemma NodesAdmit(nodes: Nodes, p: Packet, counter: nat, seen: Seen)
    requires NodesOk(nodes, counter, seen) && p.RegisterPacket? && Admits(nodes, p)
    ensures NodesOk(Admit(nodes, counter, p), counter + 1, seen + {(p.addr, p.typeNode)})
  {
    hide NodeOk, FindPort;
    NewbornOk(counter + 1, p.addr, p.typeNode);
    forall i | 0 <= i < |nodes|
      ensures EntryOk(nodes[i], counter + 1, seen + {(p.addr, p.typeNode)})
    {
      assert EntryOk(nodes[i], counter, seen);
    }
  }

  lemma NodesErase(nodes: Nodes, i: nat, counter: nat, seen: Seen)
    requires NodesOk(nodes, counter, seen) && i < |nodes|
    ensures NodesOk(Without(nodes, i), counter, seen)
  {
    hide EntryOk;
    var nodes' := Without(nodes, i);
    assert forall j :: 0 <= j < |nodes'| ==> nodes'[j] == nodes[if j < i then j else j + 1];
  }

  /** A message leads to its emitter by port alone. */
  lemma PortLeadsHome(nodes: Nodes, m: Msg) returns (i: nat)
    requires UniquePorts(nodes) && Homed(nodes, m)
    ensures i == FindPort(nodes, m.addr.port) && HomeAt(nodes, m, i)
  {
    i :| HomeAt(nodes, m, i);
    FindsIt(nodes, i);
  }

  // ------------------------------------------------------------ node messages

  lemma SentMsgOk(n: NodeVal, ctx: Ctx, seen: Seen)
    requires KnownType(n.typeNode) && (n.addr, n.typeNode) in seen && |ctx.stamp| == STAMP_LENGTH
    ensures forall m :: m in Sends(n, ctx) ==>
      MsgOk(m, seen) && m.emitter == n.id && m.addr == n.addr && m.typeNode == n.typeNode
  {
    assert |TIMEOUT_TEXT| == 8;
    assert (TIMEOUT_TEXT + ctx.stamp)[..8] == TIMEOUT_TEXT;
  }

  lemma StepMail(s: State, i: nat, delay: nat, stamp: Bytes)
    requires Inv(s) && Enabled(s, NodeStep(i, delay, stamp))
    ensures var s' := Stepped(s, i, delay, stamp);
            MailOk(s'.nodes, Pending(s'), s'.lost) && MsgsOk(Pending(s'), s'.seen)
  {
    hide NodeOk, Next, Sends, MsgOk, Announced, MailOk;
    var n, ctx := s.nodes[i], Ctx(s.counter, stamp);
    var n', sent := Next(n, delay), Sends(n, ctx);
    assert EntryOk(n, s.counter, s.seen);
    SendsBeforeDeath(n, ctx, delay);
    SentMsgOk(n, ctx, s.seen);
    NextSame(n, delay);
    var s' := Stepped(s, i, delay, stamp);
    if sent == [] {
      MailUpdate(s.nodes, i, n', Pending(s), s.lost);
      assert s.lost + {} == s.lost;
    } else {
      var m := sent[0];
      assert m in sent;
      StepPush(s, i, n', m);
    }
  }

  lemma NextSame(n: NodeVal, delay: nat)
    ensures SameNode(n, Next(n, delay))
  {}

  /** A push, whatever the queue does with it. */
  lemma StepPush(s: State, i: nat, n': NodeVal, m: Msg)
    requires MailOk(s.nodes, Pending(s), s.lost) && MsgsOk(Pending(s), s.seen) && MsgOk(m, s.seen)
    requires i < |s.nodes| && SameNode(s.nodes[i], n') && !Announced(s.nodes[i])
    requires m.emitter == n'.id && m.addr == n'.addr && m.typeNode == n'.typeNode
    requires Announced(n') <==> IsDead(m)
    ensures var s' := s.(nodes := s.nodes[i := n'], notes := PushNote(s.notes, [m]),
                         lost := s.lost + LostBy(s.notes, [m]));
            MailOk(s'.nodes, Pending(s'), s'.lost) && MsgsOk(Pending(s'), s'.seen)
  {
    hide Announced, MsgOk, MailOk;
    var nodes' := s.nodes[i := n'];
    assert HomeAt(nodes', m, i);
    MailPush(s.nodes, i, n', m, Pending(s), s.lost);
    hide HomeAt, MsgsOk;
    var hand := if s.noteHand.Some? then [s.noteHand.value] else [];
    assert MsgsOk(Pending(s) + [m], s.seen) by {
      MsgsGrow(Pending(s), m, s.seen);
    }
    QueueTakes(nodes', hand, s.notes, m, s.lost, s.seen);
  }

  lemma MsgsGrow(msgs: seq<Msg>, m: Msg, seen: Seen)
    requires MsgsOk(msgs, seen) && MsgOk(m, seen)
    ensures MsgsOk(msgs + [m], seen)
  {
    hide MsgOk;
  }

  /** Refused, taken, or taken at the price of the oldest. */
  lemma QueueTakes(nodes: Nodes, hand: seq<Msg>, q: Queue<Msg>, m: Msg, lost: set<nat>, seen: Seen)
    requires MailOk(nodes, hand + q.items + [m], lost) && MsgsOk(hand + q.items + [m], seen)
    ensures MailOk(nodes, hand + PushNote(q, [m]).items, lost + LostBy(q, [m]))
    ensures MsgsOk(hand + PushNote(q, [m]).items, seen)
  {
    hide MsgOk, MailOk, Dead;
    var all := hand + q.items + [m];
    if !q.running {
      MailLose(nodes, |all| - 1, all, lost);
      assert Without(all, |all| - 1) == hand + q.items;
    } else if |q.items| < MAX_SAFE_QUEUE {
      assert hand + (q.items + [m]) == all;
      assert lost + {} == lost;
    } else {
      MailLose(nodes, |hand|, all, lost);
      assert all[|hand|] == q.items[0];
      assert Without(all, |hand|) == hand + (q.items[1..] + [m]);
      assert forall k :: 0 <= k < |all| - 1 ==> Without(all, |hand|)[k] == all[if k < |hand| then k else k + 1];
    }
  }

  // ------------------------------------------------------------ packets

  lemma ParsedOk(buf: Buffer, addr: Addr)
    ensures Parse(buf, addr).Some? ==> ReceivedOk(Parse(buf, addr).value)
  {
    hide CStr;
  }

  lemma InboxPush(inbox: Queue<Packet>, inHand: Option<Packet>, p: Packet)
    requires InOk(inbox, inHand) && ReceivedOk(p)
    ensures InOk(inbox.Push(p, true), inHand)
  {
    hide ReceivedOk;
  }

  /** Ports are 16 bits, so the registry can never outgrow a queue. */
  lemma RegistryFits(nodes: Nodes)
    requires UniquePorts(nodes)
    ensures |nodes| <= 65536
  {
    var ports := PortSet(nodes);
    assert ports <= Words(65536);
    SubsetSize(ports, Words(65536));
  }

  ghost function Words(n: nat): (r: set<word>)
    requires n <= 65536
    ensures |r| == n && forall x: word :: x in r <==> x < n
  {
    if n == 0 then {} else Words(n - 1) + {n - 1}
  }

  lemma {:induction false} PortSet(nodes: Nodes) returns (ports: set<word>)
    requires UniquePorts(nodes)
    ensures |ports| == |nodes|
    ensures forall p :: p in ports ==> exists i :: 0 <= i < |nodes| && nodes[i].addr.port == p
    decreases |nodes|
  {
    if nodes == [] {
      ports := {};
    } else {
      var last := |nodes| - 1;
      ports := PortSet(nodes[..last]);
      assert nodes[last].addr.port !in ports;
      ports := ports + {nodes[last].addr.port};
    }
  }

  lemma {:induction false} SubsetSize(a: set<word>, b: set<word>)
    requires a <= b
    ensures |a| <= |b|
    decreases |a|
  {
    if a != {} {
      var x :| x in a;
      SubsetSize(a - {x}, b - {x});
    }
  }

  lemma RepliesOk(nodes: Nodes, m: Msg, counter: nat, seen: Seen)
    requires MsgOk(m, seen) && NodesOk(nodes, counter, seen)
    ensures |Replies(nodes, m)| <= MAX_SAFE_QUEUE
    ensures forall k :: 0 <= k < |Replies(nodes, m)| ==> SendOk(Replies(nodes, m)[k], seen)
  {
    hide NodeOk;
    RegistryFits(nodes);
    forall i | 0 <= i < |nodes|
      ensures AddrSeen(nodes[i].addr, seen)
    {
      assert EntryOk(nodes[i], counter, seen);
    }
  }

  lemma OutboxPush(outbox: Queue<Packet>, wire: seq<(Addr, Bytes)>, seen: Seen, ps: seq<Packet>)
    requires OutOk(outbox, wire, seen) && |ps| <= MAX_SAFE_QUEUE
    requires forall k :: 0 <= k < |ps| ==> SendOk(ps[k], seen)
    ensures OutOk(PushAll(outbox, ps), wire, seen) && PushAll(outbox, ps).running == outbox.running
  {
    hide SendOk, PushAll, ClientSees, AddrSeen;
    PushAllArrives(outbox, ps);
  }

  lemma OutboxSeen(outbox: Queue<Packet>, wire: seq<(Addr, Bytes)>, seen: Seen, more: Seen)
    requires OutOk(outbox, wire, seen)
    ensures OutOk(outbox, wire, seen + more)
  {
    hide ParseIncoming, Zeros;
  }

  lemma MsgsSeen(msgs: seq<Msg>, seen: Seen, more: Seen)
    requires MsgsOk(msgs, seen)
    ensures MsgsOk(msgs, seen + more)
  {
    forall k | 0 <= k < |msgs|
      ensures MsgOk(msgs[k], seen + more)
    {
      assert MsgOk(msgs[k], seen);
    }
  }

  /** The casts before encoding are valid, and the client understands the result. */
  lemma WireMeaning(p: Packet, seen: Seen)
    requires SendOk(p, seen)
    ensures SentCastOk(p) && WireOf(p).Some? && ClientSees(WireOf(p).value, seen)
  {
    if p.PingPacket? {
      PingReachesClient(p.message, p.addr);
      assert Fit(PING_TEXT, 18) == PING_TEXT + Zeros(14);
    } else {
      NotifyReachesClient(p.message, p.addr, p.typeNode, Swap16(p.portNode), p.stateNode);
      assert Swap16(Swap16(p.portNode)) == p.portNode;
      var text := Fit(p.message, 34);
      assert text == p.message + Zeros(7);
      assert text[..8] == p.message[..8];
    }
    hide NotifyBytes, PingBytes, Fit;
  }

  // ------------------------------------------------------------ steps

  lemma KeepReceive(s: State, buf: Buffer, addr: Addr)
    requires Inv(s)
    ensures Inv(Deliver(s, buf, addr))
  {
    hide NodesOk, MailOk, MsgsOk, OutOk, Parse;
    ParsedOk(buf, addr);
    if Parse(buf, addr).Some? {
      InboxPush(s.inbox, s.inHand, Parse(buf, addr).value);
    }
    hide InOk;
  }

  lemma KeepTakePacket(s: State)
    requires Inv(s) && Enabled(s, TakePacket)
    ensures Inv(Apply(s, TakePacket))
  {
    hide NodesOk, MailOk, MsgsOk, OutOk, ReceivedOk;
  }

  lemma KeepHandlePacket(s: State)
    requires Inv(s) && Enabled(s, HandlePacket)
    ensures Inv(Apply(s, HandlePacket))
  {
    var p := s.inHand.value;
    if p.msgType == PONG {
      KeepPong(s, p);
    } else if p.RegisterPacket? && Admits(s.nodes, p) {
      KeepRegister(s, p);
    } else {
      hide NodesOk, MailOk, MsgsOk, OutOk;
    }
  }

  lemma KeepPong(s: State, p: Packet)
    requires Inv(s) && p.msgType == PONG && s.nomRunning
    ensures Inv(Handled(s, p))
  {
    hide NodesOk, MailOk, MsgsOk, OutOk, MarkPong;
    PongMail(s.nodes, p.addr.port, s.counter, s.seen, Pending(s), s.lost);
  }

  lemma PongMail(nodes: Nodes, port: word, counter: nat, seen: Seen, msgs: seq<Msg>, lost: set<nat>)
    requires NodesOk(nodes, counter, seen) && MailOk(nodes, msgs, lost)
    ensures NodesOk(MarkPong(nodes, port), counter, seen) && MailOk(MarkPong(nodes, port), msgs, lost)
  {
    hide NodeOk, MailOk, UniquePorts, FindPort;
    var i := FindPort(nodes, port);
    if i < |nodes| {
      assert EntryOk(nodes[i], counter, seen);
      HeardKeepsOk(nodes[i]);
      hide NodesOk, EntryOk;
      NodesUpdate(nodes, i, Heard(nodes[i]), counter, seen);
      MailUpdate(nodes, i, Heard(nodes[i]), msgs, lost);
    }
  }

  lemma KeepRegister(s: State, p: Packet)
    requires Inv(s) && p.msgType != PONG && p.RegisterPacket? && Admits(s.nodes, p) && s.nomRunning
    ensures Inv(Handled(s, p))
  {
    var n := Newborn(s.counter + 1, p.addr, p.typeNode);
    forall i | 0 <= i < |s.nodes|
      ensures s.nodes[i].id < n.id
    {
      assert EntryOk(s.nodes[i], s.counter, s.seen);
    }
    NodesAdmit(s.nodes, p, s.counter, s.seen);
    MailAdmit(s.nodes, n, Pending(s), s.lost);
    MsgsSeen(Pending(s), s.seen, {(p.addr, p.typeNode)});
    OutboxSeen(s.outbox, s.wire, s.seen, {(p.addr, p.typeNode)});
    hide NodesOk, MailOk, MsgsOk, OutOk, FindPort;
  }

  lemma KeepTakeNote(s: State)
    requires Inv(s) && Enabled(s, TakeNote)
    ensures Inv(Apply(s, TakeNote))
    ensures Pending(Apply(s, TakeNote)) == Pending(s)
  {
    hide NodesOk, MailOk, MsgsOk, OutOk, InOk;
    assert [s.notes.items[0]] + s.notes.items[1..] == [] + s.notes.items;
  }

  /** Handling the oldest message keeps the registry and the remaining messages consistent. */
  lemma HandledMail(nodes: Nodes, msgs: seq<Msg>, lost: set<nat>, counter: nat, seen: Seen)
    requires NodesOk(nodes, counter, seen) && MailOk(nodes, msgs, lost) && msgs != []
    ensures NodesOk(Survivors(nodes, msgs[0]), counter, seen)
    ensures MailOk(Survivors(nodes, msgs[0]), msgs[1..], lost)
  {
    hide EntryOk, FindPort;
    var m := msgs[0];
    if IsDead(m) {
      assert Homed(nodes, m);
      var i := PortLeadsHome(nodes, m);
      MailErased(nodes, i, msgs, lost);
      NodesErase(nodes, i, counter, seen);
      assert Survivors(nodes, m) == Without(nodes, i);
    } else {
      MailHandled(nodes, msgs, lost);
    }
  }

  lemma KeepHandleNote(s: State)
    requires Inv(s) && Enabled(s, HandleNote)
    ensures Inv(Apply(s, HandleNote))
    ensures Pending(Apply(s, HandleNote)) == Pending(s)[1..]
  {
    hide NodesOk, MailOk, OutOk, InOk, PushAll, Replies, MsgOk, Survivors;
    var m, s' := s.noteHand.value, Apply(s, HandleNote);
    assert Pending(s)[0] == m && Pending(s') == Pending(s)[1..];
    HandledMail(s.nodes, Pending(s), s.lost, s.counter, s.seen);
    RepliesOk(s.nodes, m, s.counter, s.seen);
    OutboxPush(s.outbox, s.wire, s.seen, Replies(s.nodes, m));
  }

  lemma KeepNodeStep(s: State, i: nat, delay: nat, stamp: Bytes)
    requires Inv(s) && Enabled(s, NodeStep(i, delay, stamp))
    ensures Inv(Apply(s, NodeStep(i, delay, stamp)))
  {
    StepMail(s, i, delay, stamp);
    assert EntryOk(s.nodes[i], s.counter, s.seen);
    NextKeepsOk(s.nodes[i], delay);
    NextSame(s.nodes[i], delay);
    NodesUpdate(s.nodes, i, Next(s.nodes[i], delay), s.counter, s.seen);
    hide NodesOk, MailOk, MsgsOk, OutOk, InOk, Next, Sends;
  }

  lemma KeepNodeStop(s: State, i: nat)
    requires Inv(s) && Enabled(s, NodeStop(i))
    ensures Inv(Apply(s, NodeStop(i)))
  {
    assert EntryOk(s.nodes[i], s.counter, s.seen);
    HeardKeepsOk(s.nodes[i]);
    NodesUpdate(s.nodes, i, Halted(s.nodes[i]), s.counter, s.seen);
    MailUpdate(s.nodes, i, Halted(s.nodes[i]), Pending(s), s.lost);
    hide NodesOk, MailOk, MsgsOk, OutOk, InOk;
  }

  lemma KeepTransmit(s: State)
    requires Inv(s) && Enabled(s, Transmit)
    ensures Inv(Apply(s, Transmit))
  {
    var p := s.outbox.items[0];
    WireMeaning(p, s.seen);
    hide NodesOk, MailOk, MsgsOk, InOk, SendOk, ClientSees, WireOf;
  }

  lemma KeepStopNom(s: State)
    requires Inv(s) && Enabled(s, StopNom)
    ensures Inv(Apply(s, StopNom))
  {
    hide NodesOk, MailOk, OutOk, MsgOk, Dead, ReceivedOk;
    var s' := Apply(s, StopNom);
    if s.noteHand.Some? {
      MailLose(s.nodes, 0, Pending(s), s.lost);
      assert Pending(s') == Pending(s)[1..] == Without(Pending(s), 0);
    } else {
      assert s.lost + {} == s.lost;
      assert Pending(s') == Pending(s);
    }
    hide Pending;
  }

  /** The invariant survives every step. */
  lemma KeepStep(s: State, step: Step)
    requires Inv(s) && Enabled(s, step)
    ensures Inv(Apply(s, step))
  {
    match step
    case Receive(buf, addr) => KeepReceive(s, buf, addr);
    case TakePacket => KeepTakePacket(s);
    case HandlePacket => KeepHandlePacket(s);
    case TakeNote => KeepTakeNote(s);
    case HandleNote => KeepHandleNote(s);
    case NodeStep(i, delay, stamp) => KeepNodeStep(s, i, delay, stamp);
    case NodeStop(i) => KeepNodeStop(s, i);
    case Transmit => KeepTransmit(s);
    case StopNom => KeepStopNom(s);
    case _ =>
      hide NodesOk, MailOk, MsgsOk;
  }

  lemma StartsOk()
    ensures Inv(INITIAL)
  {}
}
