/** Whole exchanges, step by step, on a monitor that is otherwise idle: a ping answered, and a death
    buried so that its port can register again. */
module ProtocolExchange {
  import opened Types
  import opened SafeQueue
  import opened Packets
  import opened Client
  import opened Node
  import opened Registry
  import opened Protocol
  import opened ProtocolInvariant
  import opened ProtocolRuns
  import opened ProtocolSteps
  import opened ProtocolTrace

  /** Everything runs, nothing waits, nobody sleeps. */
  predicate Idle(s: State) {
    && s.nomRunning && s.ioRunning && s.inHand == None && s.noteHand == None
    && s.inbox == Queue([], true) && s.notes == Queue([], true) && s.outbox == Queue([], true)
    && forall i :: 0 <= i < |s.nodes| ==> s.nodes[i].phase != Sleeping
  }

  ghost predicate Leads(s: State, steps: seq<Step>, s': State)
    decreases |steps|
  {
    if steps == [] then s == s' else Enabled(s, steps[0]) && Leads(Apply(s, steps[0]), steps[1..], s')
  }

  lemma {:induction false} LeadsOn(s: State, steps: seq<Step>, s': State, step: Step)
    requires Leads(s, steps, s') && Enabled(s', step)
    ensures Leads(s, steps + [step], Apply(s', step))
    decreases |steps|
  {
    hide Enabled, Apply;
    if steps == [] {
      assert Leads(Apply(s, step), [step][1..], Apply(s, step));
    } else {
      assert (steps + [step])[1..] == steps[1..] + [step];
      LeadsOn(Apply(s, steps[0]), steps[1..], s', step);
    }
  }

  /** One more step. */
  lemma Go(s: State, steps: seq<Step>, s': State, step: Step) returns (steps': seq<Step>, s'': State)
    requires Leads(s, steps, s') && Inv(s') && Enabled(s', step)
    ensures s'' == Apply(s', step) && steps' == steps + [step] && Leads(s, steps', s'') && Inv(s'')
  {
    hide *;
    LeadsOn(s, steps, s', step);
    KeepStep(s', step);
    steps', s'' := steps + [step], Apply(s', step);
  }

  lemma Begin(s: State)
    ensures Leads(s, [], s)
  {}

  // ------------------------------------------------------------ a ping answered

  /** A waiting node's first step opens a window and pushes a ping. */
  lemma Opens(s: State, i: nat, stamp: Bytes)
    requires i < |s.nodes| && s.nodes[i].phase == Top && s.nodes[i].running && s.nodes[i].state == ALIVE
    requires |stamp| == 19 && s.notes == Queue([], true)
    ensures var step, n := NodeStep(i, 0, stamp), s.nodes[i];
            && Enabled(s, step)
            && Apply(s, step) == s.(
                 nodes := s.nodes[i := n.(phase := Waiting, pong := false, pingAt := n.now, log := n.log + [PingNote])],
                 notes := Queue([Msg(n.id, s.counter, n.typeNode, ALIVE, 0, [80, 105, 110, 103], n.addr)], true))
  {
    hide FindPort, CloseWindow;
    assert s.lost + {} == s.lost;
    assert [] + [PingMsg(s.nodes[i], Ctx(s.counter, stamp))] == [PingMsg(s.nodes[i], Ctx(s.counter, stamp))];
  }

  /** The step that closes an answered window. */
  lemma Closes(s: State, i: nat, delay: nat, stamp: Bytes)
    requires i < |s.nodes| && s.nodes[i].phase == Waiting && s.nodes[i].running && s.nodes[i].pong
    requires s.nodes[i].state == ALIVE && |stamp| == 19 && delay <= 2000
    ensures var step, n := NodeStep(i, delay, stamp), s.nodes[i];
            && Enabled(s, step)
            && Apply(s, step) == s.(
                 nodes := s.nodes[i := n.(phase := Sleeping, now := n.pingAt + delay,
                                          wins := n.wins + [Window(Answered, n.pingAt, n.pingAt + delay)])])
  {
    hide FindPort;
    assert s.lost + {} == s.lost;
  }

  /** NoM hands a ping over and the ping goes out. */
  lemma PingGoesOut(s: State, i: nat) returns (steps: seq<Step>, s': State)
    requires Inv(s) && s.nomRunning && s.ioRunning && s.noteHand == None && s.outbox == Queue([], true)
    requires s.notes.running && |s.notes.items| == 1 && s.notes.items[0].messageType == 0
    requires i < |s.nodes| && s.notes.items[0].emitter == s.nodes[i].id
    ensures steps == [TakeNote, HandleNote, Transmit] && Leads(s, steps, s') && Inv(s')
    ensures s' == s.(notes := Queue([], true), wire := s'.wire)
    ensures |s'.wire| == |s.wire| + 1 && s'.wire[..|s.wire|] == s.wire
    ensures s'.wire[|s.wire|].0 == s.nodes[i].addr
    ensures ParseIncoming(s'.wire[|s.wire|].1) == Some(ParsedPing([80, 105, 110, 103] + Zeros(14)))
  {
    hide *;
    var m := s.notes.items[0];
    InvIncreasing(s);
    WhenPossible(s);
    TakeNoteDoes(s, m, []);
    Begin(s);
    steps, s' := Go(s, [], s, TakeNote);
    InvIncreasing(s');
    WhenPossible(s');
    PingDoes(s');
    SameEntry(s', i, FindPort(s'.nodes, m.addr.port));
    RoomOfNone<Packet>();
    steps, s' := Go(s, steps, s', HandleNote);
    var p := PingPacket(1, 20, [80, 105, 110, 103], s.nodes[i].addr);
    assert s'.outbox.items == [p] + [];
    InvIncreasing(s');
    WhenPossible(s');
    TransmitDoes(s', p, []);
    ReadsPing(p);
    steps, s' := Go(s, steps, s', Transmit);
    assert steps == [TakeNote, HandleNote, Transmit];
  }

  lemma SameEntry(s: State, i: nat, j: nat)
    requires Inv(s) && i < |s.nodes| && j < |s.nodes| && s.nodes[i].id == s.nodes[j].id
    ensures i == j
  {
    hide *;
    SameId(s, i, j);
  }

  lemma RoomOfNone<T>()
    ensures Room<T>([]) == []
  {}

  lemma ReadsPing(p: Packet)
    requires p.PingPacket?
    ensures Reading(p) == ParsedPing([80, 105, 110, 103] + Zeros(14))
  {
    hide Zeros;
  }

  /** A client's PONG arrives and sets the flag. */
  lemma PongComesIn(s: State, i: nat, message: Bytes) returns (steps: seq<Step>, s': State)
    requires Inv(s) && s.nomRunning && s.ioRunning && s.inHand == None && s.inbox == Queue([], true)
    requires i < |s.nodes| && s.nodes[i].phase != Sleeping && |message| <= 253
    ensures steps == [Receive(Received(BuildPong(message).value), s.nodes[i].addr), TakePacket, HandlePacket]
    ensures Leads(s, steps, s') && Inv(s')
    ensures s' == s.(nodes := s.nodes[i := s.nodes[i].(pong := true)])
  {
    hide *;
    var addr := s.nodes[i].addr;
    PongBytes(message);
    var buf := Received(BuildPong(message).value);
    Listening(s, buf, addr);
    ReceiveDoes(s, buf, addr);
    RoomOfNone<Packet>();
    var p := PongPacket(2, buf[1], Text(buf, 2), addr);
    Begin(s);
    steps, s' := Go(s, [], s, Receive(buf, addr));
    assert s'.inbox.items == [p] + [];
    InvIncreasing(s');
    WhenPossible(s');
    TakePacketDoes(s', p, []);
    steps, s' := Go(s, steps, s', TakePacket);
    InvIncreasing(s');
    PortIsHis(s', i);
    WhenPossible(s');
    PongDoes(s');
    steps, s' := Go(s, steps, s', HandlePacket);
    assert s'.nodes == s.nodes[i := s.nodes[i].(pong := true)];
  }

  lemma PongBytes(message: Bytes)
    requires |message| <= 253
    ensures BuildPong(message).Some? && |BuildPong(message).value| < BUFFER_SIZE
    ensures var buf := Received(BuildPong(message).value); |buf| == 256 && buf[0] == 2
  {}

  lemma Listening(s: State, buf: Buffer, addr: Addr)
    requires s.ioRunning
    ensures Enabled(s, Receive(buf, addr))
  {}

  lemma PortIsHis(s: State, i: nat)
    requires UniquePorts(s.nodes) && i < |s.nodes|
    ensures forall j :: 0 <= j < |s.nodes| && s.nodes[j].addr.port == s.nodes[i].addr.port ==> j == i
  {}

  /** From an idle monitor: an ALIVE node pings, its client reads "Ping" and answers with any PONG within
      two seconds, and the window closes as answered, in these eight steps; nothing else has changed but
      the datagram sent. */
  lemma PingIsAnswered(s: State, i: nat, stamp: Bytes, message: Bytes, delay: nat)
    returns (steps: seq<Step>, s': State)
    requires Inv(s) && Idle(s) && i < |s.nodes|
    requires s.nodes[i].phase == Top && s.nodes[i].running && s.nodes[i].state == ALIVE
    requires |stamp| == 19 && |message| <= 253 && delay <= 2000
    ensures |steps| == 8 && Leads(s, steps, s') && Inv(s')
    ensures var n := s.nodes[i];
            && s' == s.(wire := s'.wire, nodes := s.nodes[i := n.(
                 phase := Sleeping, pong := true, pingAt := n.now, now := n.now + delay, log := n.log + [PingNote],
                 wins := n.wins + [Window(Answered, n.now, n.now + delay)])])
            && |s'.wire| == |s.wire| + 1 && s'.wire[..|s.wire|] == s.wire
            && s'.wire[|s.wire|].0 == n.addr
            && ParseIncoming(s'.wire[|s.wire|].1) == Some(ParsedPing([80, 105, 110, 103] + Zeros(14)))
  {
    hide Inv, Enabled, Apply, Leads, ParseIncoming, Zeros, Received, BuildPong;
    Opens(s, i, stamp);
    Begin(s);
    steps, s' := Go(s, [], s, NodeStep(i, 0, stamp));
    var more, t := PingGoesOut(s', i);
    LeadsFurther(s, steps, s', more, t);
    steps, s' := steps + more, t;
    more, t := PongComesIn(s', i, message);
    LeadsFurther(s, steps, s', more, t);
    steps, s' := steps + more, t;
    Closes(s', i, delay, stamp);
    steps, s' := Go(s, steps, s', NodeStep(i, delay, stamp));
  }

  lemma {:induction false} LeadsFurther(s: State, steps: seq<Step>, s': State, more: seq<Step>, t: State)
    requires Leads(s, steps, s') && Leads(s', more, t)
    ensures Leads(s, steps + more, t)
    decreases |steps|
  {
    hide Enabled, Apply;
    if steps == [] {
      assert steps + more == more;
    } else {
      assert (steps + more)[1..] == steps[1..] + more;
      LeadsFurther(Apply(s, steps[0]), steps[1..], s', more, t);
    }
  }

  // ------------------------------------------------------------ a death buried

  lemma Dies(s: State, i: nat, stamp: Bytes)
    requires i < |s.nodes| && s.nodes[i].phase == Top && s.nodes[i].running && s.nodes[i].state == DEAD
    requires |stamp| == 19 && s.notes == Queue([], true)
    ensures var step, n := NodeStep(i, 0, stamp), s.nodes[i];
            && Enabled(s, step)
            && Apply(s, step) == s.(
                 nodes := s.nodes[i := n.(phase := DeadPushed, log := n.log + [DeadNote])],
                 notes := Queue([Msg(n.id, n.id, n.typeNode, DEAD, 1, stamp, n.addr)], true))
  {
    hide FindPort, CloseWindow;
    assert s.lost + {} == s.lost;
    assert [] + [DeadMsg(s.nodes[i], Ctx(s.counter, stamp))] == [DeadMsg(s.nodes[i], Ctx(s.counter, stamp))];
  }

  /** From an idle monitor: a node in DEAD announces its death and NoM removes it, in three steps. */
  lemma DeathIsBuried(s: State, i: nat, stamp: Bytes) returns (steps: seq<Step>, s': State)
    requires Inv(s) && Idle(s) && i < |s.nodes| && |stamp| == 19
    requires s.nodes[i].phase == Top && s.nodes[i].running && s.nodes[i].state == DEAD
    ensures steps == [NodeStep(i, 0, stamp), TakeNote, HandleNote] && Leads(s, steps, s') && Inv(s')
    ensures s' == s.(nodes := s.nodes[..i] + s.nodes[i + 1..])
  {
    hide Inv, Enabled, Apply, Leads;
    Dies(s, i, stamp);
    Begin(s);
    steps, s' := Go(s, [], s, NodeStep(i, 0, stamp));
    var m := s'.notes.items[0];
    InvIncreasing(s');
    WhenPossible(s');
    TakeNoteDoes(s', m, []);
    steps, s' := Go(s, steps, s', TakeNote);
    InvIncreasing(s');
    WhenPossible(s');
    var j := DeadDoes(s');
    SameEntry(s', i, j);
    steps, s' := Go(s, steps, s', HandleNote);
  }

  /** Then the port is free: a REGISTER from it, of a known type, makes a new node with a new identity. */
  lemma RegisterComesIn(s: State, addr: Addr, nodeType: byte, message: Bytes) returns (steps: seq<Step>, s': State)
    requires Inv(s) && Idle(s) && 1 <= nodeType <= 3 && |message| <= 252
    requires forall i :: 0 <= i < |s.nodes| ==> s.nodes[i].addr.port != addr.port
    ensures steps == [Receive(Received(BuildRegister(nodeType, message).value), addr), TakePacket, HandlePacket]
    ensures Leads(s, steps, s') && Inv(s')
    ensures s' == s.(counter := s.counter + 1, seen := s.seen + {(addr, nodeType)},
                     nodes := s.nodes + [NodeVal(s.counter + 1, addr, nodeType, INIT, 0, false, true, Top,
                                                 0, 0, [], [])])
  {
    hide *;
    IdleMeans(s);
    RegisterBytes(nodeType, message);
    var buf := Received(BuildRegister(nodeType, message).value);
    Listening(s, buf, addr);
    ReceiveDoes(s, buf, addr);
    RoomOfNone<Packet>();
    var p := RegisterPacket(0, buf[1], CStr(Text(buf, 3)), addr, buf[2]);
    Begin(s);
    steps, s' := Go(s, [], s, Receive(buf, addr));
    assert s'.inbox.items == [p] + [];
    InvIncreasing(s');
    WhenPossible(s');
    TakePacketDoes(s', p, []);
    steps, s' := Go(s, steps, s', TakePacket);
    InvIncreasing(s');
    WhenPossible(s');
    RegisterDoes(s');
    steps, s' := Go(s, steps, s', HandlePacket);
  }

  lemma IdleMeans(s: State)
    requires Idle(s)
    ensures s.nomRunning && s.ioRunning && s.inHand == None && s.inbox == Queue([], true)
  {}

  lemma RegisterBytes(nodeType: byte, message: Bytes)
    requires |message| <= 252
    ensures BuildRegister(nodeType, message).Some? && |BuildRegister(nodeType, message).value| < BUFFER_SIZE
    ensures var buf := Received(BuildRegister(nodeType, message).value);
            |buf| == 256 && buf[0] == 0 && buf[2] == nodeType
  {}

  /** So a node that died and was buried can come back from the same address. */
  lemma PortLivesAgain(s: State, i: nat, stamp: Bytes, nodeType: byte, message: Bytes)
    returns (steps: seq<Step>, s': State)
    requires Inv(s) && Idle(s) && i < |s.nodes| && |stamp| == 19 && 1 <= nodeType <= 3 && |message| <= 252
    requires s.nodes[i].phase == Top && s.nodes[i].running && s.nodes[i].state == DEAD
    ensures |steps| == 6 && Leads(s, steps, s') && Inv(s')
    ensures s'.counter == s.counter + 1
    ensures s'.nodes == s.nodes[..i] + s.nodes[i + 1..]
              + [NodeVal(s.counter + 1, s.nodes[i].addr, nodeType, INIT, 0, false, true, Top, 0, 0, [], [])]
  {
    hide Inv, Leads, Received, BuildRegister, UniquePorts;
    InvIncreasing(s);
    PortIsHis(s, i);
    steps, s' := DeathIsBuried(s, i, stamp);
    var more, t := RegisterComesIn(s', s.nodes[i].addr, nodeType, message);
    LeadsFurther(s, steps, s', more, t);
    steps, s' := steps + more, t;
  }
}
