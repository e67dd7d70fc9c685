/** What holds in every state of every run of the monitor. */
module ProtocolRuns {
  import opened Types
  import opened SafeQueue
  import opened Packets
  import opened Client
  import opened Node
  import opened NodeLife
  import opened Registry
  import opened Mailbox
  import opened Protocol
  import opened ProtocolInvariant

  ghost predicate IsRun(states: seq<State>, steps: seq<Step>) {
    && |states| == |steps| + 1
    && states[0] == INITIAL
    && forall t :: 0 <= t < |steps| ==>
         Enabled(states[t], steps[t]) && states[t + 1] == Apply(states[t], steps[t])
  }

  lemma {:induction false} RunKeepsInv(states: seq<State>, steps: seq<Step>, t: nat)
    requires IsRun(states, steps) && t < |states|
    ensures Inv(states[t])
    decreases t
  {
    hide Inv, Enabled, Apply;
    if t == 0 {
      StartsOk();
    } else {
      RunKeepsInv(states, steps, t - 1);
      assert Enabled(states[t - 1], steps[t - 1]) && states[t] == Apply(states[t - 1], steps[t - 1]);
      KeepStep(states[t - 1], steps[t - 1]);
    }
  }

  // ------------------------------------------------------------ DEAD notices

  /** A DEAD notice finds, by port alone, its own emitter, which is the only entry with that port and
      has at most three steps left; and it is that emitter's last message. */
  lemma DeathNoticeIsSafe(states: seq<State>, steps: seq<Step>, t: nat, k: nat)
    requires IsRun(states, steps) && t < |states|
    requires k < |Pending(states[t])| && IsDead(Pending(states[t])[k])
    ensures var s, m := states[t], Pending(states[t])[k];
            var i := FindPort(s.nodes, m.addr.port);
            && i < |s.nodes| && s.nodes[i].id == m.emitter
            && Announced(s.nodes[i]) && Steps(s.nodes[i], 3).phase == Exited
            && (forall j :: 0 <= j < |s.nodes| && s.nodes[j].addr.port == m.addr.port ==> j == i)
            && (forall l :: k < l < |Pending(s)| ==> Pending(s)[l].emitter != m.emitter)
  {
    hide NodeOk, MsgsOk, InOk, OutOk, Balanced, Steps, Announced;
    RunKeepsInv(states, steps, t);
    var s, m := states[t], Pending(states[t])[k];
    assert Homed(s.nodes, m);
    var i := PortLeadsHome(s.nodes, m);
    assert EntryOk(s.nodes[i], s.counter, s.seen);
    TailIsBounded(s.nodes[i], Ctx(0, []));
  }

  /** Whoever pushed an unhandled message is still registered, evictions or not. */
  lemma EmitterIsRegistered(states: seq<State>, steps: seq<Step>, t: nat, k: nat)
    requires IsRun(states, steps) && t < |states| && k < |Pending(states[t])|
    ensures var s, m := states[t], Pending(states[t])[k];
            var i := FindPort(s.nodes, m.addr.port);
            HomeAt(s.nodes, m, i)
  {
    hide NodeOk, MsgsOk, InOk, OutOk, Balanced, Announced;
    RunKeepsInv(states, steps, t);
    assert Homed(states[t].nodes, Pending(states[t])[k]);
    var i := PortLeadsHome(states[t].nodes, Pending(states[t])[k]);
  }

  /** Handling a TIMEOUT notice leaves, at the end of a running send queue, exactly one NOTIFY per
      registered node, in registry order, the emitter's own included; only older packets can be evicted. */
  lemma TimeoutReachesAll(states: seq<State>, steps: seq<Step>, t: nat)
    requires IsRun(states, steps) && t < |steps| && steps[t] == HandleNote
    requires states[t].noteHand.value.messageType == 1 && states[t].noteHand.value.state == TIMEOUT
    ensures var s, m, out := states[t], states[t].noteHand.value, states[t + 1].outbox.items;
            var evicted := Overflow(|s.outbox.items|, |s.nodes|);
            && states[t + 1].nodes == s.nodes
            && HomeAt(s.nodes, m, FindPort(s.nodes, m.addr.port))
            && (!s.outbox.running ==> out == s.outbox.items)
            && (s.outbox.running ==>
                  && evicted <= |s.outbox.items|
                  && |out| == |s.outbox.items| - evicted + |s.nodes|
                  && out[..|s.outbox.items| - evicted] == s.outbox.items[evicted..]
                  && (forall i :: 0 <= i < |s.nodes| ==>
                        out[|s.outbox.items| - evicted + i]
                          == NotifyPacket(3, 40, m.text, s.nodes[i].addr,
                                          m.typeNode, m.addr.port, TIMEOUT)))
  {
    hide *;
    RunStep(states, steps, t);
    TimeoutDoes(states[t]);
  }

  lemma RunLength(states: seq<State>, steps: seq<Step>)
    requires IsRun(states, steps)
    ensures |states| == |steps| + 1
  {
    hide Enabled, Apply;
  }

  lemma RunStep(states: seq<State>, steps: seq<Step>, t: nat)
    requires IsRun(states, steps) && t < |steps|
    ensures |states| == |steps| + 1 && Inv(states[t])
    ensures Enabled(states[t], steps[t]) && states[t + 1] == Apply(states[t], steps[t])
  {
    hide Inv, Enabled, Apply;
    RunKeepsInv(states, steps, t);
  }

  /** The first unhandled message is in hand, and its port leads to its emitter. */
  lemma HandIsHome(s: State)
    requires Inv(s) && s.noteHand.Some?
    ensures HomeAt(s.nodes, s.noteHand.value, FindPort(s.nodes, s.noteHand.value.addr.port))
    ensures UniquePorts(s.nodes) && s.outbox.Valid()
  {
    hide EntryOk, MsgsOk, InOk, Balanced, Increasing, DeadLast, UniquePorts, HomeAt, FindPort;
    assert Pending(s)[0] == s.noteHand.value;
    assert Homed(s.nodes, s.noteHand.value);
    var i := PortLeadsHome(s.nodes, s.noteHand.value);
  }

  /** A TIMEOUT notice becomes one NOTIFY per entry, behind what is left of the send queue. */
  lemma TimeoutDoes(s: State)
    requires Inv(s) && Enabled(s, HandleNote)
    requires s.noteHand.value.messageType == 1 && s.noteHand.value.state == TIMEOUT
    ensures var m, s' := s.noteHand.value, Apply(s, HandleNote);
            var out, evicted := s'.outbox.items, Overflow(|s.outbox.items|, |s.nodes|);
            && s' == s.(noteHand := None, outbox := Queue(out, s.outbox.running))
            && HomeAt(s.nodes, m, FindPort(s.nodes, m.addr.port))
            && (!s.outbox.running ==> out == s.outbox.items)
            && (s.outbox.running ==>
                  && evicted <= |s.outbox.items|
                  && |out| == |s.outbox.items| - evicted + |s.nodes|
                  && out[..|s.outbox.items| - evicted] == s.outbox.items[evicted..]
                  && (forall i :: 0 <= i < |s.nodes| ==>
                        out[|s.outbox.items| - evicted + i]
                          == NotifyPacket(3, 40, m.text, s.nodes[i].addr,
                                          m.typeNode, m.addr.port, TIMEOUT)))
  {
    hide Inv, HomeAt, FindPort, UniquePorts, PushAll;
    HandIsHome(s);
    RegistryFits(s.nodes);
    PushAllArrives(s.outbox, Broadcast(s.nodes, s.noteHand.value));
  }

  /** Handling a ping message puts exactly one PING, for the node that pushed it, behind a running send
      queue; only the oldest packet of a full queue can be evicted. */
  lemma PingGoesToItsNode(states: seq<State>, steps: seq<Step>, t: nat)
    requires IsRun(states, steps) && t < |steps| && steps[t] == HandleNote
    requires states[t].noteHand.value.messageType == 0
    ensures var s, m, out := states[t], states[t].noteHand.value, states[t + 1].outbox.items;
            var i := FindPort(s.nodes, m.addr.port);
            && states[t + 1].nodes == s.nodes
            && i < |s.nodes| && s.nodes[i].id == m.emitter && s.nodes[i].addr == m.addr
            && (s.outbox.running ==>
                  && out == s.outbox.items[Overflow(|s.outbox.items|, 1)..]
                            + [PingPacket(1, 20, [80, 105, 110, 103], s.nodes[i].addr)]
                  && (|s.outbox.items| < 100000 ==> |out| == |s.outbox.items| + 1)
                  && (|s.outbox.items| == 100000 ==> |out| == |s.outbox.items|))
            && (!s.outbox.running ==> out == s.outbox.items)
  {
    hide *;
    RunStep(states, steps, t);
    PingDoes(states[t]);
    RoomIsOverflow(states[t].outbox.items);
    OutboxFits(states[t]);
  }

  lemma RoomIsOverflow<T>(items: seq<T>)
    ensures |items| <= 100000 ==> Overflow(|items|, 1) <= |items| && Room(items) == items[Overflow(|items|, 1)..]
    ensures |items| < 100000 ==> |Room(items)| == |items|
    ensures |items| == 100000 ==> |Room(items)| == |items| - 1
  {}

  lemma OutboxFits(s: State)
    requires Inv(s)
    ensures |s.outbox.items| <= 100000
  {
    hide NodesOk, MailOk, MsgsOk, InOk, SendOk, ClientSees;
  }

  /** A ping message becomes exactly one PING for the node that pushed it. */
  lemma PingDoes(s: State)
    requires Inv(s) && Enabled(s, HandleNote) && s.noteHand.value.messageType == 0
    ensures var m, i := s.noteHand.value, FindPort(s.nodes, s.noteHand.value.addr.port);
            && i < |s.nodes| && s.nodes[i].id == m.emitter && s.nodes[i].addr == m.addr
            && Apply(s, HandleNote) == s.(noteHand := None, outbox := Queue(
                 if s.outbox.running
                 then Room(s.outbox.items) + [PingPacket(1, 20, [80, 105, 110, 103], s.nodes[i].addr)]
                 else s.outbox.items, s.outbox.running))
  {
    hide NodesOk, MailOk, InOk, PushAll, FindPort, KnownType, OutOk;
    HandIsHome(s);
    assert Pending(s)[0] == s.noteHand.value;
    assert MsgOk(s.noteHand.value, s.seen);
    PushOne(s.outbox, PingFor(s.noteHand.value));
  }

  // ------------------------------------------------------------ from the client's datagram to the registry

  /** What an idle, running monitor does with one datagram. */
  function Absorb(s: State, buf: Buffer, addr: Addr): State
    requires Parse(buf, addr).Some?
  {
    Handled(Deliver(s, buf, addr).(inbox := s.inbox, inHand := Parse(buf, addr)), Parse(buf, addr).value)
  }

  /** It is what the three steps do, when the receiving queue is empty and NoM is not asleep on a lock. */
  lemma AbsorbIsThreeSteps(s: State, buf: Buffer, addr: Addr)
    requires s.ioRunning && s.nomRunning && s.inbox == Queue([], true) && s.inHand == None
    requires Parse(buf, addr).Some?
    requires forall i :: 0 <= i < |s.nodes| ==> !Locked(s.nodes[i])
    ensures Enabled(s, Receive(buf, addr))
    ensures Enabled(Apply(s, Receive(buf, addr)), TakePacket)
    ensures Enabled(Apply(Apply(s, Receive(buf, addr)), TakePacket), HandlePacket)
    ensures Apply(Apply(Apply(s, Receive(buf, addr)), TakePacket), HandlePacket) == Absorb(s, buf, addr)
  {
    hide Parse, FindPort, MarkPong, Admits, Admit, Locked;
  }

  /** A client's PONG sets the flag of the node at its port and changes nothing else. */
  lemma PongArrives(s: State, message: Bytes, addr: Addr)
    requires Inv(s) && |message| <= 253
    ensures var buf := Received(BuildPong(message).value);
            var m := MapOf(s.nodes);
            && Parse(buf, addr).Some?
            && UniquePorts(Absorb(s, buf, addr).nodes)
            && MapOf(Absorb(s, buf, addr).nodes) ==
                 (if addr.port in m then m[addr.port := Heard(m[addr.port])] else m)
  {
    hide MailOk, MsgsOk, InOk, OutOk, Parse, MapOf, FindPort, BuildPong, Received, EntryOk;
    PongRoundTrip(message, addr);
    PongRefines(s.nodes, addr.port);
  }

  /** A client's REGISTER adds a new node of its type at its port, unless the port is taken or the
      type unknown. */
  lemma RegisterArrives(s: State, nodeType: byte, message: Bytes, addr: Addr)
    requires Inv(s) && |message| <= 252
    ensures var buf := Received(BuildRegister(nodeType, message).value);
            var m := MapOf(s.nodes);
            && Parse(buf, addr).Some?
            && UniquePorts(Absorb(s, buf, addr).nodes)
            && MapOf(Absorb(s, buf, addr).nodes) ==
                 (if addr.port in m || !(1 <= nodeType <= 3) then m
                  else m[addr.port := NodeVal(s.counter + 1, addr, nodeType, INIT, 0, false, true, Top, 0, 0, [], [])])
  {
    hide MailOk, MsgsOk, InOk, OutOk, Parse, MapOf, FindPort, BuildRegister, Received, EntryOk, CStr;
    RegisterRoundTrip(nodeType, message, addr);
    RegisterRefines(s.nodes, s.counter, RegisterPacket(REGISTER, 3 + |message|, CStr(message), addr, nodeType));
  }

  // ------------------------------------------------------------ conservation of deaths

  /** Message `k` is node `id`'s DEAD notice. */
  predicate NoticeAt(msgs: seq<Msg>, id: nat, k: nat) {
    k < |msgs| && IsDead(msgs[k]) && msgs[k].emitter == id
  }

  /** In every state an entry is past its DEAD push iff its notice is still to be handled or was
      lost, never both; and at most one of its notices is to be handled. */
  lemma DeathsBalance(states: seq<State>, steps: seq<Step>, t: nat, i: nat)
    requires IsRun(states, steps) && t < |states| && i < |states[t].nodes|
    ensures var s, msgs, id := states[t], Pending(states[t]), states[t].nodes[i].id;
            && (Announced(s.nodes[i]) <==> (id in s.lost || exists k :: NoticeAt(msgs, id, k)))
            && (id in s.lost ==> forall k :: !NoticeAt(msgs, id, k))
            && (forall j, k :: NoticeAt(msgs, id, j) && NoticeAt(msgs, id, k) ==> j == k)
  {
    hide NodesOk, MsgsOk, InOk, OutOk, SwitchesOk, Pending;
    RunKeepsInv(states, steps, t);
    BalanceAt(states[t].nodes, Pending(states[t]), states[t].lost, i);
  }

  lemma BalanceAt(nodes: Nodes, msgs: seq<Msg>, lost: set<nat>, i: nat)
    requires MailOk(nodes, msgs, lost) && i < |nodes|
    ensures Announced(nodes[i]) <==> (nodes[i].id in lost || exists k :: NoticeAt(msgs, nodes[i].id, k))
    ensures nodes[i].id in lost ==> forall k :: !NoticeAt(msgs, nodes[i].id, k)
  {
    var id := nodes[i].id;
    if Announced(nodes[i]) {
      assert nodes[i] in nodes;
    } else {
      NotAnnounced(nodes, i);
    }
    assert id in DeadEmitters(msgs) <==> exists k :: NoticeAt(msgs, id, k) by {
      if id in DeadEmitters(msgs) {
        var m :| m in msgs && IsDead(m) && m.emitter == id;
        var k :| 0 <= k < |msgs| && msgs[k] == m;
        assert NoticeAt(msgs, id, k);
      }
      forall k: nat | NoticeAt(msgs, id, k)
        ensures id in DeadEmitters(msgs)
      {
        assert msgs[k] in msgs;
      }
    }
    hide Announced, AllHomed, DeadEmitters;
  }

  // ------------------------------------------------------------ draining

  /** handleSendData left alone until the message queue is empty. */
  function Drain(s: State): State
    requires s.nomRunning
    decreases |Pending(s)|, if s.noteHand.Some? then 0 else 1
  {
    if s.noteHand.Some? then Drain(Apply(s, HandleNote))
    else if s.notes.CanPop() then Drain(Apply(s, TakeNote))
    else s
  }

  /** The entries whose id is not in `gone`, in order. */
  function Keep(nodes: Nodes, gone: set<nat>): Nodes {
    if nodes == [] then []
    else (if nodes[0].id in gone then [] else [nodes[0]]) + Keep(nodes[1..], gone)
  }

  lemma {:induction false} KeepAll(nodes: Nodes, gone: set<nat>)
    requires forall i :: 0 <= i < |nodes| ==> nodes[i].id !in gone
    ensures Keep(nodes, gone) == nodes
  {
    if nodes != [] {
      KeepAll(nodes[1..], gone);
    }
  }

  lemma {:induction false} KeepWithout(nodes: Nodes, i: nat, gone: set<nat>)
    requires i < |nodes| && Increasing(nodes)
    ensures Keep(Without(nodes, i), gone) == Keep(nodes, gone + {nodes[i].id})
    decreases |nodes|
  {
    var rest := nodes[1..];
    if i == 0 {
      assert Without(nodes, 0) == rest;
      KeepSame(rest, gone, gone + {nodes[0].id});
    } else {
      assert Without(nodes, i) == [nodes[0]] + Without(rest, i - 1);
      KeepWithout(rest, i - 1, gone);
    }
  }

  lemma {:induction false} KeepSame(nodes: Nodes, a: set<nat>, b: set<nat>)
    requires forall i :: 0 <= i < |nodes| ==> (nodes[i].id in a <==> nodes[i].id in b)
    ensures Keep(nodes, a) == Keep(nodes, b)
  {
    if nodes != [] {
      KeepSame(nodes[1..], a, b);
    }
  }

  lemma {:induction false} DrainKeeps(s: State)
    requires Inv(s) && s.nomRunning
    ensures var d := Drain(s);
            && Inv(d) && Pending(d) == [] && d.lost == s.lost
            && d.nodes == Keep(s.nodes, DeadEmitters(Pending(s)))
    decreases |Pending(s)|, if s.noteHand.Some? then 0 else 1
  {
    hide NodesOk, MailOk, MsgsOk, InOk, OutOk, DeadEmitters, Keep;
    if s.noteHand.Some? {
      KeepHandleNote(s);
      var s' := Apply(s, HandleNote);
      DrainKeeps(s');
      DrainOne(s);
    } else if s.notes.CanPop() {
      KeepTakeNote(s);
      DrainKeeps(Apply(s, TakeNote));
    } else {
      NoneGone(s.nodes);
    }
  }

  lemma NoneGone(nodes: Nodes)
    ensures Keep(nodes, DeadEmitters([])) == nodes
  {
    KeepAll(nodes, DeadEmitters([]));
  }

  lemma DrainOne(s: State)
    requires Inv(s) && s.nomRunning && s.noteHand.Some?
    ensures Keep(Apply(s, HandleNote).nodes, DeadEmitters(Pending(s)[1..]))
         == Keep(s.nodes, DeadEmitters(Pending(s)))
  {
    assert Pending(s)[0] == s.noteHand.value;
    assert Apply(s, HandleNote).nodes == Survivors(s.nodes, s.noteHand.value);
    hide Apply, Pending, MsgsOk, InOk, OutOk, MailOk, Keep, DeadEmitters, Survivors, PushAll, Replies, EntryOk;
    KeepOne(s.nodes, Pending(s), s.lost);
  }

  lemma KeepOne(nodes: Nodes, msgs: seq<Msg>, lost: set<nat>)
    requires UniquePorts(nodes) && MailOk(nodes, msgs, lost) && msgs != []
    ensures Keep(Survivors(nodes, msgs[0]), DeadEmitters(msgs[1..])) == Keep(nodes, DeadEmitters(msgs))
  {
    hide Keep, FindPort;
    var m := msgs[0];
    assert Without(msgs, 0) == msgs[1..];
    DeadEmittersDrop(msgs, 0);
    if IsDead(m) {
      assert Homed(nodes, m);
      var i := PortLeadsHome(nodes, m);
      assert Survivors(nodes, m) == Without(nodes, i);
      KeepWithout(nodes, i, DeadEmitters(msgs[1..]));
      assert m in msgs && m.emitter in DeadEmitters(msgs);
      assert DeadEmitters(msgs[1..]) + {m.emitter} == DeadEmitters(msgs);
    } else {
      assert DeadEmitters(msgs[1..]) == DeadEmitters(msgs);
    }
    hide MailOk, DeadEmitters;
  }

  /** Draining ends; it removes exactly the dead entries whose notice was not lost and keeps the rest
      in order. With no notice lost, no dead entry is left. */
  lemma DrainBuriesTheDead(states: seq<State>, steps: seq<Step>, t: nat)
    requires IsRun(states, steps) && t < |states| && states[t].nomRunning
    ensures var s, d := states[t], Drain(states[t]);
            && d.notes.items == [] && d.noteHand == None
            && d.nodes == Keep(s.nodes, AnnouncedIds(s.nodes) - s.lost)
            && AnnouncedIds(d.nodes) == s.lost
  {
    hide NodesOk, MsgsOk, InOk, OutOk, Keep, AllHomed, DeadLast, Increasing, AnnouncedIds, Drain;
    var s := states[t];
    RunKeepsInv(states, steps, t);
    DrainKeeps(s);
    var d := Drain(s);
    assert AnnouncedIds(s.nodes) - s.lost == DeadEmitters(Pending(s));
    assert DeadEmitters(Pending(d)) == {};
    assert Pending(d) == [];
  }

  // ------------------------------------------------------------ casts and datagrams

  /** In every state the downcasts on queued and popped packets are valid. */
  lemma CastsAreValid(states: seq<State>, steps: seq<Step>, t: nat)
    requires IsRun(states, steps) && t < |states|
    ensures forall k :: 0 <= k < |states[t].inbox.items| ==> ReceivedCastOk(states[t].inbox.items[k])
    ensures states[t].inHand.Some? ==> ReceivedCastOk(states[t].inHand.value)
    ensures forall k :: 0 <= k < |states[t].outbox.items| ==> SentCastOk(states[t].outbox.items[k])
  {
    hide NodesOk, MailOk, MsgsOk;
    RunKeepsInv(states, steps, t);
    forall k | 0 <= k < |states[t].outbox.items|
      ensures SentCastOk(states[t].outbox.items[k])
    {
      assert SendOk(states[t].outbox.items[k], states[t].seen);
    }
  }

  /** Every datagram ever handed to the socket goes to a port that registered, and the client parses
      it as a ping or as a TIMEOUT notification about a node at a host port that registered with the
      type it names. */
  lemma ClientsUnderstand(states: seq<State>, steps: seq<Step>, t: nat, k: nat)
    requires IsRun(states, steps) && t < |states| && k < |states[t].wire|
    ensures AddrSeen(states[t].wire[k].0, states[t].seen)
    ensures ClientSees(states[t].wire[k].1, states[t].seen)
  {
    hide NodesOk, MailOk, MsgsOk, ClientSees, AddrSeen;
    RunKeepsInv(states, steps, t);
  }

  /** What an empty receive yields changes neither the registry nor any flag in it. */
  lemma EmptyDatagramIsIgnored(s: State, addr: Addr)
    ensures var p := RegisterPacket(REGISTER, 0, [], addr, BASE);
            && Deliver(s, Zeros(BUFFER_SIZE), addr) == s.(inbox := s.inbox.Push(p, true))
            && Handled(s, p) == s.(inHand := None)
  {
    hide FindPort, Zeros;
    assert CStr([]) == [];
  }
}
