/** NodeManagament as the class of the source: its handlers scan and update the vector of nodes in
    place, and are proved against the registry functions (source/NodeManagament.cpp). */
module Manager {
  import opened Types
  import opened SafeQueue
  import opened Packets
  import opened Node
  import opened NodeThread
  import opened Registry
  import opened Protocol
  import opened ProtocolRuns
  import opened ProtocolWire

  ghost function Views(ns: seq<NodeBase>): (r: Nodes)
    reads ns
    ensures |r| == |ns| && forall i :: 0 <= i < |ns| ==> r[i] == ns[i].View()
  {
    if ns == [] then [] else [ns[0].View()] + Views(ns[1..])
  }

  /** The first position with the port is what the search returns. */
  lemma FirstIs(nodes: Nodes, port: word, i: nat)
    requires i <= |nodes| && (forall j :: 0 <= j < i ==> nodes[j].addr.port != port)
    requires i < |nodes| ==> nodes[i].addr.port == port
    ensures FindPort(nodes, port) == i
  {
    hide FindPort;
  }

  /** What handleSendData works on: the registry, the send queue and the message queue. */
  datatype Desk = Desk(nodes: Nodes, out: Queue<Packet>, notes: Queue<Msg>)

  /** One wait and what follows it: messages arrive; if there is one, the oldest is handled. */
  function Round(d: Desk, arrivals: seq<Msg>): Desk {
    var q := PushAll(d.notes, arrivals);
    if !q.CanPop() then d.(notes := q)
    else Desk(Survivors(d.nodes, q.items[0]), PushAll(d.out, Replies(d.nodes, q.items[0])), q.Rest())
  }

  function Serve(d: Desk, script: seq<seq<Msg>>): Desk
    decreases |script|
  {
    if script == [] then d else Serve(Round(d, script[0]), script[1..])
  }

  /** What handleReceivedData works on: the registry, its counter and the receiving queue. */
  datatype Hall = Hall(nodes: Nodes, counter: nat, inbox: Queue<Packet>)

  /** One wait and what follows it: packets arrive; if there is one, the oldest is handled. */
  function PacketRound(h: Hall, arrivals: seq<Packet>): Hall {
    var q := PushAll(h.inbox, arrivals);
    if !q.CanPop() then h.(inbox := q)
    else
      var p := q.items[0];
      if p.msgType == 2 then h.(nodes := MarkPong(h.nodes, p.addr.port), inbox := q.Rest())
      else if p.RegisterPacket? && p.msgType == 0 && Admits(h.nodes, p) then
        Hall(Admit(h.nodes, h.counter, p), h.counter + 1, q.Rest())
      else h.(inbox := q.Rest())
  }

  function Admission(h: Hall, script: seq<seq<Packet>>): Hall
    decreases |script|
  {
    if script == [] then h else Admission(PacketRound(h, script[0]), script[1..])
  }

  ghost predicate CastsOk(ps: seq<Packet>) {
    forall p :: p in ps ==> ReceivedCastOk(p)
  }

  lemma PushAllCasts(q: Queue<Packet>, ps: seq<Packet>)
    requires CastsOk(q.items) && CastsOk(ps)
    ensures CastsOk(PushAll(q, ps).items)
  {
    hide ReceivedCastOk, PushAll;
    forall p | p in PushAll(q, ps).items
      ensures ReceivedCastOk(p)
    {
      PushAllFrom(q, ps, p);
    }
  }

  /** Other threads push while NoM waits. */
  method Arrive<T>(queue: ThreadSafeQueue<T>, arrivals: seq<T>)
    modifies queue
    ensures queue.View() == PushAll(old(queue.View()), arrivals)
  {
    hide PushAll;
    PushNone(queue.View(), arrivals);
    for i := 0 to |arrivals|
      invariant queue.View() == PushAll(old(queue.View()), arrivals[..i])
    {
      PushAllLast(old(queue.View()), arrivals[..i], arrivals[i]);
      assert arrivals[..i] + [arrivals[i]] == arrivals[..i + 1];
      queue.Push(arrivals[i], true);
    }
    assert arrivals[..|arrivals|] == arrivals;
  }

  /** stop() finds a thread waiting on `queue`: `last` still arrives before the queue is stopped. If
      `late`, the thread wakes up before that, pops an element and leaves with it. */
  method StopWhileWaiting<T>(queue: ThreadSafeQueue<T>, last: seq<T>, late: bool)
    requires queue.running
    modifies queue
    ensures var q := PushAll(old(queue.View()), last);
            queue.View() == Queue(if late then q.Rest().items else q.items, false)
  {
    hide PushAll;
    PushAllKeepsRunning(queue.View(), last);
    Arrive(queue, last);
    if late && queue.items != [] {
      var code, m := queue.WaitAndPop(queue.items[0]);
    }
    queue.Stop();
  }

  class NodeManagement {
    var nodes: seq<NodeBase>   // m_vecNodeBase
    var counter: nat           // NodeBase::m_nodeID
    var running: bool
    const received: ThreadSafeQueue<Packet>
    const messages: ThreadSafeQueue<Msg>
    const outgoing: ThreadSafeQueue<Packet>

    ghost predicate Valid()
      reads this
    {
      forall i, j :: 0 <= i < j < |nodes| ==> nodes[i] != nodes[j]
    }

    constructor (received: ThreadSafeQueue<Packet>, messages: ThreadSafeQueue<Msg>, outgoing: ThreadSafeQueue<Packet>)
      ensures Valid() && nodes == [] && counter == 0 && !running
      ensures this.received == received && this.messages == messages && this.outgoing == outgoing
    {
      this.received, this.messages, this.outgoing := received, messages, outgoing;
      nodes, counter, running := [], 0, false;
    }

    method Start() returns (ok: bool)
      modifies this`running, received, messages
      ensures ok == !old(running) && running
      ensures ok ==> (received.View() == Queue(old(received.items), true)
                      && messages.View() == Queue(old(messages.items), true))
      ensures !ok ==> received.View() == old(received.View()) && messages.View() == old(messages.View())
    {
      if !running {
        running := true;
        received.Start();
        messages.Start();
        return true;
      }
      return false;
    }

    /** Up to the joins: the threads leave their loops when they next look at `running`. */
    method Stop() returns (ok: bool)
      modifies this`running, received, messages
      ensures ok == old(running) && !running
      ensures ok ==> (received.View() == Queue(old(received.items), false)
                      && messages.View() == Queue(old(messages.items), false))
      ensures !ok ==> received.View() == old(received.View()) && messages.View() == old(messages.View())
    {
      if running {
        running := false;
        received.Stop();
        messages.Stop();
        return true;
      }
      return false;
    }

    method CheckPongMessage(p: Packet)
      requires Valid()
      modifies nodes
      ensures Views(nodes) == MarkPong(old(Views(nodes)), p.addr.port)
    {
      hide FindPort, Views;
      var i := 0;
      while i < |nodes|
        invariant 0 <= i <= |nodes|
        invariant forall j :: 0 <= j < i ==> nodes[j].clientAddr.port != p.addr.port
        invariant forall j :: 0 <= j < |nodes| ==> nodes[j].View() == old(nodes[j].View())
      {
        if nodes[i].clientAddr.port == p.addr.port {
          FirstIs(Views(nodes), p.addr.port, i);
          nodes[i].SetPongState(true);
          return;
        }
        i := i + 1;
      }
      FirstIs(Views(nodes), p.addr.port, i);
    }

    method CheckRegisterMessage(p: Packet)
      requires Valid() && p.RegisterPacket?
      modifies this`nodes, this`counter
      ensures Valid()
      ensures forall i :: 0 <= i < |nodes| ==> nodes[i] in old(nodes) || fresh(nodes[i])
      ensures Views(nodes) == Admit(old(Views(nodes)), old(counter), p)
      ensures counter == old(counter) + if Admits(old(Views(nodes)), p) then 1 else 0
    {
      hide FindPort;
      var i := 0;
      while i < |nodes|
        invariant 0 <= i <= |nodes|
        invariant forall j :: 0 <= j < i ==> nodes[j].clientAddr.port != p.addr.port
      {
        if nodes[i].clientAddr.port == p.addr.port {
          break;
        }
        i := i + 1;
      }
      FirstIs(Views(nodes), p.addr.port, i);
      if i == |nodes| {
        PushNodeToVector(p);
      }
    }

    method PushNodeToVector(p: Packet)
      requires Valid() && p.RegisterPacket?
      modifies this`nodes, this`counter
      ensures Valid()
      ensures forall i :: 0 <= i < |nodes| ==> nodes[i] in old(nodes) || fresh(nodes[i])
      ensures if 1 <= p.typeNode <= 3 then
                && Views(nodes) == old(Views(nodes))
                     + [NodeVal(old(counter) + 1, p.addr, p.typeNode, INIT, 0, false, true, Top, 0, 0, [], [])]
                && counter == old(counter) + 1
              else nodes == old(nodes) && counter == old(counter)
    {
      hide Views;
      if p.typeNode == DATA_PLANE || p.typeNode == CONTROL_PLANE || p.typeNode == OAM {
        counter := counter + 1;
        var node := new NodeBase(counter, p.typeNode, p.addr);
        ghost var before := nodes;
        nodes := nodes + [node];
        nodes[|nodes| - 1].Start();
        assert forall j :: 0 <= j < |before| ==> nodes[j].View() == old(before[j].View());
      }
    }

    method CheckPingMessage(m: Msg)
      modifies outgoing
      ensures outgoing.View() == old(outgoing.View()).Push(PingFor(m), true)
    {
      outgoing.Push(PingPacket(PING, PING_LENGTH, m.text, m.addr), true);
    }

    /** checkNotifyMessage, state TIMEOUT: a NOTIFY to every node. */
    method NotifyAll(m: Msg)
      modifies outgoing
      ensures outgoing.View() == PushAll(old(outgoing.View()), Broadcast(Views(nodes), m))
    {
      hide PushAll, Views;
      ghost var all := Broadcast(Views(nodes), m);
      var i := 0;
      PushNone(outgoing.View(), all);
      while i < |nodes|
        invariant 0 <= i <= |nodes|
        invariant outgoing.View() == PushAll(old(outgoing.View()), all[..i])
      {
        PushAllLast(old(outgoing.View()), all[..i], all[i]);
        assert all[..i] + [all[i]] == all[..i + 1];
        outgoing.Push(NotifyPacket(NOTIFY, NOTIFY_LENGTH, m.text, nodes[i].clientAddr,
                                   m.typeNode, m.addr.port, m.state), true);
        i := i + 1;
      }
      assert all[..i] == all;
    }

    /** checkNotifyMessage, state DEAD: erase the first node with the message's port. */
    method EraseDead(m: Msg)
      requires Valid()
      modifies this`nodes
      ensures Valid() && Views(nodes) == Erase(old(Views(nodes)), m.addr.port)
    {
      hide FindPort, Views;
      ghost var before := Views(nodes);
      var i := 0;
      while i < |nodes|
        invariant 0 <= i <= |nodes|
        invariant forall j :: 0 <= j < i ==> nodes[j].clientAddr.port != m.addr.port
      {
        if nodes[i].clientAddr.port == m.addr.port {
          FirstIs(before, m.addr.port, i);
          nodes := nodes[..i] + nodes[i + 1..];
          return;
        }
        i := i + 1;
      }
      FirstIs(before, m.addr.port, i);
    }

    method CheckNotifyMessage(m: Msg)
      requires Valid() && m.messageType == 1
      modifies this`nodes, outgoing
      ensures Valid()
      ensures Views(nodes) == Survivors(old(Views(nodes)), m)
      ensures outgoing.View() == PushAll(old(outgoing.View()), Replies(old(Views(nodes)), m))
    {
      hide FindPort, PushAll, Views, Broadcast, Erase;
      if m.state == TIMEOUT {
        NotifyAll(m);
      } else {
        PushNone(outgoing.View(), []);
        if m.state == DEAD {
          EraseDead(m);
        }
      }
    }

    /** One round of handleReceivedData. */
    method HandleReceived(p: Packet)
      requires Valid() && ReceivedCastOk(p)
      modifies this`nodes, this`counter, nodes
      ensures Valid()
      ensures forall i :: 0 <= i < |nodes| ==> nodes[i] in old(nodes) || fresh(nodes[i])
      ensures var before := old(Views(nodes));
              Views(nodes) ==
                if IsPong(p) then MarkPong(before, p.addr.port)
                else if p.msgType == REGISTER then Admit(before, old(counter), p)
                else before
      ensures counter == old(counter) +
                if !IsPong(p) && p.msgType == REGISTER && Admits(old(Views(nodes)), p) then 1 else 0
    {
      if p.msgType == PONG {
        CheckPongMessage(p);
      } else if p.msgType == REGISTER {
        CheckRegisterMessage(p);
      }
    }

    /** One pass of handleReceivedData's loop. */
    method ReceiveNext(arrivals: seq<Packet>)
      requires Valid() && received.running
      requires CastsOk(received.items) && CastsOk(arrivals)
      modifies this`nodes, this`counter, nodes, received
      ensures Valid() && received.running && CastsOk(received.items)
      ensures forall i :: 0 <= i < |nodes| ==> nodes[i] in old(nodes) || fresh(nodes[i])
      ensures Hall(Views(nodes), counter, received.View())
           == PacketRound(Hall(old(Views(nodes)), old(counter), old(received.View())), arrivals)
    {
      hide MarkPong, Admits, PushAll, Views;
      PushAllKeepsRunning(received.View(), arrivals);
      PushAllCasts(received.View(), arrivals);
      Arrive(received, arrivals);
      if received.items != [] {
        var code, p := received.WaitAndPop(received.items[0]);
        HandleReceived(p);
      }
    }

    /** handleReceivedData, from its start to its end. Each element of `script` is what arrives during
        one wait; when it is used up, stop() finds the thread waiting. */
    method HandleReceivedData(script: seq<seq<Packet>>, last: seq<Packet>, late: bool)
      requires Valid() && running && received.running
      requires CastsOk(received.items) && forall ps :: ps in script ==> CastsOk(ps)
      modifies this`nodes, this`counter, this`running, nodes, received
      ensures Valid() && !running
      ensures var h := Admission(Hall(old(Views(nodes)), old(counter), old(received.View())), script);
              var q := PushAll(h.inbox, last);
              && Views(nodes) == h.nodes && counter == h.counter
              && received.View() == Queue(if late then q.Rest().items else q.items, false)
    {
      hide PacketRound, Views, PushAll, CastsOk;
      var rest := script;
      while rest != []
        invariant Valid() && received.running && CastsOk(received.items)
        invariant forall ps :: ps in rest ==> CastsOk(ps)
        invariant forall i :: 0 <= i < |nodes| ==> nodes[i] in old(nodes) || fresh(nodes[i])
        invariant Admission(Hall(Views(nodes), counter, received.View()), rest)
               == Admission(Hall(old(Views(nodes)), old(counter), old(received.View())), script)
        decreases |rest|
      {
        ReceiveNext(rest[0]);
        rest := rest[1..];
      }
      running := false;
      StopWhileWaiting(received, last, late);
    }

    /** One round of handleSendData. */
    method HandleMessage(m: Msg)
      requires Valid()
      modifies this`nodes, outgoing
      ensures Valid()
      ensures Views(nodes) == Survivors(old(Views(nodes)), m)
      ensures outgoing.View() == PushAll(old(outgoing.View()), Replies(old(Views(nodes)), m))
    {
      hide PushAll, FindPort;
      if m.messageType == 0 {
        PushOne(outgoing.View(), PingFor(m));
        CheckPingMessage(m);
      } else if m.messageType == 1 {
        CheckNotifyMessage(m);
      } else {
        PushNone(outgoing.View(), []);
      }
    }

    /** One pass of handleSendData's loop. */
    method HandleNext(arrivals: seq<Msg>)
      requires Valid() && messages.running && messages as object != outgoing
      modifies this`nodes, messages, outgoing
      ensures Valid() && messages.running
      ensures Desk(Views(nodes), outgoing.View(), messages.View())
           == Round(Desk(old(Views(nodes)), old(outgoing.View()), old(messages.View())), arrivals)
    {
      hide Survivors, PushAll, Replies, Views;
      PushAllKeepsRunning(messages.View(), arrivals);
      Arrive(messages, arrivals);
      if messages.items != [] {
        var code, m := messages.WaitAndPop(messages.items[0]);
        HandleMessage(m);
      }
    }

    /** handleSendData, from its start to its end. Each element of `script` is what arrives during one
        wait; when it is used up, stop() clears `running`, `last` still arrives, and the message queue is
        stopped. If `late`, the thread wakes up before that: it pops a message and leaves without
        handling it. */
    method HandleSendData(script: seq<seq<Msg>>, last: seq<Msg>, late: bool)
      requires Valid() && running && messages.running
      requires messages as object != outgoing
      modifies this`nodes, this`running, messages, outgoing
      ensures Valid() && !running
      ensures var d := Serve(Desk(old(Views(nodes)), old(outgoing.View()), old(messages.View())), script);
              var q := PushAll(d.notes, last);
              && Views(nodes) == d.nodes && outgoing.View() == d.out
              && messages.View() == Queue(if late then q.Rest().items else q.items, false)
    {
      hide Round, Views, PushAll;
      var rest := script;
      while rest != []
        invariant Valid() && messages.running
        invariant Serve(Desk(Views(nodes), outgoing.View(), messages.View()), rest)
               == Serve(Desk(old(Views(nodes)), old(outgoing.View()), old(messages.View())), script)
        decreases |rest|
      {
        HandleNext(rest[0]);
        rest := rest[1..];
      }
      running := false;
      StopWhileWaiting(messages, last, late);
    }
  }

  /** For the packets the receiving queue can hold, a round is the step system's step. */
  lemma RoundIsTheStep(s: State, p: Packet)
    requires ReceivedOk(p)
    ensures ReceivedCastOk(p)
    ensures Handled(s, p).nodes ==
              if IsPong(p) then MarkPong(s.nodes, p.addr.port)
              else if p.msgType == REGISTER then Admit(s.nodes, s.counter, p)
              else s.nodes
    ensures Handled(s, p).counter == s.counter +
              if !IsPong(p) && p.msgType == REGISTER && Admits(s.nodes, p) then 1 else 0
  {
    hide FindPort, MarkPong;
  }

  lemma {:induction false} PushAllKeepsRunning<T>(q: Queue<T>, vs: seq<T>)
    ensures PushAll(q, vs).running == q.running
    decreases |vs|
  {
    if vs != [] {
      PushAllKeepsRunning(q.Push(vs[0], true), vs[1..]);
    }
  }

  function HallOf(s: State): Hall {
    Hall(s.nodes, s.counter, Queue((if s.inHand.Some? then [s.inHand.value] else []) + s.inbox.items, s.inbox.running))
  }

  /** However many packets wait, a pass of the receiving loop is the two steps that take the oldest and
      handle it; taking it while NoM stops is the two steps that take and drop it. */
  lemma PacketRoundIsTwoSteps(s: State)
    requires s.nomRunning && s.inHand == None && s.inbox.CanPop() && ReceivedOk(s.inbox.items[0])
    ensures Enabled(s, TakePacket) && Enabled(Apply(s, TakePacket), StopNom)
    ensures Enabled(Apply(s, TakePacket), HandlePacket) ==>
      HallOf(Apply(Apply(s, TakePacket), HandlePacket)) == PacketRound(HallOf(s), [])
    ensures HallOf(Apply(Apply(s, TakePacket), StopNom))
         == HallOf(s).(inbox := Queue(HallOf(s).inbox.Rest().items, false))
  {
    hide FindPort, MarkPong, PushAll;
    PushNone(HallOf(s).inbox, []);
  }

  function DeskOf(s: State): Desk {
    Desk(s.nodes, s.outbox, Queue(Pending(s), s.notes.running))
  }

  /** A round in which a message is handled is the two steps that pop and handle it; popping it while
      NoM stops is the two steps that pop and drop it. */
  lemma NoteRoundIsTwoSteps(s: State)
    requires s.nomRunning && s.noteHand == None && s.notes.CanPop()
    ensures Enabled(s, TakeNote) && Enabled(Apply(s, TakeNote), HandleNote) && Enabled(Apply(s, TakeNote), StopNom)
    ensures DeskOf(Apply(Apply(s, TakeNote), HandleNote)) == Round(DeskOf(s), [])
    ensures DeskOf(Apply(Apply(s, TakeNote), StopNom))
         == DeskOf(s).(notes := Queue(DeskOf(s).notes.Rest().items, false))
  {
    hide Survivors, PushAll, Replies;
    PushNone(DeskOf(s).notes, []);
  }

  /** So many waits in which nothing arrives. */
  function Quiet(n: nat): seq<seq<Msg>> {
    seq(n, _ => [])
  }

  /** Draining the step system is what the loop computes when nothing more arrives. */
  lemma {:induction false} DrainIsTheLoop(s: State, n: nat)
    requires s.nomRunning && s.notes.running && n >= |Pending(s)|
    ensures DeskOf(Drain(s)) == Serve(DeskOf(s), Quiet(n))
    decreases |Pending(s)|, if s.noteHand.Some? then 0 else 1
  {
    hide Survivors, PushAll, Replies, FindPort, Serve;
    if s.noteHand.Some? {
      var s' := Apply(s, HandleNote);
      assert Pending(s') == Pending(s)[1..];
      DrainIsTheLoop(s', n - 1);
      QuietRound(DeskOf(s), n);
    } else if s.notes.items != [] {
      var s' := Apply(s, TakeNote);
      assert Pending(s') == Pending(s);
      DrainIsTheLoop(s', n);
    } else {
      NothingToServe(DeskOf(s), n);
    }
  }

  lemma QuietRound(d: Desk, n: nat)
    requires n > 0
    ensures Serve(d, Quiet(n)) == Serve(Round(d, []), Quiet(n - 1))
    ensures Round(d, []) == if !d.notes.CanPop() then d
                            else Desk(Survivors(d.nodes, d.notes.items[0]),
                                      PushAll(d.out, Replies(d.nodes, d.notes.items[0])), d.notes.Rest())
  {
    hide Survivors, PushAll, Replies;
    assert Quiet(n)[1..] == Quiet(n - 1);
    PushNone(d.notes, []);
  }

  lemma {:induction false} NothingToServe(d: Desk, n: nat)
    requires d.notes.items == []
    ensures Serve(d, Quiet(n)) == d
  {
    if n > 0 {
      QuietRound(d, n);
      NothingToServe(d, n - 1);
    }
  }
}
