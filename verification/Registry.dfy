/** The registry of monitored nodes, m_vecNodeBase, as a sequence searched from the front by port
    (source/NodeManagament.cpp), and the finite map from port to node it stands for. */
module Registry {
  import opened Types
  import opened Packets
  import opened Node
  import opened SafeQueue

  type Nodes = seq<NodeVal>

  /** The first entry with this port, or the length of the registry. */
  function FindPort(nodes: Nodes, port: word): (i: nat)
    ensures i <= |nodes|
    ensures i < |nodes| ==> nodes[i].addr.port == port
    ensures forall j :: 0 <= j < i ==> nodes[j].addr.port != port
  {
    if nodes == [] then 0
    else if nodes[0].addr.port == port then 0
    else 1 + FindPort(nodes[1..], port)
  }

  predicate KnownType(typeNode: byte) {
    typeNode == DATA_PLANE || typeNode == CONTROL_PLANE || typeNode == OAM
  }

  /** checkPongMessage */
  function MarkPong(nodes: Nodes, port: word): Nodes {
    var i := FindPort(nodes, port);
    if i < |nodes| then nodes[i := Heard(nodes[i])] else nodes
  }

  /** checkRegisterMessage and pushNodeToVector create an entry for this packet. */
  predicate Admits(nodes: Nodes, p: Packet)
    requires p.RegisterPacket?
  {
    FindPort(nodes, p.addr.port) == |nodes| && KnownType(p.typeNode)
  }

  function Admit(nodes: Nodes, counter: nat, p: Packet): Nodes
    requires p.RegisterPacket?
  {
    if Admits(nodes, p) then nodes + [Newborn(counter + 1, p.addr, p.typeNode)] else nodes
  }

  /** The DEAD branch of checkNotifyMessage. */
  function Erase(nodes: Nodes, port: word): Nodes {
    var i := FindPort(nodes, port);
    if i < |nodes| then nodes[..i] + nodes[i + 1..] else nodes
  }

  function PingFor(m: Msg): Packet {
    PingPacket(PING, PING_LENGTH, m.text, m.addr)
  }

  function NotifyFor(n: NodeVal, m: Msg): Packet {
    NotifyPacket(NOTIFY, NOTIFY_LENGTH, m.text, n.addr, m.typeNode, m.addr.port, m.state)
  }

  /** The TIMEOUT branch of checkNotifyMessage: one NOTIFY per entry, in order. */
  function Broadcast(nodes: Nodes, m: Msg): (r: seq<Packet>)
    ensures |r| == |nodes| && forall i :: 0 <= i < |nodes| ==> r[i] == NotifyFor(nodes[i], m)
  {
    seq(|nodes|, i requires 0 <= i < |nodes| => NotifyFor(nodes[i], m))
  }

  /** What NoM queues for sending when it handles a node's message. */
  function Replies(nodes: Nodes, m: Msg): seq<Packet> {
    if m.messageType == 0 then [PingFor(m)]
    else if m.messageType == 1 && m.state == TIMEOUT then Broadcast(nodes, m)
    else []
  }

  /** What is left of the registry when NoM has handled a node's message. */
  function Survivors(nodes: Nodes, m: Msg): Nodes {
    if IsDead(m) then Erase(nodes, m.addr.port) else nodes
  }

  /** Forced pushes, in order. */
  function PushAll<T>(q: Queue<T>, vs: seq<T>): Queue<T>
    decreases |vs|
  {
    if vs == [] then q else PushAll(q.Push(vs[0], true), vs[1..])
  }

  lemma {:induction false} PushAllLast<T>(q: Queue<T>, vs: seq<T>, v: T)
    ensures PushAll(q, vs + [v]) == PushAll(q, vs).Push(v, true)
    decreases |vs|
  {
    if vs == [] {
      assert PushAll(q, [v]) == PushAll(q.Push(v, true), [v][1..]);
    } else {
      assert (vs + [v])[1..] == vs[1..] + [v];
      PushAllLast(q.Push(vs[0], true), vs[1..], v);
    }
  }

  lemma {:induction false} PushAllJoin<T>(q: Queue<T>, a: seq<T>, b: seq<T>)
    ensures PushAll(PushAll(q, a), b) == PushAll(q, a + b)
    decreases |a|
  {
    if a == [] {
      assert a + b == b;
    } else {
      assert (a + b)[1..] == a[1..] + b;
      PushAllJoin(q.Push(a[0], true), a[1..], b);
    }
  }

  lemma PushNone<T>(q: Queue<T>, vs: seq<T>)
    ensures PushAll(q, []) == q && vs[..0] == []
  {}

  lemma PushOne<T>(q: Queue<T>, v: T)
    ensures PushAll(q, [v]) == q.Push(v, true)
  {
    assert PushAll(q.Push(v, true), [v][1..]) == q.Push(v, true);
  }

  /** How many of the oldest elements a burst of `n` forced pushes evicts. */
  function Overflow(size: nat, n: nat): nat {
    if size + n <= MAX_SAFE_QUEUE then 0 else size + n - MAX_SAFE_QUEUE
  }

  /** On a running queue, a burst no longer than its capacity ends up entirely at its end. */
  lemma {:induction false} PushAllArrives<T>(q: Queue<T>, vs: seq<T>)
    requires q.Valid() && |vs| <= MAX_SAFE_QUEUE
    ensures PushAll(q, vs).running == q.running
    ensures PushAll(q, vs).items ==
              if q.running then q.items[Overflow(|q.items|, |vs|)..] + vs else q.items
    decreases |vs|
  {
    hide PushAll;
    if vs == [] {
      PushNone(q, []);
    } else {
      var most, v := vs[..|vs| - 1], vs[|vs| - 1];
      assert vs == most + [v];
      PushAllLast(q, most, v);
      PushAllArrives(q, most);
    }
  }

  // ------------------------------------------------------------ the map it stands for

  ghost predicate UniquePorts(nodes: Nodes) {
    forall i, j :: 0 <= i < j < |nodes| ==> nodes[i].addr.port != nodes[j].addr.port
  }

  lemma FindsIt(nodes: Nodes, i: nat)
    requires UniquePorts(nodes) && i < |nodes|
    ensures FindPort(nodes, nodes[i].addr.port) == i
  {}

  ghost function MapOf(nodes: Nodes): (m: map<word, NodeVal>)
    requires UniquePorts(nodes)
    ensures forall i :: 0 <= i < |nodes| ==> nodes[i].addr.port in m && m[nodes[i].addr.port] == nodes[i]
    ensures forall p :: p in m ==> FindPort(nodes, p) < |nodes| && m[p] == nodes[FindPort(nodes, p)]
  {
    var keys := set n | n in nodes :: n.addr.port;
    assert forall p :: p in keys ==> exists i :: 0 <= i < |nodes| && nodes[i].addr.port == p;
    map p | p in keys :: nodes[FindPort(nodes, p)]
  }

  /** A map that agrees with the registry on every entry and has no other key is the registry's. */
  lemma MapIs(nodes: Nodes, m: map<word, NodeVal>)
    requires UniquePorts(nodes)
    requires forall i :: 0 <= i < |nodes| ==> nodes[i].addr.port in m && m[nodes[i].addr.port] == nodes[i]
    requires forall p :: p in m ==> FindPort(nodes, p) < |nodes|
    ensures MapOf(nodes) == m
  {
    hide FindPort;
    forall p | p in m
      ensures p in MapOf(nodes) && MapOf(nodes)[p] == m[p]
    {
      assert nodes[FindPort(nodes, p)].addr.port == p;
    }
  }

  lemma Found(nodes: Nodes, i: nat)
    requires i < |nodes|
    ensures FindPort(nodes, nodes[i].addr.port) <= i
  {}

  lemma PongUnique(nodes: Nodes, port: word)
    requires UniquePorts(nodes)
    ensures UniquePorts(MarkPong(nodes, port))
  {
    hide FindPort;
    assert forall j :: 0 <= j < |nodes| ==> MarkPong(nodes, port)[j].addr == nodes[j].addr;
  }

  lemma RegisterUnique(nodes: Nodes, counter: nat, p: Packet)
    requires UniquePorts(nodes) && p.RegisterPacket?
    ensures UniquePorts(Admit(nodes, counter, p))
  {
    hide FindPort;
  }

  lemma EraseUnique(nodes: Nodes, port: word)
    requires UniquePorts(nodes)
    ensures UniquePorts(Erase(nodes, port))
  {
    hide FindPort;
    var i, nodes' := FindPort(nodes, port), Erase(nodes, port);
    assert i < |nodes| ==> forall j :: 0 <= j < |nodes'| ==> nodes'[j] == nodes[if j < i then j else j + 1];
  }

  /** PONG updates exactly the entry with the sender's port. */
  lemma PongRefines(nodes: Nodes, port: word)
    requires UniquePorts(nodes)
    ensures UniquePorts(MarkPong(nodes, port))
    ensures var m := MapOf(nodes);
            MapOf(MarkPong(nodes, port)) == if port in m then m[port := Heard(m[port])] else m
  {
    hide FindPort, MapOf, UniquePorts, MarkPong;
    PongUnique(nodes, port);
    OthersKept(nodes, port);
    var m, nodes' := MapOf(nodes), MarkPong(nodes, port);
    if FindPort(nodes, port) < |nodes| {
      forall p | p in m
        ensures FindPort(nodes', p) < |nodes'|
      {
        Found(nodes', FindPort(nodes, p));
      }
      MapIs(nodes', m[port := Heard(m[port])]);
    }
  }

  /** Marking changes one entry and no port. */
  lemma OthersKept(nodes: Nodes, port: word)
    requires UniquePorts(nodes)
    ensures var i, nodes' := FindPort(nodes, port), MarkPong(nodes, port);
            if i < |nodes| then
              && |nodes'| == |nodes| && nodes'[i] == Heard(nodes[i]) && nodes'[i].addr.port == port
              && (forall j {:trigger nodes'[j]} :: 0 <= j < |nodes| && j != i ==>
                    nodes'[j] == nodes[j] && nodes'[j].addr.port != port)
            else nodes' == nodes
  {
    hide FindPort;
  }

  /** REGISTER inserts if absent, for the three known types only; a new entry is running in INIT with its
      flag clear and nothing pushed. */
  lemma RegisterRefines(nodes: Nodes, counter: nat, p: Packet)
    requires UniquePorts(nodes) && p.RegisterPacket?
    ensures UniquePorts(Admit(nodes, counter, p))
    ensures var m := MapOf(nodes);
            MapOf(Admit(nodes, counter, p)) ==
              if p.addr.port in m || !(1 <= p.typeNode <= 3) then m
              else m[p.addr.port := NodeVal(counter + 1, p.addr, p.typeNode, INIT, 0, false, true, Top, 0, 0, [], [])]
  {
    hide FindPort, MapOf, UniquePorts;
    RegisterUnique(nodes, counter, p);
    var m, nodes' := MapOf(nodes), Admit(nodes, counter, p);
    if Admits(nodes, p) {
      var n := Newborn(counter + 1, p.addr, p.typeNode);
      Found(nodes', |nodes|);
      forall q | q in m
        ensures FindPort(nodes', q) < |nodes'|
      {
        assert nodes'[FindPort(nodes, q)] == nodes[FindPort(nodes, q)];
        Found(nodes', FindPort(nodes, q));
      }
      MapIs(nodes', m[p.addr.port := n]);
    } else if FindPort(nodes, p.addr.port) < |nodes| {
      assert p.addr.port in m;
    }
  }

  /** DEAD removes exactly the entry with that port, and keeps the others in order. */
  lemma EraseRefines(nodes: Nodes, port: word)
    requires UniquePorts(nodes)
    ensures UniquePorts(Erase(nodes, port))
    ensures MapOf(Erase(nodes, port)) == MapOf(nodes) - {port}
  {
    hide FindPort, MapOf, UniquePorts, Erase;
    EraseUnique(nodes, port);
    OthersStay(nodes, port);
    var m, i := MapOf(nodes), FindPort(nodes, port);
    if i < |nodes| {
      forall q | q in m && q != port
        ensures FindPort(Erase(nodes, port), q) < |Erase(nodes, port)|
      {
        OtherFound(nodes, port, FindPort(nodes, q));
      }
      MapIs(Erase(nodes, port), m - {port});
    } else {
      assert port !in m;
      assert m - {port} == m;
    }
  }

  lemma OtherFound(nodes: Nodes, port: word, k: nat)
    requires k < |nodes| && nodes[k].addr.port != port
    ensures FindPort(Erase(nodes, port), nodes[k].addr.port) < |Erase(nodes, port)|
  {
    hide FindPort;
    var i := FindPort(nodes, port);
    if i < |nodes| {
      var l := if k < i then k else k - 1;
      assert Erase(nodes, port)[l] == nodes[k];
      Found(Erase(nodes, port), l);
    } else {
      Found(nodes, k);
    }
  }

  /** Erasing moves the later entries down by one. */
  lemma OthersStay(nodes: Nodes, port: word)
    requires UniquePorts(nodes)
    ensures var i, nodes' := FindPort(nodes, port), Erase(nodes, port);
            if i < |nodes| then
              && |nodes'| == |nodes| - 1
              && (forall j {:trigger nodes'[j]} :: 0 <= j < |nodes'| ==>
                    nodes'[j] == nodes[if j < i then j else j + 1] && nodes'[j].addr.port != port)
            else nodes' == nodes
  {
    hide FindPort;
  }
}
