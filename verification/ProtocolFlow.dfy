/** What a whole run does with everything that enters its queues: each of the three queues is the bounded
    FIFO of `Flow`, fed and drained by the steps of the run and by nothing else. */
module ProtocolFlow {
  import opened Types
  import opened Packets
  import opened Client
  import opened Node
  import opened Registry
  import opened Mailbox
  import opened Flow
  import opened Protocol
  import opened ProtocolRuns
  import opened ProtocolSteps
  import opened ProtocolTrace
  import opened ProtocolWire

  function Hand<T>(o: Option<T>): seq<T> {
    if o.Some? then [o.value] else []
  }

  // ------------------------------------------------------------ packets received

  function InEvents(step: Step): seq<Event<Packet>> {
    match step
    case Receive(buf, addr) => if Parse(buf, addr).Some? then [Offer(Parse(buf, addr).value)] else []
    case TakePacket => [Take]
    case HandlePacket => [Finish]
    case StartNom => [Switch(true)]
    case StopNom => [Switch(false), Drop]
    case _ => []
  }

  /** Everything received, and what became of it. */
  function InFlow(steps: seq<Step>, t: nat): Track<Packet>
    requires t <= |steps|
  {
    if t == 0 then Untouched() else Play(InFlow(steps, t - 1), InEvents(steps[t - 1]))
  }

  lemma InStep(s: State, step: Step, k: Track<Packet>)
    requires Enabled(s, step) && k.queue == s.inbox && k.hand == Hand(s.inHand)
    ensures var k' := Play(k, InEvents(step));
            k'.queue == Apply(s, step).inbox && k'.hand == Hand(Apply(s, step).inHand)
  {
    hide Parse, FindPort, Sends, Next, LostBy, Replies, Survivors, SentCastOk, WireOf, Admit, MarkPong, Dead;
    PlayShort(k, InEvents(step));
    match step
    case StopNom => PlayTwo(k, Switch(false), Drop);
    case _ =>
  }

  /** The receiving queue and the packet in hand are what the flow says; so every packet received was
      handled, is in hand or waits, or was refused, evicted or dropped, and packets are handled in the
      order in which they came. */
  lemma {:induction false} PacketsInOrder(states: seq<State>, steps: seq<Step>, t: nat)
    requires IsRun(states, steps) && t < |states|
    ensures t <= |steps| && TrackOk(InFlow(steps, t))
    ensures InFlow(steps, t).queue == states[t].inbox && InFlow(steps, t).hand == Hand(states[t].inHand)
    decreases t
  {
    hide IsRun, TrackOk, Apply, Enabled, Play, InEvents, Untouched;
    RunLength(states, steps);
    if t == 0 {
      EmptyAtFirst(states, steps);
      UntouchedOk<Packet>();
    } else {
      RunStep(states, steps, t - 1);
      PacketsInOrder(states, steps, t - 1);
      InStep(states[t - 1], steps[t - 1], InFlow(steps, t - 1));
      PlayKeeps(InFlow(steps, t - 1), InEvents(steps[t - 1]));
    }
  }

  lemma EmptyAtFirst(states: seq<State>, steps: seq<Step>)
    requires IsRun(states, steps)
    ensures states[0].inbox == Untouched<Packet>().queue && states[0].outbox == Untouched<Packet>().queue
    ensures states[0].notes == Untouched<Msg>().queue && states[0].wire == []
    ensures Hand(states[0].inHand) == Untouched<Packet>().hand && Hand(states[0].noteHand) == Untouched<Msg>().hand
    ensures Untouched<Packet>().handled == [] && Untouched<Packet>().hand == []
  {
    hide Apply, Enabled;
  }

  // ------------------------------------------------------------ messages of nodes

  /** A node that logs a note offers the message behind it. */
  function NoteEvents(s: State, step: Step): seq<Event<Msg>> {
    match step
    case NodeStep(i, delay, stamp) =>
      if i >= |s.nodes| then []
      else
        var n, log := s.nodes[i], Next(s.nodes[i], delay).log;
        if |log| <= |n.log| then [] else [Offer(MessageOf(log[|n.log|], n, s.counter, stamp))]
    case TakeNote => [Take]
    case HandleNote => [Finish]
    case StartNom => [Switch(true)]
    case StopNom => [Switch(false), Drop]
    case _ => []
  }

  /** Everything nodes have pushed, and what became of it. */
  function NoteFlow(states: seq<State>, steps: seq<Step>, t: nat): Track<Msg>
    requires t <= |steps| && t <= |states|
  {
    if t == 0 then Untouched() else Play(NoteFlow(states, steps, t - 1), NoteEvents(states[t - 1], steps[t - 1]))
  }

  lemma NoteStep(s: State, step: Step, k: Track<Msg>)
    requires Enabled(s, step) && k.queue == s.notes && k.hand == Hand(s.noteHand)
    ensures var k' := Play(k, NoteEvents(s, step));
            k'.queue == Apply(s, step).notes && k'.hand == Hand(Apply(s, step).noteHand)
  {
    hide Parse, FindPort, Sends, Next, LostBy, Replies, Survivors, SentCastOk, WireOf, Admit, MarkPong, Dead, MessageOf;
    PlayShort(k, NoteEvents(s, step));
    match step
    case StopNom => PlayTwo(k, Switch(false), Drop);
    case NodeStep(i, delay, stamp) => PushStep(s, i, delay, stamp, k);
    case _ =>
  }

  lemma PushStep(s: State, i: nat, delay: nat, stamp: Bytes, k: Track<Msg>)
    requires Enabled(s, NodeStep(i, delay, stamp)) && k.queue == s.notes && k.hand == Hand(s.noteHand)
    ensures var s', k' := Apply(s, NodeStep(i, delay, stamp)), Play(k, NoteEvents(s, NodeStep(i, delay, stamp)));
            k'.queue == s'.notes && k'.hand == Hand(s'.noteHand)
  {
    hide Next, Sends, LostBy, FindPort, MessageOf;
    NodeStepDoes(s, i, delay, stamp);
    assert Apply(s, NodeStep(i, delay, stamp)).nodes[i] == Next(s.nodes[i], delay);
    if NoteEvents(s, NodeStep(i, delay, stamp)) != [] {
      PlayOne(k, NoteEvents(s, NodeStep(i, delay, stamp))[0]);
    }
  }

  /** The same for the message queue: nothing a node pushes can vanish in any other way than by the queue
      refusing, evicting or dropping it, and messages are handled in the order of the pushes. */
  lemma {:induction false} MessagesInOrder(states: seq<State>, steps: seq<Step>, t: nat)
    requires IsRun(states, steps) && t < |states|
    ensures t <= |steps| && TrackOk(NoteFlow(states, steps, t))
    ensures NoteFlow(states, steps, t).queue == states[t].notes
    ensures NoteFlow(states, steps, t).hand == Hand(states[t].noteHand)
    decreases t
  {
    hide IsRun, TrackOk, Apply, Enabled, Play, NoteEvents, Untouched;
    RunLength(states, steps);
    if t == 0 {
      EmptyAtFirst(states, steps);
      UntouchedOk<Msg>();
    } else {
      RunStep(states, steps, t - 1);
      MessagesInOrder(states, steps, t - 1);
      NoteStep(states[t - 1], steps[t - 1], NoteFlow(states, steps, t - 1));
      PlayKeeps(NoteFlow(states, steps, t - 1), NoteEvents(states[t - 1], steps[t - 1]));
    }
  }

  // ------------------------------------------------------------ packets sent

  function OutEvents(s: State, step: Step): seq<Event<Packet>> {
    match step
    case HandleNote => if s.noteHand.Some? then Offers(Replies(s.nodes, s.noteHand.value)) else []
    case Transmit => [Take, Finish]
    case StartIo => [Switch(true)]
    case StopIo => [Switch(false)]
    case _ => []
  }

  /** Everything NoM has queued for sending, and what became of it. */
  function OutFlow(states: seq<State>, steps: seq<Step>, t: nat): Track<Packet>
    requires t <= |steps| && t <= |states|
  {
    if t == 0 then Untouched() else Play(OutFlow(states, steps, t - 1), OutEvents(states[t - 1], steps[t - 1]))
  }

  lemma {:induction false} PlayOffers<T>(k: Track<T>, vs: seq<T>)
    ensures var k' := Play(k, Offers(vs));
            && k'.queue == PushAll(k.queue, vs) && k'.hand == k.hand && k'.handled == k.handled
    decreases |vs|
  {
    if vs != [] {
      assert Offers(vs)[1..] == Offers(vs[1..]);
      PlayOffers(Happen(k, Offer(vs[0])), vs[1..]);
    }
  }

  lemma OutStep(s: State, step: Step, k: Track<Packet>)
    requires Enabled(s, step) && k.queue == s.outbox && k.hand == []
    ensures var k' := Play(k, OutEvents(s, step));
            && k'.queue == Apply(s, step).outbox && k'.hand == []
            && k'.handled == k.handled + (if step == Transmit then [s.outbox.items[0]] else [])
  {
    hide Parse, FindPort, Sends, Next, LostBy, Replies, Survivors, SentCastOk, WireOf, Admit, MarkPong, Dead, PushAll;
    assert k.handled + [] == k.handled;
    match step
    case Transmit => PlayTwo(k, Take, Finish);
    case HandleNote => PlayOffers(k, Replies(s.nodes, s.noteHand.value));
    case StartIo => PlayOne(k, Switch(true));
    case StopIo => PlayOne(k, Switch(false));
    case _ =>
  }

  /** One datagram per packet, in order, each for the packet's address and read as the packet says. */
  ghost predicate SentAs(wire: seq<(Addr, Bytes)>, packets: seq<Packet>) {
    && |wire| == |packets|
    && forall k :: 0 <= k < |wire| ==>
         wire[k].0 == packets[k].addr && ParseIncoming(wire[k].1) == Some(Reading(packets[k]))
  }

  lemma SentMore(wire: seq<(Addr, Bytes)>, wire': seq<(Addr, Bytes)>, packets: seq<Packet>, p: Packet)
    requires SentAs(wire, packets) && |wire'| == |wire| + 1 && wire'[..|wire|] == wire
    requires wire'[|wire|].0 == p.addr && ParseIncoming(wire'[|wire|].1) == Some(Reading(p))
    ensures SentAs(wire', packets + [p])
  {
    hide ParseIncoming, Reading;
    assert forall k :: 0 <= k < |wire| ==> wire'[k] == wire[k];
  }

  lemma WireStepDoes(s: State, step: Step, packets: seq<Packet>)
    requires Inv(s) && Enabled(s, step) && SentAs(s.wire, packets)
    ensures SentAs(Apply(s, step).wire, packets + (if step == Transmit then [s.outbox.items[0]] else []))
  {
    hide Inv, SentAs, FindPort, Sends, Next, LostBy, Replies, Survivors, Parse, Admit, MarkPong, Dead, PushAll, WireOf;
    if step == Transmit {
      var first, rest := s.outbox.items[0], s.outbox.items[1..];
      TransmitDoes(s, first, rest);
      SentMore(s.wire, Apply(s, step).wire, packets, first);
    } else {
      assert packets + [] == packets;
    }
  }

  /** The same for the send queue; and what was sent is exactly what was taken from it. */
  lemma {:induction false} SendingInOrder(states: seq<State>, steps: seq<Step>, t: nat)
    requires IsRun(states, steps) && t < |states|
    ensures t <= |steps| && TrackOk(OutFlow(states, steps, t)) && OutFlow(states, steps, t).hand == []
    ensures OutFlow(states, steps, t).queue == states[t].outbox
    ensures SentAs(states[t].wire, OutFlow(states, steps, t).handled)
    decreases t
  {
    hide IsRun, Inv, TrackOk, Apply, Enabled, Play, OutEvents, Untouched, SentAs;
    RunLength(states, steps);
    if t == 0 {
      EmptyAtFirst(states, steps);
      UntouchedOk<Packet>();
      NothingSent();
    } else {
      RunStep(states, steps, t - 1);
      SendingInOrder(states, steps, t - 1);
      var s, step, k := states[t - 1], steps[t - 1], OutFlow(states, steps, t - 1);
      OutStep(s, step, k);
      WireStepDoes(s, step, k.handled);
      PlayKeeps(k, OutEvents(s, step));
    }
  }

  lemma NothingSent()
    ensures SentAs([], [])
  {}

  // ------------------------------------------------------------ the fate of one message

  /** What counts as handled is what NoM had in hand in its handling steps, and nothing else. */
  lemma HandledIs(states: seq<State>, steps: seq<Step>, t: nat)
    requires IsRun(states, steps) && t < |steps|
    ensures |states| == |steps| + 1
    ensures InFlow(steps, t + 1).handled == InFlow(steps, t).handled
              + (if steps[t] == HandlePacket then [states[t].inHand.value] else [])
    ensures NoteFlow(states, steps, t + 1).handled == NoteFlow(states, steps, t).handled
              + (if steps[t] == HandleNote then [states[t].noteHand.value] else [])
  {
    hide IsRun, TrackOk, InFlow, NoteFlow, Apply, Parse, MessageOf, Next, FindPort;
    RunStep(states, steps, t);
    PacketsInOrder(states, steps, t);
    MessagesInOrder(states, steps, t);
    FlowsGrow(states, steps, t);
    var k, l := InFlow(steps, t), NoteFlow(states, steps, t);
    assert k.handled + [] == k.handled && l.handled + [] == l.handled;
    PlayShort(k, InEvents(steps[t]));
    PlayShort(l, NoteEvents(states[t], steps[t]));
    PlayTwo(k, Switch(false), Drop);
    PlayTwo(l, Switch(false), Drop);
  }

  lemma FlowsGrow(states: seq<State>, steps: seq<Step>, t: nat)
    requires t < |steps| <= |states|
    ensures InFlow(steps, t + 1) == Play(InFlow(steps, t), InEvents(steps[t]))
    ensures NoteFlow(states, steps, t + 1) == Play(NoteFlow(states, steps, t), NoteEvents(states[t], steps[t]))
  {
    hide Play, InEvents, NoteEvents;
  }

  lemma {:induction false} OfferedStays<T>(k: Track<T>, es: seq<Event<T>>, x: T)
    ensures x in k.offered || Offer(x) in es ==> x in Play(k, es).offered
    decreases |es|
  {
    if es != [] {
      assert x in k.offered || es[0] == Offer(x) ==> x in Happen(k, es[0]).offered;
      OfferedStays(Happen(k, es[0]), es[1..], x);
    }
  }

  lemma {:induction false} PushedIsOffered(states: seq<State>, steps: seq<Step>, u: nat, t: nat, m: Msg)
    requires u < t <= |steps| && |steps| <= |states| && Offer(m) in NoteEvents(states[u], steps[u])
    ensures m in NoteFlow(states, steps, t).offered
    decreases t
  {
    hide Play, NoteEvents;
    OfferedStays(NoteFlow(states, steps, t - 1), NoteEvents(states[t - 1], steps[t - 1]), m);
    if u < t - 1 {
      PushedIsOffered(states, steps, u, t - 1, m);
    }
  }

  /** A message a node pushed in step `u` is, at every later time, waiting, in NoM's hand or handled, or
      it was refused by a stopped queue, evicted from a full one or dropped by a stop. */
  lemma EveryPushHasAFate(states: seq<State>, steps: seq<Step>, u: nat, t: nat, m: Msg)
    requires IsRun(states, steps) && u < t < |states| && t <= |steps| && Offer(m) in NoteEvents(states[u], steps[u])
    ensures var k := NoteFlow(states, steps, t);
            || m in states[t].notes.items || states[t].noteHand == Some(m)
            || m in k.handled || m in k.refused || m in k.evicted || m in k.dropped
  {
    hide IsRun, NoteEvents, NoteFlow, InOrder;
    RunLength(states, steps);
    MessagesInOrder(states, steps, t);
    PushedIsOffered(states, steps, u, t, m);
    var k := NoteFlow(states, steps, t);
    assert m in multiset(k.offered);
    assert m in multiset(k.refused) || m in multiset(k.accepted);
  }

  // ------------------------------------------------------------ where addresses come from

  /** What was accepted was received. */
  lemma {:induction false} AcceptedWasReceived(steps: seq<Step>, t: nat, p: Packet) returns (r: nat)
    requires t <= |steps| && p in InFlow(steps, t).accepted
    ensures r < t && steps[r].Receive? && Parse(steps[r].buf, steps[r].addr) == Some(p)
    decreases t
  {
    hide Parse, Happen;
    var k := InFlow(steps, t - 1);
    if p in k.accepted {
      r := AcceptedWasReceived(steps, t - 1, p);
    } else {
      r := t - 1;
      AcceptedHere(k, steps[r], p);
    }
  }

  lemma AcceptedHere(k: Track<Packet>, step: Step, p: Packet)
    requires p in Play(k, InEvents(step)).accepted && p !in k.accepted
    ensures step.Receive? && Parse(step.buf, step.addr) == Some(p)
  {
    hide Parse;
    PlayShort(k, InEvents(step));
    match step
    case StopNom => PlayTwo(k, Switch(false), Drop);
    case _ =>
  }

  lemma RegisterParsed(buf: Buffer, addr: Addr, p: Packet)
    requires Parse(buf, addr) == Some(p) && p.RegisterPacket?
    ensures p.addr == addr && buf[0] == 0 && buf[2] == p.typeNode
  {
    hide CStr;
  }

  /** A new entry is the packet NoM handled, with the next identity. */
  lemma NewEntry(s: State, step: Step, n: NodeVal, i: nat)
    requires Descends(s, step, n, i)
    ensures i < |s.nodes| ==> SameNode(s.nodes[i], n)
    ensures i >= |s.nodes| ==>
      && step == HandlePacket && s.inHand.Some? && s.inHand.value.RegisterPacket?
      && n.addr == s.inHand.value.addr && n.typeNode == s.inHand.value.typeNode && n.id == s.counter + 1
  {
    hide Becomes, Announced, PongFor;
  }

  /** Every entry was made, with its identity, in a step `v` in which NoM handled a REGISTER datagram that
      had come, in a step `r`, from the entry's whole address, IP included, and named its type. */
  lemma {:induction false} EntriesRegistered(states: seq<State>, steps: seq<Step>, t: nat, k: nat)
    returns (r: nat, v: nat)
    requires IsRun(states, steps) && t < |states| && k < |states[t].nodes|
    ensures r < v < t && |states| == |steps| + 1
    ensures var n := states[t].nodes[k];
            && steps[v] == HandlePacket && n.id == states[v].counter + 1
            && steps[r].Receive? && steps[r].addr == n.addr
            && steps[r].buf[0] == 0 && steps[r].buf[2] == n.typeNode
    decreases t
  {
    hide IsRun, Descends, InFlow, TrackOk, Parse;
    RunLength(states, steps);
    var i := AncestorAt(states, steps, t, k);
    NewEntry(states[t - 1], steps[t - 1], states[t].nodes[k], i);
    if i < |states[t - 1].nodes| {
      r, v := EntriesRegistered(states, steps, t - 1, i);
    } else {
      v := t - 1;
      var p := states[v].inHand.value;
      PacketsInOrder(states, steps, v);
      HandWasAccepted(InFlow(steps, v), p);
      r := AcceptedWasReceived(steps, v, p);
      RegisterParsed(steps[r].buf, steps[r].addr, p);
    }
  }

  /** Every datagram goes to an address a REGISTER came from. */
  lemma DestinationsRegistered(states: seq<State>, steps: seq<Step>, t: nat, k: nat) returns (r: nat)
    requires IsRun(states, steps) && t < |states| && k < |states[t].wire|
    ensures r < t && |states| == |steps| + 1
    ensures steps[r].Receive? && steps[r].buf[0] == 0 && steps[r].addr == states[t].wire[k].0
  {
    hide *;
    var u, v := ClientsAreToldTheTruth(states, steps, t, k);
    var i, w := Addressee(states[t].wire[k], states[u].nodes, steps[u].i, steps[u].stamp, states[v].nodes);
    var made;
    r, made := EntriesRegistered(states, steps, if w then u else v, i);
  }

  lemma Addressee(datagram: (Addr, Bytes), froms: Nodes, j: nat, stamp: Bytes, nodes: Nodes)
    returns (i: nat, fromIt: bool)
    requires j < |froms| && TellsTruth(datagram, froms[j], stamp, nodes)
    ensures fromIt ==> i < |froms| && froms[i].addr == datagram.0
    ensures !fromIt ==> i < |nodes| && nodes[i].addr == datagram.0
  {
    hide ParseIncoming, Next, OpenWindow, Zeros;
    fromIt := ParseIncoming(datagram.1).value.ParsedPing?;
    if fromIt {
      i := j;
    } else {
      i :| 0 <= i < |nodes| && nodes[i].addr == datagram.0;
    }
  }
}
