/** Where messages, packets and datagrams come from: every message was pushed by a registered node,
    every packet answers a message, and no client is ever told of a timeout that did not happen. */
module ProtocolWire {
  import opened Types
  import opened SafeQueue
  import opened Packets
  import opened Client
  import opened Node
  import opened Registry
  import opened Protocol
  import opened ProtocolRuns
  import opened ProtocolTrace

  // ------------------------------------------------------------ messages

  /** In this step a node's thread pushes `m`. */
  predicate Pushes(s: State, step: Step, m: Msg) {
    step.NodeStep? && step.i < |s.nodes| && Sends(s.nodes[step.i], Ctx(s.counter, step.stamp)) == [m]
  }

  ghost predicate PushedAt(states: seq<State>, steps: seq<Step>, m: Msg, u: nat) {
    u < |steps| && u < |states| && Pushes(states[u], steps[u], m)
  }

  lemma PendingStep(s: State, step: Step, m: Msg)
    requires Enabled(s, step) && m in Pending(Apply(s, step))
    ensures m in Pending(s) || Pushes(s, step, m)
  {
    hide Sends, Next, LostBy, FindPort, PushAll, Replies, Survivors, Mailbox.Dead, Parse, SentCastOk, WireOf, Admit;
  }

  /** Every message NoM has not handled was pushed by an earlier step of a node's thread. */
  lemma {:induction false} NotesComeFromNodes(states: seq<State>, steps: seq<Step>, t: nat, m: Msg) returns (u: nat)
    requires IsRun(states, steps) && t < |states| && m in Pending(states[t])
    ensures u < t && PushedAt(states, steps, m, u)
    decreases t
  {
    hide *;
    RunLength(states, steps);
    if t == 0 {
      NothingAtFirst(states, steps);
    } else {
      RunStep(states, steps, t - 1);
      PendingStep(states[t - 1], steps[t - 1], m);
      u := t - 1;
      if m in Pending(states[t - 1]) {
        u := NotesComeFromNodes(states, steps, t - 1, m);
      } else {
        PushedBy(states, steps, m, u);
      }
    }
  }

  lemma PushedBy(states: seq<State>, steps: seq<Step>, m: Msg, u: nat)
    requires u < |steps| && u < |states| && Pushes(states[u], steps[u], m)
    ensures PushedAt(states, steps, m, u)
  {
    hide Pushes;
  }

  lemma NothingAtFirst(states: seq<State>, steps: seq<Step>)
    requires IsRun(states, steps)
    ensures Pending(states[0]) == [] && states[0].outbox.items == [] && states[0].wire == []
  {
    hide Enabled, Apply;
  }

  // ------------------------------------------------------------ packets

  /** In this step NoM queues `p` in answer to a node's message. */
  predicate Answers(s: State, step: Step, p: Packet) {
    step == HandleNote && s.noteHand.Some? && p in Replies(s.nodes, s.noteHand.value)
  }

  ghost predicate QueuedAt(states: seq<State>, steps: seq<Step>, p: Packet, v: nat) {
    v < |steps| && v < |states| && Answers(states[v], steps[v], p)
  }

  lemma {:induction false} PushAllFrom<T>(q: Queue<T>, vs: seq<T>, v: T)
    requires v in PushAll(q, vs).items
    ensures v in q.items || v in vs
    decreases |vs|
  {
    if vs != [] {
      PushAllFrom(q.Push(vs[0], true), vs[1..], v);
    }
  }

  lemma OutboxStep(s: State, step: Step, p: Packet)
    requires Enabled(s, step) && p in Apply(s, step).outbox.items
    ensures p in s.outbox.items || Answers(s, step, p)
  {
    hide Sends, Next, LostBy, FindPort, PushAll, Replies, Survivors, Mailbox.Dead, Parse, SentCastOk, WireOf, Admit;
    if step == HandleNote {
      PushAllFrom(s.outbox, Replies(s.nodes, s.noteHand.value), p);
    }
  }

  lemma {:induction false} PacketsAreAnswers(states: seq<State>, steps: seq<Step>, t: nat, p: Packet)
    returns (v: nat)
    requires IsRun(states, steps) && t < |states| && p in states[t].outbox.items
    ensures v < t && QueuedAt(states, steps, p, v)
    decreases t
  {
    hide *;
    RunLength(states, steps);
    if t == 0 {
      NothingAtFirst(states, steps);
    } else {
      RunStep(states, steps, t - 1);
      OutboxStep(states[t - 1], steps[t - 1], p);
      v := t - 1;
      if p in states[t - 1].outbox.items {
        v := PacketsAreAnswers(states, steps, t - 1, p);
      } else {
        QueuedBy(states, steps, p, v);
      }
    }
  }

  lemma QueuedBy(states: seq<State>, steps: seq<Step>, p: Packet, v: nat)
    requires v < |steps| && v < |states| && Answers(states[v], steps[v], p)
    ensures QueuedAt(states, steps, p, v)
  {
    hide Answers;
  }

  // ------------------------------------------------------------ datagrams

  /** The datagram is what `p` is encoded to, for `p`'s address. */
  predicate Carries(datagram: (Addr, Bytes), p: Packet) {
    SentCastOk(p) && WireOf(p) == Some(datagram.1) && datagram.0 == p.addr
  }

  lemma WireStep(s: State, step: Step, k: nat) returns (p: Packet)
    requires Enabled(s, step) && k < |Apply(s, step).wire|
    ensures k < |s.wire| ==> Apply(s, step).wire[k] == s.wire[k]
    ensures k >= |s.wire| ==> p in s.outbox.items && Carries(Apply(s, step).wire[k], p)
  {
    hide Sends, Next, LostBy, FindPort, PushAll, Replies, Survivors, Mailbox.Dead, Parse, SentCastOk, WireOf, Admit;
    if step == Transmit {
      p := s.outbox.items[0];
    } else {
      p := PingPacket(0, 0, [], Addr(0, 0));
    }
  }

  lemma {:induction false} DatagramsArePackets(states: seq<State>, steps: seq<Step>, t: nat, k: nat)
    returns (p: Packet, v: nat)
    requires IsRun(states, steps) && t < |states| && k < |states[t].wire|
    ensures v < t && QueuedAt(states, steps, p, v) && Carries(states[t].wire[k], p)
    decreases t
  {
    hide *;
    RunLength(states, steps);
    if t == 0 {
      NothingAtFirst(states, steps);
    } else {
      RunStep(states, steps, t - 1);
      p := WireStep(states[t - 1], steps[t - 1], k);
      if k < |states[t - 1].wire| {
        p, v := DatagramsArePackets(states, steps, t - 1, k);
      } else {
        v := PacketsAreAnswers(states, steps, t - 1, p);
      }
    }
  }

  // ------------------------------------------------------------ what clients are told

  /** What a datagram tells its receiver is so of node `n` as it pushed, at time `stamp`, the message
      behind it; `nodes` is the registry when NoM handled that message. */
  ghost predicate TellsTruth(datagram: (Addr, Bytes), n: NodeVal, stamp: Bytes, nodes: Nodes) {
    match ParseIncoming(datagram.1)
    case Some(ParsedPing(text)) =>
      datagram.0 == n.addr && text == PING_TEXT + Zeros(14) && Next(n, 0) == OpenWindow(n)
    case Some(ParsedNotify(typeNode, port, state, text)) =>
      && typeNode == n.typeNode && Swap16(port) == n.addr.port && state == TIMEOUT.Code()
      && n.state == TIMEOUT && n.running && text == TIMEOUT_TEXT + stamp + Zeros(7)
      && exists i :: 0 <= i < |nodes| && nodes[i].addr == datagram.0
    case _ => false
  }

  lemma PushedPing(n: NodeVal, ctx: Ctx, m: Msg)
    requires Sends(n, ctx) == [m] && m.messageType == 0
    ensures m.addr == n.addr && m.text == PING_TEXT && Next(n, 0) == OpenWindow(n)
  {
    hide CloseWindow;
  }

  lemma PushedTimeout(n: NodeVal, ctx: Ctx, m: Msg)
    requires Sends(n, ctx) == [m] && m.messageType == 1 && m.state == TIMEOUT
    ensures n.state == TIMEOUT && n.running && m.emitter == n.id && m.addr == n.addr && m.typeNode == n.typeNode
    ensures m.text == TIMEOUT_TEXT + ctx.stamp
  {
    hide CloseWindow;
  }

  lemma PingTells(datagram: (Addr, Bytes), n: NodeVal, ctx: Ctx, m: Msg, nodes: Nodes)
    requires Sends(n, ctx) == [m] && m.messageType == 0 && Carries(datagram, PingFor(m))
    ensures TellsTruth(datagram, n, ctx.stamp, nodes)
  {
    hide Sends, Next, OpenWindow, PingBytes, NotifyBytes, ParseIncoming, Fit, Zeros;
    PushedPing(n, ctx, m);
    PingReachesClient(m.text, m.addr);
    assert Fit(PING_TEXT, 18) == PING_TEXT + Zeros(14) by {
      FitShort(PING_TEXT, 18);
    }
  }

  lemma NotifyTells(datagram: (Addr, Bytes), n: NodeVal, ctx: Ctx, m: Msg, nodes: Nodes, i: nat)
    requires Sends(n, ctx) == [m] && m.messageType == 1 && m.state == TIMEOUT && |ctx.stamp| == STAMP_LENGTH
    requires i < |nodes| && Carries(datagram, NotifyFor(nodes[i], m))
    ensures TellsTruth(datagram, n, ctx.stamp, nodes)
  {
    hide Sends, Next, OpenWindow, PingBytes, NotifyBytes, ParseIncoming, Fit, Zeros;
    PushedTimeout(n, ctx, m);
    NotifyReachesClient(m.text, nodes[i].addr, m.typeNode, Swap16(m.addr.port), TIMEOUT);
    assert Swap16(Swap16(m.addr.port)) == m.addr.port;
    FitShort(m.text, 34);
  }

  lemma AnswerTells(datagram: (Addr, Bytes), n: NodeVal, ctx: Ctx, m: Msg, nodes: Nodes, p: Packet)
    requires Sends(n, ctx) == [m] && |ctx.stamp| == STAMP_LENGTH
    requires p in Replies(nodes, m) && Carries(datagram, p)
    ensures TellsTruth(datagram, n, ctx.stamp, nodes)
  {
    hide Sends, TellsTruth, Carries;
    if m.messageType == 0 {
      PingTells(datagram, n, ctx, m, nodes);
    } else {
      var i :| 0 <= i < |nodes| && p == NotifyFor(nodes[i], m);
      NotifyTells(datagram, n, ctx, m, nodes, i);
    }
  }

  /** Every datagram handed to the socket: NoM queued it in step `v` for a message a node pushed in step
      `u`. A PING goes to that node, whose window opened as it pushed. A NOTIFY goes to a node
      registered at `v` and names the type and the host port of the pushing node, which was in TIMEOUT
      at the time stamped, with no PONG from its port handled in its last window. */
  lemma ClientsAreToldTheTruth(states: seq<State>, steps: seq<Step>, t: nat, k: nat) returns (u: nat, v: nat)
    requires IsRun(states, steps) && t < |states| && k < |states[t].wire|
    ensures u < v < t && |states| == |steps| + 1
    ensures steps[v] == HandleNote && steps[u].NodeStep? && steps[u].i < |states[u].nodes|
    ensures var n := states[u].nodes[steps[u].i];
            && TellsTruth(states[t].wire[k], n, steps[u].stamp, states[v].nodes)
            && (n.state == TIMEOUT && n.running ==>
                  |n.wins| > 0 && WasSilent(states, steps, u, n.id, n.addr.port, |n.wins| - 1))
  {
    hide *;
    RunLength(states, steps);
    var p;
    p, v := DatagramsArePackets(states, steps, t, k);
    var m := AnsweredMessage(states, steps, p, v);
    u := NotesComeFromNodes(states, steps, v, m);
    RunStep(states, steps, u);
    PushedByNode(states, steps, m, u);
    var n := states[u].nodes[steps[u].i];
    AnswerTells(states[t].wire[k], n, Ctx(states[u].counter, steps[u].stamp), m, states[v].nodes, p);
    if n.state == TIMEOUT && n.running {
      TimeoutOnlyAfterSilence(states, steps, u, steps[u].i);
    }
  }

  lemma AnsweredMessage(states: seq<State>, steps: seq<Step>, p: Packet, v: nat) returns (m: Msg)
    requires QueuedAt(states, steps, p, v)
    ensures v < |steps| && v < |states| && steps[v] == HandleNote
    ensures m in Pending(states[v]) && p in Replies(states[v].nodes, m)
  {
    hide Replies;
    m := states[v].noteHand.value;
    assert Pending(states[v])[0] == m;
  }

  lemma PushedByNode(states: seq<State>, steps: seq<Step>, m: Msg, u: nat)
    requires PushedAt(states, steps, m, u) && Enabled(states[u], steps[u])
    ensures steps[u].NodeStep? && steps[u].i < |states[u].nodes| && |steps[u].stamp| == STAMP_LENGTH
    ensures Sends(states[u].nodes[steps[u].i], Ctx(states[u].counter, steps[u].stamp)) == [m]
  {
    hide Sends;
  }

  // ------------------------------------------------------------ what NoM is told

  /** A TIMEOUT notice NoM has not handled was pushed by a node whose last window was silent. */
  lemma NoticesAreTrue(states: seq<State>, steps: seq<Step>, t: nat, m: Msg) returns (u: nat)
    requires IsRun(states, steps) && t < |states| && m in Pending(states[t])
    requires m.messageType == 1 && m.state == TIMEOUT
    ensures u < t && |states| == |steps| + 1 && steps[u].NodeStep? && steps[u].i < |states[u].nodes|
    ensures var n := states[u].nodes[steps[u].i];
            && n.addr == m.addr && n.typeNode == m.typeNode && n.id == m.emitter && n.state == TIMEOUT
            && |n.wins| > 0 && WasSilent(states, steps, u, n.id, n.addr.port, |n.wins| - 1)
  {
    hide *;
    RunLength(states, steps);
    u := NotesComeFromNodes(states, steps, t, m);
    RunStep(states, steps, u);
    PushedByNode(states, steps, m, u);
    var n, ctx := states[u].nodes[steps[u].i], Ctx(states[u].counter, steps[u].stamp);
    PushedTimeout(n, ctx, m);
    TimeoutOnlyAfterSilence(states, steps, u, steps[u].i);
  }
}
