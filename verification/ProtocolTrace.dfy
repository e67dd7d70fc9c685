/** What a whole run says about one node: which PONGs fell into which of its windows, and what
    becomes of identities and of entries whose DEAD notice went missing. */
module ProtocolTrace {
  import opened Types
  import opened Packets
  import opened Node
  import opened NodeLife
  import opened NodeHistory
  import opened Registry
  import opened Mailbox
  import opened Protocol
  import opened ProtocolInvariant
  import opened ProtocolRuns

  /** In this step NoM handles a PONG from `port`. */
  predicate PongFor(s: State, step: Step, port: word) {
    step == HandlePacket && s.inHand.Some? && IsPong(s.inHand.value) && s.inHand.value.addr.port == port
  }

  /** What a step makes of entry `i`, if it stays. */
  function Becomes(s: State, step: Step, i: nat): NodeVal
    requires i < |s.nodes|
  {
    var n := s.nodes[i];
    if PongFor(s, step, n.addr.port) then Heard(n)
    else match step
      case NodeStep(j, delay, _) => if j == i then Next(n, delay) else n
      case NodeStop(j) => if j == i then Halted(n) else n
      case _ => n
  }

  /** The entry `i'` after a step is a new one with a new identity, or what an entry became. */
  ghost predicate Descends(s: State, step: Step, n': NodeVal, i: nat) {
    if i < |s.nodes| then
      n' == Becomes(s, step, i) && SameNode(s.nodes[i], n')
        && (PongFor(s, step, n'.addr.port) ==> !Locked(s.nodes[i]))
    else
      && step == HandlePacket && s.inHand.Some? && s.inHand.value.RegisterPacket?
      && n'.addr == s.inHand.value.addr && n'.typeNode == s.inHand.value.typeNode
      && n'.id == s.counter + 1 && n'.wins == [] && n'.log == [] && n'.state == INIT && n'.phase == Top
  }

  lemma Ancestor(s: State, step: Step, k: nat) returns (i: nat)
    requires UniquePorts(s.nodes) && Enabled(s, step) && k < |Apply(s, step).nodes|
    ensures Descends(s, step, Apply(s, step).nodes[k], i)
  {
    if step == HandlePacket {
      i := PacketAncestor(s, k);
    } else if step == HandleNote {
      i := NoteAncestor(s.nodes, s.noteHand.value, k);
      hide FindPort, Announced, Survivors, PushAll, Replies;
      assert Apply(s, step) == Replied(s, s.noteHand.value);
    } else {
      i := k;
      if step.NodeStep? {
        NextSame(s.nodes[step.i], step.delay);
      }
      hide UniquePorts, FindPort, Announced, Next, Sends, Deliver, Sent, Handled, Replied, PushNote, LostBy;
      SameNodes(s, step);
    }
  }

  lemma SameNodes(s: State, step: Step)
    requires Enabled(s, step) && step != HandlePacket && step != HandleNote
    ensures Apply(s, step).nodes ==
              match step
              case NodeStep(j, delay, _) => s.nodes[j := Next(s.nodes[j], delay)]
              case NodeStop(j) => s.nodes[j := Halted(s.nodes[j])]
              case _ => s.nodes
  {
    hide Next, Sends, FindPort, Parse, SentCastOk, WireOf, PushNote, LostBy, Dead;
  }

  lemma PacketAncestor(s: State, k: nat) returns (i: nat)
    requires UniquePorts(s.nodes) && Enabled(s, HandlePacket) && k < |Apply(s, HandlePacket).nodes|
    ensures Descends(s, HandlePacket, Apply(s, HandlePacket).nodes[k], i)
  {
    hide FindPort;
    var p := s.inHand.value;
    i := k;
    if IsPong(p) && k < |s.nodes| && s.nodes[k].addr.port == p.addr.port {
      FindsIt(s.nodes, k);
    }
  }

  lemma NoteAncestor(nodes: Nodes, m: Msg, k: nat) returns (i: nat)
    requires UniquePorts(nodes) && k < |Survivors(nodes, m)|
    ensures i < |nodes| && Survivors(nodes, m)[k] == nodes[i]
  {
    var j := FindPort(nodes, m.addr.port);
    i := if IsDead(m) && j < |nodes| && k >= j then k + 1 else k;
  }

  /** `Ancestor` along a run. */
  lemma AncestorAt(states: seq<State>, steps: seq<Step>, t: nat, k: nat) returns (i: nat)
    requires IsRun(states, steps) && t < |states| && k < |states[t].nodes|
    ensures t > 0 && Descends(states[t - 1], steps[t - 1], states[t].nodes[k], i)
    ensures Increasing(states[t - 1].nodes) && Increasing(states[t].nodes)
  {
    hide Inv, Apply, Enabled, Descends;
    assert t > 0;
    RunKeepsInv(states, steps, t - 1);
    RunKeepsInv(states, steps, t);
    InvIncreasing(states[t - 1]);
    InvIncreasing(states[t]);
    assert Enabled(states[t - 1], steps[t - 1]) && states[t] == Apply(states[t - 1], steps[t - 1]);
    i := Ancestor(states[t - 1], steps[t - 1], k);
  }

  lemma InvIncreasing(s: State)
    requires Inv(s)
    ensures Increasing(s.nodes) && UniquePorts(s.nodes)
  {
    hide EntryOk, UniquePorts, MsgsOk, InOk, OutOk, Increasing, AllHomed, DeadLast, Balanced;
  }

  // ------------------------------------------------------------ windows and pongs

  ghost predicate HeardAt(states: seq<State>, steps: seq<Step>, t: nat, port: word) {
    t < |steps| && t < |states| && PongFor(states[t], steps[t], port)
  }

  /** Entry `i` is node `id`, waiting in its window number `j`. */
  predicate WaitsAt(s: State, id: nat, j: nat, i: nat) {
    i < |s.nodes| && s.nodes[i].id == id && s.nodes[i].phase == Waiting && |s.nodes[i].wins| == j
  }

  ghost predicate WaitsIn(s: State, id: nat, j: nat) {
    exists i :: WaitsAt(s, id, j, i)
  }

  /** Window `j` of node `id` is opened by step `o` and is open in every state from then to `t`. */
  ghost predicate OpenSince(states: seq<State>, steps: seq<Step>, id: nat, j: nat, o: nat, t: nat) {
    && o < t < |states| && o < |steps| && steps[o].NodeStep?
    && !WaitsIn(states[o], id, j)
    && forall u :: o < u <= t ==> WaitsIn(states[u], id, j)
  }

  /** A PONG from `port` is handled strictly between steps `o` and `t`. */
  ghost predicate HeardBetween(states: seq<State>, steps: seq<Step>, o: nat, t: nat, port: word) {
    exists u :: o < u < t && HeardAt(states, steps, u, port)
  }

  /** What a thread's step does to its windows. */
  lemma NextWindows(n: NodeVal, delay: nat)
    ensures var m := Next(n, delay);
            && (m.phase == Waiting ==> n.phase != Waiting && !m.pong)
            && (n.phase != Waiting ==> m.wins == n.wins)
            && (n.phase == Waiting ==>
                  && |m.wins| == |n.wins| + 1 && m.wins[..|n.wins|] == n.wins
                  && m.wins[|n.wins|].outcome == OutcomeOf(n))
  {}

  lemma WaitsOnlyAs(s: State, i: nat, j: nat)
    requires Increasing(s.nodes) && i < |s.nodes|
    requires s.nodes[i].phase != Waiting || |s.nodes[i].wins| != j
    ensures !WaitsIn(s, s.nodes[i].id, j)
  {
    forall k: nat
      ensures !WaitsAt(s, s.nodes[i].id, j, k)
    {
      assert k < |s.nodes| && s.nodes[k].id == s.nodes[i].id ==> !(k < i) && !(i < k);
    }
  }

  lemma HeardMore(states: seq<State>, steps: seq<Step>, o: nat, t: nat, port: word)
    requires o < t
    ensures HeardBetween(states, steps, o, t + 1, port)
        <==> HeardBetween(states, steps, o, t, port) || HeardAt(states, steps, t, port)
  {
    hide HeardAt;
  }

  /** The open window of an entry: since when, and that its flag says whether a PONG was handled in it. */
  lemma {:induction false} OpenWindowOf(states: seq<State>, steps: seq<Step>, t: nat, k: nat) returns (o: nat)
    requires IsRun(states, steps) && t < |states| && k < |states[t].nodes|
    requires states[t].nodes[k].phase == Waiting
    ensures var n := states[t].nodes[k];
            && OpenSince(states, steps, n.id, |n.wins|, o, t)
            && (n.pong <==> HeardBetween(states, steps, o, t, n.addr.port))
    decreases t
  {
    hide WaitsIn, OpenSince, HeardBetween, Next, Announced;
    var n := states[t].nodes[k];
    var i := AncestorAt(states, steps, t, k);
    BecomesWaiting(states[t - 1], steps[t - 1], i, n);
    WaitsHere(states[t], k);
    if states[t - 1].nodes[i].phase == Waiting {
      o := OpenWindowOf(states, steps, t - 1, i);
      OpenStays(states, steps, n.id, |n.wins|, o, t - 1);
      HeardMore(states, steps, o, t - 1, n.addr.port);
    } else {
      o := t - 1;
      WaitsOnlyAs(states[t - 1], i, |n.wins|);
      OpenStarts(states, steps, n.id, |n.wins|, o);
      HeardNone(states, steps, o, n.addr.port);
    }
  }

  /** An entry that waits was waiting in the same window, or has just opened it by its own step. */
  lemma BecomesWaiting(s: State, step: Step, i: nat, n: NodeVal)
    requires Descends(s, step, n, i) && n.phase == Waiting
    ensures i < |s.nodes| && n.wins == s.nodes[i].wins
    ensures s.nodes[i].phase == Waiting ==>
              n.pong == (s.nodes[i].pong || PongFor(s, step, n.addr.port))
    ensures s.nodes[i].phase != Waiting ==> step.NodeStep? && !n.pong
  {
    hide Next, Announced;
    if i < |s.nodes| && step.NodeStep? {
      NextWindows(s.nodes[i], step.delay);
    }
  }

  lemma OpenStays(states: seq<State>, steps: seq<Step>, id: nat, j: nat, o: nat, t: nat)
    requires OpenSince(states, steps, id, j, o, t) && t + 1 < |states| && WaitsIn(states[t + 1], id, j)
    ensures o < t && OpenSince(states, steps, id, j, o, t + 1)
  {
    hide WaitsIn;
  }

  lemma OpenStarts(states: seq<State>, steps: seq<Step>, id: nat, j: nat, o: nat)
    requires o + 1 < |states| && o < |steps| && steps[o].NodeStep?
    requires !WaitsIn(states[o], id, j) && WaitsIn(states[o + 1], id, j)
    ensures OpenSince(states, steps, id, j, o, o + 1)
  {
    hide WaitsIn;
  }

  lemma HeardNone(states: seq<State>, steps: seq<Step>, o: nat, port: word)
    ensures !HeardBetween(states, steps, o, o + 1, port)
  {}

  lemma WaitsHere(s: State, k: nat)
    requires k < |s.nodes| && s.nodes[k].phase == Waiting
    ensures WaitsIn(s, s.nodes[k].id, |s.nodes[k].wins|)
  {
    assert WaitsAt(s, s.nodes[k].id, |s.nodes[k].wins|, k);
  }

  /** Every closed window of a registered node was opened by one step and closed by a later one; it is
      recorded as expired only if NoM handled no PONG from its port in between, and as answered only
      if it did. So a PONG handled inside a window never goes unnoticed. */
  lemma {:induction false} WindowsTellTheTruth(states: seq<State>, steps: seq<Step>, t: nat, k: nat, j: nat)
    returns (o: nat, c: nat)
    requires IsRun(states, steps) && t < |states| && k < |states[t].nodes|
    requires j < |states[t].nodes[k].wins|
    ensures var n := states[t].nodes[k];
            && c < t && OpenSince(states, steps, n.id, j, o, c) && !WaitsIn(states[c + 1], n.id, j)
            && (n.wins[j].outcome == Expired ==> !HeardBetween(states, steps, o, c, n.addr.port))
            && (n.wins[j].outcome == Answered ==> HeardBetween(states, steps, o, c, n.addr.port))
    decreases t
  {
    hide Becomes, WaitsIn, HeardBetween, OpenSince, Apply, Enabled, PongFor, Announced;
    var i := AncestorAt(states, steps, t, k);
    BecomesWindows(states[t - 1], steps[t - 1], i, states[t].nodes[k]);
    if j < |states[t - 1].nodes[i].wins| {
      o, c := WindowsTellTheTruth(states, steps, t - 1, i, j);
    } else {
      c := t - 1;
      o := OpenWindowOf(states, steps, t - 1, i);
      WaitsOnlyAs(states[t], k, j);
    }
  }

  /** One step extends an entry's windows by at most the one that was open. */
  lemma BecomesWindows(s: State, step: Step, i: nat, n: NodeVal)
    requires Descends(s, step, n, i) && n.wins != []
    ensures i < |s.nodes|
    ensures var m := s.nodes[i];
            && |m.wins| <= |n.wins| && n.wins[..|m.wins|] == m.wins
            && (|n.wins| > |m.wins| ==>
                  && m.phase == Waiting && |n.wins| == |m.wins| + 1
                  && n.wins[|m.wins|].outcome == OutcomeOf(m))
  {
    hide Next, Announced;
    if i < |s.nodes| && step.NodeStep? {
      NextWindows(s.nodes[i], step.delay);
    }
  }

  /** Window `j` of node `id` ran from step `o` to step `c` without a PONG from its port. */
  ghost predicate SilentWindow(states: seq<State>, steps: seq<Step>, id: nat, port: word, j: nat, o: nat, c: nat) {
    && OpenSince(states, steps, id, j, o, c)
    && c + 1 < |states| && !WaitsIn(states[c + 1], id, j)
    && !HeardBetween(states, steps, o, c, port)
  }

  /** That window had closed by state `t`. */
  ghost predicate WasSilent(states: seq<State>, steps: seq<Step>, t: nat, id: nat, port: word, j: nat) {
    exists o: nat, c: nat :: c < t && SilentWindow(states, steps, id, port, j, o, c)
  }

  /** A node is declared dead only if NoM handled no PONG from its port in any of its last
      RETRY_NUM + 1 windows. */
  lemma DeadOnlyAfterSilence(states: seq<State>, steps: seq<Step>, t: nat, k: nat)
    requires IsRun(states, steps) && t < |states| && k < |states[t].nodes|
    requires states[t].nodes[k].state == DEAD || Announced(states[t].nodes[k])
    ensures var n := states[t].nodes[k];
            && |n.wins| >= RETRY_NUM + 1
            && forall j :: |n.wins| - (RETRY_NUM + 1) <= j < |n.wins| ==>
                 WasSilent(states, steps, t, n.id, n.addr.port, j)
  {
    hide *;
    RunKeepsInv(states, steps, t);
    EntryIsOk(states[t], k);
    var first := LastSilences(states[t].nodes[k]);
    WereSilent(states, steps, t, k, first);
  }

  /** A running node is in TIMEOUT only if NoM handled no PONG from its port in its last window, nor in
      any of the retries' windows before it. */
  lemma TimeoutOnlyAfterSilence(states: seq<State>, steps: seq<Step>, t: nat, k: nat)
    requires IsRun(states, steps) && t < |states| && k < |states[t].nodes|
    requires states[t].nodes[k].state == TIMEOUT && states[t].nodes[k].running
    ensures var n := states[t].nodes[k];
            && |n.wins| >= Silences(n) >= 1
            && forall j :: |n.wins| - Silences(n) <= j < |n.wins| ==>
                 WasSilent(states, steps, t, n.id, n.addr.port, j)
  {
    hide *;
    RunKeepsInv(states, steps, t);
    EntryIsOk(states[t], k);
    TimeoutSilences(states[t].nodes[k]);
    WereSilent(states, steps, t, k, |states[t].nodes[k].wins| - Silences(states[t].nodes[k]));
  }

  /** How many windows in a row went unanswered when a node is in TIMEOUT. */
  function Silences(n: NodeVal): nat
    ensures Silences(n) >= 1
  {
    if n.phase == Top then 1 else n.retry + 1
  }

  lemma TimeoutSilences(n: NodeVal)
    requires NodeOk(n) && n.state == TIMEOUT && n.running
    ensures |n.wins| >= Silences(n)
    ensures forall i :: |n.wins| - Silences(n) <= i < |n.wins| ==> n.wins[i].outcome == Expired
  {
    hide LogOf, LogWaiting, Tally, TimesOk;
    SilentTail(n.wins, Silences(n));
  }

  /** Windows recorded as expired were silent. */
  lemma WereSilent(states: seq<State>, steps: seq<Step>, t: nat, k: nat, first: nat)
    requires IsRun(states, steps) && t < |states| && k < |states[t].nodes|
    requires first <= |states[t].nodes[k].wins|
    requires forall i :: first <= i < |states[t].nodes[k].wins| ==> states[t].nodes[k].wins[i].outcome == Expired
    ensures var n := states[t].nodes[k];
            forall j :: first <= j < |n.wins| ==> WasSilent(states, steps, t, n.id, n.addr.port, j)
  {
    hide IsRun, WaitsIn, HeardBetween, OpenSince;
    var n := states[t].nodes[k];
    forall j | first <= j < |n.wins|
      ensures WasSilent(states, steps, t, n.id, n.addr.port, j)
    {
      var o, c := WindowsTellTheTruth(states, steps, t, k, j);
      assert SilentWindow(states, steps, n.id, n.addr.port, j, o, c);
    }
  }

  lemma LastSilences(n: NodeVal) returns (first: nat)
    requires NodeOk(n) && (n.state == DEAD || Announced(n))
    ensures |n.wins| == first + RETRY_NUM + 1
    ensures forall i :: first <= i < |n.wins| ==> n.wins[i].outcome == Expired
  {
    if Announced(n) {
      AnnouncedLog(n);
      WithoutStop(n);
    } else {
      DeadCount(n);
    }
    SilentTail(n.wins, RETRY_NUM + 1);
    first := |n.wins| - (RETRY_NUM + 1);
  }

  lemma DeadCount(n: NodeVal)
    requires NodeOk(n) && n.state == DEAD && !Announced(n)
    ensures NoStops(n.wins) && Tally(n.wins) == Silent(RETRY_NUM + 1)
  {
    hide LogOf, LogWaiting, TimesOk;
  }

  // ------------------------------------------------------------ states

  /** Over a whole run, a registered node's state changes only along the edges of g_stateChangeTable. */
  lemma StatesFollowTheTable(states: seq<State>, steps: seq<Step>, t: nat, j: nat, k: nat)
    requires IsRun(states, steps) && 0 < t < |states|
    requires j < |states[t - 1].nodes| && k < |states[t].nodes|
    requires states[t - 1].nodes[j].id == states[t].nodes[k].id
    ensures var m, n := states[t - 1].nodes[j], states[t].nodes[k];
            n.state != m.state ==> Allowed(m.state, n.state)
  {
    hide *;
    RunLength(states, steps);
    RunKeepsInv(states, steps, t - 1);
    var i := AncestorAt(states, steps, t, k);
    EntryIsOk(states[t - 1], j);
    AncestorHasId(states[t - 1], steps[t - 1], states[t].nodes[k], i, j);
    StateStep(states[t - 1], steps[t - 1], states[t].nodes[k], j);
  }

  lemma AncestorHasId(s: State, step: Step, n: NodeVal, i: nat, j: nat)
    requires Inv(s) && Descends(s, step, n, i) && j < |s.nodes| && s.nodes[j].id == n.id
    ensures i == j
  {
    hide Inv, Becomes, PongFor;
    IdBelowCounter(s, j);
    if i < |s.nodes| {
      SameId(s, i, j);
    }
  }

  lemma StateStep(s: State, step: Step, n: NodeVal, i: nat)
    requires i < |s.nodes| && Descends(s, step, n, i) && NodeOk(s.nodes[i])
    ensures n.state != s.nodes[i].state ==> Allowed(s.nodes[i].state, n.state)
  {
    hide NodeOk, Next, Allowed, Announced, PongFor;
    if step.NodeStep? {
      ChangesAreEdges(s.nodes[i], step.delay);
    }
  }

  /** An entry whose identity was not registered one step before has the next identity and starts in
      INIT, before its first ping. */
  lemma NewcomersStartInInit(states: seq<State>, steps: seq<Step>, t: nat, k: nat)
    requires IsRun(states, steps) && 0 < t < |states| && k < |states[t].nodes|
    requires !Registered(states[t - 1], states[t].nodes[k].id)
    ensures var n := states[t].nodes[k];
            n.id == states[t - 1].counter + 1 && n.state == INIT && n.phase == Top && n.log == [] && n.wins == []
  {
    hide Apply, Enabled, Becomes, Announced;
    var i := AncestorAt(states, steps, t, k);
  }

  lemma EntryIsOk(s: State, i: nat)
    requires Inv(s) && i < |s.nodes|
    ensures NodeOk(s.nodes[i])
  {
    hide NodeOk, MailOk, MsgsOk, InOk, OutOk;
    assert EntryOk(s.nodes[i], s.counter, s.seen);
  }

  // ------------------------------------------------------------ identities

  ghost predicate Registered(s: State, id: nat) {
    exists i :: 0 <= i < |s.nodes| && s.nodes[i].id == id
  }

  /** An identity that has left the registry never comes back, whoever registers. */
  lemma {:induction false} IdsNeverReused(states: seq<State>, steps: seq<Step>, t: nat, u: nat, id: nat)
    requires IsRun(states, steps) && t <= u < |states|
    requires id <= states[t].counter && !Registered(states[t], id)
    ensures states[t].counter <= states[u].counter && !Registered(states[u], id)
    decreases u
  {
    hide Apply, Enabled, Becomes;
    if t < u {
      IdsNeverReused(states, steps, t, u - 1, id);
      CounterGrows(states[u - 1], steps[u - 1]);
      forall k | 0 <= k < |states[u].nodes|
        ensures states[u].nodes[k].id != id
      {
        var i := AncestorAt(states, steps, u, k);
      }
    }
  }

  /** Along the registry, in every state, identities increase and none is ahead of the counter. */
  lemma IdsIncrease(states: seq<State>, steps: seq<Step>, t: nat)
    requires IsRun(states, steps) && t < |states|
    ensures Increasing(states[t].nodes)
    ensures forall i :: 0 <= i < |states[t].nodes| ==> states[t].nodes[i].id <= states[t].counter
  {
    hide Inv, IsRun;
    RunKeepsInv(states, steps, t);
    InvIncreasing(states[t]);
    forall i | 0 <= i < |states[t].nodes|
      ensures states[t].nodes[i].id <= states[t].counter
    {
      IdBelowCounter(states[t], i);
    }
  }

  lemma CounterGrows(s: State, step: Step)
    requires Enabled(s, step)
    ensures s.counter <= Apply(s, step).counter && s.lost <= Apply(s, step).lost
  {
    hide FindPort, PushAll, Next, Sends, LostBy, Dead;
  }

  // ------------------------------------------------------------ lost notices

  /** A lost DEAD notice can never be made up for: the dead entry stays, silent, and no REGISTER from
      its port is ever admitted again. */
  lemma {:induction false} LostBlocksPort(states: seq<State>, steps: seq<Step>, t: nat, u: nat, k: nat)
    returns (k': nat)
    requires IsRun(states, steps) && t <= u < |states| && k < |states[t].nodes|
    requires states[t].nodes[k].id in states[t].lost
    ensures var n, s := states[t].nodes[k], states[u];
            && n.id in s.lost
            && k' < |s.nodes| && SameNode(n, s.nodes[k']) && Announced(s.nodes[k'])
            && forall p: Packet, counter: nat :: p.RegisterPacket? && p.addr.port == n.addr.port ==>
                 Admit(s.nodes, counter, p) == s.nodes
    decreases u
  {
    hide Inv, Apply, Enabled, Announced, Becomes, Admit;
    RunKeepsInv(states, steps, u);
    if t < u {
      var j := LostBlocksPort(states, steps, t, u - 1, k);
      CounterGrows(states[u - 1], steps[u - 1]);
      k' := LostEntry(states[u], states[t].nodes[k].id);
      var i := AncestorAt(states, steps, u, k');
      RunKeepsInv(states, steps, u - 1);
      IdBelowCounter(states[u - 1], j);
      SameId(states[u - 1], i, j);
    } else {
      k' := LostEntry(states[u], states[t].nodes[k].id);
      SameId(states[u], k, k');
    }
    PortTaken(states[u].nodes, k');
  }

  lemma IdBelowCounter(s: State, j: nat)
    requires Inv(s) && j < |s.nodes|
    ensures s.nodes[j].id <= s.counter
  {
    hide NodeOk, MsgsOk, InOk, OutOk, MailOk;
    assert EntryOk(s.nodes[j], s.counter, s.seen);
  }

  lemma LostEntry(s: State, id: nat) returns (k: nat)
    requires Inv(s) && id in s.lost
    ensures k < |s.nodes| && s.nodes[k].id == id && Announced(s.nodes[k])
  {
    hide NodesOk, MsgsOk, InOk, OutOk, AllHomed, DeadLast, Announced;
    assert id in AnnouncedIds(s.nodes);
    var n :| n in s.nodes && Announced(n) && n.id == id;
    k :| k < |s.nodes| && s.nodes[k] == n;
  }

  lemma SameId(s: State, i: nat, j: nat)
    requires Inv(s) && i < |s.nodes| && j < |s.nodes| && s.nodes[i].id == s.nodes[j].id
    ensures i == j
  {
    hide Inv;
    InvIncreasing(s);
  }

  lemma PortTaken(nodes: Nodes, k: nat)
    requires k < |nodes|
    ensures forall p: Packet, counter: nat :: p.RegisterPacket? && p.addr.port == nodes[k].addr.port ==>
              Admit(nodes, counter, p) == nodes
  {}
}
