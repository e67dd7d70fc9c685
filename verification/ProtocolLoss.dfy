/** Not every dead node is removed. Here is the run that shows it, and exactly when it happens: a
    drained NoM keeps a dead entry iff some step refused, evicted or dropped a DEAD notice. */
module ProtocolLoss {
  import opened Types
  import opened SafeQueue
  import opened Packets
  import opened Node
  import opened NodeLife
  import opened Registry
  import opened Mailbox
  import opened Protocol
  import opened ProtocolRuns

  // ------------------------------------------------------------ when it happens

  /** Whose DEAD notice a step makes disappear: one refused by a stopped queue, one that is the oldest
      in a full queue when a node pushes, or one popped but not handled when NoM stops. */
  function Loses(s: State, step: Step): set<nat>
    requires Enabled(s, step)
  {
    match step
    case NodeStep(i, _, _) =>
      var n := s.nodes[i];
      if n.phase != Retry && !(n.phase == Top && n.running) then {}
      else if !s.notes.running then (if n.phase == Top && n.state == DEAD then {n.id} else {})
      else if |s.notes.items| == MAX_SAFE_QUEUE then Dead(s.notes.items[0])
      else {}
    case StopNom => if s.noteHand.Some? then Dead(s.noteHand.value) else {}
    case _ => {}
  }

  lemma LossPerStep(s: State, step: Step)
    requires Inv(s) && Enabled(s, step)
    ensures Apply(s, step).lost == s.lost + Loses(s, step)
  {
    assert s.notes.Valid();
    hide Inv, Deliver, Handled, Replied, Sent, FindPort, Dead;
    if step.NodeStep? {
      PushLoss(s, step.i, step.stamp);
      hide Sends, Next, LostBy;
    } else {
      hide Stepped;
      if !step.StopNom? {
        OthersLoseNothing(s, step);
      }
    }
  }

  lemma PushLoss(s: State, i: nat, stamp: Bytes)
    requires i < |s.nodes| && s.notes.Valid() && s.nodes[i].phase != Exited
    ensures LostBy(s.notes, Sends(s.nodes[i], Ctx(s.counter, stamp))) ==
              var n := s.nodes[i];
              if n.phase != Retry && !(n.phase == Top && n.running) then {}
              else if !s.notes.running then (if n.phase == Top && n.state == DEAD then {n.id} else {})
              else if |s.notes.items| == MAX_SAFE_QUEUE then Dead(s.notes.items[0])
              else {}
  {}

  lemma OthersLoseNothing(s: State, step: Step)
    requires Enabled(s, step) && !step.NodeStep? && !step.StopNom?
    ensures Apply(s, step).lost == s.lost
  {
    hide FindPort, PushAll, Parse, WireOf, SentCastOk, Admits, Admit, MarkPong, Replies, Survivors;
  }

  /** No notice has been lost iff no step so far lost one. */
  lemma {:induction false} LossOverRun(states: seq<State>, steps: seq<Step>, t: nat)
    requires IsRun(states, steps) && t < |states|
    ensures states[t].lost == {} <==> forall u :: 0 <= u < t ==> Loses(states[u], steps[u]) == {}
    decreases t
  {
    hide Loses, Apply;
    if t > 0 {
      LossOverRun(states, steps, t - 1);
      RunKeepsInv(states, steps, t - 1);
      LossPerStep(states[t - 1], steps[t - 1]);
    }
  }

  /** Draining leaves no dead entry behind iff no step so far lost a DEAD notice. */
  lemma AllBuriedIff(states: seq<State>, steps: seq<Step>, t: nat)
    requires IsRun(states, steps) && t < |states| && states[t].nomRunning
    ensures (forall i :: 0 <= i < |Drain(states[t]).nodes| ==> !Announced(Drain(states[t]).nodes[i]))
       <==> (forall u :: 0 <= u < t ==> Loses(states[u], steps[u]) == {})
  {
    hide IsRun, Loses, Drain, Announced;
    LossOverRun(states, steps, t);
    DrainBuriesTheDead(states, steps, t);
    NoneAnnounced(Drain(states[t]).nodes);
  }

  lemma NoneAnnounced(nodes: Nodes)
    ensures AnnouncedIds(nodes) == {} <==> forall i :: 0 <= i < |nodes| ==> !Announced(nodes[i])
  {
    hide Announced;
    forall i | 0 <= i < |nodes| && Announced(nodes[i])
      ensures nodes[i].id in AnnouncedIds(nodes)
    {
      assert nodes[i] in nodes;
    }
  }

  // ------------------------------------------------------------ that it happens

  function Last(states: seq<State>): State
    requires states != []
  {
    states[|states| - 1]
  }

  lemma Extend(states: seq<State>, steps: seq<Step>, step: Step) returns (states': seq<State>, steps': seq<Step>)
    requires IsRun(states, steps) && Enabled(Last(states), step)
    ensures IsRun(states', steps') && states' != [] && Last(states') == Apply(Last(states), step)
  {
    hide Apply, Enabled;
    states', steps' := states + [Apply(Last(states), step)], steps + [step];
  }

  /** The only node of a stopped NoM, hearing nothing, dies and its notice is refused. */
  lemma {:induction false} DiesUnheard(states: seq<State>, steps: seq<Step>)
    returns (states': seq<State>, steps': seq<Step>)
    requires IsRun(states, steps)
    requires var s := Last(states);
             && !s.nomRunning && |s.nodes| == 1 && Undead(s.nodes[0])
             && s.notes == Queue([], false) && s.noteHand == None
    ensures IsRun(states', steps') && states' != []
    ensures var s := Last(states');
            && !s.nomRunning && |s.nodes| == 1 && Announced(s.nodes[0])
            && s.notes == Queue([], false) && s.noteHand == None
    decreases Fuse(Last(states).nodes[0])
  {
    var s := Last(states);
    hide IsRun, Undead, Announced, Fuse;
    var step := NodeStep(0, 0, Zeros(STAMP_LENGTH));
    FuseBurns(s.nodes[0]);
    NotExited(s.nodes[0]);
    states', steps' := Extend(states, steps, step);
    UnheardStep(s);
    if !Announced(Next(s.nodes[0], 0)) {
      states', steps' := DiesUnheard(states', steps');
    }
  }

  lemma NotExited(n: NodeVal)
    requires Undead(n)
    ensures n.phase != Exited
  {
    hide NodeOk;
    AnnouncedPhase(n);
  }

  lemma UnheardStep(s: State)
    requires |s.nodes| == 1 && s.notes == Queue([], false) && s.nodes[0].phase != Exited
    ensures var step := NodeStep(0, 0, Zeros(STAMP_LENGTH));
            var s' := Apply(s, step);
            && Enabled(s, step) && s'.nodes == [Next(s.nodes[0], 0)] && s'.notes == s.notes
            && s'.noteHand == s.noteHand && s'.nomRunning == s.nomRunning
  {
    hide Next, Sends, Zeros;
  }

  /** A registered node that NoM, stopped meanwhile, will never remove: NoM runs again, nothing is
      left to handle, and the dead entry is still there. */
  lemma DeathCanBeLost() returns (states: seq<State>, steps: seq<Step>)
    ensures IsRun(states, steps) && states != []
    ensures var s := Last(states);
            && s.nomRunning && Pending(s) == [] && |s.nodes| == 1
            && Announced(s.nodes[0]) && s.nodes[0].id in s.lost
  {
    hide IsRun, Announced;
    states, steps := OneNodeThenStop();
    states, steps := DiesUnheard(states, steps);
    var s := Last(states);
    DeathsBalance(states, steps, |states| - 1, 0);
    assert Pending(s) == [];
    assert forall k :: !NoticeAt(Pending(s), s.nodes[0].id, k);
    states, steps := Extend(states, steps, StartNom);
  }

  /** Start everything, register one node, stop NoM. */
  lemma OneNodeThenStop() returns (states: seq<State>, steps: seq<Step>)
    ensures IsRun(states, steps) && states != []
    ensures var s := Last(states);
            && !s.nomRunning && |s.nodes| == 1 && Undead(s.nodes[0])
            && s.notes == Queue([], false) && s.noteHand == None
  {
    var addr := Addr(0, 1);
    var p := RegisterPacket(REGISTER, 3, [], addr, OAM);
    var buf: Buffer := [REGISTER, 3, OAM] + Zeros(253);
    assert Parse(buf, addr) == Some(p) by {
      assert Payload(buf, 3) == [];
    }
    NewbornOk(1, addr, OAM);
    states, steps := [INITIAL], [];
    assert IsRun(states, steps);
    hide IsRun, Parse, NodeOk, Announced;
    states, steps := Extend(states, steps, StartIo);
    states, steps := Extend(states, steps, StartNom);
    states, steps := Extend(states, steps, Receive(buf, addr));
    assert Last(states).inbox == Queue([p], true);
    states, steps := Extend(states, steps, TakePacket);
    states, steps := Extend(states, steps, HandlePacket);
    assert Last(states).nodes == [Newborn(1, addr, OAM)];
    states, steps := Extend(states, steps, StopNom);
  }
}
