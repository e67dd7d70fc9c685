/** NodeBase as the class of the source, its four state handlers and its thread loop, proved against
    the steps of `Node`. What other threads do while a handler waits is read off a script, one beat a
    window; when the script is used up nobody answers. */
module NodeThread {
  import opened Types
  import opened SafeQueue
  import opened Node
  import opened NodeLife
  import opened NodeHistory
  import opened Registry

  // ------------------------------------------------------------ the handlers as step sequences

  function FirstBeat(script: seq<Beat>): Beat {
    if script == [] then Beat(Expired, 0) else script[0]
  }

  function RestOf(script: seq<Beat>): seq<Beat> {
    if script == [] then [] else script[1..]
  }

  /** The static counter and the time stamp a node finds at each push of its life. */
  type Ctxs = nat -> Ctx

  /** The node, the unused script and the messages pushed when a handler returns. */
  datatype Turn = Turn(node: NodeVal, rest: seq<Beat>, sent: seq<Msg>)

  function StepsLeft(n: NodeVal): nat {
    var tries := if n.retry < RETRY_NUM then RETRY_NUM - n.retry else 0;
    match n.phase
    case Waiting => if n.state == TIMEOUT then 2 * tries + 2 else 2
    case Retry => 2 * tries + 3
    case Sleeping => 1
    case DeadPushed => 2
    case DeadReset => 1
    case _ => 0
  }

  /** The thread's steps until its handler has returned. */
  function Finish(n: NodeVal, script: seq<Beat>, ctx: Ctxs): Turn
    decreases StepsLeft(n)
  {
    match n.phase
    case Top => Turn(n, script, [])
    case Exited => Turn(n, script, [])
    case Waiting =>
      var b := FirstBeat(script);
      Finish(Next(Env(n, b.outcome), b.delay), RestOf(script), ctx)
    case _ =>
      var t := Finish(Next(n, 0), script, ctx);
      t.(sent := Sends(n, ctx(|n.log|)) + t.sent)
  }

  /** One call of handleState. */
  function Handle(n: NodeVal, script: seq<Beat>, ctx: Ctxs): Turn {
    var t := Finish(Next(n, 0), script, ctx);
    t.(sent := Sends(n, ctx(|n.log|)) + t.sent)
  }

  function Dread(n: NodeVal): nat {
    if !n.running then 0 else match n.state case DEAD => 1 case TIMEOUT => 2 case _ => 3
  }

  predicate Ready(n: NodeVal) {
    n.phase == Top && n.running
  }

  lemma {:induction false} FinishShrinks(n: NodeVal, script: seq<Beat>, ctx: Ctxs)
    ensures var t := Finish(n, script, ctx);
            && (t.node.phase == Top || t.node.phase == Exited) && |t.rest| <= |script|
            && (n.phase != Exited ==> t.node.phase == Top)
    decreases StepsLeft(n)
  {
    match n.phase
    case Top =>
    case Exited =>
    case Waiting =>
      var b := FirstBeat(script);
      FinishShrinks(Next(Env(n, b.outcome), b.delay), RestOf(script), ctx);
    case _ =>
      FinishShrinks(Next(n, 0), script, ctx);
  }

  /** With the script used up, TIMEOUT's loop runs out of retries. */
  lemma {:induction false} RetriesRunOut(n: NodeVal, ctx: Ctxs)
    requires n.state == TIMEOUT && n.phase == Retry && n.running
    ensures var t := Finish(n, [], ctx);
            t.node.state == DEAD && t.node.phase == Top && t.rest == []
    decreases RETRY_NUM - n.retry
  {
    var w := Next(n, 0);
    var c := Next(w, 0);
    assert Finish(n, [], ctx).node == Finish(w, [], ctx).node == Finish(c, [], ctx).node;
    assert Finish(n, [], ctx).rest == Finish(w, [], ctx).rest == Finish(c, [], ctx).rest;
    if n.retry + 1 < RETRY_NUM {
      RetriesRunOut(c, ctx);
    }
  }

  /** Every handler uses up a beat or brings the node nearer its end. */
  lemma HandleProgress(n: NodeVal, script: seq<Beat>, ctx: Ctxs)
    requires Ready(n)
    ensures var t := Handle(n, script, ctx);
            && t.node.phase == Top
            && (|t.rest| < |script| || (t.rest == script && Dread(t.node) < Dread(n)))
  {
    var m := Next(n, 0);
    FinishShrinks(m, script, ctx);
    if n.state == DEAD {
      var r := Next(m, 0);
      assert Finish(m, script, ctx).node == Finish(r, script, ctx).node == Next(r, 0);
      assert Finish(m, script, ctx).rest == Finish(r, script, ctx).rest == script;
    } else if script == [] {
      if n.state == TIMEOUT {
        RetriesRunOut(m, ctx);
      } else {
        assert Finish(m, [], ctx) == Finish(Next(m, 0), [], ctx);
      }
    } else {
      var w := if n.state == TIMEOUT then Next(m, 0) else m;
      var b := FirstBeat(script);
      assert Finish(m, script, ctx).rest == Finish(w, script, ctx).rest;
      FinishShrinks(Next(Env(w, b.outcome), b.delay), RestOf(script), ctx);
    }
  }

  /** handleThread from the head of its loop until the thread ends. */
  function Life(n: NodeVal, script: seq<Beat>, ctx: Ctxs): Turn
    requires n.phase == Top
    decreases |script|, Dread(n)
  {
    if !n.running then Turn(Next(n, 0), script, [])
    else
      var t := Handle(n, script, ctx);
      HandleProgress(n, script, ctx);
      var l := Life(t.node, t.rest, ctx);
      l.(sent := t.sent + l.sent)
  }

  // ------------------------------------------------------------ what is sent is what is logged

  /** Message `m` is what node `n` sends for a note in circumstances `c`. */
  predicate MessageFor(m: Msg, note: Note, n: NodeVal, c: Ctx) {
    && m.emitter == n.id && m.addr == n.addr && m.typeNode == n.typeNode
    && match note
       case PingNote => m.messageType == 0 && m.nodeId == c.counter && m.text == [80, 105, 110, 103]
       case TimeoutNote =>
         && m.messageType == 1 && m.nodeId == n.id && m.state == TIMEOUT
         && m.text == [84, 105, 109, 101, 111, 117, 116, 32] + c.stamp
       case DeadNote => m.messageType == 1 && m.nodeId == n.id && m.state == DEAD && m.text == c.stamp
  }

  /** From `n` to `m`, the log grew by one note for each message in `sent`, in order. */
  ghost predicate Logged(n: NodeVal, m: NodeVal, sent: seq<Msg>, ctx: Ctxs) {
    && m.id == n.id && m.addr == n.addr && m.typeNode == n.typeNode
    && |m.log| == |n.log| + |sent| && n.log <= m.log
    && forall k :: 0 <= k < |sent| ==> MessageFor(sent[k], m.log[|n.log| + k], n, ctx(|n.log| + k))
  }

  lemma LoggedStep(n: NodeVal, delay: nat, ctx: Ctxs)
    ensures Logged(n, Next(n, delay), Sends(n, ctx(|n.log|)), ctx)
  {
    hide CloseWindow;
    LogIsWhatIsSent(n, ctx(|n.log|), delay);
    assert n.phase == Waiting ==> Next(n, delay) == CloseWindow(n, delay);
    CloseLogs(n, delay);
  }

  lemma CloseLogs(n: NodeVal, delay: nat)
    ensures var m := CloseWindow(n, delay);
            m.id == n.id && m.addr == n.addr && m.typeNode == n.typeNode && m.log == n.log
  {}

  lemma LoggedJoin(n: NodeVal, m: NodeVal, o: NodeVal, a: seq<Msg>, b: seq<Msg>, ctx: Ctxs)
    requires Logged(n, m, a, ctx) && Logged(m, o, b, ctx)
    ensures Logged(n, o, a + b, ctx)
  {
    hide MessageFor;
    forall k | 0 <= k < |a + b|
      ensures MessageFor((a + b)[k], o.log[|n.log| + k], n, ctx(|n.log| + k))
    {
      if k < |a| {
        assert o.log[|n.log| + k] == m.log[|n.log| + k];
      } else {
        assert MessageFor(b[k - |a|], o.log[|m.log| + (k - |a|)], m, ctx(|m.log| + (k - |a|)));
        MessageSame((a + b)[k], o.log[|n.log| + k], m, n, ctx(|n.log| + k));
      }
    }
  }

  lemma MessageSame(m: Msg, note: Note, a: NodeVal, b: NodeVal, c: Ctx)
    requires MessageFor(m, note, a, c) && a.id == b.id && a.addr == b.addr && a.typeNode == b.typeNode
    ensures MessageFor(m, note, b, c)
  {}

  lemma EnvLogs(n: NodeVal, o: Outcome)
    ensures var m := Env(n, o); m.id == n.id && m.addr == n.addr && m.typeNode == n.typeNode && m.log == n.log
    ensures n.phase == Waiting ==> Env(n, o).phase == Waiting
  {}

  lemma {:induction false} FinishLogs(n: NodeVal, script: seq<Beat>, ctx: Ctxs)
    ensures Logged(n, Finish(n, script, ctx).node, Finish(n, script, ctx).sent, ctx)
    decreases StepsLeft(n)
  {
    hide Next, Sends, Logged, Env;
    if n.phase == Waiting {
      var e, b := Env(n, FirstBeat(script).outcome), FirstBeat(script);
      EnvLogs(n, b.outcome);
      LoggedStep(e, b.delay, ctx);
      NothingSentWaiting(e, ctx(|e.log|));
      FinishDescends(n, b.outcome, b.delay);
      FinishLogs(Next(e, b.delay), RestOf(script), ctx);
      var t := Finish(Next(e, b.delay), RestOf(script), ctx);
      assert Sends(e, ctx(|e.log|)) + t.sent == t.sent;
      LoggedJoin(e, Next(e, b.delay), t.node, Sends(e, ctx(|e.log|)), t.sent, ctx);
      LoggedFrom(n, e, t.node, t.sent, ctx);
    } else if n.phase != Top && n.phase != Exited {
      LoggedStep(n, 0, ctx);
      FinishDescends(n, Expired, 0);
      FinishLogs(Next(n, 0), script, ctx);
      var t := Finish(Next(n, 0), script, ctx);
      LoggedJoin(n, Next(n, 0), t.node, Sends(n, ctx(|n.log|)), t.sent, ctx);
    } else {
      LoggedNothing(n, ctx);
    }
  }

  lemma LoggedNothing(n: NodeVal, ctx: Ctxs)
    ensures Logged(n, n, [], ctx)
  {}

  lemma NothingSentWaiting(n: NodeVal, c: Ctx)
    requires n.phase == Waiting
    ensures Sends(n, c) == []
  {}

  lemma LoggedFrom(n: NodeVal, e: NodeVal, o: NodeVal, sent: seq<Msg>, ctx: Ctxs)
    requires e.id == n.id && e.addr == n.addr && e.typeNode == n.typeNode && e.log == n.log
    requires Logged(e, o, sent, ctx)
    ensures Logged(n, o, sent, ctx)
  {}

  /** A handler, and a whole life, sends exactly what it logs: one message a note, in order, each with the
      node's identity, address and type, and with the counter and the time it found. */
  lemma {:induction false} LifeSendsItsLog(n: NodeVal, script: seq<Beat>, ctx: Ctxs)
    requires n.phase == Top
    ensures Logged(n, Life(n, script, ctx).node, Life(n, script, ctx).sent, ctx)
    decreases |script|, Dread(n)
  {
    hide Finish, Next, Sends, Logged;
    LoggedStep(n, 0, ctx);
    if n.running {
      FinishLogs(Next(n, 0), script, ctx);
      HandleProgress(n, script, ctx);
      var t := Handle(n, script, ctx);
      HandleLogs(n, script, ctx);
      LifeSendsItsLog(t.node, t.rest, ctx);
      var l := Life(t.node, t.rest, ctx);
      LoggedJoin(n, t.node, l.node, t.sent, l.sent, ctx);
    } else {
      ExitSends(n, ctx(|n.log|));
    }
  }

  lemma ExitSends(n: NodeVal, c: Ctx)
    requires n.phase == Top && !n.running
    ensures Sends(n, c) == []
  {}

  lemma HandleLogs(n: NodeVal, script: seq<Beat>, ctx: Ctxs)
    ensures Logged(n, Handle(n, script, ctx).node, Handle(n, script, ctx).sent, ctx)
  {
    hide Finish, Next, Sends, Logged;
    LoggedStep(n, 0, ctx);
    FinishLogs(Next(n, 0), script, ctx);
    var t := Finish(Next(n, 0), script, ctx);
    LoggedJoin(n, Next(n, 0), t.node, Sends(n, ctx(|n.log|)), t.sent, ctx);
  }

  // ------------------------------------------------------------ every life ends in death

  ghost predicate NoStop(script: seq<Beat>) {
    forall b :: b in script ==> b.outcome != Stopped && b.delay <= TIMEOUT_PERIODS
  }

  lemma {:induction false} FinishKeepsOk(n: NodeVal, script: seq<Beat>, ctx: Ctxs)
    requires NodeOk(n) && NoStop(script) && (n.running || Announced(n))
    ensures var t := Finish(n, script, ctx);
            NodeOk(t.node) && NoStop(t.rest) && (t.node.running || Announced(t.node))
    decreases StepsLeft(n)
  {
    hide NodeOk, Announced, Next, Sends;
    if n.phase == Waiting {
      var b := FirstBeat(script);
      assert b.outcome != Stopped && b.delay <= TIMEOUT_PERIODS;
      HeardKeepsOk(n);
      KeepsGoing(Env(n, b.outcome), b.delay) by {
        EnvKeeps(n, b.outcome);
      }
      assert StepsLeft(Next(Env(n, b.outcome), b.delay)) < StepsLeft(n) by {
        FinishDescends(n, b.outcome, b.delay);
      }
      FinishKeepsOk(Next(Env(n, b.outcome), b.delay), RestOf(script), ctx);
    } else if n.phase != Top && n.phase != Exited {
      KeepsGoing(n, 0);
      FinishDescends(n, Expired, 0);
      FinishKeepsOk(Next(n, 0), script, ctx);
    }
  }

  lemma EnvKeeps(n: NodeVal, o: Outcome)
    requires NodeOk(n) && (n.running || Announced(n)) && o != Stopped
    ensures var m := Env(n, o); NodeOk(m) && (m.running || Announced(m))
  {
    hide NodeOk;
    HeardKeepsOk(n);
  }

  lemma FinishDescends(n: NodeVal, o: Outcome, delay: nat)
    requires n.phase != Top && n.phase != Exited
    ensures StepsLeft(Next(if n.phase == Waiting then Env(n, o) else n, delay)) < StepsLeft(n)
  {}

  lemma KeepsGoing(n: NodeVal, delay: nat)
    requires NodeOk(n) && (n.running || Announced(n)) && delay <= TIMEOUT_PERIODS
    ensures var m := Next(n, delay); NodeOk(m) && (m.running || Announced(m))
  {
    hide NodeOk, Announced;
    NextKeepsOk(n, delay);
    AnnouncedPhase(n);
    SendsBeforeDeath(n, Ctx(0, []), delay);
  }

  /** However its windows go, a node that nobody stops ends with its DEAD notice pushed and its
      messages in the order of the grammar. */
  lemma {:induction false} LifeEndsInDeath(n: NodeVal, script: seq<Beat>, ctx: Ctxs)
    requires NodeOk(n) && n.phase == Top && (n.running || Announced(n)) && NoStop(script)
    ensures var e := Life(n, script, ctx).node;
            NodeOk(e) && e.phase == Exited && Announced(e) && Legal(e.log)
    decreases |script|, Dread(n)
  {
    hide NodeOk, Announced, Finish, Legal, Next;
    if n.running {
      KeepsGoing(n, 0);
      FinishKeepsOk(Next(n, 0), script, ctx);
      var t := Handle(n, script, ctx);
      HandleProgress(n, script, ctx);
      LifeEndsInDeath(t.node, t.rest, ctx);
    } else {
      KeepsGoing(n, 0);
      LastStep(n);
      MessagesObeyGrammar(Next(n, 0));
    }
  }

  lemma LastStep(n: NodeVal)
    requires n.phase == Top && !n.running
    ensures Next(n, 0) == n.(phase := Exited) && Announced(Next(n, 0)) == Announced(n)
  {}

  // ------------------------------------------------------------ one handler, spelled out

  /** The record a window leaves on a node it happened to. */
  function Marked(e: NodeVal, delay: nat): NodeVal {
    var o := OutcomeOf(e);
    var t := e.pingAt + (if o == Expired then TIMEOUT_PERIODS else delay);
    e.(wins := e.wins + [Window(o, e.pingAt, t)], now := t)
  }

  /** The node when a window that `o` happened to has closed. */
  function Closed(w: NodeVal, b: Beat): NodeVal {
    Next(Env(w, b.outcome), b.delay)
  }

  /** The node once a sleep, if any, is over. */
  function Awake(c: NodeVal): NodeVal {
    if c.phase == Sleeping then Next(c, 0) else c
  }

  /** INIT and ALIVE: one ping, one window. */
  lemma HandleOneWindow(n: NodeVal, script: seq<Beat>, ctx: Ctxs)
    requires Ready(n) && (n.state == INIT || n.state == ALIVE)
    ensures Handle(n, script, ctx)
         == Turn(Awake(Closed(OpenWindow(n), FirstBeat(script))), RestOf(script), [PingMsg(n, ctx(|n.log|))])
  {
    var w, b := OpenWindow(n), FirstBeat(script);
    var c := Closed(w, b);
    assert Next(n, 0) == w;
    assert Finish(w, script, ctx) == Finish(c, RestOf(script), ctx);
    if c.phase == Sleeping {
      assert Finish(c, RestOf(script), ctx).node == Next(c, 0);
    }
  }

  lemma HandleDeath(n: NodeVal, script: seq<Beat>, ctx: Ctxs)
    requires Ready(n) && n.state == DEAD
    ensures Handle(n, script, ctx) ==
              Turn(n.(log := n.log + [DeadNote], state := ChangeState(DEAD, INIT), running := false),
                   script, [DeadMsg(n, ctx(|n.log|))])
  {
    var a := Next(n, 0);
    var b := Next(a, 0);
    assert Finish(a, script, ctx) == Finish(b, script, ctx);
  }

  function Join(sent: seq<Msg>, t: Turn): Turn {
    t.(sent := sent + t.sent)
  }

  /** From here, having pushed `sent`, the handler will return as `goal` says. */
  ghost predicate OnTrack(goal: Turn, n: NodeVal, script: seq<Beat>, ctx: Ctxs, sent: seq<Msg>) {
    Join(sent, Finish(n, script, ctx)) == goal
  }

  /** One retry of TIMEOUT, by outcome; `c` is the node when its window has ended. */
  lemma RetryOnce(goal: Turn, n: NodeVal, script: seq<Beat>, ctx: Ctxs, sent: seq<Msg>)
    requires n.phase == Retry && n.state == TIMEOUT && n.retry < RETRY_NUM && OnTrack(goal, n, script, ctx, sent)
    ensures var rest, sent' := RestOf(script), sent + [PingMsg(n, ctx(|n.log|))];
            var e := Env(OpenWindow(n), FirstBeat(script).outcome);
            var c := Marked(e, FirstBeat(script).delay);
            && c.state == TIMEOUT && c.retry == n.retry
            && (OutcomeOf(e) == Expired <==> c.running && !c.pong)
            && (!c.running ==>
                  Turn(c.(phase := Top, state := ChangeState(TIMEOUT, INIT)), rest, sent') == goal)
            && (c.running && c.pong ==>
                  Turn(c.(phase := Top, state := ChangeState(TIMEOUT, ALIVE), now := c.now + TIMESEND_PING),
                       rest, sent') == goal)
            && (c.running && !c.pong && n.retry + 1 < RETRY_NUM ==>
                  OnTrack(goal, c.(phase := Retry, retry := n.retry + 1), rest, ctx, sent'))
            && (c.running && !c.pong && n.retry + 1 == RETRY_NUM ==>
                  Turn(c.(phase := Top, retry := RETRY_NUM, state := ChangeState(TIMEOUT, DEAD)), rest, sent') == goal)
  {
    hide Closed, OpenWindow, Next, Env, Marked;
    RetryCloses(n, FirstBeat(script));
    RetryGoesOn(n, script, ctx, sent);
    var c, sent' := Closed(OpenWindow(n), FirstBeat(script)), sent + [PingMsg(n, ctx(|n.log|))];
    assert sent' + [] == sent';
    if c.phase == Sleeping {
      WakesUp(c, RestOf(script), ctx);
    }
  }

  lemma WakesUp(c: NodeVal, script: seq<Beat>, ctx: Ctxs)
    requires c.phase == Sleeping
    ensures Finish(c, script, ctx) == Turn(c.(phase := Top, now := c.now + TIMESEND_PING), script, [])
  {}

  lemma RetryGoesOn(n: NodeVal, script: seq<Beat>, ctx: Ctxs, sent: seq<Msg>)
    requires n.phase == Retry
    ensures Join(sent, Finish(n, script, ctx))
         == Join(sent + [PingMsg(n, ctx(|n.log|))],
                 Finish(Closed(OpenWindow(n), FirstBeat(script)), RestOf(script), ctx))
  {
    var w := OpenWindow(n);
    assert Next(n, 0) == w;
    assert Finish(w, script, ctx) == Finish(Closed(w, FirstBeat(script)), RestOf(script), ctx);
    var t := Finish(w, script, ctx);
    assert sent + ([PingMsg(n, ctx(|n.log|))] + t.sent) == sent + [PingMsg(n, ctx(|n.log|))] + t.sent;
  }

  lemma RetryCloses(n: NodeVal, b: Beat)
    requires n.phase == Retry && n.state == TIMEOUT && n.retry < RETRY_NUM
    ensures var e := Env(OpenWindow(n), b.outcome);
            var c, d := Marked(e, b.delay), Closed(OpenWindow(n), b);
            && c.state == TIMEOUT && c.retry == n.retry && (OutcomeOf(e) == Expired <==> c.running && !c.pong)
            && d == if !c.running then c.(phase := Top, state := ChangeState(TIMEOUT, INIT))
                    else if c.pong then c.(phase := Sleeping, state := ChangeState(TIMEOUT, ALIVE))
                    else if n.retry + 1 < RETRY_NUM then c.(phase := Retry, retry := n.retry + 1)
                    else c.(phase := Top, retry := RETRY_NUM, state := ChangeState(TIMEOUT, DEAD))
  {}

  lemma TimeoutStarts(n: NodeVal, script: seq<Beat>, ctx: Ctxs)
    requires Ready(n) && n.state == TIMEOUT
    ensures OnTrack(Handle(n, script, ctx),
                    n.(phase := Retry, retry := 0, log := n.log + [TimeoutNote]), script, ctx,
                    [TimeoutMsg(n, ctx(|n.log|))])
  {}

  lemma LifeStarts(n: NodeVal, script: seq<Beat>, ctx: Ctxs)
    requires n.phase == Top
    ensures Join([], Life(n, script, ctx)) == Life(n, script, ctx)
  {
    hide Life;
    assert [] + Life(n, script, ctx).sent == Life(n, script, ctx).sent;
  }

  lemma LifeTurn(n: NodeVal, script: seq<Beat>, ctx: Ctxs, sent: seq<Msg>)
    requires Ready(n)
    ensures var t := Handle(n, script, ctx);
            t.node.phase == Top &&
            Join(sent, Life(n, script, ctx)) == Join(sent + t.sent, Life(t.node, t.rest, ctx))
  {
    hide Handle;
    var t := Handle(n, script, ctx);
    HandleProgress(n, script, ctx);
    var l := Life(t.node, t.rest, ctx);
    assert sent + (t.sent + l.sent) == sent + t.sent + l.sent;
  }

  // ------------------------------------------------------------ the class

  class NodeBase {
    const objectNodeId: nat
    const typeNode: byte
    var clientAddr: Addr
    var state: NodeState
    var pongState: bool
    var running: bool
    var clock: nat            // ideal milliseconds since the thread started
    var log: seq<Note>        // what it has pushed: its length tells a push which `Ctx` it finds
    ghost var phase: Phase    // where the thread is, and its history
    ghost var retry: nat
    ghost var pingAt: nat
    ghost var wins: seq<Window>

    ghost function View(): NodeVal
      reads this
    {
      NodeVal(objectNodeId, clientAddr, typeNode, state, retry, pongState, running, phase, clock, pingAt, wins, log)
    }

    constructor (id: nat, typeNode: byte, addr: Addr)
      ensures View() == NodeVal(id, addr, typeNode, INIT, 0, false, false, Top, 0, 0, [], [])
    {
      objectNodeId, this.typeNode, clientAddr := id, typeNode, addr;
      state, pongState, running, clock := INIT, false, false, 0;
      phase, retry, pingAt, wins, log := Top, 0, 0, [], [];
    }

    method Start()
      requires phase == Top
      modifies this`running, this`state
      ensures View() == if old(running) then old(View()) else old(View()).(running := true, state := INIT)
    {
      if !running {
        running := true;
        state := INIT;
      }
    }

    method Stop()
      modifies this`running
      ensures View() == Halted(old(View()))
    {
      if running {
        running := false;
      }
    }

    method SetPongState(flag: bool)
      modifies this`pongState
      ensures View() == old(View()).(pong := flag)
    {
      pongState := flag;
    }

    method RequestState(target: NodeState)
      modifies this`state
      ensures View() == old(View()).(state := ChangeState(old(state), target))
    {
      if STATE_CHANGE_TABLE[state.Code()][target.Code()] {
        state := target;
      }
    }

    /** setPongState(false) and sendPing: the ping window opens. */
    method Ping(messages: ThreadSafeQueue<Msg>, ctx: Ctxs)
      modifies this, messages
      ensures View() == OpenWindow(old(View()))
      ensures messages.View() == old(messages.View()).Push(PingMsg(old(View()), ctx(old(|log|))), true)
    {
      SetPongState(false);
      messages.Push(Msg(objectNodeId, ctx(|log|).counter, typeNode, state, 0, PING_TEXT, clientAddr), true);
      phase, pingAt, log := Waiting, clock, log + [PingNote];
    }

    /** m_cv.wait_for with the pong and stop predicate: false exactly when the time ran out. */
    method WaitFor(script: seq<Beat>) returns (notified: bool, rest: seq<Beat>)
      requires clock == pingAt
      modifies this`pongState, this`running, this`clock, this`wins
      ensures var e := Env(old(View()), FirstBeat(script).outcome);
              notified == (OutcomeOf(e) != Expired) && View() == Marked(e, FirstBeat(script).delay)
      ensures rest == RestOf(script)
    {
      var b := FirstBeat(script);
      rest := RestOf(script);
      match b.outcome {
        case Answered => SetPongState(true);
        case Stopped => Stop();
        case Expired =>
      }
      notified := pongState || !running;
      clock := clock + (if notified then b.delay else TIMEOUT_PERIODS);
      wins := wins + [Window(OutcomeOf(View()), pingAt, clock)];
    }

    /** The window every handler opens: clear the flag, push the ping, wait. */
    method PingAndWait(messages: ThreadSafeQueue<Msg>, script: seq<Beat>, ctx: Ctxs)
      returns (notified: bool, rest: seq<Beat>)
      modifies this, messages
      ensures var e := Env(OpenWindow(old(View())), FirstBeat(script).outcome);
              notified == (OutcomeOf(e) != Expired) && View() == Marked(e, FirstBeat(script).delay)
      ensures rest == RestOf(script)
      ensures messages.View() == old(messages.View()).Push(PingMsg(old(View()), ctx(old(|log|))), true)
    {
      Ping(messages, ctx);
      notified, rest := WaitFor(script);
    }

    /** InitState::handleState */
    method HandleInit(messages: ThreadSafeQueue<Msg>, script: seq<Beat>, ctx: Ctxs) returns (rest: seq<Beat>)
      requires Ready(View()) && state == INIT
      modifies this, messages
      ensures var t := Handle(old(View()), script, ctx);
              View() == t.node && rest == t.rest && messages.View() == PushAll(old(messages.View()), t.sent)
    {
      HandleOneWindow(View(), script, ctx);
      PushOne(messages.View(), PingMsg(View(), ctx(|log|)));
      var notified;
      notified, rest := PingAndWait(messages, script, ctx);
      if notified {
        if !running {
          phase := Top;
          return;
        }
        RequestState(ALIVE);
        phase := Top;
      } else {
        RequestState(TIMEOUT);
        phase := Top;
      }
    }

    /** AliveState::handleState */
    method HandleAlive(messages: ThreadSafeQueue<Msg>, script: seq<Beat>, ctx: Ctxs) returns (rest: seq<Beat>)
      requires Ready(View()) && state == ALIVE
      modifies this, messages
      ensures var t := Handle(old(View()), script, ctx);
              View() == t.node && rest == t.rest && messages.View() == PushAll(old(messages.View()), t.sent)
    {
      HandleOneWindow(View(), script, ctx);
      PushOne(messages.View(), PingMsg(View(), ctx(|log|)));
      var notified;
      notified, rest := PingAndWait(messages, script, ctx);
      if notified {
        if !running {
          RequestState(INIT);
          phase := Top;
          return;
        }
        phase := Top;
        clock := clock + TIMESEND_PING;
      } else {
        RequestState(TIMEOUT);
        phase := Top;
      }
    }

    /** One pass of TIMEOUT's retry loop; `back` is true if the handler returns from inside it. */
    method RetryPass(messages: ThreadSafeQueue<Msg>, script: seq<Beat>, ctx: Ctxs,
                     ghost goal: Turn, ghost sent: seq<Msg>)
      returns (back: bool, rest: seq<Beat>)
      requires phase == Retry && state == TIMEOUT && retry < RETRY_NUM && OnTrack(goal, View(), script, ctx, sent)
      modifies this, messages
      ensures messages.View() == old(messages.View()).Push(PingMsg(old(View()), ctx(old(|log|))), true)
      ensures var sent' := sent + [PingMsg(old(View()), ctx(old(|log|)))];
              if back then Turn(View(), rest, sent') == goal
              else
                && state == TIMEOUT && retry == old(retry) + 1
                && (retry < RETRY_NUM ==> phase == Retry && OnTrack(goal, View(), rest, ctx, sent'))
                && (retry == RETRY_NUM ==> Turn(View().(state := ChangeState(TIMEOUT, DEAD)), rest, sent') == goal)
    {
      hide Env, FirstBeat, RestOf, OpenWindow, Marked, OutcomeOf, OnTrack, ChangeState;
      RetryOnce(goal, View(), script, ctx, sent);
      var notified;
      notified, rest := PingAndWait(messages, script, ctx);
      if notified {
        if !running {
          RequestState(INIT);
          phase := Top;
          return true, rest;
        }
        RequestState(ALIVE);
        phase := Top;
        clock := clock + TIMESEND_PING;
        return true, rest;
      }
      retry := retry + 1;
      phase := if retry < RETRY_NUM then Retry else Top;
      back := false;
    }

    /** TimeoutState::handleState */
    method HandleTimeout(messages: ThreadSafeQueue<Msg>, script: seq<Beat>, ctx: Ctxs) returns (rest: seq<Beat>)
      requires Ready(View()) && state == TIMEOUT
      modifies this, messages
      ensures var t := Handle(old(View()), script, ctx);
              View() == t.node && rest == t.rest && messages.View() == PushAll(old(messages.View()), t.sent)
    {
      TimeoutStarts(View(), script, ctx);
      hide Handle, PushAll, OnTrack, ChangeState;
      ghost var goal := Handle(View(), script, ctx);
      ghost var sent := [TimeoutMsg(View(), ctx(|log|))];
      PushOne(messages.View(), TimeoutMsg(View(), ctx(|log|)));
      var text := TIMEOUT_TEXT + ctx(|log|).stamp;
      messages.Push(Msg(objectNodeId, objectNodeId, typeNode, state, 1, text, clientAddr), true);
      phase, retry, log := Retry, 0, log + [TimeoutNote];
      rest := script;
      var retryTime: byte := 0;
      while retryTime < RETRY_NUM
        invariant retryTime <= RETRY_NUM && retry == retryTime && state == TIMEOUT
        invariant retryTime < RETRY_NUM ==> phase == Retry && OnTrack(goal, View(), rest, ctx, sent)
        invariant retryTime == RETRY_NUM ==>
                    Turn(View().(state := ChangeState(TIMEOUT, DEAD)), rest, sent) == goal
        invariant messages.View() == PushAll(old(messages.View()), sent)
      {
        ghost var m := PingMsg(View(), ctx(|log|));
        PushAllLast(old(messages.View()), sent, m);
        var back;
        back, rest := RetryPass(messages, rest, ctx, goal, sent);
        sent := sent + [m];
        if back {
          return;
        }
        retryTime := retryTime + 1;
      }
      if retryTime == RETRY_NUM {
        RequestState(DEAD);
      }
    }

    /** DeadState::handleState */
    method HandleDead(messages: ThreadSafeQueue<Msg>, script: seq<Beat>, ctx: Ctxs) returns (rest: seq<Beat>)
      requires Ready(View()) && state == DEAD
      modifies this, messages
      ensures var t := Handle(old(View()), script, ctx);
              View() == t.node && rest == t.rest && messages.View() == PushAll(old(messages.View()), t.sent)
    {
      HandleDeath(View(), script, ctx);
      PushOne(messages.View(), DeadMsg(View(), ctx(|log|)));
      messages.Push(Msg(objectNodeId, objectNodeId, typeNode, state, 1, ctx(|log|).stamp, clientAddr), true);
      log := log + [DeadNote];
      RequestState(INIT);
      Stop();
      rest := script;
    }

    /** handleThread */
    method HandleThread(messages: ThreadSafeQueue<Msg>, script: seq<Beat>, ctx: Ctxs)
      requires phase == Top
      modifies this, messages
      ensures var t := Life(old(View()), script, ctx);
              View() == t.node && messages.View() == PushAll(old(messages.View()), t.sent)
    {
      hide Handle;
      ghost var sent: seq<Msg> := [];
      var rest := script;
      LifeStarts(View(), script, ctx);
      while running
        invariant phase == Top
        invariant Join(sent, Life(View(), rest, ctx)) == Life(old(View()), script, ctx)
        invariant messages.View() == PushAll(old(messages.View()), sent)
        decreases |rest|, Dread(View())
      {
        ghost var t := Handle(View(), rest, ctx);
        HandleProgress(View(), rest, ctx);
        LifeTurn(View(), rest, ctx, sent);
        PushAllJoin(old(messages.View()), sent, t.sent);
        match state {
          case INIT => rest := HandleInit(messages, rest, ctx);
          case ALIVE => rest := HandleAlive(messages, rest, ctx);
          case TIMEOUT => rest := HandleTimeout(messages, rest, ctx);
          case DEAD => rest := HandleDead(messages, rest, ctx);
        }
        sent := sent + t.sent;
      }
      assert sent + [] == sent;
      phase := Exited;
    }
  }
}
