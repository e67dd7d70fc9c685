/** One monitored node as its thread and its mutex-guarded fields (source/node_service/NodeBase.cpp).
    `Next` is one atomic step of the thread; `Heard` and `Stopped` are what other threads do to the
    node. The fields from `pingAt` on are history: no step reads `wins` or `log`. */
module Node {
  import opened Types

  /** g_stateChangeTable: row is the current state, column the requested one. */
  const STATE_CHANGE_TABLE: seq<seq<bool>> :=
    [[false, true, true, false],
     [false, false, true, false],
     [false, true, false, true],
     [true, false, false, false]]

  predicate Allowed(from: NodeState, to: NodeState) {
    STATE_CHANGE_TABLE[from.Code()][to.Code()]
  }

  /** Exactly six changes of state are allowed. */
  lemma SixEdges(from: NodeState, to: NodeState)
    ensures Allowed(from, to) <==>
      (from, to) in {(INIT, ALIVE), (INIT, TIMEOUT), (ALIVE, TIMEOUT), (TIMEOUT, ALIVE), (TIMEOUT, DEAD), (DEAD, INIT)}
  {}

  /** NodeBase::changeState */
  function ChangeState(from: NodeState, to: NodeState): NodeState {
    if Allowed(from, to) then to else from
  }

  /** Where the thread is: at the head of handleThread's loop, at the head of TIMEOUT's retry loop,
      inside wait_for, asleep with the mutex held, in DEAD after its push, in DEAD after its state
      request, or finished. */
  datatype Phase = Top | Retry | Waiting | Sleeping | DeadPushed | DeadReset | Exited

  datatype Outcome = Answered | Expired | Stopped
  datatype Window = Window(outcome: Outcome, start: nat, end: nat)
  datatype Note = PingNote | TimeoutNote | DeadNote

  /** str_MessageState. `emitter` is the identity of the pushing node; the source has only `nodeId`. */
  datatype Msg = Msg(emitter: nat, nodeId: nat, typeNode: byte, state: NodeState,
                     messageType: byte, text: Bytes, addr: Addr)

  datatype NodeVal = NodeVal(
    id: nat, addr: Addr, typeNode: byte,
    state: NodeState, retry: nat, pong: bool, running: bool, phase: Phase,
    now: nat, pingAt: nat, wins: seq<Window>, log: seq<Note>)

  /** What a push takes from outside: the static NodeBase::m_nodeID and the time saveTime prints. */
  datatype Ctx = Ctx(counter: nat, stamp: Bytes)

  function Newborn(id: nat, addr: Addr, typeNode: byte): NodeVal {
    NodeVal(id, addr, typeNode, INIT, 0, false, true, Top, 0, 0, [], [])
  }

  function PingMsg(n: NodeVal, ctx: Ctx): Msg {
    Msg(n.id, ctx.counter, n.typeNode, n.state, 0, PING_TEXT, n.addr)
  }

  function TimeoutMsg(n: NodeVal, ctx: Ctx): Msg {
    Msg(n.id, n.id, n.typeNode, n.state, 1, TIMEOUT_TEXT + ctx.stamp, n.addr)
  }

  function DeadMsg(n: NodeVal, ctx: Ctx): Msg {
    Msg(n.id, n.id, n.typeNode, n.state, 1, ctx.stamp, n.addr)
  }

  /** A DEAD notice: the message that makes NoM erase a node. */
  predicate IsDead(m: Msg) {
    m.messageType == 1 && m.state == DEAD
  }

  predicate Announced(n: NodeVal) {
    n.log != [] && n.log[|n.log| - 1] == DeadNote
  }

  // ------------------------------------------------------------ steps

  function OpenWindow(n: NodeVal): NodeVal {
    n.(phase := Waiting, pong := false, pingAt := n.now, log := n.log + [PingNote])
  }

  function OutcomeOf(n: NodeVal): Outcome {
    if !n.running then Stopped else if n.pong then Answered else Expired
  }

  function CloseWindow(n: NodeVal, delay: nat): NodeVal {
    var o := OutcomeOf(n);
    var t := n.pingAt + (if o == Expired then TIMEOUT_PERIODS else delay);
    var c := n.(wins := n.wins + [Window(o, n.pingAt, t)], now := t);
    match n.state
    case INIT =>
      (match o
       case Stopped => c.(phase := Top)
       case Answered => c.(phase := Top, state := ChangeState(INIT, ALIVE))
       case Expired => c.(phase := Top, state := ChangeState(INIT, TIMEOUT)))
    case ALIVE =>
      (match o
       case Stopped => c.(phase := Top, state := ChangeState(ALIVE, INIT))
       case Answered => c.(phase := Sleeping)
       case Expired => c.(phase := Top, state := ChangeState(ALIVE, TIMEOUT)))
    case TIMEOUT =>
      (match o
       case Stopped => c.(phase := Top, state := ChangeState(TIMEOUT, INIT))
       case Answered => c.(phase := Sleeping, state := ChangeState(TIMEOUT, ALIVE))
       case Expired =>
         if n.retry + 1 < RETRY_NUM then c.(phase := Retry, retry := n.retry + 1)
         else c.(phase := Top, retry := n.retry + 1, state := ChangeState(TIMEOUT, DEAD)))
    case DEAD => c.(phase := Top)   // no window is open in DEAD
  }

  /** `delay` is how long a wait lasted that a notification ended. */
  function Next(n: NodeVal, delay: nat): NodeVal {
    match n.phase
    case Top =>
      if !n.running then n.(phase := Exited)
      else (match n.state
            case INIT => OpenWindow(n)
            case ALIVE => OpenWindow(n)
            case TIMEOUT => n.(phase := Retry, retry := 0, log := n.log + [TimeoutNote])
            case DEAD => n.(phase := DeadPushed, log := n.log + [DeadNote]))
    case Retry => OpenWindow(n)
    case Waiting => CloseWindow(n, delay)
    case Sleeping => n.(phase := Top, now := n.now + TIMESEND_PING)
    case DeadPushed => n.(phase := DeadReset, state := ChangeState(n.state, INIT))
    case DeadReset => n.(phase := Top, running := false)
    case Exited => n
  }

  /** What the same step pushes to g_messageNodeQueue. */
  function Sends(n: NodeVal, ctx: Ctx): (r: seq<Msg>)
    ensures |r| <= 1
  {
    match n.phase
    case Top =>
      if !n.running then []
      else (match n.state
            case INIT => [PingMsg(n, ctx)]
            case ALIVE => [PingMsg(n, ctx)]
            case TIMEOUT => [TimeoutMsg(n, ctx)]
            case DEAD => [DeadMsg(n, ctx)])
    case Retry => [PingMsg(n, ctx)]
    case _ => []
  }

  /** setPongState(true) from NoM's receiving thread. */
  function Heard(n: NodeVal): NodeVal {
    n.(pong := true)
  }

  /** NodeBase::stop */
  function Halted(n: NodeVal): NodeVal {
    n.(running := false)
  }

  /** The thread sleeps with m_mtx held, so nobody else gets in. */
  predicate Locked(n: NodeVal) {
    n.phase == Sleeping
  }

  // ------------------------------------------------------------ the counter the handlers refine

  /** Fresh until the first outcome, then the number of trailing unanswered pings. */
  datatype Count = Fresh | Silent(k: nat)

  function Tally(wins: seq<Window>): Count {
    if wins == [] then Fresh
    else
      var before := Tally(wins[..|wins| - 1]);
      match wins[|wins| - 1].outcome
      case Answered => Silent(0)
      case Expired => (match before case Fresh => Silent(1) case Silent(k) => Silent(k + 1))
      case Stopped => before
  }

  /** One unanswered ping since the last answer. */
  predicate JustSilent(c: Count) {
    c.Silent? && c.k == 1
  }

  function StateOf(c: Count): NodeState {
    match c
    case Fresh => INIT
    case Silent(k) => if k == 0 then ALIVE else if k <= RETRY_NUM then TIMEOUT else DEAD
  }

  /** What a node has pushed when it waits in the window after `wins`. */
  function LogWaiting(wins: seq<Window>): seq<Note> {
    LogOf(wins) + (if JustSilent(Tally(wins)) then [TimeoutNote] else []) + [PingNote]
  }

  /** What a node has pushed when the windows `wins` have closed. */
  function LogOf(wins: seq<Window>): seq<Note>
    decreases |wins|, 0
  {
    if wins == [] then []
    else
      var before := wins[..|wins| - 1];
      LogOf(before) + (if JustSilent(Tally(before)) then [TimeoutNote] else []) + [PingNote]
  }

  // ------------------------------------------------------------ the invariant of a node

  /** Only the last window can have been cut short by a stop, and then the thread is leaving. */
  ghost predicate StopsLast(n: NodeVal) {
    && (forall i :: 0 <= i < |n.wins| - 1 ==> n.wins[i].outcome != Stopped)
    && (n.wins != [] && n.wins[|n.wins| - 1].outcome == Stopped ==>
          !n.running && (n.phase == Top || n.phase == Exited) && !Announced(n) && n.state != DEAD)
  }

  /** State, retry counter and pushed messages are what the counter says. */
  ghost predicate CountOk(n: NodeVal) {
    var c := Tally(n.wins);
    match n.phase
    case Retry =>
      && n.state == TIMEOUT && n.retry < RETRY_NUM && c == Silent(n.retry + 1)
      && n.log == LogOf(n.wins) + (if n.retry == 0 then [TimeoutNote] else [])
    case Waiting =>
      && n.state == StateOf(c) && n.state != DEAD
      && (n.state == TIMEOUT ==> c == Silent(n.retry + 1))
      && n.log == LogWaiting(n.wins)
    case Sleeping =>
      n.state == ALIVE && c == Silent(0) && n.log == LogOf(n.wins)
    case DeadPushed =>
      n.state == DEAD && c == Silent(RETRY_NUM + 1) && n.log == LogOf(n.wins) + [DeadNote]
    case DeadReset =>
      n.state == INIT && c == Silent(RETRY_NUM + 1) && n.log == LogOf(n.wins) + [DeadNote]
    case _ =>
      && (n.phase == Exited ==> !n.running)
      && if Announced(n) then
           n.state == INIT && !n.running && c == Silent(RETRY_NUM + 1) && n.log == LogOf(n.wins) + [DeadNote]
         else
           && n.state == StateOf(c) && n.log == LogOf(n.wins)
           && (c.Silent? ==> c.k <= RETRY_NUM + 1)
           && (n.running && n.state == TIMEOUT ==> JustSilent(c))
  }

  /** The pause between a window and the next ping: none after the first window or a silent one. */
  function Pause(wins: seq<Window>, i: nat): nat
    requires i < |wins|
  {
    if i > 0 && wins[i].outcome == Answered then TIMESEND_PING else 0
  }

  ghost predicate WindowOk(w: Window) {
    if w.outcome == Expired then w.end == w.start + TIMEOUT_PERIODS
    else w.start <= w.end <= w.start + TIMEOUT_PERIODS
  }

  ghost predicate WindowsOk(wins: seq<Window>) {
    && (forall i :: 0 <= i < |wins| ==> WindowOk(wins[i]))
    && (forall i :: 0 <= i < |wins| - 1 ==> wins[i + 1].start == wins[i].end + Pause(wins, i))
  }

  /** The clock since the last window: what the next ping's time will be. */
  ghost predicate ClockOk(n: NodeVal) {
    var last := |n.wins| - 1;
    last >= 0 && n.wins[last].outcome != Stopped ==>
      match n.phase
      case Top => Announced(n) || n.now == n.wins[last].end + Pause(n.wins, last)
      case Retry => n.now == n.wins[last].end + Pause(n.wins, last)
      case Waiting => n.pingAt == n.wins[last].end + Pause(n.wins, last)
      case Sleeping => n.now == n.wins[last].end && Pause(n.wins, last) == TIMESEND_PING
      case _ => true
  }

  ghost predicate TimesOk(n: NodeVal) {
    WindowsOk(n.wins) && ClockOk(n)
  }

  ghost predicate NodeOk(n: NodeVal) {
    StopsLast(n) && CountOk(n) && TimesOk(n)
  }

  lemma NewbornOk(id: nat, addr: Addr, typeNode: byte)
    ensures NodeOk(Newborn(id, addr, typeNode)) && !Announced(Newborn(id, addr, typeNode))
  {}

  lemma LogEndsInPing(wins: seq<Window>)
    ensures LogOf(wins) == [] || LogOf(wins)[|LogOf(wins)| - 1] == PingNote
  {}

  lemma LogWaitingEndsInPing(wins: seq<Window>)
    ensures LogWaiting(wins) != [] && LogWaiting(wins)[|LogWaiting(wins)| - 1] == PingNote
  {}

  lemma {:induction false} FreshIsFirst(wins: seq<Window>)
    requires forall i :: 0 <= i < |wins| ==> wins[i].outcome != Stopped
    ensures Tally(wins) == Fresh <==> wins == []
  {}

  /** One window more. */
  lemma Grow(wins: seq<Window>, w: Window)
    ensures LogOf(wins + [w]) == LogWaiting(wins)
    ensures Tally(wins + [w]) ==
              match w.outcome
              case Answered => Silent(0)
              case Expired => (match Tally(wins) case Fresh => Silent(1) case Silent(k) => Silent(k + 1))
              case Stopped => Tally(wins)
  {
    assert (wins + [w])[..|wins + [w]| - 1] == wins;
  }

  lemma CloseKeepsStops(n: NodeVal, delay: nat)
    requires StopsLast(n) && CountOk(n) && n.phase == Waiting
    ensures StopsLast(CloseWindow(n, delay))
  {
    hide LogOf, LogWaiting, Tally;
    var n' := CloseWindow(n, delay);
    assert n.wins != [] ==> n.wins[|n.wins| - 1].outcome != Stopped;
    assert n'.log == LogWaiting(n.wins);
    LogWaitingEndsInPing(n.wins);
  }

  lemma CloseKeepsCount(n: NodeVal, delay: nat)
    requires StopsLast(n) && CountOk(n) && n.phase == Waiting
    ensures CountOk(CloseWindow(n, delay))
  {
    hide LogOf, LogWaiting, Tally, StopsLast;
    var n' := CloseWindow(n, delay);
    Grow(n.wins, n'.wins[|n.wins|]);
    LogEndsInPing(n'.wins);
  }

  lemma GrowWindows(wins: seq<Window>, w: Window)
    requires WindowsOk(wins) && WindowOk(w)
    requires wins != [] ==> w.start == wins[|wins| - 1].end + Pause(wins, |wins| - 1)
    ensures WindowsOk(wins + [w])
  {
    var wins' := wins + [w];
    forall i | 0 <= i < |wins'| - 1
      ensures wins'[i + 1].start == wins'[i].end + Pause(wins', i)
    {
      assert Pause(wins', i) == Pause(wins, i);
    }
  }

  lemma CloseKeepsClock(n: NodeVal, delay: nat)
    requires NodeOk(n) && n.phase == Waiting
    ensures ClockOk(CloseWindow(n, delay))
  {
    hide LogOf, LogWaiting, Tally, WindowsOk, ClockOk;
    var n' := CloseWindow(n, delay);
    FreshIsFirst(n.wins);
    LogWaitingEndsInPing(n.wins);
    ClosedClock(n');
  }

  lemma ClosedClock(n: NodeVal)
    requires n.wins != []
    requires var last := |n.wins| - 1;
             n.wins[last].outcome != Stopped ==>
               && n.now == n.wins[last].end
               && (n.phase == Top || n.phase == Retry ==> Pause(n.wins, last) == 0)
               && (n.phase == Sleeping ==> Pause(n.wins, last) == TIMESEND_PING)
               && n.phase != Waiting
    ensures ClockOk(n)
  {}

  lemma CloseKeepsTimes(n: NodeVal, delay: nat)
    requires NodeOk(n) && n.phase == Waiting && delay <= TIMEOUT_PERIODS
    ensures TimesOk(CloseWindow(n, delay))
  {
    hide LogOf, LogWaiting, Tally, WindowsOk, Pause;
    CloseKeepsClock(n, delay);
    assert n.wins != [] ==> n.wins[|n.wins| - 1].outcome != Stopped;
    var w := CloseWindow(n, delay).wins[|n.wins|];
    GrowWindows(n.wins, w);
  }

  lemma OtherKeepsCount(n: NodeVal, delay: nat)
    requires StopsLast(n) && CountOk(n) && n.phase != Waiting
    ensures CountOk(Next(n, delay))
  {
    hide LogOf, Tally, StopsLast, CloseWindow;
    LogEndsInPing(n.wins);
  }

  lemma OtherKeepsRest(n: NodeVal, delay: nat)
    requires NodeOk(n) && n.phase != Waiting
    ensures StopsLast(Next(n, delay)) && TimesOk(Next(n, delay))
  {
    hide LogOf, LogWaiting, Tally, WindowsOk, Pause, CloseWindow;
    LogEndsInPing(n.wins);
  }

  /** Every step of the thread keeps the invariant. */
  lemma NextKeepsOk(n: NodeVal, delay: nat)
    requires NodeOk(n) && delay <= TIMEOUT_PERIODS
    ensures NodeOk(Next(n, delay))
  {
    hide StopsLast, CountOk, TimesOk, CloseWindow;
    if n.phase == Waiting {
      CloseKeepsStops(n, delay);
      CloseKeepsCount(n, delay);
      CloseKeepsTimes(n, delay);
    } else {
      OtherKeepsCount(n, delay);
      OtherKeepsRest(n, delay);
    }
  }

  lemma HeardKeepsOk(n: NodeVal)
    requires NodeOk(n)
    ensures NodeOk(Heard(n)) && NodeOk(Halted(n))
  {
    hide LogOf, LogWaiting, Tally, Pause;
  }
}
