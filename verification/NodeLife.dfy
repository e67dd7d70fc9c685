/** What follows for a single node: the state counter, the order of its messages, its timing, and
    how its thread ends. */
module NodeLife {
  import opened Types
  import opened Node

  // ------------------------------------------------------------ state changes

  /** The state a step asks changeState for, if any. */
  function Requested(n: NodeVal): Option<NodeState> {
    match n.phase
    case Waiting =>
      (match (n.state, OutcomeOf(n))
       case (INIT, Answered) => Some(ALIVE)
       case (INIT, Expired) => Some(TIMEOUT)
       case (ALIVE, Expired) => Some(TIMEOUT)
       case (ALIVE, Stopped) => Some(INIT)
       case (TIMEOUT, Stopped) => Some(INIT)
       case (TIMEOUT, Answered) => Some(ALIVE)
       case (TIMEOUT, Expired) => if n.retry + 1 < RETRY_NUM then None else Some(DEAD)
       case _ => None)
    case DeadPushed => Some(INIT)
    case _ => None
  }

  /** Every change of state is asked for and an edge of the table; a request is refused exactly when
      it is made because the node was stopped, and then the state stays. */
  lemma ChangesAreEdges(n: NodeVal, delay: nat)
    requires NodeOk(n)
    ensures var s := Next(n, delay).state;
            && (s != n.state ==> Allowed(n.state, s) && Requested(n) == Some(s))
            && (Requested(n).Some? ==>
                  (s == Requested(n).value <==> !(n.phase == Waiting && !n.running)))
            && (Requested(n).Some? && n.phase == Waiting && !n.running ==> s == n.state)
  {
    hide LogOf, LogWaiting, Tally, TimesOk, StopsLast;
  }

  function Steps(n: NodeVal, k: nat): NodeVal
    decreases k
  {
    if k == 0 then n else Steps(Next(n, 0), k - 1)
  }

  lemma ThreeSteps(n: NodeVal)
    ensures Steps(n, 3) == Next(Next(Next(n, 0), 0), 0)
  {
    hide Next;
    var a := Next(n, 0);
    var b := Next(a, 0);
    assert Steps(n, 3) == Steps(a, 2) == Steps(b, 1) == Steps(Next(b, 0), 0);
  }

  /** How many steps a stopped thread has left. */
  function Left(n: NodeVal): nat {
    match n.phase
    case Exited => 0
    case Top => 1
    case Retry => 3
    case DeadPushed => 3
    case _ => 2
  }

  lemma StoppedStep(n: NodeVal)
    requires !n.running && (n.phase == DeadPushed ==> n.state == DEAD)
    ensures var m := Next(n, 0);
            && !m.running && m.phase != DeadPushed
            && (Left(n) > 0 ==> Left(m) < Left(n)) && (Left(n) == 0 ==> m == n)
            && m.state == if n.phase == DeadPushed then INIT else n.state
  {}

  /** A stopped node's thread leaves its loop within three steps. Its state is then what it was,
      unless the stop came between DEAD's push and DEAD's request for INIT. */
  lemma StoppedExits(n: NodeVal)
    requires NodeOk(n) && !n.running
    ensures Steps(n, 3).phase == Exited
    ensures Steps(n, 3).state == if n.phase == DeadPushed then INIT else n.state
  {
    hide NodeOk, Next, Steps;
    AnnouncedPhase(n);
    DeadPushedState(n);
    ThreeSteps(n);
    StoppedStep(n);
    StoppedStep(Next(n, 0));
    StoppedStep(Next(Next(n, 0), 0));
  }

  lemma DeadPushedState(n: NodeVal)
    requires NodeOk(n)
    ensures n.phase == DeadPushed ==> n.state == DEAD
  {
    hide LogOf, LogWaiting, Tally, TimesOk, StopsLast;
  }

  /** Where the thread can be before and after its DEAD notice. */
  lemma AnnouncedPhase(n: NodeVal)
    requires NodeOk(n)
    ensures Announced(n) ==> match n.phase
                             case Top => !n.running
                             case Exited => true
                             case DeadPushed => true
                             case DeadReset => true
                             case _ => false
    ensures n.phase == DeadPushed || n.phase == DeadReset ==> Announced(n)
    ensures n.phase == Exited ==> !n.running
  {
    hide LogOf, LogWaiting, Tally, TimesOk, StopsLast;
    LogWaitingEndsInPing(n.wins);
    LogEndsInPing(n.wins);
  }

  /** Once the DEAD notice is pushed, at most three steps are left; none opens a window or pushes. */
  lemma TailIsBounded(n: NodeVal, ctx: Ctx)
    requires NodeOk(n) && Announced(n)
    ensures Sends(n, ctx) == [] && Next(n, 0).log == n.log && Next(n, 0).phase != Waiting
    ensures Steps(n, 3).phase == Exited
  {
    hide NodeOk, CloseWindow, Steps;
    AnnouncedPhase(n);
    ThreeSteps(n);
  }

  /** A step pushes only before the DEAD notice, and the notice is recorded as it is pushed. */
  lemma SendsBeforeDeath(n: NodeVal, ctx: Ctx, delay: nat)
    requires NodeOk(n)
    ensures Announced(n) ==> Sends(n, ctx) == [] && Announced(Next(n, delay))
    ensures !Announced(n) ==> (Announced(Next(n, delay)) <==> Sends(n, ctx) != [] && IsDead(Sends(n, ctx)[0]))
  {
    AnnouncedPhase(n);
    assert n.phase == Waiting ==> Next(n, delay).log == n.log;
    hide NodeOk, CloseWindow;
  }

  /** What a message is in a log. */
  function NoteOf(m: Msg): Note {
    if m.messageType == 0 then PingNote else if m.state == DEAD then DeadNote else TimeoutNote
  }

  /** The log is the list of what the node has pushed, in order. */
  lemma LogIsWhatIsSent(n: NodeVal, ctx: Ctx, delay: nat)
    ensures var sent := Sends(n, ctx);
            Next(n, delay).log == n.log + (if sent == [] then [] else [NoteOf(sent[0])])
  {
    assert n.log + [] == n.log;
  }

  // ------------------------------------------------------------ the counter

  /** Trailing unanswered pings in a history without stops. */
  function Trailing(outs: seq<Outcome>): nat {
    if outs == [] || outs[|outs| - 1] != Expired then 0 else 1 + Trailing(outs[..|outs| - 1])
  }

  function Outcomes(wins: seq<Window>): (r: seq<Outcome>)
    ensures |r| == |wins| && forall i :: 0 <= i < |wins| ==> r[i] == wins[i].outcome
  {
    seq(|wins|, i requires 0 <= i < |wins| => wins[i].outcome)
  }

  lemma {:induction false} TallyIsTrailing(wins: seq<Window>)
    requires forall i :: 0 <= i < |wins| ==> wins[i].outcome != Stopped
    ensures Tally(wins) == if wins == [] then Fresh else Silent(Trailing(Outcomes(wins)))
  {
    if wins != [] {
      var before := wins[..|wins| - 1];
      TallyIsTrailing(before);
      assert Outcomes(wins)[..|wins| - 1] == Outcomes(before);
    }
  }

  /** What happened during an open window, and after how long. */
  datatype Beat = Beat(outcome: Outcome, delay: nat)

  function Env(n: NodeVal, o: Outcome): NodeVal {
    match o
    case Answered => Heard(n)
    case Stopped => Halted(n)
    case Expired => n
  }

  function Rank(n: NodeVal): nat {
    match n.phase
    case Top => if !n.running then 1 else (match n.state case TIMEOUT => 2 case DEAD => 5 case _ => 1)
    case Retry => 1
    case Sleeping => 6
    case DeadPushed => 4
    case DeadReset => 3
    case _ => 0
  }

  /** Runs the thread until it waits in a window or has ended. */
  function ToWindow(n: NodeVal): NodeVal
    decreases Rank(n)
  {
    if n.phase == Waiting || n.phase == Exited then n else ToWindow(Next(n, 0))
  }

  /** Runs the thread through one window per beat. */
  function Drive(n: NodeVal, script: seq<Beat>): NodeVal
    decreases |script|
  {
    if script == [] then n
    else
      var w := ToWindow(n);
      if w.phase == Exited then w
      else Drive(Next(Env(w, script[0].outcome), script[0].delay), script[1..])
  }

  function Scripted(script: seq<Beat>): (r: seq<Outcome>)
    ensures |r| == |script| && forall i :: 0 <= i < |script| ==> r[i] == script[i].outcome
  {
    seq(|script|, i requires 0 <= i < |script| => script[i].outcome)
  }

  /** Alive enough to open another window. */
  ghost predicate Going(n: NodeVal) {
    && NodeOk(n) && n.running && !Announced(n)
    && (n.phase == Top || n.phase == Retry || n.phase == Sleeping)
  }

  lemma NextWindow(n: NodeVal)
    requires Going(n) && Tally(n.wins) != Silent(RETRY_NUM + 1)
    ensures var w := ToWindow(n);
            NodeOk(w) && w.phase == Waiting && w.running && !w.pong && w.wins == n.wins
    decreases Rank(n)
  {
    hide NodeOk, Next, Announced;
    NotDeadYet(n);
    NextKeepsOk(n, 0);
    StepTowards(n);
    if Next(n, 0).phase != Waiting {
      NextWindow(Next(n, 0));
    }
  }

  lemma StepTowards(n: NodeVal)
    requires n.running && n.state != DEAD && (n.phase == Top || n.phase == Retry || n.phase == Sleeping)
    requires n.phase == Sleeping ==> n.state == ALIVE
    ensures var m := Next(n, 0);
            && m.wins == n.wins && m.running && Rank(m) < Rank(n)
            && ((m.phase == Waiting && !m.pong) || m.phase == Top || m.phase == Retry)
  {
    hide CloseWindow;
  }

  lemma NotDeadYet(n: NodeVal)
    requires Going(n) && Tally(n.wins) != Silent(RETRY_NUM + 1)
    ensures n.state != DEAD && (n.phase == Sleeping ==> n.state == ALIVE)
    ensures !Announced(Next(n, 0))
  {
    hide LogOf, LogWaiting, Tally, TimesOk, StopsLast;
    SendsBeforeDeath(n, Ctx(0, []), 0);
  }

  /** One window with outcome `b`. */
  lemma OneBeat(n: NodeVal, b: Beat)
    requires Going(n) && Tally(n.wins) != Silent(RETRY_NUM + 1)
    requires b.outcome != Stopped && b.delay <= TIMEOUT_PERIODS
    ensures var m := Next(Env(ToWindow(n), b.outcome), b.delay);
            Going(m) && Outcomes(m.wins) == Outcomes(n.wins) + [b.outcome]
  {
    NextWindow(n);
    HeardKeepsOk(ToWindow(n));
    CloseGoing(Env(ToWindow(n), b.outcome), b.delay);
  }

  lemma CloseGoing(w: NodeVal, delay: nat)
    requires NodeOk(w) && w.phase == Waiting && w.running && delay <= TIMEOUT_PERIODS
    ensures var m := Next(w, delay);
            Going(m) && Outcomes(m.wins) == Outcomes(w.wins) + [OutcomeOf(w)]
  {
    hide NodeOk;
    NextKeepsOk(w, delay);
    AnnouncedPhase(w);
    NotDead(w);
    CloseShape(w, delay);
  }

  lemma NotDead(w: NodeVal)
    requires NodeOk(w) && w.phase == Waiting
    ensures w.state != DEAD
  {
    hide LogOf, LogWaiting, Tally, TimesOk, StopsLast;
  }

  lemma CloseShape(w: NodeVal, delay: nat)
    requires w.phase == Waiting && w.running && w.state != DEAD
    ensures var m := Next(w, delay);
            && m.log == w.log && m.running
            && (m.phase == Top || m.phase == Retry || m.phase == Sleeping)
            && Outcomes(m.wins) == Outcomes(w.wins) + [OutcomeOf(w)]
  {
    var m := Next(w, delay);
    assert m.wins == w.wins + [m.wins[|w.wins|]];
  }

  /** From position `from` on, no proper prefix of the history has reached RETRY_NUM + 1 silences. */
  ghost predicate Survives(outs: seq<Outcome>, from: nat) {
    forall j :: from <= j < |outs| ==> Trailing(outs[..j]) <= RETRY_NUM
  }

  lemma SurvivesNext(outs: seq<Outcome>, from: nat)
    requires Survives(outs, from) && from < |outs|
    ensures Trailing(outs[..from]) <= RETRY_NUM && Survives(outs, from + 1)
  {
    hide Trailing;
  }

  lemma {:induction false} DriveFollows(n: NodeVal, script: seq<Beat>)
    requires Going(n)
    requires forall b :: b in script ==> b.outcome != Stopped && b.delay <= TIMEOUT_PERIODS
    requires Survives(Outcomes(n.wins) + Scripted(script), |n.wins|)
    ensures Going(Drive(n, script))
    ensures Outcomes(Drive(n, script).wins) == Outcomes(n.wins) + Scripted(script)
    decreases |script|
  {
    hide Going, Trailing, Next, Env, ToWindow, Tally, CloseWindow, Survives, Outcomes, Scripted;
    var outs := Outcomes(n.wins) + Scripted(script);
    if script == [] {
      assert outs == Outcomes(n.wins);
    } else {
      SurvivesNext(outs, |n.wins|);
      assert outs[..|n.wins|] == Outcomes(n.wins);
      SilentOnlySo(n);
      NextWindow(n);
      OneBeat(n, script[0]);
      var m := Next(Env(ToWindow(n), script[0].outcome), script[0].delay);
      assert |m.wins| == |n.wins| + 1;
      assert Outcomes(m.wins) + Scripted(script[1..]) == outs;
      DriveFollows(m, script[1..]);
    }
  }

  lemma SilentOnlySo(n: NodeVal)
    requires Going(n) && Trailing(Outcomes(n.wins)) <= RETRY_NUM
    ensures Tally(n.wins) != Silent(RETRY_NUM + 1)
  {
    TallyIsTrailing(n.wins);
  }

  /** The handlers refine the counter of trailing unanswered pings: for every sequence of answered
      and unanswered windows of a new node, none beyond the first RETRY_NUM + 1 silences in a row. */
  lemma StateIsTheCounter(id: nat, addr: Addr, typeNode: byte, script: seq<Beat>)
    requires forall b :: b in script ==> b.outcome != Stopped && b.delay <= TIMEOUT_PERIODS
    requires Survives(Scripted(script), 0)
    ensures var n, k := Drive(Newborn(id, addr, typeNode), script), Trailing(Scripted(script));
            && Outcomes(n.wins) == Scripted(script)
            && (n.state == INIT <==> script == [])
            && (n.state == ALIVE <==> script != [] && k == 0)
            && (n.state == TIMEOUT <==> 1 <= k <= RETRY_NUM)
            && (n.state == TIMEOUT && k > 1 ==> n.phase == Retry && n.retry == k - 1)
            && (n.state == TIMEOUT && k == 1 ==> n.phase == Top || (n.phase == Retry && n.retry == 0))
            && (n.state == DEAD <==> k == RETRY_NUM + 1)
            && (n.state == DEAD ==> Announced(Next(n, 0)))
  {
    hide *;
    DriveNewborn(id, addr, typeNode, script);
    var n := Drive(Newborn(id, addr, typeNode), script);
    SameTally(n, script);
    CounterReading(n, Trailing(Scripted(script)));
  }

  lemma SameTally(n: NodeVal, script: seq<Beat>)
    requires Outcomes(n.wins) == Scripted(script)
    requires forall b :: b in script ==> b.outcome != Stopped
    ensures Tally(n.wins) == if n.wins == [] then Fresh else Silent(Trailing(Scripted(script)))
    ensures n.wins == [] <==> script == []
    ensures n.wins == [] ==> Trailing(Scripted(script)) == 0
  {
    hide Tally;
    assert forall i :: 0 <= i < |n.wins| ==> n.wins[i].outcome == Outcomes(n.wins)[i] == script[i].outcome;
    TallyIsTrailing(n.wins);
  }

  lemma DriveNewborn(id: nat, addr: Addr, typeNode: byte, script: seq<Beat>)
    requires forall b :: b in script ==> b.outcome != Stopped && b.delay <= TIMEOUT_PERIODS
    requires Survives(Scripted(script), 0)
    ensures Going(Drive(Newborn(id, addr, typeNode), script))
    ensures Outcomes(Drive(Newborn(id, addr, typeNode), script).wins) == Scripted(script)
  {
    var nb := Newborn(id, addr, typeNode);
    NewbornOk(id, addr, typeNode);
    assert Going(nb);
    hide Drive, Trailing, Going, Survives, Scripted;
    assert Outcomes(nb.wins) + Scripted(script) == Scripted(script);
    DriveFollows(nb, script);
  }

  /** What a tally says about a node that is still going. */
  lemma CounterReading(n: NodeVal, k: nat)
    requires Going(n) && Tally(n.wins) == if n.wins == [] then Fresh else Silent(k)
    requires n.wins == [] ==> k == 0
    ensures n.state == INIT <==> n.wins == []
    ensures n.state == ALIVE <==> n.wins != [] && k == 0
    ensures n.state == TIMEOUT <==> 1 <= k <= RETRY_NUM
    ensures n.state == TIMEOUT && k > 1 ==> n.phase == Retry && n.retry == k - 1
    ensures n.state == TIMEOUT && k == 1 ==>
              n.phase == Top || (n.phase == Retry && n.retry == 0)
    ensures n.state == DEAD <==> k == RETRY_NUM + 1
    ensures n.state == DEAD ==> n.phase == Top && Announced(Next(n, 0))
  {
    hide LogOf, LogWaiting, Tally, TimesOk, StopsLast;
  }

  // ------------------------------------------------------------ silence kills

  /** A bound on the steps a node that hears nothing more has left before its DEAD notice. */
  function Fuse(n: NodeVal): nat {
    match n.phase
    case Top => (match n.state case DEAD => 1 case TIMEOUT => 12 case _ => 14)
    case Retry => if n.retry < RETRY_NUM then 2 * (RETRY_NUM - n.retry) + 1 else 0
    case Waiting =>
      if n.pong then 16
      else if n.state != TIMEOUT then 13
      else if n.retry < RETRY_NUM then 2 * (RETRY_NUM - n.retry) else 0
    case Sleeping => 15
    case _ => 0
  }

  /** Not stopped and not yet announced dead. */
  ghost predicate Undead(n: NodeVal) {
    NodeOk(n) && n.running && !Announced(n)
  }

  lemma FuseBurns(n: NodeVal)
    requires Undead(n)
    ensures Announced(Next(n, 0)) || (Undead(Next(n, 0)) && Fuse(Next(n, 0)) < Fuse(n))
  {
    hide NodeOk, Next, Fuse;
    NextKeepsOk(n, 0);
    AnnouncedPhase(n);
    FusePhase(n);
    if n.phase == Waiting {
      FuseCloses(n);
    } else {
      FuseSteps(n);
    }
  }

  lemma FuseCloses(n: NodeVal)
    requires n.running && n.phase == Waiting && n.state != DEAD
    requires n.state == TIMEOUT ==> n.retry < RETRY_NUM
    ensures Next(n, 0).running && Fuse(Next(n, 0)) < Fuse(n)
  {}

  lemma FuseSteps(n: NodeVal)
    requires n.running && (n.phase == Top || n.phase == Retry || n.phase == Sleeping)
    requires n.phase == Retry ==> n.retry < RETRY_NUM && n.state == TIMEOUT
    requires n.phase == Sleeping ==> n.state == ALIVE
    ensures Next(n, 0).running
    ensures Announced(Next(n, 0)) || Fuse(Next(n, 0)) < Fuse(n)
  {
    hide CloseWindow;
  }

  lemma FusePhase(n: NodeVal)
    requires Undead(n)
    ensures n.phase == Retry ==> n.retry < RETRY_NUM && n.state == TIMEOUT
    ensures n.phase == Waiting && n.state == TIMEOUT ==> n.retry < RETRY_NUM
    ensures n.phase == Waiting ==> n.state != DEAD
    ensures n.phase == Sleeping ==> n.state == ALIVE
  {
    hide LogOf, LogWaiting, Tally, TimesOk, StopsLast;
  }

  lemma FuseLength(n: NodeVal)
    requires Undead(n)
    ensures 1 <= Fuse(n) <= 16
  {
    hide NodeOk;
    AnnouncedPhase(n);
    FusePhase(n);
  }

  lemma StepsStart(n: NodeVal, k: nat)
    ensures Steps(n, k + 1) == Steps(Next(n, 0), k)
    ensures Steps(n, 0) == n
  {
    hide Next;
  }

  /** Whatever state it is in, a node that hears nothing more announces its death within 16 steps. */
  lemma {:induction false} SilenceKills(n: NodeVal) returns (k: nat)
    requires Undead(n)
    ensures k <= Fuse(n) <= 16 && Announced(Steps(n, k))
    decreases Fuse(n)
  {
    hide Undead, Announced, Next, Fuse;
    FuseBurns(n);
    FuseLength(n);
    if Announced(Next(n, 0)) {
      k := 1;
      StepsStart(n, 0);
    } else {
      var j := SilenceKills(Next(n, 0));
      k := j + 1;
      StepsStart(n, j);
    }
  }
}
