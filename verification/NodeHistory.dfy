/** The order and the timing of what one node pushes over its life, in every reachable state of it. */
module NodeHistory {
  import opened Types
  import opened Node
  import opened NodeLife

  // ------------------------------------------------------------ the order of messages

  function Pings(k: nat): (r: seq<Note>)
    ensures |r| == k && forall i :: 0 <= i < k ==> r[i] == PingNote
  {
    seq(k, _ => PingNote)
  }

  predicate Ends(log: seq<Note>, suffix: seq<Note>) {
    |suffix| <= |log| && log[|log| - |suffix|..] == suffix
  }

  ghost predicate NoStops(wins: seq<Window>) {
    forall i :: 0 <= i < |wins| ==> wins[i].outcome != Stopped
  }

  /** A TIMEOUT notice comes right after two pings, or after the very first one, and is followed by a ping. */
  ghost predicate TimeoutsLegal(log: seq<Note>) {
    forall i :: 0 <= i < |log| && log[i] == TimeoutNote ==>
      && i >= 1 && log[i - 1] == PingNote
      && (i >= 2 ==> log[i - 2] == PingNote)
      && (i + 1 < |log| ==> log[i + 1] == PingNote)
  }

  /** Nothing follows a DEAD notice, and before it come a ping, a TIMEOUT notice and RETRY_NUM pings. */
  ghost predicate DeathsLegal(log: seq<Note>) {
    forall i :: 0 <= i < |log| && log[i] == DeadNote ==>
      i == |log| - 1 && Ends(log, [PingNote, TimeoutNote] + Pings(RETRY_NUM) + [DeadNote])
  }

  ghost predicate Legal(log: seq<Note>) {
    (log != [] ==> log[0] == PingNote) && TimeoutsLegal(log) && DeathsLegal(log)
  }

  lemma LogStarts(wins: seq<Window>)
    ensures LogOf(wins) != [] <==> wins != []
    ensures wins != [] ==> LogOf(wins)[0] == PingNote && DeadNote !in LogOf(wins)
    ensures JustSilent(Tally(wins)) ==> wins != []
    ensures LogWaiting(wins)[0] == PingNote && DeadNote !in LogWaiting(wins)
  {}

  /** One unanswered ping: the log ends in two pings, or is one ping. */
  lemma JustSilentEnds(wins: seq<Window>)
    requires NoStops(wins) && JustSilent(Tally(wins))
    ensures var log := LogOf(wins);
            |log| >= 1 && log[|log| - 1] == PingNote && (|log| >= 2 ==> log[|log| - 2] == PingNote)
  {
    var before := wins[..|wins| - 1];
    LogEndsInPing(before);
    assert !JustSilent(Tally(before));
    assert LogOf(wins) == LogOf(before) + [PingNote];
  }

  lemma PingIsLegal(log: seq<Note>)
    requires TimeoutsLegal(log)
    ensures TimeoutsLegal(log + [PingNote])
  {}

  lemma TimeoutIsLegal(log: seq<Note>)
    requires TimeoutsLegal(log) && |log| >= 1
    requires log[|log| - 1] == PingNote && (|log| >= 2 ==> log[|log| - 2] == PingNote)
    ensures TimeoutsLegal(log + [TimeoutNote])
  {}

  lemma {:induction false} LogIsLegal(wins: seq<Window>)
    requires NoStops(wins)
    ensures TimeoutsLegal(LogOf(wins)) && TimeoutsLegal(LogWaiting(wins))
    ensures JustSilent(Tally(wins)) ==> TimeoutsLegal(LogOf(wins) + [TimeoutNote])
    decreases |wins|
  {
    hide TimeoutsLegal;
    var log := LogOf(wins);
    if wins != [] {
      LogIsLegal(wins[..|wins| - 1]);
      assert log == LogWaiting(wins[..|wins| - 1]);
    }
    if JustSilent(Tally(wins)) {
      JustSilentEnds(wins);
      TimeoutIsLegal(log);
      PingIsLegal(log + [TimeoutNote]);
    } else {
      PingIsLegal(log);
      assert log + [] == log;
    }
    assert wins == [] ==> TimeoutsLegal(log) by {
      NothingIsLegal();
    }
  }

  lemma NothingIsLegal()
    ensures TimeoutsLegal([])
  {}

  /** After k silences the log ends in the first silent ping, and from the second silence on in the
      TIMEOUT notice and one ping per further silence. */
  lemma {:induction false} SilentLog(wins: seq<Window>, k: nat)
    requires NoStops(wins) && Tally(wins) == Silent(k) && k >= 1
    ensures Ends(LogOf(wins), [PingNote] + (if k >= 2 then [TimeoutNote] + Pings(k - 1) else []))
    decreases |wins|
  {
    var before := wins[..|wins| - 1];
    if k >= 2 {
      SilentLog(before, k - 1);
      if k >= 3 {
        assert Pings(k - 1) == Pings(k - 2) + [PingNote];
      } else {
        assert Pings(1) == [PingNote];
      }
      var log := LogOf(before);
      assert LogOf(wins) == log + (if k == 2 then [TimeoutNote] else []) + [PingNote];
    }
    hide Tally, LogOf;
  }

  lemma WithoutStop(n: NodeVal)
    requires NodeOk(n) && (n.phase == Waiting || n.phase == Retry || Announced(n))
    ensures NoStops(n.wins)
  {
    hide LogOf, LogWaiting, Tally, TimesOk;
    AnnouncedPhase(n);
  }

  /** Every reachable log obeys the grammar. */
  lemma MessagesObeyGrammar(n: NodeVal)
    requires NodeOk(n)
    ensures Legal(n.log)
  {
    ClosedIsLegal(n);
    LogStarts(n.wins);
    if Announced(n) {
      DeathIsEarned(n);
      AnnouncedLog(n);
      TallyNeedsWindows(n.wins);
      GrammarOfDeath(LogOf(n.wins));
    } else {
      if n.phase == Waiting || n.phase == Retry {
        WithoutStop(n);
        LogIsLegal(n.wins);
      }
      GrammarOfLife(n);
    }
  }

  lemma TallyNeedsWindows(wins: seq<Window>)
    requires Tally(wins).Silent?
    ensures wins != []
  {}

  lemma ClosedIsLegal(n: NodeVal)
    requires NodeOk(n)
    ensures TimeoutsLegal(LogOf(n.wins))
  {
    if n.wins == [] {
      LogIsLegal([]);
    } else {
      var before := n.wins[..|n.wins| - 1];
      LogIsLegal(before);
      assert LogOf(n.wins) == LogWaiting(before);
    }
  }

  lemma AnnouncedLog(n: NodeVal)
    requires NodeOk(n) && Announced(n)
    ensures n.log == LogOf(n.wins) + [DeadNote] && Tally(n.wins) == Silent(RETRY_NUM + 1)
  {
    hide LogOf, LogWaiting, Tally, TimesOk, StopsLast;
    LogWaitingEndsInPing(n.wins);
    LogEndsInPing(n.wins);
  }

  /** A DEAD notice is directly preceded by a TIMEOUT notice and exactly RETRY_NUM pings. */
  lemma DeathIsEarned(n: NodeVal)
    requires NodeOk(n) && Announced(n)
    ensures Ends(n.log, [PingNote, TimeoutNote] + Pings(RETRY_NUM) + [DeadNote])
  {
    hide LogOf, Tally, NodeOk;
    AnnouncedLog(n);
    WithoutStop(n);
    SilentLog(n.wins, RETRY_NUM + 1);
    assert [PingNote] + ([TimeoutNote] + Pings(RETRY_NUM)) == [PingNote, TimeoutNote] + Pings(RETRY_NUM);
  }

  lemma GrammarOfDeath(log: seq<Note>)
    requires TimeoutsLegal(log) && DeadNote !in log
    requires Ends(log + [DeadNote], [PingNote, TimeoutNote] + Pings(RETRY_NUM) + [DeadNote])
    requires log != [] && log[0] == PingNote
    ensures Legal(log + [DeadNote])
  {
    assert log[|log| - 1] == (log + [DeadNote])[|log| - 1];
  }

  lemma GrammarOfLife(n: NodeVal)
    requires NodeOk(n) && !Announced(n)
    requires TimeoutsLegal(LogOf(n.wins))
    requires n.phase == Waiting ==> TimeoutsLegal(LogWaiting(n.wins))
    requires n.phase == Retry && JustSilent(Tally(n.wins)) ==> TimeoutsLegal(LogOf(n.wins) + [TimeoutNote])
    ensures Legal(n.log)
  {
    hide LogOf, LogWaiting, Tally, TimesOk, StopsLast, TimeoutsLegal;
    LogStarts(n.wins);
    var log := LogOf(n.wins);
    assert log + [] == log;
    assert n.log == log || n.log == LogWaiting(n.wins)
        || (n.phase == Retry && JustSilent(Tally(n.wins)) && n.log == log + [TimeoutNote]);
  }

  /** In TIMEOUT's windows the notice has been followed by 1 to RETRY_NUM retry pings. */
  lemma RetryPings(n: NodeVal)
    requires NodeOk(n) && n.state == TIMEOUT && n.phase == Waiting
    ensures 1 <= n.retry + 1 <= RETRY_NUM
    ensures Ends(n.log, [PingNote, TimeoutNote] + Pings(n.retry + 1))
  {
    hide LogOf, Tally, TimesOk, StopsLast;
    WithoutStop(n);
    SilentLog(n.wins, n.retry + 1);
    if n.retry == 0 {
      assert Pings(1) == [PingNote];
    } else {
      assert Pings(n.retry + 1) == Pings(n.retry) + [PingNote];
    }
  }

  // ------------------------------------------------------------ timing

  lemma {:induction false} SilentTail(wins: seq<Window>, k: nat)
    requires NoStops(wins) && Tally(wins) == Silent(k)
    ensures k <= |wins|
    ensures forall i :: |wins| - k <= i < |wins| ==> wins[i].outcome == Expired
    ensures |wins| > k ==> wins[|wins| - k - 1].outcome == Answered
    decreases |wins|
  {
    if k >= 1 {
      var before := wins[..|wins| - 1];
      if before != [] {
        SilentTail(before, k - 1);
      }
    }
  }

  lemma {:induction false} SilentSpan(wins: seq<Window>, lo: nat, hi: nat)
    requires WindowsOk(wins) && lo <= hi < |wins|
    requires forall i :: lo <= i <= hi ==> wins[i].outcome == Expired
    ensures wins[hi].end == wins[lo].start + (hi - lo + 1) * TIMEOUT_PERIODS
    decreases hi
  {
    if lo != hi {
      SilentSpan(wins, lo, hi - 1);
      assert wins[hi].start == wins[hi - 1].end + Pause(wins, hi - 1);
    }
  }

  /** A node is declared dead exactly (RETRY_NUM + 1) * TIMEOUT_PERIODS after the first of its final
      unanswered pings; after the last accepted pong that is TIMESEND_PING more, or nothing more when
      that pong answered the very first ping. */
  lemma DeathTiming(n: NodeVal)
    requires NodeOk(n) && Announced(n)
    ensures var m, first := |n.wins|, |n.wins| - (RETRY_NUM + 1);
            && first >= 0
            && (forall i :: first <= i < m ==> n.wins[i].outcome == Expired)
            && n.wins[m - 1].end == n.wins[first].start + (RETRY_NUM + 1) * TIMEOUT_PERIODS
            && (first > 0 ==>
                  && n.wins[first - 1].outcome == Answered
                  && n.wins[m - 1].end == n.wins[first - 1].end + (RETRY_NUM + 1) * TIMEOUT_PERIODS
                                          + (if first == 1 then 0 else TIMESEND_PING))
  {
    hide LogOf, LogWaiting, Tally, StopsLast, CountOk, ClockOk, Announced;
    AnnouncedLog(n);
    WithoutStop(n);
    SilentTail(n.wins, RETRY_NUM + 1);
    var m, first := |n.wins|, |n.wins| - (RETRY_NUM + 1);
    SilentSpan(n.wins, first, m - 1);
    if first > 0 {
      assert n.wins[first].start == n.wins[first - 1].end + Pause(n.wins, first - 1);
    }
  }

  /** When ping `i` was pushed. */
  function PingTime(n: NodeVal, i: nat): nat
    requires i < |n.wins| || (i == |n.wins| && n.phase == Waiting)
  {
    if i < |n.wins| then n.wins[i].start else n.pingAt
  }

  lemma NextPing(n: NodeVal, i: nat)
    requires NodeOk(n)
    requires i + 1 < |n.wins| || (i + 1 == |n.wins| && n.phase == Waiting)
    ensures PingTime(n, i + 1) >= PingTime(n, i) + (if i == 0 then 0 else TIMESEND_PING)
  {
    hide LogOf, LogWaiting, Tally, CountOk, Announced;
    assert n.wins[i].outcome != Stopped;
    assert WindowOk(n.wins[i]);
    if i + 1 < |n.wins| {
      assert n.wins[i + 1].start == n.wins[i].end + Pause(n.wins, i);
    }
  }

  /** Any q consecutive pings of one life span at least (q - 2) * TIMESEND_PING. */
  lemma {:induction false} PingSpacing(n: NodeVal, i: nat, q: nat)
    requires NodeOk(n) && q >= 2
    requires i + q <= |n.wins| || (i + q - 1 == |n.wins| && n.phase == Waiting)
    ensures PingTime(n, i + q - 1) - PingTime(n, i) >= (q - 2) * TIMESEND_PING
    decreases q
  {
    hide NodeOk, PingTime;
    NextPing(n, i + q - 2);
    if q > 2 {
      PingSpacing(n, i, q - 1);
    }
  }

  /** The next ping, when a window closes as `b` says: after a silent window at once, 2000 ms after the
      last ping; after an answer that took `b.delay`, 500 ms later, or at once if it was the very first. */
  lemma NextPingTime(n: NodeVal, b: Beat)
    requires Going(n) && Tally(n.wins) != Silent(RETRY_NUM + 1)
    requires b.outcome != Stopped && b.delay <= TIMEOUT_PERIODS
    ensures var w := ToWindow(n);
            var c := Next(Env(w, b.outcome), b.delay);
            && w.phase == Waiting && |c.wins| == |n.wins| + 1
            && c.wins[|n.wins|] == Window(b.outcome, w.pingAt,
                                          w.pingAt + if b.outcome == Expired then 2000 else b.delay)
            && (Tally(c.wins) != Silent(RETRY_NUM + 1) ==>
                  ToWindow(c).phase == Waiting &&
                  ToWindow(c).pingAt == w.pingAt + (if b.outcome == Expired then 2000
                                                    else if n.wins == [] then b.delay
                                                    else b.delay + 500))
  {
    hide *;
    NextWindow(n);
    OneBeat(n, b);
    var w := ToWindow(n);
    var c := Next(Env(w, b.outcome), b.delay);
    ClosedWindow(w, b);
    if Tally(c.wins) != Silent(RETRY_NUM + 1) {
      NextWindow(c);
      PingAfterPause(ToWindow(c));
    }
  }

  lemma ClosedWindow(w: NodeVal, b: Beat)
    requires w.phase == Waiting && w.running && !w.pong && b.outcome != Stopped
    ensures var c := Next(Env(w, b.outcome), b.delay);
            && |c.wins| == |w.wins| + 1 && c.wins[..|w.wins|] == w.wins
            && c.wins[|w.wins|] == Window(b.outcome, w.pingAt,
                                          w.pingAt + if b.outcome == Expired then 2000 else b.delay)
  {}

  lemma PingAfterPause(w: NodeVal)
    requires NodeOk(w) && w.phase == Waiting && w.wins != []
    ensures var last := w.wins[|w.wins| - 1];
            w.pingAt == last.end + (if last.outcome == Answered && |w.wins| > 1 then 500 else 0)
  {
    hide LogOf, LogWaiting, Tally, CountOk;
  }

  /** Death in figures: six silent windows, 12000 ms after the first of their pings, 12500 ms after the
      last answer (12000 if that answered the very first ping); the log ends in a ping, the notice, five
      pings and the DEAD notice. */
  lemma DeathInFigures(n: NodeVal)
    requires NodeOk(n) && Announced(n)
    ensures var m := |n.wins|;
            && m >= 6
            && (forall i :: m - 6 <= i < m ==> n.wins[i].outcome == Expired)
            && n.wins[m - 1].end == n.wins[m - 6].start + 12000
            && (m == 7 ==> n.wins[m - 1].end == n.wins[0].end + 12000)
            && (m > 7 ==> n.wins[m - 1].end == n.wins[m - 7].end + 12500)
    ensures var l := |n.log|;
            && l >= 8
            && n.log[l - 8..] == [PingNote, TimeoutNote, PingNote, PingNote, PingNote, PingNote, PingNote, DeadNote]
  {
    hide NodeOk, Announced;
    DeathTiming(n);
    DeathIsEarned(n);
    assert Pings(5) == [PingNote, PingNote, PingNote, PingNote, PingNote];
  }
}
