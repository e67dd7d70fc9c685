/** The bounded blocking queue between threads (source/Utils.h, ThreadSafeQueue). `Queue` is the
    value of the queue, the class updates it in place, and `Ledger` follows whole runs. */
module SafeQueue {
  import opened Types

  datatype Queue<T> = Queue(items: seq<T>, running: bool) {
    function Push(v: T, force: bool): Queue<T> {
      if !running then this
      else if |items| < MAX_SAFE_QUEUE then Queue(items + [v], running)
      else if force then Queue(items[1..] + [v], running)
      else this
    }

    predicate CanPop() {
      running && items != []
    }

    function Rest(): Queue<T> {
      if CanPop() then Queue(items[1..], running) else this
    }

    predicate Valid() {
      |items| <= MAX_SAFE_QUEUE
    }
  }

  /** What is left of the contents when one more element is pushed by force. */
  function Room<T>(items: seq<T>): seq<T> {
    if |items| < 100000 then items else items[1..]
  }

  class ThreadSafeQueue<T> {
    var items: seq<T>
    var running: bool

    function View(): Queue<T>
      reads this
    {
      Queue(items, running)
    }

    constructor ()
      ensures View() == Queue([], true)
    {
      items, running := [], true;
    }

    method Push(value: T, force: bool)
      modifies this
      ensures View() == old(View()).Push(value, force)
    {
      if !running {
        return;
      }
      if |items| >= MAX_SAFE_QUEUE {
        if force {
          items := items[1..];
        } else {
          return;
        }
      }
      items := items + [value];
    }

    method Peek(value: T) returns (ok: bool, front: T)
      ensures ok == (items != [])
      ensures front == if ok then items[0] else value
    {
      if items == [] {
        return false, value;
      }
      return true, items[0];
    }

    method Pop() returns (ok: bool)
      modifies this
      ensures ok == old(View()).CanPop() && View() == old(View()).Rest()
    {
      if !running || items == [] {
        return false;
      }
      items := items[1..];
      return true;
    }

    method ResetQueue()
      modifies this
      ensures View() == Queue([], old(running))
    {
      items := [];
    }

    method TryPop(value: T) returns (ok: bool, front: T)
      modifies this
      ensures ok == old(View()).CanPop() && View() == old(View()).Rest()
      ensures front == if ok then old(items)[0] else value
    {
      if !running || items == [] {
        return false, value;
      }
      front := items[0];
      items := items[1..];
      return true, front;
    }

    /** What `waitAndPop` does once its wait has ended, that is once the wait's condition holds. */
    method WaitAndPop(value: T) returns (code: int, front: T)
      requires !running || items != []
      modifies this
      ensures code == if old(running) then 0 else -1
      ensures View() == old(View()).Rest()
      ensures front == if old(running) then old(items)[0] else value
    {
      if !running {
        return -1, value;
      }
      front := value;
      if items != [] {
        front := items[0];
        items := items[1..];
      }
      return 0, front;
    }

    method Stop()
      modifies this
      ensures View() == Queue(old(items), false)
    {
      if running {
        running := false;
      }
    }

    method Start()
      modifies this
      ensures View() == Queue(old(items), true)
    {
      if !running {
        running := true;
      }
    }
  }

  // ------------------------------------------------------------ whole runs

  datatype Op<T> = PushOp(value: T, force: bool) | TakeOp | DropOp | ResetOp | StopOp | StartOp

  /** The queue together with every push it accepted and every element it delivered. */
  datatype Ledger<T> = Ledger(queue: Queue<T>, accepted: seq<T>, delivered: seq<T>)

  predicate Accepts<T>(q: Queue<T>, force: bool) {
    q.running && (force || |q.items| < MAX_SAFE_QUEUE)
  }

  function Perform<T>(l: Ledger<T>, op: Op<T>): Ledger<T> {
    var q := l.queue;
    match op
    case PushOp(v, force) =>
      Ledger(q.Push(v, force), if Accepts(q, force) then l.accepted + [v] else l.accepted, l.delivered)
    case TakeOp =>
      Ledger(q.Rest(), l.accepted, if q.CanPop() then l.delivered + [q.items[0]] else l.delivered)
    case DropOp => Ledger(q.Rest(), l.accepted, l.delivered)
    case ResetOp => Ledger(Queue([], q.running), l.accepted, l.delivered)
    case StopOp => Ledger(Queue(q.items, false), l.accepted, l.delivered)
    case StartOp => Ledger(Queue(q.items, true), l.accepted, l.delivered)
  }

  function PerformAll<T>(l: Ledger<T>, ops: seq<Op<T>>): Ledger<T>
    decreases |ops|
  {
    if ops == [] then l else PerformAll(Perform(l, ops[0]), ops[1..])
  }

  ghost predicate Subsequence<T>(a: seq<T>, b: seq<T>) {
    a == [] || (b != [] && (Subsequence(a, b[..|b| - 1])
      || (a[|a| - 1] == b[|b| - 1] && Subsequence(a[..|a| - 1], b[..|b| - 1]))))
  }

  /** The contents are the newest accepted pushes; what was delivered came, in order, from the older ones. */
  ghost predicate LedgerOk<T>(l: Ledger<T>) {
    var older := |l.accepted| - |l.queue.items|;
    && l.queue.Valid()
    && older >= 0
    && l.queue.items == l.accepted[older..]
    && Subsequence(l.delivered, l.accepted[..older])
  }

  lemma {:induction false} SubsequenceGrows<T>(a: seq<T>, b: seq<T>, more: seq<T>)
    requires Subsequence(a, b)
    ensures Subsequence(a, b + more)
    decreases |more|
  {
    if more == [] {
      assert b + more == b;
    } else {
      var most := more[..|more| - 1];
      SubsequenceGrows(a, b, most);
      assert (b + more)[..|b + more| - 1] == b + most;
    }
  }

  /** Deliveries stay a subsequence when more of the accepted pushes are gone. */
  lemma MoreGone<T>(delivered: seq<T>, accepted: seq<T>, a: nat, b: nat, v: seq<T>)
    requires a <= b <= |accepted| && Subsequence(delivered, accepted[..a])
    ensures Subsequence(delivered, (accepted + v)[..b])
  {
    SubsequenceGrows(delivered, accepted[..a], accepted[a..b]);
    assert (accepted + v)[..b] == accepted[..a] + accepted[a..b];
  }

  lemma BothGrow<T>(a: seq<T>, b: seq<T>, x: T)
    requires Subsequence(a, b)
    ensures Subsequence(a + [x], b + [x])
  {
    assert (a + [x])[..|a + [x]| - 1] == a && (b + [x])[..|b + [x]| - 1] == b;
  }

  lemma TakeKeepsLedger<T>(l: Ledger<T>)
    requires LedgerOk(l) && l.queue.CanPop()
    ensures LedgerOk(Perform(l, TakeOp))
  {
    hide Subsequence;
    var older := |l.accepted| - |l.queue.items|;
    BothGrow(l.delivered, l.accepted[..older], l.queue.items[0]);
    assert l.accepted[..older + 1] == l.accepted[..older] + [l.queue.items[0]];
  }

  lemma PerformKeepsLedger<T>(l: Ledger<T>, op: Op<T>)
    requires LedgerOk(l)
    ensures LedgerOk(Perform(l, op))
  {
    hide Subsequence;
    var older := |l.accepted| - |l.queue.items|;
    match op
    case PushOp(v, force) =>
      if Accepts(l.queue, force) {
        MoreGone(l.delivered, l.accepted, older, older, [v]);
        if l.queue.items != [] {
          MoreGone(l.delivered, l.accepted, older, older + 1, [v]);
        }
      }
    case TakeOp =>
      if l.queue.CanPop() {
        TakeKeepsLedger(l);
      }
    case DropOp =>
      if l.queue.CanPop() {
        MoreGone(l.delivered, l.accepted, older, older + 1, []);
        assert l.accepted + [] == l.accepted;
      }
    case ResetOp =>
      MoreGone(l.delivered, l.accepted, older, |l.accepted|, []);
      assert l.accepted + [] == l.accepted;
    case StopOp =>
    case StartOp =>
  }

  /** Along any run from an empty queue: never over capacity, contents a suffix of the accepted
      pushes, deliveries a subsequence of the rest. */
  lemma {:induction false} RunKeepsLedger<T>(l: Ledger<T>, ops: seq<Op<T>>)
    requires LedgerOk(l)
    ensures LedgerOk(PerformAll(l, ops))
    decreases |ops|
  {
    if ops != [] {
      PerformKeepsLedger(l, ops[0]);
      RunKeepsLedger(Perform(l, ops[0]), ops[1..]);
    }
  }

  lemma RunFromEmpty<T>(ops: seq<Op<T>>)
    ensures var l := PerformAll(Ledger(Queue([], true), [], []), ops);
            && |l.queue.items| <= MAX_SAFE_QUEUE
            && |l.queue.items| <= |l.accepted|
            && l.queue.items == l.accepted[|l.accepted| - |l.queue.items|..]
            && Subsequence(l.delivered, l.accepted[..|l.accepted| - |l.queue.items|])
  {
    RunKeepsLedger(Ledger(Queue([], true), [], []), ops);
  }

  /** At any point of any run, a forced push on a running queue becomes the last element, and
      stopping then starting keeps the contents. */
  lemma ForcedPushIsLast<T>(ops: seq<Op<T>>, v: T)
    ensures var l := PerformAll(Ledger(Queue([], true), [], []), ops);
            var pushed := Perform(l, PushOp(v, true)).queue;
            && (l.queue.running ==> pushed.items != [] && pushed.items[|pushed.items| - 1] == v)
            && (!l.queue.running ==> pushed == l.queue)
            && PerformAll(l, [StopOp, StartOp]).queue.items == l.queue.items
  {
    var l := PerformAll(Ledger(Queue([], true), [], []), ops);
    RunKeepsLedger(Ledger(Queue([], true), [], []), ops);
    assert PerformAll(l, [StopOp, StartOp]) == PerformAll(Perform(l, StopOp), [StartOp]);
    assert PerformAll(Perform(l, StopOp), [StartOp]) == PerformAll(Perform(Perform(l, StopOp), StartOp), []);
  }
}
