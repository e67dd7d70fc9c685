/** What becomes of everything offered to a queue and of everything taken from it by one thread, which
    has at most one element in hand: the bookkeeping behind g_receivedIOQueue, g_messageNodeQueue and
    g_sendIOQueue. */
module Flow {
  import opened SafeQueue

  datatype Event<T> =
    | Offer(value: T)       // a forced push
    | Take                  // the thread pops the oldest element
    | Finish                // and is done with it
    | Drop                  // or leaves without
    | Switch(on: bool)      // the queue is started or stopped

  datatype Track<T> = Track(queue: Queue<T>, hand: seq<T>, offered: seq<T>, accepted: seq<T>,
                            handled: seq<T>, refused: seq<T>, evicted: seq<T>, dropped: seq<T>)

  function Untouched<T>(): Track<T> {
    Track(Queue([], true), [], [], [], [], [], [], [])
  }

  function Happen<T>(k: Track<T>, e: Event<T>): Track<T> {
    match e
    case Offer(v) =>
      var q := k.queue;
      if !q.running then k.(offered := k.offered + [v], refused := k.refused + [v])
      else
        k.(queue := Queue(Room(q.items) + [v], true), offered := k.offered + [v], accepted := k.accepted + [v],
           evicted := k.evicted + q.items[..|q.items| - |Room(q.items)|])
    case Take =>
      if k.hand != [] || k.queue.items == [] then k
      else k.(queue := Queue(k.queue.items[1..], k.queue.running), hand := [k.queue.items[0]])
    case Finish => k.(handled := k.handled + k.hand, hand := [])
    case Drop => k.(dropped := k.dropped + k.hand, hand := [])
    case Switch(on) => k.(queue := Queue(k.queue.items, on))
  }

  /** The events of `es`, in order. */
  function Play<T>(k: Track<T>, es: seq<Event<T>>): Track<T>
    decreases |es|
  {
    if es == [] then k else Play(Happen(k, es[0]), es[1..])
  }

  /** Everything has exactly one fate: what was offered was accepted or refused; what was accepted has
      been handled, is in hand or waiting, was evicted, or was dropped. */
  ghost predicate Accounted<T>(k: Track<T>) {
    && multiset(k.offered) == multiset(k.accepted) + multiset(k.refused)
    && multiset(k.accepted) == multiset(k.handled) + multiset(k.hand) + multiset(k.queue.items)
                               + multiset(k.evicted) + multiset(k.dropped)
  }

  /** And it is served in order: what waits is the newest of what was accepted, and what was handled or is
      in hand came, in order, from the rest. */
  ghost predicate InOrder<T>(k: Track<T>) {
    var older := |k.accepted| - |k.queue.items|;
    && older >= 0
    && k.queue.items == k.accepted[older..]
    && Subsequence(k.handled + k.hand, k.accepted[..older])
    && Subsequence(k.accepted, k.offered)
  }

  ghost predicate TrackOk<T>(k: Track<T>) {
    |k.queue.items| <= 100000 && |k.hand| <= 1 && Accounted(k) && InOrder(k)
  }

  lemma UntouchedOk<T>()
    ensures TrackOk(Untouched<T>())
  {}

  lemma SubsequenceLess<T>(a: seq<T>, x: T, b: seq<T>)
    requires Subsequence(a + [x], b)
    ensures Subsequence(a, b)
    decreases |b|
  {
    assert (a + [x])[..|a + [x]| - 1] == a;
    assert b == b[..|b| - 1] + [b[|b| - 1]];
    if Subsequence(a + [x], b[..|b| - 1]) {
      SubsequenceLess(a, x, b[..|b| - 1]);
    }
    SubsequenceGrows(a, b[..|b| - 1], [b[|b| - 1]]);
  }

  lemma OfferAccounted<T>(k: Track<T>, v: T)
    requires Accounted(k)
    ensures Accounted(Happen(k, Offer(v)))
  {
    hide Room;
    RoomSplits(k.queue.items);
    var items := k.queue.items;
    var gone := items[..|items| - |Room(items)|];
    assert multiset(gone + Room(items)) == multiset(gone) + multiset(Room(items));
    assert multiset(k.evicted + gone) == multiset(k.evicted) + multiset(gone);
  }

  lemma RoomSplits<T>(items: seq<T>)
    ensures |items| - 1 <= |Room(items)| <= |items|
    ensures items == items[..|items| - |Room(items)|] + Room(items)
    ensures |items| <= 100000 ==> |Room(items)| <= 99999
  {}

  lemma RefusedInOrder<T>(k: Track<T>, v: T)
    requires InOrder(k) && !k.queue.running
    ensures InOrder(Happen(k, Offer(v)))
  {
    hide Subsequence, Room;
    SubsequenceGrows(k.accepted, k.offered, [v]);
  }

  /** Dropping the first `gone` of the newest elements and adding one leaves the newest. */
  lemma SuffixMoves<T>(accepted: seq<T>, older: nat, gone: nat, v: T)
    requires older + gone <= |accepted|
    ensures (accepted + [v])[older + gone..] == accepted[older..][gone..] + [v]
  {}

  lemma AcceptedInOrder<T>(k: Track<T>, v: T)
    requires InOrder(k) && k.queue.running
    ensures InOrder(Happen(k, Offer(v)))
  {
    hide Subsequence, Room;
    var items, older := k.queue.items, |k.accepted| - |k.queue.items|;
    var gone := |items| - |Room(items)|;
    RoomSplits(items);
    RoomIsRest(items);
    BothGrow(k.accepted, k.offered, v);
    MoreGone(k.handled + k.hand, k.accepted, older, older + gone, [v]);
    SuffixMoves(k.accepted, older, gone, v);
  }

  lemma RoomIsRest<T>(items: seq<T>)
    ensures |Room(items)| <= |items| && Room(items) == items[|items| - |Room(items)|..]
  {}

  lemma TakeAccounted<T>(k: Track<T>)
    requires Accounted(k)
    ensures Accounted(Happen(k, Take))
  {
    var items := k.queue.items;
    if k.hand == [] && items != [] {
      assert items == [items[0]] + items[1..];
    }
  }

  lemma TakeInOrder<T>(k: Track<T>)
    requires InOrder(k)
    ensures InOrder(Happen(k, Take))
  {
    hide Subsequence;
    var items, older := k.queue.items, |k.accepted| - |k.queue.items|;
    assert k.handled + [] == k.handled;
    if k.hand == [] && items != [] {
      BothGrow(k.handled, k.accepted[..older], items[0]);
      assert k.accepted[..older + 1] == k.accepted[..older] + [items[0]];
    }
  }

  lemma HandAccounted<T>(k: Track<T>)
    requires Accounted(k)
    ensures Accounted(Happen(k, Drop)) && Accounted(Happen(k, Finish))
  {
    assert multiset(k.handled + k.hand) == multiset(k.handled) + multiset(k.hand);
    assert multiset(k.dropped + k.hand) == multiset(k.dropped) + multiset(k.hand);
  }

  lemma HandInOrder<T>(k: Track<T>)
    requires InOrder(k) && |k.hand| <= 1
    ensures InOrder(Happen(k, Drop)) && InOrder(Happen(k, Finish))
  {
    hide Subsequence;
    assert k.handled + [] == k.handled;
    assert k.handled + k.hand + [] == k.handled + k.hand;
    if k.hand != [] {
      assert k.hand == [k.hand[0]];
      SubsequenceLess(k.handled, k.hand[0], k.accepted[..|k.accepted| - |k.queue.items|]);
    }
  }

  lemma SwitchKeeps<T>(k: Track<T>, on: bool)
    requires Accounted(k) && InOrder(k)
    ensures Accounted(Happen(k, Switch(on))) && InOrder(Happen(k, Switch(on)))
  {
    hide Subsequence;
  }

  lemma HappenFits<T>(k: Track<T>, e: Event<T>)
    requires |k.queue.items| <= 100000 && |k.hand| <= 1
    ensures |Happen(k, e).queue.items| <= 100000 && |Happen(k, e).hand| <= 1
  {}

  lemma HappenKeeps<T>(k: Track<T>, e: Event<T>)
    requires TrackOk(k)
    ensures TrackOk(Happen(k, e))
  {
    hide Accounted, InOrder, Happen;
    HappenFits(k, e);
    match e
    case Offer(v) =>
      OfferAccounted(k, v);
      if k.queue.running {
        AcceptedInOrder(k, v);
      } else {
        RefusedInOrder(k, v);
      }
    case Take =>
      TakeAccounted(k);
      TakeInOrder(k);
    case Switch(on) =>
      SwitchKeeps(k, on);
    case _ =>
      HandAccounted(k);
      HandInOrder(k);
  }

  lemma {:induction false} PlayKeeps<T>(k: Track<T>, es: seq<Event<T>>)
    requires TrackOk(k)
    ensures TrackOk(Play(k, es))
    decreases |es|
  {
    hide TrackOk, Happen;
    if es != [] {
      HappenKeeps(k, es[0]);
      PlayKeeps(Happen(k, es[0]), es[1..]);
    }
  }

  /** A burst of offers. */
  function Offers<T>(vs: seq<T>): (r: seq<Event<T>>)
    ensures |r| == |vs| && forall i :: 0 <= i < |vs| ==> r[i] == Offer(vs[i])
  {
    seq(|vs|, i requires 0 <= i < |vs| => Offer(vs[i]))
  }

  lemma PlayOne<T>(k: Track<T>, e: Event<T>)
    ensures Play(k, [e]) == Happen(k, e)
  {
    assert Play(Happen(k, e), [e][1..]) == Happen(k, e);
  }

  lemma PlayShort<T>(k: Track<T>, es: seq<Event<T>>)
    ensures |es| == 1 ==> Play(k, es) == Happen(k, es[0])
  {
    if |es| == 1 {
      assert es == [es[0]];
      PlayOne(k, es[0]);
    }
  }

  lemma PlayTwo<T>(k: Track<T>, e: Event<T>, f: Event<T>)
    ensures Play(k, [e, f]) == Happen(Happen(k, e), f)
  {
    assert [e, f][1..] == [f];
    PlayOne(Happen(k, e), f);
  }

  /** Each accepted element was offered; each element in hand was accepted. */
  lemma HandWasAccepted<T>(k: Track<T>, x: T)
    requires TrackOk(k) && (x in k.hand || x in k.queue.items || x in k.handled)
    ensures x in k.accepted
  {
    hide InOrder;
    assert x in multiset(k.accepted);
  }
}
