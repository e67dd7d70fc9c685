/** What ties the messages NoM has not handled yet to the registry. `msgs` is everything popped or
    queued but unhandled, oldest first; `lost` holds the emitters whose DEAD notice went missing. */
module Mailbox {
  import opened Node
  import opened Registry

  ghost predicate Increasing(nodes: Nodes) {
    forall i, j :: 0 <= i < j < |nodes| ==> nodes[i].id < nodes[j].id
  }

  /** Entry `i` pushed `m`; if `m` is its DEAD notice, it has recorded that. */
  predicate HomeAt(nodes: Nodes, m: Msg, i: nat) {
    && i < |nodes|
    && nodes[i].id == m.emitter && nodes[i].addr == m.addr && nodes[i].typeNode == m.typeNode
    && (IsDead(m) ==> Announced(nodes[i]))
  }

  ghost predicate Homed(nodes: Nodes, m: Msg) {
    exists i :: HomeAt(nodes, m, i)
  }

  ghost predicate AllHomed(nodes: Nodes, msgs: seq<Msg>) {
    forall k :: 0 <= k < |msgs| ==> Homed(nodes, msgs[k])
  }

  /** A DEAD notice is its emitter's last message. */
  ghost predicate DeadLast(msgs: seq<Msg>) {
    forall j, k :: 0 <= j < k < |msgs| && msgs[j].emitter == msgs[k].emitter ==> !IsDead(msgs[j])
  }

  ghost function DeadEmitters(msgs: seq<Msg>): set<nat> {
    set m | m in msgs && IsDead(m) :: m.emitter
  }

  ghost function AnnouncedIds(nodes: Nodes): set<nat> {
    set n | n in nodes && Announced(n) :: n.id
  }

  /** Every entry past its DEAD push has exactly one of: a DEAD notice still to be handled, a lost one. */
  ghost predicate Balanced(nodes: Nodes, msgs: seq<Msg>, lost: set<nat>) {
    && AnnouncedIds(nodes) == DeadEmitters(msgs) + lost
    && DeadEmitters(msgs) !! lost
  }

  ghost predicate MailOk(nodes: Nodes, msgs: seq<Msg>, lost: set<nat>) {
    && Increasing(nodes)
    && AllHomed(nodes, msgs)
    && DeadLast(msgs)
    && Balanced(nodes, msgs, lost)
  }

  function Dead(m: Msg): set<nat> {
    if IsDead(m) then {m.emitter} else {}
  }

  function Without<T>(s: seq<T>, k: nat): seq<T>
    requires k < |s|
  {
    s[..k] + s[k + 1..]
  }

  lemma WithoutKeeps<T>(s: seq<T>, k: nat)
    requires k < |s|
    ensures forall x :: x in s && x != s[k] ==> x in Without(s, k)
  {
    forall x | x in s && x != s[k]
      ensures x in s[..k] + s[k + 1..]
    {
      var j :| 0 <= j < |s| && s[j] == x;
      if j < k {
        assert s[..k][j] == x;
      } else {
        assert s[k + 1..][j - k - 1] == x;
      }
    }
  }

  lemma WithoutIndex<T>(s: seq<T>, k: nat, x: T) returns (j: nat)
    requires k < |s| && x in Without(s, k)
    ensures j < |s| && j != k && s[j] == x
  {
    var i :| 0 <= i < |Without(s, k)| && Without(s, k)[i] == x;
    j := if i < k then i else i + 1;
  }

  // ------------------------------------------------------------ sets of emitters

  lemma DeadEmittersAdd(msgs: seq<Msg>, m: Msg)
    ensures DeadEmitters(msgs + [m]) == DeadEmitters(msgs) + Dead(m)
  {
    assert forall x :: x in msgs + [m] <==> x in msgs || x == m;
  }

  lemma DeadEmittersDrop(msgs: seq<Msg>, k: nat)
    requires k < |msgs| && DeadLast(msgs)
    ensures DeadEmitters(Without(msgs, k)) == DeadEmitters(msgs) - Dead(msgs[k])
  {
    hide Without;
    WithoutKeeps(msgs, k);
    forall x | x in Without(msgs, k)
      ensures x in msgs && (IsDead(msgs[k]) && IsDead(x) ==> x.emitter != msgs[k].emitter)
    {
      var j := WithoutIndex(msgs, k, x);
    }
  }

  lemma AnnouncedIdsUpdate(nodes: Nodes, i: nat, n': NodeVal)
    requires i < |nodes| && Increasing(nodes) && n'.id == nodes[i].id
    requires Announced(nodes[i]) ==> Announced(n')
    ensures AnnouncedIds(nodes[i := n']) == AnnouncedIds(nodes) + (if Announced(n') then {n'.id} else {})
  {
    hide Announced;
    var nodes' := nodes[i := n'];
    forall n | n in nodes && n != nodes[i]
      ensures n in nodes'
    {
      var j :| 0 <= j < |nodes| && nodes[j] == n;
      assert nodes'[j] == n;
    }
    assert nodes'[i] == n';
  }

  lemma AnnouncedIdsDrop(nodes: Nodes, i: nat)
    requires i < |nodes| && Increasing(nodes)
    ensures AnnouncedIds(Without(nodes, i)) == AnnouncedIds(nodes) - {nodes[i].id}
  {
    hide Announced, Without, Increasing;
    MembersDrop(nodes, i);
  }

  lemma MembersDrop(nodes: Nodes, i: nat)
    requires i < |nodes| && Increasing(nodes)
    ensures forall n :: n in Without(nodes, i) <==> n in nodes && n.id != nodes[i].id
  {
    hide Without;
    WithoutKeeps(nodes, i);
    forall n | n in Without(nodes, i)
      ensures n in nodes && n.id != nodes[i].id
    {
      var j := WithoutIndex(nodes, i, n);
    }
  }

  // ------------------------------------------------------------ what keeps MailOk

  ghost predicate SameNode(n: NodeVal, n': NodeVal) {
    n'.id == n.id && n'.addr == n.addr && n'.typeNode == n.typeNode
  }

  lemma UpdateHomed(nodes: Nodes, i: nat, n': NodeVal, m: Msg)
    requires i < |nodes| && SameNode(nodes[i], n') && (Announced(nodes[i]) ==> Announced(n'))
    requires Homed(nodes, m)
    ensures Homed(nodes[i := n'], m)
  {
    hide Announced;
    var j: nat :| HomeAt(nodes, m, j);
    assert HomeAt(nodes[i := n'], m, j);
  }

  /** A change of an entry that pushes nothing. */
  lemma MailUpdate(nodes: Nodes, i: nat, n': NodeVal, msgs: seq<Msg>, lost: set<nat>)
    requires MailOk(nodes, msgs, lost) && i < |nodes|
    requires SameNode(nodes[i], n') && Announced(nodes[i]) == Announced(n')
    ensures MailOk(nodes[i := n'], msgs, lost)
  {
    forall k | 0 <= k < |msgs|
      ensures Homed(nodes[i := n'], msgs[k])
    {
      UpdateHomed(nodes, i, n', msgs[k]);
    }
    AnnouncedIdsUpdate(nodes, i, n');
    if Announced(n') {
      assert nodes[i] in nodes && nodes[i].id in AnnouncedIds(nodes);
    }
    hide Homed, HomeAt, Announced, DeadLast, DeadEmitters, AnnouncedIds;
  }

  /** Entry `i` pushes `m` and the queue takes it. */
  lemma MailPush(nodes: Nodes, i: nat, n': NodeVal, m: Msg, msgs: seq<Msg>, lost: set<nat>)
    requires MailOk(nodes, msgs, lost) && i < |nodes|
    requires SameNode(nodes[i], n') && !Announced(nodes[i])
    requires HomeAt(nodes[i := n'], m, i) && (Announced(n') ==> IsDead(m))
    ensures MailOk(nodes[i := n'], msgs + [m], lost)
  {
    var nodes' := nodes[i := n'];
    forall k | 0 <= k < |msgs + [m]|
      ensures Homed(nodes', (msgs + [m])[k])
    {
      if k < |msgs| {
        UpdateHomed(nodes, i, n', msgs[k]);
      }
    }
    NoDeadYet(nodes, i, msgs);
    AnnouncedIdsUpdate(nodes, i, n');
    DeadEmittersAdd(msgs, m);
    NotAnnounced(nodes, i);
    hide Homed, Announced, DeadEmitters, AnnouncedIds;
  }

  /** Nothing from a node that has not announced its death is a DEAD notice. */
  lemma NoDeadYet(nodes: Nodes, i: nat, msgs: seq<Msg>)
    requires Increasing(nodes) && AllHomed(nodes, msgs) && i < |nodes| && !Announced(nodes[i])
    ensures forall k :: 0 <= k < |msgs| && msgs[k].emitter == nodes[i].id ==> !IsDead(msgs[k])
  {
    hide Announced;
    forall k | 0 <= k < |msgs| && msgs[k].emitter == nodes[i].id
      ensures !IsDead(msgs[k])
    {
      assert Homed(nodes, msgs[k]);
      var j: nat :| HomeAt(nodes, msgs[k], j);
      assert j == i;
    }
  }

  lemma NotAnnounced(nodes: Nodes, i: nat)
    requires Increasing(nodes) && i < |nodes| && !Announced(nodes[i])
    ensures nodes[i].id !in AnnouncedIds(nodes)
  {
    hide Announced;
    forall n | n in nodes && n.id == nodes[i].id
      ensures !Announced(n)
    {
      var j :| 0 <= j < |nodes| && nodes[j] == n;
      assert !(j < i) && !(i < j);
    }
  }

  /** Message `k` goes missing: evicted, refused, or dropped by a stop. */
  lemma MailLose(nodes: Nodes, k: nat, msgs: seq<Msg>, lost: set<nat>)
    requires MailOk(nodes, msgs, lost) && k < |msgs|
    ensures MailOk(nodes, Without(msgs, k), lost + Dead(msgs[k]))
  {
    var rest := Without(msgs, k);
    forall j | 0 <= j < |rest|
      ensures rest[j] == msgs[if j < k then j else j + 1] && Homed(nodes, rest[j])
    {
      assert Homed(nodes, msgs[if j < k then j else j + 1]);
    }
    DeadEmittersDrop(msgs, k);
    if IsDead(msgs[k]) {
      assert msgs[k] in msgs && msgs[k].emitter in DeadEmitters(msgs);
    }
    hide Homed, Announced, DeadEmitters, AnnouncedIds, Increasing;
  }

  /** The oldest message is handled and is no DEAD notice. */
  lemma MailHandled(nodes: Nodes, msgs: seq<Msg>, lost: set<nat>)
    requires MailOk(nodes, msgs, lost) && msgs != [] && !IsDead(msgs[0])
    ensures MailOk(nodes, msgs[1..], lost)
  {
    MailLose(nodes, 0, msgs, lost);
    assert Without(msgs, 0) == msgs[1..];
    assert lost + {} == lost;
  }

  lemma DropHomed(nodes: Nodes, i: nat, m: Msg)
    requires i < |nodes| && Homed(nodes, m) && m.emitter != nodes[i].id
    ensures Homed(Without(nodes, i), m)
  {
    hide Announced;
    var j: nat :| HomeAt(nodes, m, j);
    assert HomeAt(Without(nodes, i), m, if j < i then j else j - 1);
  }

  lemma DropIncreasing(nodes: Nodes, i: nat)
    requires i < |nodes| && Increasing(nodes)
    ensures Increasing(Without(nodes, i))
  {
    var nodes' := Without(nodes, i);
    assert forall j :: 0 <= j < |nodes'| ==> nodes'[j] == nodes[if j < i then j else j + 1];
  }

  /** The oldest message is a DEAD notice and its emitter's entry is removed. */
  lemma MailErased(nodes: Nodes, i: nat, msgs: seq<Msg>, lost: set<nat>)
    requires MailOk(nodes, msgs, lost) && msgs != [] && IsDead(msgs[0]) && HomeAt(nodes, msgs[0], i)
    ensures MailOk(Without(nodes, i), msgs[1..], lost)
  {
    forall k | 0 <= k < |msgs[1..]|
      ensures Homed(Without(nodes, i), msgs[1..][k])
    {
      assert Homed(nodes, msgs[k + 1]) && msgs[1..][k] == msgs[k + 1];
      DropHomed(nodes, i, msgs[k + 1]);
    }
    DropIncreasing(nodes, i);
    assert Without(msgs, 0) == msgs[1..];
    DeadEmittersDrop(msgs, 0);
    AnnouncedIdsDrop(nodes, i);
    assert msgs[0] in msgs && msgs[0].emitter in DeadEmitters(msgs);
    hide Homed, Announced, DeadEmitters, AnnouncedIds, Increasing;
  }

  /** A new entry with a new identity. */
  lemma MailAdmit(nodes: Nodes, n: NodeVal, msgs: seq<Msg>, lost: set<nat>)
    requires MailOk(nodes, msgs, lost) && !Announced(n)
    requires forall i :: 0 <= i < |nodes| ==> nodes[i].id < n.id
    ensures MailOk(nodes + [n], msgs, lost)
  {
    hide Announced;
    var nodes' := nodes + [n];
    forall k | 0 <= k < |msgs|
      ensures Homed(nodes', msgs[k])
    {
      assert Homed(nodes, msgs[k]);
      var j: nat :| HomeAt(nodes, msgs[k], j);
      assert HomeAt(nodes', msgs[k], j);
    }
    assert AnnouncedIds(nodes') == AnnouncedIds(nodes) by {
      assert forall x :: x in nodes' <==> x in nodes || x == n;
    }
  }
}
