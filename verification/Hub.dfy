/** The registry of connected agents. Connections and futures live in tables keyed by
    identity, which stands for the object heap: two entries are the same object exactly when
    their keys are equal. */
module Hub {
  import opened Wrappers

  type NodeId = string
  type ConnId = nat
  type CommandId = nat

  /** What an agent answers; whether it carries a value or a failure is the agent's doing. */
  datatype Answer = Value(payload: string) | Failure(kind: string, message: string)

  datatype Reason = NotConnected | Disconnected | TimedOut | ShuttingDown

  datatype Future =
    | Waiting
    | Settled(answer: Answer)
    | Broken(reason: Reason)
    | Expired          // cancelled by the deadline
    | Withdrawn        // cancelled by the caller

  datatype Control = RunCommand(id: CommandId) | CancelCommand(id: CommandId)

  datatype Conn = Conn(node: NodeId, pending: set<CommandId>, outbox: seq<Control>, closed: bool)

  /** `lastNotice` is the value most recently passed to the listeners for each node. */
  datatype HubState = HubState(
    connections: map<NodeId, ConnId>,
    conns: map<ConnId, Conn>,
    futures: map<CommandId, Future>,
    lastNotice: map<NodeId, bool>)

  predicate Registered(h: HubState) {
    forall n :: n in h.connections ==> h.connections[n] in h.conns
  }

  predicate IsCurrent(h: HubState, c: ConnId)
    requires c in h.conns
  {
    var n := h.conns[c].node;
    n in h.connections && h.connections[n] == c
  }

  // ── Operations, as functions ───────────────────────────────────────────────

  predicate HeldBy(h: HubState, cs: set<ConnId>, id: CommandId) {
    exists c :: c in cs && c in h.conns && id in h.conns[c].pending
  }

  /** Close the connections `cs` and break every future they still hold. */
  function AbandonAll(h: HubState, cs: set<ConnId>, reason: Reason): HubState {
    h.(conns := map c | c in h.conns :: if c in cs then h.conns[c].(pending := {}, closed := true) else h.conns[c],
       futures := map id | id in h.futures ::
                    if HeldBy(h, cs, id) && h.futures[id].Waiting? then Broken(reason) else h.futures[id])
  }

  function SendTo(h: HubState, c: ConnId, id: CommandId): HubState
    requires c in h.conns
  {
    var k := h.conns[c];
    h.(conns := h.conns[c := k.(pending := k.pending + {id}, outbox := k.outbox + [RunCommand(id)])],
       futures := h.futures[id := Waiting])
  }

  function QueueCancel(h: HubState, c: ConnId, id: CommandId): HubState
    requires c in h.conns
  {
    h.(conns := h.conns[c := h.conns[c].(outbox := h.conns[c].outbox + [CancelCommand(id)])])
  }

  function Delivered(h: HubState, c: ConnId, id: CommandId, a: Answer): HubState
    requires c in h.conns
  {
    var k := h.conns[c];
    if id !in k.pending then h
    else h.(conns := h.conns[c := k.(pending := k.pending - {id})],
            futures := if id in h.futures && h.futures[id].Waiting? then h.futures[id := Settled(a)] else h.futures)
  }

  function Discarded(h: HubState, c: ConnId, id: CommandId): HubState
    requires c in h.conns
  {
    h.(conns := h.conns[c := h.conns[c].(pending := h.conns[c].pending - {id})])
  }

  function Notified(h: HubState, n: NodeId, up: bool): HubState {
    h.(lastNotice := h.lastNotice[n := up])
  }

  function Attached(h: HubState, c: ConnId): HubState
    requires c in h.conns
  {
    var n := h.conns[c].node;
    var h1 := h.(connections := h.connections[n := c]);
    var h2 := if n in h.connections && h.connections[n] != c then AbandonAll(h1, {h.connections[n]}, Disconnected)
              else h1;
    Notified(h2, n, true)
  }

  function Detached(h: HubState, c: ConnId): HubState
    requires c in h.conns
  {
    var n := h.conns[c].node;
    var h1 := if IsCurrent(h, c) then h.(connections := h.connections - {n}) else h;
    Notified(AbandonAll(h1, {c}, Disconnected), n, false)
  }

  function AllShut(h: HubState): HubState {
    AbandonAll(h, h.connections.Values, ShuttingDown).(connections := map[])
  }

  predicate Connected(h: HubState, n: NodeId) { n in h.connections }

  function ConnectionTo(h: HubState, n: NodeId): Option<ConnId> {
    if n in h.connections then Some(h.connections[n]) else None
  }

  lemma AbandonTwice(h: HubState, a: set<ConnId>, b: set<ConnId>, reason: Reason)
    ensures AbandonAll(AbandonAll(h, a, reason), b, reason) == AbandonAll(h, a + b, reason)
  {
  }

  // ── The hub in place ───────────────────────────────────────────────────────

  class AgentHub {
    var connections: map<NodeId, ConnId>
    var conns: map<ConnId, Conn>
    var futures: map<CommandId, Future>
    var lastNotice: map<NodeId, bool>

    ghost function View(): HubState
      reads this
    {
      HubState(connections, conns, futures, lastNotice)
    }

    constructor ()
      ensures View() == HubState(map[], map[], map[], map[])
    {
      connections, conns, futures, lastNotice := map[], map[], map[], map[];
    }

    method Send(c: ConnId, id: CommandId)
      requires c in conns
      modifies this
      ensures View() == SendTo(old(View()), c, id)
    {
      futures := futures[id := Waiting];
      conns := conns[c := conns[c].(pending := conns[c].pending + {id})];
      conns := conns[c := conns[c].(outbox := conns[c].outbox + [RunCommand(id)])];
    }

    method Deliver(c: ConnId, id: CommandId, a: Answer)
      requires c in conns
      modifies this
      ensures View() == Delivered(old(View()), c, id, a)
    {
      if id !in conns[c].pending {
        return;
      }
      conns := conns[c := conns[c].(pending := conns[c].pending - {id})];
      if id in futures && futures[id].Waiting? {
        futures := futures[id := Settled(a)];
      }
    }

    method Abandon(c: ConnId, reason: Reason)
      requires c in conns
      modifies this
      ensures View() == AbandonAll(old(View()), {c}, reason)
    {
      var pending := conns[c].pending;
      conns := conns[c := conns[c].(pending := {}, closed := true)];
      var todo := pending;
      ghost var was := futures;
      while todo != {}
        invariant todo <= pending && futures.Keys == was.Keys
        invariant connections == old(connections) && lastNotice == old(lastNotice)
        invariant conns == old(conns)[c := old(conns)[c].(pending := {}, closed := true)]
        invariant forall id :: id in was ==>
          (futures[id] == if id in pending && id !in todo && was[id].Waiting? then Broken(reason) else was[id])
        decreases todo
      {
        var id :| id in todo;
        if id in futures && futures[id].Waiting? {
          futures := futures[id := Broken(reason)];
        }
        todo := todo - {id};
      }
      ghost var h := old(View());
      assert forall id :: HeldBy(h, {c}, id) <==> id in pending;
      assert conns == AbandonAll(h, {c}, reason).conns;
      assert futures == AbandonAll(h, {c}, reason).futures;
    }

    method Discard(c: ConnId, id: CommandId)
      requires c in conns
      modifies this
      ensures View() == Discarded(old(View()), c, id)
    {
      conns := conns[c := conns[c].(pending := conns[c].pending - {id})];
    }

    method Attach(c: ConnId) returns (previous: Option<ConnId>)
      requires c in conns && Registered(View())
      modifies this
      ensures View() == Attached(old(View()), c)
      ensures previous == ConnectionTo(old(View()), old(conns)[c].node)
    {
      var n := conns[c].node;
      previous := if n in connections then Some(connections[n]) else None;
      connections := connections[n := c];
      if previous.Some? && previous.value != c {
        Abandon(previous.value, Disconnected);
      }
      lastNotice := lastNotice[n := true];
    }

    method Detach(c: ConnId)
      requires c in conns
      modifies this
      ensures View() == Detached(old(View()), c)
    {
      var n := conns[c].node;
      if n in connections && connections[n] == c {
        connections := connections - {n};
      }
      Abandon(c, Disconnected);
      lastNotice := lastNotice[n := false];
    }

    method Shutdown()
      requires Registered(View())
      modifies this
      ensures View() == AllShut(old(View()))
    {
      ghost var h := old(View());
      var todo := connections.Values;
      ghost var done: set<ConnId> := {};
      assert AbandonAll(h, {}, ShuttingDown) == h by {
        assert AbandonAll(h, {}, ShuttingDown).conns == h.conns;
        assert AbandonAll(h, {}, ShuttingDown).futures == h.futures;
      }
      while todo != {}
        invariant todo <= h.connections.Values && done == h.connections.Values - todo
        invariant conns.Keys == h.conns.Keys
        invariant View() == AbandonAll(h, done, ShuttingDown)
        decreases todo
      {
        var c :| c in todo;
        Abandon(c, ShuttingDown);
        AbandonTwice(h, done, {c}, ShuttingDown);
        todo, done := todo - {c}, done + {c};
      }
      assert done == h.connections.Values;
      connections := map[];
    }

    // `cancel_command`: ask the node to stop, without giving up on its answer.
    method CancelOn(n: NodeId, id: CommandId)
      requires Registered(View())
      modifies this
      ensures View() == if Connected(old(View()), n) then QueueCancel(old(View()), old(connections)[n], id) else old(View())
    {
      if n in connections {
        var c := connections[n];
        conns := conns[c := conns[c].(outbox := conns[c].outbox + [CancelCommand(id)])];
      }
    }
  }

  // ── What listeners were last told ──────────────────────────────────────────

  datatype Membership = AttachOf(c: ConnId) | DetachOf(c: ConnId) | ShutdownAll

  predicate Known(h: HubState, e: Membership) { !e.ShutdownAll? ==> e.c in h.conns }

  function MembershipStep(h: HubState, e: Membership): HubState {
    if !Known(h, e) then h
    else match e
      case AttachOf(c) => Attached(h, c)
      case DetachOf(c) => Detached(h, c)
      case ShutdownAll => AllShut(h)
  }

  function MembershipRun(h: HubState, es: seq<Membership>): HubState {
    if es == [] then h else MembershipStep(MembershipRun(h, es[..|es| - 1]), es[|es| - 1])
  }

  /** The listeners' last word on `n` is the truth; a node never spoken of is down. */
  predicate Truthful(h: HubState, n: NodeId) {
    Connected(h, n) <==> n in h.lastNotice && h.lastNotice[n]
  }

  /** An event that speaks of `n` to the listeners, or drops it without speaking. */
  predicate Concerns(h: HubState, e: Membership, n: NodeId) {
    match e
    case AttachOf(c) => c in h.conns && h.conns[c].node == n
    case DetachOf(c) => c in h.conns && h.conns[c].node == n
    case ShutdownAll => Connected(h, n)
  }

  /** Whether the last event about `n` left its listeners wrong: a displaced stream's late
      detach does while a newer stream is up; a shutdown, which tells them nothing, does if the
      last thing they were told is that the node is up. */
  predicate Misled(h: HubState, es: seq<Membership>, n: NodeId) {
    es != [] &&
    var k := |es| - 1;
    var before := MembershipRun(h, es[..k]);
    if !Concerns(before, es[k], n) then Misled(h, es[..k], n)
    else match es[k]
      case AttachOf(_) => false
      case DetachOf(c) => Connected(before, n) && before.connections[n] != c
      case ShutdownAll => n in before.lastNotice && before.lastNotice[n]
  }

  /** After any run of attachments, detachments and shutdowns, the value last given to the
      listeners equals `is_connected` if and only if the history did not mislead them. */
  lemma {:induction false} ListenersTruthfulIff(h: HubState, es: seq<Membership>, n: NodeId)
    requires Truthful(h, n)
    ensures Truthful(MembershipRun(h, es), n) <==> !Misled(h, es, n)
  {
    if es != [] {
      ListenersTruthfulIff(h, es[..|es| - 1], n);
    }
  }

  /** A displaced stream's late detach leaves the newer stream connected with everything it
      was waiting for, and tells the listeners the node is gone. */
  lemma LateDetachKeepsNewer(h: HubState, stale: ConnId, newer: ConnId)
    requires stale in h.conns && newer in h.conns && stale != newer
    requires h.conns[stale].node == h.conns[newer].node && IsCurrent(h, stale)
    requires h.conns[stale].pending !! h.conns[newer].pending
    ensures var n := h.conns[newer].node;
      var after := Detached(Attached(h, newer), stale);
      && ConnectionTo(after, n) == Some(newer)
      && after.conns[newer] == h.conns[newer] && after.conns[stale].pending == {}
      && (forall id :: id in h.conns[newer].pending && id in h.futures ==> after.futures[id] == h.futures[id])
      && after.lastNotice[n] == false
  {
  }
}
