/** The command protocol end to end: callers, the hub, one stream per connection, and the
    agents. A step is a stretch between two awaits on the event loop, or an event on the
    wire or at an agent. Any label may be tried at any time; one that is not enabled
    leaves the system as it is. */
module Protocol {
  import opened Hub

  // ── State ──────────────────────────────────────────────────────────────────

  /** The far half of a stream: commands an agent is running for it, and results on their
      way to the hub's reader. */
  datatype Link = Link(open: bool, running: set<CommandId>, uplink: seq<(CommandId, Answer)>)

  datatype CallOutcome = Returned(answer: Answer) | Unreachable(reason: Reason) | Cancelled

  datatype Ended = Ended(id: CommandId, outcome: CallOutcome)

  /** `home` is the connection each command was sent on; `awaiting` the callers suspended in
      `call`; `ended` the calls that are over, `executions` the commands agents started and
      `produced` the results they made, all three as histories. */
  datatype System = System(
    hub: HubState, links: map<ConnId, Link>, home: map<CommandId, ConnId>,
    issued: set<CommandId>, awaiting: set<CommandId>, cancelAsked: set<CommandId>, ended: seq<Ended>,
    executions: seq<(ConnId, CommandId)>, produced: set<(ConnId, CommandId, Answer)>, timedOut: set<CommandId>)

  const Idle := System(HubState(map[], map[], map[], map[]), map[], map[], {}, {}, {}, [], [], {}, {})

  datatype Label =
    | Connect(c: ConnId, n: NodeId)          // Session authorised: a new connection is attached
    | StreamBreaks(c: ConnId, kept: nat)     // only the first `kept` results in flight survive
    | AgentDies(c: ConnId)
    | SessionEnds(c: ConnId)                 // the handler's finally: reader cancelled, detach
    | BeginCall(id: CommandId, n: NodeId)
    | Drain(c: ConnId, received: bool)       // the writer takes one message; it may be lost
    | Finish(c: ConnId, id: CommandId, a: Answer)
    | ReadResult(c: ConnId)
    | TimerFires(id: CommandId, wins: bool)     // whether it overrides a result the caller has yet to see,
    | CallerCancels(id: CommandId, wins: bool)  // as it does from Python 3.12 on and not before
    | Wake(id: CommandId)                    // the caller resumes and leaves `call`
    | AskToStop(n: NodeId, id: CommandId)
    | Shutdown

  // ── Steps ──────────────────────────────────────────────────────────────────

  function DoConnect(s: System, c: ConnId, n: NodeId): System {
    if c in s.hub.conns then s
    else
      var h := s.hub.(conns := s.hub.conns[c := Conn(n, {}, [], false)]);
      s.(hub := Attached(h, c), links := s.links[c := Link(true, {}, [])])
  }

  function DoBreak(s: System, c: ConnId, kept: nat): System {
    if c !in s.hub.conns || c !in s.links then s
    else
      var k := s.links[c];
      s.(hub := s.hub.(conns := s.hub.conns[c := s.hub.conns[c].(closed := true)]),
         links := s.links[c := k.(open := false, uplink := if kept < |k.uplink| then k.uplink[..kept] else k.uplink)])
  }

  function DoDie(s: System, c: ConnId): System {
    if c !in s.links then s else s.(links := s.links[c := Link(false, {}, s.links[c].uplink)])
  }

  function DoEnd(s: System, c: ConnId): System {
    if c !in s.hub.conns || c !in s.links then s
    else s.(hub := Detached(s.hub, c), links := s.links[c := s.links[c].(open := false, uplink := [])])
  }

  function DoBegin(s: System, id: CommandId, n: NodeId): System {
    if id in s.issued then s
    else if n !in s.hub.connections || s.hub.connections[n] !in s.hub.conns then
      s.(issued := s.issued + {id}, ended := s.ended + [Ended(id, Unreachable(NotConnected))])
    else
      var c := s.hub.connections[n];
      s.(hub := SendTo(s.hub, c, id), home := s.home[id := c], issued := s.issued + {id}, awaiting := s.awaiting + {id})
  }

  function DoDrain(s: System, c: ConnId, received: bool): System {
    if c !in s.hub.conns || c !in s.links || s.hub.conns[c].outbox == [] then s
    else
      var m := s.hub.conns[c].outbox[0];
      var s1 := s.(hub := s.hub.(conns := s.hub.conns[c := s.hub.conns[c].(outbox := s.hub.conns[c].outbox[1..])]));
      if received && s.links[c].open && m.RunCommand? then
        s1.(links := s.links[c := s.links[c].(running := s.links[c].running + {m.id})],
            executions := s.executions + [(c, m.id)])
      else s1
  }

  function DoFinish(s: System, c: ConnId, id: CommandId, a: Answer): System {
    if c !in s.links || id !in s.links[c].running then s
    else
      var k := s.links[c];
      s.(links := s.links[c := k.(running := k.running - {id}, uplink := if k.open then k.uplink + [(id, a)] else k.uplink)],
         produced := s.produced + {(c, id, a)})
  }

  function DoRead(s: System, c: ConnId): System {
    if c !in s.hub.conns || c !in s.links || s.links[c].uplink == [] then s
    else
      var (id, a) := s.links[c].uplink[0];
      s.(hub := Delivered(s.hub, c, id, a), links := s.links[c := s.links[c].(uplink := s.links[c].uplink[1..])])
  }

  function Resolve(s: System, id: CommandId, f: Future): System {
    if id in s.hub.futures && s.hub.futures[id].Waiting? then s.(hub := s.hub.(futures := s.hub.futures[id := f])) else s
  }

  predicate Unresolved(s: System, id: CommandId) { id in s.hub.futures && s.hub.futures[id].Waiting? }

  function DoTimer(s: System, id: CommandId, wins: bool): System {
    if id in s.awaiting && (wins || Unresolved(s, id))
    then Resolve(s, id, Expired).(timedOut := s.timedOut + {id}) else s
  }

  function DoCancel(s: System, id: CommandId, wins: bool): System {
    if id in s.awaiting && (wins || Unresolved(s, id))
    then Resolve(s, id, Withdrawn).(cancelAsked := s.cancelAsked + {id}) else s
  }

  function OutcomeOf(s: System, id: CommandId): CallOutcome
    requires id in s.hub.futures
  {
    if id in s.cancelAsked then Cancelled
    else if id in s.timedOut then Unreachable(TimedOut)
    else match s.hub.futures[id]
      case Settled(a) => Returned(a)
      case Broken(r) => Unreachable(r)
      case Expired => Unreachable(TimedOut)
      case _ => Cancelled
  }

  predicate CanWake(s: System, id: CommandId) {
    && id in s.awaiting && id in s.hub.futures && !s.hub.futures[id].Waiting?
    && id in s.home && s.home[id] in s.hub.conns
  }

  /** The caller leaves by its deadline or by cancellation, and tells the agent so. */
  predicate GaveUp(s: System, id: CommandId)
    requires id in s.hub.futures
  {
    id in s.cancelAsked || id in s.timedOut || s.hub.futures[id].Expired? || s.hub.futures[id].Withdrawn?
  }

  function DoWake(s: System, id: CommandId): System {
    if !CanWake(s, id) then s
    else
      var h := if GaveUp(s, id) then QueueCancel(s.hub, s.home[id], id) else s.hub;
      s.(hub := Discarded(h, s.home[id], id), awaiting := s.awaiting - {id},
         ended := s.ended + [Ended(id, OutcomeOf(s, id))])
  }

  function DoAsk(s: System, n: NodeId, id: CommandId): System {
    if n in s.hub.connections && s.hub.connections[n] in s.hub.conns
    then s.(hub := QueueCancel(s.hub, s.hub.connections[n], id)) else s
  }

  function Next(s: System, l: Label): System {
    match l
    case Connect(c, n) => DoConnect(s, c, n)
    case StreamBreaks(c, kept) => DoBreak(s, c, kept)
    case AgentDies(c) => DoDie(s, c)
    case SessionEnds(c) => DoEnd(s, c)
    case BeginCall(id, n) => DoBegin(s, id, n)
    case Drain(c, received) => DoDrain(s, c, received)
    case Finish(c, id, a) => DoFinish(s, c, id, a)
    case ReadResult(c) => DoRead(s, c)
    case TimerFires(id, wins) => DoTimer(s, id, wins)
    case CallerCancels(id, wins) => DoCancel(s, id, wins)
    case Wake(id) => DoWake(s, id)
    case AskToStop(n, id) => DoAsk(s, n, id)
    case Shutdown => s.(hub := AllShut(s.hub))
  }

  function Exec(s: System, ls: seq<Label>): System {
    if ls == [] then s else Next(Exec(s, ls[..|ls| - 1]), ls[|ls| - 1])
  }

  // ── The invariant, component by component ─────────────────────────────────

  /** Links belong to connections, and the hub map to connections of the right node. */
  ghost predicate Roster(connections: map<NodeId, ConnId>, conns: map<ConnId, Conn>, links: map<ConnId, Link>) {
    && links.Keys == conns.Keys
    && forall n :: n in connections ==> connections[n] in conns && conns[connections[n]].node == n
  }

  ghost predicate Homes(home: map<CommandId, ConnId>, sent: set<CommandId>, known: set<ConnId>,
                        issued: set<CommandId>, awaiting: set<CommandId>) {
    && home.Keys == sent && awaiting <= sent && sent <= issued
    && forall id :: id in home ==> home[id] in known
  }

  /** Every call begun is awaiting or has ended once, never both. */
  ghost predicate Accounts(issued: set<CommandId>, awaiting: set<CommandId>, ended: seq<Ended>) {
    && (forall id :: id in issued <==> id in awaiting || HasEnded(ended, id))
    && (forall i :: 0 <= i < |ended| ==> ended[i].id !in awaiting)
    && (forall i, j :: 0 <= i < j < |ended| ==> ended[i].id != ended[j].id)
  }

  predicate HasEnded(ended: seq<Ended>, id: CommandId) {
    exists i :: 0 <= i < |ended| && ended[i].id == id
  }

  /** A pending entry is an awaiting call sent on this very connection. */
  ghost predicate PendingOk(c: ConnId, pending: set<CommandId>, home: map<CommandId, ConnId>, awaiting: set<CommandId>) {
    forall id :: id in pending ==> id in home && home[id] == c && id in awaiting
  }

  predicate Current(connections: map<NodeId, ConnId>, n: NodeId, c: ConnId) {
    n in connections && connections[n] == c
  }

  /** A connection out of the map holds nothing and is closed. */
  predicate GoneOk(c: ConnId, k: Conn, connections: map<NodeId, ConnId>) {
    !Current(connections, k.node, c) ==> k.pending == {} && k.closed
  }

  /** An unresolved future is held by the connection its call was sent on; a broken one
      belongs to a connection that has left the map. */
  ghost predicate FutureOk(id: CommandId, f: Future, home: map<CommandId, ConnId>, awaiting: set<CommandId>,
                           connections: map<NodeId, ConnId>, conns: map<ConnId, Conn>) {
    && id in home && home[id] in conns
    && (f.Waiting? ==> id in awaiting && id in conns[home[id]].pending)
    && (f.Broken? ==> !Current(connections, conns[home[id]].node, home[id]))
  }

  predicate Started(executions: seq<(ConnId, CommandId)>, id: CommandId) {
    exists i :: 0 <= i < |executions| && executions[i].1 == id
  }

  /** A queued command is queued once, on its own connection, and has not been started. */
  ghost predicate OutboxOk(c: ConnId, box: seq<Control>, home: map<CommandId, ConnId>, executions: seq<(ConnId, CommandId)>) {
    && (forall i :: 0 <= i < |box| && box[i].RunCommand? ==>
          box[i].id in home && home[box[i].id] == c && !Started(executions, box[i].id))
    && (forall i, j :: 0 <= i < j < |box| ==> box[i].RunCommand? ==> box[i] != box[j])
  }

  ghost predicate ExecutionsOk(executions: seq<(ConnId, CommandId)>, home: map<CommandId, ConnId>) {
    && (forall i :: 0 <= i < |executions| ==> executions[i].1 in home && home[executions[i].1] == executions[i].0)
    && (forall i, j :: 0 <= i < j < |executions| ==> executions[i].1 != executions[j].1)
  }

  ghost predicate Answered(produced: set<(ConnId, CommandId, Answer)>, id: CommandId) {
    exists p :: p in produced && p.1 == id
  }

  /** What runs has been started here and not answered; what is on its way back was produced here. */
  ghost predicate LinkOk(c: ConnId, k: Link, executions: seq<(ConnId, CommandId)>, produced: set<(ConnId, CommandId, Answer)>) {
    && (forall id :: id in k.running ==> (c, id) in executions && !Answered(produced, id))
    && (forall i :: 0 <= i < |k.uplink| ==> (c, k.uplink[i].0, k.uplink[i].1) in produced)
  }

  ghost predicate ProducedOk(produced: set<(ConnId, CommandId, Answer)>, executions: seq<(ConnId, CommandId)>) {
    && (forall p :: p in produced ==> (p.0, p.1) in executions)
    && (forall p, q :: p in produced && q in produced && p.1 == q.1 ==> p == q)
  }

  ghost predicate SettledOk(id: CommandId, f: Future, home: map<CommandId, ConnId>, produced: set<(ConnId, CommandId, Answer)>) {
    f.Settled? ==> id in home && (home[id], id, f.answer) in produced
  }

  ghost predicate EndedOk(e: Ended, home: map<CommandId, ConnId>, produced: set<(ConnId, CommandId, Answer)>,
                          cancelAsked: set<CommandId>, timedOut: set<CommandId>)
  {
    && (e.outcome.Returned? ==> e.id in home && (home[e.id], e.id, e.outcome.answer) in produced)
    && (e.outcome.Cancelled? ==> e.id in cancelAsked)
    && (e.outcome == Unreachable(TimedOut) ==> e.id in timedOut)
  }

  ghost predicate Shape(s: System) {
    && Roster(s.hub.connections, s.hub.conns, s.links)
    && Homes(s.home, s.hub.futures.Keys, s.hub.conns.Keys, s.issued, s.awaiting)
    && Accounts(s.issued, s.awaiting, s.ended)
  }

  ghost predicate WaitersOf(h: HubState, home: map<CommandId, ConnId>, awaiting: set<CommandId>) {
    && (forall c :: c in h.conns ==> PendingOk(c, h.conns[c].pending, home, awaiting))
    && (forall c :: c in h.conns ==> GoneOk(c, h.conns[c], h.connections))
    && (forall id :: id in h.futures ==> FutureOk(id, h.futures[id], home, awaiting, h.connections, h.conns))
  }

  ghost predicate Waiters(s: System) { WaitersOf(s.hub, s.home, s.awaiting) }

  ghost predicate Traffic(s: System) {
    && (forall c :: c in s.hub.conns ==> OutboxOk(c, s.hub.conns[c].outbox, s.home, s.executions))
    && ExecutionsOk(s.executions, s.home)
    && (forall c :: c in s.links ==> LinkOk(c, s.links[c], s.executions, s.produced))
    && ProducedOk(s.produced, s.executions)
  }

  ghost predicate Answers(s: System) {
    && (forall id :: id in s.hub.futures ==> SettledOk(id, s.hub.futures[id], s.home, s.produced))
    && (forall id :: id in s.hub.futures && s.hub.futures[id].Withdrawn? ==> id in s.cancelAsked)
    && (forall id :: id in s.hub.futures && s.hub.futures[id].Expired? ==> id in s.timedOut)
    && (forall id :: id in s.hub.futures && s.hub.futures[id].Broken? ==> !s.hub.futures[id].reason.TimedOut?)
    && (forall i :: 0 <= i < |s.ended| ==> EndedOk(s.ended[i], s.home, s.produced, s.cancelAsked, s.timedOut))
  }

  /** Only a call that has begun is given up, and none whose future is still unresolved has been. */
  ghost predicate Patient(s: System) {
    && s.cancelAsked <= s.issued && s.timedOut <= s.issued
    && (forall id :: id in s.hub.futures && s.hub.futures[id].Waiting? ==> id !in s.cancelAsked && id !in s.timedOut)
  }

  // ── Each part is kept by every step ────────────────────────────────────────

  lemma EndedGrows(issued: set<CommandId>, awaiting: set<CommandId>, ended: seq<Ended>, e: Ended)
    requires Accounts(issued, awaiting, ended) && (e.id in awaiting || e.id !in issued)
    ensures Accounts(issued + {e.id}, awaiting - {e.id}, ended + [e])
  {
    var ended' := ended + [e];
    assert ended'[|ended|] == e;
    forall id
      ensures id in issued + {e.id} <==> id in awaiting - {e.id} || HasEnded(ended', id)
    {
      if HasEnded(ended, id) {
        var i :| 0 <= i < |ended| && ended[i].id == id;
        assert ended'[i].id == id;
      }
    }
  }

  lemma WakeShape(s: System, id: CommandId)
    requires Shape(s)
    ensures Shape(DoWake(s, id))
  {
    if CanWake(s, id) {
      assert s.issued + {id} == s.issued;
      EndedGrows(s.issued, s.awaiting, s.ended, Ended(id, OutcomeOf(s, id)));
    }
  }

  lemma BeginShape(s: System, id: CommandId, n: NodeId)
    requires Shape(s)
    ensures Shape(DoBegin(s, id, n))
  {
    if id !in s.issued && n !in s.hub.connections {
      assert s.awaiting - {id} == s.awaiting;
      EndedGrows(s.issued, s.awaiting, s.ended, Ended(id, Unreachable(NotConnected)));
    }
  }

  /** What `Shape` sees of a step that begins and ends no call. */
  ghost predicate SameSkeleton(s: System, s': System) {
    && s'.hub.conns.Keys == s.hub.conns.Keys && s'.links.Keys == s.links.Keys
    && s'.hub.futures.Keys == s.hub.futures.Keys
    && s'.home == s.home && s'.issued == s.issued && s'.awaiting == s.awaiting && s'.ended == s.ended
    && (forall c :: c in s.hub.conns ==> s'.hub.conns[c].node == s.hub.conns[c].node)
    && (forall n :: n in s'.hub.connections ==> n in s.hub.connections && s'.hub.connections[n] == s.hub.connections[n])
  }

  lemma KeysKept<K, V>(m: map<K, V>, k: K, v: V)
    requires k in m
    ensures m[k := v].Keys == m.Keys
  {
  }

  lemma BreakSkeleton(s: System, c: ConnId, kept: nat)
    requires Roster(s.hub.connections, s.hub.conns, s.links)
    ensures SameSkeleton(s, DoBreak(s, c, kept))
  {
  }

  lemma DieSkeleton(s: System, c: ConnId)
    requires Roster(s.hub.connections, s.hub.conns, s.links)
    ensures SameSkeleton(s, DoDie(s, c))
  {
  }

  lemma FinishSkeleton(s: System, c: ConnId, id: CommandId, a: Answer)
    requires Roster(s.hub.connections, s.hub.conns, s.links)
    ensures SameSkeleton(s, DoFinish(s, c, id, a))
  {
  }

  lemma DrainSkeleton(s: System, c: ConnId, received: bool)
    requires Roster(s.hub.connections, s.hub.conns, s.links)
    ensures SameSkeleton(s, DoDrain(s, c, received))
  {
  }

  lemma ReadSkeleton(s: System, c: ConnId)
    requires Roster(s.hub.connections, s.hub.conns, s.links)
    ensures SameSkeleton(s, DoRead(s, c))
  {
  }

  lemma TimerSkeleton(s: System, id: CommandId, wins: bool)
    requires Roster(s.hub.connections, s.hub.conns, s.links)
    ensures SameSkeleton(s, DoTimer(s, id, wins))
  {
  }

  lemma CancelSkeleton(s: System, id: CommandId, wins: bool)
    requires Roster(s.hub.connections, s.hub.conns, s.links)
    ensures SameSkeleton(s, DoCancel(s, id, wins))
  {
  }

  lemma AbandonSkeleton(h: HubState, cs: set<ConnId>, reason: Reason)
    ensures var h' := AbandonAll(h, cs, reason);
      && h'.conns.Keys == h.conns.Keys && h'.futures.Keys == h.futures.Keys && h'.connections == h.connections
      && forall c :: c in h.conns ==> h'.conns[c].node == h.conns[c].node
  {
  }

  lemma HubSkeleton(s: System, l: Label)
    requires Roster(s.hub.connections, s.hub.conns, s.links)
    requires l.SessionEnds? || l.AskToStop? || l.Shutdown?
    ensures SameSkeleton(s, Next(s, l))
  {
    match l
    case SessionEnds(c) =>
      if c in s.hub.conns {
        var n := s.hub.conns[c].node;
        AbandonSkeleton(if IsCurrent(s.hub, c) then s.hub.(connections := s.hub.connections - {n}) else s.hub, {c}, Disconnected);
        KeysKept(s.links, c, s.links[c].(open := false, uplink := []));
      }
    case AskToStop(n, id) =>
      if n in s.hub.connections {
        var c := s.hub.connections[n];
        KeysKept(s.hub.conns, c, Next(s, l).hub.conns[c]);
      }
    case Shutdown => AbandonSkeleton(s.hub, s.hub.connections.Values, ShuttingDown);
  }

  lemma ConnectShape(s: System, c: ConnId, n: NodeId)
    requires Shape(s)
    ensures Shape(DoConnect(s, c, n))
  {
  }

  lemma SkeletonOf(s: System, l: Label)
    requires Roster(s.hub.connections, s.hub.conns, s.links) && !l.Connect? && !l.BeginCall? && !l.Wake?
    ensures SameSkeleton(s, Next(s, l))
  {
    match l
    case StreamBreaks(c, kept) => BreakSkeleton(s, c, kept);
    case AgentDies(c) => DieSkeleton(s, c);
    case Finish(c, id, a) => FinishSkeleton(s, c, id, a);
    case Drain(c, received) => DrainSkeleton(s, c, received);
    case ReadResult(c) => ReadSkeleton(s, c);
    case TimerFires(id, wins) => TimerSkeleton(s, id, wins);
    case CallerCancels(id, wins) => CancelSkeleton(s, id, wins);
    case _ => HubSkeleton(s, l);
  }

  lemma ShapeStays(s: System, l: Label)
    requires Shape(s)
    ensures Shape(Next(s, l))
  {
    match l
    case Connect(c, n) => ConnectShape(s, c, n);
    case BeginCall(id, n) => BeginShape(s, id, n);
    case Wake(id) => WakeShape(s, id);
    case _ => SkeletonOf(s, l);
  }

  /** Taking connections out of the map and abandoning exactly those keeps every waiter on
      a connection that is still in it. */
  lemma AbandonWaiters(h: HubState, connections: map<NodeId, ConnId>, cs: set<ConnId>, reason: Reason,
                       home: map<CommandId, ConnId>, awaiting: set<CommandId>)
    requires WaitersOf(h, home, awaiting)
    requires forall c :: c in h.conns && c !in cs && Current(h.connections, h.conns[c].node, c) ==>
      Current(connections, h.conns[c].node, c)
    requires forall c :: c in h.conns && c in cs ==> !Current(connections, h.conns[c].node, c)
    requires forall c :: c in h.conns && Current(connections, h.conns[c].node, c) && !Current(h.connections, h.conns[c].node, c) ==>
      c !in home.Values
    ensures WaitersOf(AbandonAll(h.(connections := connections), cs, reason), home, awaiting)
  {
    var h0 := h.(connections := connections);
    var h1 := AbandonAll(h0, cs, reason);
    forall id | id in h1.futures
      ensures FutureOk(id, h1.futures[id], home, awaiting, h1.connections, h1.conns)
    {
      assert FutureOk(id, h.futures[id], home, awaiting, h.connections, h.conns);
      if h.futures[id].Waiting? {
        var c := home[id];
        if c in cs {
          assert HeldBy(h0, cs, id);
        } else {
          forall d | d in cs && d in h.conns
            ensures id !in h.conns[d].pending
          {
            assert PendingOk(d, h.conns[d].pending, home, awaiting);
          }
        }
      }
    }
  }

  lemma AddConn(h: HubState, c: ConnId, n: NodeId, home: map<CommandId, ConnId>, awaiting: set<CommandId>)
    requires WaitersOf(h, home, awaiting) && c !in h.conns && n !in h.connections && Registered(h)
    ensures WaitersOf(h.(conns := h.conns[c := Conn(n, {}, [], false)], connections := h.connections[n := c]), home, awaiting)
  {
  }

  /** Registering a fresh connection and then abandoning the one it displaces is abandoning
      first and registering afterwards. */
  lemma AttachDisplacing(h: HubState, c: ConnId, n: NodeId)
    requires c !in h.conns && Registered(h) && n in h.connections
    ensures var cleared := AbandonAll(h.(connections := h.connections - {n}), {h.connections[n]}, Disconnected);
      var after := Attached(h.(conns := h.conns[c := Conn(n, {}, [], false)]), c);
      && after.connections == cleared.connections[n := c]
      && after.conns == cleared.conns[c := Conn(n, {}, [], false)] && after.futures == cleared.futures
  {
    var d := h.connections[n];
    var h0 := h.(connections := h.connections - {n});
    var h1 := h.(conns := h.conns[c := Conn(n, {}, [], false)], connections := h.connections[n := c]);
    assert forall id :: HeldBy(h1, {d}, id) <==> HeldBy(h0, {d}, id);
    assert AbandonAll(h1, {d}, Disconnected).futures == AbandonAll(h0, {d}, Disconnected).futures;
    assert AbandonAll(h1, {d}, Disconnected).conns == AbandonAll(h0, {d}, Disconnected).conns[c := Conn(n, {}, [], false)];
    assert h1.connections == h0.connections[n := c];
  }

  lemma ConnectWaiters(s: System, c: ConnId, n: NodeId)
    requires Shape(s) && Waiters(s)
    ensures Waiters(DoConnect(s, c, n))
  {
    if c !in s.hub.conns {
      if n in s.hub.connections {
        var rest := s.hub.connections - {n};
        AbandonWaiters(s.hub, rest, {s.hub.connections[n]}, Disconnected, s.home, s.awaiting);
        AddConn(AbandonAll(s.hub.(connections := rest), {s.hub.connections[n]}, Disconnected), c, n, s.home, s.awaiting);
        AttachDisplacing(s.hub, c, n);
      } else {
        AddConn(s.hub, c, n, s.home, s.awaiting);
      }
    }
  }

  lemma EndWaiters(s: System, c: ConnId)
    requires Shape(s) && Waiters(s)
    ensures Waiters(DoEnd(s, c))
  {
    if c in s.hub.conns && c in s.links {
      var n := s.hub.conns[c].node;
      var rest := if IsCurrent(s.hub, c) then s.hub.connections - {n} else s.hub.connections;
      AbandonWaiters(s.hub, rest, {c}, Disconnected, s.home, s.awaiting);
    }
  }

  lemma ShutReordered(h: HubState)
    ensures AbandonAll(h.(connections := map[]), h.connections.Values, ShuttingDown) == AllShut(h)
  {
  }

  lemma ShutWaiters(s: System)
    requires Shape(s) && Waiters(s)
    ensures Waiters(Next(s, Shutdown))
  {
    AbandonWaiters(s.hub, map[], s.hub.connections.Values, ShuttingDown, s.home, s.awaiting);
    ShutReordered(s.hub);
  }

  /** Replacing one connection's record, when it only lets go of resolved futures. */
  lemma ReplaceConn(h: HubState, c: ConnId, k: Conn, home: map<CommandId, ConnId>,
                    awaiting: set<CommandId>, done: set<CommandId>)
    requires WaitersOf(h, home, awaiting) && c in h.conns
    requires k.node == h.conns[c].node && k.pending <= h.conns[c].pending && (h.conns[c].closed ==> k.closed)
    requires forall id :: id in h.conns[c].pending && id !in k.pending ==> id in h.futures && !h.futures[id].Waiting?
    requires forall id :: id in done ==> id in home && home[id] == c && id !in k.pending && id in h.futures && !h.futures[id].Waiting?
    ensures WaitersOf(h.(conns := h.conns[c := k]), home, awaiting - done)
  {
  }

  lemma ResolveWaiters(s: System, id: CommandId, f: Future)
    requires Waiters(s) && !f.Waiting? && !f.Broken?
    ensures Waiters(Resolve(s, id, f))
  {
  }

  lemma BeginWaiters(s: System, id: CommandId, n: NodeId)
    requires Shape(s) && Waiters(s)
    ensures Waiters(DoBegin(s, id, n))
  {
    if id !in s.issued && n in s.hub.connections {
      var s' := DoBegin(s, id, n);
      var c := s.hub.connections[n];
      assert id !in s.home;
      forall d | d in s'.hub.conns
        ensures PendingOk(d, s'.hub.conns[d].pending, s'.home, s'.awaiting)
      {
        assert PendingOk(d, s.hub.conns[d].pending, s.home, s.awaiting);
      }
      forall j | j in s'.hub.futures
        ensures FutureOk(j, s'.hub.futures[j], s'.home, s'.awaiting, s'.hub.connections, s'.hub.conns)
      {
        assert j != id ==> FutureOk(j, s.hub.futures[j], s.home, s.awaiting, s.hub.connections, s.hub.conns);
      }
    }
  }

  lemma ReadWaiters(s: System, c: ConnId)
    requires Shape(s) && Waiters(s)
    ensures Waiters(DoRead(s, c))
  {
    if c in s.hub.conns && c in s.links && s.links[c].uplink != [] {
      var (id, a) := s.links[c].uplink[0];
      var k := s.hub.conns[c];
      if id in k.pending {
        assert PendingOk(c, k.pending, s.home, s.awaiting);
        ResolveWaiters(s, id, Settled(a));
        ReplaceConn(Resolve(s, id, Settled(a)).hub, c, k.(pending := k.pending - {id}), s.home, s.awaiting, {});
        assert s.awaiting - {} == s.awaiting;
      }
    }
  }

  lemma WakeWaiters(s: System, id: CommandId)
    requires Shape(s) && Waiters(s)
    ensures Waiters(DoWake(s, id))
  {
    if CanWake(s, id) {
      var c := s.home[id];
      var k := s.hub.conns[c];
      var box := if GaveUp(s, id)
                 then k.outbox + [CancelCommand(id)] else k.outbox;
      var k' := k.(pending := k.pending - {id}, outbox := box);
      ReplaceConn(s.hub, c, k', s.home, s.awaiting, {id});
      assert DoWake(s, id).hub.conns == s.hub.conns[c := k'];
    }
  }

  lemma RecordWaiters(s: System, c: ConnId, k: Conn)
    requires Waiters(s) && c in s.hub.conns
    requires k.node == s.hub.conns[c].node && k.pending == s.hub.conns[c].pending && (s.hub.conns[c].closed ==> k.closed)
    ensures WaitersOf(s.hub.(conns := s.hub.conns[c := k]), s.home, s.awaiting)
  {
  }

  lemma WaitersStay(s: System, l: Label)
    requires Shape(s) && Waiters(s)
    ensures Waiters(Next(s, l))
  {
    match l
    case Connect(c, n) => ConnectWaiters(s, c, n);
    case StreamBreaks(c, kept) =>
      if c in s.hub.conns { RecordWaiters(s, c, s.hub.conns[c].(closed := true)); }
    case AgentDies(c) =>
    case SessionEnds(c) => EndWaiters(s, c);
    case BeginCall(id, n) => BeginWaiters(s, id, n);
    case Drain(c, received) =>
      if c in s.hub.conns && s.hub.conns[c].outbox != [] {
        RecordWaiters(s, c, s.hub.conns[c].(outbox := s.hub.conns[c].outbox[1..]));
      }
    case Finish(c, id, a) =>
    case ReadResult(c) => ReadWaiters(s, c);
    case TimerFires(id, _) => ResolveWaiters(s, id, Expired);
    case CallerCancels(id, _) => ResolveWaiters(s, id, Withdrawn);
    case Wake(id) => WakeWaiters(s, id);
    case AskToStop(n, id) =>
      if n in s.hub.connections && s.hub.connections[n] in s.hub.conns {
        var c := s.hub.connections[n];
        RecordWaiters(s, c, s.hub.conns[c].(outbox := s.hub.conns[c].outbox + [CancelCommand(id)]));
      }
    case Shutdown => ShutWaiters(s);
  }

  predicate Rostered(s: System) { s.links.Keys == s.hub.conns.Keys }

  lemma StreamTraffic(s: System, c: ConnId, kept: nat)
    requires Rostered(s) && Traffic(s)
    ensures Traffic(DoBreak(s, c, kept)) && Traffic(DoDie(s, c))
  {
  }

  lemma StopTraffic(s: System, id: CommandId, wins: bool)
    requires Traffic(s)
    ensures Traffic(DoTimer(s, id, wins)) && Traffic(DoCancel(s, id, wins))
  {
  }

  lemma AbandonTraffic(s: System, c: ConnId)
    requires Rostered(s) && Traffic(s)
    ensures Traffic(DoEnd(s, c)) && Traffic(Next(s, Shutdown))
  {
  }

  lemma CancelTraffic(s: System, n: NodeId, id: CommandId)
    requires Rostered(s) && Traffic(s)
    ensures Traffic(DoAsk(s, n, id)) && Traffic(DoWake(s, id))
  {
  }

  lemma ConnectTraffic(s: System, c: ConnId, n: NodeId)
    requires Rostered(s) && Traffic(s)
    ensures Traffic(DoConnect(s, c, n))
  {
  }

  lemma ReadTraffic(s: System, c: ConnId)
    requires Rostered(s) && Traffic(s)
    ensures Traffic(DoRead(s, c))
  {
  }

  /** A fresh command is in no outbox and has not been started anywhere. */
  lemma BeginTraffic(s: System, id: CommandId, n: NodeId)
    requires Rostered(s) && s.home.Keys <= s.issued && Traffic(s)
    ensures Traffic(DoBegin(s, id, n))
  {
    if id !in s.issued {
      assert id !in s.home;
      assert forall i :: 0 <= i < |s.executions| ==> s.executions[i].1 in s.home;
      var s' := DoBegin(s, id, n);
      forall d | d in s'.hub.conns
        ensures OutboxOk(d, s'.hub.conns[d].outbox, s'.home, s'.executions)
      {
        assert OutboxOk(d, s.hub.conns[d].outbox, s.home, s.executions);
      }
    }
  }

  lemma DrainOutboxes(s: System, c: ConnId, received: bool)
    requires Rostered(s) && Traffic(s)
    ensures var s' := DoDrain(s, c, received);
      forall d :: d in s'.hub.conns ==> OutboxOk(d, s'.hub.conns[d].outbox, s'.home, s'.executions)
  {
  }

  /** The command leaves the queue as it is started, so it cannot be started again. */
  lemma DrainTraffic(s: System, c: ConnId, received: bool)
    requires Rostered(s) && Traffic(s)
    ensures Traffic(DoDrain(s, c, received))
  {
    DrainOutboxes(s, c, received);
    if c in s.hub.conns && s.hub.conns[c].outbox != [] {
      assert OutboxOk(c, s.hub.conns[c].outbox, s.home, s.executions);
    }
  }

  lemma FinishTraffic(s: System, c: ConnId, id: CommandId, a: Answer)
    requires Rostered(s) && Traffic(s)
    ensures Traffic(DoFinish(s, c, id, a))
  {
    if c in s.links {
      assert LinkOk(c, s.links[c], s.executions, s.produced);
    }
  }

  lemma TrafficStays(s: System, l: Label)
    requires Shape(s) && Traffic(s)
    ensures Traffic(Next(s, l))
  {
    match l
    case Connect(c, n) => ConnectTraffic(s, c, n);
    case StreamBreaks(c, kept) => StreamTraffic(s, c, kept);
    case AgentDies(c) => StreamTraffic(s, c, 0);
    case SessionEnds(c) => AbandonTraffic(s, c);
    case BeginCall(id, n) => BeginTraffic(s, id, n);
    case Drain(c, received) => DrainTraffic(s, c, received);
    case Finish(c, id, a) => FinishTraffic(s, c, id, a);
    case ReadResult(c) => ReadTraffic(s, c);
    case TimerFires(id, wins) => StopTraffic(s, id, wins);
    case CallerCancels(id, wins) => StopTraffic(s, id, wins);
    case Wake(id) => CancelTraffic(s, "", id);
    case AskToStop(n, id) => CancelTraffic(s, n, id);
    case Shutdown => AbandonTraffic(s, 0);
  }

  lemma StreamAnswers(s: System, c: ConnId, kept: nat)
    requires Answers(s)
    ensures Answers(DoBreak(s, c, kept)) && Answers(DoDie(s, c))
  {
  }

  lemma EndAnswers(s: System, c: ConnId)
    requires Answers(s)
    ensures Answers(DoEnd(s, c))
  {
  }

  lemma FinishAnswers(s: System, c: ConnId, id: CommandId, a: Answer)
    requires Answers(s)
    ensures Answers(DoFinish(s, c, id, a))
  {
  }

  lemma StopAnswers(s: System, id: CommandId, wins: bool)
    requires Answers(s)
    ensures Answers(DoTimer(s, id, wins)) && Answers(DoCancel(s, id, wins))
  {
  }

  lemma ConnectAnswers(s: System, c: ConnId, n: NodeId)
    requires Answers(s)
    ensures Answers(DoConnect(s, c, n))
  {
  }

  lemma ShutdownAnswers(s: System)
    requires Answers(s)
    ensures Answers(Next(s, Shutdown))
  {
  }

  lemma BeginAnswers(s: System, id: CommandId, n: NodeId)
    requires Shape(s) && Answers(s)
    ensures Answers(DoBegin(s, id, n))
  {
  }

  lemma QueueAnswers(s: System, c: ConnId, n: NodeId, id: CommandId, received: bool)
    requires Answers(s)
    ensures Answers(DoAsk(s, n, id)) && Answers(DoDrain(s, c, received))
  {
  }

  /** A delivered result was produced on the connection it arrives on, and the future it
      settles was sent on that same connection. */
  lemma ReadAnswers(s: System, c: ConnId)
    requires Rostered(s) && Waiters(s) && Traffic(s) && Answers(s)
    ensures Answers(DoRead(s, c))
  {
    if c in s.hub.conns && c in s.links && s.links[c].uplink != [] {
      assert LinkOk(c, s.links[c], s.executions, s.produced);
      assert PendingOk(c, s.hub.conns[c].pending, s.home, s.awaiting);
    }
  }

  lemma WakeAnswers(s: System, id: CommandId)
    requires Answers(s)
    ensures Answers(DoWake(s, id))
  {
  }

  lemma AnswersStay(s: System, l: Label)
    requires Shape(s) && Waiters(s) && Traffic(s) && Answers(s)
    ensures Answers(Next(s, l))
  {
    match l
    case Connect(c, n) => ConnectAnswers(s, c, n);
    case StreamBreaks(c, kept) => StreamAnswers(s, c, kept);
    case AgentDies(c) => StreamAnswers(s, c, 0);
    case SessionEnds(c) => EndAnswers(s, c);
    case BeginCall(id, n) => BeginAnswers(s, id, n);
    case Drain(c, received) => QueueAnswers(s, c, "", 0, received);
    case Finish(c, id, a) => FinishAnswers(s, c, id, a);
    case ReadResult(c) => ReadAnswers(s, c);
    case TimerFires(id, wins) => StopAnswers(s, id, wins);
    case CallerCancels(id, wins) => StopAnswers(s, id, wins);
    case Wake(id) => WakeAnswers(s, id);
    case AskToStop(n, id) => QueueAnswers(s, 0, n, id, true);
    case Shutdown => ShutdownAnswers(s);
  }

  lemma PatientStays(s: System, l: Label)
    requires Shape(s) && Patient(s)
    ensures Patient(Next(s, l))
  {
  }

  ghost predicate Sound(s: System) { Shape(s) && Waiters(s) && Traffic(s) && Answers(s) && Patient(s) }

  lemma SoundStays(s: System, l: Label)
    requires Sound(s)
    ensures Sound(Next(s, l))
  {
    ShapeStays(s, l);
    WaitersStay(s, l);
    TrafficStays(s, l);
    AnswersStay(s, l);
    PatientStays(s, l);
  }

  lemma {:induction false} AlwaysSound(ls: seq<Label>)
    ensures Sound(Exec(Idle, ls))
  {
    if ls != [] {
      AlwaysSound(ls[..|ls| - 1]);
      SoundStays(Exec(Idle, ls[..|ls| - 1]), ls[|ls| - 1]);
    }
  }

  // ── The theorems, over every interleaving ──────────────────────────────────

  /** Each command id is started at most once, by one agent stream, and that stream is the
      one it was sent on. */
  lemma ExecutedAtMostOnce(ls: seq<Label>, i: int, j: int)
    requires var s := Exec(Idle, ls);
      0 <= i < |s.executions| && 0 <= j < |s.executions| && s.executions[i].1 == s.executions[j].1
    ensures var s := Exec(Idle, ls);
      i == j && s.executions[i].1 in s.home && s.home[s.executions[i].1] == s.executions[i].0
  {
    AlwaysSound(ls);
  }

  predicate Cancels(l: Label, id: CommandId) { l.CallerCancels? && l.id == id }

  predicate Fires(l: Label, id: CommandId) { l.TimerFires? && l.id == id }

  predicate CallerCancelled(ls: seq<Label>, id: CommandId) { exists i :: 0 <= i < |ls| && Cancels(ls[i], id) }

  predicate TimerFired(ls: seq<Label>, id: CommandId) { exists i :: 0 <= i < |ls| && Fires(ls[i], id) }

  lemma OnlyCallersCancel(s: System, l: Label, id: CommandId)
    ensures id in Next(s, l).cancelAsked ==> id in s.cancelAsked || Cancels(l, id)
    ensures id in Next(s, l).timedOut ==> id in s.timedOut || Fires(l, id)
  {
  }

  lemma {:induction false} CancelsWereAsked(ls: seq<Label>, id: CommandId)
    requires id in Exec(Idle, ls).cancelAsked
    ensures CallerCancelled(ls, id)
  {
    if ls != [] {
      var k := |ls| - 1;
      OnlyCallersCancel(Exec(Idle, ls[..k]), ls[k], id);
      if id in Exec(Idle, ls[..k]).cancelAsked {
        CancelsWereAsked(ls[..k], id);
        var i :| 0 <= i < k && Cancels(ls[..k][i], id);
        assert Cancels(ls[i], id);
      }
    }
  }

  lemma {:induction false} TimersDidFire(ls: seq<Label>, id: CommandId)
    requires id in Exec(Idle, ls).timedOut
    ensures TimerFired(ls, id)
  {
    if ls != [] {
      var k := |ls| - 1;
      OnlyCallersCancel(Exec(Idle, ls[..k]), ls[k], id);
      if id in Exec(Idle, ls[..k]).timedOut {
        TimersDidFire(ls[..k], id);
        var i :| 0 <= i < k && Fires(ls[..k][i], id);
        assert Fires(ls[i], id);
      }
    }
  }

  /** A call that has been begun is suspended or has ended exactly once. If it ended with an
      answer, value or failure, the agent produced that very answer for that id on the
      connection the command was sent on, and no other answer exists for it; if its caller
      did not cancel it, the only other ending is `NodeUnreachable`, and it is told of a deadline
      only if that deadline passed. */
  lemma CallsEndTruthfully(ls: seq<Label>, id: CommandId)
    ensures var s := Exec(Idle, ls);
      && (id in s.issued <==> id in s.awaiting || HasEnded(s.ended, id))
      && !(id in s.awaiting && HasEnded(s.ended, id))
      && (forall i, j :: 0 <= i < |s.ended| && 0 <= j < |s.ended| && s.ended[i].id == id && s.ended[j].id == id ==> i == j)
      && (forall i :: 0 <= i < |s.ended| && s.ended[i].id == id ==>
            match s.ended[i].outcome
            case Returned(a) =>
              && id in s.home && (s.home[id], id, a) in s.produced && (s.home[id], id) in s.executions
              && (forall p :: p in s.produced && p.1 == id ==> p == (s.home[id], id, a))
            case Unreachable(r) => r == TimedOut ==> TimerFired(ls, id)
            case Cancelled => CallerCancelled(ls, id))
  {
    AlwaysSound(ls);
    var s := Exec(Idle, ls);
    forall i | 0 <= i < |s.ended| && s.ended[i].id == id
      ensures EndedOk(s.ended[i], s.home, s.produced, s.cancelAsked, s.timedOut)
      ensures s.ended[i].outcome.Cancelled? ==> CallerCancelled(ls, id)
      ensures s.ended[i].outcome == Unreachable(TimedOut) ==> TimerFired(ls, id)
    {
      if s.ended[i].outcome.Cancelled? {
        CancelsWereAsked(ls, id);
      }
      if s.ended[i].outcome == Unreachable(TimedOut) {
        TimersDidFire(ls, id);
      }
    }
  }

  /** The event behind each way of being told "unreachable", in the state it happens in: the
      deadline passes; the hub shuts down; the stream the command was sent on ends, or a newer
      one from the same node displaces it; no stream is registered when the call begins. */
  predicate Causes(s: System, l: Label, id: CommandId, r: Reason) {
    match r
    case TimedOut => Fires(l, id)
    case ShuttingDown => l.Shutdown?
    case Disconnected =>
      && id in s.home && s.home[id] in s.hub.conns
      && (l == SessionEnds(s.home[id]) || (l.Connect? && l.n == s.hub.conns[s.home[id]].node && l.c !in s.hub.conns))
    case NotConnected => l.BeginCall? && l.id == id && id !in s.issued && !Connected(s.hub, l.n)
  }

  predicate HasCause(ls: seq<Label>, id: CommandId, r: Reason) {
    exists k :: 0 <= k < |ls| && Causes(Exec(Idle, ls[..k]), ls[k], id, r)
  }

  predicate BrokenBy(s: System, id: CommandId, r: Reason) {
    id in s.hub.futures && s.hub.futures[id] == Broken(r)
  }

  lemma AbandonBreaks(h: HubState, cs: set<ConnId>, reason: Reason, id: CommandId, r: Reason)
    ensures var h' := AbandonAll(h, cs, reason);
      id in h'.futures && h'.futures[id] == Broken(r) ==>
        (id in h.futures && h.futures[id] == Broken(r)) || (r == reason && HeldBy(h, cs, id))
  {
  }

  lemma EndBreaks(s: System, c: ConnId, id: CommandId, r: Reason)
    requires Waiters(s) && BrokenBy(DoEnd(s, c), id, r) && !BrokenBy(s, id, r)
    ensures Causes(s, SessionEnds(c), id, r)
  {
    var n := s.hub.conns[c].node;
    var h := if IsCurrent(s.hub, c) then s.hub.(connections := s.hub.connections - {n}) else s.hub;
    AbandonBreaks(h, {c}, Disconnected, id, r);
    assert PendingOk(c, s.hub.conns[c].pending, s.home, s.awaiting);
  }

  lemma ConnectBreaks(s: System, c: ConnId, n: NodeId, id: CommandId, r: Reason)
    requires Shape(s) && Waiters(s) && BrokenBy(DoConnect(s, c, n), id, r) && !BrokenBy(s, id, r)
    ensures Causes(s, Connect(c, n), id, r)
  {
    var h := s.hub.(conns := s.hub.conns[c := Conn(n, {}, [], false)]);
    var old' := s.hub.connections[n];
    AbandonBreaks(h.(connections := h.connections[n := c]), {old'}, Disconnected, id, r);
    assert PendingOk(old', s.hub.conns[old'].pending, s.home, s.awaiting);
  }

  lemma BreakHasCause(s: System, l: Label, id: CommandId, r: Reason)
    requires Shape(s) && Waiters(s) && BrokenBy(Next(s, l), id, r) && !BrokenBy(s, id, r)
    ensures Causes(s, l, id, r)
  {
    match l
    case Connect(c, n) => ConnectBreaks(s, c, n, id, r);
    case SessionEnds(c) => EndBreaks(s, c, id, r);
    case Shutdown => AbandonBreaks(s.hub, s.hub.connections.Values, ShuttingDown, id, r);
    case _ => OthersBreakNothing(s, l, id, r);
  }

  lemma OthersBreakNothing(s: System, l: Label, id: CommandId, r: Reason)
    requires !l.Connect? && !l.SessionEnds? && !l.Shutdown? && BrokenBy(Next(s, l), id, r)
    ensures BrokenBy(s, id, r)
  {
  }

  lemma EndHasCause(s: System, l: Label, i: nat)
    requires Shape(s) && |s.ended| <= i < |Next(s, l).ended| && Next(s, l).ended[i].outcome.Unreachable?
    ensures var e := Next(s, l).ended[i];
      || Causes(s, l, e.id, e.outcome.reason)
      || BrokenBy(s, e.id, e.outcome.reason)
      || (e.outcome.reason == TimedOut
          && (e.id in s.timedOut || (e.id in s.hub.futures && s.hub.futures[e.id].Expired?)))
  {
  }

  lemma EndedStays(s: System, l: Label)
    ensures s.ended <= Next(s, l).ended
  {
  }

  lemma CauseStays(ls: seq<Label>, k: nat, id: CommandId, r: Reason)
    requires k <= |ls| && HasCause(ls[..k], id, r)
    ensures HasCause(ls, id, r)
  {
    var i :| 0 <= i < k && Causes(Exec(Idle, ls[..k][..i]), ls[..k][i], id, r);
    assert ls[..k][..i] == ls[..i];
    assert Causes(Exec(Idle, ls[..i]), ls[i], id, r);
  }

  lemma {:induction false} BrokenForCause(ls: seq<Label>, id: CommandId, r: Reason)
    requires BrokenBy(Exec(Idle, ls), id, r)
    ensures HasCause(ls, id, r)
  {
    if ls != [] {
      var k := |ls| - 1;
      var s := Exec(Idle, ls[..k]);
      if BrokenBy(s, id, r) {
        BrokenForCause(ls[..k], id, r);
        CauseStays(ls, k, id, r);
      } else {
        AlwaysSound(ls[..k]);
        BreakHasCause(s, ls[k], id, r);
      }
    }
  }

  lemma TimeoutHasCause(ls: seq<Label>, id: CommandId)
    requires TimerFired(ls, id)
    ensures HasCause(ls, id, TimedOut)
  {
    var i :| 0 <= i < |ls| && Fires(ls[i], id);
    assert Causes(Exec(Idle, ls[..i]), ls[i], id, TimedOut);
  }

  /** Nobody is told "unreachable" without the event that makes it so. */
  lemma {:induction false} UnreachableForCause(ls: seq<Label>, i: nat)
    requires i < |Exec(Idle, ls).ended| && Exec(Idle, ls).ended[i].outcome.Unreachable?
    ensures HasCause(ls, Exec(Idle, ls).ended[i].id, Exec(Idle, ls).ended[i].outcome.reason)
  {
    if ls != [] {
      var k := |ls| - 1;
      var s := Exec(Idle, ls[..k]);
      var e := Exec(Idle, ls).ended[i];
      var r := e.outcome.reason;
      EndedStays(s, ls[k]);
      if i < |s.ended| {
        UnreachableForCause(ls[..k], i);
        CauseStays(ls, k, e.id, r);
      } else {
        AlwaysSound(ls[..k]);
        EndHasCause(s, ls[k], i);
        if BrokenBy(s, e.id, r) {
          BrokenForCause(ls[..k], e.id, r);
          CauseStays(ls, k, e.id, r);
        } else if !Causes(s, ls[k], e.id, r) {
          TimedOutForCause(ls[..k], e.id);
          CauseStays(ls, k, e.id, r);
        }
      }
    }
  }

  lemma TimedOutForCause(ls: seq<Label>, id: CommandId)
    requires var s := Exec(Idle, ls);
      id in s.timedOut || (id in s.hub.futures && s.hub.futures[id].Expired?)
    ensures HasCause(ls, id, TimedOut)
  {
    AlwaysSound(ls);
    TimersDidFire(ls, id);
    TimeoutHasCause(ls, id);
  }

  /** Every unresolved future belongs to an awaiting call, is held by the connection it was
      sent on, and that connection is still registered, so a detach, a displacement or a
      shutdown is still to come. A connection out of the map holds nothing. */
  lemma NoStrandedWaiter(ls: seq<Label>, id: CommandId, c: ConnId)
    ensures var s := Exec(Idle, ls);
      && (id in s.hub.futures && s.hub.futures[id].Waiting? ==>
            && id in s.awaiting && id in s.home && s.home[id] in s.hub.conns
            && IsCurrent(s.hub, s.home[id]) && id in s.hub.conns[s.home[id]].pending)
      && (c in s.hub.conns && !IsCurrent(s.hub, c) ==> s.hub.conns[c].pending == {} && s.hub.conns[c].closed)
  {
    AlwaysSound(ls);
    var s := Exec(Idle, ls);
    if id in s.hub.futures && s.hub.futures[id].Waiting? {
      assert FutureOk(id, s.hub.futures[id], s.home, s.awaiting, s.hub.connections, s.hub.conns);
      assert GoneOk(s.home[id], s.hub.conns[s.home[id]], s.hub.connections);
    }
    if c in s.hub.conns {
      assert GoneOk(c, s.hub.conns[c], s.hub.connections);
    }
  }

  lemma StaysGone(s: System, l: Label, c: ConnId)
    requires Shape(s) && c in s.hub.conns && !IsCurrent(s.hub, c)
    ensures c in Next(s, l).hub.conns && !IsCurrent(Next(s, l).hub, c)
  {
    if !l.Connect? && !l.BeginCall? && !l.Wake? {
      SkeletonOf(s, l);
    }
  }

  lemma {:induction false} GoneThroughout(s: System, ls: seq<Label>, c: ConnId)
    requires Sound(s) && c in s.hub.conns && !IsCurrent(s.hub, c)
    ensures Sound(Exec(s, ls)) && c in Exec(s, ls).hub.conns && !IsCurrent(Exec(s, ls).hub, c)
  {
    if ls != [] {
      var k := |ls| - 1;
      GoneThroughout(s, ls[..k], c);
      SoundStays(Exec(s, ls[..k]), ls[k]);
      StaysGone(Exec(s, ls[..k]), ls[k], c);
    }
  }

  /** Once abandoned, never back: whatever happens afterwards, the connection stays out of
      the map and its pending set stays empty. */
  lemma AbandonedForEver(before: seq<Label>, after: seq<Label>, c: ConnId)
    requires c in Exec(Idle, before).hub.conns && !IsCurrent(Exec(Idle, before).hub, c)
    ensures var s := Exec(Exec(Idle, before), after);
      c in s.hub.conns && !IsCurrent(s.hub, c) && s.hub.conns[c].pending == {}
  {
    AlwaysSound(before);
    GoneThroughout(Exec(Idle, before), after, c);
    var s := Exec(Exec(Idle, before), after);
    assert GoneOk(c, s.hub.conns[c], s.hub.connections);
  }

  lemma ReleasedByEnd(s: System, id: CommandId)
    requires Sound(s) && id in s.awaiting
    ensures id in s.home && CanWake(DoEnd(s, s.home[id]), id)
  {
    var c := s.home[id];
    assert FutureOk(id, s.hub.futures[id], s.home, s.awaiting, s.hub.connections, s.hub.conns);
    var h := if IsCurrent(s.hub, c) then s.hub.(connections := s.hub.connections - {s.hub.conns[c].node}) else s.hub;
    assert id in s.hub.conns[c].pending ==> HeldBy(h, {c}, id);
  }

  lemma ReleasedByShutdown(s: System, id: CommandId)
    requires Sound(s) && id in s.awaiting
    ensures CanWake(s.(hub := AllShut(s.hub)), id)
  {
    var c := s.home[id];
    assert FutureOk(id, s.hub.futures[id], s.home, s.awaiting, s.hub.connections, s.hub.conns);
    assert GoneOk(c, s.hub.conns[c], s.hub.connections);
    assert s.hub.futures[id].Waiting? ==> HeldBy(s.hub, s.hub.connections.Values, id);
  }

  lemma ReleasedByDeadline(s: System, id: CommandId, wins: bool)
    requires Shape(s) && Waiters(s) && id in s.awaiting
    ensures CanWake(DoTimer(s, id, wins), id)
  {
    assert FutureOk(id, s.hub.futures[id], s.home, s.awaiting, s.hub.connections, s.hub.conns);
  }

  lemma WakingEnds(s: System, id: CommandId)
    requires CanWake(s, id)
    ensures HasEnded(DoWake(s, id).ended, id)
  {
    assert DoWake(s, id).ended[|s.ended|].id == id;
  }

  /** The end of a stream, or a shutdown, releases every caller on it, and a suspended call
      can always be ended: by its deadline if by nothing else. */
  lemma EveryCallCanEnd(ls: seq<Label>, id: CommandId, wins: bool)
    requires id in Exec(Idle, ls).awaiting
    ensures var s := Exec(Idle, ls);
      && id in s.home && CanWake(DoEnd(s, s.home[id]), id) && CanWake(s.(hub := AllShut(s.hub)), id)
      && HasEnded(DoWake(DoTimer(s, id, wins), id).ended, id)
  {
    var s := Exec(Idle, ls);
    assert Sound(s) by { AlwaysSound(ls); }
    ReleasedByEnd(s, id);
    ReleasedByShutdown(s, id);
    ReleasedByDeadline(s, id, wins);
    WakingEnds(DoTimer(s, id, wins), id);
  }
}
