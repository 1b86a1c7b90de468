/** How a call ends, event by event: what each one that can end it makes its caller see, and that
    the agent's answer reaches it through whatever else is queued. */
module CallRuns {
  import opened Hub
  import opened Protocol

  /** Waiting on `c`: begun, not given up, sent there, held there. */
  ghost predicate WaitsOn(s: System, c: ConnId, id: CommandId) {
    && Unresolved(s, id) && id in s.awaiting && id !in s.cancelAsked && id !in s.timedOut
    && id in s.home && s.home[id] == c && c in s.hub.conns && c in s.links && id in s.hub.conns[c].pending
  }

  lemma UnresolvedWaits(s: System, id: CommandId)
    requires Sound(s) && Unresolved(s, id)
    ensures id in s.home && WaitsOn(s, s.home[id], id) && IsCurrent(s.hub, s.home[id])
  {
    assert FutureOk(id, s.hub.futures[id], s.home, s.awaiting, s.hub.connections, s.hub.conns);
    assert GoneOk(s.home[id], s.hub.conns[s.home[id]], s.hub.connections);
  }

  // ── One event, then the caller resumes ─────────────────────────────────────

  /** Reading a result settles the future its call waits on with that very answer, takes it off
      the stream and out of the pending set, and touches no other call. */
  lemma ReadSettles(s: System, c: ConnId, id: CommandId, a: Answer)
    requires WaitsOn(s, c, id) && s.links[c].uplink != [] && s.links[c].uplink[0] == (id, a)
    ensures var s' := Next(s, ReadResult(c));
      && s'.hub.futures == s.hub.futures[id := Settled(a)]
      && c in s'.hub.conns && s'.hub.conns[c].pending == s.hub.conns[c].pending - {id}
      && c in s'.links && s'.links[c].uplink == s.links[c].uplink[1..]
      && s'.awaiting == s.awaiting && s'.ended == s.ended && s'.home == s.home
      && s'.cancelAsked == s.cancelAsked && s'.timedOut == s.timedOut
  {
  }

  /** A settled call that nobody gave up returns its answer. */
  lemma SettledReturns(s: System, id: CommandId, a: Answer)
    requires id in s.awaiting && id !in s.cancelAsked && id !in s.timedOut
    requires id in s.home && s.home[id] in s.hub.conns && id in s.hub.futures && s.hub.futures[id] == Settled(a)
    ensures Next(s, Wake(id)).ended == s.ended + [Ended(id, Returned(a))]
    ensures Next(s, Wake(id)).awaiting == s.awaiting - {id}
  {
  }

  /** So, in every state a run reaches, a result that is next on its stream ends its call with
      exactly that answer. */
  lemma ReadThenWake(s: System, c: ConnId, id: CommandId, a: Answer)
    requires Sound(s) && c in s.links && s.links[c].uplink != [] && s.links[c].uplink[0] == (id, a)
    requires id in s.home && s.home[id] == c && Unresolved(s, id)
    ensures Next(Next(s, ReadResult(c)), Wake(id)).ended == s.ended + [Ended(id, Returned(a))]
  {
    UnresolvedWaits(s, id);
    ReadSettles(s, c, id, a);
    SettledReturns(Next(s, ReadResult(c)), id, a);
  }

  lemma TimerThenWake(s: System, c: ConnId, id: CommandId, wins: bool)
    requires WaitsOn(s, c, id)
    ensures var late := Next(Next(s, TimerFires(id, wins)), Wake(id));
      && late.ended == s.ended + [Ended(id, Unreachable(TimedOut))]
      && c in late.hub.conns && late.hub.conns[c].outbox == s.hub.conns[c].outbox + [CancelCommand(id)]
  {
  }

  lemma CancelThenWake(s: System, c: ConnId, id: CommandId, wins: bool)
    requires WaitsOn(s, c, id)
    ensures var cancelled := Next(Next(s, CallerCancels(id, wins)), Wake(id));
      && cancelled.ended == s.ended + [Ended(id, Cancelled)]
      && c in cancelled.hub.conns && cancelled.hub.conns[c].outbox == s.hub.conns[c].outbox + [CancelCommand(id)]
  {
  }

  /** A caller whose deadline passes, or that cancels, is told so, and the agent is asked to stop
      on the stream the command went out on. */
  lemma GivingUp(s: System, id: CommandId, wins: bool)
    requires Sound(s) && Unresolved(s, id)
    ensures id in s.home && s.home[id] in s.hub.conns
    ensures var c := s.home[id];
      var late, cancelled := Next(Next(s, TimerFires(id, wins)), Wake(id)), Next(Next(s, CallerCancels(id, wins)), Wake(id));
      && late.ended == s.ended + [Ended(id, Unreachable(TimedOut))]
      && cancelled.ended == s.ended + [Ended(id, Cancelled)]
      && c in late.hub.conns && late.hub.conns[c].outbox == s.hub.conns[c].outbox + [CancelCommand(id)]
      && c in cancelled.hub.conns && cancelled.hub.conns[c].outbox == s.hub.conns[c].outbox + [CancelCommand(id)]
  {
    UnresolvedWaits(s, id);
    TimerThenWake(s, s.home[id], id, wins);
    CancelThenWake(s, s.home[id], id, wins);
  }

  lemma BrokenReturns(s: System, c: ConnId, id: CommandId, r: Reason)
    requires id in s.awaiting && id !in s.cancelAsked && id !in s.timedOut
    requires id in s.home && s.home[id] == c && c in s.hub.conns && s.hub.conns[c].pending == {}
    requires id in s.hub.futures && s.hub.futures[id] == Broken(r)
    ensures Next(s, Wake(id)).ended == s.ended + [Ended(id, Unreachable(r))]
    ensures Next(s, Wake(id)).hub == s.hub
  {
    assert s.hub.conns[c].(pending := s.hub.conns[c].pending - {id}) == s.hub.conns[c];
  }

  lemma EndThenWake(s: System, c: ConnId, id: CommandId)
    requires WaitsOn(s, c, id)
    ensures var dropped := Next(s, SessionEnds(c));
      && Next(dropped, Wake(id)).ended == s.ended + [Ended(id, Unreachable(Disconnected))]
      && Next(dropped, Wake(id)).hub == dropped.hub
  {
    var h := if IsCurrent(s.hub, c) then s.hub.(connections := s.hub.connections - {s.hub.conns[c].node}) else s.hub;
    assert HeldBy(h, {c}, id);
    BrokenReturns(Next(s, SessionEnds(c)), c, id, Disconnected);
  }

  lemma ShutThenWake(s: System, c: ConnId, id: CommandId)
    requires WaitsOn(s, c, id) && IsCurrent(s.hub, c)
    ensures var shut := Next(s, Shutdown);
      && Next(shut, Wake(id)).ended == s.ended + [Ended(id, Unreachable(ShuttingDown))]
      && Next(shut, Wake(id)).hub == shut.hub
  {
    assert c in s.hub.connections.Values;
    assert HeldBy(s.hub, s.hub.connections.Values, id);
    BrokenReturns(Next(s, Shutdown), c, id, ShuttingDown);
  }

  /** A caller whose stream ends, or whose hub shuts down, is told so, and nothing is sent. */
  lemma BeingCutOff(s: System, id: CommandId)
    requires Sound(s) && Unresolved(s, id)
    ensures id in s.home
    ensures var dropped, shut := Next(s, SessionEnds(s.home[id])), Next(s, Shutdown);
      && Next(dropped, Wake(id)).ended == s.ended + [Ended(id, Unreachable(Disconnected))]
      && Next(shut, Wake(id)).ended == s.ended + [Ended(id, Unreachable(ShuttingDown))]
      && Next(dropped, Wake(id)).hub == dropped.hub && Next(shut, Wake(id)).hub == shut.hub
  {
    UnresolvedWaits(s, id);
    EndThenWake(s, s.home[id], id);
    ShutThenWake(s, s.home[id], id);
  }

  /** A cancel for a running pull is queued on the node's stream and gives up no call. */
  lemma AskingKeepsWaiting(s: System, n: NodeId, id: CommandId)
    requires n in s.hub.connections && s.hub.connections[n] in s.hub.conns
    ensures var c := s.hub.connections[n];
      var s' := Next(s, AskToStop(n, id));
      && c in s'.hub.conns && s'.hub.conns[c].outbox == s.hub.conns[c].outbox + [CancelCommand(id)]
      && s'.hub.futures == s.hub.futures && s'.awaiting == s.awaiting && s'.ended == s.ended
  {
  }

  /** A call to a node with no stream is told so at once: nothing is sent and nobody waits. */
  lemma NobodyThere(s: System, n: NodeId, id: CommandId)
    requires Sound(s) && id !in s.issued && n !in s.hub.connections
    ensures var s' := Next(s, BeginCall(id, n));
      && s'.ended == s.ended + [Ended(id, Unreachable(NotConnected))] && id in s'.issued
      && s'.hub == s.hub && s'.awaiting == s.awaiting && s'.home == s.home
  {
  }

  /** Whoever cancelled was told so, and whoever was timed out and did not cancel was told that. */
  ghost predicate Honoured(s: System) {
    forall i :: 0 <= i < |s.ended| ==> HonouredIn(s, s.ended[i])
  }

  ghost predicate HonouredIn(s: System, e: Ended) {
    && (e.id in s.cancelAsked ==> e.outcome == Cancelled)
    && (e.id in s.timedOut && e.id !in s.cancelAsked ==> e.outcome == Unreachable(TimedOut))
  }

  /** No step gives up a call that has ended. */
  lemma EndedAreLeft(s: System, l: Label, e: Ended)
    requires Accounts(s.issued, s.awaiting, s.ended) && e in s.ended
    ensures e.id in Next(s, l).cancelAsked <==> e.id in s.cancelAsked
    ensures e.id in Next(s, l).timedOut <==> e.id in s.timedOut
  {
    assert e.id !in s.awaiting;
  }

  lemma HonouredStays(s: System, l: Label)
    requires Accounts(s.issued, s.awaiting, s.ended) && s.cancelAsked <= s.issued && s.timedOut <= s.issued && Honoured(s)
    ensures Honoured(Next(s, l))
  {
    var s' := Next(s, l);
    forall i | 0 <= i < |s'.ended|
      ensures HonouredIn(s', s'.ended[i])
    {
      if i < |s.ended| {
        assert s'.ended[i] == s.ended[i];
        EndedAreLeft(s, l, s.ended[i]);
      }
    }
  }

  /** Over every interleaving a caller is told it was cancelled if and only if its cancellation was
      accepted, and told of its deadline if and only if that passed and no cancellation was. */
  lemma {:induction false} GivenUpIsTold(ls: seq<Label>)
    ensures var s := Exec(Idle, ls);
      forall i :: 0 <= i < |s.ended| ==>
        && (s.ended[i].outcome == Cancelled <==> s.ended[i].id in s.cancelAsked)
        && (s.ended[i].outcome == Unreachable(TimedOut)
            <==> s.ended[i].id in s.timedOut && s.ended[i].id !in s.cancelAsked)
  {
    AlwaysSound(ls);
    AlwaysHonoured(ls);
    var s := Exec(Idle, ls);
    forall i | 0 <= i < |s.ended|
      ensures EndedOk(s.ended[i], s.home, s.produced, s.cancelAsked, s.timedOut) && HonouredIn(s, s.ended[i])
    {
    }
  }

  lemma {:induction false} AlwaysHonoured(ls: seq<Label>)
    ensures Honoured(Exec(Idle, ls))
  {
    if ls != [] {
      AlwaysSound(ls[..|ls| - 1]);
      AlwaysHonoured(ls[..|ls| - 1]);
      HonouredStays(Exec(Idle, ls[..|ls| - 1]), ls[|ls| - 1]);
    }
  }

  /** A cancellation or deadline is accepted while the caller is suspended, at once if nothing has
      come yet. */
  lemma GivingUpIsNoted(s: System, id: CommandId, wins: bool)
    requires Sound(s)
    ensures id in Next(s, CallerCancels(id, wins)).cancelAsked
      <==> id in s.cancelAsked || (id in s.awaiting && (wins || Unresolved(s, id)))
    ensures id in Next(s, TimerFires(id, wins)).timedOut
      <==> id in s.timedOut || (id in s.awaiting && (wins || Unresolved(s, id)))
  {
  }

  // ── Streams that go down ───────────────────────────────────────────────────

  predicate Down(s: System, c: ConnId) { c in s.links && !s.links[c].open }

  /** A stream goes down by breaking, by its agent's death or by the end of its session; what was in
      flight is kept in part, in full or not at all, and only a dead agent forgets what it runs. */
  lemma GoingDown(s: System, c: ConnId, kept: nat)
    requires Sound(s) && c in s.links
    ensures var s' := Next(s, StreamBreaks(c, kept));
      && Down(s', c) && c in s'.hub.conns && s'.hub.conns[c].closed && s'.links[c].uplink <= s.links[c].uplink
      && |s'.links[c].uplink| <= kept && s'.links[c].running == s.links[c].running
    ensures var s' := Next(s, AgentDies(c));
      Down(s', c) && s'.links[c].running == {} && s'.links[c].uplink == s.links[c].uplink
    ensures var s' := Next(s, SessionEnds(c));
      Down(s', c) && s'.links[c].uplink == [] && s'.links[c].running == s.links[c].running
  {
  }

  /** `now` is a link that has taken on nothing since it was `was`. */
  predicate Quiet(was: Link, now: Link) {
    !now.open && now.running <= was.running && |now.uplink| <= |was.uplink|
  }

  predicate NoneOn(c: ConnId, started: seq<(ConnId, CommandId)>, from: nat) {
    forall i :: from <= i < |started| ==> started[i].0 != c
  }

  ghost predicate NoneNewOn(c: ConnId, was: set<(ConnId, CommandId, Answer)>, now: set<(ConnId, CommandId, Answer)>) {
    forall p :: p in now && p.0 == c ==> p in was
  }

  lemma LinkStaysQuiet(s: System, c: ConnId, l: Label)
    requires c in s.hub.conns && Down(s, c)
    ensures c in Next(s, l).links && Quiet(s.links[c], Next(s, l).links[c])
  {
  }

  lemma NothingStarts(s: System, c: ConnId, l: Label)
    requires Down(s, c)
    ensures s.executions <= Next(s, l).executions && NoneOn(c, Next(s, l).executions, |s.executions|)
  {
  }

  lemma NothingIsAnswered(s: System, c: ConnId, l: Label)
    requires Down(s, c) && s.links[c].running == {}
    ensures NoneNewOn(c, s.produced, Next(s, l).produced)
  {
  }

  /** Once a stream is down nothing is ever started on it again, nothing more is put on it, and a
      dead agent answers nothing. */
  lemma {:induction false} DownForGood(s: System, c: ConnId, ls: seq<Label>)
    requires Sound(s) && Down(s, c)
    ensures var s' := Exec(s, ls);
      && c in s'.links && Quiet(s.links[c], s'.links[c])
      && s.executions <= s'.executions && NoneOn(c, s'.executions, |s.executions|)
      && (s.links[c].running == {} ==> NoneNewOn(c, s.produced, s'.produced))
  {
    if ls != [] {
      var n := |ls| - 1;
      DownForGood(s, c, ls[..n]);
      SoundRun(s, ls[..n]);
      var s1 := Exec(s, ls[..n]);
      assert c in s1.hub.conns;
      LinkStaysQuiet(s1, c, ls[n]);
      NothingStarts(s1, c, ls[n]);
      if s.links[c].running == {} {
        NothingIsAnswered(s1, c, ls[n]);
      }
    }
  }

  // ── Through the queues ─────────────────────────────────────────────────────

  function Repeat(l: Label, n: nat): seq<Label> { if n == 0 then [] else [l] + Repeat(l, n - 1) }

  lemma {:induction false} ExecConcat(s: System, a: seq<Label>, b: seq<Label>)
    ensures Exec(s, a + b) == Exec(Exec(s, a), b)
  {
    if b == [] {
      assert a + b == a;
    } else {
      var m := |b| - 1;
      ExecConcat(s, a, b[..m]);
      assert (a + b)[..|a + b| - 1] == a + b[..m];
    }
  }

  lemma ExecOne(s: System, l: Label)
    ensures Exec(s, [l]) == Next(s, l)
  {
    assert [l][..0] == [];
  }

  lemma ExecHead(s: System, l: Label, n: nat)
    ensures Exec(s, Repeat(l, n + 1)) == Exec(Next(s, l), Repeat(l, n))
  {
    ExecConcat(s, [l], Repeat(l, n));
    ExecOne(s, l);
  }

  /** Nothing a caller could notice has happened. */
  ghost predicate SameCalls(s: System, s': System) {
    && s'.hub.futures == s.hub.futures && s'.home == s.home && s'.awaiting == s.awaiting && s'.issued == s.issued
    && s'.cancelAsked == s.cancelAsked && s'.timedOut == s.timedOut && s'.ended == s.ended
  }

  ghost predicate RunsOn(s: System, c: ConnId, id: CommandId) {
    c in s.links && s.links[c].open && id in s.links[c].running
  }

  lemma DrainOne(s: System, c: ConnId, id: CommandId)
    requires c in s.hub.conns && c in s.links && s.links[c].open && s.hub.conns[c].outbox != []
    ensures var s' := Next(s, Drain(c, true));
      && SameCalls(s, s') && c in s'.hub.conns && c in s'.links && s'.links[c].open
      && s'.hub.conns[c].outbox == s.hub.conns[c].outbox[1..] && s'.links[c].uplink == s.links[c].uplink
      && (RunsOn(s, c, id) || s.hub.conns[c].outbox[0] == RunCommand(id) ==> RunsOn(s', c, id))
  {
  }

  /** A command is started once the stream has carried what was queued before it. */
  lemma {:induction false} DrainReaches(s: System, c: ConnId, m: nat, id: CommandId)
    requires c in s.hub.conns && c in s.links && s.links[c].open && m < |s.hub.conns[c].outbox|
    requires s.hub.conns[c].outbox[m] == RunCommand(id) || RunsOn(s, c, id)
    ensures var s' := Exec(s, Repeat(Drain(c, true), m + 1));
      && SameCalls(s, s') && RunsOn(s', c, id) && s'.links[c].uplink == s.links[c].uplink
    decreases m
  {
    ExecHead(s, Drain(c, true), m);
    DrainOne(s, c, id);
    if m > 0 {
      DrainReaches(Next(s, Drain(c, true)), c, m - 1, id);
    }
  }

  /** The call waits for an answer, or has `a`; nobody has given it up, and no other answer to it
      is on the stream. */
  ghost predicate AboutToReturn(s: System, c: ConnId, id: CommandId, a: Answer) {
    && id in s.awaiting && id !in s.cancelAsked && id !in s.timedOut
    && id in s.home && s.home[id] == c && c in s.hub.conns && c in s.links
    && (WaitsOn(s, c, id) || (id in s.hub.futures && s.hub.futures[id] == Settled(a)))
    && (forall j :: 0 <= j < |s.links[c].uplink| && s.links[c].uplink[j].0 == id ==> s.links[c].uplink[j].1 == a)
  }

  lemma ReadOne(s: System, c: ConnId, id: CommandId, a: Answer)
    requires AboutToReturn(s, c, id, a) && s.links[c].uplink != []
    ensures var s' := Next(s, ReadResult(c));
      && AboutToReturn(s', c, id, a) && s'.ended == s.ended && s'.links[c].uplink == s.links[c].uplink[1..]
      && (s.links[c].uplink[0].0 == id || !Unresolved(s, id) ==> !Unresolved(s', id))
  {
  }

  /** An answer settles its call once what was on the stream before it has been read. */
  lemma {:induction false} ReadReaches(s: System, c: ConnId, m: nat, id: CommandId, a: Answer)
    requires AboutToReturn(s, c, id, a) && m < |s.links[c].uplink|
    requires s.links[c].uplink[m].0 == id || !Unresolved(s, id)
    ensures var s' := Exec(s, Repeat(ReadResult(c), m + 1));
      AboutToReturn(s', c, id, a) && !Unresolved(s', id) && s'.ended == s.ended
    decreases m
  {
    ExecHead(s, ReadResult(c), m);
    ReadOne(s, c, id, a);
    if m > 0 {
      ReadReaches(Next(s, ReadResult(c)), c, m - 1, id, a);
    }
  }

  lemma {:induction false} SoundRun(s: System, ls: seq<Label>)
    requires Sound(s)
    ensures Sound(Exec(s, ls))
  {
    if ls != [] {
      SoundRun(s, ls[..|ls| - 1]);
      SoundStays(Exec(s, ls[..|ls| - 1]), ls[|ls| - 1]);
    }
  }

  /** Answers are produced once, so a stream cannot carry two for one command. */
  lemma OneAnswer(s: System, c: ConnId, id: CommandId, a: Answer)
    requires Sound(s) && Unresolved(s, id) && id in s.home && s.home[id] == c && (c, id, a) in s.produced
    ensures AboutToReturn(s, c, id, a)
  {
    UnresolvedWaits(s, id);
    assert LinkOk(c, s.links[c], s.executions, s.produced);
  }

  lemma BeginQueues(s: System, n: NodeId, id: CommandId)
    requires Sound(s) && id !in s.issued && n in s.hub.connections
    ensures var c, s' := s.hub.connections[n], Next(s, BeginCall(id, n));
      && c in s.hub.conns && c in s.links && c in s'.hub.conns && s'.links == s.links
      && s'.hub.conns[c].outbox == s.hub.conns[c].outbox + [RunCommand(id)]
      && Unresolved(s', id) && id in s'.awaiting && id in s'.home && s'.home[id] == c
      && id !in s'.cancelAsked && id !in s'.timedOut && s'.ended == s.ended
  {
  }

  lemma FinishSends(s: System, c: ConnId, id: CommandId, a: Answer)
    requires RunsOn(s, c, id)
    ensures var s' := Next(s, Finish(c, id, a));
      && SameCalls(s, s') && c in s'.links && s'.hub == s.hub && (c, id, a) in s'.produced
      && s'.links[c].uplink == s.links[c].uplink + [(id, a)]
  {
  }

  /** The events that carry one call to its node and its answer back, past everything queued
      either way. */
  function RoundTrip(s: System, n: NodeId, c: ConnId, id: CommandId, a: Answer): seq<Label>
    requires c in s.hub.conns && c in s.links
  {
    [BeginCall(id, n)] + Repeat(Drain(c, true), |s.hub.conns[c].outbox| + 1) + [Finish(c, id, a)]
    + Repeat(ReadResult(c), |s.links[c].uplink| + 1) + [Wake(id)]
  }

  lemma ExecFive(s: System, a: Label, b: seq<Label>, c: Label, d: seq<Label>, e: Label)
    ensures Exec(s, [a] + b + [c] + d + [e]) == Next(Exec(Next(Exec(Next(s, a), b), c), d), e)
  {
    ExecConcat(s, [a], b);
    ExecConcat(s, [a] + b, [c]);
    ExecConcat(s, [a] + b + [c], d);
    ExecConcat(s, [a] + b + [c] + d, [e]);
    ExecOne(s, a);
    ExecOne(Exec(s, [a] + b), c);
    ExecOne(Exec(s, [a] + b + [c] + d), e);
  }

  /** From any state a run can reach, a call to a node whose stream is up, carried out and read
      back past whatever was queued before it, ends with exactly what the agent answered. */
  lemma CallReturnsItsAnswer(s: System, n: NodeId, id: CommandId, a: Answer)
    requires Sound(s) && id !in s.issued && n in s.hub.connections
    requires s.hub.connections[n] in s.links && s.links[s.hub.connections[n]].open
    ensures var c := s.hub.connections[n];
      c in s.hub.conns && Exec(s, RoundTrip(s, n, c, id, a)).ended == s.ended + [Ended(id, Returned(a))]
  {
    var c := s.hub.connections[n];
    BeginQueues(s, n, id);
    var begin, drain, read := BeginCall(id, n), Repeat(Drain(c, true), |s.hub.conns[c].outbox| + 1),
                              Repeat(ReadResult(c), |s.links[c].uplink| + 1);
    var s1 := Next(s, begin);
    DrainReaches(s1, c, |s.hub.conns[c].outbox|, id);
    var s2 := Exec(s1, drain);
    FinishSends(s2, c, id, a);
    var s3 := Next(s2, Finish(c, id, a));
    assert Sound(s3) by {
      SoundStays(s, begin);
      SoundRun(s1, drain);
      SoundStays(s2, Finish(c, id, a));
    }
    OneAnswer(s3, c, id, a);
    ReadReaches(s3, c, |s.links[c].uplink|, id, a);
    SettledReturns(Exec(s3, read), id, a);
    ExecFive(s, begin, drain, Finish(c, id, a), read, Wake(id));
  }
}
