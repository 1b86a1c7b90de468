/** The native log stream: a tail kept as a count of lines already sent, over a window. */
module LogTail {
  import opened Wrappers

  datatype Line = Line(text: string)

  /** One line of the container's log, as the non-empty pieces `splitlines` makes of it. */
  type Raw = seq<Line>

  const WINDOW := 1000

  function Lines(log: seq<Raw>): seq<Line> { if log == [] then [] else Lines(log[..|log| - 1]) + log[|log| - 1] }

  /** What falls out of the window, and what `docker logs --tail` returns. */
  function Dropped(log: seq<Raw>): seq<Raw> { if |log| <= WINDOW then [] else log[..|log| - WINDOW] }

  function Window(log: seq<Raw>): seq<Raw> { if |log| <= WINDOW then log else log[|log| - WINDOW..] }

  lemma {:induction false} LinesConcat(a: seq<Raw>, b: seq<Raw>)
    ensures Lines(a + b) == Lines(a) + Lines(b)
  {
    if b == [] {
      assert a + b == a;
    } else {
      var m := |b| - 1;
      LinesConcat(a, b[..m]);
      assert (a + b)[..|a + b| - 1] == a + b[..m];
    }
  }

  lemma PrefixLines(a: seq<Raw>, b: seq<Raw>)
    requires a <= b
    ensures Lines(a) <= Lines(b)
  {
    LinesConcat(a, b[|a|..]);
    assert a + b[|a|..] == b;
  }

  /** The window is the last 1000 raw lines, or all there are. */
  lemma WindowIs(log: seq<Raw>)
    ensures |Window(log)| == if |log| < 1000 then |log| else 1000
    ensures Window(log) == log[|log| - |Window(log)|..] && Dropped(log) == log[..|log| - |Window(log)|]
  {
  }

  // ── What a poll sees ───────────────────────────────────────────────────────

  /** The log's lines, and how many of them have left the window. */
  datatype Sight = Sight(all: seq<Line>, gone: nat)

  predicate Proper(v: Sight) { v.gone <= |v.all| }

  /** How many lines the window shows, and what `lines[seen:]` of it is. */
  function Width(v: Sight): nat { if Proper(v) then |v.all| - v.gone else 0 }

  function Start(v: Sight, seen: nat): nat { if v.gone + seen <= |v.all| then v.gone + seen else |v.all| }

  function Chunk(v: Sight, seen: nat): seq<Line> { v.all[Start(v, seen)..] }

  function SightOf(log: seq<Raw>): Sight { Sight(Lines(log), |Lines(Dropped(log))|) }

  function Sights(logs: seq<seq<Raw>>): seq<Sight> { seq(|logs|, i requires 0 <= i < |logs| => SightOf(logs[i])) }

  /** `lines[seen:]`. */
  function From(lines: seq<Line>, seen: nat): seq<Line> { if seen <= |lines| then lines[seen..] else [] }

  /** The stream's own arithmetic over the window, in terms of the whole log. */
  lemma WindowShows(log: seq<Raw>, seen: nat)
    ensures Proper(SightOf(log)) && Width(SightOf(log)) == |Lines(Window(log))|
    ensures Chunk(SightOf(log), seen) == From(Lines(Window(log)), seen)
  {
    LinesConcat(Dropped(log), Window(log));
    assert Dropped(log) + Window(log) == log;
    ChunkIs(Lines(Dropped(log)), Lines(Window(log)), seen);
  }

  lemma ChunkIs(dropped: seq<Line>, window: seq<Line>, seen: nat)
    ensures Chunk(Sight(dropped + window, |dropped|), seen) == From(window, seen)
  {
  }

  /** How many lines have been seen, and which sent, after `k` polls. */
  function Seen(vs: seq<Sight>, k: nat): nat
    requires k <= |vs|
  {
    if k == 0 then 0 else Max(Seen(vs, k - 1), Width(vs[k - 1]))
  }

  function Sent(vs: seq<Sight>, k: nat): seq<Line>
    requires k <= |vs|
  {
    if k == 0 then [] else Sent(vs, k - 1) + Chunk(vs[k - 1], Seen(vs, k - 1))
  }

  // ── The generator ──────────────────────────────────────────────────────────

  datatype Health = Stopped | Failed | Other(name: string)

  datatype Event = Log(line: Line) | Status(status: Health)

  /** One round: the log as it stood, and the deployment's status, if it still exists. */
  datatype Poll = Poll(log: seq<Raw>, status: Option<Health>)

  predicate Final(p: Poll) { p.status.None? || p.status.value.Stopped? || p.status.value.Failed? }

  function Texts(events: seq<Event>): seq<Line> {
    if events == [] then []
    else (var e := events[|events| - 1]; Texts(events[..|events| - 1]) + (if e.Log? then [e.line] else []))
  }

  function Statuses(events: seq<Event>): seq<Health> {
    if events == [] then []
    else (var e := events[|events| - 1]; Statuses(events[..|events| - 1]) + (if e.Status? then [e.status] else []))
  }

  function Seeing(polls: seq<Poll>): seq<Sight> {
    seq(|polls|, i requires 0 <= i < |polls| => SightOf(polls[i].log))
  }

  function LastOf(s: seq<Health>): Option<Health> { if s == [] then None else Some(s[|s| - 1]) }

  /** The statuses of the first `k` polls, each once per change. */
  function Changes(polls: seq<Poll>, k: nat): seq<Health>
    requires k <= |polls|
  {
    if k == 0 then []
    else
      var before, status := Changes(polls, k - 1), polls[k - 1].status;
      if status.None? || status == LastOf(before) then before else before + [status.value]
  }

  function Logs(lines: seq<Line>): seq<Event> { seq(|lines|, i requires 0 <= i < |lines| => Log(lines[i])) }

  function StatusIf(changed: bool, status: Option<Health>): seq<Event> {
    if changed && status.Some? then [Status(status.value)] else []
  }

  /** Everything the first `k` polls send, `vs` being what they see: for each, the lines that are
      new, then its status if it has changed. */
  function Said(polls: seq<Poll>, vs: seq<Sight>, k: nat): seq<Event>
    requires k <= |polls| && k <= |vs|
  {
    if k == 0 then []
    else
      Said(polls, vs, k - 1) + Logs(Chunk(vs[k - 1], Seen(vs, k - 1)))
      + StatusIf(polls[k - 1].status != LastOf(Changes(polls, k - 1)), polls[k - 1].status)
  }

  lemma {:induction false} Concatenates(a: seq<Event>, b: seq<Event>)
    ensures Texts(a + b) == Texts(a) + Texts(b) && Statuses(a + b) == Statuses(a) + Statuses(b)
  {
    if b == [] {
      assert a + b == a;
    } else {
      Concatenates(a, b[..|b| - 1]);
      assert (a + b)[..|a + b| - 1] == a + b[..|b| - 1];
    }
  }

  lemma {:induction false} LogsAre(lines: seq<Line>)
    ensures Texts(Logs(lines)) == lines && Statuses(Logs(lines)) == []
  {
    if lines != [] {
      var n := |lines| - 1;
      LogsAre(lines[..n]);
      assert Logs(lines)[..n] == Logs(lines[..n]);
    }
  }

  lemma OneRound(before: seq<Event>, lines: seq<Line>, changed: bool, status: Option<Health>)
    ensures var said := before + Logs(lines) + StatusIf(changed, status);
      && Texts(said) == Texts(before) + lines
      && Statuses(said) == Statuses(before) + (if changed && status.Some? then [status.value] else [])
      && (changed && status.Some? ==>
            && said != [] && said[|said| - 1] == Status(status.value)
            && Texts(said[..|said| - 1]) == Texts(said) && Statuses(said[..|said| - 1]) == Statuses(before))
  {
    var lined := before + Logs(lines);
    Concatenates(before, Logs(lines));
    LogsAre(lines);
    if changed && status.Some? {
      assert (lined + [Status(status.value)])[..|lined|] == lined;
    } else {
      assert lined + [] == lined;
    }
  }

  lemma SaidOnce(polls: seq<Poll>, vs: seq<Sight>, k: nat)
    requires 0 < k <= |polls| && k <= |vs|
    ensures var before, said := Said(polls, vs, k - 1), Said(polls, vs, k);
      var changed, status := polls[k - 1].status != LastOf(Changes(polls, k - 1)), polls[k - 1].status;
      && before <= said
      && Texts(said) == Texts(before) + Chunk(vs[k - 1], Seen(vs, k - 1))
      && Statuses(said) == Statuses(before) + (if changed && status.Some? then [status.value] else [])
      && (changed && status.Some? ==>
            && said != [] && said[|said| - 1] == Status(status.value)
            && Texts(said[..|said| - 1]) == Texts(said) && Statuses(said[..|said| - 1]) == Statuses(before))
  {
    OneRound(Said(polls, vs, k - 1), Chunk(vs[k - 1], Seen(vs, k - 1)),
             polls[k - 1].status != LastOf(Changes(polls, k - 1)), polls[k - 1].status);
  }

  /** The lines sent are the new lines of each poll, in the order of the log. */
  lemma {:induction false} LinesSaid(polls: seq<Poll>, vs: seq<Sight>, k: nat)
    requires k <= |polls| && k <= |vs|
    ensures Texts(Said(polls, vs, k)) == Sent(vs, k)
  {
    if k > 0 {
      LinesSaid(polls, vs, k - 1);
      SaidOnce(polls, vs, k);
    }
  }

  lemma StatusesOnce(polls: seq<Poll>, vs: seq<Sight>, k: nat)
    requires 0 < k <= |polls| && k <= |vs|
    ensures var changed, status := polls[k - 1].status != LastOf(Changes(polls, k - 1)), polls[k - 1].status;
      var more := if changed && status.Some? then [status.value] else [];
      && Changes(polls, k) == Changes(polls, k - 1) + more
      && Statuses(Said(polls, vs, k)) == Statuses(Said(polls, vs, k - 1)) + more
  {
    SaidOnce(polls, vs, k);
  }

  /** The statuses sent are the changes of status. */
  lemma {:induction false} StatusesSaid(polls: seq<Poll>, vs: seq<Sight>, k: nat)
    requires k <= |polls| && k <= |vs|
    ensures Statuses(Said(polls, vs, k)) == Changes(polls, k)
  {
    if k > 0 {
      StatusesSaid(polls, vs, k - 1);
      StatusesOnce(polls, vs, k);
    }
  }

  /** A status that has changed goes out after every line its own poll saw, and before anything of
      a later poll. */
  lemma SaidInOrder(polls: seq<Poll>, vs: seq<Sight>, k: nat)
    requires 0 < k <= |polls| && k <= |vs|
    ensures var before, said := Said(polls, vs, k - 1), Said(polls, vs, k);
      && before <= said
      && (Changes(polls, k) != Changes(polls, k - 1) ==>
            && said != [] && Some(said[|said| - 1]) == AsStatus(polls[k - 1].status)
            && Texts(said[..|said| - 1]) == Sent(vs, k) && Statuses(said[..|said| - 1]) == Changes(polls, k - 1))
  {
    LinesSaid(polls, vs, k);
    StatusesSaid(polls, vs, k - 1);
    StatusesSaid(polls, vs, k);
    SaidOnce(polls, vs, k);
  }

  function AsStatus(status: Option<Health>): Option<Event> {
    if status.None? then None else Some(Status(status.value))
  }

  method SendLines(events: seq<Event>, lines: seq<Line>) returns (r: seq<Event>)
    ensures r == events + Logs(lines)
  {
    r := events;
    for i := 0 to |lines|
      invariant r == events + Logs(lines)[..i]
    {
      r := r + [Log(lines[i])];
    }
  }

  /** One turn of the loop: the new lines, then the status if it changed. */
  method Round(poll: Poll, seen: nat, last: Option<Health>, sent: seq<Event>)
    returns (seen': nat, last': Option<Health>, events: seq<Event>, stop: bool)
    ensures seen' == Max(seen, |Lines(Window(poll.log))|)
    ensures last' == if poll.status.None? then last else poll.status
    ensures events == sent + Logs(From(Lines(Window(poll.log)), seen)) + StatusIf(poll.status != last, poll.status)
    ensures stop <==> Final(poll)
  {
    var lines := Lines(Window(poll.log));
    events := SendLines(sent, From(lines, seen));
    seen', last' := Max(seen, |lines|), last;
    if poll.status.None? {
      return seen', last', events, true;
    }
    if poll.status != last {
      last' := poll.status;
      events := events + [Status(poll.status.value)];
    }
    stop := poll.status.value.Stopped? || poll.status.value.Failed?;
  }

  /** The deployment exists and has neither stopped nor failed. */
  predicate Running(p: Poll) { p.status.Some? && p.status.value != Stopped && p.status.value != Failed }

  lemma {:induction false} GoesOnAt(polls: seq<Poll>, n: nat, i: nat)
    requires i < n <= |polls| && GoesOn(polls, n)
    ensures Running(polls[i])
  {
    if i < n - 1 {
      GoesOnAt(polls, n - 1, i);
    }
  }

  /** None of the first `n` polls ends the stream. */
  predicate GoesOn(polls: seq<Poll>, n: nat)
    requires n <= |polls|
  {
    n == 0 || (!Final(polls[n - 1]) && GoesOn(polls, n - 1))
  }

  lemma RunningUntil(polls: seq<Poll>, n: nat)
    requires n <= |polls| && (n > 0 ==> GoesOn(polls, n - 1))
    ensures forall i :: 0 <= i < n - 1 ==> Running(polls[i])
  {
    forall i | 0 <= i < n - 1
      ensures Running(polls[i])
    {
      GoesOnAt(polls, n - 1, i);
    }
  }

  /** Where the loop stands after `k` polls. */
  ghost predicate After(polls: seq<Poll>, k: nat, seen: nat, last: Option<Health>, events: seq<Event>) {
    && k <= |polls| && seen == Seen(Seeing(polls), k) && last == LastOf(Changes(polls, k))
    && events == Said(polls, Seeing(polls), k)
  }

  lemma NextRound(polls: seq<Poll>, k: nat, seen: nat, last: Option<Health>, events: seq<Event>)
    requires k < |polls| && After(polls, k, seen, last, events)
    ensures var window, status := Lines(Window(polls[k].log)), polls[k].status;
      After(polls, k + 1, Max(seen, |window|), if status.None? then last else status,
            events + Logs(From(window, seen)) + StatusIf(status != last, status))
  {
    WindowShows(polls[k].log, seen);
  }

  /** Streams until the polls run out (the client leaves) or one is final. */
  method Stream(polls: seq<Poll>) returns (events: seq<Event>, rounds: nat)
    ensures rounds <= |polls|
    ensures forall i :: 0 <= i < rounds - 1 ==> Running(polls[i])
    ensures rounds < |polls| ==> rounds > 0 && !Running(polls[rounds - 1])
    ensures events == Said(polls, Seeing(polls), rounds)
  {
    var seen: nat := 0;
    var last: Option<Health> := None;
    var stop := false;
    events, rounds := [], 0;
    while rounds < |polls| && !stop
      invariant rounds <= |polls|
      invariant stop ==> rounds > 0 && Final(polls[rounds - 1])
      invariant GoesOn(polls, if stop then rounds - 1 else rounds)
      invariant After(polls, rounds, seen, last, events)
    {
      NextRound(polls, rounds, seen, last, events);
      seen, last, events, stop := Round(polls[rounds], seen, last, events);
      rounds := rounds + 1;
    }
    RunningUntil(polls, rounds);
  }

  /** The statuses sent are the deployment's, each as soon as it is seen and not again until it
      has changed. */
  lemma {:induction false} StatusesFollow(polls: seq<Poll>, k: nat)
    requires k <= |polls|
    ensures forall i :: 0 < i < |Changes(polls, k)| ==> Changes(polls, k)[i - 1] != Changes(polls, k)[i]
    ensures k > 0 && polls[k - 1].status.Some? ==>
      Changes(polls, k) != [] && Changes(polls, k)[|Changes(polls, k)| - 1] == polls[k - 1].status.value
    ensures k > 0 ==> Changes(polls, k - 1) <= Changes(polls, k) && |Changes(polls, k)| <= |Changes(polls, k - 1)| + 1
    ensures k > 0 && polls[k - 1].status.None? ==> Changes(polls, k) == Changes(polls, k - 1)
    ensures k == 0 ==> Changes(polls, k) == []
  {
    if k > 0 {
      StatusesFollow(polls, k - 1);
    }
  }

  // ── What the client receives ───────────────────────────────────────────────

  /** Each poll sees all that the ones before it saw, and the window only moves on. */
  ghost predicate Growing(vs: seq<Sight>) {
    && (forall i :: 0 <= i < |vs| ==> Proper(vs[i]))
    && (forall i, j :: 0 <= i < j < |vs| ==> vs[i].all <= vs[j].all && vs[i].gone <= vs[j].gone)
  }

  function Before(vs: seq<Sight>, k: nat): seq<Line>
    requires k < |vs|
  {
    if k == 0 then [] else vs[k - 1].all
  }

  /** After poll `k` the client has exactly the log's non-empty lines, in order, each once. */
  ghost predicate ExactAt(vs: seq<Sight>, k: nat)
    requires k < |vs|
  {
    Sent(vs, k + 1) == vs[k].all
  }

  /** Nothing but blank lines has left the window, or nothing but blank lines is new. */
  predicate Caught(vs: seq<Sight>, k: nat)
    requires k < |vs|
  {
    vs[k].gone == 0 || vs[k].all == Before(vs, k)
  }

  ghost predicate Exact(vs: seq<Sight>, n: nat)
    requires n <= |vs|
  {
    forall k :: 0 <= k < n ==> ExactAt(vs, k)
  }

  ghost predicate AllCaught(vs: seq<Sight>, n: nat)
    requires n <= |vs|
  {
    forall k :: 0 <= k < n ==> Caught(vs, k)
  }

  lemma SentStep(vs: seq<Sight>, k: nat)
    requires k < |vs|
    ensures Seen(vs, k + 1) == Max(Seen(vs, k), Width(vs[k]))
    ensures Sent(vs, k + 1) == Sent(vs, k) + Chunk(vs[k], Seen(vs, k))
  {
  }

  /** The window never holds more than has been seen plus what is new. */
  lemma {:induction false} SeenCovers(vs: seq<Sight>, k: nat)
    requires Growing(vs) && k < |vs|
    ensures |vs[k].all| - vs[k].gone <= Seen(vs, k + 1) <= |vs[k].all|
  {
    SentStep(vs, k);
    if k > 0 {
      SeenCovers(vs, k - 1);
    }
  }

  /** What one poll sends is always a suffix of what is new since the last, so no line is ever
      sent twice, or out of order. */
  lemma NeverRepeats(vs: seq<Sight>, k: nat)
    requires Growing(vs) && k < |vs|
    ensures Before(vs, k) <= vs[k].all
    ensures exists start :: |Before(vs, k)| <= start <= |vs[k].all|
                         && Sent(vs, k + 1) == Sent(vs, k) + vs[k].all[start..]
  {
    SentStep(vs, k);
    if k > 0 {
      SeenCovers(vs, k - 1);
    }
    assert |Before(vs, k)| <= Start(vs[k], Seen(vs, k));
  }

  /** As long as every poll is caught up, everything in the log has been seen. */
  lemma {:induction false} SeenWhileCaught(vs: seq<Sight>, k: nat)
    requires Growing(vs) && k < |vs| && AllCaught(vs, k)
    ensures Seen(vs, k) == |Before(vs, k)|
  {
    if k > 0 {
      assert Caught(vs, k - 1) && AllCaught(vs, k - 1);
      SeenWhileCaught(vs, k - 1);
      SentStep(vs, k - 1);
      assert |Before(vs, k - 1)| <= |vs[k - 1].all|;
    }
  }

  lemma ExactStep(vs: seq<Sight>, k: nat)
    requires Growing(vs) && k < |vs| && AllCaught(vs, k) && Sent(vs, k) == Before(vs, k)
    ensures ExactAt(vs, k) <==> Caught(vs, k)
  {
    SeenWhileCaught(vs, k);
    SentStep(vs, k);
    ExactChunk(Before(vs, k), vs[k]);
  }

  /** What a poll adds completes the log exactly when nothing is gone or nothing is new. */
  lemma ExactChunk(before: seq<Line>, v: Sight)
    requires Proper(v) && before <= v.all
    ensures before + Chunk(v, |before|) == v.all <==> v.gone == 0 || v.all == before
  {
  }

  lemma SentSoFar(vs: seq<Sight>, k: nat)
    requires k < |vs| && Exact(vs, k)
    ensures Sent(vs, k) == Before(vs, k)
  {
    assert k > 0 ==> ExactAt(vs, k - 1);
  }

  lemma {:induction false} ExactUpTo(vs: seq<Sight>, n: nat)
    requires Growing(vs) && n <= |vs|
    ensures Exact(vs, n) <==> AllCaught(vs, n)
  {
    if n > 0 {
      var k := n - 1;
      ExactUpTo(vs, k);
      assert Exact(vs, n) <==> Exact(vs, k) && ExactAt(vs, k);
      assert AllCaught(vs, n) <==> AllCaught(vs, k) && Caught(vs, k);
      if Exact(vs, k) {
        SentSoFar(vs, k);
        ExactStep(vs, k);
      }
    }
  }

  // ── In terms of the container's log ────────────────────────────────────────

  /** Each poll finds the log of the ones before, and what was appended since. */
  ghost predicate AppendOnly(logs: seq<seq<Raw>>) {
    forall i, j :: 0 <= i < j < |logs| ==> logs[i] <= logs[j]
  }

  lemma SightsGrow(logs: seq<seq<Raw>>)
    requires AppendOnly(logs)
    ensures Growing(Sights(logs))
  {
    var vs := Sights(logs);
    forall i | 0 <= i < |vs|
      ensures Proper(vs[i])
    {
      WindowShows(logs[i], 0);
    }
    forall i, j | 0 <= i < j < |vs|
      ensures vs[i].all <= vs[j].all && vs[i].gone <= vs[j].gone
    {
      PrefixLines(logs[i], logs[j]);
      assert Dropped(logs[i]) <= Dropped(logs[j]);
      PrefixLines(Dropped(logs[i]), Dropped(logs[j]));
    }
  }

  /** The stream is exact exactly when at every poll nothing but blank lines has left the
      window or nothing but blank lines is new. */
  lemma ExactIff(logs: seq<seq<Raw>>)
    requires AppendOnly(logs)
    ensures Exact(Sights(logs), |logs|)
       <==> forall k :: 0 <= k < |logs| ==> Caught(Sights(logs), k)
  {
    SightsGrow(logs);
    ExactUpTo(Sights(logs), |logs|);
  }

  /** A log of at most a window of raw lines is streamed exactly, however it is polled. */
  lemma ShortLogsAreExact(logs: seq<seq<Raw>>)
    requires AppendOnly(logs) && forall k :: 0 <= k < |logs| ==> |logs[k]| <= WINDOW
    ensures Exact(Sights(logs), |logs|)
  {
    forall k | 0 <= k < |logs|
      ensures Caught(Sights(logs), k)
    {
      assert Dropped(logs[k]) == [];
    }
    ExactIff(logs);
  }

  /** No raw line holds a separator of its own. */
  ghost predicate Plain(log: seq<Raw>) { forall i :: 0 <= i < |log| ==> |log[i]| <= 1 }

  lemma {:induction false} AtMostOneEach(log: seq<Raw>)
    requires Plain(log)
    ensures |Lines(log)| <= |log|
  {
    if log != [] {
      AtMostOneEach(log[..|log| - 1]);
    }
  }

  lemma WindowBounds(log: seq<Raw>)
    requires Plain(log)
    ensures Proper(SightOf(log)) && Width(SightOf(log)) <= WINDOW
  {
    WindowShows(log, 0);
    AtMostOneEach(Window(log));
  }

  /** A poll sends nothing if and only if its window holds no more lines than have been seen. */
  lemma SilentIff(vs: seq<Sight>, k: nat)
    requires k < |vs| && Proper(vs[k])
    ensures Sent(vs, k + 1) == Sent(vs, k) <==> Width(vs[k]) <= Seen(vs, k)
  {
    SentStep(vs, k);
    assert |Sent(vs, k + 1)| == |Sent(vs, k)| + |Chunk(vs[k], Seen(vs, k))|;
  }

  lemma {:induction false} SentGrows(vs: seq<Sight>, k: nat, later: nat)
    requires k <= later <= |vs|
    ensures |Sent(vs, k)| <= |Sent(vs, later)|
    decreases later
  {
    if k < later {
      SentGrows(vs, k, later - 1);
      SentStep(vs, later - 1);
    }
  }

  /** No window from poll `k` on holds more lines than had been seen by then. */
  ghost predicate Exhausted(vs: seq<Sight>, k: nat, later: nat)
    requires k <= later <= |vs|
  {
    forall j :: k <= j < later ==> Width(vs[j]) <= Seen(vs, k)
  }

  /** The stream falls silent from poll `k` on if and only if no later window holds more lines
      than had been seen by then, however much is logged. */
  lemma {:induction false} SilentFromIff(vs: seq<Sight>, k: nat, later: nat)
    requires (forall v :: v in vs ==> Proper(v)) && k <= later <= |vs|
    ensures Sent(vs, later) == Sent(vs, k) <==> Exhausted(vs, k, later)
    ensures Exhausted(vs, k, later) ==> Seen(vs, later) == Seen(vs, k)
    decreases later
  {
    if k < later {
      var j := later - 1;
      SilentFromIff(vs, k, j);
      assert vs[j] in vs;
      SilentIff(vs, j);
      SentStep(vs, j);
      SentGrows(vs, k, j);
    }
  }

  /** So of a log whose raw lines hold no separator of their own, nothing more is ever sent once
      a full window has been seen. */
  lemma FullWindowStalls(logs: seq<seq<Raw>>, k: nat, later: nat)
    requires k <= later <= |logs| && Seen(Sights(logs), k) >= WINDOW
    requires forall i :: 0 <= i < |logs| ==> Plain(logs[i])
    ensures Sent(Sights(logs), later) == Sent(Sights(logs), k)
  {
    var vs := Sights(logs);
    forall v | v in vs
      ensures Proper(v)
    {
      var i :| 0 <= i < |vs| && vs[i] == v;
      WindowShows(logs[i], 0);
    }
    forall j | k <= j < later
      ensures Width(vs[j]) <= Seen(vs, k)
    {
      WindowBounds(logs[j]);
    }
    SilentFromIff(vs, k, later);
  }

  /** Raw lines that are cut let the stream go on past a window's worth: while the log itself
      fits the window, every line of a new raw line is sent, whatever has been seen. */
  lemma CutLinesGoOn(log: seq<Raw>, more: Raw)
    requires |log| < WINDOW
    ensures var vs := Sights([log, log + [more]]);
      Seen(vs, 1) == |Lines(log)| && Sent(vs, 2) == Sent(vs, 1) + more
  {
    var logs := [log, log + [more]];
    ShortLogsAreExact(logs);
    assert ExactAt(Sights(logs), 0) && ExactAt(Sights(logs), 1);
    assert Dropped(log) == [];
    LinesConcat(log, [more]);
    OneRaw(more);
    SeenOnce(logs);
  }

  lemma OneRaw(raw: Raw)
    ensures Lines([raw]) == raw
  {
    assert [raw][..0] == [];
  }

  lemma SeenOnce(logs: seq<seq<Raw>>)
    requires logs != []
    ensures Seen(Sights(logs), 1) == Width(SightOf(logs[0]))
  {
    SentStep(Sights(logs), 0);
  }
}
