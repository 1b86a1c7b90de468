/** Whole runs of one ledger instance: any sequence of its calls, any of whose database
    writes may fail, with restarts that read the tables back. */
module LedgerRuns {
  import opened Wrappers
  import opened Enrollment

  datatype Call =
    | Mint(h: string, name: string, ttl: real, assign: string, now: real)
    | Redeem(h: string, now: real, uuid: string)
    | Revoke(h: string, now: real)
    | Issue(n: string, key: string, notAfter: real, facts: Facts, now: real)
    | Deny(n: string, reason: string)
    | Remove(n: string)
    | Seen(n: string, now: real)
    | Authorize(n: string, key: string, facts: Facts)
    | Sweep(now: real)
    | Restart

  /** One call, and whether the database accepts its write. */
  datatype Step = Step(call: Call, ok: bool)

  function Do(l: Ledger, s: Step): Ledger {
    match s.call
    case Mint(h, name, ttl, assign, now) => MintCall(l, h, name, ttl, assign, now, s.ok).0
    case Redeem(h, now, uuid) => RedeemCall(l, h, now, uuid, s.ok).0
    case Revoke(h, now) => RevokeCall(l, h, now, s.ok).0
    case Issue(n, key, notAfter, facts, now) => IssueCall(l, n, key, notAfter, facts, now, s.ok).0
    case Deny(n, reason) => DenyCall(l, n, reason, s.ok).0
    case Remove(n) => RemoveCall(l, n, s.ok).0
    case Seen(n, now) => SeenCall(l, n, now)
    case Authorize(n, key, facts) => AuthorizeCall(l, n, key, facts, s.ok).0
    case Sweep(now) => SweepCall(l, now, s.ok).0
    case Restart => Restarted(l)
  }

  function Run(l: Ledger, steps: seq<Step>): Ledger {
    if steps == [] then l else Do(Run(l, steps[..|steps| - 1]), steps[|steps| - 1])
  }

  // ── The environment's obligations ──────────────────────────────────────────

  function TimeOf(c: Call): Option<real> {
    match c
    case Mint(_, _, _, _, now) => Some(now)
    case Redeem(_, now, _) => Some(now)
    case Revoke(_, now) => Some(now)
    case Sweep(now) => Some(now)
    case _ => None
  }

  predicate Within(s: Step, lo: real, hi: real) {
    TimeOf(s.call).Some? ==> lo <= TimeOf(s.call).value <= hi
  }

  /** The clock reads a positive time, so a use time is never mistaken for "unused". */
  predicate PositiveClock(steps: seq<Step>) {
    forall i :: 0 <= i < |steps| && TimeOf(steps[i].call).Some? ==> TimeOf(steps[i].call).value > 0.0
  }

  /** Secrets are fresh: no mint repeats a hash the tables held or an earlier mint made. */
  predicate FreshMints(l: Ledger, steps: seq<Step>) {
    forall j :: 0 <= j < |steps| && steps[j].call.Mint? ==>
      && steps[j].call.h !in l.mem.tokens && steps[j].call.h !in l.db.tokens
      && forall i :: 0 <= i < j && steps[i].call.Mint? ==> steps[i].call.h != steps[j].call.h
  }

  predicate OnTokens(c: Call) { c.Mint? || c.Redeem? || c.Revoke? || c.Sweep? }

  lemma KeyedTokenStep(l: Ledger, s: Step)
    requires OnTokens(s.call) && Keyed(l.mem)
    ensures Keyed(Do(l, s).mem)
  {
  }

  lemma KeyedNodeStep(l: Ledger, s: Step)
    requires !OnTokens(s.call) && Keyed(l.mem)
    ensures Keyed(Do(l, s).mem)
  {
  }

  lemma KeyedTokenRows(l: Ledger, s: Step)
    requires OnTokens(s.call) && Keyed(l.mem) && Keyed(l.db)
    ensures Keyed(Do(l, s).db)
  {
  }

  lemma KeyedNodeRows(l: Ledger, s: Step)
    requires !OnTokens(s.call) && Keyed(l.mem) && Keyed(l.db)
    ensures Keyed(Do(l, s).db)
  {
  }

  lemma KeyedStep(l: Ledger, s: Step)
    requires Keyed(l.mem)
    ensures Keyed(Do(l, s).mem)
    ensures Keyed(l.db) ==> Keyed(Do(l, s).db)
  {
    if OnTokens(s.call) {
      KeyedTokenStep(l, s);
      if Keyed(l.db) {
        KeyedTokenRows(l, s);
      }
    } else {
      KeyedNodeStep(l, s);
      if Keyed(l.db) {
        KeyedNodeRows(l, s);
      }
    }
  }

  lemma {:induction false} RunKeyed(l: Ledger, steps: seq<Step>)
    requires Keyed(l.mem)
    ensures Keyed(Run(l, steps).mem)
  {
    if steps != [] {
      RunKeyed(l, steps[..|steps| - 1]);
      KeyedStep(Run(l, steps[..|steps| - 1]), steps[|steps| - 1]);
    }
  }

  // ── A token is redeemed at most once ───────────────────────────────────────

  predicate SpentIn(t: Tables, h: string) {
    h in t.tokens ==> t.tokens[h].usedAt != 0.0
  }

  predicate Spent(l: Ledger, h: string) { SpentIn(l.mem, h) && SpentIn(l.db, h) }

  lemma SpentRowsStay(l: Ledger, s: Step, h: string)
    requires Keyed(l.mem) && Spent(l, h)
    requires TimeOf(s.call).Some? ==> TimeOf(s.call).value > 0.0
    requires s.call.Mint? ==> s.call.h != h
    ensures SpentIn(Do(l, s).db, h)
  {
  }

  lemma SpentStays(l: Ledger, s: Step, h: string)
    requires Keyed(l.mem) && Spent(l, h)
    requires TimeOf(s.call).Some? ==> TimeOf(s.call).value > 0.0
    requires s.call.Mint? ==> s.call.h != h
    ensures Spent(Do(l, s), h)
  {
    SpentRowsStay(l, s, h);
  }

  lemma RedeemSpends(l: Ledger, h: string, now: real, uuid: string, ok: bool)
    requires Keyed(l.mem) && now > 0.0
    requires RedeemCall(l, h, now, uuid, ok).1.Returned?
    ensures Spent(RedeemCall(l, h, now, uuid, ok).0, h) && h in l.mem.tokens
  {
  }

  lemma OnlyMintsAddTokens(l: Ledger, s: Step, h: string)
    requires Keyed(l.mem) && h !in l.mem.tokens && h !in l.db.tokens && !(s.call.Mint? && s.call.h == h)
    ensures h !in Do(l, s).mem.tokens && h !in Do(l, s).db.tokens
  {
  }

  /** Every token in either store was there at the start or was minted on the way. */
  lemma {:induction false} TokensComeFromMints(l: Ledger, steps: seq<Step>, h: string) returns (i: int)
    requires Keyed(l.mem)
    requires h in Run(l, steps).mem.tokens || h in Run(l, steps).db.tokens
    ensures h in l.mem.tokens || h in l.db.tokens
         || (0 <= i < |steps| && steps[i].call.Mint? && steps[i].call.h == h)
  {
    i := |steps| - 1;
    if steps != [] && !(steps[i].call.Mint? && steps[i].call.h == h) {
      var before := Run(l, steps[..i]);
      RunKeyed(l, steps[..i]);
      if h !in before.mem.tokens && h !in before.db.tokens {
        OnlyMintsAddTokens(before, steps[i], h);
      }
      i := TokensComeFromMints(l, steps[..i], h);
    }
  }

  predicate RedeemedAt(l: Ledger, steps: seq<Step>, i: int, h: string) {
    && 0 <= i < |steps| && steps[i].call.Redeem? && steps[i].call.h == h
    && RedeemCall(Run(l, steps[..i]), h, steps[i].call.now, steps[i].call.uuid, steps[i].ok).1.Returned?
  }

  lemma {:induction false} SpentAfter(l: Ledger, steps: seq<Step>, i: int, h: string)
    requires Keyed(l.mem) && PositiveClock(steps) && FreshMints(l, steps)
    requires 0 <= i < |steps| && RedeemedAt(l, steps, i, h)
    ensures Spent(Run(l, steps), h)
    decreases |steps|
  {
    var k := |steps| - 1;
    RunKeyed(l, steps[..k]);
    if i == k {
      RedeemSpends(Run(l, steps[..k]), h, steps[k].call.now, steps[k].call.uuid, steps[k].ok);
    } else {
      assert steps[..k][..i] == steps[..i];
      SpentAfter(l, steps[..k], i, h);
      RunKeyed(l, steps[..i]);
      var m := TokensComeFromMints(l, steps[..i], h);
      SpentStays(Run(l, steps[..k]), steps[k], h);
    }
  }

  /** `redeem_token` returns normally at most once for a secret, whatever else the ledger
      does, whichever writes fail and however often the process restarts. */
  lemma {:induction false} TokenSingleUse(l: Ledger, steps: seq<Step>, h: string, i: int, j: int)
    requires Keyed(l.mem) && PositiveClock(steps) && FreshMints(l, steps)
    requires RedeemedAt(l, steps, i, h) && RedeemedAt(l, steps, j, h)
    ensures i == j
  {
    if i < j {
      assert steps[..j][..i] == steps[..i];
      SpentAfter(l, steps[..j], i, h);
    } else if j < i {
      TokenSingleUse(l, steps, h, j, i);
    }
  }

  // ── A retried install is told the truth ────────────────────────────────────

  predicate UsedAt(l: Ledger, h: string, at: real) {
    && h in l.mem.tokens && l.mem.tokens[h].usedAt == at
    && h in l.db.tokens && l.db.tokens[h].usedAt == at
  }

  lemma UsedAtStays(l: Ledger, s: Step, h: string, at: real)
    requires Keyed(l.mem) && UsedAt(l, h, at) && at > 0.0
    requires Within(s, at, at + TOKEN_TTL)
    requires s.call.Mint? ==> s.call.h != h
    ensures UsedAt(Do(l, s), h, at)
  {
  }

  lemma {:induction false} UsedAtRun(l: Ledger, steps: seq<Step>, h: string, at: real)
    requires Keyed(l.mem) && UsedAt(l, h, at) && at > 0.0
    requires forall i :: 0 <= i < |steps| ==>
      Within(steps[i], at, at + TOKEN_TTL) && (steps[i].call.Mint? ==> steps[i].call.h != h)
    ensures UsedAt(Run(l, steps), h, at)
  {
    if steps != [] {
      var k := |steps| - 1;
      UsedAtRun(l, steps[..k], h, at);
      RunKeyed(l, steps[..k]);
      UsedAtStays(Run(l, steps[..k]), steps[k], h, at);
    }
  }

  /** For ten minutes after a redemption, through sweeps, failed writes and restarts, a
      second attempt is refused as "already used" and never as "not recognised". */
  lemma RetryIsToldUsed(l: Ledger, h: string, at: real, uuid: string, steps: seq<Step>, now: real, uuid': string, ok: bool)
    requires Keyed(l.mem) && at > 0.0 && RedeemCall(l, h, at, uuid, true).1.Returned?
    requires forall i :: 0 <= i < |steps| ==>
      Within(steps[i], at, at + TOKEN_TTL) && (steps[i].call.Mint? ==> steps[i].call.h != h)
    ensures RedeemCall(Run(RedeemCall(l, h, at, uuid, true).0, steps), h, now, uuid', ok).1 == Rejected(AlreadyUsed)
  {
    UsedAtRun(RedeemCall(l, h, at, uuid, true).0, steps, h, at);
  }

  // ── The two stores agree ───────────────────────────────────────────────────

  predicate SameNode(a: Entry, b: Entry) { a == b.(lastSeen := a.lastSeen) }

  predicate SameNodes(a: map<string, Entry>, b: map<string, Entry>) {
    a.Keys == b.Keys && forall n :: n in a ==> SameNode(a[n], b[n])
  }

  predicate Agree(l: Ledger) {
    && Keyed(l.mem) && Keyed(l.db)
    && SameNodes(l.mem.nodes, l.db.nodes)
    && l.mem.tokens == l.db.tokens
  }

  lemma IssueAgrees(l: Ledger, n: string, key: string, notAfter: real, facts: Facts, now: real)
    requires Keyed(l.mem) && SameNodes(l.mem.nodes, l.db.nodes)
    ensures var after := IssueCall(l, n, key, notAfter, facts, now, true).0; SameNodes(after.mem.nodes, after.db.nodes)
  {
  }

  lemma TokenCallsAgree(l: Ledger, s: Step)
    requires OnTokens(s.call) && Keyed(l.mem) && s.ok && SameNodes(l.mem.nodes, l.db.nodes)
    ensures SameNodes(Do(l, s).mem.nodes, Do(l, s).db.nodes)
  {
  }

  lemma NodesAgreeStep(l: Ledger, s: Step)
    requires Keyed(l.mem) && Keyed(l.db) && s.ok && SameNodes(l.mem.nodes, l.db.nodes)
    ensures SameNodes(Do(l, s).mem.nodes, Do(l, s).db.nodes)
  {
    match s.call
    case Issue(n, key, notAfter, facts, now) => IssueAgrees(l, n, key, notAfter, facts, now);
    case Deny(_, _) =>
    case Remove(_) =>
    case Seen(_, _) =>
    case Authorize(_, _, _) =>
    case Restart => assert Load(l.db).nodes == l.db.nodes;
    case _ => TokenCallsAgree(l, s);
  }

  lemma TokensAgreeStep(l: Ledger, s: Step)
    requires Keyed(l.mem) && Keyed(l.db) && s.ok && l.mem.tokens == l.db.tokens
    ensures Do(l, s).mem.tokens == Do(l, s).db.tokens
  {
    match s.call
    case Mint(_, _, _, _, now) =>
      assert Swept(l.mem.tokens, now) == DropTokens(l.db, l.mem.tokens, now).tokens;
    case Redeem(_, _, _) =>
    case Revoke(_, _) =>
    case Issue(_, _, _, _, _) =>
    case Deny(_, _) =>
    case Remove(_) =>
    case Seen(_, _) =>
    case Authorize(_, _, _) =>
    case Sweep(now) =>
      if StaleHashes(l.mem.tokens, now) == {} {
        assert forall h :: h in l.mem.tokens ==> h !in StaleHashes(l.mem.tokens, now);
        assert Swept(l.mem.tokens, now) == l.mem.tokens;
      }
    case Restart =>
      assert Load(l.db).tokens == l.db.tokens;
  }

  lemma AgreeStep(l: Ledger, s: Step)
    requires Agree(l) && s.ok
    ensures Agree(Do(l, s))
  {
    KeyedStep(l, s);
    NodesAgreeStep(l, s);
    TokensAgreeStep(l, s);
  }

  /** While no write fails, the rows and the working copy differ in nothing but `last_seen`,
      so a restart at any moment changes nothing else. */
  lemma {:induction false} StoresAgree(l: Ledger, steps: seq<Step>)
    requires Agree(l) && forall i :: 0 <= i < |steps| ==> steps[i].ok
    ensures Agree(Run(l, steps))
    ensures SameNodes(Run(l, steps).mem.nodes, Restarted(Run(l, steps)).mem.nodes)
    ensures Run(l, steps).mem.tokens == Restarted(Run(l, steps)).mem.tokens
  {
    if steps != [] {
      var k := |steps| - 1;
      StoresAgree(l, steps[..k]);
      AgreeStep(Run(l, steps[..k]), steps[k]);
    }
    AgreeStep(Run(l, steps), Step(Restart, true));
  }

  // ── Sweeping is invisible ──────────────────────────────────────────────────

  /** `a` is `b` less some tokens that had already expired by `t`. */
  predicate LessExpired(a: map<string, Grant>, b: map<string, Grant>, t: real) {
    && (forall h :: h in a ==> h in b && b[h] == a[h])
    && (forall h :: h in b && h !in a ==> b[h].expiresAt + TOKEN_TTL < t)
  }

  predicate Ordered(steps: seq<Step>) {
    forall i, j :: 0 <= i < j < |steps| && TimeOf(steps[i].call).Some? && TimeOf(steps[j].call).Some? ==>
      TimeOf(steps[i].call).value <= TimeOf(steps[j].call).value
  }

  predicate NotAfter(steps: seq<Step>, now: real) {
    forall i :: 0 <= i < |steps| && TimeOf(steps[i].call).Some? ==> TimeOf(steps[i].call).value <= now
  }

  function WithoutSweeps(steps: seq<Step>): seq<Step> {
    if steps == [] then []
    else
      var rest := WithoutSweeps(steps[..|steps| - 1]);
      if steps[|steps| - 1].call.Sweep? then rest else rest + [steps[|steps| - 1]]
  }

  /** The working copy's tokens after a call depend only on the tokens it finds, whether or not
      the write is accepted; a restart is the exception, and reads the rows. */
  function TokensAfter(tokens: map<string, Grant>, c: Call): map<string, Grant> {
    match c
    case Mint(h, name, ttl, assign, now) =>
      Swept(tokens, now)[h := Grant(h, name, now, now + ttl, 0.0, "", assign)]
    case Redeem(h, now, uuid) =>
      if h in tokens && tokens[h].usedAt == 0.0 && now < tokens[h].expiresAt then
        tokens[h := tokens[h].(usedAt := now,
                               nodeId := if tokens[h].assignNodeId != "" then tokens[h].assignNodeId else uuid)]
      else tokens
    case Revoke(h, now) =>
      if h in tokens && tokens[h].usedAt == 0.0 then tokens[h := tokens[h].(usedAt := now)] else tokens
    case Sweep(now) => Swept(tokens, now)
    case _ => tokens
  }

  /** A restart now would find the tokens it already holds. */
  predicate TokensInStep(l: Ledger) { Load(l.db).tokens == l.mem.tokens }

  /** The run restarts only where the two stores hold the same tokens. Writes may fail anywhere. */
  predicate RestartsInStep(l: Ledger, steps: seq<Step>) {
    steps == [] ||
    var k := |steps| - 1;
    RestartsInStep(l, steps[..k]) && (steps[k].call.Restart? ==> TokensInStep(Run(l, steps[..k])))
  }

  lemma TokensFollow(l: Ledger, s: Step)
    requires s.call.Restart? ==> TokensInStep(l)
    ensures Do(l, s).mem.tokens == TokensAfter(l.mem.tokens, s.call)
  {
  }

  lemma SweepStep(a: map<string, Grant>, b: map<string, Grant>, c: Call, t: real)
    requires LessExpired(a, b, t)
    requires TimeOf(c).Some? ==> t <= TimeOf(c).value
    ensures var t' := if TimeOf(c).Some? then TimeOf(c).value else t;
      LessExpired(TokensAfter(a, c), if c.Sweep? then b else TokensAfter(b, c), t')
  {
  }

  lemma {:induction false} SweptRun(l: Ledger, steps: seq<Step>, t: real)
    requires RestartsInStep(l, steps) && RestartsInStep(l, WithoutSweeps(steps))
    requires Ordered(steps) && NotAfter(steps, t)
    ensures LessExpired(Run(l, steps).mem.tokens, Run(l, WithoutSweeps(steps)).mem.tokens, t)
  {
    if steps != [] {
      var k := |steps| - 1;
      var s, u := steps[k], if TimeOf(steps[k].call).Some? then TimeOf(steps[k].call).value else t;
      var rest := WithoutSweeps(steps[..k]);
      assert (rest + [s])[..|rest|] == rest;
      SweptRun(l, steps[..k], u);
      SweepStep(Run(l, steps[..k]).mem.tokens, Run(l, rest).mem.tokens, s.call, u);
      TokensFollow(Run(l, steps[..k]), s);
      if !s.call.Sweep? {
        TokensFollow(Run(l, rest), s);
      }
    }
  }

  /** Delete every sweep from a run, any of whose writes may fail: each redemption still
      succeeds exactly when it did, and admits the same node, as long as neither run restarts
      where its two stores hold different tokens. */
  lemma SweepIsTransparent(l: Ledger, steps: seq<Step>, h: string, now: real, uuid: string, ok: bool)
    requires RestartsInStep(l, steps) && RestartsInStep(l, WithoutSweeps(steps))
    requires Ordered(steps) && NotAfter(steps, now)
    ensures var swept := RedeemCall(Run(l, steps), h, now, uuid, ok).1;
      var kept := RedeemCall(Run(l, WithoutSweeps(steps)), h, now, uuid, ok).1;
      (swept.Returned? <==> kept.Returned?) && (swept.Returned? ==> swept == kept)
  {
    SweptRun(l, steps, now);
  }

  /** A run whose writes all succeed, from stores that agree, restarts in step, with its sweeps
      and without them. */
  lemma {:induction false} GoodWritesStayInStep(l: Ledger, steps: seq<Step>)
    requires Agree(l) && forall i :: 0 <= i < |steps| ==> steps[i].ok
    ensures RestartsInStep(l, steps) && RestartsInStep(l, WithoutSweeps(steps))
    ensures Agree(Run(l, steps)) && Agree(Run(l, WithoutSweeps(steps)))
  {
    if steps != [] {
      var k := |steps| - 1;
      var s, rest := steps[k], WithoutSweeps(steps[..k]);
      GoodWritesStayInStep(l, steps[..k]);
      assert (rest + [s])[..|rest|] == rest;
      AgreeStep(Run(l, steps[..k]), s);
      AgreeStep(Run(l, rest), s);
      InStepWhenAgreed(Run(l, steps[..k]));
      InStepWhenAgreed(Run(l, rest));
    }
  }

  lemma InStepWhenAgreed(l: Ledger)
    requires Agree(l)
    ensures TokensInStep(l)
  {
    assert Load(l.db).tokens == l.db.tokens;
  }

  // ── A sweep seen through a restart ─────────────────────────────────────────

  predicate Spendable(tokens: map<string, Grant>, h: string, now: real) {
    h in tokens && tokens[h].usedAt == 0.0 && now < tokens[h].expiresAt
  }

  /** From `now` on, both stores would let the same secrets in, until the same time and as the
      same node. */
  ghost predicate SameSpendable(a: map<string, Grant>, b: map<string, Grant>, now: real) {
    forall h :: (Spendable(a, h, now) <==> Spendable(b, h, now))
             && (Spendable(a, h, now) ==> a[h].expiresAt == b[h].expiresAt && a[h].assignNodeId == b[h].assignNodeId)
  }

  /** What redeeming a secret would answer, if it would succeed. */
  function Admits(l: Ledger, h: string, at: real, uuid: string): Option<string> {
    var r := RedeemCall(l, h, at, uuid, true).1;
    if r.Returned? then Some(r.value) else None
  }

  ghost predicate AdmitsAlike(a: Ledger, b: Ledger, now: real) {
    forall h, at, uuid :: now <= at ==> Admits(a, h, at, uuid) == Admits(b, h, at, uuid)
  }

  /** Whether a sweep writes the whole ledger: it drops something, and the write is accepted. */
  predicate Reconciles(l: Ledger, now: real, ok: bool) { ok && StaleHashes(l.mem.tokens, now) != {} }

  function SweptAndRestarted(l: Ledger, now: real): Ledger { Restarted(SweepCall(l, now, true).0) }

  lemma RestartedTokens(l: Ledger, now: real, h: string)
    requires Reconciles(l, now, true)
    ensures Spendable(SweptAndRestarted(l, now).mem.tokens, h, now) <==> Spendable(l.mem.tokens, h, now)
    ensures Spendable(l.mem.tokens, h, now) ==>
      SweptAndRestarted(l, now).mem.tokens[h] == l.mem.tokens[h].(tokenHash := h)
    ensures Spendable(Restarted(l).mem.tokens, h, now) <==> Spendable(l.db.tokens, h, now)
    ensures Spendable(l.db.tokens, h, now) ==> Restarted(l).mem.tokens[h] == l.db.tokens[h].(tokenHash := h)
  {
  }

  lemma LiveTokensDecide(a: Ledger, b: Ledger, now: real)
    ensures SameSpendable(a.mem.tokens, b.mem.tokens, now) <==> AdmitsAlike(a, b, now)
  {
    var s, t := a.mem.tokens, b.mem.tokens;
    if AdmitsAlike(a, b, now) {
      forall h
        ensures Spendable(s, h, now) <==> Spendable(t, h, now)
        ensures Spendable(s, h, now) ==> s[h].expiresAt == t[h].expiresAt && s[h].assignNodeId == t[h].assignNodeId
      {
        assert Admits(a, h, now, "") == Admits(b, h, now, "");
        assert Admits(a, h, now, "x") == Admits(b, h, now, "x");
        if Spendable(s, h, now) {
          assert Admits(a, h, s[h].expiresAt, "") == Admits(b, h, s[h].expiresAt, "");
          assert Admits(a, h, t[h].expiresAt, "") == Admits(b, h, t[h].expiresAt, "");
        }
      }
    }
    if SameSpendable(s, t, now) {
      forall h, at, uuid | now <= at
        ensures Admits(a, h, at, uuid) == Admits(b, h, at, uuid)
      {
        assert Spendable(s, h, at) ==> Spendable(s, h, now);
        assert Spendable(t, h, at) ==> Spendable(t, h, now);
      }
    }
  }

  /** After a sweep and a restart, every later redemption answers as it would without the sweep
      if and only if the sweep wrote nothing or, before it, the rows and the working copy held
      the same live tokens: its whole-ledger write is what the restart reads. */
  lemma SweepThenRestartIff(l: Ledger, now: real, ok: bool)
    ensures AdmitsAlike(Restarted(SweepCall(l, now, ok).0), Restarted(l), now)
       <==> !Reconciles(l, now, ok) || SameSpendable(l.mem.tokens, l.db.tokens, now)
  {
    if Reconciles(l, now, ok) {
      ReconcileThenRestart(l, now);
    }
  }

  lemma ReconcileThenRestart(l: Ledger, now: real)
    requires Reconciles(l, now, true)
    ensures AdmitsAlike(SweptAndRestarted(l, now), Restarted(l), now)
       <==> SameSpendable(l.mem.tokens, l.db.tokens, now)
  {
    var swept, kept := SweptAndRestarted(l, now), Restarted(l);
    LiveTokensDecide(swept, kept, now);
    forall h
      ensures Spendable(swept.mem.tokens, h, now) <==> Spendable(l.mem.tokens, h, now)
      ensures Spendable(l.mem.tokens, h, now) ==> swept.mem.tokens[h] == l.mem.tokens[h].(tokenHash := h)
      ensures Spendable(kept.mem.tokens, h, now) <==> Spendable(l.db.tokens, h, now)
      ensures Spendable(l.db.tokens, h, now) ==> kept.mem.tokens[h] == l.db.tokens[h].(tokenHash := h)
    {
      RestartedTokens(l, now, h);
    }
  }

  /** From any ledger whose stores agree on one live token while another is stale: a redemption
      whose write fails, a sweep, a restart. The secret is then refused as already used, and
      without the sweep it would have been redeemed. */
  lemma SweepPublishesAFailedRedemption(l: Ledger, h: string, stale: string, now: real, uuid: string)
    requires h in l.mem.tokens && Spendable(l.mem.tokens, h, now) && Spendable(l.db.tokens, h, now) && now > 0.0
    requires stale in l.mem.tokens && Stale(l.mem.tokens[stale], now) && Keyed(l.mem)
    ensures var steps := [Step(Redeem(h, now, uuid), false), Step(Sweep(now), true), Step(Restart, true)];
      && RedeemCall(Run(l, steps), h, now, uuid, true).1 == Rejected(AlreadyUsed)
      && RedeemCall(Run(l, WithoutSweeps(steps)), h, now, uuid, true).1.Returned?
  {
    var a, b, c := Step(Redeem(h, now, uuid), false), Step(Sweep(now), true), Step(Restart, true);
    var steps := [a, b, c];
    assert steps[..2] == [a, b] && [a, b][..1] == [a] && [a][..0] == [] && [a, c][..1] == [a];
    var l1 := Do(l, a);
    assert Run(l, [a]) == l1 && l1.mem.tokens[h].usedAt == now && l1.db == l.db;
    assert stale in StaleHashes(l1.mem.tokens, now);
    assert Run(l, steps) == Do(Do(l1, b), c);
    assert WithoutSweeps([a]) == [a] && WithoutSweeps([a, b]) == [a] && WithoutSweeps(steps) == [a] + [c];
    assert [a] + [c] == [a, c] && Run(l, [a, c]) == Do(l1, c);
  }
}
