/** What the ledger's calls and the servicer's handlers mean for one another, for every ledger:
    each law is stated on verdicts, outcomes and records, not on how a call is computed. */
module LedgerLaws {
  import opened Wrappers
  import opened Enrollment
  import opened LedgerRuns
  import opened Servicer

  predicate StandsIn(t: Tables, n: string, state: Membership) { n in t.nodes && t.nodes[n].state == state }

  /** Two values agree unless both are given and differ. */
  predicate Agrees(a: string, b: string) { a == "" || b == "" || a == b }

  predicate Recognised(l: Ledger, n: string, key: string, facts: Facts)
    requires n in l.mem.nodes
  {
    Agrees(l.mem.nodes[n].key, key) && Agrees(l.mem.nodes[n].facts.hardware, facts.hardware)
  }

  /** Whether a secret would be let in now. */
  predicate LetsIn(l: Ledger, h: string, now: real) { RedeemCall(l, h, now, "", true).1.Returned? }

  // ── Membership ─────────────────────────────────────────────────────────────

  /** `authorize` passes exactly an accepted node whose key and fingerprint agree with the record.
      An accepted node that fails either comparison is denied, for the key if that is what
      differs, in memory at once and in its row as far as the write is accepted. Any other
      verdict changes nothing. */
  lemma AuthorizeIff(l: Ledger, n: string, key: string, facts: Facts, ok: bool)
    requires Keyed(l.mem)
    ensures var (l', r) := AuthorizeCall(l, n, key, facts, ok);
      && (r.Returned? && r.value.ok <==> StandsIn(l.mem, n, Accepted) && Recognised(l, n, key, facts))
      && (if StandsIn(l.mem, n, Accepted) && !Recognised(l, n, key, facts)
          then && (r.WriteFailed? <==> !ok) && StandsIn(l'.mem, n, Denied)
               && l'.mem.nodes[n] == l.mem.nodes[n].(state := Denied, deniedReason := l'.mem.nodes[n].deniedReason)
               && l'.mem.nodes[n].deniedReason == (if !Agrees(l.mem.nodes[n].key, key) then REKEYED else REIMAGED)
               && (r.Returned? ==> r.value.reason == l'.mem.nodes[n].deniedReason)
               && (StandsIn(l'.db, n, Denied) <==> ok || StandsIn(l.db, n, Denied))
               && (ok ==> l'.db.nodes[n] == l'.mem.nodes[n])
          else l' == l && r.Returned?)
  {
  }

  /** The verdict on a node that is not accepted says why. */
  lemma RefusalSaysWhy(l: Ledger, n: string, key: string, facts: Facts, ok: bool)
    requires !StandsIn(l.mem, n, Accepted)
    ensures AuthorizeCall(l, n, key, facts, ok).1 == Returned(Verdict(false,
      if n !in l.mem.nodes then "node is not enrolled"
      else if l.mem.nodes[n].state == Pending then "node is pending"
      else if l.mem.nodes[n].deniedReason == "" then "node is denied"
      else l.mem.nodes[n].deniedReason))
  {
  }

  /** A certificate recorded for a node makes it accepted under that key, with the reason of an
      earlier denial gone, an issue count above both stores', and the machine's facts as last
      reported, each one kept that was not reported. */
  lemma IssueIsRecorded(l: Ledger, n: string, key: string, notAfter: real, facts: Facts, now: real, ok: bool)
    requires Keyed(l.mem)
    ensures var (l', r) := IssueCall(l, n, key, notAfter, facts, now, ok);
      && (r.Returned? <==> ok) && StandsIn(l'.mem, n, Accepted)
      && var e := l'.mem.nodes[n];
         && e.nodeId == n && e.key == key && e.certNotAfter == notAfter && e.deniedReason == ""
         && (r.Returned? ==> r.value == e) && (ok ==> n in l'.db.nodes && l'.db.nodes[n] == e)
         && (n in l.mem.nodes ==> e.issued > l.mem.nodes[n].issued)
         && (n in l.db.nodes ==> e.issued > l.db.nodes[n].issued)
         && (facts.machineId != "" ==> e.facts.machineId == facts.machineId)
         && (facts.bootId != "" ==> e.facts.bootId == facts.bootId)
         && (facts.hardware != "" ==> e.facts.hardware == facts.hardware)
         && (n in l.mem.nodes ==>
               var had := l.mem.nodes[n];
               && (facts.machineId == "" ==> e.facts.machineId == had.facts.machineId)
               && (facts.bootId == "" ==> e.facts.bootId == had.facts.bootId)
               && (facts.hardware == "" ==> e.facts.hardware == had.facts.hardware)
               && e.name == had.name && e.lastSeen == had.lastSeen
               && e.enrolledAt == if had.enrolledAt == 0.0 then now else had.enrolledAt)
  {
  }

  /** A node just recorded passes `authorize` with that key, from its own machine. */
  lemma IssuedIsAuthorized(l: Ledger, n: string, key: string, notAfter: real, facts: Facts, now: real, ok: bool)
    requires Keyed(l.mem)
    ensures var l' := IssueCall(l, n, key, notAfter, facts, now, ok).0;
      AuthorizeCall(l', n, key, facts, true).1 == Returned(Verdict(true, ""))
  {
  }

  /** A denied node is refused with the reason given, until something else is recorded of it. */
  lemma DeniedIsRefused(l: Ledger, n: string, reason: string, ok: bool, key: string, facts: Facts)
    requires Keyed(l.mem)
    ensures var (l', r) := DenyCall(l, n, reason, ok);
      && (if n in l.mem.nodes
          then && (r.Returned? <==> ok)
               && AuthorizeCall(l', n, key, facts, true).1
                  == Returned(Verdict(false, if reason == "" then "node is denied" else reason))
               && (ok ==> n in l'.db.nodes && l'.db.nodes[n] == l'.mem.nodes[n])
          else l' == l && r.Returned?)
  {
  }

  lemma RemovedIsUnknown(l: Ledger, n: string, ok: bool, key: string, facts: Facts)
    ensures var (l', r) := RemoveCall(l, n, ok);
      && (r.Returned? <==> ok)
      && AuthorizeCall(l', n, key, facts, true).1 == Returned(Verdict(false, "node is not enrolled"))
      && (ok ==> n !in l'.db.nodes)
  {
  }

  /** Being seen moves one time of one record in memory. */
  lemma SeenIsNoted(l: Ledger, n: string, now: real, m: string)
    ensures var l' := SeenCall(l, n, now);
      && l'.db == l.db && l'.mem.tokens == l.mem.tokens && l'.mem.nodes.Keys == l.mem.nodes.Keys
      && (m in l.mem.nodes ==>
            l'.mem.nodes[m] == if m == n then l.mem.nodes[m].(lastSeen := now) else l.mem.nodes[m])
  {
  }

  // ── Tokens ─────────────────────────────────────────────────────────────────

  /** A secret is let in exactly from its mint to its expiry if unused; the refusals are told
      apart, unknown before used before expired. */
  lemma RedeemIff(l: Ledger, h: string, now: real, uuid: string, ok: bool)
    requires Keyed(l.mem)
    ensures var (l', r) := RedeemCall(l, h, now, uuid, ok);
      && (r == Rejected(NotRecognised) <==> h !in l.mem.tokens)
      && (r == Rejected(AlreadyUsed) <==> h in l.mem.tokens && l.mem.tokens[h].usedAt != 0.0)
      && (r == Rejected(Expired) <==> h in l.mem.tokens && l.mem.tokens[h].usedAt == 0.0 && l.mem.tokens[h].expiresAt <= now)
      && (r.Rejected? ==> l' == l)
      && (!r.Rejected? ==>
            && h in l.mem.tokens && h in l'.mem.tokens && (r.Returned? <==> ok)
            && var n := if l.mem.tokens[h].assignNodeId == "" then uuid else l.mem.tokens[h].assignNodeId;
               && (r.Returned? ==> r.value == n)
               && l'.mem.tokens[h] == l.mem.tokens[h].(usedAt := now, nodeId := n)
               && StandsIn(l'.mem, n, Pending) && l'.mem.nodes[n].key == "" && l'.mem.nodes[n].facts == NoFacts
               && l'.mem.nodes[n].name == l.mem.tokens[h].name && l'.mem.nodes[n].enrolledAt == now
               && (ok ==> && h in l'.db.tokens && l'.db.tokens[h] == l'.mem.tokens[h]
                          && n in l'.db.nodes && l'.db.nodes[n] == l'.mem.nodes[n]))
  {
  }

  /** A minted secret is let in exactly until its time is up, as the node it was pinned to or a
      new one, and after a restart as well if its row was written. */
  lemma MintedWorks(l: Ledger, h: string, name: string, ttl: real, assign: string, now: real, ok: bool,
                    at: real, uuid: string)
    ensures var (l', r) := MintCall(l, h, name, ttl, assign, now, ok);
      && (r.Returned? <==> ok)
      && (LetsIn(l', h, at) <==> at < now + ttl)
      && (LetsIn(l', h, at) ==> RedeemCall(l', h, at, uuid, true).1 == Returned(if assign == "" then uuid else assign))
      && (ok ==> (LetsIn(Restarted(l'), h, at) <==> at < now + ttl))
      && (LetsIn(l', h, at) ==> l'.mem.tokens[h].name == name && l'.mem.tokens[h].createdAt == now)
  {
  }

  /** Minting one secret changes nothing for another that could still be let in. */
  lemma MintKeepsOthers(l: Ledger, h: string, name: string, ttl: real, assign: string, now: real, ok: bool,
                        other: string, at: real)
    requires other != h && now <= at
    ensures LetsIn(MintCall(l, h, name, ttl, assign, now, ok).0, other, at) <==> LetsIn(l, other, at)
  {
  }

  /** A revoked secret is never let in; revoking answers whether it was known, and leaves the time
      of a use that came first. */
  lemma RevokedIsRefused(l: Ledger, h: string, now: real, ok: bool, at: real)
    requires Keyed(l.mem) && now > 0.0
    ensures var (l', r) := RevokeCall(l, h, now, ok);
      && !LetsIn(l', h, at)
      && (r.Returned? ==> (r.value <==> h in l.mem.tokens))
      && (r.WriteFailed? <==> !ok && h in l.mem.tokens && l.mem.tokens[h].usedAt == 0.0)
      && (h in l.mem.tokens ==>
            && h in l'.mem.tokens
            && l'.mem.tokens[h].usedAt == if l.mem.tokens[h].usedAt == 0.0 then now else l.mem.tokens[h].usedAt)
      && (ok && h in l.mem.tokens && l.mem.tokens[h].usedAt == 0.0 ==>
            h in l'.db.tokens && l'.db.tokens[h] == l'.mem.tokens[h])
  {
  }

  /** A sweep forgets exactly the secrets whose expiry, and use if there was one, lie more than
      600 seconds back, and counts them. */
  lemma SweepForgets(l: Ledger, now: real, ok: bool, h: string)
    ensures var (l', r) := SweepCall(l, now, ok);
      && (h in l'.mem.tokens ==> h in l.mem.tokens && l'.mem.tokens[h] == l.mem.tokens[h])
      && (h in l.mem.tokens && h !in l'.mem.tokens <==>
            h in l.mem.tokens && l.mem.tokens[h].expiresAt + 600.0 < now
            && (l.mem.tokens[h].usedAt != 0.0 ==> l.mem.tokens[h].usedAt + 600.0 < now))
      && l'.mem.nodes == l.mem.nodes
      && (r.Returned? ==> r.value == |l.mem.tokens| - |l'.mem.tokens|)
      && (l'.mem.tokens != l.mem.tokens && ok ==> l'.db == l'.mem)
      && (l'.mem.tokens == l.mem.tokens || !ok ==> l'.db == l.db)
  {
    SweptCount(l.mem.tokens, now);
  }

  lemma SweptCount(tokens: map<string, Grant>, now: real)
    ensures |StaleHashes(tokens, now)| == |tokens| - |Swept(tokens, now)|
    ensures Swept(tokens, now) == tokens <==> StaleHashes(tokens, now) == {}
  {
    var gone, kept := StaleHashes(tokens, now), Swept(tokens, now);
    assert kept.Keys == tokens.Keys - gone && gone <= tokens.Keys;
    assert |kept.Keys| == |tokens.Keys| - |gone|;
    if gone != {} {
      var x :| x in gone;
      assert x !in kept;
    }
  }

  // ── Failed writes and restarts ─────────────────────────────────────────────

  /** A call whose write fails leaves every row as it was. */
  lemma FailedWriteLeavesRows(l: Ledger, s: Step)
    ensures !s.ok ==> Do(l, s).db == l.db
    ensures s.call.Seen? || s.call.Restart? ==> Do(l, s).db == l.db
  {
  }

  /** A restart forgets what was not written and changes no row. */
  lemma RestartReadsRows(l: Ledger)
    requires Keyed(l.db)
    ensures Restarted(l).db == l.db && Restarted(l).mem == l.db
  {
    assert Load(l.db).nodes == l.db.nodes && Load(l.db).tokens == l.db.tokens;
  }

  // ── Handlers ───────────────────────────────────────────────────────────────

  /** Nobody reaches the ledger under another's name: without a certificate for the claimed id the
      session is aborted and nothing changes, and only an accepted node showing a key that agrees
      with its record is admitted, under its own id. */
  lemma SessionGate(l: Ledger, cert: Option<(string, string)>, claimed: string, facts: Facts, ok: bool)
    requires Keyed(l.mem)
    ensures var (l', reply) := SessionHandler(l, cert, claimed, facts, ok);
      && (cert.None? || cert.value.0 == "" || cert.value.0 != claimed ==> l' == l && reply.Aborted?)
      && (cert.None? || cert.value.0 == "" ==> reply == Aborted(Unauthenticated))
      && (reply.Admitted? <==>
            && cert.Some? && claimed != "" && cert.value.0 == claimed
            && StandsIn(l.mem, claimed, Accepted) && Recognised(l, claimed, cert.value.1, facts))
      && (reply.Admitted? ==> reply.nodeId == claimed && l' == l)
      && !reply.Certified?
  {
    if cert.Some? {
      AuthorizeIff(l, claimed, cert.value.1, facts, ok);
    }
  }

  /** A certificate is given exactly for a good secret, a good request and two good writes, on a
      connection that has no identity yet; the node it names passes `authorize` with it. */
  lemma EnrollGate(l: Ledger, peer: string, h: string, now: real, uuid: string, csr: Signing, facts: Facts,
                   ok1: bool, ok2: bool)
    requires Keyed(l.mem)
    ensures var (l', reply) := EnrollHandler(l, peer, h, now, uuid, csr, facts, ok1, ok2);
      && (peer != "" ==> l' == l && reply == Aborted(FailedPrecondition))
      && (reply.Certified? <==> peer == "" && LetsIn(l, h, now) && csr.Signed? && ok1 && ok2)
      && (reply.Certified? ==>
            && reply.key == csr.key
            && reply.nodeId == (if l.mem.tokens[h].assignNodeId == "" then uuid else l.mem.tokens[h].assignNodeId)
            && AuthorizeCall(l', reply.nodeId, csr.key, facts, true).1 == Returned(Verdict(true, "")))
      && (peer == "" && !LetsIn(l, h, now) ==> l' == l && reply == Aborted(PermissionDenied))
      && (peer == "" && LetsIn(l, h, now) && now > 0.0 ==> !LetsIn(l', h, now))
  {
    var l1 := RedeemCall(l, h, now, uuid, ok1).0;
    KeyedStep(l, Step(LedgerRuns.Redeem(h, now, uuid), ok1));
    if csr.Signed? && LetsIn(l, h, now) {
      var n := if l.mem.tokens[h].assignNodeId == "" then uuid else l.mem.tokens[h].assignNodeId;
      IssuedIsAuthorized(l1, n, csr.key, csr.notAfter, facts, now, ok2);
    }
  }

  /** A request that cannot be signed spends the secret and leaves no node behind. */
  lemma BadRequestLeavesNoNode(l: Ledger, h: string, now: real, uuid: string, facts: Facts)
    requires Keyed(l.mem) && LetsIn(l, h, now)
    ensures var (l', reply) := EnrollHandler(l, "", h, now, uuid, BadCsr, facts, true, true);
      var n := if l.mem.tokens[h].assignNodeId == "" then uuid else l.mem.tokens[h].assignNodeId;
      && reply == Aborted(InvalidArgument) && n !in l'.mem.nodes && n !in l'.db.nodes
      && (now > 0.0 ==> !LetsIn(l', h, now))
  {
  }

  /** A renewal is given exactly to an accepted node on a machine that agrees with its record, on
      an authenticated connection, for a good request and a good write; its old key no longer
      passes and its new one does. */
  lemma RenewGate(l: Ledger, peer: string, csr: Signing, facts: Facts, now: real, ok1: bool, ok2: bool, old': string)
    requires Keyed(l.mem)
    ensures var (l', reply) := RenewHandler(l, peer, csr, facts, now, ok1, ok2);
      && (peer == "" ==> l' == l && reply == Aborted(Unauthenticated))
      && (reply.Certified? <==>
            && peer != "" && StandsIn(l.mem, peer, Accepted) && Recognised(l, peer, "", facts) && csr.Signed? && ok2)
      && (reply.Certified? ==>
            && reply.nodeId == peer && reply.key == csr.key
            && AuthorizeCall(l', peer, csr.key, facts, true).1 == Returned(Verdict(true, ""))
            && (old' != "" && csr.key != "" && old' != csr.key ==>
                  !AuthorizeCall(l', peer, old', facts, true).1.value.ok))
      && (peer != "" && !(StandsIn(l.mem, peer, Accepted) && Recognised(l, peer, "", facts)) ==>
            !StandsIn(l'.mem, peer, Accepted))
  {
    AuthorizeIff(l, peer, "", facts, ok1);
    if csr.Signed? && peer != "" && StandsIn(l.mem, peer, Accepted) && Recognised(l, peer, "", facts) {
      IssuedIsAuthorized(l, peer, csr.key, csr.notAfter, facts, now, ok2);
    }
  }
}
