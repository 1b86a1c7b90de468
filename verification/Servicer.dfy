/** The gRPC handlers: how they compose ledger calls, and what that means for a denial. */
module Servicer {
  import opened Wrappers
  import opened Enrollment
  import opened LedgerRuns

  datatype Status = FailedPrecondition | PermissionDenied | Unauthenticated | InvalidArgument

  /** `Raised` is an exception leaving the handler: a failed write, or a CSR that Renew
      cannot sign. */
  datatype Reply = Certified(nodeId: string, key: string) | Admitted(nodeId: string)
                 | Aborted(status: Status) | Raised

  /** What the certificate authority makes of a CSR. */
  datatype Signing = Signed(key: string, notAfter: real) | BadCsr

  // ── Handlers, as functions ─────────────────────────────────────────────────

  function EnrollHandler(l: Ledger, peer: string, h: string, now: real, uuid: string,
                         csr: Signing, facts: Facts, ok1: bool, ok2: bool): (Ledger, Reply)
  {
    if peer != "" then (l, Aborted(FailedPrecondition)) else
    var (l1, redeemed) := RedeemCall(l, h, now, uuid, ok1);
    match redeemed
    case Rejected(_) => (l1, Aborted(PermissionDenied))
    case WriteFailed => (l1, Raised)
    case Returned(n) =>
      match csr
      case BadCsr =>
        var (l2, gone) := RemoveCall(l1, n, ok2);
        (l2, if gone.Returned? then Aborted(InvalidArgument) else Raised)
      case Signed(key, notAfter) =>
        var (l2, issued) := IssueCall(l1, n, key, notAfter, facts, now, ok2);
        (l2, if issued.Returned? then Certified(n, key) else Raised)
  }

  function RenewHandler(l: Ledger, peer: string, csr: Signing, facts: Facts, now: real, ok1: bool, ok2: bool)
    : (Ledger, Reply)
  {
    if peer == "" then (l, Aborted(Unauthenticated)) else
    var (l1, verdict) := AuthorizeCall(l, peer, "", facts, ok1);
    if !verdict.Returned? then (l1, Raised)
    else if !verdict.value.ok then (l1, Aborted(PermissionDenied))
    else if csr.BadCsr? then (l1, Raised)
    else
      var (l2, issued) := IssueCall(l1, peer, csr.key, csr.notAfter, facts, now, ok2);
      (l2, if issued.Returned? then Certified(peer, csr.key) else Raised)
  }

  /** `peer` is the node id a presented certificate carries, with its key; None when the
      peer presented no certificate. */
  function SessionHandler(l: Ledger, peer: Option<(string, string)>, claimed: string, facts: Facts, ok: bool)
    : (Ledger, Reply)
  {
    if peer.None? || peer.value.0 == "" then (l, Aborted(Unauthenticated))
    else if claimed != peer.value.0 then (l, Aborted(PermissionDenied))
    else
      var (l1, verdict) := AuthorizeCall(l, claimed, peer.value.1, facts, ok);
      (l1, if !verdict.Returned? then Raised
           else if verdict.value.ok then Admitted(claimed) else Aborted(PermissionDenied))
  }

  // ── The handlers in place ──────────────────────────────────────────────────

  class EnrollmentServicer {
    const ledger: EnrollmentLedger

    constructor (ledger: EnrollmentLedger)
      ensures this.ledger == ledger
    {
      this.ledger := ledger;
    }

    method Enroll(peer: string, token: string, now: real, uuid: string, csr: Signing, facts: Facts,
                  ok1: bool, ok2: bool) returns (r: Reply)
      requires ledger.Valid()
      modifies ledger, ledger.db
      ensures ledger.Valid()
      ensures (ledger.View(), r)
           == EnrollHandler(old(ledger.View()), peer, ledger.hash(token), now, uuid, csr, facts, ok1, ok2)
    {
      if peer != "" {
        return Aborted(FailedPrecondition);
      }
      var redeemed := ledger.RedeemToken(token, now, uuid, ok1);
      match redeemed {
        case Rejected(_) => r := Aborted(PermissionDenied);
        case WriteFailed => r := Raised;
        case Returned(n) =>
          match csr {
            case BadCsr =>
              var gone := ledger.Remove(n, ok2);
              r := if gone.Returned? then Aborted(InvalidArgument) else Raised;
            case Signed(key, notAfter) =>
              var issued := ledger.RecordIssue(n, key, notAfter, facts, now, ok2);
              r := if issued.Returned? then Certified(n, key) else Raised;
          }
      }
    }

    method Renew(peer: string, csr: Signing, facts: Facts, now: real, ok1: bool, ok2: bool) returns (r: Reply)
      requires ledger.Valid()
      modifies ledger, ledger.db
      ensures ledger.Valid()
      ensures (ledger.View(), r) == RenewHandler(old(ledger.View()), peer, csr, facts, now, ok1, ok2)
    {
      if peer == "" {
        return Aborted(Unauthenticated);
      }
      var verdict := ledger.Authorize(peer, "", facts, ok1);
      if !verdict.Returned? {
        return Raised;
      }
      if !verdict.value.ok {
        return Aborted(PermissionDenied);
      }
      if csr.BadCsr? {
        return Raised;
      }
      var issued := ledger.RecordIssue(peer, csr.key, csr.notAfter, facts, now, ok2);
      r := if issued.Returned? then Certified(peer, csr.key) else Raised;
    }

    // The checks a session passes before its connection is attached.
    method OpenSession(peer: Option<(string, string)>, claimed: string, facts: Facts, ok: bool) returns (r: Reply)
      requires ledger.Valid()
      modifies ledger, ledger.db
      ensures ledger.Valid()
      ensures (ledger.View(), r) == SessionHandler(old(ledger.View()), peer, claimed, facts, ok)
    {
      if peer.None? || peer.value.0 == "" {
        return Aborted(Unauthenticated);
      }
      if claimed != peer.value.0 {
        return Aborted(PermissionDenied);
      }
      var verdict := ledger.Authorize(claimed, peer.value.1, facts, ok);
      r := if !verdict.Returned? then Raised
           else if verdict.value.ok then Admitted(claimed) else Aborted(PermissionDenied);
    }
  }

  // ── Denial is sticky when a handler is one step ────────────────────────────

  datatype Request =
    | Enroll(peer: string, h: string, now: real, uuid: string, csr: Signing, facts: Facts, ok1: bool, ok2: bool)
    | Renew(peer: string, csr: Signing, facts: Facts, now: real, ok1: bool, ok2: bool)
    | Session(cert: Option<(string, string)>, claimed: string, facts: Facts, ok: bool)
    | Operator(step: Step)

  /** Operators and housekeeping reach every call but the two only handlers make. */
  predicate Proper(q: Request) {
    q.Operator? ==> !q.step.call.Redeem? && !q.step.call.Issue?
  }

  function Handle(l: Ledger, q: Request): Ledger {
    match q
    case Enroll(peer, h, now, uuid, csr, facts, ok1, ok2) =>
      EnrollHandler(l, peer, h, now, uuid, csr, facts, ok1, ok2).0
    case Renew(peer, csr, facts, now, ok1, ok2) => RenewHandler(l, peer, csr, facts, now, ok1, ok2).0
    case Session(cert, claimed, facts, ok) => SessionHandler(l, cert, claimed, facts, ok).0
    case Operator(step) => Do(l, step)
  }

  function Serve(l: Ledger, qs: seq<Request>): Ledger {
    if qs == [] then l else Handle(Serve(l, qs[..|qs| - 1]), qs[|qs| - 1])
  }

  predicate DeniedIn(t: Tables, n: string) { n in t.nodes && t.nodes[n].state == Denied }

  predicate DurablyDenied(l: Ledger, n: string) { DeniedIn(l.mem, n) && DeniedIn(l.db, n) }

  /** The two ways back in: the operator removes the node, or a live token that the control
      plane pinned to this id is redeemed. */
  predicate Reopens(l: Ledger, q: Request, n: string) {
    || (q.Operator? && q.step.call == Remove(n))
    || (q.Enroll? && q.peer == "" && q.h in l.mem.tokens && l.mem.tokens[q.h].usedAt == 0.0
        && q.now < l.mem.tokens[q.h].expiresAt && l.mem.tokens[q.h].assignNodeId == n)
  }

  /** A minted uuid names no node the ledger already holds. */
  predicate FreshUuid(l: Ledger, q: Request) {
    q.Enroll? ==> q.uuid != "" && q.uuid !in l.mem.nodes && q.uuid !in l.db.nodes
  }

  lemma DenialStep(l: Ledger, q: Request, n: string)
    requires Keyed(l.mem) && Proper(q) && FreshUuid(l, q) && n != "" && DurablyDenied(l, n)
    ensures Keyed(Handle(l, q).mem)
    ensures DurablyDenied(Handle(l, q), n) <==> !Reopens(l, q, n)
  {
    match q
    case Enroll(peer, h, now, uuid, csr, facts, ok1, ok2) => EnrollStep(l, q, n);
    case Renew(peer, csr, facts, now, ok1, ok2) => RenewStep(l, q, n);
    case Session(cert, claimed, facts, ok) => SessionStep(l, q, n);
    case Operator(step) =>
      KeyedStep(l, step);
      OperatorStep(l, step, n);
  }

  lemma EnrollStep(l: Ledger, q: Request, n: string)
    requires q.Enroll? && Keyed(l.mem) && FreshUuid(l, q) && n != "" && DurablyDenied(l, n)
    ensures Keyed(Handle(l, q).mem)
    ensures DurablyDenied(Handle(l, q), n) <==> !Reopens(l, q, n)
  {
  }

  lemma RenewStep(l: Ledger, q: Request, n: string)
    requires q.Renew? && Keyed(l.mem) && DurablyDenied(l, n)
    ensures Keyed(Handle(l, q).mem) && DurablyDenied(Handle(l, q), n)
  {
  }

  lemma SessionStep(l: Ledger, q: Request, n: string)
    requires q.Session? && Keyed(l.mem) && DurablyDenied(l, n)
    ensures Keyed(Handle(l, q).mem) && DurablyDenied(Handle(l, q), n)
  {
  }

  lemma OperatorStep(l: Ledger, s: Step, n: string)
    requires Keyed(l.mem) && !s.call.Redeem? && !s.call.Issue? && DurablyDenied(l, n)
    ensures DurablyDenied(Do(l, s), n) <==> s.call != Remove(n)
  {
  }

  /** A denial both stores hold outlives every run of requests, failed writes and restarts
      included, unless one of them reopens the node. */
  lemma {:induction false} DenialIsSticky(l: Ledger, qs: seq<Request>, n: string)
    requires Keyed(l.mem) && n != "" && DurablyDenied(l, n)
    requires forall i :: 0 <= i < |qs| ==> Proper(qs[i]) && FreshUuid(Serve(l, qs[..i]), qs[i])
    requires forall i :: 0 <= i < |qs| ==> !Reopens(Serve(l, qs[..i]), qs[i], n)
    ensures Keyed(Serve(l, qs).mem) && DurablyDenied(Serve(l, qs), n)
  {
    if qs != [] {
      var k := |qs| - 1;
      forall i | 0 <= i < k
        ensures qs[..k][..i] == qs[..i]
      {
      }
      DenialIsSticky(l, qs[..k], n);
      DenialStep(Serve(l, qs[..k]), qs[k], n);
    }
  }

  /** A denial whose write failed is only in memory: after a restart the node is denied if
      and only if its row already said so. */
  lemma UnwrittenDenial(l: Ledger, n: string, reason: string, ok: bool)
    requires Keyed(l.mem) && n in l.mem.nodes
    ensures DeniedIn(DenyCall(l, n, reason, ok).0.mem, n)
    ensures DeniedIn(Restarted(DenyCall(l, n, reason, ok).0).mem, n) <==> ok || DeniedIn(l.db, n)
  {
  }

  // ── Denial is lost between a Renew's two calls ─────────────────────────────

  predicate AuthorizedForRenewal(l: Ledger, n: string, facts: Facts) {
    AuthorizeCall(l, n, "", facts, true).1 == Returned(Verdict(true, ""))
  }

  /** What Renew leaves when other ledger calls run between its `authorize` and its
      `record_issue`: the lock covers each call, not the pair. */
  function SplitRenew(l: Ledger, n: string, key: string, notAfter: real, facts: Facts, now: real, mid: seq<Step>): Ledger {
    IssueCall(Run(l, mid), n, key, notAfter, facts, now, true).0
  }

  /** A split Renew ends where an undivided one run after the interlopers would end, if and
      only if the node would still pass `authorize` at that point. */
  lemma SplitRenewIsAtomicIff(l: Ledger, n: string, key: string, notAfter: real, facts: Facts, now: real, mid: seq<Step>)
    requires n != ""
    ensures SplitRenew(l, n, key, notAfter, facts, now, mid)
         == RenewHandler(Run(l, mid), n, Signed(key, notAfter), facts, now, true, true).0
       <==> AuthorizedForRenewal(Run(l, mid), n, facts)
  {
    var s := Run(l, mid);
    var split := SplitRenew(l, n, key, notAfter, facts, now, mid);
    var whole := RenewHandler(s, n, Signed(key, notAfter), facts, now, true, true).0;
    assert n in split.mem.nodes && split.mem.nodes[n].state == Accepted;
    if !AuthorizedForRenewal(s, n, facts) {
      assert n !in whole.mem.nodes || whole.mem.nodes[n].state != Accepted;
    }
  }

  /** Whatever the ledger does in the gap, a denial or a removal of the node included, it is
      accepted afterwards in both stores, and a dial with the new key is let in. */
  lemma SplitRenewAlwaysAdmits(l: Ledger, n: string, key: string, notAfter: real, facts: Facts, now: real, mid: seq<Step>)
    requires Keyed(l.mem)
    ensures var after := SplitRenew(l, n, key, notAfter, facts, now, mid);
      && n in after.mem.nodes && after.mem.nodes[n].state == Accepted && after.mem.nodes[n].deniedReason == ""
      && n in after.db.nodes && after.db.nodes[n] == after.mem.nodes[n]
      && AuthorizeCall(after, n, key, NoFacts, true).1 == Returned(Verdict(true, ""))
  {
    RunKeyed(l, mid);
  }

  /** The same gap lies between Enroll's `redeem_token` and its `record_issue`: a node denied or
      removed in it is admitted all the same. */
  lemma SplitEnrollAlwaysAdmits(l: Ledger, h: string, uuid: string, n: string, key: string, notAfter: real, facts: Facts,
                                now: real, mid: seq<Step>)
    requires Keyed(l.mem) && RedeemCall(l, h, now, uuid, true).1 == Returned(n)
    ensures EnrollHandler(l, "", h, now, uuid, Signed(key, notAfter), facts, true, true).0
         == SplitRenew(RedeemCall(l, h, now, uuid, true).0, n, key, notAfter, facts, now, [])
    ensures var after := SplitRenew(RedeemCall(l, h, now, uuid, true).0, n, key, notAfter, facts, now, mid);
      && n in after.mem.nodes && after.mem.nodes[n].state == Accepted && after.mem.nodes[n].deniedReason == ""
      && n in after.db.nodes && after.db.nodes[n] == after.mem.nodes[n]
  {
    var l1 := RedeemCall(l, h, now, uuid, true).0;
    KeyedStep(l, Step(LedgerRuns.Redeem(h, now, uuid), true));
    SplitRenewAlwaysAdmits(l1, n, key, notAfter, facts, now, mid);
  }

  /** An operator's denial that lands in the gap is undone: the node was refused, and is
      admitted again with the reason erased, in both stores. */
  lemma DenialInTheGapIsLost(l: Ledger, n: string, key: string, notAfter: real, facts: Facts, now: real, reason: string)
    requires Keyed(l.mem) && n in l.mem.nodes && AuthorizedForRenewal(l, n, facts)
    ensures var mid := [Step(Deny(n, reason), true)];
      var after := SplitRenew(l, n, key, notAfter, facts, now, mid);
      && DurablyDenied(Run(l, mid), n)
      && AuthorizeCall(after, n, key, NoFacts, true).1 == Returned(Verdict(true, ""))
      && n in after.db.nodes && after.db.nodes[n].state == Accepted && after.db.nodes[n].deniedReason == ""
  {
    var mid := [Step(Deny(n, reason), true)];
    assert mid[..0] == [];
    assert Run(l, mid) == Do(l, mid[0]);
  }
}
