/** The enrolment ledger: tokens, membership, authorisation and housekeeping.
    The first half gives each ledger call as a function on ledger values; the second half
    is the class whose methods change a working copy and the rows in place. */
module Enrollment {
  import opened Wrappers

  // ── Records ────────────────────────────────────────────────────────────────

  const TOKEN_TTL: real := 600.0

  datatype Membership = Pending | Accepted | Denied

  /** What a node reports about its machine; "" is a fact it did not report. */
  datatype Facts = Facts(machineId: string, bootId: string, hardware: string)

  const NoFacts := Facts("", "", "")

  datatype Entry = Entry(
    nodeId: string, name: string, state: Membership, enrolledAt: real, lastSeen: real,
    key: string, facts: Facts, certNotAfter: real, deniedReason: string, issued: nat)

  /** `usedAt == 0.0` is a token nobody has spent; `assignNodeId == ""` is an unpinned one. */
  datatype Grant = Grant(
    tokenHash: string, name: string, createdAt: real, expiresAt: real,
    usedAt: real, nodeId: string, assignNodeId: string)

  datatype Tables = Tables(nodes: map<string, Entry>, tokens: map<string, Grant>)

  /** The working copy and the committed rows. */
  datatype Ledger = Ledger(mem: Tables, db: Tables)

  const NoGrant := Grant("", "", 0.0, 0.0, 0.0, "", "")

  function Blank(n: string): Entry {
    Entry(n, "", Pending, 0.0, 0.0, "", NoFacts, 0.0, "", 0)
  }

  predicate Keyed(t: Tables) {
    && (forall n :: n in t.nodes ==> t.nodes[n].nodeId == n)
    && (forall h :: h in t.tokens ==> t.tokens[h].tokenHash == h)
  }

  // ── Rows ───────────────────────────────────────────────────────────────────

  /** The rows one transaction names: drops first, then puts. */
  datatype Write = Write(
    nodes: seq<Entry>, tokens: seq<Grant>, dropNodes: seq<string>, dropTokens: seq<string>)

  function PutNodes(m: map<string, Entry>, es: seq<Entry>): map<string, Entry> {
    if es == [] then m else PutNodes(m, es[..|es| - 1])[es[|es| - 1].nodeId := es[|es| - 1]]
  }

  function PutTokens(m: map<string, Grant>, gs: seq<Grant>): map<string, Grant> {
    if gs == [] then m else PutTokens(m, gs[..|gs| - 1])[gs[|gs| - 1].tokenHash := gs[|gs| - 1]]
  }

  function Apply(t: Tables, w: Write): Tables {
    Tables(PutNodes(t.nodes - (set k | k in w.dropNodes), w.nodes),
           PutTokens(t.tokens - (set k | k in w.dropTokens), w.tokens))
  }

  /** What a start reads back: each record takes its id from its row. */
  function Load(t: Tables): Tables {
    Tables(map n | n in t.nodes :: t.nodes[n].(nodeId := n),
           map h | h in t.tokens :: t.tokens[h].(tokenHash := h))
  }

  // ── Calls, as functions ────────────────────────────────────────────────────

  datatype Refusal = NotRecognised | AlreadyUsed | Expired

  /** How a call ends. `WriteFailed` is the database raising: the working copy has
      already changed and the rows have not. */
  datatype Outcome<T> = Returned(value: T) | Rejected(why: Refusal) | WriteFailed

  datatype Verdict = Verdict(ok: bool, reason: string)

  const REKEYED := "a different key was presented for this node id"
  const REIMAGED := "hardware fingerprint changed; the node may be reimaged"

  function Persist<T>(l: Ledger, mem: Tables, rows: Tables, ok: bool, value: T): (Ledger, Outcome<T>) {
    if ok then (Ledger(mem, rows), Returned(value)) else (Ledger(mem, l.db), WriteFailed)
  }

  function PutNode(t: Tables, e: Entry): Tables { t.(nodes := t.nodes[e.nodeId := e]) }

  function PutToken(t: Tables, g: Grant): Tables { t.(tokens := t.tokens[g.tokenHash := g]) }

  function DropNode(t: Tables, n: string): Tables { t.(nodes := t.nodes - {n}) }

  lemma NarrowWrites(t: Tables, e: Entry, g: Grant, n: string)
    ensures Apply(t, Write([e], [], [], [])) == PutNode(t, e)
    ensures Apply(t, Write([], [g], [], [])) == PutToken(t, g)
    ensures Apply(t, Write([e], [g], [], [])) == PutToken(PutNode(t, e), g)
    ensures Apply(t, Write([], [], [n], [])) == DropNode(t, n)
  {
    assert t.nodes - (set k | k in []) == t.nodes && t.tokens - (set k | k in []) == t.tokens;
    assert (set k | k in [n]) == {n};
    assert PutNodes(t.nodes, [e]) == t.nodes[e.nodeId := e];
    assert PutTokens(t.tokens, [g]) == t.tokens[g.tokenHash := g];
  }

  predicate Stale(g: Grant, now: real) {
    now > g.expiresAt + TOKEN_TTL && (g.usedAt == 0.0 || now > g.usedAt + TOKEN_TTL)
  }

  function Swept(tokens: map<string, Grant>, now: real): map<string, Grant> {
    map h | h in tokens && !Stale(tokens[h], now) :: tokens[h]
  }

  function StaleHashes(tokens: map<string, Grant>, now: real): set<string> {
    set h | h in tokens && Stale(tokens[h], now)
  }

  function DropTokens(t: Tables, tokens: map<string, Grant>, now: real): Tables {
    t.(tokens := t.tokens - StaleHashes(tokens, now))
  }

  function MintCall(l: Ledger, h: string, name: string, ttl: real, assign: string, now: real, ok: bool)
    : (Ledger, Outcome<()>)
  {
    var g := Grant(h, name, now, now + ttl, 0.0, "", assign);
    var mem := l.mem.(tokens := Swept(l.mem.tokens, now)[h := g]);
    var kept := DropTokens(l.db, l.mem.tokens, now);
    if ok then (Ledger(mem, kept.(tokens := kept.tokens[h := g])), Returned(()))
    else (Ledger(mem, l.db), WriteFailed)
  }

  function RedeemCall(l: Ledger, h: string, now: real, uuid: string, ok: bool): (Ledger, Outcome<string>) {
    if h !in l.mem.tokens then (l, Rejected(NotRecognised)) else
    var g := l.mem.tokens[h];
    if g.usedAt != 0.0 then (l, Rejected(AlreadyUsed)) else
    if now >= g.expiresAt then (l, Rejected(Expired)) else
    var n := if g.assignNodeId != "" then g.assignNodeId else uuid;
    var g' := g.(usedAt := now, nodeId := n);
    var e := Blank(n).(name := g.name, enrolledAt := now);
    Persist(l, Tables(l.mem.nodes[n := e], l.mem.tokens[h := g']), PutToken(PutNode(l.db, e), g'), ok, n)
  }

  function RevokeCall(l: Ledger, h: string, now: real, ok: bool): (Ledger, Outcome<bool>) {
    if h !in l.mem.tokens then (l, Returned(false)) else
    var g := l.mem.tokens[h];
    if g.usedAt != 0.0 then (l, Returned(true)) else
    var g' := g.(usedAt := now);
    Persist(l, l.mem.(tokens := l.mem.tokens[h := g']), PutToken(l.db, g'), ok, true)
  }

  function Merged(had: Facts, got: Facts): Facts {
    Facts(if got.machineId != "" then got.machineId else had.machineId,
          if got.bootId != "" then got.bootId else had.bootId,
          if got.hardware != "" then got.hardware else had.hardware)
  }

  /** The record after a certificate is issued. The count never falls below the stored one. */
  function Issued(e: Entry, stored: Option<Entry>, key: string, notAfter: real, facts: Facts, now: real): Entry {
    e.(state := Accepted, key := key, certNotAfter := notAfter,
       issued := Max(e.issued, if stored.Some? then stored.value.issued else 0) + 1,
       deniedReason := "",
       enrolledAt := if e.enrolledAt == 0.0 then now else e.enrolledAt,
       facts := Merged(e.facts, facts))
  }

  function Stored(t: Tables, n: string): Option<Entry> {
    if n in t.nodes then Some(t.nodes[n].(nodeId := n)) else None
  }

  function IssueCall(l: Ledger, n: string, key: string, notAfter: real, facts: Facts, now: real, ok: bool)
    : (Ledger, Outcome<Entry>)
  {
    var stored := Stored(l.db, n);
    var e := if n in l.mem.nodes then l.mem.nodes[n] else if stored.Some? then stored.value else Blank(n);
    var e' := Issued(e, stored, key, notAfter, facts, now);
    Persist(l, l.mem.(nodes := l.mem.nodes[n := e']), PutNode(l.db, e'), ok, e')
  }

  function SetDenied(l: Ledger, n: string, reason: string): Entry
    requires n in l.mem.nodes
  {
    l.mem.nodes[n].(state := Denied, deniedReason := reason)
  }

  function DenyCall(l: Ledger, n: string, reason: string, ok: bool): (Ledger, Outcome<()>) {
    if n !in l.mem.nodes then (l, Returned(())) else
    var e := SetDenied(l, n, reason);
    Persist(l, l.mem.(nodes := l.mem.nodes[n := e]), PutNode(l.db, e), ok, ())
  }

  function RemoveCall(l: Ledger, n: string, ok: bool): (Ledger, Outcome<()>) {
    Persist(l, DropNode(l.mem, n), DropNode(l.db, n), ok, ())
  }

  function SeenCall(l: Ledger, n: string, now: real): Ledger {
    if n !in l.mem.nodes then l
    else l.(mem := l.mem.(nodes := l.mem.nodes[n := l.mem.nodes[n].(lastSeen := now)]))
  }

  function AuthorizeCall(l: Ledger, n: string, key: string, facts: Facts, ok: bool): (Ledger, Outcome<Verdict>) {
    if n !in l.mem.nodes then (l, Returned(Verdict(false, "node is not enrolled"))) else
    var e := l.mem.nodes[n];
    if e.state == Denied then
      (l, Returned(Verdict(false, if e.deniedReason != "" then e.deniedReason else "node is denied")))
    else if e.state != Accepted then (l, Returned(Verdict(false, "node is pending")))
    else if key != "" && e.key != "" && key != e.key then
      var e' := SetDenied(l, n, REKEYED);
      Persist(l, l.mem.(nodes := l.mem.nodes[n := e']), PutNode(l.db, e'), ok, Verdict(false, REKEYED))
    else if facts.hardware != "" && e.facts.hardware != "" && facts.hardware != e.facts.hardware then
      var e' := SetDenied(l, n, REIMAGED);
      Persist(l, l.mem.(nodes := l.mem.nodes[n := e']), PutNode(l.db, e'), ok, Verdict(false, REIMAGED))
    else (l, Returned(Verdict(true, "")))
  }

  function SweepCall(l: Ledger, now: real, ok: bool): (Ledger, Outcome<nat>) {
    var gone := StaleHashes(l.mem.tokens, now);
    var mem := l.mem.(tokens := Swept(l.mem.tokens, now));
    if gone == {} then (l.(mem := mem), Returned(0))
    else if ok then (Ledger(mem, mem), Returned(|gone|))
    else (Ledger(mem, l.db), WriteFailed)
  }

  /** The process ends and a new one reads the tables back. */
  function Restarted(l: Ledger): Ledger { Ledger(Load(l.db), l.db) }

  // ── Framing of a narrow write ──────────────────────────────────────────────

  predicate NamesNode(w: Write, n: string) {
    n in w.dropNodes || exists e :: e in w.nodes && e.nodeId == n
  }

  predicate NamesToken(w: Write, h: string) {
    h in w.dropTokens || exists g :: g in w.tokens && g.tokenHash == h
  }

  lemma {:induction false} PutNodesAt(m: map<string, Entry>, es: seq<Entry>, n: string)
    ensures (forall e :: e in es ==> e.nodeId != n) ==>
      (n in PutNodes(m, es) <==> n in m) && (n in m ==> PutNodes(m, es)[n] == m[n])
    ensures (exists e :: e in es && e.nodeId == n) ==>
      n in PutNodes(m, es) && PutNodes(m, es)[n] in es && PutNodes(m, es)[n].nodeId == n
  {
    if es != [] {
      var k := |es| - 1;
      PutNodesAt(m, es[..k], n);
      assert es == es[..k] + [es[k]];
    }
  }

  lemma {:induction false} PutTokensAt(m: map<string, Grant>, gs: seq<Grant>, h: string)
    ensures (forall g :: g in gs ==> g.tokenHash != h) ==>
      (h in PutTokens(m, gs) <==> h in m) && (h in m ==> PutTokens(m, gs)[h] == m[h])
    ensures (exists g :: g in gs && g.tokenHash == h) ==>
      h in PutTokens(m, gs) && PutTokens(m, gs)[h] in gs && PutTokens(m, gs)[h].tokenHash == h
  {
    if gs != [] {
      var k := |gs| - 1;
      PutTokensAt(m, gs[..k], h);
      assert gs == gs[..k] + [gs[k]];
    }
  }

  /** A narrow write reaches the rows it names and no others, however far the other rows
      have drifted from the working copy. */
  lemma WriteTouchesOnlyItsRows(t: Tables, w: Write, n: string, h: string)
    ensures !NamesNode(w, n) ==>
      (n in Apply(t, w).nodes <==> n in t.nodes) && (n in t.nodes ==> Apply(t, w).nodes[n] == t.nodes[n])
    ensures !NamesToken(w, h) ==>
      (h in Apply(t, w).tokens <==> h in t.tokens) && (h in t.tokens ==> Apply(t, w).tokens[h] == t.tokens[h])
    ensures (exists e :: e in w.nodes && e.nodeId == n) ==>
      n in Apply(t, w).nodes && Apply(t, w).nodes[n] in w.nodes
    ensures n in w.dropNodes && (forall e :: e in w.nodes ==> e.nodeId != n) ==> n !in Apply(t, w).nodes
    ensures h in w.dropTokens && (forall g :: g in w.tokens ==> g.tokenHash != h) ==> h !in Apply(t, w).tokens
  {
    PutNodesAt(t.nodes - (set k | k in w.dropNodes), w.nodes, n);
    PutTokensAt(t.tokens - (set k | k in w.dropTokens), w.tokens, h);
  }

  // ── The classes ────────────────────────────────────────────────────────────

  /** The two ledger tables, as last committed. */
  class Database {
    var nodes: map<string, Entry>
    var tokens: map<string, Grant>

    constructor ()
      ensures nodes == map[] && tokens == map[]
    {
      nodes, tokens := map[], map[];
    }
  }

  class EnrollmentLedger {
    const db: Database
    const hash: string -> string
    var nodes: map<string, Entry>
    var tokens: map<string, Grant>

    ghost predicate Valid()
      reads this
    {
      Keyed(Tables(nodes, tokens))
    }

    ghost function View(): Ledger
      reads this, db
    {
      Ledger(Tables(nodes, tokens), Tables(db.nodes, db.tokens))
    }

    constructor (db: Database, hash: string -> string)
      ensures Valid() && this.db == db && this.hash == hash
      ensures db.nodes == old(db.nodes) && db.tokens == old(db.tokens)
      ensures View() == Restarted(Ledger(Tables(map[], map[]), Tables(db.nodes, db.tokens)))
    {
      this.db, this.hash := db, hash;
      nodes := map n | n in db.nodes :: db.nodes[n].(nodeId := n);
      tokens := map h | h in db.tokens :: db.tokens[h].(tokenHash := h);
    }

    // One transaction over exactly the rows named; `ok` is whether it commits.
    method WriteRows(w: Write, ok: bool)
      modifies db
      ensures Tables(db.nodes, db.tokens) ==
        if ok then Apply(old(Tables(db.nodes, db.tokens)), w) else old(Tables(db.nodes, db.tokens))
    {
      var ns, ts := db.nodes, db.tokens;
      for i := 0 to |w.dropNodes|
        invariant ns == db.nodes - (set k | k in w.dropNodes[..i])
      {
        ns := ns - {w.dropNodes[i]};
      }
      for i := 0 to |w.dropTokens|
        invariant ts == db.tokens - (set k | k in w.dropTokens[..i])
      {
        ts := ts - {w.dropTokens[i]};
      }
      assert w.dropNodes[..|w.dropNodes|] == w.dropNodes;
      assert w.dropTokens[..|w.dropTokens|] == w.dropTokens;
      ghost var ns0, ts0 := ns, ts;
      for i := 0 to |w.nodes|
        invariant ns == PutNodes(ns0, w.nodes[..i])
      {
        ns := ns[w.nodes[i].nodeId := w.nodes[i]];
        assert w.nodes[..i + 1][..i] == w.nodes[..i];
      }
      for i := 0 to |w.tokens|
        invariant ts == PutTokens(ts0, w.tokens[..i])
      {
        ts := ts[w.tokens[i].tokenHash := w.tokens[i]];
        assert w.tokens[..i + 1][..i] == w.tokens[..i];
      }
      assert w.nodes[..|w.nodes|] == w.nodes;
      assert w.tokens[..|w.tokens|] == w.tokens;
      if ok {
        db.nodes, db.tokens := ns, ts;
      }
    }

    // The reconciling write: rows absent from the working copy go, the rest are overwritten.
    method Save(ok: bool)
      requires Valid()
      modifies db
      ensures ok ==> db.nodes == nodes && db.tokens == tokens
      ensures !ok ==> db.nodes == old(db.nodes) && db.tokens == old(db.tokens)
    {
      var ns := map n | n in db.nodes && n in nodes :: db.nodes[n];
      var todo := nodes.Keys;
      while todo != {}
        invariant todo <= nodes.Keys && ns.Keys <= nodes.Keys
        invariant forall n :: n in nodes && n !in todo ==> n in ns && ns[n] == nodes[n]
        decreases todo
      {
        var n :| n in todo;
        ns := ns[nodes[n].nodeId := nodes[n]];
        todo := todo - {n};
      }
      var ts := map h | h in db.tokens && h in tokens :: db.tokens[h];
      var left := tokens.Keys;
      while left != {}
        invariant left <= tokens.Keys && ts.Keys <= tokens.Keys
        invariant forall h :: h in tokens && h !in left ==> h in ts && ts[h] == tokens[h]
        decreases left
      {
        var h :| h in left;
        ts := ts[tokens[h].tokenHash := tokens[h]];
        left := left - {h};
      }
      assert ns == nodes && ts == tokens;
      if ok {
        db.nodes, db.tokens := ns, ts;
      }
    }

    // Drops stale tokens from the working copy and lists what was dropped.
    method SweepLocked(now: real) returns (stale: seq<string>)
      requires Valid()
      modifies this
      ensures Valid() && nodes == old(nodes) && tokens == Swept(old(tokens), now)
      ensures (set h | h in stale) == StaleHashes(old(tokens), now)
      ensures |stale| == |StaleHashes(old(tokens), now)|
    {
      stale := [];
      var all := tokens;
      var todo := all.Keys;
      ghost var found: set<string> := {};
      while todo != {}
        invariant todo <= all.Keys
        invariant found == (set h | h in all && h !in todo && Stale(all[h], now))
        invariant found == (set h | h in stale) && |stale| == |found|
        invariant tokens == old(tokens) && nodes == old(nodes) && all == tokens
        decreases todo
      {
        var h :| h in todo;
        if Stale(all[h], now) {
          stale := stale + [h];
          found := found + {h};
        }
        todo := todo - {h};
      }
      assert found == StaleHashes(all, now);
      for i := 0 to |stale|
        invariant tokens == all - (set h | h in stale[..i])
        invariant nodes == old(nodes)
      {
        tokens := tokens - {stale[i]};
      }
      assert stale[..|stale|] == stale;
      assert tokens == Swept(all, now);
    }

    method MintToken(secret: string, name: string, ttl: real, assign: string, now: real, ok: bool)
      returns (r: Outcome<()>)
      requires Valid()
      modifies this, db
      ensures Valid()
      ensures (View(), r) == MintCall(old(View()), hash(secret), name, ttl, assign, now, ok)
    {
      var stale := SweepLocked(now);
      var g := Grant(hash(secret), name, now, now + ttl, 0.0, "", assign);
      tokens := tokens[g.tokenHash := g];
      WriteRows(Write([], [g], [], stale), ok);
      ghost var was := old(View());
      ghost var w := Write([], [g], [], stale);
      assert was.db.nodes - (set k | k in w.dropNodes) == was.db.nodes;
      assert was.db.tokens - (set k | k in w.dropTokens) == DropTokens(was.db, was.mem.tokens, now).tokens;
      assert PutTokens(DropTokens(was.db, was.mem.tokens, now).tokens, w.tokens)
          == DropTokens(was.db, was.mem.tokens, now).tokens[g.tokenHash := g];
      r := if ok then Returned(()) else WriteFailed;
    }

    method RedeemToken(secret: string, now: real, uuid: string, ok: bool) returns (r: Outcome<string>)
      requires Valid()
      modifies this, db
      ensures Valid()
      ensures (View(), r) == RedeemCall(old(View()), hash(secret), now, uuid, ok)
    {
      var h := hash(secret);
      if h !in tokens {
        return Rejected(NotRecognised);
      }
      var g := tokens[h];
      if g.usedAt != 0.0 {
        return Rejected(AlreadyUsed);
      }
      if now >= g.expiresAt {
        return Rejected(Expired);
      }
      var n := if g.assignNodeId != "" then g.assignNodeId else uuid;
      g := g.(usedAt := now, nodeId := n);
      tokens := tokens[h := g];
      var e := Blank(n).(name := g.name, enrolledAt := now);
      nodes := nodes[n := e];
      NarrowWrites(old(View()).db, e, g, n);
      WriteRows(Write([e], [g], [], []), ok);
      r := if ok then Returned(n) else WriteFailed;
    }

    method RevokeToken(secret: string, now: real, ok: bool) returns (r: Outcome<bool>)
      requires Valid()
      modifies this, db
      ensures Valid()
      ensures (View(), r) == RevokeCall(old(View()), hash(secret), now, ok)
    {
      var h := hash(secret);
      if h !in tokens {
        return Returned(false);
      }
      if tokens[h].usedAt == 0.0 {
        var g := tokens[h].(usedAt := now);
        tokens := tokens[h := g];
        NarrowWrites(old(View()).db, Blank(""), g, "");
        WriteRows(Write([], [g], [], []), ok);
        return if ok then Returned(true) else WriteFailed;
      }
      r := Returned(true);
    }

    // The working copy first, then the row.
    method PutNodeRow(e: Entry, ok: bool)
      requires Valid()
      modifies this, db
      ensures Valid()
      ensures View() == Ledger(PutNode(old(View()).mem, e), if ok then PutNode(old(View()).db, e) else old(View()).db)
    {
      nodes := nodes[e.nodeId := e];
      NarrowWrites(old(View()).db, e, NoGrant, e.nodeId);
      WriteRows(Write([e], [], [], []), ok);
    }

    method RecordIssue(n: string, key: string, notAfter: real, facts: Facts, now: real, ok: bool)
      returns (r: Outcome<Entry>)
      requires Valid()
      modifies this, db
      ensures Valid()
      ensures (View(), r) == IssueCall(old(View()), n, key, notAfter, facts, now, ok)
    {
      var stored := Stored(Tables(db.nodes, db.tokens), n);
      var e := if n in nodes then nodes[n] else if stored.Some? then stored.value else Blank(n);
      ghost var before := e;
      var f := e.facts;
      if facts.machineId != "" {
        f := f.(machineId := facts.machineId);
      }
      if facts.bootId != "" {
        f := f.(bootId := facts.bootId);
      }
      if facts.hardware != "" {
        f := f.(hardware := facts.hardware);
      }
      e := e.(state := Accepted, key := key, certNotAfter := notAfter, deniedReason := "", facts := f,
              issued := Max(e.issued, if stored.Some? then stored.value.issued else 0) + 1,
              enrolledAt := if e.enrolledAt == 0.0 then now else e.enrolledAt);
      assert e == Issued(before, stored, key, notAfter, facts, now);
      PutNodeRow(e, ok);
      r := if ok then Returned(e) else WriteFailed;
    }

    method Deny(n: string, reason: string, ok: bool) returns (r: Outcome<()>)
      requires Valid()
      modifies this, db
      ensures Valid()
      ensures (View(), r) == DenyCall(old(View()), n, reason, ok)
    {
      if n !in nodes {
        return Returned(());
      }
      var e := nodes[n].(state := Denied, deniedReason := reason);
      PutNodeRow(e, ok);
      r := if ok then Returned(()) else WriteFailed;
    }

    method Remove(n: string, ok: bool) returns (r: Outcome<()>)
      requires Valid()
      modifies this, db
      ensures Valid()
      ensures (View(), r) == RemoveCall(old(View()), n, ok)
    {
      nodes := nodes - {n};
      NarrowWrites(old(View()).db, Blank(n), NoGrant, n);
      WriteRows(Write([], [], [n], []), ok);
      r := if ok then Returned(()) else WriteFailed;
    }

    method NoteSeen(n: string, now: real)
      requires Valid()
      modifies this
      ensures Valid() && View() == SeenCall(old(View()), n, now)
    {
      if n in nodes {
        nodes := nodes[n := nodes[n].(lastSeen := now)];
      }
    }

    method Authorize(n: string, key: string, facts: Facts, ok: bool) returns (r: Outcome<Verdict>)
      requires Valid()
      modifies this, db
      ensures Valid()
      ensures (View(), r) == AuthorizeCall(old(View()), n, key, facts, ok)
    {
      if n !in nodes {
        return Returned(Verdict(false, "node is not enrolled"));
      }
      var e := nodes[n];
      if e.state == Denied {
        return Returned(Verdict(false, if e.deniedReason != "" then e.deniedReason else "node is denied"));
      }
      if e.state != Accepted {
        return Returned(Verdict(false, "node is pending"));
      }
      var reason := "";
      if key != "" && e.key != "" && key != e.key {
        reason := REKEYED;
      } else if facts.hardware != "" && e.facts.hardware != "" && facts.hardware != e.facts.hardware {
        reason := REIMAGED;
      } else {
        return Returned(Verdict(true, ""));
      }
      e := e.(state := Denied, deniedReason := reason);
      PutNodeRow(e, ok);
      r := if ok then Returned(Verdict(false, reason)) else WriteFailed;
    }

    method Sweep(now: real, ok: bool) returns (r: Outcome<nat>)
      requires Valid()
      modifies this, db
      ensures Valid()
      ensures (View(), r) == SweepCall(old(View()), now, ok)
    {
      var stale := SweepLocked(now);
      if |stale| == 0 {
        return Returned(0);
      }
      Save(ok);
      r := if ok then Returned(|stale|) else WriteFailed;
    }
  }
}
