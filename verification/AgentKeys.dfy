/** The agent's three copies of its identity, and whether the ledger's key agrees with the
    one it dials with. */
module AgentKeys {
  import opened Wrappers
  import opened Enrollment
  import opened LedgerRuns
  import opened Servicer

  // ── The identity directory ─────────────────────────────────────────────────

  /** `certKey` is the public key the certificate certifies; `key` the private half's. */
  datatype Identity = Identity(key: string, certKey: string, bundle: string, notAfter: real)

  /** A file: every write truncates before it fills, and what a death in between leaves is torn. */
  datatype Slot<T> = Absent | Torn | Whole(value: T)

  /** The four files, in the order `save` writes them. */
  datatype Files = Files(key: Slot<string>, cert: Slot<string>, bundle: Slot<string>, meta: Slot<real>)

  const NO_FILES := Files(Absent, Absent, Absent, Absent)

  predicate Present(f: Files) { !f.key.Absent? && !f.cert.Absent? && !f.bundle.Absent? && !f.meta.Absent? }

  /** What `load` hands out: only the metadata is parsed, the rest is taken as bytes. */
  datatype Loaded = Loaded(key: Slot<string>, cert: Slot<string>, bundle: Slot<string>, notAfter: real)

  datatype LoadError = Partial | Unparsable

  function LoadIdentity(f: Files): Result<Option<Loaded>, LoadError> {
    if f == NO_FILES then Ok(None)
    else if !Present(f) then Err(Partial)
    else if f.meta.Torn? then Err(Unparsable)
    else Ok(Some(Loaded(f.key, f.cert, f.bundle, f.meta.value)))
  }

  /** One file after `steps` of truncate and fill. */
  function Written<T>(was: Slot<T>, value: T, steps: int): Slot<T> {
    if steps <= 0 then was else if steps == 1 then Torn else Whole(value)
  }

  /** `save`, dying after `upTo` of its eight steps. */
  function SaveUpTo(f: Files, i: Identity, upTo: nat): Files {
    Files(Written(f.key, i.key, upTo), Written(f.cert, i.certKey, upTo - 2),
          Written(f.bundle, i.bundle, upTo - 4), Written(f.meta, i.notAfter, upTo - 6))
  }

  predicate Matched(i: Identity) { i.key == i.certKey }

  /** A node's whole identity is on disk, with a key that fits its certificate. */
  predicate Installed(f: Files) {
    f.key.Whole? && f.cert.Whole? && f.bundle.Whole? && f.meta.Whole? && f.key.value == f.cert.value
  }

  /** The key and the certificate are whole and fit. */
  predicate Dialable(x: Loaded) { x.key.Whole? && x.cert.Whole? && x.key.value == x.cert.value }

  /** A first save that dies anywhere is noticed at the next load. A renewing save is noticed
      only if it died inside the metadata; otherwise what `load` hands out can be dialled with
      unless it died between starting the key and finishing the certificate, and its bundle is
      whole unless it died inside that. The key goes first: a new certificate is never beside
      an old key, and the reverse can be. */
  lemma InterruptedSave(f: Files, i: Identity, upTo: nat)
    requires upTo <= 8 && Matched(i)
    ensures upTo == 8 ==>
      LoadIdentity(SaveUpTo(f, i, upTo)) == Ok(Some(Loaded(Whole(i.key), Whole(i.certKey), Whole(i.bundle), i.notAfter)))
    ensures f == NO_FILES ==> (LoadIdentity(SaveUpTo(f, i, upTo)).Err? <==> 0 < upTo < 8)
    ensures Installed(f) ==> (LoadIdentity(SaveUpTo(f, i, upTo)).Err? <==> upTo == 7)
    ensures Installed(f) && f.cert.value != i.certKey && upTo != 7 ==>
      var r := LoadIdentity(SaveUpTo(f, i, upTo));
      && r.Ok? && r.value.Some?
      && (Dialable(r.value.value) <==> !(1 <= upTo <= 3))
      && (r.value.value.bundle.Whole? <==> upTo != 5)
      && (r.value.value.cert == Whole(i.certKey) ==> r.value.value.key == Whole(i.key))
      && (upTo == 2 ==> r.value.value.key == Whole(i.key) && r.value.value.cert == f.cert)
  {
  }

  // ── The copies ─────────────────────────────────────────────────────────────

  /** `held` is `self.identity`; `clone` the renewal task's copy while a session is up. */
  datatype Copies = Copies(disk: Identity, held: Identity, clone: Option<Identity>)

  function Cloned(c: Copies): Copies {
    c.(clone := if c.held.notAfter > 0.0 then Some(c.held) else None)
  }

  function Renewed(c: Copies, key: string, bundle: string, notAfter: real): Copies
    requires c.clone.Some?
  {
    var i := Identity(key, key, bundle, notAfter);
    c.(clone := Some(i), disk := i)
  }

  // ── One node and its control plane ─────────────────────────────────────────

  datatype World = World(ledger: Ledger, agent: Copies, session: bool)

  /** What becomes of a renewal `authorize` has passed: its row is not written, or the reply is
      lost, or its bundle is refused, or the new identity reaches the disk. */
  datatype Fate = Unwritten | Lost | BundleRefused | Stored

  /** `ok` is whether a write is accepted. A dial reports the machine it comes from, which need not
      be the node's own: the identity may have been carried to another. A re-enrolment redeems a token
      pinned to the node; its agent starts over from the new identity if the reply is `stored`. */
  datatype Event =
    | Dial(hardware: string, ok: bool)
    | Renewal(key: string, bundle: string, notAfter: real, now: real, fate: Fate)
    | SessionEnds
    | Reboot
    | Denial(reason: string, ok: bool)
    | Removal(ok: bool)
    | Reenrolment(h: string, now: real, csr: Signing, facts: Facts, bundle: string, ok1: bool, ok2: bool, stored: bool)
    | Elsewhere(q: Request)

  /** The node under study: its id, its hardware fingerprint, and whether `connect` reads the
      identity on disk, as its comment says, or the copy the process holds, as it does. */
  datatype Subject = Subject(n: string, hardware: string, readsDisk: bool)

  function Next(p: Subject, w: World, e: Event): World {
    match e
    case Dial(hardware, ok) =>
      var a := if p.readsDisk then w.agent.(held := w.agent.disk) else w.agent;
      var (l, reply) := SessionHandler(w.ledger, Some((p.n, a.held.certKey)), p.n, Facts("", "", hardware), ok);
      if reply == Admitted(p.n) then World(l, Cloned(a), true) else World(l, a.(clone := None), false)
    case Renewal(key, bundle, notAfter, now, fate) =>
      if !w.session || w.agent.clone.None? then w else
      var (l, reply) := RenewHandler(w.ledger, p.n, Signed(key, notAfter), NoFacts, now, true, fate != Unwritten);
      World(l, if reply.Certified? && fate == Stored then Renewed(w.agent, key, bundle, notAfter) else w.agent, true)
    case SessionEnds => w.(session := false, agent := w.agent.(clone := None))
    case Reboot => w.(session := false, agent := Copies(w.agent.disk, w.agent.disk, None))
    case Denial(reason, ok) => w.(ledger := DenyCall(w.ledger, p.n, reason, ok).0)
    case Removal(ok) => w.(ledger := RemoveCall(w.ledger, p.n, ok).0)
    case Reenrolment(h, now, csr, facts, bundle, ok1, ok2, stored) =>
      var (l, reply) := EnrollHandler(w.ledger, "", h, now, "", csr, facts, ok1, ok2);
      if reply.Certified? && csr.Signed? && stored then
        var i := Identity(csr.key, csr.key, bundle, csr.notAfter);
        World(l, Copies(i, i, None), false)
      else w.(ledger := l)
    case Elsewhere(q) => w.(ledger := Handle(w.ledger, q))
  }

  function Live(p: Subject, w: World, es: seq<Event>): World {
    if es == [] then w else Next(p, Live(p, w, es[..|es| - 1]), es[|es| - 1])
  }

  // ── The agent in place ─────────────────────────────────────────────────────

  class Agent {
    var disk: Identity
    var held: Identity
    var clone: Option<Identity>

    ghost function View(): Copies
      reads this
    {
      Copies(disk, held, clone)
    }

    // The process starts from what is on disk.
    constructor (disk: Identity)
      ensures View() == Copies(disk, disk, None)
    {
      this.disk, this.held, this.clone := disk, disk, None;
    }

    // What a dial presents.
    method Connect() returns (key: string, certKey: string)
      ensures key == held.key && certKey == held.certKey
    {
      key, certKey := held.key, held.certKey;
    }

    method RenewalState()
      modifies this
      ensures View() == Cloned(old(View()))
    {
      if held.notAfter > 0.0 {
        clone := Some(held);
      } else {
        clone := None;
      }
    }

    // `pinned` is whether the offered bundle matches the pin recorded at enrolment.
    method RenewOnce(key: string, bundle: string, notAfter: real, pinned: bool) returns (ok: bool)
      requires clone.Some?
      modifies this
      ensures ok == pinned
      ensures View() == if pinned then Renewed(old(View()), key, bundle, notAfter) else old(View())
    {
      if !pinned {
        return false;
      }
      var i := clone.value.(key := key);
      i := i.(certKey := key, bundle := bundle, notAfter := notAfter);
      clone := Some(i);
      disk := i;
      ok := true;
    }

    method EndSession()
      modifies this
      ensures View() == old(View()).(clone := None)
    {
      clone := None;
    }

    // `run_once` up to the read loop, against a control plane: the dial of the model.
    method Dial(servicer: EnrollmentServicer, n: string, hardware: string, ok: bool) returns (up: bool)
      requires servicer.ledger.Valid()
      modifies this, servicer.ledger, servicer.ledger.db
      ensures servicer.ledger.Valid()
      ensures World(servicer.ledger.View(), View(), up)
           == Next(Subject(n, hardware, false), World(old(servicer.ledger.View()), old(View()), false),
                   Event.Dial(hardware, ok))
    {
      var _, certKey := Connect();
      var reply := servicer.OpenSession(Some((n, certKey)), n, Facts("", "", hardware), ok);
      up := reply == Admitted(n);
      if up {
        RenewalState();
      } else {
        EndSession();
      }
    }

    // One turn of the renewal loop inside a session: the renewal of the model.
    method Renew(servicer: EnrollmentServicer, n: string, hardware: string, key: string, bundle: string,
                 notAfter: real, now: real, fate: Fate)
      requires servicer.ledger.Valid() && clone.Some?
      modifies this, servicer.ledger, servicer.ledger.db
      ensures servicer.ledger.Valid()
      ensures World(servicer.ledger.View(), View(), true)
           == Next(Subject(n, hardware, false), World(old(servicer.ledger.View()), old(View()), true),
                   Renewal(key, bundle, notAfter, now, fate))
    {
      var reply := servicer.Renew(n, Signed(key, notAfter), NoFacts, now, true, fate != Unwritten);
      if reply.Certified? && fate != Lost {
        var _ := RenewOnce(key, bundle, notAfter, fate == Stored);
      }
    }
  }

  // ── The environment ────────────────────────────────────────────────────────

  /** A request that is somebody else's business: other nodes, those that claim this node's id
      under another's certificate included, tokens, sweeps, restarts. Any of its writes may fail. */
  predicate Unrelated(p: Subject, l: Ledger, q: Request) {
    && Proper(q) && FreshUuid(l, q)
    && match q
       case Enroll(_, h, _, uuid, _, _, _, _) =>
         uuid != p.n && (h in l.mem.tokens ==> l.mem.tokens[h].assignNodeId != p.n)
       case Renew(peer, _, _, _, _, _) => peer != p.n
       case Session(cert, claimed, _, _) => claimed != p.n || cert.None? || cert.value.0 != p.n
       case Operator(step) =>
         match step.call
         case Deny(m, _) => m != p.n
         case Remove(m) => m != p.n
         case Authorize(m, _, _) => m != p.n
         case _ => true
  }

  /** A fingerprint the node itself would report, or none. */
  predicate Own(p: Subject, hardware: string) { hardware == "" || hardware == p.hardware }

  /** Renewals happen inside a session, and re-enrolments with a token pinned to the node. */
  predicate Possible(p: Subject, w: World, e: Event) {
    && (e.Renewal? ==> w.session && w.agent.clone.Some? && e.key != "")
    && (e.Reenrolment? ==>
          && (e.h in w.ledger.mem.tokens ==> w.ledger.mem.tokens[e.h].assignNodeId == p.n)
          && (e.csr.Signed? ==> e.csr.key != ""))
    && (e.Elsewhere? ==> Unrelated(p, w.ledger, e.q))
  }

  predicate Plausible(p: Subject, w: World, es: seq<Event>) {
    forall i :: 0 <= i < |es| ==> Possible(p, Live(p, w, es[..i]), es[i])
  }

  predicate LedgerHolds(t: Tables, p: Subject, key: string) {
    && p.n in t.nodes && t.nodes[p.n].state == Accepted && t.nodes[p.n].key == key
    && Own(p, t.nodes[p.n].facts.hardware)
  }

  /** A node that has just enrolled: one key everywhere. */
  predicate Enrolled(p: Subject, w: World) {
    && p.n != "" && Keyed(w.ledger.mem) && Keyed(w.ledger.db) && !w.session
    && w.agent.held == w.agent.disk && w.agent.clone == None && Matched(w.agent.disk)
    && w.agent.disk.certKey != ""
    && LedgerHolds(w.ledger.mem, p, w.agent.disk.certKey) && LedgerHolds(w.ledger.db, p, w.agent.disk.certKey)
  }

  /** What an enrolment that returns a certificate leaves, on both sides. */
  lemma EnrolmentEnrols(p: Subject, l: Ledger, h: string, now: real, uuid: string, key: string, bundle: string,
                        notAfter: real, facts: Facts, ok1: bool, ok2: bool)
    requires Keyed(l.mem) && Keyed(l.db) && p.n != "" && key != ""
    requires Own(p, facts.hardware)
    requires EnrollHandler(l, "", h, now, uuid, Signed(key, notAfter), facts, ok1, ok2).1 == Certified(p.n, key)
    ensures var l' := EnrollHandler(l, "", h, now, uuid, Signed(key, notAfter), facts, ok1, ok2).0;
      var i := Identity(key, key, bundle, notAfter);
      Enrolled(p, World(l', Copies(i, i, None), false))
  {
    var (l1, r) := RedeemCall(l, h, now, uuid, ok1);
    KeyedStep(l, Step(LedgerRuns.Redeem(h, now, uuid), ok1));
    assert r == Returned(p.n) && ok1 && ok2;
    KeyedStep(l1, Step(LedgerRuns.Issue(p.n, key, notAfter, facts, now), ok2));
  }

  // ── The sketch: four keys ──────────────────────────────────────────────────

  /** How a table has the node: not at all, or with which key it is accepted or denied, and the
      machine an accepted one is expected on. */
  datatype Standing = Out | Waiting | In(key: string, hardware: string) | Barred(key: string)

  /** A key and a fingerprint, either of which may be left out of the comparison as "". */
  predicate Fits(s: Standing, key: string, hardware: string)
    requires s.In?
  {
    s.key == key && (s.hardware == "" || hardware == "" || s.hardware == hardware)
  }

  /** All that matters of a node: how it stands in the working copy and in its row, and the
      keys its agent has on disk and holds. */
  datatype Sketch = Sketch(mem: Standing, row: Standing, disk: string, held: string)

  /** What the rest of the ledger makes of an event: nothing, a restart that reads the node's row,
      a sweep whose whole-ledger write writes it, or a token that admits it. */
  datatype Influence = Nothing | ReadsRow | WritesRow | Admits

  function InfluenceOf(l: Ledger, e: Event): Influence {
    if Redeemable(l, e) then Admits
    else if e.Elsewhere? && e.q.Operator? then
      match e.q.step.call
      case Restart => ReadsRow
      case Sweep(now) => if Reconciles(l, now, e.q.step.ok) then WritesRow else Nothing
      case _ => Nothing
    else Nothing
  }

  /** Both stores after a change of standing whose write is accepted or not. */
  function Becomes(k: Sketch, s: Standing, ok: bool): Sketch { k.(mem := s, row := if ok then s else k.row) }

  function BarredFrom(s: Standing): Standing {
    match s
    case Out => Out
    case Waiting => Barred("")
    case In(key, _) => Barred(key)
    case Barred(_) => s
  }

  function DialledKey(p: Subject, k: Sketch): string { if p.readsDisk then k.disk else k.held }

  /** Whether the ledger would redeem the token now. */
  predicate Redeemable(l: Ledger, e: Event) { e.Reenrolment? && Spendable(l.mem.tokens, e.h, e.now) }

  function SketchStep(p: Subject, k: Sketch, e: Event, i: Influence): Sketch {
    match e
    case Dial(hardware, ok) =>
      var k' := k.(held := DialledKey(p, k));
      if k.mem.In? && !Fits(k.mem, k'.held, hardware) then Becomes(k', BarredFrom(k.mem), ok) else k'
    case Renewal(key, _, _, _, fate) =>
      if !k.mem.In? then k
      else Becomes(k, In(key, k.mem.hardware), fate != Unwritten).(disk := if fate == Stored then key else k.disk)
    case SessionEnds => k
    case Reboot => k.(held := k.disk)
    case Denial(_, ok) => if k.mem.Out? then k else Becomes(k, BarredFrom(k.mem), ok)
    case Removal(ok) => Becomes(k, Out, ok)
    case Reenrolment(_, _, csr, facts, _, ok1, ok2, stored) =>
      if i != Admits then k else
      var k1 := Becomes(k, Waiting, ok1);
      if !ok1 then k1 else
      if csr.BadCsr? then Becomes(k1, Out, ok2) else
      var k2 := Becomes(k1, In(csr.key, facts.hardware), ok2);
      if ok2 && stored then k2.(disk := csr.key, held := csr.key) else k2
    case Elsewhere(_) =>
      match i
      case ReadsRow => k.(mem := k.row)
      case WritesRow => k.(row := k.mem)
      case _ => k
  }

  /** The sketch after a run, from a sketch `k` of the world it starts in. */
  function SketchedFrom(p: Subject, k: Sketch, w: World, es: seq<Event>): Sketch {
    if es == [] then k
    else
      var n := |es| - 1;
      SketchStep(p, SketchedFrom(p, k, w, es[..n]), es[n], InfluenceOf(Live(p, w, es[..n]).ledger, es[n]))
  }

  function Recorded(t: Tables, n: string): string { if n in t.nodes then t.nodes[n].facts.hardware else "" }

  /** An enrolled node's sketch: its one key everywhere. */
  function FirstSketch(p: Subject, w: World): Sketch {
    var key := w.agent.disk.certKey;
    Sketch(In(key, Recorded(w.ledger.mem, p.n)), In(key, Recorded(w.ledger.db, p.n)), key, key)
  }

  function Sketched(p: Subject, w: World, es: seq<Event>): Sketch { SketchedFrom(p, FirstSketch(p, w), w, es) }

  // ── The system follows the sketch ──────────────────────────────────────────

  predicate SaneIn(t: Tables, p: Subject) {
    && Keyed(t)
    && (p.n in t.nodes ==>
          && (t.nodes[p.n].state == Accepted ==> t.nodes[p.n].key != "")
          && (t.nodes[p.n].state == Pending ==> t.nodes[p.n].key == ""))
  }

  /** Every copy is a key with its own certificate, and the clone is one of the other two. */
  predicate SaneCopies(c: Copies) {
    && Matched(c.disk) && c.disk.certKey != "" && Matched(c.held) && c.held.certKey != ""
    && (c.clone.Some? ==> c.clone.value == c.held || c.clone.value == c.disk)
  }

  predicate Sane(p: Subject, w: World) {
    p.n != "" && SaneIn(w.ledger.mem, p) && SaneIn(w.ledger.db, p) && SaneCopies(w.agent)
  }

  function StandingIn(t: Tables, n: string): Standing {
    if n !in t.nodes then Out
    else
      match t.nodes[n].state
      case Pending => Waiting
      case Accepted => In(t.nodes[n].key, t.nodes[n].facts.hardware)
      case Denied => Barred(t.nodes[n].key)
  }

  function SketchOf(p: Subject, w: World): Sketch {
    Sketch(StandingIn(w.ledger.mem, p.n), StandingIn(w.ledger.db, p.n), w.agent.disk.certKey, w.agent.held.certKey)
  }

  predicate Untouched(a: Ledger, b: Ledger, n: string) {
    && (n in a.mem.nodes <==> n in b.mem.nodes) && (n in a.mem.nodes ==> SameNode(b.mem.nodes[n], a.mem.nodes[n]))
    && (n in a.db.nodes <==> n in b.db.nodes) && (n in a.db.nodes ==> b.db.nodes[n] == a.db.nodes[n])
  }

  /** A ledger call that neither names the node nor reaches every row. */
  predicate Avoids(l: Ledger, s: Step, n: string) {
    match s.call
    case Redeem(h, _, uuid) => uuid != n && (h in l.mem.tokens ==> l.mem.tokens[h].assignNodeId != n)
    case Issue(m, _, _, _, _) => m != n
    case Deny(m, _) => m != n
    case Remove(m) => m != n
    case Authorize(m, _, _) => m != n
    case Restart => false
    case Sweep(now) => !Reconciles(l, now, s.ok)
    case _ => true
  }

  lemma TokenCallKeeps(l: Ledger, s: Step, n: string)
    requires OnTokens(s.call) && Avoids(l, s, n)
    ensures Untouched(l, Do(l, s), n)
  {
  }

  lemma NodeCallKeeps(l: Ledger, s: Step, n: string)
    requires Keyed(l.mem) && Keyed(l.db) && !OnTokens(s.call) && Avoids(l, s, n)
    ensures Untouched(l, Do(l, s), n)
  {
  }

  lemma CallKeeps(l: Ledger, s: Step, n: string)
    requires Keyed(l.mem) && Keyed(l.db) && Avoids(l, s, n)
    ensures Keyed(Do(l, s).mem) && Keyed(Do(l, s).db) && Untouched(l, Do(l, s), n)
  {
    KeyedStep(l, s);
    if OnTokens(s.call) {
      TokenCallKeeps(l, s, n);
    } else {
      NodeCallKeeps(l, s, n);
    }
  }

  lemma EnrollKeeps(p: Subject, l: Ledger, q: Request)
    requires q.Enroll? && q.peer == "" && Keyed(l.mem) && Keyed(l.db) && Unrelated(p, l, q)
    requires p.n != ""
    ensures Keyed(Handle(l, q).mem) && Keyed(Handle(l, q).db) && Untouched(l, Handle(l, q), p.n)
  {
    CallKeeps(l, Step(LedgerRuns.Redeem(q.h, q.now, q.uuid), q.ok1), p.n);
    var (l1, r) := RedeemCall(l, q.h, q.now, q.uuid, q.ok1);
    if r.Returned? {
      assert r.value != p.n;
      if q.csr.Signed? {
        CallKeeps(l1, Step(LedgerRuns.Issue(r.value, q.csr.key, q.csr.notAfter, q.facts, q.now), q.ok2), p.n);
      } else {
        CallKeeps(l1, Step(LedgerRuns.Remove(r.value), q.ok2), p.n);
      }
    }
  }

  lemma RenewKeeps(p: Subject, l: Ledger, q: Request)
    requires q.Renew? && q.peer != "" && Keyed(l.mem) && Keyed(l.db) && Unrelated(p, l, q)
    requires p.n != ""
    ensures Keyed(Handle(l, q).mem) && Keyed(Handle(l, q).db) && Untouched(l, Handle(l, q), p.n)
  {
    CallKeeps(l, Step(LedgerRuns.Authorize(q.peer, "", q.facts), q.ok1), p.n);
    var (l1, v) := AuthorizeCall(l, q.peer, "", q.facts, q.ok1);
    if v.Returned? && v.value.ok && q.csr.Signed? {
      CallKeeps(l1, Step(LedgerRuns.Issue(q.peer, q.csr.key, q.csr.notAfter, q.facts, q.now), q.ok2), p.n);
    }
  }

  lemma UnrelatedKeeps(p: Subject, l: Ledger, q: Request)
    requires Keyed(l.mem) && Keyed(l.db) && Unrelated(p, l, q) && InfluenceOf(l, Elsewhere(q)) == Nothing
    requires p.n != ""
    ensures Keyed(Handle(l, q).mem) && Keyed(Handle(l, q).db) && Untouched(l, Handle(l, q), p.n)
  {
    match q
    case Enroll(peer, _, _, _, _, _, _, _) => if peer == "" { EnrollKeeps(p, l, q); }
    case Renew(peer, _, _, _, _, _) => if peer != "" { RenewKeeps(p, l, q); }
    case Session(cert, claimed, facts, ok) =>
      if cert.Some? && claimed == cert.value.0 {
        CallKeeps(l, Step(LedgerRuns.Authorize(claimed, cert.value.1, facts), ok), p.n);
      }
    case Operator(step) => CallKeeps(l, step, p.n);
  }

  lemma ElsewhereFollows(p: Subject, w: World, q: Request)
    requires Sane(p, w) && Unrelated(p, w.ledger, q)
    ensures var e := Elsewhere(q);
      && Sane(p, Next(p, w, e))
      && SketchOf(p, Next(p, w, e)) == SketchStep(p, SketchOf(p, w), e, InfluenceOf(w.ledger, e))
  {
    if InfluenceOf(w.ledger, Elsewhere(q)) == Nothing {
      UnrelatedKeeps(p, w.ledger, q);
    }
  }

  predicate SaneLedger(l: Ledger, p: Subject) { SaneIn(l.mem, p) && SaneIn(l.db, p) }

  /** `authorize` admits the key and the machine the working copy has, bars a node that shows
      another of either, and otherwise leaves both stores alone. */
  lemma AuthorizeStands(p: Subject, l: Ledger, key: string, hardware: string, ok: bool)
    requires SaneLedger(l, p) && key != ""
    ensures var (l', r) := AuthorizeCall(l, p.n, key, Facts("", "", hardware), ok);
      var s := StandingIn(l.mem, p.n);
      && SaneLedger(l', p)
      && (r.Returned? && r.value.ok <==> s.In? && Fits(s, key, hardware))
      && (if s.In? && !Fits(s, key, hardware)
          then StandingIn(l'.mem, p.n) == Barred(s.key)
            && StandingIn(l'.db, p.n) == if ok then Barred(s.key) else StandingIn(l.db, p.n)
          else l' == l)
  {
    KeyedStep(l, Step(LedgerRuns.Authorize(p.n, key, Facts("", "", hardware)), ok));
  }

  /** A record of issue keeps the machine it has unless another is reported. */
  lemma IssueStands(p: Subject, l: Ledger, key: string, notAfter: real, facts: Facts, now: real, ok: bool)
    requires SaneLedger(l, p) && key != "" && p.n in l.mem.nodes
    ensures var (l', r) := IssueCall(l, p.n, key, notAfter, facts, now, ok);
      var s := In(key, if facts.hardware != "" then facts.hardware else l.mem.nodes[p.n].facts.hardware);
      && SaneLedger(l', p) && (r.Returned? <==> ok)
      && StandingIn(l'.mem, p.n) == s
      && StandingIn(l'.db, p.n) == if ok then s else StandingIn(l.db, p.n)
  {
    KeyedStep(l, Step(LedgerRuns.Issue(p.n, key, notAfter, facts, now), ok));
  }

  lemma RemoveStands(p: Subject, l: Ledger, ok: bool)
    requires SaneLedger(l, p)
    ensures var l' := RemoveCall(l, p.n, ok).0;
      && SaneLedger(l', p) && StandingIn(l'.mem, p.n) == Out
      && StandingIn(l'.db, p.n) == if ok then Out else StandingIn(l.db, p.n)
  {
    KeyedStep(l, Step(LedgerRuns.Remove(p.n), ok));
  }

  lemma DenyStands(p: Subject, l: Ledger, reason: string, ok: bool)
    requires SaneLedger(l, p)
    ensures var l' := DenyCall(l, p.n, reason, ok).0;
      var s := BarredFrom(StandingIn(l.mem, p.n));
      && SaneLedger(l', p) && StandingIn(l'.mem, p.n) == s
      && StandingIn(l'.db, p.n) == if ok && s != Out then s else StandingIn(l.db, p.n)
  {
    KeyedStep(l, Step(LedgerRuns.Deny(p.n, reason), ok));
  }

  lemma DialFollows(p: Subject, w: World, hardware: string, ok: bool)
    requires Sane(p, w)
    ensures var w' := Next(p, w, Event.Dial(hardware, ok));
      && Sane(p, w')
      && SketchOf(p, w') == SketchStep(p, SketchOf(p, w), Event.Dial(hardware, ok), Nothing)
  {
    AuthorizeStands(p, w.ledger, DialledKey(p, SketchOf(p, w)), hardware, ok);
  }

  /** `authorize` in Renew compares no key: it passes exactly the accepted. */
  lemma RenewalPasses(p: Subject, l: Ledger)
    requires SaneLedger(l, p)
    ensures var (l', r) := AuthorizeCall(l, p.n, "", NoFacts, true);
      l' == l && r.Returned? && (r.value.ok <==> StandingIn(l.mem, p.n).In?)
  {
  }

  lemma RenewalFollows(p: Subject, w: World, e: Event)
    requires Sane(p, w) && e.Renewal? && w.session && w.agent.clone.Some? && e.key != ""
    ensures Sane(p, Next(p, w, e)) && SketchOf(p, Next(p, w, e)) == SketchStep(p, SketchOf(p, w), e, Nothing)
  {
    RenewalPasses(p, w.ledger);
    if SketchOf(p, w).mem.In? {
      IssueStands(p, w.ledger, e.key, e.notAfter, NoFacts, e.now, e.fate != Unwritten);
    }
  }

  lemma RedeemStands(p: Subject, l: Ledger, h: string, now: real, ok: bool)
    requires SaneLedger(l, p) && p.n != "" && (h in l.mem.tokens ==> l.mem.tokens[h].assignNodeId == p.n)
    ensures var (l', r) := RedeemCall(l, h, now, "", ok);
      && SaneLedger(l', p)
      && (if Spendable(l.mem.tokens, h, now)
          then r == (if ok then Returned(p.n) else WriteFailed)
            && StandingIn(l'.mem, p.n) == Waiting && Recorded(l'.mem, p.n) == ""
            && StandingIn(l'.db, p.n) == if ok then Waiting else StandingIn(l.db, p.n)
          else r.Rejected? && l' == l)
  {
    KeyedStep(l, Step(LedgerRuns.Redeem(h, now, ""), ok));
  }

  lemma EnrollStands(p: Subject, l: Ledger, e: Event)
    requires SaneLedger(l, p) && p.n != "" && e.Reenrolment?
    requires e.h in l.mem.tokens ==> l.mem.tokens[e.h].assignNodeId == p.n
    requires e.csr.Signed? ==> e.csr.key != ""
    ensures var (l', reply) := EnrollHandler(l, "", e.h, e.now, "", e.csr, e.facts, e.ok1, e.ok2);
      && SaneLedger(l', p)
      && (reply.Certified? <==> Redeemable(l, e) && e.ok1 && e.csr.Signed? && e.ok2)
      && forall disk, held ::
        var k := Sketch(StandingIn(l.mem, p.n), StandingIn(l.db, p.n), disk, held);
        var k' := SketchStep(p, k, e.(stored := false), InfluenceOf(l, e));
        k' == Sketch(StandingIn(l'.mem, p.n), StandingIn(l'.db, p.n), disk, held)
  {
    var l1 := RedeemCall(l, e.h, e.now, "", e.ok1).0;
    RedeemStands(p, l, e.h, e.now, e.ok1);
    if e.csr.Signed? && Redeemable(l, e) {
      IssueStands(p, l1, e.csr.key, e.csr.notAfter, e.facts, e.now, e.ok2);
    } else if Redeemable(l, e) {
      RemoveStands(p, l1, e.ok2);
    }
  }

  lemma ReenrolmentFollows(p: Subject, w: World, e: Event)
    requires Sane(p, w) && e.Reenrolment? && Possible(p, w, e)
    ensures Sane(p, Next(p, w, e))
    ensures SketchOf(p, Next(p, w, e)) == SketchStep(p, SketchOf(p, w), e, InfluenceOf(w.ledger, e))
  {
    EnrollStands(p, w.ledger, e);
  }

  lemma StepFollows(p: Subject, w: World, e: Event)
    requires Sane(p, w) && Possible(p, w, e)
    ensures Sane(p, Next(p, w, e))
    ensures SketchOf(p, Next(p, w, e)) == SketchStep(p, SketchOf(p, w), e, InfluenceOf(w.ledger, e))
  {
    match e
    case Dial(hardware, ok) => DialFollows(p, w, hardware, ok);
    case Renewal(_, _, _, _, _) => RenewalFollows(p, w, e);
    case SessionEnds =>
    case Reboot =>
    case Denial(reason, ok) => DenyStands(p, w.ledger, reason, ok);
    case Removal(ok) => RemoveStands(p, w.ledger, ok);
    case Reenrolment(_, _, _, _, _, _, _, _) => ReenrolmentFollows(p, w, e);
    case Elsewhere(q) => ElsewhereFollows(p, w, q);
  }

  lemma PlausiblePrefix(p: Subject, w: World, es: seq<Event>)
    requires Plausible(p, w, es) && es != []
    ensures Plausible(p, w, es[..|es| - 1])
  {
    var k := |es| - 1;
    assert forall i :: 0 <= i < k ==> es[..k][..i] == es[..i];
  }

  lemma {:induction false} RunFollows(p: Subject, w: World, es: seq<Event>)
    requires Sane(p, w) && Plausible(p, w, es)
    ensures Sane(p, Live(p, w, es)) && SketchOf(p, Live(p, w, es)) == SketchedFrom(p, SketchOf(p, w), w, es)
  {
    if es != [] {
      var k := |es| - 1;
      PlausiblePrefix(p, w, es);
      RunFollows(p, w, es[..k]);
      assert Possible(p, Live(p, w, es[..k]), es[k]);
      StepFollows(p, Live(p, w, es[..k]), es[k]);
    }
  }

  lemma EnrolledIsSane(p: Subject, w: World)
    requires Enrolled(p, w)
    ensures Sane(p, w) && SketchOf(p, w) == FirstSketch(p, w)
  {
  }

  /** Over every run, whichever writes fail, however often either side restarts and whatever
      other nodes do, the node's standing is what four keys say. */
  lemma NodeFollowsSketch(p: Subject, w: World, es: seq<Event>)
    requires Enrolled(p, w) && Plausible(p, w, es)
    ensures Sane(p, Live(p, w, es)) && SketchOf(p, Live(p, w, es)) == Sketched(p, w, es)
  {
    EnrolledIsSane(p, w);
    RunFollows(p, w, es);
  }

  // ── What the copies hold ───────────────────────────────────────────────────

  /** The identity an event brings to the agent's disk, if it does: a recorded renewal whose reply
      was stored, or a re-enrolment whose token, request and writes were all good. */
  function Brings(k: Sketch, e: Event, i: Influence): Option<Identity> {
    if e.Renewal? && e.fate == Stored && k.mem.In? then Some(Identity(e.key, e.key, e.bundle, e.notAfter))
    else if e.Reenrolment? && i == Admits && e.csr.Signed? && e.ok1 && e.ok2 && e.stored then
      Some(Identity(e.csr.key, e.csr.key, e.bundle, e.csr.notAfter))
    else None
  }

  /** The last identity brought to the disk, and the last one the process read from there. */
  function LastStored(p: Subject, w: World, es: seq<Event>): Identity {
    if es == [] then w.agent.disk
    else
      var n := |es| - 1;
      var new' := Brings(Sketched(p, w, es[..n]), es[n], InfluenceOf(Live(p, w, es[..n]).ledger, es[n]));
      if new'.Some? then new'.value else LastStored(p, w, es[..n])
  }

  function LastRead(p: Subject, w: World, es: seq<Event>): Identity {
    if es == [] then w.agent.held
    else
      var n, e := |es| - 1, es[|es| - 1];
      var rereads := e.Reboot? || (e.Dial? && p.readsDisk)
                || (e.Reenrolment? && Brings(Sketched(p, w, es[..n]), e, InfluenceOf(Live(p, w, es[..n]).ledger, e)).Some?);
      if rereads then LastStored(p, w, es) else LastRead(p, w, es[..n])
  }

  lemma CopiesFollow(p: Subject, w: World, e: Event)
    requires Sane(p, w) && Possible(p, w, e)
    ensures var a, a', new' := w.agent, Next(p, w, e).agent, Brings(SketchOf(p, w), e, InfluenceOf(w.ledger, e));
      && a'.disk == (if new'.Some? then new'.value else a.disk)
      && a'.held == (if e.Reboot? || (e.Dial? && p.readsDisk) || (e.Reenrolment? && new'.Some?) then a'.disk else a.held)
  {
    match e
    case Renewal(key, _, notAfter, now, fate) =>
      RenewalPasses(p, w.ledger);
      if SketchOf(p, w).mem.In? {
        IssueStands(p, w.ledger, key, notAfter, NoFacts, now, fate != Unwritten);
      }
    case Reenrolment(_, _, _, _, _, _, _, _) => EnrollStands(p, w.ledger, e);
    case _ =>
  }

  /** Over every run, the disk holds the identity last stored there, key, certificate, bundle and
      expiry together, the process the one it last read, and every copy is a key with its own
      certificate. */
  lemma {:induction false} CopiesAreWhatWasStored(p: Subject, w: World, es: seq<Event>)
    requires Enrolled(p, w) && Plausible(p, w, es)
    ensures var a := Live(p, w, es).agent;
      && a.disk == LastStored(p, w, es) && a.held == LastRead(p, w, es)
      && Matched(a.disk) && Matched(a.held) && (a.clone.Some? ==> Matched(a.clone.value))
  {
    NodeFollowsSketch(p, w, es);
    if es != [] {
      var n := |es| - 1;
      PlausiblePrefix(p, w, es);
      CopiesAreWhatWasStored(p, w, es[..n]);
      NodeFollowsSketch(p, w, es[..n]);
      assert Possible(p, Live(p, w, es[..n]), es[n]);
      CopiesFollow(p, Live(p, w, es[..n]), es[n]);
    }
  }

  /** What a dial leaves of the agent, by its verdict: a renewal task on the held identity, if its
      expiry is known, or none. */
  lemma DialStartsRenewal(p: Subject, w: World, hardware: string, ok: bool)
    requires Sane(p, w)
    ensures var w' := Next(p, w, Event.Dial(hardware, ok));
      var k := SketchOf(p, w);
      && (w'.session <==> k.mem.In? && Fits(k.mem, DialledKey(p, k), hardware))
      && (w'.agent.clone.Some? <==> w'.session && w'.agent.held.notAfter > 0.0)
      && (w'.agent.clone.Some? ==> w'.agent.clone.value == w'.agent.held)
  {
    AuthorizeStands(p, w.ledger, DialledKey(p, SketchOf(p, w)), hardware, ok);
  }

  /** The end of a session, or of the process, ends its renewal task: nothing is renewed until the
      next dial. */
  lemma EndStopsRenewal(p: Subject, w: World, r: Event)
    requires r.Renewal?
    ensures var ended, rebooted := Next(p, w, SessionEnds), Next(p, w, Reboot);
      && ended.agent.clone.None? && rebooted.agent.clone.None? && rebooted.agent.held == w.agent.disk
      && Next(p, ended, r) == ended && Next(p, rebooted, r) == rebooted
      && ended.ledger == w.ledger && rebooted.ledger == w.ledger
  {
  }

  // ── When a copy is behind the ledger, from the history alone ───────────────

  /** The last renewal's reply was not written to disk. */
  predicate DiskBehind(es: seq<Event>) {
    es != [] &&
    var e := es[|es| - 1];
    if e.Renewal? then e.fate != Stored else DiskBehind(es[..|es| - 1])
  }

  /** A renewal was recorded since the process last read the disk, or the disk it read was
      itself behind. */
  predicate HeldBehind(readsDisk: bool, es: seq<Event>) {
    es != [] &&
    var e, before := es[|es| - 1], es[..|es| - 1];
    if e.Renewal? then true
    else if e.Reboot? || (e.Dial? && readsDisk) then DiskBehind(before)
    else HeldBehind(readsDisk, before)
  }

  /** Dialling now would present a key the ledger no longer holds. */
  predicate DialsStale(p: Subject, es: seq<Event>) {
    if p.readsDisk then DiskBehind(es) else HeldBehind(false, es)
  }

  predicate DialledStale(p: Subject, es: seq<Event>) {
    es != [] &&
    var k := |es| - 1;
    DialledStale(p, es[..k]) || (es[k].Dial? && DialsStale(p, es[..k]))
  }

  function KeysUsed(first: string, es: seq<Event>): set<string> {
    if es == [] then {first}
    else KeysUsed(first, es[..|es| - 1]) + if es[|es| - 1].Renewal? then {es[|es| - 1].key} else {}
  }

  /** The operator denies, removes or re-enrols the node. */
  predicate ByOperator(e: Event) { e.Denial? || e.Removal? || e.Reenrolment? }

  /** Renewals make fresh keys, the node stays on its machine, the operator leaves it alone, and the writes that concern
      it succeed. Others' writes may fail. */
  predicate LeftAlone(p: Subject, first: string, es: seq<Event>) {
    es != [] ==>
      var k, e := |es| - 1, es[|es| - 1];
      && LeftAlone(p, first, es[..k])
      && (e.Renewal? ==> e.fate != Unwritten && e.key !in KeysUsed(first, es[..k]))
      && (e.Dial? ==> e.ok && Own(p, e.hardware)) && !ByOperator(e)
  }

  /** Everything the history says about the four keys, while the node is still accepted. */
  predicate InStep(p: Subject, first: string, k: Sketch, es: seq<Event>) {
    && (k.mem.In? || k.mem.Barred?) && (k.row.In? <==> k.mem.In?) && (k.row.Barred? <==> k.mem.Barred?)
    && k.row.key == k.mem.key
    && (k.mem.In? ==> Own(p, k.mem.hardware) && Own(p, k.row.hardware))
    && k.mem.key in KeysUsed(first, es) && k.disk in KeysUsed(first, es) && k.held in KeysUsed(first, es)
    && (k.mem.Barred? <==> DialledStale(p, es))
    && (k.mem.In? ==> (k.disk == k.mem.key <==> !DiskBehind(es)))
    && (k.mem.In? ==> (k.held == k.mem.key <==> !HeldBehind(p.readsDisk, es)))
  }

  lemma SketchInStep(p: Subject, first: string, k: Sketch, es: seq<Event>, e: Event, i: Influence)
    requires InStep(p, first, k, es) && LeftAlone(p, first, es + [e])
    ensures InStep(p, first, SketchStep(p, k, e, i), es + [e])
  {
    assert (es + [e])[..|es|] == es;
  }

  lemma {:induction false} SketchedInStep(p: Subject, w: World, es: seq<Event>)
    requires Enrolled(p, w)
    requires LeftAlone(p, w.agent.disk.certKey, es)
    ensures InStep(p, w.agent.disk.certKey, Sketched(p, w, es), es)
  {
    if es != [] {
      var k := |es| - 1;
      SketchedInStep(p, w, es[..k]);
      assert es[..k] + [es[k]] == es;
      SketchInStep(p, w.agent.disk.certKey, Sketched(p, w, es[..k]), es[..k], es[k],
                   InfluenceOf(Live(p, w, es[..k]).ledger, es[k]));
    }
  }

  // ── The theorems ───────────────────────────────────────────────────────────

  function StateOf(p: Subject, w: World): Option<Enrollment.Membership> {
    if p.n in w.ledger.mem.nodes then Some(w.ledger.mem.nodes[p.n].state) else None
  }

  function Membership(s: Standing): Option<Enrollment.Membership> {
    match s
    case Out => None
    case Waiting => Some(Pending)
    case In(_, _) => Some(Accepted)
    case Barred(_) => Some(Denied)
  }

  lemma StateIs(p: Subject, w: World)
    ensures StateOf(p, w) == Membership(SketchOf(p, w).mem)
  {
  }

  /** Over every run, a node the operator leaves alone is still accepted if and only if it
      never dialled with a stale copy; and a copy is stale exactly when the history says so. */
  lemma AcceptedIffNeverDialledStale(p: Subject, w: World, es: seq<Event>)
    requires Enrolled(p, w) && Plausible(p, w, es) && LeftAlone(p, w.agent.disk.certKey, es)
    ensures StateOf(p, Live(p, w, es)) == if DialledStale(p, es) then Some(Denied) else Some(Accepted)
  {
    NodeFollowsSketch(p, w, es);
    SketchedInStep(p, w, es);
    StateIs(p, Live(p, w, es));
  }

  lemma {:induction false} DiskKeepsUp(p: Subject, w: World, es: seq<Event>)
    requires p.readsDisk && Enrolled(p, w) && forall i :: 0 <= i < |es| ==>
      && !ByOperator(es[i]) && (es[i].Renewal? ==> es[i].fate == Stored) && (es[i].Dial? ==> Own(p, es[i].hardware))
    ensures var k := Sketched(p, w, es);
      && k.mem.In? && k.mem.key == k.disk && Own(p, k.mem.hardware)
      && k.row.In? && k.row.key == k.disk && Own(p, k.row.hardware)
  {
    if es != [] {
      DiskKeepsUp(p, w, es[..|es| - 1]);
    }
  }

  /** An agent that dials with the identity on disk, from its own machine, and whose renewals all
      reach the disk, is never denied, whatever else fails. */
  lemma DiskReaderIsNeverDenied(p: Subject, w: World, es: seq<Event>)
    requires p.readsDisk && Enrolled(p, w) && Plausible(p, w, es)
    requires forall i :: 0 <= i < |es| ==>
      && !ByOperator(es[i]) && (es[i].Renewal? ==> es[i].fate == Stored) && (es[i].Dial? ==> Own(p, es[i].hardware))
    ensures StateOf(p, Live(p, w, es)) == Some(Accepted)
  {
    NodeFollowsSketch(p, w, es);
    DiskKeepsUp(p, w, es);
    StateIs(p, Live(p, w, es));
  }

  /** A dial from the node's own machine. */
  function OwnDial(p: Subject, ok: bool): Event { Event.Dial(p.hardware, ok) }

  /** An enrolled node's first dial is let in, and starts a renewal task if its expiry is known. */
  lemma FirstDial(p: Subject, w: World, ok: bool)
    requires Enrolled(p, w)
    ensures var w1 := Next(p, w, OwnDial(p, ok));
      && w1.session && w1.ledger == w.ledger && w1.agent == Cloned(w.agent)
      && Sane(p, w1) && SketchOf(p, w1) == FirstSketch(p, w)
  {
  }

  lemma FirstRenewal(p: Subject, w: World, e: Event)
    requires Enrolled(p, w) && w.agent.disk.notAfter > 0.0 && e.Renewal? && e.key != ""
    ensures var w2 := Next(p, Next(p, w, OwnDial(p, true)), e);
      Sane(p, w2) && SketchOf(p, w2) == SketchStep(p, FirstSketch(p, w), e, Nothing)
  {
    FirstDial(p, w, true);
    StepFollows(p, Next(p, w, OwnDial(p, true)), e);
  }

  lemma RedialDecides(p: Subject, w: World, ok: bool)
    requires Sane(p, w)
    ensures var k := SketchOf(p, w);
      StateOf(p, Next(p, w, OwnDial(p, ok)))
      == Membership(if k.mem.In? && !Fits(k.mem, DialledKey(p, k), p.hardware) then BarredFrom(k.mem) else k.mem)
  {
    StepFollows(p, w, OwnDial(p, ok));
    StateIs(p, Next(p, w, OwnDial(p, ok)));
  }

  lemma FourEvents(p: Subject, w: World, a: Event, b: Event, c: Event, d: Event)
    ensures Live(p, w, [a, b, c, d]) == Next(p, Next(p, Next(p, Next(p, w, a), b), c), d)
  {
    assert [a][..0] == [] && Live(p, w, [a]) == Next(p, w, a);
    assert [a, b][..1] == [a] && Live(p, w, [a, b]) == Next(p, Next(p, w, a), b);
    assert [a, b, c][..2] == [a, b] && [a, b, c, d][..3] == [a, b, c];
  }

  /** The agent as written is denied at its first redial after a renewal that succeeded in
      every respect; one that reads the disk is denied when the reply was not stored. */
  lemma RenewThenRedial(p: Subject, w: World, key: string, bundle: string, notAfter: real, now: real, fate: Fate, ok: bool)
    requires Enrolled(p, w) && w.agent.disk.notAfter > 0.0 && key != "" && key != w.agent.disk.certKey
    ensures var es := [OwnDial(p, true), Renewal(key, bundle, notAfter, now, fate), SessionEnds, OwnDial(p, ok)];
      StateOf(p, Live(p, w, es)) == Some(if p.readsDisk && fate == Stored then Accepted else Denied)
  {
    var dial, renewal, redial := OwnDial(p, true), Renewal(key, bundle, notAfter, now, fate), OwnDial(p, ok);
    var w1 := Next(p, w, dial);
    var w2 := Next(p, w1, renewal);
    var w3 := Next(p, w2, SessionEnds);
    FirstRenewal(p, w, renewal);
    StepFollows(p, w2, SessionEnds);
    RedialDecides(p, w3, ok);
    FourEvents(p, w, dial, renewal, SessionEnds, redial);
  }

  // ── A renewal whose row was not written ────────────────────────────────────

  /** No further renewal, removal or enrolment of the node, and no restart of the control plane. */
  predicate Uneventful(e: Event) {
    !e.Renewal? && !e.Removal? && !e.Reenrolment? && !(e.Elsewhere? && e.q.Operator? && e.q.step.call.Restart?)
  }

  /** Whether an event writes the node's row, by the guard of each branch that does. */
  predicate WritesTheRow(p: Subject, k: Sketch, e: Event, i: Influence) {
    match e
    case Dial(hardware, ok) => ok && k.mem.In? && !Fits(k.mem, DialledKey(p, k), hardware)
    case Denial(_, ok) => ok
    case Elsewhere(_) => i == WritesRow
    case _ => false
  }

  predicate WroteTheRow(p: Subject, k: Sketch, w: World, es: seq<Event>) {
    es != [] &&
    var n := |es| - 1;
    || WroteTheRow(p, k, w, es[..n])
    || WritesTheRow(p, SketchedFrom(p, k, w, es[..n]), es[n], InfluenceOf(Live(p, w, es[..n]).ledger, es[n]))
  }

  /** The agent has the key of its row, and the working copy has another. */
  predicate RowIsBehind(p: Subject, k: Sketch) {
    && k.row.In? && k.row.key == k.disk && Own(p, k.row.hardware) && k.held == k.disk
    && (k.mem.In? || k.mem.Barred?) && k.mem.key != k.disk
  }

  lemma UneventfulStep(p: Subject, k: Sketch, e: Event, i: Influence)
    requires Uneventful(e) && i != ReadsRow && i != Admits
    requires (k.mem.In? || k.mem.Barred?) && k.held == k.disk
    ensures var k' := SketchStep(p, k, e, i);
      && k'.disk == k.disk && k'.held == k.held && (k'.mem.In? || k'.mem.Barred?) && k'.mem.key == k.mem.key
      && (if WritesTheRow(p, k, e, i) then (k'.row.In? || k'.row.Barred?) && k'.row.key == k.mem.key
          else k'.row == k.row)
  {
  }

  lemma {:induction false} UneventfulKeeps(p: Subject, k: Sketch, w: World, mid: seq<Event>)
    requires RowIsBehind(p, k) && forall i :: 0 <= i < |mid| ==> Uneventful(mid[i])
    ensures var k' := SketchedFrom(p, k, w, mid);
      && k'.disk == k.disk && k'.held == k.held && (k'.mem.In? || k'.mem.Barred?) && k'.mem.key == k.mem.key
      && (if WroteTheRow(p, k, w, mid) then (k'.row.In? || k'.row.Barred?) && k'.row.key == k.mem.key
          else k'.row == k.row)
  {
    if mid != [] {
      var n := |mid| - 1;
      UneventfulKeeps(p, k, w, mid[..n]);
      UneventfulStep(p, SketchedFrom(p, k, w, mid[..n]), mid[n], InfluenceOf(Live(p, w, mid[..n]).ledger, mid[n]));
    }
  }

  function ControlPlaneRestart(): Event { Elsewhere(Operator(Step(Restart, true))) }

  /** What the row says is what a redial meets after a restart. */
  lemma RestartThenRedial(p: Subject, w: World, ok: bool)
    requires Sane(p, w)
    ensures var k := SketchOf(p, w);
      StateOf(p, Next(p, Next(p, w, ControlPlaneRestart()), OwnDial(p, ok)))
      == Membership(if k.row.In? && !Fits(k.row, DialledKey(p, k), p.hardware) then BarredFrom(k.row) else k.row)
  {
    ElsewhereFollows(p, w, ControlPlaneRestart().q);
    RedialDecides(p, Next(p, w, ControlPlaneRestart()), ok);
  }

  /** From any state in which the row still has the agent's key and the working copy does not,
      through any run without renewals and restarts: once the control plane restarts, a redial
      is let in if and only if nothing in the run wrote the row. */
  lemma RedialAfterRestartIff(p: Subject, w: World, mid: seq<Event>, ok: bool)
    requires Sane(p, w) && RowIsBehind(p, SketchOf(p, w))
    requires Plausible(p, w, mid) && forall i :: 0 <= i < |mid| ==> Uneventful(mid[i])
    ensures var restarted := Next(p, Live(p, w, mid), ControlPlaneRestart());
      StateOf(p, Next(p, restarted, OwnDial(p, ok)))
      == Some(if WroteTheRow(p, SketchOf(p, w), w, mid) then Denied else Accepted)
  {
    RunFollows(p, w, mid);
    UneventfulKeeps(p, SketchOf(p, w), w, mid);
    RestartThenRedial(p, Live(p, w, mid), ok);
  }

  /** An enrolled node's first dial, then a renewal whose row is not written. */
  function Unrecorded(p: Subject, w: World, key: string, bundle: string, notAfter: real, now: real): World {
    Next(p, Next(p, w, OwnDial(p, true)), Renewal(key, bundle, notAfter, now, Unwritten))
  }

  lemma UnrecordedIsBehind(p: Subject, w: World, key: string, bundle: string, notAfter: real, now: real)
    requires Enrolled(p, w) && w.agent.disk.notAfter > 0.0 && key != "" && key != w.agent.disk.certKey
    ensures var w2 := Unrecorded(p, w, key, bundle, notAfter, now);
      && Sane(p, w2) && RowIsBehind(p, SketchOf(p, w2))
      && SketchOf(p, w2).mem.In? && SketchOf(p, w2).mem.key == key && SketchOf(p, w2).disk == w.agent.disk.certKey
  {
    FirstRenewal(p, w, Renewal(key, bundle, notAfter, now, Unwritten));
  }

  /** So after a renewal whose row was not written, any such run and a restart, the redial is let
      in if and only if nothing in the run wrote the row. */
  lemma UnwrittenRenewalIff(p: Subject, w: World, key: string, bundle: string, notAfter: real, now: real,
                            mid: seq<Event>, ok: bool)
    requires Enrolled(p, w) && w.agent.disk.notAfter > 0.0 && key != "" && key != w.agent.disk.certKey
    requires Plausible(p, Unrecorded(p, w, key, bundle, notAfter, now), mid)
    requires forall i :: 0 <= i < |mid| ==> Uneventful(mid[i])
    ensures var w2 := Unrecorded(p, w, key, bundle, notAfter, now);
      var restarted := Next(p, Live(p, w2, mid), ControlPlaneRestart());
      StateOf(p, Next(p, restarted, OwnDial(p, ok)))
      == Some(if WroteTheRow(p, SketchOf(p, w2), w2, mid) then Denied else Accepted)
  {
    UnrecordedIsBehind(p, w, key, bundle, notAfter, now);
    RedialAfterRestartIff(p, Unrecorded(p, w, key, bundle, notAfter, now), mid, ok);
  }

  lemma OneEvent(p: Subject, w: World, e: Event)
    ensures Live(p, w, [e]) == Next(p, w, e)
    ensures var i := InfluenceOf(w.ledger, e);
      forall k :: WroteTheRow(p, k, w, [e]) <==> WritesTheRow(p, k, e, i)
    ensures Possible(p, w, e) ==> Plausible(p, w, [e])
  {
    assert [e][..0] == [];
  }

  /** With one unrelated request in between: a sweep's whole-ledger write is what writes the row. */
  lemma UnwrittenRenewalThenRequest(p: Subject, w: World, key: string, bundle: string, notAfter: real, now: real,
                                    q: Request, ok: bool)
    requires Enrolled(p, w) && w.agent.disk.notAfter > 0.0 && key != "" && key != w.agent.disk.certKey
    requires Unrelated(p, Unrecorded(p, w, key, bundle, notAfter, now).ledger, q)
    ensures var w2 := Unrecorded(p, w, key, bundle, notAfter, now);
      var restarted := Next(p, Next(p, w2, Elsewhere(q)), ControlPlaneRestart());
      StateOf(p, Next(p, restarted, OwnDial(p, ok)))
      == Some(if InfluenceOf(w2.ledger, Elsewhere(q)) == WritesRow then Denied else Accepted)
  {
    var w2 := Unrecorded(p, w, key, bundle, notAfter, now);
    UnrecordedIsBehind(p, w, key, bundle, notAfter, now);
    if Uneventful(Elsewhere(q)) {
      OneEvent(p, w2, Elsewhere(q));
      RedialAfterRestartIff(p, w2, [Elsewhere(q)], ok);
    } else {
      ElsewhereFollows(p, w2, q);
      RestartThenRedial(p, Next(p, w2, Elsewhere(q)), ok);
    }
  }

  /** The agent's own redial in between is refused, and if that refusal is written the restart
      does not help; if its write fails too, the restart lets the node back in. */
  lemma RefusedRedialSticks(p: Subject, w: World, key: string, bundle: string, notAfter: real, now: real,
                            written: bool, ok: bool)
    requires Enrolled(p, w) && w.agent.disk.notAfter > 0.0 && key != "" && key != w.agent.disk.certKey
    ensures var refused := Next(p, Unrecorded(p, w, key, bundle, notAfter, now), OwnDial(p, written));
      && StateOf(p, refused) == Some(Denied)
      && StateOf(p, Next(p, Next(p, refused, ControlPlaneRestart()), OwnDial(p, ok)))
      == Some(if written then Denied else Accepted)
  {
    var w2 := Unrecorded(p, w, key, bundle, notAfter, now);
    UnrecordedIsBehind(p, w, key, bundle, notAfter, now);
    RedialDecides(p, w2, written);
    OneEvent(p, w2, OwnDial(p, written));
    RedialAfterRestartIff(p, w2, [OwnDial(p, written)], ok);
  }

  // ── An identity on another machine ─────────────────────────────────────────

  /** A dial from any machine is let in if and only if the working copy has its key and no other
      machine; one that only moved machines is barred, in the row too if that is written. */
  lemma TransplantIsBarred(p: Subject, w: World, hardware: string, ok: bool)
    requires Sane(p, w) && SketchOf(p, w).mem.In?
    ensures var k, w' := SketchOf(p, w), Next(p, w, Event.Dial(hardware, ok));
      var same := k.mem.hardware == "" || hardware == "" || k.mem.hardware == hardware;
      && (StateOf(p, w') == Some(Accepted) <==> DialledKey(p, k) == k.mem.key && same)
      && (w'.session <==> DialledKey(p, k) == k.mem.key && same)
      && (!same ==> StandingIn(w'.ledger.mem, p.n).Barred? && (ok ==> StandingIn(w'.ledger.db, p.n).Barred?))
  {
    AuthorizeStands(p, w.ledger, DialledKey(p, SketchOf(p, w)), hardware, ok);
    DialFollows(p, w, hardware, ok);
  }

  // ── A removal whose write failed ───────────────────────────────────────────

  /** A removed node is back after a restart if and only if its row was not deleted and still has
      the key the agent dials with and no other machine. */
  lemma RemovalHoldsIff(p: Subject, w: World, removed: bool, ok: bool)
    requires Sane(p, w)
    ensures var k := SketchOf(p, w);
      var restarted := Next(p, Next(p, w, Removal(removed)), ControlPlaneRestart());
      && StateOf(p, Next(p, w, Removal(removed))) == None
      && (StateOf(p, Next(p, restarted, OwnDial(p, ok))) == Some(Accepted)
          <==> !removed && k.row.In? && Fits(k.row, DialledKey(p, k), p.hardware))
  {
    var w1 := Next(p, w, Removal(removed));
    StepFollows(p, w, Removal(removed));
    StateIs(p, w1);
    RestartThenRedial(p, w1, ok);
  }
}
