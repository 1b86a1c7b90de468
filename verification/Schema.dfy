/** Creating the schema while other instances start against the same database. */
module Schema {

  /** What other instances commit around one attempt of ours: before it inspects the
      database, before each of its CREATE statements, and before it looks again; and the
      statement, if any, at which the database fails for a reason of its own. */
  datatype Turn = Turn(early: set<string>, during: seq<set<string>>, late: set<string>, fault: int)

  datatype Failure = Clean | LostRace(table: string) | Genuine

  /** What an attempt leaves in the database, and how it ends. */
  datatype Attempt = Attempt(committed: set<string>, failure: Failure)

  function Interference(turn: Turn, i: nat): set<string> {
    if i < |turn.during| then turn.during[i] else {}
  }

  predicate Faulty(tables: seq<string>, turn: Turn) { 0 <= turn.fault < |tables| }

  // ── One attempt ────────────────────────────────────────────────────────────

  /** The attempt from its CREATE for table `i` on. `atomic` is whether the backend rolls back our
      earlier CREATEs when a later one fails. A CREATE fails exactly when somebody has committed
      that table since the inspection. */
  function CreateFrom(tables: seq<string>, i: nat, snapshot: set<string>, committed: set<string>,
                      created: set<string>, turn: Turn, atomic: bool): Attempt
    requires i <= |tables|
    decreases |tables| - i
  {
    if i == |tables| then Attempt(committed + created, Clean)
    else if tables[i] in snapshot then CreateFrom(tables, i + 1, snapshot, committed, created, turn, atomic)
    else
      var now := committed + Interference(turn, i);
      var left := if atomic then now else now + created;
      if i == turn.fault then Attempt(left, Genuine)
      else if tables[i] in now then Attempt(left, LostRace(tables[i]))
      else CreateFrom(tables, i + 1, snapshot, now, created + {tables[i]}, turn, atomic)
  }

  function Attempted(tables: seq<string>, before: set<string>, turn: Turn, atomic: bool): Attempt {
    CreateFrom(tables, 0, before + turn.early, before + turn.early, {}, turn, atomic)
  }

  /** SQLAlchemy's `create_all`: inspect once, then one CREATE for each table the inspection
      did not find. */
  method CreateAll(tables: seq<string>, before: set<string>, turn: Turn, atomic: bool) returns (r: Attempt)
    ensures r == Attempted(tables, before, turn, atomic)
  {
    var committed := before + turn.early;
    var snapshot := committed;
    var created: set<string> := {};
    for i := 0 to |tables|
      invariant CreateFrom(tables, i, snapshot, committed, created, turn, atomic) == Attempted(tables, before, turn, atomic)
    {
      var t := tables[i];
      if t !in snapshot {
        committed := committed + Interference(turn, i);
        if i == turn.fault || t in committed {
          var left := if atomic then committed else committed + created;
          return Attempt(left, if i == turn.fault then Genuine else LostRace(t));
        }
        created := created + {t};
      }
    }
    r := Attempt(committed + created, Clean);
  }

  /** The attempt stopped at table `j`, and every table before it is there. */
  ghost predicate StoppedAt(tables: seq<string>, j: int, turn: Turn, r: Attempt) {
    && 0 <= j < |tables| && (r.failure == Genuine ==> j == turn.fault)
    && (r.failure.LostRace? ==> r.failure.table == tables[j])
    && forall i :: 0 <= i < j ==> tables[i] in r.committed
  }

  lemma {:induction false} CreateFromEnds(tables: seq<string>, i: nat, snapshot: set<string>, committed: set<string>,
                                          created: set<string>, turn: Turn, atomic: bool)
    requires i <= |tables| && snapshot <= committed
    requires forall j :: 0 <= j < i ==> tables[j] in committed + created
    ensures var r := CreateFrom(tables, i, snapshot, committed, created, turn, atomic);
      && committed <= r.committed
      && (r.failure == Clean ==> forall t :: t in tables ==> t in r.committed)
      && (r.failure == Genuine ==> Faulty(tables, turn) && tables[turn.fault] !in snapshot)
      && (r.failure.LostRace? ==>
            r.failure.table in tables && r.failure.table !in snapshot && r.failure.table in r.committed)
      && (!atomic && r.failure != Clean ==> exists j :: StoppedAt(tables, j, turn, r))
    decreases |tables| - i
  {
    if i < |tables| {
      if tables[i] in snapshot {
        CreateFromEnds(tables, i + 1, snapshot, committed, created, turn, atomic);
      } else if i != turn.fault && tables[i] !in committed + Interference(turn, i) {
        CreateFromEnds(tables, i + 1, snapshot, committed + Interference(turn, i), created + {tables[i]}, turn, atomic);
      } else {
        assert StoppedAt(tables, i, turn, CreateFrom(tables, i, snapshot, committed, created, turn, atomic)) || atomic;
      }
    }
  }

  /** An attempt loses only to a table that was absent before it and is there after, fails
      otherwise only at a fault on a table it had to create, and when it does neither leaves every
      table. */
  lemma AttemptEnds(tables: seq<string>, before: set<string>, turn: Turn, atomic: bool)
    ensures var r := Attempted(tables, before, turn, atomic);
      && before <= r.committed
      && (r.failure == Clean ==> forall t :: t in tables ==> t in r.committed)
      && (r.failure == Genuine ==> Faulty(tables, turn) && tables[turn.fault] !in before)
      && (r.failure.LostRace? ==>
            r.failure.table in tables && r.failure.table !in before && r.failure.table in r.committed)
  {
    CreateFromEnds(tables, 0, before + turn.early, before + turn.early, {}, turn, atomic);
  }

  /** Where the backend commits each CREATE by itself, an attempt that fails leaves every table
      that comes before the one it failed at. */
  lemma FailureKeepsEarlier(tables: seq<string>, before: set<string>, turn: Turn)
    ensures var r := Attempted(tables, before, turn, false);
      r.failure != Clean ==> exists j :: StoppedAt(tables, j, turn, r)
  {
    CreateFromEnds(tables, 0, before + turn.early, before + turn.early, {}, turn, false);
  }

  ghost predicate SomeoneMade(turn: Turn, t: string) {
    t in turn.early || exists k :: 0 <= k < |turn.during| && t in turn.during[k]
  }

  lemma {:induction false} CreateFromMakes(tables: seq<string>, i: nat, snapshot: set<string>, committed: set<string>,
                                           created: set<string>, turn: Turn, atomic: bool, t: string)
    requires i <= |tables|
    requires t in CreateFrom(tables, i, snapshot, committed, created, turn, atomic).committed
    ensures t in committed || SomeoneMade(turn, t)
      || ((t in created || t in tables) && (atomic ==> CreateFrom(tables, i, snapshot, committed, created, turn, atomic).failure == Clean))
    decreases |tables| - i
  {
    if i < |tables| {
      if tables[i] in snapshot {
        CreateFromMakes(tables, i + 1, snapshot, committed, created, turn, atomic, t);
      } else {
        var now := committed + Interference(turn, i);
        assert t in now ==> t in committed || SomeoneMade(turn, t);
        if i != turn.fault && tables[i] !in now {
          CreateFromMakes(tables, i + 1, snapshot, now, created + {tables[i]}, turn, atomic, t);
        }
      }
    }
  }

  /** Whatever is there afterwards was there before, or somebody else made it, or is a table of
      ours; and a failed attempt leaves none of its own where the backend rolls it back. */
  lemma NothingElseMade(tables: seq<string>, before: set<string>, turn: Turn, atomic: bool, t: string)
    ensures var r := Attempted(tables, before, turn, atomic);
      t in r.committed ==> t in before || SomeoneMade(turn, t) || (t in tables && (atomic ==> r.failure == Clean))
  {
    if t in Attempted(tables, before, turn, atomic).committed {
      CreateFromMakes(tables, 0, before + turn.early, before + turn.early, {}, turn, atomic, t);
    }
  }

  /** Nobody else commits one of our tables in this turn, and the database does not fail. */
  ghost predicate Undisturbed(tables: seq<string>, turn: Turn) {
    !Faulty(tables, turn) && forall i :: 0 <= i < |turn.during| ==> turn.during[i] !! (set t | t in tables)
  }

  lemma {:induction false} CreateFromSucceeds(tables: seq<string>, i: nat, snapshot: set<string>, committed: set<string>,
                                              created: set<string>, turn: Turn, atomic: bool)
    requires i <= |tables| && Undisturbed(tables, turn)
    requires forall t :: t in tables && t in committed ==> t in snapshot
    ensures CreateFrom(tables, i, snapshot, committed, created, turn, atomic).failure == Clean
    decreases |tables| - i
  {
    if i < |tables| {
      assert tables[i] in tables;
      if tables[i] in snapshot {
        CreateFromSucceeds(tables, i + 1, snapshot, committed, created, turn, atomic);
      } else {
        CreateFromSucceeds(tables, i + 1, snapshot, committed + Interference(turn, i), created + {tables[i]}, turn, atomic);
      }
    }
  }

  // ── The bounded retry ──────────────────────────────────────────────────────

  /** How the retry ends: what is in the database, whether an error escaped, and how many
      attempts lost a race or failed for a reason of their own. */
  datatype Outcome = Outcome(committed: set<string>, raised: bool, lost: nat, genuine: nat)

  function Counted(o: Outcome, a: Attempt): Outcome {
    Outcome(a.committed, false, o.lost + (if a.failure.LostRace? then 1 else 0),
            o.genuine + (if a.failure.Genuine? then 1 else 0))
  }

  predicate Complete(tables: seq<string>, committed: set<string>) { forall t :: t in tables ==> t in committed }

  /** The retry from an attempt on, one of `turns` for each that is left. */
  function Retry(tables: seq<string>, so: Outcome, turns: seq<Turn>, atomic: bool): Outcome
    requires turns != []
    decreases |turns|
  {
    var r := Attempted(tables, so.committed, turns[0], atomic);
    var after := Counted(so, r);
    if r.failure == Clean then after else
    var late := after.(committed := after.committed + turns[0].late);
    if Complete(tables, late.committed) then late
    else if |turns| == 1 then late.(raised := true)
    else Retry(tables, late, turns[1..], atomic)
  }

  function Begun(committed: set<string>): Outcome { Outcome(committed, false, 0, 0) }

  function Present(tables: seq<string>, committed: set<string>): set<string> {
    set t | t in tables && t in committed
  }

  lemma PresentBounded(tables: seq<string>, committed: set<string>)
    ensures |Present(tables, committed)| <= |tables|
    ensures |Present(tables, committed)| == |tables| ==> forall t :: t in tables ==> t in committed
  {
    if tables != [] {
      var k := |tables| - 1;
      PresentBounded(tables[..k], committed);
      var rest := Present(tables[..k], committed);
      assert forall t :: t in tables <==> t in tables[..k] || t == tables[k];
      assert Present(tables, committed) == rest + (if tables[k] in committed then {tables[k]} else {});
    }
  }

  lemma PresentGrows(tables: seq<string>, a: set<string>, b: set<string>, t: string)
    requires a <= b && t in tables && t !in a && t in b
    ensures |Present(tables, a)| < |Present(tables, b)|
  {
    SubsetSize(Present(tables, a) + {t}, Present(tables, b));
  }

  lemma {:induction false} SubsetSize(a: set<string>, b: set<string>)
    requires a <= b
    ensures |a| <= |b|
  {
    if a != {} {
      var x :| x in a;
      SubsetSize(a - {x}, b - {x});
    }
  }

  function FaultyTurns(tables: seq<string>, turns: seq<Turn>): nat {
    if turns == [] then 0 else (if Faulty(tables, turns[0]) then 1 else 0) + FaultyTurns(tables, turns[1..])
  }

  lemma CountingKeeps(tables: seq<string>, so: Outcome, turn: Turn, atomic: bool)
    requires so.lost <= |Present(tables, so.committed)|
    ensures var r := Attempted(tables, so.committed, turn, atomic);
      var late := Counted(so, r).(committed := r.committed + turn.late);
      && Counted(so, r).lost <= |Present(tables, r.committed)| && late.lost <= |Present(tables, late.committed)|
      && so.committed <= r.committed
      && (r.failure == Genuine ==> Faulty(tables, turn))
      && (r.failure == Clean ==> Complete(tables, r.committed))
  {
    var r := Attempted(tables, so.committed, turn, atomic);
    AttemptEnds(tables, so.committed, turn, atomic);
    SubsetSize(Present(tables, so.committed), Present(tables, r.committed));
    SubsetSize(Present(tables, r.committed), Present(tables, r.committed + turn.late));
    if r.failure.LostRace? {
      PresentGrows(tables, so.committed, r.committed, r.failure.table);
    }
  }

  lemma {:induction false} RetryEnds(tables: seq<string>, so: Outcome, turns: seq<Turn>, atomic: bool)
    requires turns != [] && so.lost <= |Present(tables, so.committed)|
    requires so.lost + so.genuine + |turns| == |tables| + 1
    ensures var o := Retry(tables, so, turns, atomic);
      && so.committed <= o.committed && o.lost <= |Present(tables, o.committed)|
      && (!o.raised ==> Complete(tables, o.committed))
      && (o.raised ==> !Complete(tables, o.committed) && o.lost + o.genuine == |tables| + 1)
      && so.genuine <= o.genuine <= so.genuine + FaultyTurns(tables, turns)
    decreases |turns|
  {
    CountingKeeps(tables, so, turns[0], atomic);
    var r := Attempted(tables, so.committed, turns[0], atomic);
    var late := Counted(so, r).(committed := r.committed + turns[0].late);
    if r.failure != Clean && !Complete(tables, late.committed) && |turns| > 1 {
      RetryEnds(tables, late, turns[1..], atomic);
    }
  }

  /** Losing races alone never exhausts the retry: after k of them at least k tables are there, so
      an error escapes only when at least two attempts met a fault of the database's own, and
      otherwise the retry ends with every table present. */
  lemma RetryConverges(tables: seq<string>, before: set<string>, turns: seq<Turn>, atomic: bool)
    requires |turns| == |tables| + 1
    ensures var o := Retry(tables, Begun(before), turns, atomic);
      && before <= o.committed && o.lost <= |Present(tables, o.committed)|
      && (o.raised <==> !Complete(tables, o.committed))
      && (o.raised ==> 2 <= o.genuine && o.lost + o.genuine == |tables| + 1)
      && o.genuine <= FaultyTurns(tables, turns)
  {
    RetryEnds(tables, Begun(before), turns, atomic);
    PresentBounded(tables, Retry(tables, Begun(before), turns, atomic).committed);
  }

  /** An attempt that nobody disturbs is the last, and leaves every table. */
  lemma UndisturbedIsLast(tables: seq<string>, so: Outcome, turns: seq<Turn>, atomic: bool)
    requires turns != [] && Undisturbed(tables, turns[0])
    ensures var o := Retry(tables, so, turns, atomic);
      !o.raised && Complete(tables, o.committed) && o.lost == so.lost && o.genuine == so.genuine
  {
    var found := so.committed + turns[0].early;
    CreateFromSucceeds(tables, 0, found, found, {}, turns[0], atomic);
    AttemptEnds(tables, so.committed, turns[0], atomic);
  }

  /** The loop. `turns[k]` is what happens around attempt k. */
  method CreateSchema(tables: seq<string>, before: set<string>, turns: seq<Turn>, atomic: bool) returns (o: Outcome)
    requires |turns| == |tables| + 1
    ensures o == Retry(tables, Begun(before), turns, atomic)
    ensures o.raised <==> !Complete(tables, o.committed)
    ensures o.raised ==> 2 <= o.genuine && o.lost + o.genuine == |tables| + 1
    ensures o.genuine <= FaultyTurns(tables, turns)
    ensures before <= o.committed && o.lost <= |Present(tables, o.committed)|
  {
    o := Begun(before);
    RetryConverges(tables, before, turns, atomic);
    var remaining := |tables| + 1;
    while remaining > 0
      invariant 1 <= remaining <= |tables| + 1 && !o.raised
      invariant Retry(tables, o, turns[|turns| - remaining..], atomic) == Retry(tables, Begun(before), turns, atomic)
    {
      ghost var rest := turns[|turns| - remaining..];
      var turn := turns[|turns| - remaining];
      var r := CreateAll(tables, o.committed, turn, atomic);
      o := Counted(o, r);
      if r.failure == Clean {
        return;
      }
      o := o.(committed := o.committed + turn.late);
      if Complete(tables, o.committed) {
        return;
      }
      if remaining == 1 {
        o := o.(raised := true);
        return;
      }
      assert rest[1..] == turns[|turns| - (remaining - 1)..];
      remaining := remaining - 1;
    }
  }
}
