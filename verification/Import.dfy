/** The one-time import of the JSON ledger, with any number of control planes starting,
    crashing and working against one database. */
module Import {
  import opened Wrappers

  type Rows = map<string, string>

  /** `Reading` has found no marker and parsed the file; `Staged` has an open transaction that
      saw no marker, with the keys that existed when it chose between INSERT and UPDATE. */
  datatype Phase =
    | Idle
    | Reading(data: Rows)
    | Staged(data: Rows, seen: set<string>)
    | Loaded

  datatype World = World(marker: bool, rows: Rows, file: Option<Rows>, phases: map<nat, Phase>, imports: nat)

  datatype Label =
    | Start(i: nat)            // `is_done`, then the file
    | Open(i: nat)             // `mark_done_within` and the staged puts
    | Commit(i: nat)
    | Crash(i: nat)
    | Admit(i: nat, n: string, entry: string)
    | Remove(i: nat, n: string)
    | FileBecomes(file: Option<Rows>)

  function PhaseOf(w: World, i: nat): Phase { if i in w.phases then w.phases[i] else Idle }

  function To(w: World, i: nat, p: Phase): World { w.(phases := w.phases[i := p]) }

  /** The commit meets a unique-key conflict: the marker, or a row it staged as an INSERT. */
  predicate Conflicts(w: World, p: Phase)
    requires p.Staged?
  {
    w.marker || exists n :: n in p.data && n !in p.seen && n in w.rows
  }

  /** A row staged as an UPDATE has gone; the statement matches nothing and the start fails. */
  predicate UpdatesNothing(w: World, p: Phase)
    requires p.Staged?
  {
    exists n :: n in p.data && n in p.seen && n !in w.rows
  }

  function Next(w: World, l: Label): World {
    match l
    case Start(i) =>
      if PhaseOf(w, i) != Idle then w
      else To(w, i, if w.marker || w.file.None? then Loaded else Reading(w.file.value))
    case Open(i) =>
      var p := PhaseOf(w, i);
      if !p.Reading? then w else To(w, i, if w.marker then Loaded else Staged(p.data, w.rows.Keys))
    case Commit(i) =>
      var p := PhaseOf(w, i);
      if !p.Staged? then w
      else if Conflicts(w, p) then To(w, i, Loaded)      // IntegrityError, swallowed
      else if UpdatesNothing(w, p) then To(w, i, Idle)   // anything else leaves the constructor
      else To(w, i, Loaded).(marker := true, rows := w.rows + p.data, imports := w.imports + 1)
    case Crash(i) => To(w, i, Idle)
    case Admit(i, n, entry) => if PhaseOf(w, i) == Loaded then w.(rows := w.rows[n := entry]) else w
    case Remove(i, n) => if PhaseOf(w, i) == Loaded then w.(rows := w.rows - {n}) else w
    case FileBecomes(f) => w.(file := f)
  }

  function Run(w: World, ls: seq<Label>): World {
    if ls == [] then w else Next(Run(w, ls[..|ls| - 1]), ls[|ls| - 1])
  }

  function Fresh(rows: Rows, file: Option<Rows>): World { World(false, rows, file, map[], 0) }

  /** One control plane's constructor, when nothing interferes: the three steps in a row. */
  class Store {
    var marker: bool
    var rows: Rows

    // Inside the caller's transaction: false if the marker is already there.
    method MarkDoneWithin() returns (claimed: bool)
      modifies this`marker
      ensures marker && claimed == !old(marker)
    {
      claimed := !marker;
      marker := true;
    }

    method MigrateFromJson(file: Option<Rows>, ghost w: World, ghost i: nat)
      requires w.marker == marker && w.rows == rows && w.file == file && PhaseOf(w, i) == Idle
      modifies this
      ensures var w' := Next(Next(Next(w, Start(i)), Open(i)), Commit(i));
        marker == w'.marker && rows == w'.rows && PhaseOf(w', i) == Loaded
    {
      if marker || file.None? {
        return;
      }
      var data := file.value;
      var claimed := MarkDoneWithin();
      var todo := data.Keys;
      while todo != {}
        invariant todo <= data.Keys && marker
        invariant rows.Keys == old(rows).Keys + (data.Keys - todo)
        invariant forall n :: n in rows ==> rows[n] == if n in data && n !in todo then data[n] else old(rows)[n]
        decreases todo
      {
        var n :| n in todo;
        rows := rows[n := data[n]];
        todo := todo - {n};
      }
      assert rows == old(rows) + data;
    }
  }

  // ── The marker and the import are one event ────────────────────────────────

  /** The import that a label commits, if it commits one. */
  function Imported(w: World, l: Label): Option<Rows> {
    if l.Commit? && PhaseOf(w, l.i).Staged? && !Conflicts(w, PhaseOf(w, l.i)) && !UpdatesNothing(w, PhaseOf(w, l.i))
    then Some(PhaseOf(w, l.i).data) else None
  }

  /** The marker is in the database if and only if exactly one import transaction has
      committed; no run commits two. */
  lemma {:induction false} MarkerIffOneImport(rows: Rows, file: Option<Rows>, ls: seq<Label>)
    ensures var w := Run(Fresh(rows, file), ls);
      w.imports == if w.marker then 1 else 0
  {
    if ls != [] {
      MarkerIffOneImport(rows, file, ls[..|ls| - 1]);
    }
  }

  /** The step that sets the marker writes every row of the file, and no step sets one
      without the other: a crash or a lost race leaves both as they were. */
  lemma MarkerAndRowsTogether(w: World, l: Label)
    ensures Imported(w, l).Some? <==> !w.marker && Next(w, l).marker
    ensures w.marker ==> Next(w, l).marker
    ensures Imported(w, l).Some? ==>
      forall n :: n in Imported(w, l).value ==> n in Next(w, l).rows && Next(w, l).rows[n] == Imported(w, l).value[n]
    ensures (l.Start? || l.Open? || l.Commit? || l.Crash?) && Imported(w, l).None? ==> Next(w, l).rows == w.rows
    ensures Imported(w, l).Some? ==> forall n :: n !in Imported(w, l).value ==>
      (n in Next(w, l).rows <==> n in w.rows) && (n in w.rows ==> Next(w, l).rows[n] == w.rows[n])
  {
  }

  /** How a start ends: it has loaded when there was nothing to import, when it imported, or when
      another start or a row admitted meanwhile beat it to the commit; not when it crashed, or
      when a row it meant to update had gone. */
  lemma StartEnds(w: World, i: nat)
    ensures PhaseOf(w, i).Idle? ==>
      (PhaseOf(Next(w, Start(i)), i).Loaded? <==> w.marker || w.file.None?)
    ensures PhaseOf(w, i).Idle? && !w.marker && w.file.Some? ==> PhaseOf(Next(w, Start(i)), i) == Reading(w.file.value)
    ensures PhaseOf(w, i).Reading? ==>
      PhaseOf(Next(w, Open(i)), i) == if w.marker then Loaded else Staged(PhaseOf(w, i).data, w.rows.Keys)
    ensures var p := PhaseOf(w, i);
      p.Staged? ==>
        var beaten := w.marker || (exists n :: n in p.data && n !in p.seen && n in w.rows);
        var gone := exists n :: n in p.data && n in p.seen && n !in w.rows;
        && (Imported(w, Commit(i)) == Some(p.data) <==> !beaten && !gone)
        && (PhaseOf(Next(w, Commit(i)), i).Loaded? <==> beaten || !gone)
    ensures !PhaseOf(Next(w, Crash(i)), i).Loaded?
  {
  }

  // ── Removal is final ───────────────────────────────────────────────────────

  predicate Mentions(ls: seq<Label>, n: string) {
    exists k :: 0 <= k < |ls| && (ls[k].Admit? || ls[k].Remove?) && ls[k].n == n
  }

  /** Some label of the run commits an import that names `n`. */
  predicate ImportsNode(w: World, ls: seq<Label>, n: string) {
    ls != [] &&
    var k := |ls| - 1;
    var found := Imported(Run(w, ls[..k]), ls[k]);
    ImportsNode(w, ls[..k], n) || (found.Some? && n in found.value)
  }

  /** Over any stretch in which nobody admits or removes `n` by hand, an absent node comes
      back if and only if an import naming it commits in that stretch. */
  lemma {:induction false} OnlyImportsReadmit(w: World, ls: seq<Label>, n: string)
    requires n !in w.rows && !Mentions(ls, n)
    ensures n in Run(w, ls).rows <==> ImportsNode(w, ls, n)
    ensures w.marker ==> Run(w, ls).marker && n !in Run(w, ls).rows
  {
    if ls != [] {
      var k := |ls| - 1;
      assert forall j :: 0 <= j < k ==> ls[..k][j] == ls[j];
      OnlyImportsReadmit(w, ls[..k], n);
      MarkerAndRowsTogether(Run(w, ls[..k]), ls[k]);
    }
  }

  /** Every removal made after the import is final, whatever starts, crashes or file changes
      follow, until somebody admits the node again. */
  lemma RemovedStaysRemoved(w: World, i: nat, n: string, ls: seq<Label>)
    requires w.marker && PhaseOf(w, i) == Loaded && !Mentions(ls, n)
    ensures n !in Run(Next(w, Remove(i, n)), ls).rows
  {
    OnlyImportsReadmit(Next(w, Remove(i, n)), ls, n);
  }

  lemma {:induction false} FreshStarter(starters: set<nat>) returns (j: nat)
    ensures j !in starters && forall i :: i in starters ==> i < j
  {
    if starters == {} {
      j := 0;
    } else {
      var i :| i in starters;
      var k := FreshStarter(starters - {i});
      assert forall x :: x in starters ==> x == i || x in starters - {i};
      j := if i < k then k else i + 1;
    }
  }

  /** While the marker is missing, a file that appears and one more start bring any node back. */
  lemma UnmarkedReadmits(w: World, j: nat, n: string, entry: string)
    requires !w.marker && PhaseOf(w, j) == Idle
    ensures n in Run(w, [FileBecomes(Some(map[n := entry])), Start(j), Open(j), Commit(j)]).rows
  {
    var a, b, c, d := FileBecomes(Some(map[n := entry])), Start(j), Open(j), Commit(j);
    var w1 := Next(w, a);
    var w2 := Next(w1, b);
    var w3 := Next(w2, c);
    assert [a][..0] == [] && Run(w, [a]) == w1;
    assert [a, b][..1] == [a] && Run(w, [a, b]) == w2;
    assert [a, b, c][..2] == [a, b] && Run(w, [a, b, c]) == w3;
    assert [a, b, c, d][..3] == [a, b, c] && Run(w, [a, b, c, d]) == Next(w3, d);
  }

  /** A removal is final, over every run that does not admit the node by hand, if and only if
      the marker is in the database when it is made. */
  lemma RemovalIsFinalIff(w: World, i: nat, n: string)
    requires PhaseOf(w, i) == Loaded
    ensures w.marker <==> forall ls :: !Mentions(ls, n) ==> n !in Run(Next(w, Remove(i, n)), ls).rows
  {
    if w.marker {
      forall ls | !Mentions(ls, n)
        ensures n !in Run(Next(w, Remove(i, n)), ls).rows
      {
        RemovedStaysRemoved(w, i, n, ls);
      }
    } else {
      var j := FreshStarter(w.phases.Keys);
      UnmarkedReadmits(Next(w, Remove(i, n)), j, n, "");
      var ls := [FileBecomes(Some(map[n := ""])), Start(j), Open(j), Commit(j)];
      assert !Mentions(ls, n);
    }
  }

  /** While the file is there from the first start, a control plane is loaded only once the
      import has committed, so every removal comes after it. */
  predicate Settled(w: World, rows: Rows) {
    && w.file.Some?
    && (!w.marker ==> w.rows == rows)
    && (forall i :: i in w.phases ==>
          && (w.phases[i].Loaded? ==> w.marker)
          && (w.phases[i].Staged? && !w.marker ==> w.phases[i].seen == rows.Keys))
  }

  lemma SettledStep(w: World, rows: Rows, l: Label)
    requires Settled(w, rows) && !l.FileBecomes?
    ensures Settled(Next(w, l), rows)
  {
  }

  lemma {:induction false} LoadedMeansImported(rows: Rows, file: Rows, ls: seq<Label>)
    requires forall k :: 0 <= k < |ls| ==> !ls[k].FileBecomes?
    ensures Settled(Run(Fresh(rows, Some(file)), ls), rows)
  {
    if ls != [] {
      LoadedMeansImported(rows, file, ls[..|ls| - 1]);
      SettledStep(Run(Fresh(rows, Some(file)), ls[..|ls| - 1]), rows, ls[|ls| - 1]);
    }
  }

  /** With the file in place throughout, a removed node is never readmitted by a start. */
  lemma NeverReadmitted(rows: Rows, file: Rows, before: seq<Label>, i: nat, n: string, after: seq<Label>)
    requires forall k :: 0 <= k < |before| ==> !before[k].FileBecomes?
    requires PhaseOf(Run(Fresh(rows, Some(file)), before), i) == Loaded && !Mentions(after, n)
    ensures n !in Run(Next(Run(Fresh(rows, Some(file)), before), Remove(i, n)), after).rows
  {
    LoadedMeansImported(rows, file, before);
    RemovedStaysRemoved(Run(Fresh(rows, Some(file)), before), i, n, after);
  }

  /** A first start that finds no file leaves no marker, so a file that appears later is
      imported by the next start, and a node removed meanwhile is back. */
  lemma LateFileReadmits(n: string, entry: string)
    ensures var w := Run(Fresh(map[], None), [Start(0), Admit(0, n, entry), Remove(0, n)]);
      && PhaseOf(w, 0) == Loaded && n !in w.rows && !w.marker
      && n in Run(w, [FileBecomes(Some(map[n := entry])), Start(1), Open(1), Commit(1)]).rows
  {
    var a := [Start(0), Admit(0, n, entry), Remove(0, n)];
    assert a[..2] == [Start(0), Admit(0, n, entry)] && a[..2][..1] == [Start(0)] && a[..2][..1][..0] == [];
    var w1 := Next(Fresh(map[], None), Start(0));
    assert Run(Fresh(map[], None), a[..2][..1]) == w1;
    var w := Next(Next(w1, Admit(0, n, entry)), Remove(0, n));
    assert Run(Fresh(map[], None), a) == w;
    var b := [FileBecomes(Some(map[n := entry])), Start(1), Open(1), Commit(1)];
    assert b[..3] == [b[0], b[1], b[2]] && b[..3][..2] == [b[0], b[1]] && b[..3][..2][..1] == [b[0]];
    assert b[..3][..2][..1][..0] == [];
    var w3 := Next(Next(Next(w, b[0]), b[1]), b[2]);
    assert Run(w, b[..3][..2][..1]) == Next(w, b[0]);
    assert Run(w, b[..3]) == w3;
    assert n in Next(w3, b[3]).rows;
  }
}
