/** The blob cache on disk: refreshed from the rows of a scope, then pruned. */
module Blobs {
  import opened BlobTrees
  import opened Order

  /** Digests are what `put` stored, and tell the disk's contents from the rows'. */
  ghost predicate Faithful(digest: Content -> string, files: map<Path, File>, rows: seq<Row>) {
    forall i :: 0 <= i < |rows| ==> FaithfulRow(digest, files, rows[i])
  }

  ghost predicate FaithfulRow(digest: Content -> string, files: map<Path, File>, r: Row) {
    && r.digest == digest(r.content)
    && (r.path in files && digest(files[r.path].content) == r.digest ==> files[r.path].content == r.content)
  }

  /** A run that raised has written some of the rows and removed nothing. */
  ghost predicate StoppedPartWay(files0: map<Path, File>, dirs0: set<Path>, rows: seq<Row>,
                                 files: map<Path, File>, dirs: set<Path>)
  {
    exists n :: 0 <= n < |rows|
             && files == files0 + Wanted(rows[..n]) && dirs == dirs0 + Directories(PathsOf(rows[..n]))
  }

  class Disk {
    var files: map<Path, File>
    var dirs: set<Path>

    ghost predicate Valid()
      reads this
    {
      Tree(files, dirs)
    }

    constructor (files: map<Path, File>, dirs: set<Path>)
      ensures this.files == files && this.dirs == dirs
    {
      this.files, this.dirs := files, dirs;
    }

    // `mkdir(parents=True)` on the parent, `write_bytes`, `chmod`; false if the path or one
    // of its ancestors is in the way.
    method WriteFile(p: Path, content: Content, mode: int) returns (ok: bool)
      requires Valid() && p != []
      modifies this
      ensures Valid()
      ensures ok <==> Free(old(files).Keys, old(dirs), p)
      ensures ok ==> files == old(files)[p := File(content, Bits(mode))] && dirs == old(dirs) + Ancestors(p)
      ensures !ok ==> files == old(files) && dirs == old(dirs)
    {
      AncestorsAreBelow(p);
      for k := 0 to |p|
        invariant files == old(files) && dirs == old(dirs)
        invariant forall j :: 0 <= j < k ==> p[..j] !in files
      {
        if p[..k] in files {
          assert Below(p[..k], p);
          return false;
        }
      }
      if p in dirs {
        return false;
      }
      assert forall q :: q in Ancestors(p) ==> q !in files;
      ghost var dirs0 := dirs;
      dirs := dirs + Ancestors(p);
      files := files[p := File(content, Bits(mode))];
      assert forall q, d :: q in Ancestors(p) && Below(d, q) ==> d in Ancestors(p) by {
        assert forall q, d :: Below(q, p) && Below(d, q) ==> Below(d, p);
      }
      ok := true;
    }

    // Everything below the destination, once each, in no particular order.
    method Listing() returns (s: seq<Path>)
      ensures multiset(s) == multiset(files.Keys + (dirs - {[]}))
    {
      s := [];
      var todo := files.Keys + (dirs - {[]});
      ghost var all := todo;
      while todo != {}
        invariant todo <= all && multiset(s) == multiset(all - todo)
        decreases todo
      {
        var p :| p in todo;
        assert all - (todo - {p}) == (all - todo) + {p};
        s := s + [p];
        todo := todo - {p};
      }
      assert all - todo == all;
    }

    method SortedListing() returns (order: seq<Path>)
      ensures Ordered(PathLe, order)
      ensures forall p :: p in order <==> p in files || (p in dirs && p != [])
      ensures forall i :: 0 <= i < |order| ==> order[i] !in order[..i]
    {
      var listing := Listing();
      order := Sort(PathLe, listing);
      PathsTotal();
      SortOrdered(PathLe, listing);
      ListsOnce(order, files.Keys + (dirs - {[]}));
    }

    method IsEmpty(d: Path) returns (empty: bool)
      requires Valid()
      ensures empty <==> HoldsNothing(files, dirs, d)
    {
      empty := forall p :: p in files.Keys + dirs ==> !(d <= p && |p| == |d| + 1);
      forall p | p in files.Keys + dirs && Below(d, p)
        ensures !empty
      {
        var child := p[..|d| + 1];
        assert child == p || Below(child, p);
        assert d <= child && child in files.Keys + dirs;
      }
      assert forall p :: d <= p && |p| == |d| + 1 ==> Below(d, p);
    }

    // One entry of the prune: unlink an unwanted file, remove an empty directory.
    method PruneEntry(p: Path, wanted: set<Path>) returns (unlinked: bool, removed: bool)
      requires Valid() && p != []
      modifies this
      ensures Valid()
      ensures unlinked <==> old(p in files && p !in wanted)
      ensures removed <==> old(p in dirs && HoldsNothing(files, dirs, p))
      ensures files == old(files) - (if unlinked then {p} else {})
      ensures dirs == old(dirs) - (if removed then {p} else {})
    {
      unlinked, removed := false, false;
      if p in files {
        if p !in wanted {
          files := files - {p};
          unlinked := true;
        }
      } else if p in dirs {
        removed := IsEmpty(p);
        if removed {
          dirs := dirs - {p};
        }
      }
    }

    // One pass over the reverse-sorted listing.
    method Prune(wanted: set<Path>) returns (unlinked: set<Path>, removed: set<Path>)
      requires Valid() && wanted <= files.Keys
      modifies this
      ensures Valid()
      ensures files == map p | p in old(files) && p in wanted :: old(files)[p]
      ensures dirs == DirsFor(wanted, old(dirs))
      ensures unlinked == old(files).Keys - wanted && removed == old(dirs) - dirs
    {
      var order := SortedListing();
      unlinked, removed := {}, {};
      ghost var files0, dirs0 := files, dirs;
      var i := |order|;
      while i > 0
        invariant 0 <= i <= |order|
        invariant Valid()
        invariant files == FilesAfter(files0, wanted, order[i..])
        invariant dirs == DirsAfter(dirs0, wanted, order[i..])
        invariant unlinked == files0.Keys - files.Keys && removed == dirs0 - dirs
      {
        i := i - 1;
        var p := order[i];
        PruneEntryIs(files0, dirs0, wanted, order, i);
        var u, r := PruneEntry(p, wanted);
        unlinked := unlinked + (if u then {p} else {});
        removed := removed + (if r then {p} else {});
      }
      assert order[0..] == order;
      VisitedAll(files0, dirs0, wanted, order);
    }

    // Brings one row up to date: nothing if the digest and the mode agree, the mode alone if
    // only the digest does, else the whole file.
    method RefreshRow(digest: Content -> string, r: Row) returns (ok: bool, wrote: bool, chmodded: bool)
      requires Valid() && r.path != [] && FaithfulRow(digest, files, r)
      modifies this
      ensures Valid()
      ensures ok <==> Free(old(files).Keys, old(dirs), r.path)
      ensures ok ==> files == old(files)[r.path := Asked(r)] && dirs == old(dirs) + Ancestors(r.path)
      ensures !ok ==> files == old(files) && dirs == old(dirs)
      ensures ok ==> (wrote <==> Outdated(old(files), r)) && (chmodded <==> Mismoded(old(files), r))
    {
      wrote, chmodded := false, false;
      if r.path in files && digest(files[r.path].content) == r.digest {
        FilesAreFree(files, dirs, r.path);
        if files[r.path].mode != r.mode {
          files := files[r.path := File(files[r.path].content, Bits(r.mode))];
          chmodded := true;
        }
        ok := true;
      } else {
        ok := WriteFile(r.path, r.content, r.mode);
        wrote := ok;
      }
    }

    method Refresh(digest: Content -> string, rows: seq<Row>) returns (ok: bool, done: Changes)
      requires Valid() && Keyed(rows) && Faithful(digest, files, rows)
      modifies this
      ensures Valid()
      ensures ok <==> Fits(old(files).Keys, old(dirs), PathsOf(rows))
      ensures ok ==> files == old(files) + Wanted(rows) && dirs == old(dirs) + Directories(PathsOf(rows))
      ensures ok ==> done == Changes(ToWrite(old(files), rows), ToChmod(old(files), rows), {}, {})
      ensures !ok ==> StoppedPartWay(old(files), old(dirs), rows, files, dirs)
    {
      done := NO_CHANGES;
      ghost var files0, dirs0 := files, dirs;
      for i := 0 to |rows|
        invariant Valid()
        invariant files == files0 + Wanted(rows[..i]) && dirs == dirs0 + Directories(PathsOf(rows[..i]))
        invariant Fits(files0.Keys, dirs0, PathsOf(rows[..i]))
        invariant done == Changes(ToWrite(files0, rows[..i]), ToChmod(files0, rows[..i]), {}, {})
      {
        RefreshStep(files0, dirs0, rows, i);
        RefreshFits(files0, dirs0, rows, i);
        OneMoreChange(files0, rows, i);
        var wrote, chmodded;
        ok, wrote, chmodded := RefreshRow(digest, rows[i]);
        if !ok {
          return;
        }
        done := Changes(done.written + (if wrote then {rows[i].path} else {}),
                        done.chmodded + (if chmodded then {rows[i].path} else {}), {}, {});
      }
      assert rows[..|rows|] == rows;
      ok := true;
    }

    // The cache refresh. `rows` are the scope's rows, in whatever order the store returns them.
    method Materialize(digest: Content -> string, rows: seq<Row>) returns (ok: bool, done: Changes)
      requires Valid() && Keyed(rows) && Faithful(digest, files, rows)
      modifies this
      ensures Valid()
      ensures ok <==> Fits(old(files).Keys, old(dirs), PathsOf(rows))
      ensures !ok ==> StoppedPartWay(old(files), old(dirs), rows, files, dirs)
      ensures rows == [] ==> files == old(files) && dirs == old(dirs) && done == NO_CHANGES
      ensures ok && rows != [] ==>
        && files == Wanted(rows) && dirs == {[]} + Directories(PathsOf(rows))
        && done == Changes(ToWrite(old(files), rows), ToChmod(old(files), rows),
                           old(files).Keys - PathsOf(rows), old(dirs) - dirs)
    {
      ghost var files0, dirs0 := files, dirs;
      ok, done := Refresh(digest, rows);
      if rows == [] {
        EmptyScope(files0, dirs0, rows);
        return;
      }
      if !ok {
        return;
      }
      WantedPaths(rows);
      ghost var dirs1 := dirs;
      var unlinked, removed := Prune(Wanted(rows).Keys);
      DirsForScope(dirs0, PathsOf(rows));
      assert [] in dirs0;
      PruneLeaves(files0, rows);
      assert removed == dirs0 - dirs;
      done := done.(unlinked := unlinked, removed := removed);
    }
  }

  lemma EmptyScope(files: map<Path, File>, dirs: set<Path>, rows: seq<Row>)
    requires rows == []
    ensures Fits(files.Keys, dirs, PathsOf(rows)) && files + Wanted(rows) == files
    ensures dirs + Directories(PathsOf(rows)) == dirs
    ensures ToWrite(files, rows) == {} && ToChmod(files, rows) == {}
  {
  }

  lemma PruneLeaves(files: map<Path, File>, rows: seq<Row>)
    ensures var all := files + Wanted(rows);
      && (map p | p in all && p in Wanted(rows).Keys :: all[p]) == Wanted(rows)
      && all.Keys - Wanted(rows).Keys == files.Keys - PathsOf(rows)
  {
    WantedPaths(rows);
  }

  /** What visiting the next entry must do to keep the part-way state. */
  lemma PruneEntryIs(files: map<Path, File>, dirs: set<Path>, wanted: set<Path>, order: seq<Path>, i: int)
    requires Tree(files, dirs) && wanted <= files.Keys && 0 <= i < |order| && Ordered(PathLe, order)
    requires forall p :: p in order <==> p in files || (p in dirs && p != [])
    ensures var p, visited := order[i], order[i + 1..];
      var f, d := FilesAfter(files, wanted, visited), DirsAfter(dirs, wanted, visited);
      && p != []
      && FilesAfter(files, wanted, order[i..]) == f - (if p in f && p !in wanted then {p} else {})
      && DirsAfter(dirs, wanted, order[i..]) == d - (if p in d && HoldsNothing(f, d, p) then {p} else {})
  {
    var p, visited := order[i], order[i + 1..];
    assert order[i..] == [p] + visited;
    assert p in order;
    Visit(files, dirs, wanted, visited, p);
    VisitedBelow(order, i);
    EmptyMeansUnwanted(files, dirs, wanted, visited, p);
  }

  /** What refreshing row `i` must do to keep the part-way state. */
  lemma RefreshStep(files: map<Path, File>, dirs: set<Path>, rows: seq<Row>, i: nat)
    requires Keyed(rows) && i < |rows|
    ensures var f, d, r := files + Wanted(rows[..i]), dirs + Directories(PathsOf(rows[..i])), rows[i];
      && (r.path in f <==> r.path in files) && (r.path in files ==> f[r.path] == files[r.path])
      && files + Wanted(rows[..i + 1]) == f[r.path := Asked(r)]
      && dirs + Directories(PathsOf(rows[..i + 1])) == d + Ancestors(r.path)
  {
    NotYet(rows, i);
    WantedPaths(rows[..i]);
    OneMoreWanted(rows, i);
    OneMorePath(rows, i);
    OneMoreDirectory(PathsOf(rows[..i]), rows[i].path);
    UpdateLast(files, Wanted(rows[..i]), rows[i].path, Asked(rows[i]));
    UnionLast(dirs, Directories(PathsOf(rows[..i])), Ancestors(rows[i].path));
  }

  lemma UpdateLast(files: map<Path, File>, wanted: map<Path, File>, p: Path, f: File)
    ensures files + wanted[p := f] == (files + wanted)[p := f]
    ensures p !in wanted && p in files ==> (files + wanted)[p] == files[p]
  {
  }

  lemma UnionLast(a: set<Path>, b: set<Path>, c: set<Path>)
    ensures a + (b + c) == a + b + c
  {
  }

  /** Row `i` can be written exactly when the rows so far still fit, and a row that cannot be
      written means the scope does not fit. */
  lemma RefreshFits(files: map<Path, File>, dirs: set<Path>, rows: seq<Row>, i: nat)
    requires i < |rows| && Fits(files.Keys, dirs, PathsOf(rows[..i]))
    ensures var f, d := files + Wanted(rows[..i]), dirs + Directories(PathsOf(rows[..i]));
      && (Free(f.Keys, d, rows[i].path) <==> Fits(files.Keys, dirs, PathsOf(rows[..i + 1])))
      && (!Free(f.Keys, d, rows[i].path) ==> !Fits(files.Keys, dirs, PathsOf(rows)))
  {
    WantedPaths(rows[..i]);
    OneMorePath(rows, i);
    FitsRowByRow(files.Keys, dirs, PathsOf(rows[..i]), rows[i].path);
    assert (files + Wanted(rows[..i])).Keys == files.Keys + PathsOf(rows[..i]);
    if Fits(files.Keys, dirs, PathsOf(rows)) {
      PathsOfPrefix(rows, i + 1);
      FitsShrinks(files.Keys, dirs, PathsOf(rows[..i + 1]), PathsOf(rows));
    }
  }

  lemma PathsOfPrefix(rows: seq<Row>, n: nat)
    requires n <= |rows|
    ensures PathsOf(rows[..n]) <= PathsOf(rows)
  {
  }

  lemma FitsEmptyDisk(files: set<Path>, dirs: set<Path>, paths: set<Path>)
    requires [] in dirs && Fits(files, dirs, paths)
    ensures Fits({}, {[]}, paths)
  {
    forall p | p in paths
      ensures Free({} + paths, {[]}, p)
    {
      assert Free(files + paths, dirs, p);
    }
  }

  /** Two runs in a row: whenever the first succeeds the second does, leaves every file and
      directory as it was, and touches only the modes no file can be read to have. */
  method MaterializeTwice(disk: Disk, digest: Content -> string, rows: seq<Row>)
    returns (ok: bool, first: Changes, again: bool, second: Changes)
    requires disk.Valid() && Keyed(rows) && Faithful(digest, disk.files, rows)
    modifies disk
    ensures ok <==> Fits(old(disk.files).Keys, old(disk.dirs), PathsOf(rows))
    ensures ok ==> again && second == Changes({}, if rows == [] then {} else Unreadable(rows), {}, {})
    ensures ok && rows != [] ==>
      disk.files == Wanted(rows) && disk.dirs == {[]} + Directories(PathsOf(rows))
  {
    ghost var files, dirs := disk.files, disk.dirs;
    ok, first := disk.Materialize(digest, rows);
    again, second := ok, NO_CHANGES;
    if ok {
      FitsEmptyDisk(files.Keys, dirs, PathsOf(rows));
      SecondRun(rows);
      StaysFaithful(digest, files, rows);
      again, second := disk.Materialize(digest, rows);
    }
  }

  lemma StaysFaithful(digest: Content -> string, files: map<Path, File>, rows: seq<Row>)
    requires Keyed(rows) && Faithful(digest, files, rows)
    ensures Faithful(digest, Wanted(rows), rows)
  {
    WantedIs(rows);
    forall i | 0 <= i < |rows|
      ensures FaithfulRow(digest, Wanted(rows), rows[i])
    {
      assert FaithfulRow(digest, files, rows[i]);
    }
  }
}
