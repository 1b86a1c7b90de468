/** Directory trees and the scopes written into them. Paths are sequences of components relative
    to the destination, which is the empty path. */
module BlobTrees {
  import opened Order

  type Path = seq<string>
  type Content = seq<bv8>

  /** The nine permission bits. */
  type Mode = m: nat | m < 0x200

  /** What `st_mode & 0o777` reads after a `chmod` to any number. */
  function Bits(mode: int): Mode { mode % 0x200 }

  datatype File = File(content: Content, mode: Mode)

  /** One stored file. The mode is whatever number was put; `digest` is what `put` computed from the content. */
  datatype Row = Row(path: Path, content: Content, mode: int, digest: string)

  function Asked(r: Row): File { File(r.content, Bits(r.mode)) }

  // ── Trees ──────────────────────────────────────────────────────────────────

  predicate Below(q: Path, p: Path) { q < p }

  /** A directory tree: no path is both, and whatever exists lies in directories. */
  ghost predicate Tree(files: map<Path, File>, dirs: set<Path>) {
    && [] in dirs && files.Keys !! dirs
    && (forall p, q :: (p in files || p in dirs) && Below(q, p) ==> q in dirs)
  }

  ghost predicate AboveSome(paths: set<Path>, d: Path) { exists p :: p in paths && Below(d, p) }

  function Ancestors(p: Path): set<Path> { set k | 0 <= k < |p| :: p[..k] }

  ghost function Directories(paths: set<Path>): set<Path> { set p, k | p in paths && 0 <= k < |p| :: p[..k] }

  lemma AncestorsAreBelow(p: Path)
    ensures forall q :: q in Ancestors(p) <==> Below(q, p)
  {
    assert forall q :: Below(q, p) ==> p[..|q|] == q;
  }

  lemma DirectoriesAreAbove(paths: set<Path>)
    ensures forall d :: d in Directories(paths) <==> AboveSome(paths, d)
  {
    forall d
      ensures d in Directories(paths) <==> AboveSome(paths, d)
    {
      assert forall p :: Below(d, p) ==> p[..|d|] == d;
      assert forall p, k :: p in paths && 0 <= k < |p| && p[..k] == d ==> Below(d, p);
    }
  }

  lemma OneMoreDirectory(paths: set<Path>, p: Path)
    ensures Directories(paths + {p}) == Directories(paths) + Ancestors(p)
  {
  }

  // ── Scopes ─────────────────────────────────────────────────────────────────

  function PathsOf(rows: seq<Row>): set<Path> { set i | 0 <= i < |rows| :: rows[i].path }

  /** The files a scope asks for. */
  function Wanted(rows: seq<Row>): map<Path, File> {
    if rows == [] then map[]
    else Wanted(rows[..|rows| - 1])[rows[|rows| - 1].path := Asked(rows[|rows| - 1])]
  }

  /** Rows of one scope: the path is their key, and it names something. */
  predicate Keyed(rows: seq<Row>) {
    && (forall i :: 0 <= i < |rows| ==> rows[i].path != [])
    && (forall i, j :: 0 <= i < j < |rows| ==> rows[i].path != rows[j].path)
  }

  lemma OneMorePath(rows: seq<Row>, i: nat)
    requires i < |rows|
    ensures PathsOf(rows[..i + 1]) == PathsOf(rows[..i]) + {rows[i].path}
  {
  }

  lemma OneMoreWanted(rows: seq<Row>, i: nat)
    requires i < |rows|
    ensures Wanted(rows[..i + 1]) == Wanted(rows[..i])[rows[i].path := Asked(rows[i])]
  {
    var b := rows[..i + 1];
    assert b[..i] == rows[..i] && b[i] == rows[i];
  }

  lemma {:induction false} WantedPaths(rows: seq<Row>)
    ensures Wanted(rows).Keys == PathsOf(rows)
  {
    if rows != [] {
      var k := |rows| - 1;
      WantedPaths(rows[..k]);
      assert rows[..k + 1] == rows;
      OneMorePath(rows, k);
    }
  }

  lemma NotYet(rows: seq<Row>, i: nat)
    requires Keyed(rows) && i < |rows|
    ensures Keyed(rows[..i]) && rows[i].path !in PathsOf(rows[..i])
  {
  }

  lemma {:induction false} WantedIs(rows: seq<Row>)
    requires Keyed(rows)
    ensures Wanted(rows).Keys == PathsOf(rows)
    ensures forall i :: 0 <= i < |rows| ==> Wanted(rows)[rows[i].path] == Asked(rows[i])
  {
    WantedPaths(rows);
    if rows != [] {
      var k := |rows| - 1;
      var a := rows[..k];
      NotYet(rows, k);
      WantedIs(a);
      assert forall i :: 0 <= i < k ==> a[i] == rows[i];
    }
  }

  // ── Fitting ────────────────────────────────────────────────────────────────

  /** A file can be written at `p`: no directory is there and no file is above it. */
  ghost predicate Free(files: set<Path>, dirs: set<Path>, p: Path) {
    p !in dirs && forall q :: q in files ==> !Below(q, p)
  }

  /** No wanted path names a directory of the disk, lies under a file of the disk, or lies
      under another wanted path. */
  ghost predicate Fits(files: set<Path>, dirs: set<Path>, paths: set<Path>) {
    forall p :: p in paths ==> Free(files + paths, dirs, p)
  }

  /** A scope that fits can be written one row at a time in any order, and one that does not
      is stopped by a row. */
  lemma FitsRowByRow(files: set<Path>, dirs: set<Path>, paths: set<Path>, p: Path)
    requires Fits(files, dirs, paths)
    ensures Fits(files, dirs, paths + {p}) <==> Free(files + paths, dirs + Directories(paths), p)
  {
    DirectoriesAreAbove(paths);
    var after := paths + {p};
    if Fits(files, dirs, after) {
      assert Free(files + after, dirs, p);
      assert forall q :: q in paths ==> Free(files + after, dirs, q);
      assert forall q :: q in paths ==> !Below(p, q);
    } else {
      var q :| q in after && !Free(files + after, dirs, q);
      assert q != p ==> Free(files + paths, dirs, q);
      assert q != p ==> Below(p, q);
    }
  }

  lemma FitsShrinks(files: set<Path>, dirs: set<Path>, fewer: set<Path>, paths: set<Path>)
    requires fewer <= paths && Fits(files, dirs, paths)
    ensures Fits(files, dirs, fewer)
  {
  }

  lemma FilesAreFree(files: map<Path, File>, dirs: set<Path>, p: Path)
    requires Tree(files, dirs) && p in files
    ensures Free(files.Keys, dirs, p) && Ancestors(p) <= dirs
  {
  }

  // ── What a run changes ─────────────────────────────────────────────────────

  /** The paths a run wrote, re-moded in place, unlinked and removed as empty. */
  datatype Changes = Changes(written: set<Path>, chmodded: set<Path>, unlinked: set<Path>, removed: set<Path>)

  const NO_CHANGES := Changes({}, {}, {}, {})

  /** The content on disk is not the row's. */
  predicate Outdated(files: map<Path, File>, r: Row) {
    r.path !in files || files[r.path].content != r.content
  }

  /** The content on disk is the row's; the mode read there is not. */
  predicate Mismoded(files: map<Path, File>, r: Row) {
    !Outdated(files, r) && files[r.path].mode != r.mode
  }

  function ToWrite(files: map<Path, File>, rows: seq<Row>): set<Path> {
    set i | 0 <= i < |rows| && Outdated(files, rows[i]) :: rows[i].path
  }

  function ToChmod(files: map<Path, File>, rows: seq<Row>): set<Path> {
    set i | 0 <= i < |rows| && Mismoded(files, rows[i]) :: rows[i].path
  }

  lemma OneMoreChange(files: map<Path, File>, rows: seq<Row>, i: nat)
    requires i < |rows|
    ensures ToWrite(files, rows[..i + 1])
         == ToWrite(files, rows[..i]) + (if Outdated(files, rows[i]) then {rows[i].path} else {})
    ensures ToChmod(files, rows[..i + 1])
         == ToChmod(files, rows[..i]) + (if Mismoded(files, rows[i]) then {rows[i].path} else {})
  {
  }

  ghost function DirsFor(paths: set<Path>, dirs: set<Path>): set<Path> {
    set d | d in dirs && (d == [] || AboveSome(paths, d))
  }

  lemma DirsForScope(dirs: set<Path>, paths: set<Path>)
    requires [] in dirs
    ensures DirsFor(paths, dirs + Directories(paths)) == {[]} + Directories(paths)
  {
    DirectoriesAreAbove(paths);
  }

  /** Rows whose mode no file can be read to have. */
  function Unreadable(rows: seq<Row>): set<Path> {
    set i | 0 <= i < |rows| && rows[i].mode != Bits(rows[i].mode) :: rows[i].path
  }

  /** On the disk a run leaves, the scope fits, nothing is outdated or unwanted and no directory
      is empty; the files re-moded again, on every run, are those whose row asks for more than
      the nine bits. */
  lemma SecondRun(rows: seq<Row>)
    requires Keyed(rows) && Fits({}, {[]}, PathsOf(rows))
    ensures var files, dirs := Wanted(rows), {[]} + Directories(PathsOf(rows));
      && Fits(files.Keys, dirs, PathsOf(rows))
      && ToWrite(files, rows) == {} && ToChmod(files, rows) == Unreadable(rows)
      && files.Keys - PathsOf(rows) == {} && dirs - DirsFor(PathsOf(rows), dirs) == {}
  {
    WantedIs(rows);
    var paths := PathsOf(rows);
    DirectoriesAreAbove(paths);
    forall p | p in paths
      ensures Free(paths + paths, {[]} + Directories(paths), p)
    {
      assert Free({} + paths, {[]}, p);
      assert forall q :: q in paths ==> Free({} + paths, {[]}, q);
      assert !AboveSome(paths, p);
    }
  }

  /** So a second run changes nothing if and only if every row's mode is nine bits. */
  lemma SecondRunIsIdleIff(rows: seq<Row>)
    requires Keyed(rows) && Fits({}, {[]}, PathsOf(rows))
    ensures var files, dirs := Wanted(rows), {[]} + Directories(PathsOf(rows));
      Changes(ToWrite(files, rows), ToChmod(files, rows), files.Keys - PathsOf(rows),
              dirs - DirsFor(PathsOf(rows), dirs)) == NO_CHANGES
      <==> forall i :: 0 <= i < |rows| ==> 0 <= rows[i].mode < 0x200
  {
    SecondRun(rows);
    NoneUnreadable(rows);
  }

  lemma NoneUnreadable(rows: seq<Row>)
    ensures Unreadable(rows) == {} <==> forall i :: 0 <= i < |rows| ==> 0 <= rows[i].mode < 0x200
  {
    forall i | 0 <= i < |rows|
      ensures 0 <= rows[i].mode < 0x200 <==> rows[i].mode == Bits(rows[i].mode)
      ensures rows[i].path in Unreadable(rows) || rows[i].mode == Bits(rows[i].mode)
    {
    }
  }

  /** Only what the rows say matters, not the order the store returned them in. */
  lemma OrderDoesNotMatter(a: seq<Row>, b: seq<Row>)
    requires Keyed(a) && Keyed(b) && multiset(a) == multiset(b)
    ensures Wanted(a) == Wanted(b) && PathsOf(a) == PathsOf(b)
  {
    WantedIs(a);
    WantedIs(b);
    forall i | 0 <= i < |a|
      ensures a[i].path in Wanted(b) && Wanted(b)[a[i].path] == Wanted(a)[a[i].path]
    {
      SameMembers(a, b, a[i]);
    }
    forall i | 0 <= i < |b|
      ensures b[i].path in Wanted(a)
    {
      SameMembers(b, a, b[i]);
    }
    assert Wanted(a).Keys == Wanted(b).Keys;
  }

  /** A tree's own files always fit an empty directory, and come back with exactly the
      directories that hold a file: all of them just when the tree has no empty one. */
  lemma TreeRebuilds(files: map<Path, File>, dirs: set<Path>)
    requires Tree(files, dirs)
    ensures Fits({}, {[]}, files.Keys)
    ensures {[]} + Directories(files.Keys) <= dirs
    ensures {[]} + Directories(files.Keys) == dirs
       <==> forall d :: d in dirs && d != [] ==> AboveSome(files.Keys, d)
  {
    DirectoriesAreAbove(files.Keys);
    forall p | p in files
      ensures Free({} + files.Keys, {[]}, p)
    {
      FilesAreFree(files, dirs, p);
    }
  }

  // ── The order of the prune ─────────────────────────────────────────────────

  predicate CharLe(a: char, b: char) { a <= b }

  predicate NameLe(a: string, b: string) { LexLe(CharLe, a, b) }

  predicate PathLe(a: Path, b: Path) { LexLe(NameLe, a, b) }

  lemma NamesTotal()
    ensures TotalOrder(NameLe)
  {
    assert TotalOrder(CharLe);
    forall a, b
      ensures (NameLe(a, b) || NameLe(b, a)) && (NameLe(a, b) && NameLe(b, a) ==> a == b)
    {
      LexLinear(CharLe, a, b);
    }
    forall a, b, c | NameLe(a, b) && NameLe(b, c)
      ensures NameLe(a, c)
    {
      LexTransitive(CharLe, a, b, c);
    }
  }

  lemma PathsTotal()
    ensures TotalOrder(PathLe)
  {
    NamesTotal();
    forall a, b
      ensures (PathLe(a, b) || PathLe(b, a)) && (PathLe(a, b) && PathLe(b, a) ==> a == b)
    {
      LexLinear(NameLe, a, b);
    }
    forall a, b, c | PathLe(a, b) && PathLe(b, c)
      ensures PathLe(a, c)
    {
      LexTransitive(NameLe, a, b, c);
    }
  }

  /** In a listing sorted by path, no path comes before one of its ancestors; so read
      backwards, every descendant comes before its ancestors. */
  lemma SortedAncestorsFirst(s: seq<Path>, i: int, j: int)
    requires 0 <= i < |s| && 0 <= j < |s| && Ordered(PathLe, s) && Below(s[i], s[j])
    ensures i < j
  {
    PathsTotal();
    PrefixLexLe(NameLe, s[i], s[j]);
    if j < i {
      assert PathLe(s[j], s[i]) && PathLe(s[i], s[j]);
    }
  }

  lemma ListsOnce(s: seq<Path>, paths: set<Path>)
    requires multiset(s) == multiset(paths)
    ensures forall p :: p in s <==> p in paths
    ensures forall i :: 0 <= i < |s| ==> s[i] !in s[..i]
  {
    forall p
      ensures p in s <==> p in paths
    {
      assert p in s <==> p in multiset(s);
    }
    forall i | 0 <= i < |s|
      ensures s[i] !in s[..i]
    {
      assert s == s[..i] + ([s[i]] + s[i + 1..]);
      assert multiset(s)[s[i]] <= 1;
      assert s[i] !in multiset(s[..i]);
    }
  }

  lemma VisitedBelow(order: seq<Path>, i: int)
    requires 0 <= i < |order| && Ordered(PathLe, order)
    ensures forall q :: q in order && Below(order[i], q) ==> q in order[i + 1..]
  {
    forall q | q in order && Below(order[i], q)
      ensures q in order[i + 1..]
    {
      var j :| 0 <= j < |order| && order[j] == q;
      SortedAncestorsFirst(order, i, j);
      assert order[i + 1..][j - i - 1] == q;
    }
  }

  // ── Pruning, part-way ──────────────────────────────────────────────────────

  function FilesAfter(files: map<Path, File>, wanted: set<Path>, visited: seq<Path>): map<Path, File> {
    map p | p in files && (p in wanted || p !in visited) :: files[p]
  }

  ghost function DirsAfter(dirs: set<Path>, wanted: set<Path>, visited: seq<Path>): set<Path> {
    set d | d in dirs && (d !in visited || d == [] || AboveSome(wanted, d))
  }

  ghost predicate HoldsNothing(files: map<Path, File>, dirs: set<Path>, d: Path) {
    forall p :: p in files || p in dirs ==> !Below(d, p)
  }

  lemma Visit(files: map<Path, File>, dirs: set<Path>, wanted: set<Path>, visited: seq<Path>, p: Path)
    requires p != []
    ensures FilesAfter(files, wanted, [p] + visited)
         == FilesAfter(files, wanted, visited) - (if p in wanted then {} else {p})
    ensures DirsAfter(dirs, wanted, [p] + visited)
         == DirsAfter(dirs, wanted, visited) - (if AboveSome(wanted, p) then {} else {p})
  {
  }

  /** When everything below a directory has been visited, it is empty exactly when no wanted
      file lies below it. */
  lemma EmptyMeansUnwanted(files: map<Path, File>, dirs: set<Path>, wanted: set<Path>, visited: seq<Path>, d: Path)
    requires Tree(files, dirs) && wanted <= files.Keys
    requires forall q :: (q in files || q in dirs) && Below(d, q) ==> q in visited
    ensures HoldsNothing(FilesAfter(files, wanted, visited), DirsAfter(dirs, wanted, visited), d)
       <==> !AboveSome(wanted, d)
  {
  }

  lemma VisitedAll(files: map<Path, File>, dirs: set<Path>, wanted: set<Path>, visited: seq<Path>)
    requires forall p :: p in visited <==> p in files || (p in dirs && p != [])
    ensures FilesAfter(files, wanted, visited) == map p | p in files && p in wanted :: files[p]
    ensures DirsAfter(dirs, wanted, visited) == DirsFor(wanted, dirs)
  {
  }
}
