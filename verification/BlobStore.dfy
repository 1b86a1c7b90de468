/** The table of stored files, by scope and then by checked path. A checked path is kept here as
    its components, which identify it (`BlobPaths.CheckedIdentifies`). */
module BlobStore {
  import opened Wrappers
  import opened BlobPaths
  import opened BlobTrees
  import opened Blobs
  import opened Order

  datatype Stored = Stored(content: Content, mode: int, digest: string)

  type Scope = map<Path, Stored>

  /** Component names a filesystem hands out. */
  predicate Named(p: Path) { p != [] && Clean(p) && ".." !in p }

  function AsFile(s: Stored): File { File(s.content, Bits(s.mode)) }

  function FilesOf(stored: Scope): map<Path, File> { map p | p in stored :: AsFile(stored[p]) }

  function StoredAs(digest: Content -> string, files: map<Path, File>): Scope {
    map p | p in files :: Stored(files[p].content, files[p].mode, digest(files[p].content))
  }

  ghost predicate Sound(digest: Content -> string, stored: Scope) {
    forall p :: p in stored ==> Named(p) && stored[p].digest == digest(stored[p].content)
  }

  class Store {
    const digest: Content -> string
    var scopes: map<string, Scope>

    ghost predicate Valid()
      reads this
    {
      forall s :: s in scopes ==> Sound(digest, scopes[s])
    }

    function Rows(scope: string): Scope
      reads this
    {
      if scope in scopes then scopes[scope] else map[]
    }

    constructor (digest: Content -> string)
      ensures Valid() && scopes == map[] && this.digest == digest
    {
      this.digest, scopes := digest, map[];
    }

    method Put(scope: string, path: string, content: Content, mode: int) returns (r: Result<string, PathError>)
      requires Valid()
      modifies this
      ensures Valid()
      ensures Checked(path).Err? ==> r == Err(Checked(path).error) && scopes == old(scopes)
      ensures Checked(path).Ok? ==>
        && r == Ok(digest(content))
        && scopes == old(scopes)[scope := old(Rows(scope))[Parts(path) := Stored(content, mode, digest(content))]]
    {
      var safe := Checked(path);
      if safe.Err? {
        return Err(safe.error);
      }
      CheckedIsSafe(path, []);
      PartsClean(path);
      var key := Parts(safe.value);
      var fingerprint := digest(content);
      var rows := Rows(scope);
      if key !in rows {
        rows := rows[key := Stored(content, mode, fingerprint)];
      } else {
        rows := rows[key := rows[key].(content := content, mode := mode, digest := fingerprint)];
      }
      scopes := scopes[scope := rows];
      return Ok(fingerprint);
    }

    // The rows of one scope, in no particular order.
    method Select(scope: string) returns (rows: seq<Row>)
      requires Valid()
      ensures Keyed(rows) && Wanted(rows) == FilesOf(Rows(scope))
      ensures forall i :: 0 <= i < |rows| ==> rows[i].digest == digest(rows[i].content)
    {
      rows := [];
      var stored := Rows(scope);
      var todo := stored.Keys;
      ghost var seen: Scope := map[];
      while todo != {}
        invariant todo <= stored.Keys && seen == stored - todo
        invariant Keyed(rows) && Wanted(rows) == FilesOf(seen)
        invariant forall i :: 0 <= i < |rows| ==> rows[i].digest == digest(rows[i].content)
        decreases todo
      {
        var p :| p in todo;
        SelectStep(rows, seen, p, stored[p]);
        assert stored - (todo - {p}) == seen[p := stored[p]];
        rows := rows + [Row(p, stored[p].content, stored[p].mode, stored[p].digest)];
        seen := seen[p := stored[p]];
        todo := todo - {p};
      }
    }

    method PutFile(scope: string, p: Path, f: File)
      requires Valid() && Named(p)
      modifies this
      ensures Valid()
      ensures Rows(scope) == old(Rows(scope))[p := Stored(f.content, f.mode, digest(f.content))]
      ensures forall s :: s != scope ==> Rows(s) == old(Rows(s))
    {
      PartsOfJoin(p);
      CheckedIsSafe(Join(p), []);
      var _ := Put(scope, Join(p), f.content, f.mode);
    }

    // Stores every file below a directory, in path order, and counts them.
    method ImportTree(scope: string, source: Disk) returns (stored: nat)
      requires Valid() && forall p :: p in source.files ==> Named(p)
      modifies this
      ensures Valid()
      ensures stored == |source.files|
      ensures Rows(scope) == old(Rows(scope)) + StoredAs(digest, source.files)
      ensures forall s :: s != scope ==> Rows(s) == old(Rows(s))
    {
      var items := source.SortedListing();
      stored := 0;
      ghost var files, before := source.files, Rows(scope);
      Unlisted(files);
      for i := 0 to |items|
        invariant Valid() && stored == |Listed(files, items[..i])|
        invariant Rows(scope) == before + StoredAs(digest, Listed(files, items[..i]))
        invariant forall s :: s != scope ==> Rows(s) == old(Rows(s))
      {
        var p := items[i];
        OneMoreListed(files, items, i);
        if p in source.files {
          StoreStep(before, digest, Listed(files, items[..i]), p, files[p]);
          PutFile(scope, p, source.files[p]);
          stored := stored + 1;
        }
      }
      assert items[..|items|] == items;
      assert Listed(files, items) == files;
    }
  }

  ghost function Listed(files: map<Path, File>, visited: seq<Path>): map<Path, File> {
    map p | p in files && p in visited :: files[p]
  }

  lemma Unlisted(files: map<Path, File>)
    ensures Listed(files, []) == map[]
  {
  }

  lemma OneMoreListed(files: map<Path, File>, items: seq<Path>, i: nat)
    requires i < |items| && items[i] !in items[..i]
    ensures items[i] !in Listed(files, items[..i])
    ensures Listed(files, items[..i + 1])
         == if items[i] in files then Listed(files, items[..i])[items[i] := files[items[i]]] else Listed(files, items[..i])
  {
  }

  lemma SelectStep(rows: seq<Row>, seen: Scope, p: Path, v: Stored)
    requires Keyed(rows) && Wanted(rows) == FilesOf(seen) && p !in seen && p != []
    ensures var row := Row(p, v.content, v.mode, v.digest);
      Keyed(rows + [row]) && Wanted(rows + [row]) == FilesOf(seen[p := v])
  {
    var row := Row(p, v.content, v.mode, v.digest);
    WantedPaths(rows);
    assert p !in PathsOf(rows);
    assert (rows + [row])[..|rows|] == rows;
    assert FilesOf(seen[p := v]) == FilesOf(seen)[p := AsFile(v)];
  }

  lemma StoreStep(before: Scope, digest: Content -> string, done: map<Path, File>, p: Path, f: File)
    ensures before + StoredAs(digest, done[p := f])
         == (before + StoredAs(digest, done))[p := Stored(f.content, f.mode, digest(f.content))]
  {
  }

  /** Importing a tree of at least one file into an empty scope and materialising it into an
      empty directory reproduces every file, and every directory that is not empty. */
  method CopyThroughStore(store: Store, scope: string, source: Disk, target: Disk)
    returns (ok: bool, done: Changes)
    requires store.Valid() && source.Valid() && source != target
    requires source.files != map[] && forall p :: p in source.files ==> Named(p)
    requires store.Rows(scope) == map[] && target.files == map[] && target.dirs == {[]}
    modifies store, target
    ensures ok && target.files == source.files
    ensures target.dirs <= source.dirs
    ensures target.dirs == source.dirs
       <==> forall d :: d in source.dirs && d != [] ==> AboveSome(source.files.Keys, d)
    ensures done == Changes(source.files.Keys, {}, {}, {})
  {
    ghost var files, dirs := source.files, source.dirs;
    var rows := ImportAndSelect(store, scope, source);
    ok, done := target.Materialize(store.digest, rows);
    RowsRebuild(files, dirs, rows);
  }

  method ImportAndSelect(store: Store, scope: string, source: Disk) returns (rows: seq<Row>)
    requires store.Valid() && store.Rows(scope) == map[] && forall p :: p in source.files ==> Named(p)
    modifies store
    ensures Keyed(rows) && Wanted(rows) == source.files && Faithful(store.digest, map[], rows)
  {
    var _ := store.ImportTree(scope, source);
    rows := store.Select(scope);
    StoredReadsBack(store.digest, source.files);
  }

  lemma StoredReadsBack(digest: Content -> string, files: map<Path, File>)
    ensures FilesOf(map[] + StoredAs(digest, files)) == files
  {
  }

  lemma RowsRebuild(files: map<Path, File>, dirs: set<Path>, rows: seq<Row>)
    requires Tree(files, dirs) && files != map[] && Wanted(rows) == files
    ensures rows != [] && PathsOf(rows) == files.Keys
    ensures Fits({}, {[]}, PathsOf(rows))
    ensures ToWrite(map[], rows) == files.Keys && ToChmod(map[], rows) == {}
    ensures var built := {[]} + Directories(PathsOf(rows));
      && built <= dirs && {[]} - built == {}
      && (built == dirs <==> forall d :: d in dirs && d != [] ==> AboveSome(files.Keys, d))
  {
    WantedPaths(rows);
    TreeRebuilds(files, dirs);
    assert ToWrite(map[], rows) == PathsOf(rows);
  }
}
