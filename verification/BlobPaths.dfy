/** Relative paths on their way into the blob store: POSIX parsing, and the check. */
module BlobPaths {
  import opened Wrappers

  datatype PathError = NotRelative | Escapes | NamesScopeRoot

  /** `s.split('/')`: never empty. */
  function Split(s: string): (r: seq<string>)
    ensures r != []
  {
    if s == "" then [""]
    else
      var rest := Split(s[1..]);
      if s[0] == '/' then [""] + rest else [[s[0]] + rest[0]] + rest[1..]
  }

  function Join(parts: seq<string>): string {
    if parts == [] then ""
    else if |parts| == 1 then parts[0]
    else parts[0] + "/" + Join(parts[1..])
  }

  function Significant(pieces: seq<string>): seq<string> {
    if pieces == [] then []
    else (if pieces[0] == "" || pieces[0] == "." then [] else [pieces[0]]) + Significant(pieces[1..])
  }

  /** `Path(s).parts` of a relative path: empty and "." pieces are dropped. */
  function Parts(s: string): seq<string> { Significant(Split(s)) }

  predicate Absolute(s: string) { s != "" && s[0] == '/' }

  function AsPosix(s: string): string { if Parts(s) == [] then "." else Join(Parts(s)) }

  function Checked(path: string): Result<string, PathError> {
    if path == "" || Absolute(path) then Err(NotRelative)
    else if ".." in Parts(path) || "" in Parts(path) then Err(Escapes)
    else if AsPosix(path) == "." || AsPosix(path) == "" then Err(NamesScopeRoot)
    else Ok(AsPosix(path))
  }

  /** Walking `parts` from `base` the way a filesystem does: ".." goes up. */
  function Resolve(base: seq<string>, parts: seq<string>): seq<string>
    decreases parts
  {
    if parts == [] then base
    else if parts[0] == ".." then Resolve(if base == [] then [] else base[..|base| - 1], parts[1..])
    else if parts[0] == "." || parts[0] == "" then Resolve(base, parts[1..])
    else Resolve(base + [parts[0]], parts[1..])
  }

  predicate CleanPart(p: string) { p != "" && p != "." && '/' !in p }

  predicate Clean(parts: seq<string>) { forall i :: 0 <= i < |parts| ==> CleanPart(parts[i]) }

  // ── Splitting undoes joining ───────────────────────────────────────────────

  lemma {:induction false} SplitAtSlash(a: string, b: string)
    requires '/' !in a
    ensures Split(a + "/" + b) == [a] + Split(b)
    ensures Split(a) == [a]
  {
    if a == "" {
      assert "/" + b == ['/'] + b && (a + "/" + b)[1..] == b;
    } else {
      SplitAtSlash(a[1..], b);
      assert (a + "/" + b)[1..] == a[1..] + "/" + b;
      assert [a[0]] + a[1..] == a;
    }
  }

  lemma {:induction false} SplitJoin(parts: seq<string>)
    requires parts != [] && Clean(parts)
    ensures Split(Join(parts)) == parts
  {
    if |parts| == 1 {
      SplitAtSlash(parts[0], "");
    } else {
      SplitJoin(parts[1..]);
      SplitAtSlash(parts[0], Join(parts[1..]));
    }
  }

  lemma {:induction false} CleanIsSignificant(parts: seq<string>)
    requires Clean(parts)
    ensures Significant(parts) == parts
  {
    if parts != [] {
      CleanIsSignificant(parts[1..]);
    }
  }

  lemma {:induction false} PiecesHaveNoSlash(s: string)
    ensures forall i :: 0 <= i < |Split(s)| ==> '/' !in Split(s)[i]
  {
    if s != "" {
      PiecesHaveNoSlash(s[1..]);
    }
  }

  lemma {:induction false} SignificantIsClean(pieces: seq<string>)
    requires forall i :: 0 <= i < |pieces| ==> '/' !in pieces[i]
    ensures Clean(Significant(pieces))
  {
    if pieces != [] {
      SignificantIsClean(pieces[1..]);
    }
  }

  lemma PartsClean(s: string)
    ensures Clean(Parts(s))
  {
    PiecesHaveNoSlash(s);
    SignificantIsClean(Split(s));
  }

  lemma PartsOfJoin(parts: seq<string>)
    requires parts != [] && Clean(parts)
    ensures Parts(Join(parts)) == parts
    ensures Join(parts) != "" && !Absolute(Join(parts))
  {
    SplitJoin(parts);
    CleanIsSignificant(parts);
    assert CleanPart(parts[0]);
    assert Join(parts)[0] == parts[0][0] && parts[0][0] in parts[0];
  }

  lemma {:induction false} ResolveClimbFree(base: seq<string>, parts: seq<string>)
    requires Clean(parts) && ".." !in parts
    ensures Resolve(base, parts) == base + parts
    decreases parts
  {
    if parts != [] {
      ResolveClimbFree(base + [parts[0]], parts[1..]);
      assert CleanPart(parts[0]);
    }
  }

  /** The check accepts exactly the relative paths that name something and never climb; its
      result is a fixed point of the check, has the same components, and resolves strictly
      below any destination. */
  lemma CheckedIsSafe(path: string, base: seq<string>)
    ensures Checked(path).Ok? <==> path != "" && path[0] != '/' && Parts(path) != [] && ".." !in Parts(path)
    ensures path == "" || path[0] == '/' ==> Checked(path) == Err(NotRelative)
    ensures path != "" && path[0] != '/' && ".." in Parts(path) ==> Checked(path) == Err(Escapes)
    ensures Checked(path).Ok? ==>
      var safe := Checked(path).value;
      && Checked(safe) == Ok(safe)
      && Parts(safe) == Parts(path)
      && Resolve(base, Parts(safe)) == base + Parts(path) && |base + Parts(path)| > |base|
  {
    PartsClean(path);
    assert "" !in Parts(path);
    if Parts(path) != [] {
      PartsOfJoin(Parts(path));
      SplitJoin(Parts(path));
      assert Join(Parts(path)) != "." by {
        assert Split("") == [""] && "."[1..] == "" && Split(".") == [['.'] + ""];
        assert CleanPart(Parts(path)[0]);
      }
    }
    if Checked(path).Ok? {
      ResolveClimbFree(base, Parts(path));
    }
  }

  /** Accepted paths are the same row if and only if they have the same components. */
  lemma CheckedIdentifies(a: string, b: string)
    requires Checked(a).Ok? && Checked(b).Ok?
    ensures Checked(a) == Checked(b) <==> Parts(a) == Parts(b)
  {
    CheckedIsSafe(a, []);
    CheckedIsSafe(b, []);
  }
}
