/** The change set between two chained snapshots is the exact patch between them. */
module WorkspaceDiff {
  import opened Wrappers
  import opened Ordering
  import opened Workspace

  type Manifested = map<string, TrackedFile>

  /** The files collected by path. */
  function ByPath(files: seq<TrackedFile>): (m: Manifested)
    ensures forall p :: p in m ==> m[p] in files && m[p].relativePath == p
    ensures forall f :: f in files ==> f.relativePath in m
  {
    if files == [] then map[] else map[files[0].relativePath := files[0]] + ByPath(files[1..])
  }

  function ChangeAt(before: Manifested, after: Manifested, path: string): Option<Change> {
    if path !in before && path in after then Some(Added(after[path]))
    else if path in before && path !in after then Some(Deleted(before[path]))
    else if path in before && path in after && before[path] != after[path]
    then Some(Modified(before[path], after[path]))
    else None
  }

  function ChangesOn(before: Manifested, after: Manifested, paths: seq<string>): seq<Change> {
    if paths == [] then [] else
    var rest := ChangesOn(before, after, paths[1..]);
    var change := ChangeAt(before, after, paths[0]);
    if change.Some? then [change.value] + rest else rest
  }

  function Changes(before: seq<TrackedFile>, after: seq<TrackedFile>): seq<Change> {
    var previous, current := ByPath(before), ByPath(after);
    ChangesOn(previous, current, Ascending(previous.Keys + current.Keys))
  }

  /** `WorkspaceSnapshot::diff`. */
  function Diff(h: Digest, a: Snapshot, b: Snapshot): Result<ChangeSet, WorkspaceError> {
    var first, second := Validate(h, a), Validate(h, b);
    if first.Failure? then Failure(first.error)
    else if second.Failure? then Failure(second.error)
    else if b.revision <= a.revision || b.parentFingerprint != Some(a.fingerprint) then Failure(VersionConflict)
    else Success(ChangeSet(CHANGE_SET_SPEC, a.revision, b.revision, a.fingerprint, b.fingerprint,
                           Changes(a.files, b.files)))
  }

  // ---- Patching ----

  function PathChanged(c: Change): string {
    match c
    case Added(f) => f.relativePath
    case Modified(before, _) => before.relativePath
    case Deleted(f) => f.relativePath
  }

  /** A change applies only to the state it was taken from. */
  function Patch(m: Manifested, c: Change): Option<Manifested> {
    match c
    case Added(f) => if f.relativePath in m then None else Some(m[f.relativePath := f])
    case Deleted(f) => if f.relativePath in m && m[f.relativePath] == f then Some(m - {f.relativePath}) else None
    case Modified(before, after) =>
      if before.relativePath in m && m[before.relativePath] == before && after.relativePath == before.relativePath
         && before != after
      then Some(m[after.relativePath := after]) else None
  }

  function PatchAll(m: Manifested, changes: seq<Change>): Option<Manifested>
    decreases changes
  {
    if changes == [] then Some(m) else
    var next := Patch(m, changes[0]);
    if next.None? then None else PatchAll(next.value, changes[1..])
  }

  function Listed(m: Manifested, paths: seq<string>): seq<TrackedFile>
    requires forall p :: p in paths ==> p in m
  {
    seq(|paths|, i requires 0 <= i < |paths| => assert paths[i] in paths; m[paths[i]])
  }

  function InPathOrder(m: Manifested): seq<TrackedFile> { Listed(m, Ascending(m.Keys)) }

  /** The patched file list, in path order. */
  function Apply(files: seq<TrackedFile>, changes: seq<Change>): Option<seq<TrackedFile>> {
    var m := PatchAll(ByPath(files), changes);
    if m.None? then None else Some(InPathOrder(m.value))
  }

  function Inverse(c: Change): Change {
    match c
    case Added(f) => Deleted(f)
    case Deleted(f) => Added(f)
    case Modified(before, after) => Modified(after, before)
  }

  function Inverted(changes: seq<Change>): seq<Change> {
    seq(|changes|, i requires 0 <= i < |changes| => Inverse(changes[i]))
  }

  ghost predicate Named(m: Manifested) { forall p :: p in m ==> m[p].relativePath == p }

  /** The state with the second manifest's files on the given paths. */
  ghost predicate Overlaid(r: Manifested, m: Manifested, after: Manifested, paths: seq<string>) {
    && (forall p :: p in paths ==> (p in r <==> p in after) && (p in after ==> r[p] == after[p]))
    && (forall p :: p !in paths ==> (p in r <==> p in m) && (p in m ==> r[p] == m[p]))
  }

  lemma {:induction false} ChangesPatch(m: Manifested, before: Manifested, after: Manifested, paths: seq<string>)
    requires Named(before) && Named(after) && StrictlyAscending(paths)
    requires forall p :: p in paths ==> (p in m <==> p in before) && (p in before ==> m[p] == before[p])
    ensures PatchAll(m, ChangesOn(before, after, paths)).Some?
    ensures Overlaid(PatchAll(m, ChangesOn(before, after, paths)).value, m, after, paths)
    decreases paths
  {
    if paths != [] {
      var path, rest := paths[0], paths[1..];
      assert paths == [path] + rest;
      TailAscending(paths);
      var change := ChangeAt(before, after, path);
      if change.Some? {
        var next := Patch(m, change.value);
        assert next.Some?;
        var all := ChangesOn(before, after, paths);
        assert all[0] == change.value && all[1..] == ChangesOn(before, after, rest);
        ChangesPatch(next.value, before, after, rest);
      } else {
        ChangesPatch(m, before, after, rest);
      }
    }
  }

  lemma TailAscending(paths: seq<string>)
    requires StrictlyAscending(paths) && paths != []
    ensures StrictlyAscending(paths[1..]) && forall p :: p in paths[1..] ==> Less(paths[0], p) && p != paths[0]
  {
    forall p | p in paths[1..] ensures Less(paths[0], p) && p != paths[0] {
      var i :| 0 <= i < |paths[1..]| && paths[1..][i] == p;
      assert p == paths[i + 1];
      LessAsymmetric(paths[0], p);
    }
  }

  lemma {:induction false} AscendingUnique(s: set<string>, paths: seq<string>)
    requires StrictlyAscending(paths) && forall p :: p in paths <==> p in s
    ensures Ascending(s) == paths
    decreases |paths|
  {
    if paths == [] {
      assert s == {};
    } else {
      TailAscending(paths);
      assert paths == [paths[0]] + paths[1..];
      assert paths[0] in s;
      var m := Least(s);
      if m != paths[0] {
        assert m in paths[1..];
        LessAsymmetric(paths[0], m);
      }
      AscendingUnique(s - {m}, paths[1..]);
    }
  }

  function Paths(files: seq<TrackedFile>): seq<string> {
    seq(|files|, i requires 0 <= i < |files| => files[i].relativePath)
  }

  lemma StrictPathsAscend(files: seq<TrackedFile>)
    requires StrictPaths(files)
    ensures StrictlyAscending(Paths(files))
  {
    hide Less;
  }

  lemma PathsAreKeys(files: seq<TrackedFile>)
    ensures forall p :: p in Paths(files) <==> p in ByPath(files)
  {
    hide ByPath;
    var m := ByPath(files);
    forall p | p in m ensures p in Paths(files) {
      var i :| 0 <= i < |files| && files[i] == m[p];
      assert Paths(files)[i] == p;
    }
    forall p | p in Paths(files) ensures p in m {
      var i :| 0 <= i < |files| && Paths(files)[i] == p;
      assert files[i] in files;
    }
  }

  lemma FileAtPath(files: seq<TrackedFile>, i: nat)
    requires StrictPaths(files) && i < |files|
    ensures files[i].relativePath in ByPath(files) && ByPath(files)[files[i].relativePath] == files[i]
  {
    hide ByPath, Less;
    assert files[i] in files;
    var k :| 0 <= k < |files| && files[k] == ByPath(files)[files[i].relativePath];
    if k < i { LessAsymmetric(files[k].relativePath, files[i].relativePath); }
    if i < k { LessAsymmetric(files[i].relativePath, files[k].relativePath); }
  }

  /** Canonical files are recovered from the map of their paths. */
  lemma ListingRestores(files: seq<TrackedFile>)
    requires StrictPaths(files)
    ensures InPathOrder(ByPath(files)) == files
  {
    hide ByPath, StrictPaths, StrictlyAscending, Ascending;
    StrictPathsAscend(files);
    PathsAreKeys(files);
    AscendingUnique(ByPath(files).Keys, Paths(files));
    forall i | 0 <= i < |files| ensures InPathOrder(ByPath(files))[i] == files[i] {
      FileAtPath(files, i);
    }
  }

  lemma SameMap(r: Manifested, m: Manifested, after: Manifested, paths: seq<string>)
    requires Overlaid(r, m, after, paths)
    requires forall p :: p in m || p in after ==> p in paths
    ensures r == after
  {
    assert forall p :: p in r <==> p in after;
    assert r.Keys == after.Keys;
  }

  lemma ChangesTakeThere(a: seq<TrackedFile>, b: seq<TrackedFile>)
    ensures PatchAll(ByPath(a), Changes(a, b)) == Some(ByPath(b))
    ensures StrictPaths(b) ==> Apply(a, Changes(a, b)) == Some(b)
  {
    hide ByPath, StrictPaths, InPathOrder, ChangesOn, PatchAll, StrictlyAscending;
    var before, after := ByPath(a), ByPath(b);
    var paths := Ascending(before.Keys + after.Keys);
    AscendingSorted(before.Keys + after.Keys);
    ChangesPatch(before, before, after, paths);
    SameMap(PatchAll(before, ChangesOn(before, after, paths)).value, before, after, paths);
    if StrictPaths(b) { ListingRestores(b); }
  }

  lemma {:induction false} InvertedChanges(before: Manifested, after: Manifested, paths: seq<string>)
    ensures Inverted(ChangesOn(before, after, paths)) == ChangesOn(after, before, paths)
  {
    if paths != [] {
      InvertedChanges(before, after, paths[1..]);
      var rest := ChangesOn(before, after, paths[1..]);
      var change := ChangeAt(before, after, paths[0]);
      if change.Some? {
        assert Inverted([change.value] + rest) == [Inverse(change.value)] + Inverted(rest);
      }
    }
  }

  /** Applying the change set gives exactly the later files; applying the inverted changes to those
      gives exactly the earlier files back. */
  lemma DiffIsExactPatch(h: Digest, a: Snapshot, b: Snapshot)
    requires Diff(h, a, b).Success?
    ensures var changes := Diff(h, a, b).value.changes;
            Apply(a.files, changes) == Some(b.files) && Apply(b.files, Inverted(changes)) == Some(a.files)
  {
    hide Validate, Apply, Changes, Inverted, StrictPaths, PatchAll, ByPath;
    DiffedIsStrict(h, a, b);
    ChangesTakeThere(a.files, b.files);
    ChangesTakeThere(b.files, a.files);
    BackwardChanges(a.files, b.files);
  }

  lemma DiffedIsStrict(h: Digest, a: Snapshot, b: Snapshot)
    requires Diff(h, a, b).Success?
    ensures StrictPaths(a.files) && StrictPaths(b.files)
  {
    hide Validate, StrictPaths, ValidFile, Changes;
    ValidIffCanonical(h, a);
    ValidIffCanonical(h, b);
  }

  lemma BackwardChanges(a: seq<TrackedFile>, b: seq<TrackedFile>)
    ensures Inverted(Changes(a, b)) == Changes(b, a)
  {
    var before, after := ByPath(a), ByPath(b);
    InvertedChanges(before, after, Ascending(before.Keys + after.Keys));
    assert before.Keys + after.Keys == after.Keys + before.Keys;
  }

  /** A difference is refused exactly for an invalid snapshot or a broken chain. */
  lemma DiffSucceedsIff(h: Digest, a: Snapshot, b: Snapshot)
    ensures Diff(h, a, b).Success? <==>
              Canonical(h, a) && Canonical(h, b) && b.revision > a.revision
              && b.parentFingerprint == Some(a.fingerprint)
    ensures var d := Diff(h, a, b);
            && (d.Success? ==>
                  d.value == ChangeSet("nimora.workspace-change-set/1", a.revision, b.revision, a.fingerprint,
                                       b.fingerprint, d.value.changes))
            && (d == Failure(VersionConflict) <==> d.Failure? && Canonical(h, a) && Canonical(h, b))
  {
    hide Validate, Canonical;
    ValidIffCanonical(h, a);
    ValidIffCanonical(h, b);
    InvalidSnapshots(h, a);
    InvalidSnapshots(h, b);
  }

  lemma InvalidSnapshots(h: Digest, s: Snapshot)
    ensures Validate(h, s).Failure? ==> Validate(h, s).error in {InvalidFile, InvalidSnapshot}
  {
    hide ValidFile, ValidFingerprint, RepeatsPath;
  }

  // ---- The only canonical patch ----

  ghost predicate PathSorted(changes: seq<Change>) {
    forall i, j :: 0 <= i < j < |changes| ==> Less(PathChanged(changes[i]), PathChanged(changes[j]))
  }

  lemma {:induction false} ChangesSorted(before: Manifested, after: Manifested, paths: seq<string>)
    requires Named(before) && Named(after) && StrictlyAscending(paths)
    ensures PathSorted(ChangesOn(before, after, paths))
    ensures forall c :: c in ChangesOn(before, after, paths) ==>
              PathChanged(c) in paths && Some(c) == ChangeAt(before, after, PathChanged(c))
    ensures forall p :: p in paths && ChangeAt(before, after, p).Some? ==>
              ChangeAt(before, after, p).value in ChangesOn(before, after, paths)
  {
    if paths != [] {
      var path, rest := paths[0], paths[1..];
      assert paths == [path] + rest;
      TailAscending(paths);
      ChangesSorted(before, after, rest);
      var tail := ChangesOn(before, after, rest);
      var all := ChangesOn(before, after, paths);
      if ChangeAt(before, after, path).Some? {
        forall j | 0 <= j < |tail| ensures Less(path, PathChanged(tail[j])) { assert tail[j] in tail; }
      }
    }
  }

  ghost predicate SameAt(a: Manifested, b: Manifested, path: string) {
    (path in a <==> path in b) && (path in a ==> a[path] == b[path])
  }

  ghost predicate Untouched(changes: seq<Change>, path: string) {
    forall c :: c in changes ==> PathChanged(c) != path
  }

  lemma OneChange(m: Manifested, c: Change, path: string)
    requires Patch(m, c).Some?
    ensures if PathChanged(c) == path then ChangeAt(m, Patch(m, c).value, path) == Some(c)
            else SameAt(Patch(m, c).value, m, path)
  {
  }

  lemma TailUntouched(changes: seq<Change>)
    requires PathSorted(changes) && changes != []
    ensures PathSorted(changes[1..]) && Untouched(changes[1..], PathChanged(changes[0]))
  {
    forall c | c in changes[1..] ensures PathChanged(c) != PathChanged(changes[0]) {
      var i :| 0 <= i < |changes[1..]| && changes[1..][i] == c;
      assert c == changes[i + 1];
      LessAsymmetric(PathChanged(changes[0]), PathChanged(c));
    }
  }

  /** What a path-sorted patch says about one path, seen from the state it starts in. */
  lemma {:induction false} PatchAt(m: Manifested, changes: seq<Change>, path: string)
    requires PathSorted(changes) && PatchAll(m, changes).Some?
    ensures forall c :: c in changes && PathChanged(c) == path ==>
              ChangeAt(m, PatchAll(m, changes).value, path) == Some(c)
    ensures Untouched(changes, path) ==> SameAt(PatchAll(m, changes).value, m, path)
    decreases changes
  {
    hide PathSorted, Patch, PathChanged;
    if changes != [] {
      var first, rest := changes[0], changes[1..];
      assert changes == [first] + rest;
      TailUntouched(changes);
      OneChange(m, first, path);
      PatchAt(Patch(m, first).value, rest, path);
    }
  }

  lemma {:induction false} SameSortedChanges(a: seq<Change>, b: seq<Change>)
    requires PathSorted(a) && PathSorted(b) && forall c :: c in a <==> c in b
    ensures a == b
    decreases |a|
  {
    assert (a != [] ==> a[0] in a) && (b != [] ==> b[0] in b);
    if a != [] && b != [] {
      var i :| 0 <= i < |b| && b[i] == a[0];
      var j :| 0 <= j < |a| && a[j] == b[0];
      if i > 0 && j > 0 { LessAsymmetric(PathChanged(a[0]), PathChanged(b[0])); }
      assert a[0] == b[0];
      RestMembers(a, b);
      RestMembers(b, a);
      SameSortedChanges(a[1..], b[1..]);
      assert a == [a[0]] + a[1..] && b == [b[0]] + b[1..];
    }
  }

  lemma RestMembers(a: seq<Change>, b: seq<Change>)
    requires a != [] && b != [] && a[0] == b[0] && PathSorted(a) && forall c :: c in a ==> c in b
    ensures forall c :: c in a[1..] ==> c in b[1..]
  {
    forall c | c in a[1..] ensures c in b[1..] {
      var k :| 0 <= k < |a[1..]| && a[1..][k] == c;
      assert a[k + 1] == c && c in a;
      LessAsymmetric(PathChanged(a[0]), PathChanged(c));
      var i :| 0 <= i < |b| && b[i] == c;
      assert b[1..][i - 1] == c;
    }
  }

  /** Among all patches with at most one change per path, in path order, that turn the earlier files
      into the later ones, the change set is the only one. It is empty iff nothing changed. */
  lemma DiffIsOnlyPatch(h: Digest, a: Snapshot, b: Snapshot, changes: seq<Change>)
    requires Diff(h, a, b).Success?
    ensures PathSorted(Diff(h, a, b).value.changes)
    ensures PathSorted(changes) && PatchAll(ByPath(a.files), changes) == Some(ByPath(b.files)) ==>
              changes == Diff(h, a, b).value.changes
    ensures Diff(h, a, b).value.changes == [] <==> a.files == b.files
  {
    hide Validate, Changes, Apply, StrictPaths, PathSorted, ByPath, PatchAll, InPathOrder;
    DiffedIsStrict(h, a, b);
    ChangesTakeThere(a.files, b.files);
    SortedChanges(a.files, b.files);
    if PathSorted(changes) && PatchAll(ByPath(a.files), changes) == Some(ByPath(b.files)) {
      OnlySortedPatch(a.files, b.files, changes);
    }
    EmptyIffSame(a.files, b.files);
  }

  lemma EmptyIffSame(a: seq<TrackedFile>, b: seq<TrackedFile>)
    requires StrictPaths(a) && StrictPaths(b)
    ensures Changes(a, b) == [] <==> a == b
  {
    hide Changes, StrictPaths, InPathOrder;
    ChangesTakeThere(a, b);
    if a == b {
      assert PathSorted([]);
      OnlySortedPatch(a, b, []);
    }
    if Changes(a, b) == [] {
      ListingRestores(a);
      ListingRestores(b);
    }
  }

  lemma SortedChanges(a: seq<TrackedFile>, b: seq<TrackedFile>)
    ensures PathSorted(Changes(a, b))
    ensures forall c :: c in Changes(a, b) <==> ChangeAt(ByPath(a), ByPath(b), PathChanged(c)) == Some(c)
  {
    hide ByPath, Less;
    var before, after := ByPath(a), ByPath(b);
    var paths := Ascending(before.Keys + after.Keys);
    AscendingSorted(before.Keys + after.Keys);
    ChangesSorted(before, after, paths);
    forall c | ChangeAt(before, after, PathChanged(c)) == Some(c) ensures c in Changes(a, b) {
      assert PathChanged(c) in paths;
    }
  }

  lemma OnlySortedPatch(a: seq<TrackedFile>, b: seq<TrackedFile>, changes: seq<Change>)
    requires PathSorted(changes) && PatchAll(ByPath(a), changes) == Some(ByPath(b))
    ensures changes == Changes(a, b)
  {
    hide Changes, PathSorted, PathChanged, ByPath, PatchAll, ChangeAt;
    SortedChanges(a, b);
    forall c ensures c in changes <==> ChangeAt(ByPath(a), ByPath(b), PathChanged(c)) == Some(c) {
      PatchAt(ByPath(a), changes, PathChanged(c));
      if SameAt(ByPath(b), ByPath(a), PathChanged(c)) { SameIsNoChange(ByPath(a), ByPath(b), PathChanged(c)); }
      if c !in changes && !Untouched(changes, PathChanged(c)) {
        var d :| d in changes && PathChanged(d) == PathChanged(c);
      }
    }
    SameSortedChanges(changes, Changes(a, b));
  }

  lemma SameIsNoChange(a: Manifested, b: Manifested, path: string)
    requires SameAt(b, a, path)
    ensures ChangeAt(a, b, path) == None
  {
  }
}
