/** Workspace snapshots: a canonical manifest of tracked files, chained by fingerprints, and the
    change set between two of them. */
module Workspace {
  import opened Wrappers
  import opened Text
  import opened Ordering
  import Sorting

  const SNAPSHOT_SPEC := "nimora.workspace-snapshot/1"
  const CHANGE_SET_SPEC := "nimora.workspace-change-set/1"
  const MAX_TRACKED_FILES := 20_000
  const MAX_RELATIVE_PATH_BYTES := 1_024
  const MAX_FILE_BYTES := 64 * 1024 * 1024

  datatype TrackedFile = TrackedFile(relativePath: string, sha256: string, bytes: nat, executable: bool)

  /** The digested content of a snapshot; its creation time is not part of it. */
  datatype Manifest = Manifest(revision: nat, parent: Option<string>, files: seq<TrackedFile>)

  /** The digest of a manifest's encoding: any function. */
  type Digest = Manifest -> string

  datatype Snapshot = Snapshot(
    spec: string, revision: nat, parentFingerprint: Option<string>, fingerprint: string, files: seq<TrackedFile>,
    createdAtMs: nat)

  datatype Change = Added(file: TrackedFile) | Modified(before: TrackedFile,
                                                        after: TrackedFile) | Deleted(file: TrackedFile)

  datatype ChangeSet = ChangeSet(
    spec: string, fromRevision: nat, toRevision: nat, fromFingerprint: string, toFingerprint: string,
    changes: seq<Change>)

  datatype WorkspaceError = InvalidFile | InvalidSnapshot | VersionConflict

  // ---- Files ----

  predicate ValidRelativePath(path: string) {
    && path != "" && Bytes(path) <= MAX_RELATIVE_PATH_BYTES
    && path[0] != '/' && '\\' !in path
    && (forall i :: 0 <= i < |path| ==> !Control(path[i]))
    && forall s :: s in Split(path, '/') ==> s != "" && s != "." && s != ".."
  }

  predicate ValidSha256(s: string) {
    |s| == 64 && forall i :: 0 <= i < |s| ==> '0' <= s[i] <= '9' || 'a' <= s[i] <= 'f'
  }

  predicate ValidFingerprint(s: string) { "sha256:" <= s && ValidSha256(s[7..]) }

  predicate ValidFile(f: TrackedFile) {
    ValidRelativePath(f.relativePath) && f.bytes <= MAX_FILE_BYTES && ValidSha256(f.sha256)
  }

  predicate LowerHex(s: string) {
    |s| == 64 && forall c :: c in s ==> c in "0123456789abcdef"
  }

  lemma Sha256Iff(s: string)
    ensures ValidSha256(s) <==> LowerHex(s)
  {
    assert "0123456789abcdef" == ['0', '1', '2', '3', '4', '5', '6', '7', '8', '9', 'a', 'b', 'c', 'd', 'e', 'f'];
    if LowerHex(s) {
      forall i | 0 <= i < |s| ensures '0' <= s[i] <= '9' || 'a' <= s[i] <= 'f' { assert s[i] in s; }
    }
  }

  predicate PathPart(s: string) { s != "" && s != "." && s != ".." && '/' !in s }

  lemma PartsJoined(path: string, parts: seq<string>)
    requires parts != [] && path == Joined(parts, '/') && forall i :: 0 <= i < |parts| ==> PathPart(parts[i])
    ensures Split(path, '/') == parts && path != "" && path[0] != '/'
  {
    JoinedSplit(parts, '/');
    assert PathPart(parts[0]);
    assert path[0] == parts[0][0] && parts[0][0] in parts[0];
  }

  /** Relative paths are proper names with slashes between them: no empty name, no way upwards, no
      backslash and no control character. */
  lemma RelativePathIff(path: string)
    ensures ValidRelativePath(path) <==>
              && Bytes(path) <= 1024 && '\\' !in path && (forall c :: c in path ==> !Control(c))
              && exists parts :: parts != [] && path == Joined(parts, '/')
                                 && forall i :: 0 <= i < |parts| ==> PathPart(parts[i])
  {
    hide Bytes, Control, Split, Joined;
    SplitJoined(path, '/');
    if ValidRelativePath(path) {
      var parts := Split(path, '/');
      forall i | 0 <= i < |parts| ensures PathPart(parts[i]) { assert parts[i] in parts; }
    }
    forall parts: seq<string> | parts != [] && path == Joined(parts, '/')
                                && forall i :: 0 <= i < |parts| ==> PathPart(parts[i])
      ensures Split(path, '/') == parts && path != "" && path[0] != '/'
    {
      PartsJoined(path, parts);
    }
    if forall c :: c in path ==> !Control(c) {
      forall i | 0 <= i < |path| ensures !Control(path[i]) { assert path[i] in path; }
    }
  }

  /** Tracked files: a relative path, a digest in lower-case hexadecimal, and at most 64 MiB. */
  lemma FileIff(f: TrackedFile)
    ensures ValidFile(f) <==> ValidRelativePath(f.relativePath) && LowerHex(f.sha256) && f.bytes <= 67_108_864
  {
    hide ValidRelativePath;
    Sha256Iff(f.sha256);
  }

  lemma FingerprintIff(s: string)
    ensures ValidFingerprint(s) <==> exists digits :: s == "sha256:" + digits && LowerHex(digits)
  {
    if ValidFingerprint(s) {
      Sha256Iff(s[7..]);
      assert s == "sha256:" + s[7..];
    }
    forall digits | s == "sha256:" + digits && LowerHex(digits) ensures ValidFingerprint(s) {
      Sha256Iff(digits);
      assert s[7..] == digits;
    }
  }

  function PathOf(f: TrackedFile): string { f.relativePath }

  predicate PathAtMost(a: TrackedFile, b: TrackedFile) { AtMost(a.relativePath, b.relativePath) }

  // ---- Snapshots ----

  predicate RepeatsPath(files: seq<TrackedFile>) {
    exists i, j :: 0 <= i < |files| && j == i + 1 < |files| && files[i].relativePath == files[j].relativePath
  }

  /** `WorkspaceSnapshot::new`. */
  function NewSnapshot(h: Digest, revision: nat, parent: Option<string>, files: seq<TrackedFile>,
                       createdAtMs: nat): Result<Snapshot, WorkspaceError> {
    if revision == 0 || |files| > MAX_TRACKED_FILES then Failure(InvalidSnapshot) else
    var sorted := Sorting.Sort(PathAtMost, files);
    if exists i :: 0 <= i < |sorted| && !ValidFile(sorted[i]) then Failure(InvalidFile)
    else if RepeatsPath(sorted) || (parent.Some? && !ValidFingerprint(parent.value)) then Failure(InvalidSnapshot)
    else Success(Snapshot(SNAPSHOT_SPEC, revision, parent, h(Manifest(revision, parent, sorted)), sorted, createdAtMs))
  }

  /** `WorkspaceSnapshot::validate`. */
  function Validate(h: Digest, s: Snapshot): Result<(), WorkspaceError> {
    var rebuilt := NewSnapshot(h, s.revision, s.parentFingerprint, s.files, s.createdAtMs);
    if rebuilt.Failure? then Failure(rebuilt.error)
    else if s.spec != rebuilt.value.spec || s.files != rebuilt.value.files || s.fingerprint != rebuilt.value.fingerprint
    then Failure(InvalidSnapshot)
    else Success(())
  }

  /** The snapshot built step by step: sort, check every file, check neighbours, digest. */
  method BuildSnapshot(h: Digest, revision: nat, parent: Option<string>, files: seq<TrackedFile>, createdAtMs: nat)
    returns (r: Result<Snapshot, WorkspaceError>)
    ensures r == NewSnapshot(h, revision, parent, files, createdAtMs)
    ensures r.Success? <==>
              && revision != 0 && |files| <= 20_000 && (parent.Some? ==> ValidFingerprint(parent.value))
              && (forall f :: f in files ==> ValidFile(f)) && Sorting.DistinctKeys(PathOf, files)
    ensures r.Success? ==>
              && r.value == Snapshot("nimora.workspace-snapshot/1", revision, parent,
                                     h(Manifest(revision, parent, r.value.files)), r.value.files, createdAtMs)
              && multiset(r.value.files) == multiset(files) && StrictPaths(r.value.files)
    ensures r.Failure? ==>
              r.error == if revision != 0 && |files| <= 20_000 && !(forall f :: f in files ==> ValidFile(f))
                         then InvalidFile else InvalidSnapshot
  {
    hide ValidFile, ValidFingerprint, StrictPaths;
    BuiltIff(h, revision, parent, files, createdAtMs);
    BuiltIs(h, revision, parent, files, createdAtMs);
    if revision == 0 || |files| > MAX_TRACKED_FILES { return Failure(InvalidSnapshot); }
    var sorted := Sorting.Sort(PathAtMost, files);
    for i := 0 to |sorted|
      invariant forall k :: 0 <= k < i ==> ValidFile(sorted[k])
    {
      if !ValidFile(sorted[i]) { return Failure(InvalidFile); }
    }
    for i := 0 to |sorted|
      invariant forall k, l :: 0 <= k && l == k + 1 < i ==> sorted[k].relativePath != sorted[l].relativePath
    {
      if i > 0 && sorted[i - 1].relativePath == sorted[i].relativePath { return Failure(InvalidSnapshot); }
    }
    if parent.Some? && !ValidFingerprint(parent.value) { return Failure(InvalidSnapshot); }
    return Success(Snapshot(SNAPSHOT_SPEC, revision, parent, h(Manifest(revision, parent, sorted)), sorted,
                            createdAtMs));
  }

  lemma PathOrder()
    ensures Sorting.TotalPreorder(PathAtMost)
  {
    forall a, b ensures PathAtMost(a, b) || PathAtMost(b, a) { LessTotal(a.relativePath, b.relativePath); }
    forall a, b, c | PathAtMost(a, b) && PathAtMost(b, c) ensures PathAtMost(a, c) {
      if a.relativePath != b.relativePath && b.relativePath != c.relativePath {
        LessTransitive(a.relativePath, b.relativePath, c.relativePath);
      }
    }
  }

  lemma PathTie(a: TrackedFile, b: TrackedFile)
    requires PathAtMost(a, b) && PathAtMost(b, a)
    ensures a.relativePath == b.relativePath
  {
    if Less(a.relativePath, b.relativePath) { LessAsymmetric(a.relativePath, b.relativePath); }
  }

  /** In path order, equal paths are neighbours. */
  lemma RepeatsAreNeighbours(files: seq<TrackedFile>)
    requires Sorting.Sorted(PathAtMost, files)
    ensures RepeatsPath(files) <==> !Sorting.DistinctKeys(PathOf, files)
  {
    if !Sorting.DistinctKeys(PathOf, files) {
      var i, j :| 0 <= i < j < |files| && PathOf(files[i]) == PathOf(files[j]);
      assert PathAtMost(files[i], files[i + 1]);
      assert i + 1 == j || PathAtMost(files[i + 1], files[j]);
      PathTie(files[i], files[i + 1]);
    }
    if RepeatsPath(files) {
      var i, j :| 0 <= i < |files| && j == i + 1 < |files| && files[i].relativePath == files[j].relativePath;
      assert PathOf(files[i]) == PathOf(files[j]);
    }
  }

  lemma SortedAgain(files: seq<TrackedFile>)
    ensures var sorted := Sorting.Sort(PathAtMost, files);
            && Sorting.Sorted(PathAtMost, sorted) && |sorted| == |files| && (forall f :: f in sorted <==> f in files)
            && (RepeatsPath(sorted) <==> !Sorting.DistinctKeys(PathOf, files))
  {
    PathOrder();
    var sorted := Sorting.Sort(PathAtMost, files);
    Sorting.SortSorted(PathAtMost, files);
    Sorting.SameElements(sorted, files);
    RepeatsAreNeighbours(sorted);
    if Sorting.DistinctKeys(PathOf, sorted) { Sorting.DistinctRearranged(PathOf, sorted, files); }
    if Sorting.DistinctKeys(PathOf, files) { Sorting.DistinctRearranged(PathOf, files, sorted); }
  }

  lemma BuiltIff(h: Digest, revision: nat, parent: Option<string>, files: seq<TrackedFile>, createdAtMs: nat)
    ensures NewSnapshot(h, revision, parent, files, createdAtMs).Success? <==>
              && revision != 0 && |files| <= 20_000 && (parent.Some? ==> ValidFingerprint(parent.value))
              && (forall f :: f in files ==> ValidFile(f)) && Sorting.DistinctKeys(PathOf, files)
  {
    hide ValidFile, ValidFingerprint, RepeatsPath, Sorting.DistinctKeys, Sorting.Sorted, Sorting.Sort, PathAtMost;
    SortedAgain(files);
    var sorted := Sorting.Sort(PathAtMost, files);
    if forall f :: f in files ==> ValidFile(f) {
      forall i | 0 <= i < |sorted| ensures ValidFile(sorted[i]) { assert sorted[i] in files; }
    }
    if forall i :: 0 <= i < |sorted| ==> ValidFile(sorted[i]) {
      forall f | f in files ensures ValidFile(f) { assert f in sorted; }
    }
  }

  lemma DistinctSortsStrictly(files: seq<TrackedFile>)
    requires Sorting.DistinctKeys(PathOf, files)
    ensures var sorted := Sorting.Sort(PathAtMost, files); multiset(sorted) == multiset(files) && StrictPaths(sorted)
  {
    hide Sorting.DistinctKeys, Sorting.Sorted, StrictPaths, PathAtMost;
    SortedAgain(files);
    var sorted := Sorting.Sort(PathAtMost, files);
    Sorting.DistinctRearranged(PathOf, files, sorted);
    Sorting.SortFixed(PathAtMost, sorted);
    StrictIff(sorted);
  }

  lemma BuiltIs(h: Digest, revision: nat, parent: Option<string>, files: seq<TrackedFile>, createdAtMs: nat)
    ensures var r := NewSnapshot(h, revision, parent, files, createdAtMs);
            && (r.Success? ==>
                  && r.value == Snapshot("nimora.workspace-snapshot/1", revision, parent,
                                         h(Manifest(revision, parent, r.value.files)), r.value.files, createdAtMs)
                  && multiset(r.value.files) == multiset(files) && StrictPaths(r.value.files))
            && (r.Failure? ==>
                  r.error == if revision != 0 && |files| <= 20_000 && !(forall f :: f in files ==> ValidFile(f))
                             then InvalidFile else InvalidSnapshot)
  {
    hide ValidFile, ValidFingerprint, RepeatsPath, Sorting.DistinctKeys, Sorting.Sorted, Sorting.Sort, StrictPaths,
         PathAtMost;
    SortedAgain(files);
    var sorted := Sorting.Sort(PathAtMost, files);
    if Sorting.DistinctKeys(PathOf, files) { DistinctSortsStrictly(files); }
    if forall i :: 0 <= i < |sorted| ==> ValidFile(sorted[i]) {
      forall f | f in files ensures ValidFile(f) { assert f in sorted; }
    } else {
      var i :| 0 <= i < |sorted| && !ValidFile(sorted[i]);
      assert sorted[i] in files;
    }
  }

  lemma TiesAreSame(files: seq<TrackedFile>, x: TrackedFile, y: TrackedFile)
    requires Sorting.DistinctKeys(PathOf, files) && x in files && y in files
    requires PathAtMost(x, y) && PathAtMost(y, x)
    ensures x == y
  {
    PathTie(x, y);
    var i :| 0 <= i < |files| && files[i] == x;
    var j :| 0 <= j < |files| && files[j] == y;
    assert PathOf(files[i]) == PathOf(files[j]);
  }

  lemma SameSorted(a: seq<TrackedFile>, b: seq<TrackedFile>)
    requires multiset(a) == multiset(b) && Sorting.DistinctKeys(PathOf, a)
    ensures Sorting.Sort(PathAtMost, a) == Sorting.Sort(PathAtMost, b)
  {
    hide PathAtMost, RepeatsPath, Sorting.DistinctKeys, Sorting.Sort, Sorting.Sorted, Sorting.TotalPreorder;
    PathOrder();
    SortedAgain(a);
    SortedAgain(b);
    var p := Sorting.Sort(PathAtMost, a);
    forall x, y | x in p && y in p && PathAtMost(x, y) && PathAtMost(y, x) ensures x == y {
      TiesAreSame(a, x, y);
    }
    Sorting.SortedUnique(PathAtMost, p, Sorting.Sort(PathAtMost, b));
  }

  /** The order in which the host found the files makes no difference, not even to the error. */
  lemma OrderIrrelevant(h: Digest, revision: nat, parent: Option<string>, a: seq<TrackedFile>, b: seq<TrackedFile>,
                        createdAtMs: nat)
    requires multiset(a) == multiset(b)
    ensures NewSnapshot(h, revision, parent, a, createdAtMs) == NewSnapshot(h, revision, parent, b, createdAtMs)
  {
    hide ValidFile, ValidFingerprint, RepeatsPath, Sorting.DistinctKeys, Sorting.Sort;
    Sorting.SameElements(a, b);
    SortedAgain(a);
    SortedAgain(b);
    SameFirstError(a, b);
    if Sorting.DistinctKeys(PathOf, a) {
      SameSorted(a, b);
    } else if Sorting.DistinctKeys(PathOf, b) {
      Sorting.DistinctRearranged(PathOf, b, a);
    }
  }

  lemma SameFirstError(a: seq<TrackedFile>, b: seq<TrackedFile>)
    requires forall f :: f in a <==> f in b
    ensures var p, q := Sorting.Sort(PathAtMost, a), Sorting.Sort(PathAtMost, b);
            (exists i :: 0 <= i < |p| && !ValidFile(p[i])) <==> (exists i :: 0 <= i < |q| && !ValidFile(q[i]))
  {
    hide ValidFile, RepeatsPath, Sorting.Sort, Sorting.Sorted, Sorting.DistinctKeys, PathAtMost;
    SortedAgain(a);
    SortedAgain(b);
    var p, q := Sorting.Sort(PathAtMost, a), Sorting.Sort(PathAtMost, b);
    if i :| 0 <= i < |p| && !ValidFile(p[i]) {
      assert p[i] in q;
    }
    if i :| 0 <= i < |q| && !ValidFile(q[i]) {
      assert q[i] in p;
    }
  }

  ghost predicate StrictPaths(files: seq<TrackedFile>) {
    forall i, j :: 0 <= i < j < |files| ==> Less(files[i].relativePath, files[j].relativePath)
  }

  ghost predicate Canonical(h: Digest, s: Snapshot) {
    && s.spec == SNAPSHOT_SPEC && s.revision != 0 && |s.files| <= 20_000
    && (s.parentFingerprint.Some? ==> ValidFingerprint(s.parentFingerprint.value))
    && (forall f :: f in s.files ==> ValidFile(f)) && StrictPaths(s.files)
    && s.fingerprint == h(Manifest(s.revision, s.parentFingerprint, s.files))
  }

  lemma StrictIff(files: seq<TrackedFile>)
    ensures StrictPaths(files) <==> Sorting.DistinctKeys(PathOf, files) && Sorting.Sort(PathAtMost, files) == files
  {
    if StrictPaths(files) {
      forall i, j | 0 <= i < j < |files| ensures PathOf(files[i]) != PathOf(files[j]) {
        LessAsymmetric(files[i].relativePath, files[j].relativePath);
      }
      Sorting.SortFixed(PathAtMost, files);
    }
    if Sorting.DistinctKeys(PathOf, files) && Sorting.Sort(PathAtMost, files) == files {
      SortedAgain(files);
      forall i, j | 0 <= i < j < |files| ensures Less(files[i].relativePath, files[j].relativePath) {
        assert PathOf(files[i]) != PathOf(files[j]) && PathAtMost(files[i], files[j]);
      }
    }
  }

  /** A snapshot validates exactly when it is canonical. */
  lemma ValidIffCanonical(h: Digest, s: Snapshot)
    ensures Validate(h, s).Success? <==> Canonical(h, s)
  {
    hide ValidFile, ValidFingerprint, StrictPaths, Sorting.DistinctKeys;
    BuiltIff(h, s.revision, s.parentFingerprint, s.files, s.createdAtMs);
    StrictIff(s.files);
  }

  /** Whatever is built validates. */
  lemma BuiltValidates(h: Digest, revision: nat, parent: Option<string>, files: seq<TrackedFile>, createdAtMs: nat)
    requires NewSnapshot(h, revision, parent, files, createdAtMs).Success?
    ensures Validate(h, NewSnapshot(h, revision, parent, files, createdAtMs).value).Success?
  {
    hide ValidFile, ValidFingerprint, RepeatsPath, Sorting.Sort, PathAtMost;
    SortedAgain(files);
    Sorting.SortFixed(PathAtMost, Sorting.Sort(PathAtMost, files));
  }
}
