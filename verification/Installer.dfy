/** The staging installer of src/wayland_vnc/installer.py over a flat tree of files: paths are
    already resolved, directories are not modelled, and one `_atomic_write` is one step. */
module Installer {
  import opened Results
  import Json

  type Bytes = seq<int>

  /** What a file holds; a document stands for its JSON text. */
  datatype Content = Raw(data: Bytes) | Doc(value: Json.Value)

  datatype File = File(content: Content, mode: nat)

  type Tree = map<string, File>

  datatype PackageFile = PackageFile(path: string, contents: Bytes, mode: nat)

  const STATE := "var/lib/wayland-vnc/"
  const MANIFEST := STATE + "manifest.json"
  const BACKUP := STATE + "backup/"

  function BackupOf(path: string): string {
    BACKUP + path
  }

  predicate InState(path: string) {
    STATE <= path
  }

  predicate InBackup(path: string) {
    BACKUP <= path
  }

  function At(t: Tree, path: string): Option<File> {
    if path in t then Some(t[path]) else None
  }

  /** `os.replace`. */
  function Moved(t: Tree, source: string, destination: string): Tree
    requires source in t
  {
    (t - {source})[destination := t[source]]
  }

  // ----- safe paths

  /** The part of a path up to its first slash, and all that follows it. */
  function FirstPart(path: string): string {
    if path == "" || path[0] == '/' then "" else [path[0]] + FirstPart(path[1..])
  }

  predicate HasParentPart(path: string) {
    var part := FirstPart(path);
    part == ".." || (|part| < |path| && HasParentPart(path[|part| + 1..]))
  }

  predicate Absolute(path: string) {
    path != "" && path[0] == '/'
  }

  /** What `_safe_destination` refuses. */
  predicate Unsafe(path: string) {
    Absolute(path) || HasParentPart(path)
  }

  /** Two dots at `i` are a whole part of the path. */
  ghost predicate ParentAt(path: string, i: nat) {
    && i + 2 <= |path| && path[i] == '.' && path[i + 1] == '.'
    && (i == 0 || path[i - 1] == '/')
    && (i + 2 == |path| || path[i + 2] == '/')
  }

  lemma FirstPartShape(path: string)
    ensures FirstPart(path) <= path
    ensures forall i | 0 <= i < |FirstPart(path)| :: path[i] != '/'
    ensures |FirstPart(path)| < |path| ==> path[|FirstPart(path)|] == '/'
  {
  }

  lemma {:induction false} ParentPartExactly(path: string)
    ensures HasParentPart(path) <==> exists i: nat :: ParentAt(path, i)
    decreases |path|
  {
    FirstPartShape(path);
    var n := |FirstPart(path)|;
    if FirstPart(path) == ".." {
      assert ParentAt(path, 0);
    } else if n < |path| {
      var rest := path[n + 1..];
      ParentPartExactly(rest);
      if i: nat :| ParentAt(rest, i) {
        assert ParentAt(path, i + n + 1);
      }
      if i: nat :| ParentAt(path, i) {
        FirstOrLater(path, i);
        assert ParentAt(rest, i - n - 1);
      }
    } else if i: nat :| ParentAt(path, i) {
      FirstOrLater(path, i);
    }
  }

  lemma FirstOrLater(path: string, i: nat)
    requires ParentAt(path, i)
    ensures FirstPart(path) == ".." || |FirstPart(path)| < i
  {
    FirstPartShape(path);
    if i == 0 {
      FirstPartShape(path[1..]);
      FirstPartShape(path[2..]);
      assert FirstPart(path[2..]) == "";
    }
  }

  /** A path is refused exactly if it begins with a slash or has a part that is two dots. */
  lemma UnsafeExactly(path: string)
    ensures Unsafe(path) <==> "/" <= path || exists i: nat :: ParentAt(path, i)
  {
    ParentPartExactly(path);
    assert "/" <= path <==> path != "" && path[0] == '/';
  }

  lemma StatePaths(path: string)
    ensures MANIFEST == "var/lib/wayland-vnc/manifest.json"
    ensures BackupOf(path) == "var/lib/wayland-vnc/backup/" + path
  {
  }

  // ----- the manifest

  datatype Record = Record(path: string, sha256: string, mode: nat)

  function RecordDoc(record: Record): Json.Value {
    Json.Obj(map["path" := Json.Str(record.path), "sha256" := Json.Str(record.sha256),
                 "mode" := Json.Int(record.mode)])
  }

  function ManifestDoc(backend: string, installed: seq<Record>, backups: seq<string>): Json.Value {
    Json.Obj(map[
      "schema_version" := Json.Int(1),
      "backend" := Json.Str(backend),
      "installed" := Json.Arr(seq(|installed|, i requires 0 <= i < |installed| => RecordDoc(installed[i]))),
      "backups" := Json.Strings(backups)])
  }

  // ----- installing

  /** The steps of an install that may fail. */
  datatype Step = BackupMove(i: nat) | Write(i: nat) | ManifestWrite

  /** Package file `i` is backed up, if there is anything to back up, and written without failing. */
  predicate Passes(t0: Tree, path: string, i: nat, fails: Step -> bool) {
    !Unsafe(path) && (path in t0 ==> !fails(BackupMove(i))) && !fails(Write(i))
  }

  ghost predicate AllPass(t0: Tree, files: seq<PackageFile>, n: nat, fails: Step -> bool) {
    forall i | 0 <= i < n && i < |files| :: Passes(t0, files[i].path, i, fails)
  }

  /** How many package files are out of the way when the first step fails, from file `i` on. */
  function SetAside(t0: Tree, files: seq<PackageFile>, fails: Step -> bool, i: nat): (m: nat)
    requires i <= |files|
    ensures i <= m <= |files|
    decreases |files| - i
  {
    if i == |files| then i
    else if Passes(t0, files[i].path, i, fails) then SetAside(t0, files, fails, i + 1)
    else if Unsafe(files[i].path) || (files[i].path in t0 && fails(BackupMove(i))) then i
    else i + 1
  }

  predicate Distinct(files: seq<PackageFile>) {
    forall i, j | 0 <= i < j < |files| :: files[i].path != files[j].path
  }

  function IndexOf(files: seq<PackageFile>, path: string): (n: nat)
    ensures n <= |files|
    ensures n < |files| ==> files[n].path == path
    ensures forall i | 0 <= i < n :: files[i].path != path
  {
    if files == [] || files[0].path == path then 0 else 1 + IndexOf(files[1..], path)
  }

  /** Whether `path` is where one of the first `m` package files was moved out of the way to. */
  predicate IsBackup(t0: Tree, files: seq<PackageFile>, m: nat, path: string) {
    InBackup(path) && path[|BACKUP|..] in t0 && IndexOf(files, path[|BACKUP|..]) < m
  }

  /** What `path` holds once the first `m` package files are out of the way, starting from `t0`,
      and the first `w` of them are written. */
  function Expected(t0: Tree, files: seq<PackageFile>, w: nat, m: nat, path: string): Option<File>
    requires w <= m <= |files|
  {
    var n := IndexOf(files, path);
    if IsBackup(t0, files, m, path) then Some(t0[path[|BACKUP|..]])
    else if n < w then Some(File(Raw(files[n].contents), files[n].mode))
    else if n < m then None
    else At(t0, path)
  }

  ghost predicate Partial(t0: Tree, t: Tree, files: seq<PackageFile>, w: nat, m: nat) {
    w <= m <= |files| && forall path :: At(t, path) == Expected(t0, files, w, m, path)
  }

  function RecordsOf(files: seq<PackageFile>, digest: Content -> string): (records: seq<Record>)
    ensures |records| == |files|
  {
    seq(|files|, i requires 0 <= i < |files| => RecordOf(files[i], digest))
  }

  function RecordOf(file: PackageFile, digest: Content -> string): Record {
    Record(file.path, digest(Raw(file.contents)), file.mode)
  }

  lemma RecordsMore(files: seq<PackageFile>, i: nat, digest: Content -> string)
    requires i < |files|
    ensures RecordsOf(files[..i + 1], digest) == RecordsOf(files[..i], digest) + [RecordOf(files[i], digest)]
  {
  }

  /** The paths among the first `m` package files that held something before. */
  function BackupsOf(t0: Tree, files: seq<PackageFile>, m: nat): seq<string>
    requires m <= |files|
  {
    if m == 0 then []
    else BackupsOf(t0, files, m - 1) + (if files[m - 1].path in t0 then [files[m - 1].path] else [])
  }

  function UnlinkBack(t: Tree, installed: seq<Record>): Tree
    decreases |installed|
  {
    if installed == [] then t
    else
      var n := |installed| - 1;
      UnlinkBack(t - {installed[n].path}, installed[..n])
  }

  function RestoreBack(t: Tree, backups: seq<string>): Tree
    decreases |backups|
  {
    if backups == [] then t
    else
      var n := |backups| - 1;
      RestoreBack(BackOne(t, backups[n]), backups[..n])
  }

  /** Puts one backup back where it came from, if it is there. */
  function BackOne(t: Tree, path: string): Tree {
    if BackupOf(path) in t then Moved(t, BackupOf(path), path) else t
  }

  ghost predicate PackagePaths(files: seq<PackageFile>) {
    Distinct(files) && forall i | 0 <= i < |files| :: !InState(files[i].path)
  }

  lemma BackupShape(path: string)
    ensures InState(BackupOf(path)) && InBackup(BackupOf(path)) && BackupOf(path)[|BACKUP|..] == path
    ensures BackupOf(path) != MANIFEST && BackupOf(path) != path
    ensures InState(MANIFEST) && !InBackup(MANIFEST)
  {
    assert MANIFEST[|STATE|] == 'm' && BACKUP[|STATE|] == 'b' && BackupOf(path)[|STATE|] == 'b';
    assert |BackupOf(path)| > |path|;
  }

  lemma BackupInState(path: string)
    requires InBackup(path)
    ensures InState(path) && path == BackupOf(path[|BACKUP|..])
  {
  }

  function InstalledAt(t0: Tree, files: seq<PackageFile>, backend: string, digest: Content -> string, path: string)
      : Option<File>
  {
    if path == MANIFEST then
      Some(File(Doc(ManifestDoc(backend, RecordsOf(files, digest), BackupsOf(t0, files, |files|))), 0x180))
    else Expected(t0, files, |files|, |files|, path)
  }

  /** A finished install, path by path. */
  ghost predicate Installed(t0: Tree, t: Tree, files: seq<PackageFile>, backend: string, digest: Content -> string) {
    forall path :: At(t, path) == InstalledAt(t0, files, backend, digest, path)
  }

  /** What `path` holds while the moved files go back: those from index `k` on are back already. */
  function Rolling(t0: Tree, files: seq<PackageFile>, k: nat, m: nat, path: string): Option<File> {
    if IsBackup(t0, files, k, path) then Some(t0[path[|BACKUP|..]])
    else if IsBackup(t0, files, m, path) then None
    else if IndexOf(files, path) < k then None
    else At(t0, path)
  }

  /** A failed install that had moved the first `m` package files, path by path: all is as it was,
      but for what the backup directory held of those files before. */
  ghost predicate RolledBack(t0: Tree, t: Tree, files: seq<PackageFile>, m: nat) {
    m <= |files| && forall path :: At(t, path) == Rolling(t0, files, 0, m, path)
  }

  class Root {
    var tree: Tree

    constructor (t: Tree)
      ensures tree == t
    {
      tree := t;
    }

    method Replace(source: string, destination: string)
      requires source in tree
      modifies this
      ensures tree == Moved(old(tree), source, destination)
    {
      tree := (tree - {source})[destination := tree[source]];
    }

    /** Failing, it leaves what was there: the contents go to a temporary file first. */
    method AtomicWrite(destination: string, content: Content, mode: nat, fails: bool) returns (error: Option<string>)
      modifies this
      ensures error == if fails then Some("OSError") else None
      ensures tree == if fails then old(tree) else old(tree)[destination := File(content, mode)]
    {
      if fails {
        return Some("OSError");
      }
      tree := tree[destination := File(content, mode)];
      error := None;
    }

    method Unlink(path: string)
      modifies this
      ensures tree == old(tree) - {path}
    {
      tree := tree - {path};
    }

    method RollbackPartial(installed: seq<Record>, backups: seq<string>)
      modifies this
      ensures tree == RestoreBack(UnlinkBack(old(tree), installed), backups)
    {
      var i := |installed|;
      assert installed[..i] == installed;
      while i > 0
        invariant 0 <= i <= |installed|
        invariant UnlinkBack(tree, installed[..i]) == UnlinkBack(old(tree), installed)
      {
        i := i - 1;
        assert installed[..i + 1][..i] == installed[..i];
        Unlink(installed[i].path);
      }
      var k := |backups|;
      assert backups[..k] == backups;
      while k > 0
        invariant 0 <= k <= |backups|
        invariant RestoreBack(tree, backups[..k]) == RestoreBack(UnlinkBack(old(tree), installed), backups)
      {
        k := k - 1;
        assert backups[..k + 1][..k] == backups[..k];
        var backup := BackupOf(backups[k]);
        if backup in tree {
          Replace(backup, backups[k]);
        }
      }
    }

    /** All or nothing. A finished install holds every package file, what they replaced under the
        backup directory, and the manifest of both, with every other path as it was; a failed one,
        wherever it failed, leaves every path as it was, but for the backup directory's entries of
        files it had moved there by then. */
    method Install(files: seq<PackageFile>, backend: string, digest: Content -> string, fails: Step -> bool)
        returns (r: Result<Json.Value>)
      requires PackagePaths(files)
      modifies this
      ensures r.Ok? ==> MANIFEST !in old(tree)
      ensures r.Ok? ==> Installed(old(tree), tree, files, backend, digest)
      ensures r.Ok? ==> At(tree, MANIFEST) == Some(File(Doc(r.value), 0x180))
      ensures r.Err? ==> forall path | !InState(path) :: At(tree, path) == At(old(tree), path)
      ensures MANIFEST in old(tree) ==> tree == old(tree)
      ensures r.Err? && MANIFEST !in old(tree) ==> RolledBack(old(tree), tree, files, SetAside(old(tree), files, fails, 0))
      ensures r.Err? && MANIFEST !in old(tree) ==> MANIFEST !in tree
      ensures r.Ok? <==>
        MANIFEST !in old(tree) && AllPass(old(tree), files, |files|, fails) && !fails(ManifestWrite)
    {
      if MANIFEST in tree {
        return Err("Installation already exists; uninstall it first");
      }
      ghost var t0 := tree;
      var error, installed, backups, w, m := PlaceAll(files, digest, fails);
      if error.Some? {
        r := Fail(installed, backups, error.value, t0, files, digest, w, m);
        return;
      }
      assert files[..|files|] == files;
      var manifest := ManifestDoc(backend, installed, backups);
      ghost var before := tree;
      error := AtomicWrite(MANIFEST, Doc(manifest), 0x180, fails(ManifestWrite));
      if error.Some? {
        r := Fail(installed, backups, error.value, t0, files, digest, |files|, |files|);
        return;
      }
      forall path ensures At(tree, path) == InstalledAt(t0, files, backend, digest, path) {
        assert At(before, path) == Expected(t0, files, |files|, |files|, path);
      }
      r := Ok(manifest);
    }

    /** The install loop, up to the first step that fails. */
    method PlaceAll(files: seq<PackageFile>, digest: Content -> string, fails: Step -> bool)
        returns (error: Option<string>, installed: seq<Record>, backups: seq<string>, ghost w: nat, ghost m: nat)
      requires PackagePaths(files)
      modifies this
      ensures error.None? <==> AllPass(old(tree), files, |files|, fails)
      ensures m == SetAside(old(tree), files, fails, 0) && (error.None? ==> w == m == |files|)
      ensures Partial(old(tree), tree, files, w, m)
      ensures installed == RecordsOf(files[..w], digest) && backups == BackupsOf(old(tree), files, m)
    {
      installed, backups := [], [];
      ghost var t0 := tree;
      PartialStart(t0, files);
      for i := 0 to |files|
        invariant Partial(t0, tree, files, i, i) && AllPass(t0, files, i, fails)
        invariant SetAside(t0, files, fails, 0) == SetAside(t0, files, fails, i)
        invariant installed == RecordsOf(files[..i], digest) && backups == BackupsOf(t0, files, i)
      {
        var failed, backedUp, reached := PlaceFile(files[i], i, fails, t0, files);
        if backedUp {
          backups := backups + [files[i].path];
        }
        if failed.Some? {
          return failed, installed, backups, i, reached;
        }
        installed := installed + [RecordOf(files[i], digest)];
        RecordsMore(files, i, digest);
      }
      error, w, m := None, |files|, |files|;
    }

    /** One turn of the install loop: set aside what is in the way, then write. */
    method PlaceFile(file: PackageFile, i: nat, fails: Step -> bool, ghost t0: Tree, ghost files: seq<PackageFile>)
        returns (error: Option<string>, backedUp: bool, ghost m: nat)
      requires PackagePaths(files) && i < |files| && file == files[i] && Partial(t0, tree, files, i, i)
      modifies this
      ensures error.None? <==> Passes(t0, file.path, i, fails)
      ensures m == i || m == i + 1
      ensures error.Some? ==> m == SetAside(t0, files, fails, i)
      ensures Partial(t0, tree, files, if error.None? then i + 1 else i, m)
      ensures backedUp <==> m == i + 1 && file.path in t0
    {
      backedUp, m := false, i;
      if Unsafe(file.path) {
        return Some("ValueError"), backedUp, m;
      }
      if file.path in tree {
        PartialMove(t0, tree, files, i);
        if fails(BackupMove(i)) {
          return Some("OSError"), backedUp, m;
        }
        Replace(file.path, BackupOf(file.path));
        backedUp := true;
      } else {
        PartialSkip(t0, tree, files, i);
      }
      m := i + 1;
      PartialWrite(t0, tree, files, i);
      error := AtomicWrite(file.path, Raw(file.contents), file.mode, fails(Write(i)));
    }

    /** The exception path: roll back, then raise. */
    method Fail(installed: seq<Record>, backups: seq<string>, error: string,
                ghost t0: Tree, ghost files: seq<PackageFile>, ghost digest: Content -> string, ghost w: nat, ghost m: nat)
        returns (r: Result<Json.Value>)
      requires PackagePaths(files) && MANIFEST !in t0 && Partial(t0, tree, files, w, m)
      requires installed == RecordsOf(files[..w], digest) && backups == BackupsOf(t0, files, m)
      modifies this
      ensures r == Err(error) && MANIFEST !in tree
      ensures RolledBack(t0, tree, files, m)
      ensures forall path | !InState(path) :: At(tree, path) == At(t0, path)
    {
      RollbackPartial(installed, backups);
      r := Err(error);
      UnlinkRolls(t0, old(tree), files, w, m, digest);
      RestoreRolls(t0, UnlinkBack(old(tree), installed), files, m, m);
      BackupShape("");
      assert At(tree, MANIFEST) == Rolling(t0, files, 0, m, MANIFEST);
      forall path | !InState(path) ensures At(tree, path) == At(t0, path) {
        assert At(tree, path) == Rolling(t0, files, 0, m, path);
        assert InBackup(path) ==> InState(path);
      }
    }
  }

  // ----- one step of an install

  lemma IndexOfPath(files: seq<PackageFile>, i: nat)
    requires Distinct(files) && i < |files|
    ensures IndexOf(files, files[i].path) == i
  {
    assert IndexOf(files, files[i].path) <= i;
  }

  lemma PartialStart(t0: Tree, files: seq<PackageFile>)
    ensures Partial(t0, t0, files, 0, 0)
  {
  }

  lemma PartialMove(t0: Tree, t: Tree, files: seq<PackageFile>, i: nat)
    requires PackagePaths(files) && i < |files| && Partial(t0, t, files, i, i) && files[i].path in t
    ensures files[i].path in t0
    ensures Partial(t0, Moved(t, files[i].path, BackupOf(files[i].path)), files, i, i + 1)
  {
    var path := files[i].path;
    var u := Moved(t, path, BackupOf(path));
    IndexOfPath(files, i);
    BackupShape(path);
    assert !InBackup(path) by { if InBackup(path) { BackupInState(path); } }
    assert At(t, path) == Expected(t0, files, i, i, path) == At(t0, path);
    forall q ensures At(u, q) == Expected(t0, files, i, i + 1, q) {
      assert At(t, q) == Expected(t0, files, i, i, q);
      if InBackup(q) { BackupInState(q); }
    }
  }

  lemma PartialSkip(t0: Tree, t: Tree, files: seq<PackageFile>, i: nat)
    requires PackagePaths(files) && i < |files| && Partial(t0, t, files, i, i) && files[i].path !in t
    ensures files[i].path !in t0
    ensures Partial(t0, t, files, i, i + 1)
  {
    var path := files[i].path;
    IndexOfPath(files, i);
    assert !InBackup(path) by { if InBackup(path) { BackupInState(path); } }
    assert At(t, path) == Expected(t0, files, i, i, path) == At(t0, path);
    forall q ensures At(t, q) == Expected(t0, files, i, i + 1, q) {
      assert At(t, q) == Expected(t0, files, i, i, q);
      if IndexOf(files, q) == i {
        assert q == path;
      }
    }
  }

  lemma PartialWrite(t0: Tree, t: Tree, files: seq<PackageFile>, i: nat)
    requires PackagePaths(files) && i < |files| && Partial(t0, t, files, i, i + 1)
    ensures Partial(t0, t[files[i].path := File(Raw(files[i].contents), files[i].mode)], files, i + 1, i + 1)
  {
    var path := files[i].path;
    var u := t[path := File(Raw(files[i].contents), files[i].mode)];
    IndexOfPath(files, i);
    assert !InBackup(path) by { if InBackup(path) { BackupInState(path); } }
    forall q ensures At(u, q) == Expected(t0, files, i + 1, i + 1, q) {
      assert At(t, q) == Expected(t0, files, i, i + 1, q);
    }
  }

  // ----- rolling back

  lemma {:induction false} UnlinkRolls(t0: Tree, t: Tree, files: seq<PackageFile>, w: nat, m: nat, digest: Content -> string)
    requires PackagePaths(files) && Partial(t0, t, files, w, m)
    ensures Rolls(t0, UnlinkBack(t, RecordsOf(files[..w], digest)), files, m, m)
    decreases w
  {
    if w == 0 {
      forall path ensures At(t, path) == Rolling(t0, files, m, m, path) {
        assert At(t, path) == Expected(t0, files, w, m, path);
      }
    } else {
      var path := files[w - 1].path;
      var u := t - {path};
      UnlinkStep(t0, t, files, w, m);
      assert RecordsOf(files[..w], digest)[..w - 1] == RecordsOf(files[..w - 1], digest);
      UnlinkRolls(t0, u, files, w - 1, m, digest);
    }
  }

  lemma UnlinkStep(t0: Tree, t: Tree, files: seq<PackageFile>, w: nat, m: nat)
    requires PackagePaths(files) && 0 < w && Partial(t0, t, files, w, m)
    ensures Partial(t0, t - {files[w - 1].path}, files, w - 1, m)
  {
    var path := files[w - 1].path;
    IndexOfPath(files, w - 1);
    assert !InBackup(path) by { if InBackup(path) { BackupInState(path); } }
    forall q ensures At(t - {path}, q) == Expected(t0, files, w - 1, m, q) {
      assert At(t, q) == Expected(t0, files, w, m, q);
    }
  }

  ghost predicate Rolls(t0: Tree, t: Tree, files: seq<PackageFile>, k: nat, m: nat) {
    forall path :: At(t, path) == Rolling(t0, files, k, m, path)
  }

  lemma RestoreStep(t0: Tree, t: Tree, files: seq<PackageFile>, k: nat, m: nat)
    requires PackagePaths(files) && 0 < k <= m <= |files| && Rolls(t0, t, files, k, m)
    ensures Rolls(t0, if files[k - 1].path in t0 then BackOne(t, files[k - 1].path) else t, files, k - 1, m)
  {
    var u := if files[k - 1].path in t0 then BackOne(t, files[k - 1].path) else t;
    forall q ensures At(u, q) == Rolling(t0, files, k - 1, m, q) {
      RestoreStepAt(t0, t, files, k, m, q);
    }
  }

  lemma RestoreStepAt(t0: Tree, t: Tree, files: seq<PackageFile>, k: nat, m: nat, q: string)
    requires PackagePaths(files) && 0 < k <= m <= |files|
    requires var path := files[k - 1].path;
      forall p | p in {path, BackupOf(path), q} :: At(t, p) == Rolling(t0, files, k, m, p)
    ensures var path := files[k - 1].path;
      At(if path in t0 then BackOne(t, path) else t, q) == Rolling(t0, files, k - 1, m, q)
  {
    var path := files[k - 1].path;
    IndexOfPath(files, k - 1);
    BackupShape(path);
    assert At(t, BackupOf(path)) == Rolling(t0, files, k, m, BackupOf(path));
    assert At(t, path) == Rolling(t0, files, k, m, path);
    assert At(t, q) == Rolling(t0, files, k, m, q);
    assert !InBackup(path) by { if InBackup(path) { BackupInState(path); } }
    if InBackup(q) { BackupInState(q); }
  }

  lemma {:induction false} RestoreRolls(t0: Tree, t: Tree, files: seq<PackageFile>, k: nat, m: nat)
    requires PackagePaths(files) && k <= m <= |files| && Rolls(t0, t, files, k, m)
    ensures Rolls(t0, RestoreBack(t, BackupsOf(t0, files, k)), files, 0, m)
    decreases k
  {
    if k == 0 {
    } else {
      var path := files[k - 1].path;
      var u := if path in t0 then BackOne(t, path) else t;
      RestoreStep(t0, t, files, k, m);
      RestoreRolls(t0, u, files, k - 1, m);
      var rest := BackupsOf(t0, files, k - 1);
      if path in t0 {
        assert BackupsOf(t0, files, k) == rest + [path];
        assert (rest + [path])[..|rest|] == rest;
      } else {
        assert BackupsOf(t0, files, k) == rest;
      }
    }
  }

  lemma SameTree(t: Tree, u: Tree)
    requires forall path :: At(t, path) == At(u, path)
    ensures t == u
  {
    forall path ensures path in t <==> path in u {
      assert At(t, path) == At(u, path);
    }
    forall path | path in t ensures t[path] == u[path] {
      assert At(t, path) == At(u, path);
    }
  }

  /** A failed install has left the tree exactly as it was if and only if the backup directory held nothing of the
      files that were there and had been set aside. */
  lemma RolledBackExactly(t0: Tree, t: Tree, files: seq<PackageFile>, m: nat)
    requires PackagePaths(files) && RolledBack(t0, t, files, m)
    ensures t == t0 <==> forall i | 0 <= i < m && files[i].path in t0 :: BackupOf(files[i].path) !in t0
  {
    forall i | 0 <= i < m && files[i].path in t0 ensures At(t, BackupOf(files[i].path)) == None {
      BackupShape(files[i].path);
      IndexOfPath(files, i);
      assert At(t, BackupOf(files[i].path)) == Rolling(t0, files, 0, m, BackupOf(files[i].path));
    }
    if forall i | 0 <= i < m && files[i].path in t0 :: BackupOf(files[i].path) !in t0 {
      forall path ensures At(t, path) == At(t0, path) {
        assert At(t, path) == Rolling(t0, files, 0, m, path);
        if IsBackup(t0, files, m, path) {
          BackupInState(path);
          assert files[IndexOf(files, path[|BACKUP|..])].path in t0;
        }
      }
      SameTree(t, t0);
    }
  }
}
