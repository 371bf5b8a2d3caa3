/** `uninstall` of src/wayland_vnc/installer.py: it checks the whole manifest before it touches a
    file, then removes, restores and forgets. */
module Uninstaller {
  import opened Results
  import opened Installer
  import Json

  // ----- reading the manifest

  /** What the manifest claims of one installed file. */
  datatype Claim = Claim(path: string, sha256: string)

  datatype Records = Records(installed: seq<Claim>, backups: seq<string>)

  predicate IsClaim(v: Json.Value) {
    v.Obj? && Json.Get(v, "path").Str? && Json.Get(v, "sha256").Str?
  }

  function ClaimsOf(items: seq<Json.Value>): (claims: seq<Claim>)
    requires forall i | 0 <= i < |items| :: IsClaim(items[i])
    ensures |claims| == |items|
  {
    seq(|items|, i requires 0 <= i < |items| && IsClaim(items[i]) => Claim(Json.Get(items[i], "path").s, Json.Get(items[i], "sha256").s))
  }

  function TextsOf(items: seq<Json.Value>): (texts: seq<string>)
    requires forall i | 0 <= i < |items| :: items[i].Str?
    ensures |texts| == |items|
  {
    seq(|items|, i requires 0 <= i < |items| => items[i].s)
  }

  /** `json.loads`, the version check and `_require_manifest_shape`. */
  function ReadRecords(t: Tree): Result<Records> {
    if MANIFEST !in t then Err("FileNotFoundError")
    else if t[MANIFEST].content.Raw? then Err("JSONDecodeError")
    else
      var manifest := t[MANIFEST].content.value;
      if !manifest.Obj? then Err("AttributeError")
      else if !Json.EqualsInt(Json.Get(manifest, "schema_version"), 1) then Err("ValueError")
      else
        var installed, backups := Json.Get(manifest, "installed"), Json.Get(manifest, "backups");
        if !installed.Arr? || !backups.Arr? then Err("ValueError")
        else if exists i | 0 <= i < |installed.items| :: !IsClaim(installed.items[i]) then Err("ValueError")
        else if exists i | 0 <= i < |backups.items| :: !backups.items[i].Str? then Err("ValueError")
        else Ok(Records(ClaimsOf(installed.items), TextsOf(backups.items)))
  }

  predicate Unchanged(t: Tree, claim: Claim, digest: Content -> string) {
    claim.path in t && digest(t[claim.path].content) == claim.sha256
  }

  function CheckRecords(t: Tree, records: Records, digest: Content -> string): Result<Records> {
    if exists i | 0 <= i < |records.installed| :: Unsafe(records.installed[i].path) then Err("ValueError")
    else if exists i | 0 <= i < |records.installed| :: !Unchanged(t, records.installed[i], digest) then Err("RuntimeError")
    else if exists i | 0 <= i < |records.backups| :: Unsafe(BackupOf(records.backups[i])) then Err("ValueError")
    else if exists i | 0 <= i < |records.backups| :: BackupOf(records.backups[i]) !in t then Err("FileNotFoundError")
    else Ok(records)
  }

  /** Everything `uninstall` checks before it changes anything. */
  function Checked(t: Tree, digest: Content -> string): Result<Records> {
    match ReadRecords(t)
    case Err(e) => Err(e)
    case Ok(records) => CheckRecords(t, records, digest)
  }

  /** A manifest `uninstall` reads: version 1, with its list of file records and its list of backups. */
  ghost predicate IsManifest(v: Json.Value) {
    && v.Obj? && "schema_version" in v.fields && "installed" in v.fields && "backups" in v.fields
    && Json.EqualsInt(v.fields["schema_version"], 1)
    && v.fields["installed"].Arr? && v.fields["backups"].Arr?
    && (forall item | item in v.fields["installed"].items ::
          item.Obj? && "path" in item.fields && item.fields["path"].Str?
          && "sha256" in item.fields && item.fields["sha256"].Str?)
    && forall item | item in v.fields["backups"].items :: item.Str?
  }

  /** The manifest is read exactly if it is there and well-formed, and then for what it lists. */
  lemma ReadExactly(t: Tree)
    ensures ReadRecords(t).Ok? <==>
      MANIFEST in t && t[MANIFEST].content.Doc? && IsManifest(t[MANIFEST].content.value)
    ensures ReadRecords(t).Ok? ==>
      var manifest, records := t[MANIFEST].content.value, ReadRecords(t).value;
      && |records.installed| == |manifest.fields["installed"].items|
      && |records.backups| == |manifest.fields["backups"].items|
      && (forall i | 0 <= i < |records.installed| ::
            var item := manifest.fields["installed"].items[i];
            records.installed[i] == Claim(item.fields["path"].s, item.fields["sha256"].s))
      && forall i | 0 <= i < |records.backups| :: records.backups[i] == manifest.fields["backups"].items[i].s
  {
    if MANIFEST in t && t[MANIFEST].content.Doc? && t[MANIFEST].content.value.Obj? {
      var manifest := t[MANIFEST].content.value;
      var installed, backups := Json.Get(manifest, "installed"), Json.Get(manifest, "backups");
      if installed.Arr? && backups.Arr? {
        assert forall i | 0 <= i < |installed.items| :: installed.items[i] in installed.items;
        assert forall i | 0 <= i < |backups.items| :: backups.items[i] in backups.items;
      }
    }
  }

  /** Each listed file is there with the recorded digest, each backup is there, and no path leaves the root. */
  ghost predicate AsRecorded(t: Tree, records: Records, digest: Content -> string) {
    && (forall claim | claim in records.installed ::
          !Unsafe(claim.path) && claim.path in t && digest(t[claim.path].content) == claim.sha256)
    && forall backup | backup in records.backups ::
         !HasParentPart(backup) && "var/lib/wayland-vnc/backup/" + backup in t
  }

  /** The checks accept a manifest exactly if the tree is as it records. */
  lemma CheckedExactly(t: Tree, digest: Content -> string)
    requires ReadRecords(t).Ok?
    ensures Checked(t, digest).Ok? <==> AsRecorded(t, ReadRecords(t).value, digest)
    ensures Checked(t, digest).Ok? ==> Checked(t, digest) == ReadRecords(t)
  {
    var records := ReadRecords(t).value;
    forall i | 0 <= i < |records.backups|
      ensures Unsafe(BackupOf(records.backups[i])) <==> HasParentPart(records.backups[i])
      ensures BackupOf(records.backups[i]) == "var/lib/wayland-vnc/backup/" + records.backups[i]
    {
      BackupParents(records.backups[i]);
      StatePaths(records.backups[i]);
    }
    assert forall i | 0 <= i < |records.installed| :: records.installed[i] in records.installed;
    assert forall i | 0 <= i < |records.backups| :: records.backups[i] in records.backups;
  }

  /** One file that is not as it was installed, or is gone, and `uninstall` touches nothing. */
  lemma ChangedFileStops(t: Tree, digest: Content -> string, claim: Claim)
    requires ReadRecords(t).Ok? && claim in ReadRecords(t).value.installed
    requires claim.path in t ==> digest(t[claim.path].content) != claim.sha256
    ensures Uninstalled(t, digest).0 == t && Uninstalled(t, digest).1.Err?
  {
    CheckedExactly(t, digest);
  }

  /** So does one backup that is gone. */
  lemma MissingBackupStops(t: Tree, digest: Content -> string, backup: string)
    requires ReadRecords(t).Ok? && backup in ReadRecords(t).value.backups
    requires "var/lib/wayland-vnc/backup/" + backup !in t
    ensures Uninstalled(t, digest).0 == t && Uninstalled(t, digest).1.Err?
  {
    CheckedExactly(t, digest);
  }

  function PathsOf(claims: seq<Claim>): (paths: seq<string>)
    ensures |paths| == |claims|
    ensures forall i | 0 <= i < |claims| :: paths[i] == claims[i].path
  {
    seq(|claims|, i requires 0 <= i < |claims| => claims[i].path)
  }

  // ----- the destructive part

  /** Unlinks in order, up to the first path that is not there. */
  function UnlinkEach(t: Tree, paths: seq<string>): (Tree, bool)
    decreases |paths|
  {
    if paths == [] then (t, true)
    else if paths[0] !in t then (t, false)
    else UnlinkEach(t - {paths[0]}, paths[1..])
  }

  /** Moves backups back in order, up to the first one whose destination is refused or that is gone. */
  function RestoreEach(t: Tree, backups: seq<string>): (Tree, bool)
    decreases |backups|
  {
    if backups == [] then (t, true)
    else if Unsafe(backups[0]) || BackupOf(backups[0]) !in t then (t, false)
    else RestoreEach(Moved(t, BackupOf(backups[0]), backups[0]), backups[1..])
  }

  function WithoutBackups(t: Tree): Tree {
    map path | path in t && !InBackup(path) :: t[path]
  }

  /** What `uninstall` leaves of a tree, and what it returns. */
  function Uninstalled(t: Tree, digest: Content -> string): (Tree, Result<(seq<string>, seq<string>)>) {
    match Checked(t, digest)
    case Err(e) => (t, Err(e))
    case Ok(records) =>
      var (u, unlinked) := UnlinkEach(t, PathsOf(records.installed));
      if !unlinked then (u, Err("FileNotFoundError"))
      else
        var (v, restored) := RestoreEach(u, records.backups);
        if !restored then (v, Err("OSError or ValueError"))
        else if MANIFEST !in v then (v, Err("FileNotFoundError"))
        else (WithoutBackups(v - {MANIFEST}), Ok((PathsOf(records.installed), records.backups)))
  }

  /** A tree with a readable manifest that it is as recorded by. */
  ghost predicate Accepted(t: Tree, digest: Content -> string) {
    ReadRecords(t).Ok? && AsRecorded(t, ReadRecords(t).value, digest)
  }

  lemma AcceptedExactly(t: Tree, digest: Content -> string)
    ensures Accepted(t, digest) <==> Checked(t, digest).Ok?
  {
    if ReadRecords(t).Ok? {
      CheckedExactly(t, digest);
    }
  }

  method CheckFirst(t: Tree, digest: Content -> string) returns (r: Result<Records>)
    ensures r == Checked(t, digest)
  {
    var read := ReadRecords(t);
    if read.Err? {
      return Err(read.error);
    }
    var records := read.value;
    var changed: seq<string> := [];
    for i := 0 to |records.installed|
      invariant forall j | 0 <= j < i :: !Unsafe(records.installed[j].path)
      invariant changed == [] <==> forall j | 0 <= j < i :: Unchanged(t, records.installed[j], digest)
    {
      if Unsafe(records.installed[i].path) {
        return Err("ValueError");
      }
      if !Unchanged(t, records.installed[i], digest) {
        changed := changed + [records.installed[i].path];
      }
    }
    if changed != [] {
      return Err("RuntimeError");
    }
    var missing: seq<string> := [];
    for i := 0 to |records.backups|
      invariant forall j | 0 <= j < i :: !Unsafe(BackupOf(records.backups[j]))
      invariant missing == [] <==> forall j | 0 <= j < i :: BackupOf(records.backups[j]) in t
    {
      if Unsafe(BackupOf(records.backups[i])) {
        return Err("ValueError");
      }
      if BackupOf(records.backups[i]) !in t {
        missing := missing + [records.backups[i]];
      }
    }
    if missing != [] {
      return Err("FileNotFoundError");
    }
    r := Ok(records);
  }

  method Uninstall(root: Root, digest: Content -> string) returns (r: Result<(seq<string>, seq<string>)>)
    modifies root
    ensures (root.tree, r) == Uninstalled(old(root.tree), digest)
    ensures !Accepted(old(root.tree), digest) ==> r.Err? && root.tree == old(root.tree)
  {
    AcceptedExactly(root.tree, digest);
    var checked := CheckFirst(root.tree, digest);
    if checked.Err? {
      return Err(checked.error);
    }
    var records := checked.value;
    var paths := PathsOf(records.installed);
    for i := 0 to |paths|
      invariant UnlinkEach(root.tree, paths[i..]) == UnlinkEach(old(root.tree), paths)
    {
      assert paths[i..][0] == paths[i] && paths[i..][1..] == paths[i + 1..];
      if paths[i] !in root.tree {
        return Err("FileNotFoundError");
      }
      root.Unlink(paths[i]);
    }
    ghost var u := root.tree;
    var backups := records.backups;
    for i := 0 to |backups|
      invariant RestoreEach(root.tree, backups[i..]) == RestoreEach(u, backups)
    {
      assert backups[i..][0] == backups[i] && backups[i..][1..] == backups[i + 1..];
      if Unsafe(backups[i]) || BackupOf(backups[i]) !in root.tree {
        return Err("OSError or ValueError");
      }
      root.Replace(BackupOf(backups[i]), backups[i]);
    }
    if MANIFEST !in root.tree {
      return Err("FileNotFoundError");
    }
    root.Unlink(MANIFEST);
    root.tree := WithoutBackups(root.tree);
    r := Ok((paths, backups));
  }

  // ----- what the destructive part does

  predicate NoRepeat(paths: seq<string>) {
    paths == [] || (paths[0] !in paths[1..] && NoRepeat(paths[1..]))
  }

  lemma {:induction false} NoRepeatAppend(paths: seq<string>, path: string)
    requires NoRepeat(paths) && path !in paths
    ensures NoRepeat(paths + [path])
  {
    if paths == [] {
    } else {
      assert (paths + [path])[1..] == paths[1..] + [path];
      NoRepeatAppend(paths[1..], path);
    }
  }

  lemma {:induction false} UnlinkMissing(t: Tree, paths: seq<string>, path: string)
    requires path in paths && path !in t
    ensures !UnlinkEach(t, paths).1
    decreases |paths|
  {
    if paths[0] in t {
      UnlinkMissing(t - {paths[0]}, paths[1..], path);
    }
  }

  /** Files that are all there can be unlinked one by one exactly if none is listed twice. */
  lemma {:induction false} UnlinkEachEffect(t: Tree, paths: seq<string>)
    requires forall p | p in paths :: p in t
    ensures UnlinkEach(t, paths).1 <==> NoRepeat(paths)
    ensures UnlinkEach(t, paths).1 ==> forall q :: At(UnlinkEach(t, paths).0, q) == if q in paths then None else At(t, q)
    decreases |paths|
  {
    if paths == [] {
    } else {
      var rest := paths[1..];
      assert paths == [paths[0]] + rest;
      if paths[0] in rest {
        UnlinkMissing(t - {paths[0]}, rest, paths[0]);
      } else {
        UnlinkEachEffect(t - {paths[0]}, rest);
      }
    }
  }

  lemma BackupInjective(a: string, b: string)
    ensures BackupOf(a) == BackupOf(b) ==> a == b
  {
    BackupShape(a);
    BackupShape(b);
  }

  /** Some entry of the list between two others is this path. */
  predicate WrittenBetween(backups: seq<string>, from: int, to: int, path: string) {
    exists k | 0 <= k < |backups| && from < k < to :: backups[k] == path
  }

  /** Every earlier entry that moves the same backup away is followed by one that writes a new one. */
  predicate Refilled(backups: seq<string>, i: nat)
    requires i < |backups|
  {
    forall j | 0 <= j < i && backups[j] == backups[i] :: WrittenBetween(backups, j, i, BackupOf(backups[i]))
  }

  /** When its turn comes, the backup of entry `i` is there, in the tree or put there by an earlier entry. */
  predicate Supplied(backups: seq<string>, i: nat, there: bool)
    requires i < |backups|
  {
    Refilled(backups, i) && (there || WrittenBetween(backups, -1, i, BackupOf(backups[i])))
  }

  predicate Restorable(t: Tree, backups: seq<string>, i: nat)
    requires i < |backups|
  {
    !Unsafe(backups[i]) && Supplied(backups, i, BackupOf(backups[i]) in t)
  }

  lemma WrittenLater(backups: seq<string>, from: int, to: int, path: string)
    requires backups != [] && 0 <= from
    ensures WrittenBetween(backups, from, to, path) <==> WrittenBetween(backups[1..], from - 1, to - 1, path)
  {
    var rest := backups[1..];
    assert forall k | 1 <= k < |backups| :: backups[k] == rest[k - 1];
  }

  lemma WrittenFirst(backups: seq<string>, to: int, path: string)
    requires backups != [] && 0 < to
    ensures WrittenBetween(backups, -1, to, path) <==> backups[0] == path || WrittenBetween(backups, 0, to, path)
  {
  }

  lemma RefilledLater(backups: seq<string>, i: nat)
    requires 0 < i < |backups|
    ensures Refilled(backups, i) <==>
      Refilled(backups[1..], i - 1) && (backups[0] == backups[i] ==> WrittenBetween(backups, 0, i, BackupOf(backups[i])))
  {
    var rest, path := backups[1..], BackupOf(backups[i]);
    assert rest[i - 1] == backups[i];
    forall j | 1 <= j < i
      ensures backups[j] == rest[j - 1] && (WrittenBetween(backups, j, i, path) <==> WrittenBetween(rest, j - 1, i - 1, path))
    {
      WrittenLater(backups, j, i, path);
    }
    if Refilled(backups, i) {
      forall j | 0 <= j < i - 1 && rest[j] == rest[i - 1] ensures WrittenBetween(rest, j, i - 1, path) {
        assert backups[j + 1] == backups[i];
      }
    }
    if Refilled(rest, i - 1) && (backups[0] == backups[i] ==> WrittenBetween(backups, 0, i, path)) {
      forall j | 0 <= j < i && backups[j] == backups[i] ensures WrittenBetween(backups, j, i, path) {
        if 0 < j {
          assert rest[j - 1] == rest[i - 1];
        }
      }
    }
  }

  /** Moving the first backup back changes what the later entries find, and nothing else about them. */
  lemma RestorableLater(t: Tree, backups: seq<string>, i: nat)
    requires 0 < i < |backups| && BackupOf(backups[0]) in t
    ensures Restorable(t, backups, i) <==>
      Restorable(Moved(t, BackupOf(backups[0]), backups[0]), backups[1..], i - 1)
  {
    var b, c := backups[0], backups[i];
    RefilledLater(backups, i);
    WrittenFirst(backups, i, BackupOf(c));
    WrittenLater(backups, 0, i, BackupOf(c));
    BackupInjective(b, c);
    BackupShape(c);
  }

  /** Backups go back one by one, from any tree and in any order, exactly if no destination is refused
      and each is there when its turn comes. */
  lemma {:induction false} RestoreEachSucceeds(t: Tree, backups: seq<string>)
    ensures RestoreEach(t, backups).1 <==> forall i | 0 <= i < |backups| :: Restorable(t, backups, i)
    decreases |backups|
  {
    if backups == [] {
    } else if Restorable(t, backups, 0) {
      var u, rest := Moved(t, BackupOf(backups[0]), backups[0]), backups[1..];
      RestoreEachSucceeds(u, rest);
      forall i | 1 <= i < |backups| ensures Restorable(t, backups, i) <==> Restorable(u, rest, i - 1) {
        RestorableLater(t, backups, i);
      }
      if RestoreEach(u, rest).1 {
        forall i | 0 <= i < |backups| ensures Restorable(t, backups, i) {
          assert 0 < i ==> Restorable(u, rest, i - 1);
        }
      } else {
        var i :| 0 <= i < |rest| && !Restorable(u, rest, i);
        assert !Restorable(t, backups, i + 1);
      }
    }
  }

  /** What a path holds after the first `n` backups went back: followed back to where it came from. */
  function Traced(t: Tree, backups: seq<string>, n: nat, path: string): Option<File>
    requires n <= |backups|
  {
    if n == 0 then At(t, path)
    else if backups[n - 1] == path then Traced(t, backups, n - 1, BackupOf(path))
    else if BackupOf(backups[n - 1]) == path then None
    else Traced(t, backups, n - 1, path)
  }

  lemma {:induction false} TracedLater(t: Tree, backups: seq<string>, n: nat, path: string)
    requires n < |backups| && BackupOf(backups[0]) in t
    ensures Traced(t, backups, n + 1, path) ==
      Traced(Moved(t, BackupOf(backups[0]), backups[0]), backups[1..], n, path)
  {
    BackupShape(path);
    BackupShape(backups[0]);
    if n == 0 {
      assert Traced(t, backups, 1, path) ==
        if backups[0] == path then Traced(t, backups, 0, BackupOf(path))
        else if BackupOf(backups[0]) == path then None
        else Traced(t, backups, 0, path);
    } else {
      assert backups[1..][n - 1] == backups[n];
      TracedLater(t, backups, n - 1, path);
      TracedLater(t, backups, n - 1, BackupOf(path));
    }
  }

  /** What the restores do to every path. */
  lemma {:induction false} RestoreEachEffect(t: Tree, backups: seq<string>, path: string)
    requires RestoreEach(t, backups).1
    ensures At(RestoreEach(t, backups).0, path) == Traced(t, backups, |backups|, path)
    decreases |backups|
  {
    if backups == [] {
    } else {
      TracedLater(t, backups, |backups| - 1, path);
      RestoreEachEffect(Moved(t, BackupOf(backups[0]), backups[0]), backups[1..], path);
    }
  }

  // ----- the laws

  lemma {:induction false} ManifestStays(t: Tree, backups: seq<string>)
    requires RestoreEach(t, backups).1
    ensures MANIFEST in RestoreEach(t, backups).0 <==> MANIFEST in t || MANIFEST in backups
    decreases |backups|
  {
    if backups == [] {
    } else {
      BackupShape(backups[0]);
      ManifestStays(Moved(t, BackupOf(backups[0]), backups[0]), backups[1..]);
      assert backups == [backups[0]] + backups[1..];
    }
  }

  /** What a manifest must be like for `uninstall` to go through with it: nothing installed is listed
      twice, a manifest that lists itself is among the backups too, and each backup goes to a relative
      path and, unless an earlier entry moves it away or it is listed as installed, is still there. */
  predicate GoesThrough(records: Records) {
    var paths, backups := PathsOf(records.installed), records.backups;
    && NoRepeat(paths) && (MANIFEST in paths ==> MANIFEST in backups)
    && forall i | 0 <= i < |backups| ::
         !Absolute(backups[i]) && Supplied(backups, i, BackupOf(backups[i]) !in paths)
  }

  /** What is left at a path: no manifest, nothing in the backup directory, and elsewhere what the
      restores bring there from what the unlinks left. */
  function CarriedThrough(t: Tree, records: Records, q: string): Option<File> {
    if q == MANIFEST || InBackup(q) then None
    else Traced(UnlinkEach(t, PathsOf(records.installed)).0, records.backups, |records.backups|, q)
  }

  lemma CheckedPresent(t: Tree, digest: Content -> string, records: Records)
    requires Checked(t, digest) == Ok(records)
    ensures MANIFEST in t && forall p | p in PathsOf(records.installed) :: p in t
    ensures forall b | b in records.backups :: BackupOf(b) in t && (Unsafe(b) <==> Absolute(b))
  {
    var paths := PathsOf(records.installed);
    forall p | p in paths ensures p in t {
      var i :| 0 <= i < |paths| && paths[i] == p;
      assert Unchanged(t, records.installed[i], digest);
    }
    forall b | b in records.backups ensures BackupOf(b) in t && (Unsafe(b) <==> Absolute(b)) {
      var i :| 0 <= i < |records.backups| && records.backups[i] == b;
      BackupParents(b);
    }
  }

  lemma RestoresAfterUnlinks(t: Tree, paths: seq<string>, backups: seq<string>)
    requires (forall p | p in paths :: p in t) && NoRepeat(paths)
    requires forall b | b in backups :: BackupOf(b) in t && (Unsafe(b) <==> Absolute(b))
    ensures RestoreEach(UnlinkEach(t, paths).0, backups).1 <==> forall i | 0 <= i < |backups| ::
      !Absolute(backups[i]) && Supplied(backups, i, BackupOf(backups[i]) !in paths)
  {
    var u := UnlinkEach(t, paths).0;
    UnlinkEachEffect(t, paths);
    RestoreEachSucceeds(u, backups);
    forall i | 0 <= i < |backups|
      ensures Restorable(u, backups, i) <==>
        !Absolute(backups[i]) && Supplied(backups, i, BackupOf(backups[i]) !in paths)
    {
      assert backups[i] in backups;
      assert At(u, BackupOf(backups[i])) == if BackupOf(backups[i]) in paths then None else At(t, BackupOf(backups[i]));
    }
  }

  /** Once the checks have passed, `uninstall` succeeds exactly if the manifest goes through, which can
      be told from the manifest alone; and what it then leaves at every path. */
  lemma CheckedIsCarriedThrough(t: Tree, digest: Content -> string, records: Records)
    requires Checked(t, digest) == Ok(records)
    ensures Uninstalled(t, digest).1.Ok? <==> GoesThrough(records)
    ensures Uninstalled(t, digest).1.Ok? ==>
      forall q :: At(Uninstalled(t, digest).0, q) == CarriedThrough(t, records, q)
    ensures Uninstalled(t, digest).1.Ok? ==>
      var (removed, restored) := Uninstalled(t, digest).1.value;
      && restored == records.backups && |removed| == |records.installed|
      && forall i | 0 <= i < |removed| :: removed[i] == records.installed[i].path
  {
    var paths, backups := PathsOf(records.installed), records.backups;
    CheckedPresent(t, digest, records);
    UnlinkEachEffect(t, paths);
    if NoRepeat(paths) {
      var u := UnlinkEach(t, paths).0;
      RestoresAfterUnlinks(t, paths, backups);
      if RestoreEach(u, backups).1 {
        ManifestStays(u, backups);
        assert At(u, MANIFEST) == if MANIFEST in paths then None else At(t, MANIFEST);
        forall q ensures At(RestoreEach(u, backups).0, q) == Traced(u, backups, |backups|, q) {
          RestoreEachEffect(u, backups, q);
        }
      }
    }
  }

  // ----- manifests whose backups go back outside the state directory

  ghost predicate OutsideState(paths: seq<string>) {
    forall p | p in paths :: !InState(p)
  }

  lemma {:induction false} NoRepeatIndices(paths: seq<string>)
    ensures NoRepeat(paths) <==> forall i, j | 0 <= j < i < |paths| :: paths[j] != paths[i]
  {
    if paths == [] {
    } else {
      var rest := paths[1..];
      NoRepeatIndices(rest);
      assert forall i | 1 <= i < |paths| :: paths[i] == rest[i - 1];
      if paths[0] in rest {
        var i :| 0 <= i < |rest| && rest[i] == paths[0];
        assert paths[0] == paths[i + 1];
      } else if NoRepeat(rest) {
        forall i, j | 0 <= j < i < |paths| ensures paths[j] != paths[i] {
          if 0 < j {
            assert rest[j - 1] != rest[i - 1];
          }
        }
      } else {
        var i, j :| 0 <= j < i < |rest| && rest[j] == rest[i];
        assert paths[j + 1] == paths[i + 1];
      }
    }
  }

  lemma SuppliedOutside(backups: seq<string>, i: nat, there: bool)
    requires OutsideState(backups) && i < |backups|
    ensures Supplied(backups, i, there) <==> there && forall j | 0 <= j < i :: backups[j] != backups[i]
  {
    BackupShape(backups[i]);
    assert BackupOf(backups[i]) !in backups;
    assert forall from, to :: !WrittenBetween(backups, from, to, BackupOf(backups[i]));
  }

  lemma {:induction false} TracedOutside(t: Tree, backups: seq<string>, n: nat, path: string)
    requires OutsideState(backups) && n <= |backups|
    requires forall i, j | 0 <= j < i < |backups| :: backups[j] != backups[i]
    ensures !InBackup(path) ==>
      Traced(t, backups, n, path) == if path in backups[..n] then At(t, BackupOf(path)) else At(t, path)
    ensures (forall j | 0 <= j < n :: backups[j] != path) ==> Traced(t, backups, n, BackupOf(path)) == At(t, BackupOf(path))
  {
    if n == 0 {
    } else {
      var last := backups[n - 1];
      assert backups[..n] == backups[..n - 1] + [last];
      assert last in backups;
      BackupShape(path);
      BackupShape(last);
      BackupInjective(last, path);
      TracedOutside(t, backups, n - 1, path);
    }
  }

  /** For backups that go back outside the state directory it comes to this: nothing is listed twice, no
      backup goes to an absolute path, and neither the manifest nor a backup is listed as installed; then
      every path listed as backed up gets its backup back, every other one listed as installed goes, and
      nothing else changes outside the backup directory. */
  lemma OutsideIsCarriedThrough(t: Tree, digest: Content -> string, records: Records)
    requires Checked(t, digest) == Ok(records) && OutsideState(records.backups)
    ensures var paths := PathsOf(records.installed);
      Uninstalled(t, digest).1.Ok? <==>
      && NoRepeat(paths) && NoRepeat(records.backups) && MANIFEST !in paths
      && forall b | b in records.backups :: !Absolute(b) && BackupOf(b) !in paths
    ensures Uninstalled(t, digest).1.Ok? ==>
      forall q :: At(Uninstalled(t, digest).0, q) ==
        if q == MANIFEST || InBackup(q) then None
        else if q in records.backups then At(t, BackupOf(q))
        else if q in PathsOf(records.installed) then None
        else At(t, q)
  {
    CheckedIsCarriedThrough(t, digest, records);
    OutsideGoesThrough(records);
    if Uninstalled(t, digest).1.Ok? {
      forall q | q != MANIFEST && !InBackup(q)
        ensures CarriedThrough(t, records, q) ==
          if q in records.backups then At(t, BackupOf(q))
          else if q in PathsOf(records.installed) then None
          else At(t, q)
      {
        OutsideCarried(t, digest, records, q);
      }
    }
  }

  lemma OutsideGoesThrough(records: Records)
    requires OutsideState(records.backups)
    ensures var paths := PathsOf(records.installed);
      GoesThrough(records) <==>
      && NoRepeat(paths) && NoRepeat(records.backups) && MANIFEST !in paths
      && forall b | b in records.backups :: !Absolute(b) && BackupOf(b) !in paths
  {
    var paths, backups := PathsOf(records.installed), records.backups;
    NoRepeatIndices(backups);
    BackupShape("");
    forall i | 0 <= i < |backups|
      ensures Supplied(backups, i, BackupOf(backups[i]) !in paths) <==>
        BackupOf(backups[i]) !in paths && forall j | 0 <= j < i :: backups[j] != backups[i]
    {
      SuppliedOutside(backups, i, BackupOf(backups[i]) !in paths);
    }
  }

  lemma OutsideCarried(t: Tree, digest: Content -> string, records: Records, q: string)
    requires Checked(t, digest) == Ok(records) && OutsideState(records.backups) && GoesThrough(records)
    requires q != MANIFEST && !InBackup(q)
    ensures CarriedThrough(t, records, q) ==
      if q in records.backups then At(t, BackupOf(q))
      else if q in PathsOf(records.installed) then None
      else At(t, q)
  {
    var paths, backups := PathsOf(records.installed), records.backups;
    OutsideGoesThrough(records);
    NoRepeatIndices(backups);
    CheckedPresent(t, digest, records);
    UnlinkEachEffect(t, paths);
    TracedOutside(UnlinkEach(t, paths).0, backups, |backups|, q);
    assert backups[..|backups|] == backups;
  }

  lemma BackupParts(path: string)
    ensures BackupOf(path) == "var" + "/" + ("lib" + "/" + ("wayland-vnc" + "/" + ("backup" + "/" + path)))
  {
    StateText();
    BackupText();
    Nested("var" + "/", "lib" + "/", "wayland-vnc" + "/", "backup" + "/", path);
  }

  lemma StateText()
    ensures STATE == "var" + "/" + ("lib" + "/" + ("wayland-vnc" + "/"))
  {
  }

  lemma BackupText()
    ensures BACKUP == STATE + ("backup" + "/")
  {
  }

  lemma Nested(a: string, b: string, c: string, d: string, path: string)
    ensures a + (b + c) + d + path == a + (b + (c + (d + path)))
  {
  }

  lemma UnderVar(rest: string)
    ensures HasParentPart("var" + "/" + rest) <==> HasParentPart(rest)
    ensures !Absolute("var" + "/" + rest)
  {
    FirstPartOf("var", rest);
  }

  lemma UnderLib(rest: string)
    ensures HasParentPart("lib" + "/" + rest) <==> HasParentPart(rest)
  {
    FirstPartOf("lib", rest);
  }

  lemma UnderProject(rest: string)
    ensures HasParentPart("wayland-vnc" + "/" + rest) <==> HasParentPart(rest)
  {
    FirstPartOf("wayland-vnc", rest);
  }

  lemma UnderBackup(rest: string)
    ensures HasParentPart("backup" + "/" + rest) <==> HasParentPart(rest)
  {
    FirstPartOf("backup", rest);
  }

  lemma BackupParents(path: string)
    ensures Unsafe(BackupOf(path)) <==> HasParentPart(path)
  {
    var a := "backup" + "/" + path;
    var b := "wayland-vnc" + "/" + a;
    var c := "lib" + "/" + b;
    BackupParts(path);
    UnderBackup(path);
    UnderProject(a);
    UnderLib(b);
    UnderVar(c);
  }

  lemma {:induction false} FirstPartOf(part: string, rest: string)
    requires forall i | 0 <= i < |part| :: part[i] != '/'
    ensures FirstPart(part + "/" + rest) == part
    ensures part != ".." ==> (HasParentPart(part + "/" + rest) <==> HasParentPart(rest))
  {
    var path := part + "/" + rest;
    if part == "" {
    } else {
      assert path[1..] == part[1..] + "/" + rest;
      FirstPartOf(part[1..], rest);
    }
    assert path[|part| + 1..] == rest;
  }

  // ----- when it fails

  lemma {:induction false} LastMovedIsGone(t: Tree, backups: seq<string>) returns (b: string)
    requires backups != [] && !Unsafe(backups[0]) && BackupOf(backups[0]) in t
    ensures b in backups && BackupOf(b) !in RestoreEach(t, backups).0
    decreases |backups|
  {
    var u, rest := Moved(t, BackupOf(backups[0]), backups[0]), backups[1..];
    if rest != [] && !Unsafe(rest[0]) && BackupOf(rest[0]) in u {
      b := LastMovedIsGone(u, rest);
    } else {
      b := backups[0];
      BackupShape(b);
    }
  }

  lemma {:induction false} UnlinkKeeps(t: Tree, paths: seq<string>, path: string)
    ensures path in UnlinkEach(t, paths).0 ==> path in t && (paths != [] && paths[0] in t ==> path != paths[0])
    decreases |paths|
  {
    if paths == [] || paths[0] !in t {
    } else {
      UnlinkKeeps(t - {paths[0]}, paths[1..], path);
    }
  }

  /** An `uninstall` that raises has left the tree as it was exactly if a check raised, or nothing was listed as
      installed and the first backup is to go to an absolute path. */
  lemma FailureKeepsTree(t: Tree, digest: Content -> string)
    requires Uninstalled(t, digest).1.Err?
    ensures Uninstalled(t, digest).0 == t <==>
      match Checked(t, digest)
      case Err(_) => true
      case Ok(records) => records.installed == [] && records.backups != [] && Absolute(records.backups[0])
  {
    var left := Uninstalled(t, digest).0;
    if Checked(t, digest).Ok? {
      var records := Checked(t, digest).value;
      var paths, backups := PathsOf(records.installed), records.backups;
      CheckedPresent(t, digest, records);
      var u := UnlinkEach(t, paths).0;
      if UnlinkEach(t, paths).1 && backups != [] && !Unsafe(backups[0]) && BackupOf(backups[0]) in u {
        var b := LastMovedIsGone(u, backups);
        assert BackupOf(b) in t && BackupOf(b) !in left;
      } else if paths != [] {
        UnlinkKeeps(t, paths, paths[0]);
        assert paths[0] in t && paths[0] !in left;
      } else {
        assert backups != [] && backups[0] in backups;
      }
    }
  }

  /** A manifest of one installed file with its digest, and one backup. */
  function OneOfEach(path: string, sha256: string, backup: string): Json.Value {
    Json.Obj(map[
      "schema_version" := Json.Int(1),
      "installed" := Json.Arr([Json.Obj(map["path" := Json.Str(path), "sha256" := Json.Str(sha256)])]),
      "backups" := Json.Arr([Json.Str(backup)])])
  }

  lemma OneOfEachReads(t: Tree, path: string, sha256: string, backup: string)
    requires MANIFEST in t && t[MANIFEST].content == Doc(OneOfEach(path, sha256, backup))
    ensures ReadRecords(t) == Ok(Records([Claim(path, sha256)], [backup]))
  {
    var manifest := OneOfEach(path, sha256, backup);
    var installed, backups := Json.Get(manifest, "installed").items, Json.Get(manifest, "backups").items;
    assert |installed| == 1 && IsClaim(installed[0]) && |backups| == 1 && backups[0].Str?;
    assert ClaimsOf(installed) == [Claim(path, sha256)] && TextsOf(backups) == [backup];
  }

  lemma OneOfEachPasses(t: Tree, digest: Content -> string, path: string, backup: string)
    requires path in t && MANIFEST in t
    requires t[MANIFEST].content == Doc(OneOfEach(path, digest(t[path].content), backup))
    requires !Unsafe(path) && !HasParentPart(backup) && BackupOf(backup) in t
    ensures Checked(t, digest) == Ok(Records([Claim(path, digest(t[path].content))], [backup]))
  {
    OneOfEachReads(t, path, digest(t[path].content), backup);
    BackupParents(backup);
  }

  lemma OneOfEachGone(t: Tree, digest: Content -> string, path: string, backup: string)
    requires path in t && (Unsafe(backup) || path == BackupOf(backup)) && path != BackupOf(BackupOf(backup))
    requires Checked(t, digest) == Ok(Records([Claim(path, digest(t[path].content))], [backup]))
    ensures var (left, r) := Uninstalled(t, digest); r.Err? && path !in left
  {
    assert PathsOf([Claim(path, digest(t[path].content))]) == [path];
    assert UnlinkEach(t, [path]) == (t - {path}, true);
  }

  lemma RelativeTexts()
    ensures !Unsafe("a") && !HasParentPart("/b") && !HasParentPart("x") && !HasParentPart(BackupOf("x"))
    ensures Unsafe("/b") && !Unsafe(BackupOf("x"))
  {
    assert FirstPart("a") == "a" && FirstPart("x") == "x";
    assert FirstPart("/b") == "" && "/b"[1..] == "b" && FirstPart("b") == "b";
    BackupParents("x");
  }

  /** The checks do not cover an absolute backup path: a manifest with one passes them in any tree that
      has the file, unchanged, and the backup, and `uninstall` raises with the installed file gone. */
  lemma AbsoluteBackupLosesFile(t: Tree, digest: Content -> string)
    requires "a" in t && BackupOf("/b") in t && MANIFEST in t
    requires t[MANIFEST].content == Doc(OneOfEach("a", digest(t["a"].content), "/b"))
    ensures Checked(t, digest).Ok?
    ensures var (left, r) := Uninstalled(t, digest); r.Err? && "a" !in left
  {
    RelativeTexts();
    OneOfEachPasses(t, digest, "a", "/b");
    assert |BackupOf(BackupOf("/b"))| > |"a"|;
    OneOfEachGone(t, digest, "a", "/b");
  }

  /** Nor do they cover a backup that is listed as installed: `uninstall` unlinks it, the only copy of what
      was there before, and then raises because it is missing. */
  lemma ListedBackupIsLost(t: Tree, digest: Content -> string)
    requires BackupOf("x") in t && MANIFEST in t
    requires t[MANIFEST].content == Doc(OneOfEach(BackupOf("x"), digest(t[BackupOf("x")].content), "x"))
    ensures Checked(t, digest).Ok?
    ensures var (left, r) := Uninstalled(t, digest); r.Err? && BackupOf("x") !in left
  {
    RelativeTexts();
    OneOfEachPasses(t, digest, BackupOf("x"), "x");
    assert |BackupOf(BackupOf("x"))| > |BackupOf("x")|;
    OneOfEachGone(t, digest, BackupOf("x"), "x");
  }

  // ----- install, then uninstall

  lemma {:induction false} BackupsOfMember(t0: Tree, files: seq<PackageFile>, m: nat, path: string)
    requires m <= |files| && PackagePaths(files)
    ensures path in BackupsOf(t0, files, m) <==> path in t0 && IndexOf(files, path) < m
    decreases m
  {
    if m == 0 {
    } else {
      BackupsOfMember(t0, files, m - 1, path);
      IndexOfPath(files, m - 1);
    }
  }

  lemma {:induction false} BackupsOfNoRepeat(t0: Tree, files: seq<PackageFile>, m: nat)
    requires m <= |files| && PackagePaths(files)
    ensures NoRepeat(BackupsOf(t0, files, m))
    decreases m
  {
    if m == 0 {
    } else {
      BackupsOfNoRepeat(t0, files, m - 1);
      BackupsOfMember(t0, files, m - 1, files[m - 1].path);
      IndexOfPath(files, m - 1);
      var rest := BackupsOf(t0, files, m - 1);
      assert rest + [] == rest;
      NoRepeatAppend(BackupsOf(t0, files, m - 1), files[m - 1].path);
    }
  }

  lemma ManifestReads(t: Tree, files: seq<PackageFile>, backend: string, digest: Content -> string, backups: seq<string>)
    requires At(t, MANIFEST) == Some(File(Doc(ManifestDoc(backend, RecordsOf(files, digest), backups)), 0x180))
    ensures var read := ReadRecords(t);
      && read.Ok? && read.value.backups == backups
      && |read.value.installed| == |files|
      && forall i | 0 <= i < |files| ::
           read.value.installed[i] == Claim(files[i].path, digest(Raw(files[i].contents)))
  {
    var manifest := t[MANIFEST].content.value;
    var installed := Json.Get(manifest, "installed");
    forall i | 0 <= i < |installed.items|
      ensures IsClaim(installed.items[i])
      ensures Json.Get(installed.items[i], "path").s == files[i].path
      ensures Json.Get(installed.items[i], "sha256").s == digest(Raw(files[i].contents))
    {
      assert installed.items[i] == RecordDoc(RecordsOf(files, digest)[i]);
    }
    assert TextsOf(Json.Get(manifest, "backups").items) == backups;
  }

  /** The manifest of a finished install, field by field: what went where with which digest and mode, and
      which of the paths held something before. */
  lemma ManifestTells(t0: Tree, t: Tree, files: seq<PackageFile>, backend: string, digest: Content -> string)
    requires PackagePaths(files) && Installed(t0, t, files, backend, digest)
    ensures MANIFEST in t && t[MANIFEST].mode == 0x180 && t[MANIFEST].content.Doc?
    ensures var manifest := t[MANIFEST].content.value;
      && IsManifest(manifest) && Json.Get(manifest, "backend") == Json.Str(backend)
      && |manifest.fields["installed"].items| == |files|
      && (forall i | 0 <= i < |files| :: manifest.fields["installed"].items[i] == Json.Obj(map[
            "path" := Json.Str(files[i].path),
            "sha256" := Json.Str(digest(Raw(files[i].contents))),
            "mode" := Json.Int(files[i].mode)]))
      && forall path :: Json.Str(path) in manifest.fields["backups"].items <==>
           path in t0 && exists i :: 0 <= i < |files| && files[i].path == path
  {
    assert At(t, MANIFEST) == InstalledAt(t0, files, backend, digest, MANIFEST);
    var manifest := ManifestDoc(backend, RecordsOf(files, digest), BackupsOf(t0, files, |files|));
    var installed, backups := manifest.fields["installed"].items, manifest.fields["backups"].items;
    assert forall i | 0 <= i < |installed| :: installed[i] == RecordDoc(RecordsOf(files, digest)[i]);
    forall path
      ensures Json.Str(path) in backups <==> path in t0 && exists i :: 0 <= i < |files| && files[i].path == path
    {
      BackupsOfMember(t0, files, |files|, path);
      StringsMember(BackupsOf(t0, files, |files|), path);
      if i :| 0 <= i < |files| && files[i].path == path {
        IndexOfPath(files, i);
      }
    }
  }

  lemma StringsMember(texts: seq<string>, text: string)
    ensures Json.Str(text) in Json.Strings(texts).items <==> text in texts
  {
    var items := Json.Strings(texts).items;
    if text in texts {
      var i :| 0 <= i < |texts| && texts[i] == text;
      assert items[i] == Json.Str(text);
    }
  }

  ghost predicate Claims(records: Records, files: seq<PackageFile>, digest: Content -> string) {
    && |records.installed| == |files|
    && forall i | 0 <= i < |files| :: records.installed[i] == Claim(files[i].path, digest(Raw(files[i].contents)))
  }

  /** Nothing that `install` put there or set aside has been touched since. */
  ghost predicate Untouched(
      t0: Tree, t: Tree, files: seq<PackageFile>, backend: string, digest: Content -> string)
  {
    forall path | InState(path) || IndexOf(files, path) < |files| ::
      At(t, path) == InstalledAt(t0, files, backend, digest, path)
  }

  lemma UntouchedPackage(
      t0: Tree, t: Tree, files: seq<PackageFile>, backend: string, digest: Content -> string, i: nat)
    requires PackagePaths(files) && i < |files| && Untouched(t0, t, files, backend, digest)
    ensures At(t, files[i].path) == Some(File(Raw(files[i].contents), files[i].mode))
  {
    IndexOfPath(files, i);
    NotInBackup(files[i].path);
    assert At(t, files[i].path) == InstalledAt(t0, files, backend, digest, files[i].path);
  }

  lemma UntouchedBackup(
      t0: Tree, t: Tree, files: seq<PackageFile>, backend: string, digest: Content -> string, b: string)
    requires PackagePaths(files) && (forall i | 0 <= i < |files| :: !Unsafe(files[i].path))
    requires Untouched(t0, t, files, backend, digest) && b in BackupsOf(t0, files, |files|)
    ensures b in t0 && At(t, BackupOf(b)) == At(t0, b) && !Unsafe(b) && !Unsafe(BackupOf(b)) && !InState(b)
  {
    BackupsOfMember(t0, files, |files|, b);
    BackupShape(b);
    BackupParents(b);
    assert At(t, BackupOf(b)) == InstalledAt(t0, files, backend, digest, BackupOf(b));
  }

  lemma UntouchedPasses(
      t0: Tree, t: Tree, files: seq<PackageFile>, backend: string, digest: Content -> string, records: Records)
    requires PackagePaths(files) && (forall i | 0 <= i < |files| :: !Unsafe(files[i].path))
    requires Untouched(t0, t, files, backend, digest)
    requires Claims(records, files, digest) && records.backups == BackupsOf(t0, files, |files|)
    ensures CheckRecords(t, records, digest) == Ok(records)
  {
    forall i | 0 <= i < |records.installed|
      ensures !Unsafe(records.installed[i].path) && Unchanged(t, records.installed[i], digest)
    {
      UntouchedPackage(t0, t, files, backend, digest, i);
    }
    forall i | 0 <= i < |records.backups|
      ensures !Unsafe(BackupOf(records.backups[i])) && BackupOf(records.backups[i]) in t
    {
      UntouchedBackup(t0, t, files, backend, digest, records.backups[i]);
    }
  }

  lemma UntouchedChecks(
      t0: Tree, t: Tree, files: seq<PackageFile>, backend: string, digest: Content -> string)
    requires PackagePaths(files) && (forall i | 0 <= i < |files| :: !Unsafe(files[i].path))
    requires Untouched(t0, t, files, backend, digest)
    ensures var checked := Checked(t, digest);
      && checked.Ok? && Claims(checked.value, files, digest)
      && checked.value.backups == BackupsOf(t0, files, |files|)
  {
    BackupShape("");
    assert At(t, MANIFEST) == InstalledAt(t0, files, backend, digest, MANIFEST);
    ManifestReads(t, files, backend, digest, BackupsOf(t0, files, |files|));
    UntouchedPasses(t0, t, files, backend, digest, ReadRecords(t).value);
  }

  lemma {:induction false} ClaimsMember(records: Records, files: seq<PackageFile>, digest: Content -> string, path: string)
    requires Claims(records, files, digest)
    ensures path in PathsOf(records.installed) <==> IndexOf(files, path) < |files|
  {
    var n := IndexOf(files, path);
    if n < |files| {
      assert PathsOf(records.installed)[n] == path;
    }
  }

  lemma {:induction false} ClaimsNoRepeat(paths: seq<string>, files: seq<PackageFile>)
    requires Distinct(files) && |paths| == |files| && forall i | 0 <= i < |files| :: paths[i] == files[i].path
    ensures NoRepeat(paths)
  {
    if paths == [] {
    } else {
      assert forall i | 0 <= i < |files| - 1 :: paths[1..][i] == files[i + 1].path;
      ClaimsNoRepeat(paths[1..], files[1..]);
    }
  }

  lemma RecordsMembers(
      t0: Tree, t: Tree, files: seq<PackageFile>, backend: string, digest: Content -> string, records: Records)
    requires PackagePaths(files) && (forall i | 0 <= i < |files| :: !Unsafe(files[i].path))
    requires Untouched(t0, t, files, backend, digest)
    requires Claims(records, files, digest) && records.backups == BackupsOf(t0, files, |files|)
    ensures OutsideState(PathsOf(records.installed)) && OutsideState(records.backups)
    ensures Lists(t0, t, files, records)
  {
    forall path
      ensures path in PathsOf(records.installed) <==> IndexOf(files, path) < |files|
      ensures path in records.backups <==> path in t0 && IndexOf(files, path) < |files|
      ensures path in records.backups ==> !Absolute(path) && At(t, BackupOf(path)) == At(t0, path)
    {
      ClaimsMember(records, files, digest, path);
      BackupsOfMember(t0, files, |files|, path);
      if path in records.backups {
        UntouchedBackup(t0, t, files, backend, digest, path);
      }
    }
  }

  function UndoneAt(t0: Tree, t: Tree, files: seq<PackageFile>, path: string): Option<File> {
    if path == MANIFEST || InBackup(path) then None
    else if IndexOf(files, path) < |files| then At(t0, path)
    else At(t, path)
  }

  /** `uninstall` undoes `install`: starting from any tree, with any package, and whatever was done
      since to paths that are neither packaged nor in the state directory, it gives every package
      path back what it held before, leaves every other path outside the state directory alone, and
      leaves neither manifest nor backup, so that the package can be installed again. */
  lemma UninstallUndoesInstall(
      t0: Tree, t: Tree, files: seq<PackageFile>, backend: string, digest: Content -> string)
    requires PackagePaths(files) && (forall i | 0 <= i < |files| :: !Unsafe(files[i].path))
    requires Untouched(t0, t, files, backend, digest)
    ensures Uninstalled(t, digest).1.Ok?
    ensures forall path :: At(Uninstalled(t, digest).0, path) == UndoneAt(t0, t, files, path)
  {
    UntouchedChecks(t0, t, files, backend, digest);
    var records := Checked(t, digest).value;
    RecordsMembers(t0, t, files, backend, digest, records);
    ClaimsNoRepeat(PathsOf(records.installed), files);
    BackupsOfNoRepeat(t0, files, |files|);
    UndoneBy(t0, t, files, digest, records);
  }

  /** A manifest lists what the package installed, and as backups what was there before, still as it was. */
  ghost predicate Lists(t0: Tree, t: Tree, files: seq<PackageFile>, records: Records) {
    && (forall path :: path in PathsOf(records.installed) <==> IndexOf(files, path) < |files|)
    && (forall path :: path in records.backups <==> path in t0 && IndexOf(files, path) < |files|)
    && forall path | path in records.backups :: !Absolute(path) && At(t, BackupOf(path)) == At(t0, path)
  }

  lemma UndoneBy(t0: Tree, t: Tree, files: seq<PackageFile>, digest: Content -> string, records: Records)
    requires Checked(t, digest) == Ok(records) && Lists(t0, t, files, records)
    requires OutsideState(PathsOf(records.installed)) && OutsideState(records.backups)
    requires NoRepeat(PathsOf(records.installed)) && NoRepeat(records.backups)
    ensures Uninstalled(t, digest).1.Ok?
    ensures forall path :: At(Uninstalled(t, digest).0, path) == UndoneAt(t0, t, files, path)
  {
    OutsideIsCarriedThrough(t, digest, records);
    BackupShape("");
    forall b | b in records.backups ensures BackupOf(b) !in PathsOf(records.installed) {
      BackupShape(b);
    }
  }

  lemma NotInBackup(path: string)
    requires !InState(path)
    ensures !InBackup(path) && path != MANIFEST
  {
    if InBackup(path) {
      BackupInState(path);
    }
  }
}
