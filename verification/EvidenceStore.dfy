/** `publish` of src/wayland_vnc/evidence_store.py: it copies qualifying records and their artifacts
    from the evidence root into the store directory of their commit. Paths are relative to each root
    and already resolved; the two roots do not overlap. */
module EvidenceStore {
  import opened Results
  import opened Qualification
  import Json
  import PyText
  import R = RunRecord
  import S = Scenarios
  import D = Driver

  const RECORDS_JSON := "records.json"

  function RecordPath(name: string): string {
    "records/" + name
  }

  /** One loaded record file: its name under `records/`, and the object it holds. */
  datatype Loaded = Loaded(name: string, record: Record)

  /** `_verified_source`: the artifact's path, if the file is there and its digest is the recorded one. */
  function VerifiedSource(entry: Json.Value, files: Files, lib: Library): Result<string> {
    if !entry.Obj? then Err("AttributeError")
    else if !Json.Get(entry, "path").Str? || Json.Get(entry, "path").s !in files then Err("ValueError")
    else if !Is(Json.Get(entry, "sha256"), lib.digest(files[Json.Get(entry, "path").s])) then Err("ValueError")
    else Ok(Json.Get(entry, "path").s)
  }

  function VerifiedSources(entries: seq<Json.Value>, files: Files, lib: Library): Result<seq<string>> {
    if entries == [] then Ok([])
    else
      match (VerifiedSources(entries[..|entries| - 1], files, lib), VerifiedSource(entries[|entries| - 1], files, lib))
      case (Err(e), _) => Err(e)
      case (Ok(_), Err(e)) => Err(e)
      case (Ok(paths), Ok(path)) => Ok(paths + [path])
  }

  /** `record.get("artifacts") or []`, iterated: what is neither empty nor a list raises. */
  function Entries(record: Record): Result<seq<Json.Value>> {
    var artifacts := Field(record, "artifacts");
    if !Json.Truthy(artifacts) then Ok([])
    else if artifacts.Arr? then Ok(artifacts.items)
    else Err("TypeError")
  }

  predicate IsCommitName(commit: string) {
    commit != "" && commit != "." && commit != ".." && forall i | 0 <= i < |commit| :: commit[i] != '/'
  }

  function Copied(store: Files, files: Files, paths: seq<string>): Files
    requires forall p | p in paths :: p in files
  {
    if paths == [] then store
    else Copied(store, files, paths[..|paths| - 1])[paths[|paths| - 1] := files[paths[|paths| - 1]]]
  }

  lemma {:induction false} CopiedFile(store: Files, files: Files, paths: seq<string>, p: string)
    requires forall q | q in paths :: q in files
    ensures p in paths ==> p in Copied(store, files, paths) && Copied(store, files, paths)[p] == files[p]
    ensures p !in paths ==> (p in Copied(store, files, paths) <==> p in store)
    ensures p !in paths && p in store ==> Copied(store, files, paths)[p] == store[p]
  {
    if paths == [] {
    } else {
      CopiedFile(store, files, paths[..|paths| - 1], p);
    }
  }

  lemma {:induction false} SourcesThere(entries: seq<Json.Value>, files: Files, lib: Library)
    requires VerifiedSources(entries, files, lib).Ok?
    ensures var paths := VerifiedSources(entries, files, lib).value;
      && |paths| == |entries|
      && (forall p | p in paths :: p in files)
      && forall i | 0 <= i < |entries| :: Located(entries[i], files) && Json.Get(entries[i], "path").s == paths[i]
  {
    if entries == [] {
    } else {
      SourcesThere(entries[..|entries| - 1], files, lib);
    }
  }

  method VerifySources(entries: seq<Json.Value>, files: Files, lib: Library) returns (r: Result<seq<string>>)
    ensures r == VerifiedSources(entries, files, lib)
  {
    var paths: seq<string> := [];
    for i := 0 to |entries|
      invariant VerifiedSources(entries[..i], files, lib) == Ok(paths)
    {
      assert entries[..i + 1][..i] == entries[..i];
      var source := VerifiedSource(entries[i], files, lib);
      if source.Err? {
        VerifyFails(entries, files, lib, i);
        return Err(VerifiedSources(entries, files, lib).error);
      }
      paths := paths + [source.value];
    }
    assert entries[..|entries|] == entries;
    r := Ok(paths);
  }

  lemma {:induction false} VerifyFails(entries: seq<Json.Value>, files: Files, lib: Library, i: nat)
    requires i < |entries| && VerifiedSources(entries[..i], files, lib).Ok? && VerifiedSource(entries[i], files, lib).Err?
    ensures VerifiedSources(entries, files, lib) == Err(VerifiedSource(entries[i], files, lib).error)
  {
    var n := |entries| - 1;
    if i < n {
      assert entries[..n][..i] == entries[..i];
      VerifyFails(entries[..n], files, lib, i);
    }
  }

  /** Everything published so far lies in the store as it lies in the evidence root, unless it is
      called `records.json`. */
  ghost predicate Mirrored(records: seq<Record>, files: Files, store: Files) {
    forall r | r in records :: Mirrors(r, files, store)
  }

  ghost predicate Mirrors(record: Record, files: Files, store: Files) {
    forall p | References(record, p) && p != RECORDS_JSON :: p in files && p in store && store[p] == files[p]
  }

  predicate PathIs(item: Json.Value, path: string) {
    item.Obj? && Is(Json.Get(item, "path"), path)
  }

  ghost predicate References(record: Record, path: string) {
    var artifacts := Field(record, "artifacts");
    artifacts.Arr? && exists i | 0 <= i < |artifacts.items| :: PathIs(artifacts.items[i], path)
  }

  /** The store directory of one commit. */
  class Store {
    var files: Files

    constructor (files: Files)
      ensures this.files == files
    {
      this.files := files;
    }

    /** Copies `paths` from the evidence root. */
    method CopyAll(evidence: Files, paths: seq<string>)
      requires forall p | p in paths :: p in evidence
      modifies this
      ensures files == Copied(old(files), evidence, paths)
    {
      for i := 0 to |paths|
        invariant files == Copied(old(files), evidence, paths[..i])
      {
        assert paths[..i + 1][..i] == paths[..i];
        files := files[paths[i] := evidence[paths[i]]];
      }
      assert paths[..|paths|] == paths;
    }
  }

  lemma CopyMirrors(records: seq<Record>, record: Record, evidence: Files, store: Files, lib: Library, name: string)
    requires Mirrored(records, evidence, store) && Entries(record).Ok?
    requires VerifiedSources(Entries(record).value, evidence, lib).Ok? && RecordPath(name) in evidence
    ensures forall p | p in VerifiedSources(Entries(record).value, evidence, lib).value :: p in evidence
    ensures var paths := VerifiedSources(Entries(record).value, evidence, lib).value;
      Mirrored(records + [record], evidence, Copied(store, evidence, paths)[RecordPath(name) := evidence[RecordPath(name)]])
  {
    var entries := Entries(record).value;
    var paths := VerifiedSources(entries, evidence, lib).value;
    SourcesThere(entries, evidence, lib);
    var copied := Copied(store, evidence, paths);
    var after := copied[RecordPath(name) := evidence[RecordPath(name)]];
    forall r | r in records + [record] ensures Mirrors(r, evidence, after) {
      forall p | References(r, p) && p != RECORDS_JSON
        ensures p in evidence && p in after && after[p] == evidence[p]
      {
        CopiedFile(store, evidence, paths, p);
        if r !in records {
          var i :| 0 <= i < |entries| && PathIs(entries[i], p);
          assert paths[i] == p;
        }
      }
    }
  }

  /** Copying a record's artifacts leaves the store's own list alone, unless one of them has its name. */
  lemma CopyList(record: Record, evidence: Files, store: Files, lib: Library, name: string)
    requires Entries(record).Ok? && VerifiedSources(Entries(record).value, evidence, lib).Ok?
    requires RecordPath(name) in evidence
    requires forall p | p in VerifiedSources(Entries(record).value, evidence, lib).value :: p in evidence
    ensures var paths := VerifiedSources(Entries(record).value, evidence, lib).value;
      FileAt(Copied(store, evidence, paths)[RecordPath(name) := evidence[RecordPath(name)]], RECORDS_JSON) ==
      FileAt(if References(record, RECORDS_JSON) then evidence else store, RECORDS_JSON)
  {
    var entries := Entries(record).value;
    var paths := VerifiedSources(entries, evidence, lib).value;
    SourcesThere(entries, evidence, lib);
    assert RecordPath(name)[7] == '/' && RECORDS_JSON[7] == '.';
    if RECORDS_JSON in paths {
      var i :| 0 <= i < |paths| && paths[i] == RECORDS_JSON;
      assert PathIs(entries[i], RECORDS_JSON);
    }
    if References(record, RECORDS_JSON) {
      var i :| 0 <= i < |entries| && PathIs(entries[i], RECORDS_JSON);
      assert paths[i] == RECORDS_JSON;
    }
    CopiedFile(store, evidence, paths, RECORDS_JSON);
  }

  function FileAt(files: Files, path: string): Option<Bytes> {
    if path in files then Some(files[path]) else None
  }

  /** What the record says of an artifact called `records.json` is true of the given list. */
  ghost predicate DescribesList(record: Record, list: Bytes, lib: Library) {
    var artifacts := Field(record, "artifacts");
    artifacts.Arr? ==> forall i | 0 <= i < |artifacts.items| && PathIs(artifacts.items[i], RECORDS_JSON) ::
      DescribesBytes(artifacts.items[i], list, lib)
  }

  predicate DescribesBytes(item: Json.Value, bytes: Bytes, lib: Library)
    requires item.Obj?
  {
    Is(Json.Get(item, "sha256"), lib.digest(bytes)) && Json.EqualsInt(Json.Get(item, "size"), |bytes|)
  }

  /** Copying preserves validity but for the store's own list: a record that qualifies where it was qualifies
      where its artifacts were copied to exactly if what it says of a `records.json` is true of the list. */
  lemma MirroredQualifies(record: Record, commit: string, evidence: Files, store: Files, lib: Library, list: Bytes)
    requires Qualifies(record, commit, evidence, lib) && Mirrors(record, evidence, store)
    requires FileAt(store, RECORDS_JSON) == Some(list)
    ensures Qualifies(record, commit, store, lib) <==> DescribesList(record, list, lib)
  {
    var items := Field(record, "artifacts").items;
    forall i | 0 <= i < |items|
      ensures Intact(items[i], store, lib) <==>
        (PathIs(items[i], RECORDS_JSON) ==> DescribesBytes(items[i], list, lib))
    {
      assert Intact(items[i], evidence, lib);
      var p := Json.Get(items[i], "path").s;
      if p != RECORDS_JSON {
        assert References(record, p);
      }
    }
  }

  lemma NoReferenceDescribes(record: Record, list: Bytes, lib: Library)
    requires !References(record, RECORDS_JSON)
    ensures DescribesList(record, list, lib)
  {
  }

  /** Whether a record goes into the store: one of the commit's, and without flaws unless incomplete
      ones were asked for. */
  predicate Chosen(record: Record, evidence: Files, commit: string, includeIncomplete: bool, lib: Library) {
    Is(Field(record, "commit"), commit) && (includeIncomplete || RecordFlaws(record, commit, evidence, lib) == Ok([]))
  }

  function ChosenRecords(
      loaded: seq<Loaded>, evidence: Files, commit: string, includeIncomplete: bool, lib: Library): seq<Record>
  {
    if loaded == [] then []
    else
      var n := |loaded| - 1;
      ChosenRecords(loaded[..n], evidence, commit, includeIncomplete, lib) +
      if Chosen(loaded[n].record, evidence, commit, includeIncomplete, lib) then [loaded[n].record] else []
  }

  /** A record of the commit whose artifacts cannot be gone through: one is not there with its digest, or the checks
      of the gate raise. */
  predicate Chokes(record: Record, evidence: Files, commit: string, lib: Library) {
    && Is(Field(record, "commit"), commit)
    && (Entries(record).Err? || VerifiedSources(Entries(record).value, evidence, lib).Err? ||
        RecordFlaws(record, commit, evidence, lib).Err?)
  }

  ghost predicate NoneChoke(loaded: seq<Loaded>, n: nat, evidence: Files, commit: string, lib: Library)
    requires n <= |loaded|
  {
    forall i | 0 <= i < n :: !Chokes(loaded[i].record, evidence, commit, lib)
  }

  ghost predicate FirstChoke(loaded: seq<Loaded>, n: nat, evidence: Files, commit: string, lib: Library) {
    n < |loaded| && Chokes(loaded[n].record, evidence, commit, lib) && NoneChoke(loaded, n, evidence, commit, lib)
  }

  /** One record: skipped, or its artifacts and then its own file copied. All that can raise comes
      before the first copy. */
  method PublishRecord(evidence: Files, l: Loaded, store: Store, commit: string, includeIncomplete: bool, lib: Library)
      returns (r: Result<bool>)
    requires RecordPath(l.name) in evidence
    modifies store
    ensures r.Err? <==> Chokes(l.record, evidence, commit, lib)
    ensures r.Ok? ==> (r.value <==> Chosen(l.record, evidence, commit, includeIncomplete, lib))
    ensures r != Ok(true) ==> store.files == old(store.files)
    ensures r == Ok(true) ==> Entries(l.record).Ok? && VerifiedSources(Entries(l.record).value, evidence, lib).Ok?
    ensures r == Ok(true) ==> forall p | p in VerifiedSources(Entries(l.record).value, evidence, lib).value :: p in evidence
    ensures r == Ok(true) ==>
      store.files == Copied(old(store.files), evidence, VerifiedSources(Entries(l.record).value, evidence, lib).value)
        [RecordPath(l.name) := evidence[RecordPath(l.name)]]
  {
    if !Is(Field(l.record, "commit"), commit) {
      return Ok(false);
    }
    var entries := Entries(l.record);
    if entries.Err? {
      return Err(entries.error);
    }
    var paths := VerifySources(entries.value, evidence, lib);
    if paths.Err? {
      return Err(paths.error);
    }
    var flaws := RecordFlaws(l.record, commit, evidence, lib);
    if flaws.Err? {
      return Err(flaws.error);
    }
    if flaws.value != [] && !includeIncomplete {
      return Ok(false);
    }
    SourcesThere(entries.value, evidence, lib);
    store.CopyAll(evidence, paths.value);
    store.files := store.files[RecordPath(l.name) := evidence[RecordPath(l.name)]];
    r := Ok(true);
  }

  /** The store's `records.json` once these records are copied and no list is written: the artifact of that name
      if one of them has one, and what was there before if none does. */
  ghost predicate Unlisted(records: seq<Record>, evidence: Files, before: Files, after: Files) {
    var named := exists record | record in records :: References(record, RECORDS_JSON);
    FileAt(after, RECORDS_JSON) == FileAt(if named then evidence else before, RECORDS_JSON)
  }

  /** If it returns, it has published exactly the chosen records and written their list. Unless incomplete
      ones were asked for, a published record then qualifies in the store exactly if what it says of a
      `records.json` is true of that list; so all of them do if none has such an artifact. It raises exactly
      on a bad commit name or at the first record that chokes, and then the list is not written:
      `records.json` is as it was, or is an artifact of that name of a record before that one. */
  method Publish(evidence: Files, loaded: seq<Loaded>, store: Store, commit: string, includeIncomplete: bool,
                 lib: Library, encode: seq<Record> -> Bytes) returns (r: Result<seq<Record>>)
    requires forall l | l in loaded :: RecordPath(l.name) in evidence
    modifies store
    ensures r.Ok? ==> r.value == ChosenRecords(loaded, evidence, commit, includeIncomplete, lib)
    ensures r.Ok? && r.value != [] ==> FileAt(store.files, RECORDS_JSON) == Some(encode(r.value))
    ensures r.Ok? && !includeIncomplete ==> forall record | record in r.value ::
      Qualifies(record, commit, store.files, lib) <==> DescribesList(record, encode(r.value), lib)
    ensures r.Ok? && !includeIncomplete ==> forall record | record in r.value && !References(record, RECORDS_JSON) ::
      Qualifies(record, commit, store.files, lib)
    ensures r.Ok? <==> IsCommitName(commit) && NoneChoke(loaded, |loaded|, evidence, commit, lib)
    ensures (exists l :: l in loaded && Is(Field(l.record, "commit"), commit) && Altered(l.record, evidence, lib)) ==> r.Err?
    ensures !IsCommitName(commit) ==> store.files == old(store.files)
    ensures r.Err? && IsCommitName(commit) ==> exists n: nat :: FirstChoke(loaded, n, evidence, commit, lib) && Unlisted(
      ChosenRecords(loaded[..n], evidence, commit, includeIncomplete, lib), evidence, old(store.files), store.files)
  {
    if !IsCommitName(commit) {
      return Err("ValueError");
    }
    forall l | l in loaded && Is(Field(l.record, "commit"), commit) && Altered(l.record, evidence, lib)
      ensures !NoneChoke(loaded, |loaded|, evidence, commit, lib)
    {
      AlteredStops(loaded, evidence, commit, lib, l);
    }
    ghost var n: nat;
    r, n := PublishEach(evidence, loaded, store, commit, includeIncomplete, lib);
    if r.Err? || r.value == [] {
      return;
    }
    ghost var copied := store.files;
    store.files := store.files[RECORDS_JSON := encode(r.value)];
    assert Mirrored(r.value, evidence, store.files) by {
      ListKeepsMirrored(r.value, evidence, copied, encode(r.value));
    }
    if !includeIncomplete {
      PublishedQualify(loaded, evidence, commit, lib, r.value, store.files, encode(r.value));
    }
  }

  lemma ListKeepsMirrored(records: seq<Record>, evidence: Files, store: Files, list: Bytes)
    requires Mirrored(records, evidence, store)
    ensures Mirrored(records, evidence, store[RECORDS_JSON := list])
  {
    forall record | record in records ensures Mirrors(record, evidence, store[RECORDS_JSON := list]) {
      assert Mirrors(record, evidence, store);
    }
  }

  /** The loop over the loaded records, up to the first that raises. */
  method PublishEach(evidence: Files, loaded: seq<Loaded>, store: Store, commit: string, includeIncomplete: bool,
                     lib: Library) returns (r: Result<seq<Record>>, ghost n: nat)
    requires forall l | l in loaded :: RecordPath(l.name) in evidence
    modifies store
    ensures if r.Err? then FirstChoke(loaded, n, evidence, commit, lib)
            else n == |loaded| && NoneChoke(loaded, n, evidence, commit, lib)
    ensures Unlisted(
      ChosenRecords(loaded[..n], evidence, commit, includeIncomplete, lib), evidence, old(store.files), store.files)
    ensures r.Ok? ==> r.value == ChosenRecords(loaded, evidence, commit, includeIncomplete, lib)
    ensures r.Ok? ==> Mirrored(r.value, evidence, store.files)
  {
    var records: seq<Record> := [];
    for i := 0 to |loaded|
      invariant NoneChoke(loaded, i, evidence, commit, lib)
      invariant Mirrored(records, evidence, store.files)
      invariant records == ChosenRecords(loaded[..i], evidence, commit, includeIncomplete, lib)
      invariant Unlisted(records, evidence, old(store.files), store.files)
    {
      assert loaded[..i + 1][..i] == loaded[..i] && loaded[i] in loaded;
      ghost var before := store.files;
      var published := PublishRecord(evidence, loaded[i], store, commit, includeIncomplete, lib);
      if published.Err? {
        return Err(published.error), i;
      }
      if published.value {
        CopyMirrors(records, loaded[i].record, evidence, before, lib, loaded[i].name);
        CopyList(loaded[i].record, evidence, before, lib, loaded[i].name);
        records := records + [loaded[i].record];
      }
    }
    assert loaded[..|loaded|] == loaded;
    r, n := Ok(records), |loaded|;
  }

  lemma PublishedQualify(
      loaded: seq<Loaded>, evidence: Files, commit: string, lib: Library, records: seq<Record>, store: Files, list: Bytes)
    requires records == ChosenRecords(loaded, evidence, commit, false, lib) && Mirrored(records, evidence, store)
    requires FileAt(store, RECORDS_JSON) == Some(list)
    ensures forall record | record in records ::
      Qualifies(record, commit, store, lib) <==> DescribesList(record, list, lib)
    ensures forall record | record in records && !References(record, RECORDS_JSON) :: Qualifies(record, commit, store, lib)
  {
    forall record | record in records
      ensures Qualifies(record, commit, store, lib) <==> DescribesList(record, list, lib)
      ensures !References(record, RECORDS_JSON) ==> DescribesList(record, list, lib)
    {
      ChosenFlawless(loaded, evidence, commit, lib, record);
      FlawlessQualifies(record, commit, evidence, lib);
      MirroredQualifies(record, commit, evidence, store, lib, list);
      if !References(record, RECORDS_JSON) {
        NoReferenceDescribes(record, list, lib);
      }
    }
  }

  lemma {:induction false} ChosenFlawless(
      loaded: seq<Loaded>, evidence: Files, commit: string, lib: Library, record: Record)
    requires record in ChosenRecords(loaded, evidence, commit, false, lib)
    ensures RecordFlaws(record, commit, evidence, lib) == Ok([])
  {
    var n := |loaded| - 1;
    if record in ChosenRecords(loaded[..n], evidence, commit, false, lib) {
      ChosenFlawless(loaded[..n], evidence, commit, lib, record);
    }
  }

  // ----- what stops a publication

  /** An artifact of a record whose file is gone, or is not the file that was recorded. */
  ghost predicate Altered(record: Record, evidence: Files, lib: Library) {
    var artifacts := Field(record, "artifacts");
    artifacts.Arr? && exists item :: item in artifacts.items && AlteredItem(item, evidence, lib)
  }

  predicate AlteredItem(item: Json.Value, evidence: Files, lib: Library) {
    && item.Obj? && Json.Get(item, "path").Str?
    && (Json.Get(item, "path").s !in evidence ||
        Json.Get(item, "sha256") != Json.Str(lib.digest(evidence[Json.Get(item, "path").s])))
  }

  lemma {:induction false} AlteredFails(entries: seq<Json.Value>, item: Json.Value, files: Files, lib: Library)
    requires item in entries && AlteredItem(item, files, lib)
    ensures VerifiedSources(entries, files, lib).Err?
  {
    var n := |entries| - 1;
    if item != entries[n] {
      AlteredFails(entries[..n], item, files, lib);
    }
  }

  /** One altered artifact of one record of the commit, and no publication returns, whether incomplete records are
      asked for or not. */
  lemma AlteredStops(loaded: seq<Loaded>, evidence: Files, commit: string, lib: Library, l: Loaded)
    requires l in loaded && Field(l.record, "commit") == Json.Str(commit) && Altered(l.record, evidence, lib)
    ensures Chokes(l.record, evidence, commit, lib) && !NoneChoke(loaded, |loaded|, evidence, commit, lib)
  {
    var item :| item in Field(l.record, "artifacts").items && AlteredItem(item, evidence, lib);
    if Entries(l.record).Ok? {
      AlteredFails(Entries(l.record).value, item, evidence, lib);
    }
    var i :| 0 <= i < |loaded| && loaded[i] == l;
  }

  /** What goes through: entries that are objects naming a file with the recorded digest, every one of them. */
  lemma {:induction false} VerifiedExactly(entries: seq<Json.Value>, files: Files, lib: Library)
    ensures VerifiedSources(entries, files, lib).Ok? <==>
      forall item | item in entries ::
        && item.Obj? && Json.Get(item, "path").Str? && Json.Get(item, "path").s in files
        && Json.Get(item, "sha256") == Json.Str(lib.digest(files[Json.Get(item, "path").s]))
  {
    if entries == [] {
    } else {
      var n := |entries| - 1;
      VerifiedExactly(entries[..n], files, lib);
      assert entries == entries[..n] + [entries[n]];
    }
  }

  /** The records published: those of the commit, and only the ones that qualify unless all were asked for. */
  lemma ChosenExactly(loaded: seq<Loaded>, evidence: Files, commit: string, includeIncomplete: bool, lib: Library,
                      record: Record)
    ensures record in ChosenRecords(loaded, evidence, commit, includeIncomplete, lib) <==>
      && (exists l :: l in loaded && l.record == record)
      && Field(record, "commit") == Json.Str(commit)
      && (includeIncomplete || Qualifies(record, commit, evidence, lib))
  {
    FlawlessQualifies(record, commit, evidence, lib);
    ChosenMember(loaded, evidence, commit, includeIncomplete, lib, record);
  }

  lemma {:induction false} ChosenMember(
      loaded: seq<Loaded>, evidence: Files, commit: string, includeIncomplete: bool, lib: Library, record: Record)
    ensures record in ChosenRecords(loaded, evidence, commit, includeIncomplete, lib) <==>
      (exists l :: l in loaded && l.record == record) && Chosen(record, evidence, commit, includeIncomplete, lib)
  {
    if loaded == [] {
    } else {
      var n := |loaded| - 1;
      ChosenMember(loaded[..n], evidence, commit, includeIncomplete, lib, record);
      assert loaded == loaded[..n] + [loaded[n]];
    }
  }

  /** A commit name is one path component, and neither of the two with a meaning of their own. */
  lemma CommitNameExactly(commit: string)
    ensures IsCommitName(commit) <==> '/' !in commit && commit !in ["", ".", ".."]
  {
    assert '/' in commit <==> exists i :: 0 <= i < |commit| && commit[i] == '/';
  }

  // ----- what the gate makes of a store

  lemma QualifiedNeverRaises(record: Record, commit: string, files: Files, lib: Library)
    requires Qualifies(record, commit, files, lib)
    ensures !Raises(record, files, lib)
  {
    VerdictQualifies(record, commit, files, lib, VerdictOf(record, commit, files, lib));
  }

  /** Publishes, and judges the release by the store: with no false word of a `records.json`, the gate does not
      raise and reports nothing but duplicate and missing pairs, and passes the release exactly if the published
      records are one for each target and viewer. */
  method PublishAndJudge(evidence: Files, loaded: seq<Loaded>, store: Store, commit: string, lib: Library,
                         encode: seq<Record> -> Bytes)
      returns (r: Result<seq<Record>>, verdict: Result<seq<GateError>>)
    requires forall l | l in loaded :: RecordPath(l.name) in evidence
    modifies store
    ensures r.Ok? ==> r.value == ChosenRecords(loaded, evidence, commit, false, lib)
    ensures r.Ok? && AllDescribe(r.value, encode(r.value), lib) ==> verdict.Ok? && NoneFlawed(verdict.value)
    ensures r.Ok? && AllDescribe(r.value, encode(r.value), lib) ==> (verdict == Ok([]) <==> OneEach(r.value))
  {
    r := Publish(evidence, loaded, store, commit, false, lib, encode);
    if r.Err? {
      return r, Err(r.error);
    }
    verdict := ReleaseErrors(r.value, commit, store.files, lib);
    if AllDescribe(r.value, encode(r.value), lib) {
      forall i | 0 <= i < |r.value|
        ensures Qualifies(r.value[i], commit, store.files, lib) && !Raises(r.value[i], store.files, lib)
      {
        assert r.value[i] in r.value;
        QualifiedNeverRaises(r.value[i], commit, store.files, lib);
      }
    }
  }

  ghost predicate AllDescribe(records: seq<Record>, list: Bytes, lib: Library) {
    forall record | record in records :: DescribesList(record, list, lib)
  }

  /** No pair twice, and no pair missing. */
  ghost predicate OneEach(records: seq<Record>) {
    && (forall i, j | 0 <= i < j < |records| :: KeyOf(records[i]) != KeyOf(records[j]))
    && forall target, viewer | target in TARGETS && viewer in VIEWERS :: Covered(records, target, viewer)
  }

  // ----- a record that publishing spoils

  const LOG: Bytes := [1]

  /** The evidence of a run whose log was saved at the top of the evidence root, under the name of the list. */
  const LOGGED := R.Evidence([], [["a.png"]], RECORDS_JSON, LOG, "input-results.json", [])

  const CAPTURED: Files := map["a.png" := []]

  const VERSIONS: map<string, Json.Value> := map[
    "compositor" := Json.Str("1"), "backend" := Json.Str("1"), "viewer" := Json.Str("1"),
    "distribution" := Json.Str("1"), "renderer" := Json.Str("1")]

  const RUN_ID := "12345678-1234-5678-1234-567812345678"
  const TIME := "2026-01-01T00:00:00Z"

  const NEW_RECORD := R.PartialRecord(RUN_ID, TIME, "c", "gnome", "realvnc-desktop", VERSIONS)

  const ALL_PASSED: map<S.Name, S.Outcome> := map name | name in S.SCENARIOS :: S.Outcome(S.Passed, [])

  function LoggedRecord(lib: Library): Record
  {
    LoggedCaptures();
    R.Filled(NEW_RECORD, R.Run(D.Gnome, Some(0), 20, true), ALL_PASSED, R.RunArtifacts(LOGGED, CAPTURED, lib))
  }

  lemma LoggedCaptures()
    ensures R.Captured(LOGGED, CAPTURED) && R.Apart(LOGGED)
    ensures R.Captures(LOGGED, CAPTURED) == ["a.png"]
  {
    assert R.Flat([["a.png"]]) == R.Flat([]) + ["a.png"] by {
      assert [["a.png"]][..0] == [];
    }
    assert ["a.png"][..0] == [];
    assert R.Firsts(["a.png"]) == ["a.png"];
    assert RECORDS_JSON[0] == 'r' && "input-results.json"[0] == 'i' && "a.png"[0] == 'a';
  }

  lemma VersionsAllGiven()
    ensures R.AllGiven(VERSIONS)
  {
    assert "compositor"[0] == 'c' && "backend"[0] == 'b' && "viewer"[0] == 'v' && "distribution"[0] == 'd';
    assert "renderer"[0] == 'r';
    forall key | key in VERSION_FIELDS
      ensures Json.Get(Json.Obj(VERSIONS), key) == Json.Str("1") && !Blank("1")
    {
      assert !PyText.IsSpace("1"[0]);
    }
  }

  /** Such a record qualifies where it was made; once it is published, its log is the list, and it does not. */
  lemma ListReplacesLog(store: Files, list: Bytes, lib: Library)
    requires lib.uuid(Json.Str(RUN_ID)) && lib.timestamp(Json.Str(TIME)) && lib.digest(list) != lib.digest(LOG)
    requires Mirrors(LoggedRecord(lib), R.After(LOGGED, CAPTURED), store) && FileAt(store, RECORDS_JSON) == Some(list)
    ensures Qualifies(LoggedRecord(lib), "c", R.After(LOGGED, CAPTURED), lib)
    ensures !Qualifies(LoggedRecord(lib), "c", store, lib)
  {
    LoggedQualifies(lib);
    LogUndescribed(list, lib);
    MirroredQualifies(LoggedRecord(lib), "c", R.After(LOGGED, CAPTURED), store, lib, list);
  }

  lemma NewPresented(lib: Library)
    requires lib.uuid(Json.Str(RUN_ID)) && lib.timestamp(Json.Str(TIME))
    ensures R.Presented(NEW_RECORD, "c", lib)
  {
    VersionsAllGiven();
    assert TARGETS[0] == "gnome" && VIEWERS[1] == "realvnc-desktop";
    R.PartialPresents(RUN_ID, TIME, "c", "gnome", "realvnc-desktop", VERSIONS, lib);
  }

  lemma LoggedQualifies(lib: Library)
    requires lib.uuid(Json.Str(RUN_ID)) && lib.timestamp(Json.Str(TIME))
    ensures Qualifies(LoggedRecord(lib), "c", R.After(LOGGED, CAPTURED), lib)
  {
    NewPresented(lib);
    NewIncomplete();
    LoggedCaptures();
    LoggedRun(NEW_RECORD, lib);
  }

  lemma NewIncomplete()
    ensures !Is(Field(NEW_RECORD, "status"), "passed") && R.SamePair(Field(NEW_RECORD, "target"), D.Gnome)
  {
    R.PartialFields(RUN_ID, TIME, "c", "gnome", "realvnc-desktop", VERSIONS);
    assert "incomplete"[0] != "passed"[0] && "gnome"[0] != "plasma"[0];
  }

  lemma LoggedRun(record: Record, lib: Library)
    requires R.Presented(record, "c", lib) && !Is(Field(record, "status"), "passed")
    requires R.SamePair(Field(record, "target"), D.Gnome)
    requires R.Captured(LOGGED, CAPTURED)
    ensures var run := R.Run(D.Gnome, Some(0), 20, true);
      Qualifies(R.Filled(record, run, ALL_PASSED, R.RunArtifacts(LOGGED, CAPTURED, lib)), "c",
                R.After(LOGGED, CAPTURED), lib)
  {
    LoggedCaptures();
    AllPassed();
    R.FilledQualifies(record, "c", R.Run(D.Gnome, Some(0), 20, true), ALL_PASSED, LOGGED, CAPTURED, lib);
  }

  lemma AllPassed()
    ensures R.AllPassed(ALL_PASSED, S.Required(D.Gnome))
  {
  }

  lemma LogUndescribed(list: Bytes, lib: Library)
    requires lib.digest(list) != lib.digest(LOG)
    ensures !DescribesList(LoggedRecord(lib), list, lib)
  {
    LoggedCaptures();
    var items := R.RunArtifacts(LOGGED, CAPTURED, lib);
    R.FilledFields(NEW_RECORD, R.Run(D.Gnome, Some(0), 20, true), ALL_PASSED, items);
    assert items[1] == R.Entry(RECORDS_JSON, LOG, "runner-log", lib);
    EntryUndescribed(LoggedRecord(lib), items, 1, "runner-log", list, lib);
  }

  lemma EntryUndescribed(record: Record, items: seq<Json.Value>, i: nat, kind: string, list: Bytes, lib: Library)
    requires Field(record, "artifacts") == Json.Arr(items) && i < |items|
    requires items[i] == R.Entry(RECORDS_JSON, LOG, kind, lib) && lib.digest(list) != lib.digest(LOG)
    ensures !DescribesList(record, list, lib)
  {
    R.EntryFields(RECORDS_JSON, LOG, kind, lib);
    assert PathIs(items[i], RECORDS_JSON) && !DescribesBytes(items[i], list, lib);
  }
}
