/** The release gate of src/wayland_vnc/qualification.py: what makes one record qualify, and what makes
    a list of records qualify a release. Records are JSON objects as they were read, so a field may be
    missing or of any type. */
module Qualification {
  import opened Results
  import Json
  import PyText

  type Record = map<string, Json.Value>

  type Bytes = seq<int>

  /** The files under an evidence root, by path relative to it. */
  type Files = map<string, Bytes>

  /** The library functions the checks lean on: the digest, and whether a value parses as a UUID or as
      a timestamp with a time zone. */
  datatype Library = Library(digest: Bytes -> string, uuid: Json.Value -> bool, timestamp: Json.Value -> bool)

  const TARGETS := ["gnome", "plasma", "xfce-labwc", "lxqt-labwc", "sway", "hyprland", "wayfire"]
  const VIEWERS := ["realvnc-android", "realvnc-desktop"]
  const VERSION_FIELDS := ["compositor", "backend", "viewer", "distribution", "renderer"]
  const KINDS := ["viewer-capture", "input-results", "runner-log"]
  const SCENARIOS := [
    "first-frame", "colors", "changing-frames", "keyboard", "pointer", "drag", "scroll", "1080p-100", "4k-200",
    "reconnect-20", "viewer-killed", "network-interruption", "resize", "monitor-change", "server-restart", "lock",
    "suspend-resume"]
  const PORTAL_SCENARIOS := ["portal-approve", "portal-deny", "portal-revoke", "portal-restore"]

  datatype Flaw =
    | UnsupportedSchema | InvalidRunId | InvalidTimestamp
    | OtherCommit | UnknownPair | NotWayland | DidNotPass | Unhealthy
    | MissingVersions | MissingScenarios | SlowFirstFrame | FewReconnects
    | NoEvidence | InvalidEntry | MissingArtifact | HashMismatch | SizeMismatch | MissingKinds

  function Field(record: Record, key: string): Json.Value {
    if key in record then record[key] else Json.Null
  }

  predicate Is(v: Json.Value, text: string) {
    v == Json.Str(text)
  }

  function FlawIf(bad: bool, flaw: Flaw): seq<Flaw> {
    if bad then [flaw] else []
  }

  // ----- one record

  function IdentityFlaws(record: Record, lib: Library): seq<Flaw> {
    FlawIf(!Json.EqualsInt(Field(record, "schema_version"), 2), UnsupportedSchema) +
    FlawIf(!lib.uuid(Field(record, "run_id")), InvalidRunId) +
    FlawIf(!lib.timestamp(Field(record, "recorded_at")), InvalidTimestamp)
  }

  predicate KnownPair(target: Json.Value, viewer: Json.Value) {
    target.Str? && target.s in TARGETS && viewer.Str? && viewer.s in VIEWERS
  }

  function RunStateFlaws(record: Record, commit: string): seq<Flaw> {
    FlawIf(!Is(Field(record, "commit"), commit), OtherCommit) +
    FlawIf(!KnownPair(Field(record, "target"), Field(record, "viewer")), UnknownPair) +
    FlawIf(!Is(Field(record, "session_type"), "wayland"), NotWayland) +
    FlawIf(!Is(Field(record, "status"), "passed"), DidNotPass) +
    FlawIf(!Is(Field(record, "post_run_smoke"), "passed"), Unhealthy)
  }

  /** What `strip` leaves nothing of. */
  predicate Blank(s: string) {
    forall i | 0 <= i < |s| :: PyText.IsSpace(s[i])
  }

  predicate VersionsGiven(record: Record) {
    var versions := Field(record, "versions");
    versions.Obj? && forall key | key in VERSION_FIELDS ::
      Json.Get(versions, key).Str? && !Blank(Json.Get(versions, key).s)
  }

  function Required(target: Json.Value): seq<string> {
    SCENARIOS + if Is(target, "plasma") then PORTAL_SCENARIOS else []
  }

  predicate ScenariosPassed(record: Record) {
    var scenarios := Field(record, "scenarios");
    scenarios.Obj? && forall name | name in Required(Field(record, "target")) :: Is(Json.Get(scenarios, name), "passed")
  }

  predicate QuickFirstFrame(latency: Json.Value) {
    match latency
    case Int(n) => 0 <= n <= 10
    case Float(x) => 0.0 <= x <= 10.0
    case _ => false
  }

  predicate TwentyReconnects(cycles: Json.Value) {
    cycles.Int? && cycles.n >= 20
  }

  function MeasurementFlaws(record: Record): seq<Flaw> {
    FlawIf(!QuickFirstFrame(Field(record, "first_frame_seconds")), SlowFirstFrame) +
    FlawIf(!TwentyReconnects(Field(record, "reconnect_cycles")), FewReconnects)
  }

  predicate Located(item: Json.Value, files: Files) {
    item.Obj? && Json.Get(item, "path").Str? && Json.Get(item, "path").s in files
  }

  function IntegrityFlaws(item: Json.Value, files: Files, lib: Library): seq<Flaw> {
    if !item.Obj? || !Json.Get(item, "path").Str? then [InvalidEntry]
    else if Json.Get(item, "path").s !in files then [MissingArtifact]
    else
      var bytes := files[Json.Get(item, "path").s];
      FlawIf(!Is(Json.Get(item, "sha256"), lib.digest(bytes)), HashMismatch) +
      FlawIf(!Json.EqualsInt(Json.Get(item, "size"), |bytes|), SizeMismatch)
  }

  /** What `_artifact_integrity` says of one artifact, with its kind if it was located. */
  datatype Inspection = Inspection(flaws: seq<Flaw>, kind: Option<Json.Value>)

  function Inspected(items: seq<Json.Value>, files: Files, lib: Library): (found: seq<Inspection>)
    ensures |found| == |items|
    ensures forall i | 0 <= i < |items| ::
      found[i] == Inspection(IntegrityFlaws(items[i], files, lib),
                             if Located(items[i], files) then Some(Json.Get(items[i], "kind")) else None)
  {
    seq(|items|, i requires 0 <= i < |items| =>
      Inspection(IntegrityFlaws(items[i], files, lib),
                 if Located(items[i], files) then Some(Json.Get(items[i], "kind")) else None))
  }

  function AllFlaws(found: seq<Inspection>): seq<Flaw> {
    if found == [] then [] else AllFlaws(found[..|found| - 1]) + found[|found| - 1].flaws
  }

  /** The kinds of the artifacts that were located. */
  function KindSet(found: seq<Inspection>): set<Json.Value> {
    if found == [] then {}
    else
      KindSet(found[..|found| - 1]) +
      (if found[|found| - 1].kind.Some? then {found[|found| - 1].kind.value} else {})
  }

  predicate HasKinds(kinds: set<Json.Value>) {
    forall kind | kind in KINDS :: Json.Str(kind) in kinds
  }

  /** The kind of every located artifact goes into a set, so each must be hashable. */
  predicate KindsHashable(found: seq<Inspection>) {
    forall i | 0 <= i < |found| :: found[i].kind.Some? ==> Json.Hashable(found[i].kind.value)
  }

  function ArtifactFlaws(artifacts: Json.Value, files: Files, lib: Library): Result<seq<Flaw>> {
    if !artifacts.Arr? || artifacts.items == [] then Ok([NoEvidence])
    else
      var found := Inspected(artifacts.items, files, lib);
      if !KindsHashable(found) then Err("TypeError")
      else Ok(AllFlaws(found) + FlawIf(!HasKinds(KindSet(found)), MissingKinds))
  }

  method ValidateArtifacts(artifacts: Json.Value, files: Files, lib: Library) returns (r: Result<seq<Flaw>>)
    ensures r == ArtifactFlaws(artifacts, files, lib)
  {
    if !artifacts.Arr? || artifacts.items == [] {
      return Ok([NoEvidence]);
    }
    var hashable, errors, kinds := Collect(Inspected(artifacts.items, files, lib));
    if !hashable {
      return Err("TypeError");
    }
    return Ok(errors + FlawIf(!HasKinds(kinds), MissingKinds));
  }

  /** The loop over the artifacts, up to the first kind that cannot be hashed. */
  method Collect(found: seq<Inspection>) returns (hashable: bool, errors: seq<Flaw>, kinds: set<Json.Value>)
    ensures hashable <==> KindsHashable(found)
    ensures hashable ==> errors == AllFlaws(found) && kinds == KindSet(found)
  {
    errors, kinds := [], {};
    for i := 0 to |found|
      invariant errors == AllFlaws(found[..i])
      invariant KindsHashable(found[..i]) && kinds == KindSet(found[..i])
    {
      assert found[..i + 1][..i] == found[..i];
      errors := errors + found[i].flaws;
      if found[i].kind.Some? {
        if !Json.Hashable(found[i].kind.value) {
          return false, errors, kinds;
        }
        kinds := kinds + {found[i].kind.value};
      }
    }
    assert found[..|found|] == found;
    hashable := true;
  }

  function RecordFlaws(record: Record, commit: string, files: Files, lib: Library): Result<seq<Flaw>> {
    match ArtifactFlaws(Field(record, "artifacts"), files, lib)
    case Err(e) => Err(e)
    case Ok(found) =>
      Ok(IdentityFlaws(record, lib) + RunStateFlaws(record, commit) +
         FlawIf(!VersionsGiven(record), MissingVersions) +
         FlawIf(!ScenariosPassed(record), MissingScenarios) +
         MeasurementFlaws(record) + found)
  }

  // ----- what a record without flaws is

  predicate Intact(item: Json.Value, files: Files, lib: Library) {
    && Located(item, files)
    && Is(Json.Get(item, "sha256"), lib.digest(files[Json.Get(item, "path").s]))
    && Json.EqualsInt(Json.Get(item, "size"), |files[Json.Get(item, "path").s]|)
  }

  /** A record that proves a release for its pair: stated without the order in which flaws are found. */
  ghost predicate Qualifies(record: Record, commit: string, files: Files, lib: Library) {
    && Json.EqualsInt(Field(record, "schema_version"), 2)
    && lib.uuid(Field(record, "run_id")) && lib.timestamp(Field(record, "recorded_at"))
    && Is(Field(record, "commit"), commit) && KnownPair(Field(record, "target"), Field(record, "viewer"))
    && Is(Field(record, "session_type"), "wayland")
    && Is(Field(record, "status"), "passed") && Is(Field(record, "post_run_smoke"), "passed")
    && VersionsGiven(record) && ScenariosPassed(record)
    && QuickFirstFrame(Field(record, "first_frame_seconds")) && TwentyReconnects(Field(record, "reconnect_cycles"))
    && EvidenceIntact(Field(record, "artifacts"), files, lib)
  }

  /** Artifacts of all kinds, each where the record says it is and what the record says it is. */
  ghost predicate EvidenceIntact(artifacts: Json.Value, files: Files, lib: Library) {
    && artifacts.Arr?
    && (forall i | 0 <= i < |artifacts.items| ::
          Intact(artifacts.items[i], files, lib) && Json.Hashable(Json.Get(artifacts.items[i], "kind")))
    && forall kind | kind in KINDS :: Carries(artifacts.items, kind)
  }

  ghost predicate Carries(items: seq<Json.Value>, kind: string) {
    exists i | 0 <= i < |items| :: items[i].Obj? && Is(Json.Get(items[i], "kind"), kind)
  }

  lemma {:induction false} AllFlawless(found: seq<Inspection>)
    ensures AllFlaws(found) == [] <==> forall i | 0 <= i < |found| :: found[i].flaws == []
  {
    if found == [] {
    } else {
      var n := |found| - 1;
      AllFlawless(found[..n]);
      assert forall i | 0 <= i < n :: found[..n][i] == found[i];
    }
  }

  lemma {:induction false} KindSetMember(found: seq<Inspection>, kind: Json.Value)
    ensures kind in KindSet(found) <==> exists i | 0 <= i < |found| :: found[i].kind == Some(kind)
  {
    if found == [] {
    } else {
      var n := |found| - 1;
      KindSetMember(found[..n], kind);
      assert forall i | 0 <= i < n :: found[..n][i] == found[i];
    }
  }

  lemma IntactInspection(item: Json.Value, files: Files, lib: Library)
    ensures IntegrityFlaws(item, files, lib) == [] <==> Intact(item, files, lib)
    ensures Intact(item, files, lib) ==> Located(item, files)
  {
  }

  lemma ArtifactsFlawless(artifacts: Json.Value, files: Files, lib: Library)
    ensures ArtifactFlaws(artifacts, files, lib) == Ok([]) <==> EvidenceIntact(artifacts, files, lib)
  {
    if artifacts.Arr? {
      var items := artifacts.items;
      var found := Inspected(items, files, lib);
      AllFlawless(found);
      forall i | 0 <= i < |items|
        ensures found[i].flaws == [] <==> Intact(items[i], files, lib)
        ensures Intact(items[i], files, lib) ==> found[i].kind == Some(Json.Get(items[i], "kind"))
      {
        IntactInspection(items[i], files, lib);
      }
      if forall i | 0 <= i < |items| :: Intact(items[i], files, lib) {
        forall kind: string ensures Json.Str(kind) in KindSet(found) <==> Carries(items, kind) {
          KindSetMember(found, Json.Str(kind));
        }
      }
      if items == [] {
        assert KINDS[0] in KINDS && !Carries(items, KINDS[0]);
      }
    }
  }

  /** Validation finds nothing in exactly the records that qualify. */
  lemma FlawlessQualifies(record: Record, commit: string, files: Files, lib: Library)
    ensures RecordFlaws(record, commit, files, lib) == Ok([]) <==> Qualifies(record, commit, files, lib)
  {
    ArtifactsFlawless(Field(record, "artifacts"), files, lib);
  }

  // ----- the requirements, one by one

  lemma KnownPairExactly(target: Json.Value, viewer: Json.Value)
    ensures KnownPair(target, viewer) <==>
      && target.Str? && viewer.Str?
      && target.s in ["gnome", "plasma", "xfce-labwc", "lxqt-labwc", "sway", "hyprland", "wayfire"]
      && (viewer.s == "realvnc-android" || viewer.s == "realvnc-desktop")
  {
    assert viewer.Str? ==> (viewer.s in VIEWERS <==> viewer.s == VIEWERS[0] || viewer.s == VIEWERS[1]);
  }

  /** A text with something on it. */
  ghost predicate Tells(v: Json.Value) {
    v.Str? && exists i :: 0 <= i < |v.s| && !PyText.IsSpace(v.s[i])
  }

  lemma VersionsGivenExactly(record: Record)
    ensures VersionsGiven(record) <==>
      var versions := Field(record, "versions");
      && versions.Obj? && Tells(Json.Get(versions, "compositor")) && Tells(Json.Get(versions, "backend"))
      && Tells(Json.Get(versions, "viewer")) && Tells(Json.Get(versions, "distribution"))
      && Tells(Json.Get(versions, "renderer"))
  {
    FiveIn("compositor", "backend", "viewer", "distribution", "renderer");
  }

  lemma FiveIn(a: string, b: string, c: string, d: string, e: string)
    ensures forall key :: key in [a, b, c, d, e] <==> key == a || key == b || key == c || key == d || key == e
  {
  }

  ghost predicate PassedAll(record: Record, names: seq<string>) {
    var scenarios := Field(record, "scenarios");
    scenarios.Obj? && forall name | name in names :: Is(Json.Get(scenarios, name), "passed")
  }

  lemma ScenariosPassedExactly(record: Record)
    ensures ScenariosPassed(record) <==>
      && PassedAll(record, [
           "first-frame", "colors", "changing-frames", "keyboard", "pointer", "drag", "scroll", "1080p-100", "4k-200",
           "reconnect-20", "viewer-killed", "network-interruption", "resize", "monitor-change", "server-restart", "lock",
           "suspend-resume"])
      && (Field(record, "target") == Json.Str("plasma") ==>
            PassedAll(record, ["portal-approve", "portal-deny", "portal-revoke", "portal-restore"]))
  {
    assert PassedAll(record, SCENARIOS) && (Is(Field(record, "target"), "plasma") ==> PassedAll(record, PORTAL_SCENARIOS))
      <==> ScenariosPassed(record);
  }

  /** A number of seconds up to ten, and a whole number of cycles from twenty; a truth value is neither. */
  lemma MeasuresExactly(v: Json.Value)
    ensures QuickFirstFrame(v) <==> (v.Int? && 0 <= v.n <= 10) || (v.Float? && 0.0 <= v.x <= 10.0)
    ensures TwentyReconnects(v) <==> v.Int? && 20 <= v.n
  {
  }

  /** Intact evidence holds a capture, the results of the inputs and a log; and each entry is a file of the recorded
      size and digest. */
  lemma EvidenceIntactExactly(artifacts: Json.Value, files: Files, lib: Library)
    ensures EvidenceIntact(artifacts, files, lib) <==>
      && artifacts.Arr?
      && Carries(artifacts.items, "viewer-capture") && Carries(artifacts.items, "input-results")
      && Carries(artifacts.items, "runner-log")
      && forall item | item in artifacts.items ::
           && item.Obj? && Json.Get(item, "path").Str? && Json.Get(item, "path").s in files
           && Json.Get(item, "sha256") == Json.Str(lib.digest(files[Json.Get(item, "path").s]))
           && Json.EqualsInt(Json.Get(item, "size"), |files[Json.Get(item, "path").s]|)
           && Json.Hashable(Json.Get(item, "kind"))
  {
    assert KINDS == ["viewer-capture", "input-results", "runner-log"];
    if artifacts.Arr? {
      assert forall i | 0 <= i < |artifacts.items| :: artifacts.items[i] in artifacts.items;
      assert (forall kind | kind in KINDS :: Carries(artifacts.items, kind)) <==>
        Carries(artifacts.items, KINDS[0]) && Carries(artifacts.items, KINDS[1]) && Carries(artifacts.items, KINDS[2]);
    }
  }

  // ----- the gate

  datatype Key = Key(target: Json.Value, viewer: Json.Value)

  datatype GateError = Duplicate(key: Key) | Flawed(key: Key, flaw: Flaw) | MissingPair(target: string, viewer: string)

  function KeyOf(record: Record): Key {
    Key(Field(record, "target"), Field(record, "viewer"))
  }

  predicate HashableKey(key: Key) {
    Json.Hashable(key.target) && Json.Hashable(key.viewer)
  }

  function FlawedAll(key: Key, flaws: seq<Flaw>): (errors: seq<GateError>)
    ensures |errors| == |flaws|
    ensures forall i | 0 <= i < |flaws| :: errors[i] == Flawed(key, flaws[i])
  {
    seq(|flaws|, i requires 0 <= i < |flaws| => Flawed(key, flaws[i]))
  }

  /** The first `n` records are distinct pairs, and each of them qualifies. */
  ghost predicate CleanFirst(records: seq<Record>, n: nat, commit: string, files: Files, lib: Library)
    requires n <= |records|
  {
    && (forall i | 0 <= i < n :: Qualifies(records[i], commit, files, lib))
    && (forall i, j | 0 <= i < j < n :: KeyOf(records[i]) != KeyOf(records[j]))
  }

  ghost predicate Covered(records: seq<Record>, target: string, viewer: string) {
    exists i | 0 <= i < |records| :: KeyOf(records[i]) == Key(Json.Str(target), Json.Str(viewer))
  }

  /** One qualifying record for every target and viewer, and no other record. */
  ghost predicate ReleaseQualified(records: seq<Record>, commit: string, files: Files, lib: Library) {
    && CleanFirst(records, |records|, commit, files, lib)
    && forall target, viewer | target in TARGETS && viewer in VIEWERS :: Covered(records, target, viewer)
  }

  /** The gate passes a release exactly if the records are one qualifying record per pair. The only
      errors it finds in records that each qualify are duplicate and missing pairs; it raises only on
      a record whose target, viewer or artifact kind cannot be hashed. */
  method ReleaseErrors(records: seq<Record>, commit: string, files: Files, lib: Library)
      returns (r: Result<seq<GateError>>)
    ensures r == Ok([]) <==> ReleaseQualified(records, commit, files, lib)
    ensures r.Ok? && (forall i | 0 <= i < |records| :: Qualifies(records[i], commit, files, lib)) ==>
      NoneFlawed(r.value)
    ensures r.Err? <==> exists i | 0 <= i < |records| :: Raises(records[i], files, lib)
    ensures r.Ok? ==> forall target, viewer | target in TARGETS && viewer in VIEWERS ::
      MissingPair(target, viewer) in r.value <==> !Covered(records, target, viewer)
  {
    var verdicts := Verdicts(records, commit, files, lib);
    VerdictsQualify(records, commit, files, lib, verdicts);
    r := JudgeRelease(verdicts);
  }

  ghost predicate Present(verdicts: seq<Verdict>, target: string, viewer: string) {
    exists i | 0 <= i < |verdicts| :: verdicts[i].key == Key(Json.Str(target), Json.Str(viewer))
  }

  method JudgeRelease(verdicts: seq<Verdict>) returns (r: Result<seq<GateError>>)
    ensures r.Err? <==> exists i | 0 <= i < |verdicts| :: FailsToJudge(verdicts[i])
    ensures r == Ok([]) <==>
      CleanVerdicts(verdicts) && (forall i | 0 <= i < |verdicts| :: !FailsToJudge(verdicts[i])) &&
      forall target, viewer | target in TARGETS && viewer in VIEWERS :: Present(verdicts, target, viewer)
    ensures r.Ok? && (forall i | 0 <= i < |verdicts| :: verdicts[i].flaws == Ok([])) ==> NoneFlawed(r.value)
    ensures r.Ok? ==> forall target, viewer | target in TARGETS && viewer in VIEWERS ::
      MissingPair(target, viewer) in r.value <==> !Present(verdicts, target, viewer)
  {
    var seen, found := RecordErrors(verdicts);
    if found.Err? {
      return Err("TypeError");
    }
    var missing := MissingPairs(seen);
    forall target, viewer | target in TARGETS && viewer in VIEWERS
      ensures MissingPair(target, viewer) in missing <==> !Present(verdicts, target, viewer)
    {
      assert Key(Json.Str(target), Json.Str(viewer)) in seen <==> Present(verdicts, target, viewer);
    }
    if missing != [] {
      assert missing[0] in missing;
      assert !Present(verdicts, missing[0].target, missing[0].viewer);
    }
    return Ok(found.value + missing);
  }

  ghost predicate Raises(record: Record, files: Files, lib: Library) {
    !HashableKey(KeyOf(record)) || ArtifactFlaws(Field(record, "artifacts"), files, lib).Err?
  }

  /** What the gate makes of each record on its own. */
  datatype Verdict = Verdict(key: Key, flaws: Result<seq<Flaw>>)

  function VerdictOf(record: Record, commit: string, files: Files, lib: Library): Verdict {
    Verdict(KeyOf(record), RecordFlaws(record, commit, files, lib))
  }

  function Verdicts(records: seq<Record>, commit: string, files: Files, lib: Library): (verdicts: seq<Verdict>)
    ensures |verdicts| == |records|
    ensures forall i | 0 <= i < |records| :: verdicts[i] == VerdictOf(records[i], commit, files, lib)
  {
    seq(|records|, i requires 0 <= i < |records| => VerdictOf(records[i], commit, files, lib))
  }

  ghost predicate CleanVerdicts(verdicts: seq<Verdict>) {
    && (forall i | 0 <= i < |verdicts| :: verdicts[i].flaws == Ok([]))
    && (forall i, j | 0 <= i < j < |verdicts| :: verdicts[i].key != verdicts[j].key)
  }

  ghost predicate FailsToJudge(verdict: Verdict) {
    !HashableKey(verdict.key) || verdict.flaws.Err?
  }

  lemma VerdictQualifies(record: Record, commit: string, files: Files, lib: Library, verdict: Verdict)
    requires verdict == VerdictOf(record, commit, files, lib)
    ensures verdict.key == KeyOf(record)
    ensures verdict.flaws == Ok([]) <==> Qualifies(record, commit, files, lib)
    ensures FailsToJudge(verdict) <==> Raises(record, files, lib)
    ensures verdict.flaws == Ok([]) ==> !FailsToJudge(verdict)
  {
    FlawlessQualifies(record, commit, files, lib);
  }

  lemma VerdictsQualify(
      records: seq<Record>, commit: string, files: Files, lib: Library, verdicts: seq<Verdict>)
    requires |verdicts| == |records|
    requires forall i | 0 <= i < |records| :: verdicts[i] == VerdictOf(records[i], commit, files, lib)
    ensures forall i | 0 <= i < |records| ::
      && verdicts[i].key == KeyOf(records[i])
      && (verdicts[i].flaws == Ok([]) <==> Qualifies(records[i], commit, files, lib))
      && (FailsToJudge(verdicts[i]) <==> Raises(records[i], files, lib))
      && (verdicts[i].flaws == Ok([]) ==> !FailsToJudge(verdicts[i]))
  {
    forall i | 0 <= i < |records|
      ensures verdicts[i].key == KeyOf(records[i])
      ensures verdicts[i].flaws == Ok([]) <==> Qualifies(records[i], commit, files, lib)
      ensures FailsToJudge(verdicts[i]) <==> Raises(records[i], files, lib)
      ensures verdicts[i].flaws == Ok([]) ==> !FailsToJudge(verdicts[i])
    {
      VerdictQualifies(records[i], commit, files, lib, verdicts[i]);
    }
  }

  /** The part of the gate that goes through the records. */
  method RecordErrors(verdicts: seq<Verdict>) returns (seen: set<Key>, r: Result<seq<GateError>>)
    ensures r.Err? <==> exists i | 0 <= i < |verdicts| :: FailsToJudge(verdicts[i])
    ensures r.Ok? ==> forall key :: key in seen <==> exists j | 0 <= j < |verdicts| :: verdicts[j].key == key
    ensures r.Ok? ==> (r.value == [] <==> CleanVerdicts(verdicts))
    ensures r.Ok? ==> NoneMissing(r.value)
    ensures r.Ok? && (forall j | 0 <= j < |verdicts| :: verdicts[j].flaws == Ok([])) ==> NoneFlawed(r.value)
  {
    var errors: seq<GateError> := [];
    seen := {};
    for i := 0 to |verdicts|
      invariant forall j | 0 <= j < i :: !FailsToJudge(verdicts[j])
      invariant forall key :: key in seen <==> exists j | 0 <= j < i :: verdicts[j].key == key
      invariant errors == [] <==> CleanVerdicts(verdicts[..i])
      invariant NoneMissing(errors)
      invariant (forall j | 0 <= j < i :: verdicts[j].flaws == Ok([])) ==> NoneFlawed(errors)
    {
      var verdict := verdicts[i];
      if !HashableKey(verdict.key) || verdict.flaws.Err? {
        assert FailsToJudge(verdicts[i]);
        return seen, Err("TypeError");
      }
      CleanNext(verdicts, i, verdict.key in seen);
      errors := errors + KeyErrors(verdict.key, verdict.key in seen, verdict.flaws.value);
      seen := seen + {verdict.key};
    }
    assert verdicts[..|verdicts|] == verdicts;
    r := Ok(errors);
  }

  function KeyErrors(key: Key, duplicate: bool, flaws: seq<Flaw>): (errors: seq<GateError>)
    ensures errors == [] <==> !duplicate && flaws == []
    ensures NoneMissing(errors)
    ensures flaws == [] ==> NoneFlawed(errors)
  {
    (if duplicate then [Duplicate(key)] else []) + FlawedAll(key, flaws)
  }

  predicate NoneMissing(errors: seq<GateError>) {
    forall e | e in errors :: !e.MissingPair?
  }

  predicate NoneFlawed(errors: seq<GateError>) {
    forall e | e in errors :: !e.Flawed?
  }

  lemma CleanNext(verdicts: seq<Verdict>, i: nat, duplicate: bool)
    requires i < |verdicts|
    requires duplicate <==> exists j | 0 <= j < i :: verdicts[j].key == verdicts[i].key
    ensures CleanVerdicts(verdicts[..i + 1]) <==>
      CleanVerdicts(verdicts[..i]) && !duplicate && verdicts[i].flaws == Ok([])
  {
    var next := verdicts[..i + 1];
    assert next[i] == verdicts[i] && forall j | 0 <= j < i :: next[j] == verdicts[..i][j] == verdicts[j];
  }

  /** The part of the gate that looks for pairs without a record. */
  method MissingPairs(seen: set<Key>) returns (missing: seq<GateError>)
    ensures forall e :: e in missing <==>
      e.MissingPair? && e.target in TARGETS && e.viewer in VIEWERS && Key(Json.Str(e.target), Json.Str(e.viewer)) !in seen
  {
    missing := [];
    for t := 0 to |TARGETS|
      invariant forall e :: e in missing <==>
        e.MissingPair? && e.target in TARGETS[..t] && e.viewer in VIEWERS &&
        Key(Json.Str(e.target), Json.Str(e.viewer)) !in seen
    {
      var added := MissingViewers(TARGETS[t], seen);
      missing := missing + added;
    }
  }

  method MissingViewers(target: string, seen: set<Key>) returns (missing: seq<GateError>)
    ensures forall e :: e in missing <==>
      e.MissingPair? && e.target == target && e.viewer in VIEWERS && Key(Json.Str(target), Json.Str(e.viewer)) !in seen
  {
    missing := [];
    for v := 0 to |VIEWERS|
      invariant forall e :: e in missing <==>
        e.MissingPair? && e.target == target && e.viewer in VIEWERS[..v] &&
        Key(Json.Str(target), Json.Str(e.viewer)) !in seen
    {
      if Key(Json.Str(target), Json.Str(VIEWERS[v])) !in seen {
        missing := missing + [MissingPair(target, VIEWERS[v])];
      }
    }
  }
}
