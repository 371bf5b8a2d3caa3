/** `merge_manual_input` of src/wayland_vnc/manual_input.py: a screenshot that carries the scene's
    markers passes the input scenarios of a record, and nothing else does. */
module ManualInput {
  import opened Results
  import opened Qualification
  import Json
  import PyText
  import D = Driver
  import R = RunRecord
  import S = Scenarios

  const INPUT_SCENARIOS := ["keyboard", "pointer"]
  const GESTURE_SCENARIOS := ["scroll", "drag"]
  const SCREENSHOT := "manual-input.png"
  const INPUT_RESULTS := "manual-input-results.json"

  /** Where the record's run directory resolves to, relative to the evidence root. */
  datatype RunDir = Escapes | Absent | At(path: string)

  type Resolver = (string, string, string) -> RunDir

  /** The screenshot of an attended run, which of the image checks accept it, whether the gestures are
      claimed too, and the text the results are written as. */
  datatype Attended = Attended(screenshot: Bytes, scene: bool, input: bool, gestureMarkers: bool, gestures: bool,
                               results: Bytes)

  function Claimed(a: Attended): seq<string> {
    if a.gestures then INPUT_SCENARIOS + GESTURE_SCENARIOS else INPUT_SCENARIOS
  }

  predicate Accepted(a: Attended) {
    a.scene && a.input && (a.gestures ==> a.gestureMarkers)
  }

  /** Everything up to the first write: the record's state, its run directory, the image checks. */
  function Admitted(record: Record, a: Attended, resolve: Resolver): Result<string> {
    if !Is(Field(record, "status"), "incomplete") && !Is(Field(record, "status"), "passed") then Err("ValueError")
    else if !Field(record, "target").Str? || !Field(record, "viewer").Str? || !Field(record, "run_id").Str? then
      Err("KeyError or TypeError")
    else
      match resolve(Field(record, "target").s, Field(record, "viewer").s, Field(record, "run_id").s)
      case Escapes => Err("ValueError")
      case Absent => Err("ValueError")
      case At(path) => if Accepted(a) then Ok(path) else Err("ValueError")
  }

  function Stored(dir: string): string {
    dir + "/" + SCREENSHOT
  }

  function ResultsFile(dir: string): string {
    dir + "/" + INPUT_RESULTS
  }

  function MarkPassed(fields: map<string, Json.Value>, names: seq<string>): (r: map<string, Json.Value>)
    ensures forall name | name in names :: name in r && r[name] == Json.Str("passed")
    ensures forall name | name !in names :: (name in r <==> name in fields) && (name in r ==> r[name] == fields[name])
  {
    if names == [] then fields
    else
      assert forall name :: name in names <==> name in names[..|names| - 1] || name == names[|names| - 1];
      MarkPassed(fields, names[..|names| - 1])[names[|names| - 1] := Json.Str("passed")]
  }

  /** `a["kind"]` and, for an artifact of another kind than the input results, `a["path"].endswith`. */
  predicate Readable(item: Json.Value) {
    && item.Obj? && "kind" in item.fields
    && (!Is(item.fields["kind"], "input-results") ==> "path" in item.fields && item.fields["path"].Str?)
  }

  /** An artifact the merge does not replace. */
  predicate Stays(item: Json.Value)
    requires Readable(item)
  {
    !Is(item.fields["kind"], "input-results") && !PyText.EndsWith(item.fields["path"].s, SCREENSHOT)
  }

  predicate AllReadable(items: seq<Json.Value>) {
    forall i | 0 <= i < |items| :: Readable(items[i])
  }

  function Staying(items: seq<Json.Value>): (r: seq<Json.Value>)
    requires AllReadable(items)
    ensures forall item :: item in r <==> item in items && Stays(item)
  {
    if items == [] then []
    else
      var last := items[|items| - 1];
      assert items == items[..|items| - 1] + [last];
      Staying(items[..|items| - 1]) + if Stays(last) then [last] else []
  }

  method Retain(items: seq<Json.Value>) returns (r: Option<seq<Json.Value>>)
    ensures r.Some? <==> AllReadable(items)
    ensures r.Some? ==> r.value == Staying(items)
  {
    var kept: seq<Json.Value> := [];
    for i := 0 to |items|
      invariant AllReadable(items[..i]) && kept == Staying(items[..i])
    {
      if !Readable(items[i]) {
        return None;
      }
      assert items[..i + 1][..i] == items[..i];
      if Stays(items[i]) {
        kept := kept + [items[i]];
      }
    }
    assert items[..|items|] == items;
    r := Some(kept);
  }

  function NewEntries(dir: string, a: Attended, lib: Library): seq<Json.Value> {
    [R.Entry(Stored(dir), a.screenshot, "viewer-capture", lib),
     R.Entry(ResultsFile(dir), a.results, "input-results", lib)]
  }

  /** The scenarios and artifacts of the record after the merge, and the status they give it. */
  function WithAttended(record: Record, scenarios: map<string, Json.Value>, artifacts: seq<Json.Value>): Record {
    record["scenarios" := Json.Obj(scenarios)]["artifacts" := Json.Arr(artifacts)]
  }

  function Decided(record: Record): Record {
    record["status" := Json.Str(if R.Earned(record) then "passed" else "incomplete")]
  }

  /** `for a in record["artifacts"]`: what can be gone through, and what is not there or cannot be. */
  function Iterated(artifacts: Json.Value): Option<seq<Json.Value>> {
    match artifacts
    case Arr(items) => Some(items)
    case Str(s) => if s == "" then Some([]) else None
    case Obj(fields) => if fields == map[] then Some([]) else None
    case _ => None
  }

  predicate WellFormed(record: Record) {
    var items := Iterated(Field(record, "artifacts"));
    Field(record, "scenarios").Obj? && items.Some? && AllReadable(items.value)
  }

  function MergedIn(record: Record, a: Attended, dir: string, lib: Library): Record
    requires WellFormed(record)
  {
    var scenarios := MarkPassed(Field(record, "scenarios").fields, Claimed(a));
    var artifacts := Staying(Iterated(Field(record, "artifacts")).value) + NewEntries(dir, a, lib);
    Decided(WithAttended(record, scenarios, artifacts))
  }

  function Merged(record: Record, a: Attended, resolve: Resolver, lib: Library): Result<Record> {
    match Admitted(record, a, resolve)
    case Err(e) => Err(e)
    case Ok(dir) => if WellFormed(record) then Ok(MergedIn(record, a, dir, lib)) else Err("KeyError or TypeError")
  }

  function Written(root: Files, a: Attended, dir: string): Files {
    root[Stored(dir) := a.screenshot][ResultsFile(dir) := a.results]
  }

  lemma FilesApart(dir: string)
    ensures Stored(dir) != ResultsFile(dir)
  {
    assert |SCREENSHOT| == 16 && |INPUT_RESULTS| == 25;
  }

  method Merge(draft: R.Draft, a: Attended, resolve: Resolver, lib: Library) returns (r: Result<()>)
    modifies draft
    ensures r.Ok? <==> Merged(old(draft.record), a, resolve, lib).Ok?
    ensures r.Ok? ==> draft.record == Merged(old(draft.record), a, resolve, lib).value
    ensures r.Err? ==> Field(draft.record, "status") == Field(old(draft.record), "status")
    ensures match Admitted(old(draft.record), a, resolve)
            case Err(_) => draft.record == old(draft.record) && draft.root == old(draft.root)
            case Ok(dir) => draft.root == Written(old(draft.root), a, dir)
  {
    match Admitted(draft.record, a, resolve) {
      case Err(e) => return Err(e);
      case Ok(dir) =>
        draft.root := draft.root[Stored(dir) := a.screenshot];
        draft.root := draft.root[ResultsFile(dir) := a.results];
        r := MergeAdmitted(draft, a, dir, lib);
    }
  }

  method MergeAdmitted(draft: R.Draft, a: Attended, dir: string, lib: Library) returns (r: Result<()>)
    requires Stored(dir) in draft.root && draft.root[Stored(dir)] == a.screenshot
    requires ResultsFile(dir) in draft.root && draft.root[ResultsFile(dir)] == a.results
    modifies draft`record
    ensures r.Ok? <==> WellFormed(old(draft.record))
    ensures r.Ok? ==> draft.record == MergedIn(old(draft.record), a, dir, lib)
    ensures r.Err? ==> Field(draft.record, "status") == Field(old(draft.record), "status")
  {
    var marked := MarkClaimed(draft, Claimed(a));
    if !marked {
      return Err("KeyError or TypeError");
    }
    assert Field(draft.record, "artifacts") == Field(old(draft.record), "artifacts");
    var items := Iterated(Field(draft.record, "artifacts"));
    if items.None? {
      return Err("KeyError or TypeError");
    }
    var kept := Retain(items.value);
    if kept.None? {
      return Err("KeyError or TypeError");
    }
    var entries := [R.Entry(Stored(dir), draft.root[Stored(dir)], "viewer-capture", lib),
                    R.Entry(ResultsFile(dir), draft.root[ResultsFile(dir)], "input-results", lib)];
    draft.record := draft.record["artifacts" := Json.Arr(kept.value + entries)];
    draft.record := draft.record["status" := Json.Str(if R.Earned(draft.record) then "passed" else "incomplete")];
    r := Ok(());
  }

  function Marking(record: Record, names: seq<string>): Record
    requires Field(record, "scenarios").Obj?
  {
    record["scenarios" := Json.Obj(MarkPassed(Field(record, "scenarios").fields, names))]
  }

  /** The loop that marks the claimed scenarios passed. */
  method MarkClaimed(draft: R.Draft, names: seq<string>) returns (marked: bool)
    requires names != []
    modifies draft`record
    ensures marked <==> Field(old(draft.record), "scenarios").Obj?
    ensures !marked ==> draft.record == old(draft.record)
    ensures marked ==> draft.record == Marking(old(draft.record), names)
  {
    if !Field(draft.record, "scenarios").Obj? {
      return false;
    }
    ghost var before := Field(draft.record, "scenarios").fields;
    for i := 0 to |names|
      invariant "scenarios" in draft.record
      invariant draft.record == old(draft.record)["scenarios" := Json.Obj(MarkPassed(before, names[..i]))]
    {
      assert names[..i + 1][..i] == names[..i];
      var fields := Field(draft.record, "scenarios").fields;
      draft.record := draft.record["scenarios" := Json.Obj(fields[names[i] := Json.Str("passed")])];
    }
    assert names[..|names|] == names;
    marked := true;
  }

  // ----- the status of a merged record

  lemma AttendedFields(record: Record, scenarios: map<string, Json.Value>, artifacts: seq<Json.Value>)
    ensures var r := WithAttended(record, scenarios, artifacts);
      && Field(Decided(r), "scenarios") == Json.Obj(scenarios) && Field(Decided(r), "artifacts") == Json.Arr(artifacts)
      && R.Earned(Decided(r)) == R.Earned(r)
    ensures forall key | key !in {"scenarios", "artifacts", "status"} ::
      Field(Decided(WithAttended(record, scenarios, artifacts)), key) == Field(record, key)
  {
    var r := WithAttended(record, scenarios, artifacts);
    assert "status"[1] == 't' && "scenarios"[1] == 'c' && "artifacts"[1] == 'r' && "target"[1] == 'a';
    assert "post_run_smoke"[0] == 'p';
    assert forall key | key != "status" :: Field(Decided(r), key) == Field(r, key);
  }

  /** The keyboard and the pointer, and scrolling and dragging only with the gestures. */
  lemma ClaimedExactly(a: Attended, name: string)
    ensures name in Claimed(a) <==>
      name == "keyboard" || name == "pointer" || (a.gestures && (name == "scroll" || name == "drag"))
  {
    assert INPUT_SCENARIOS + GESTURE_SCENARIOS == ["keyboard", "pointer", "scroll", "drag"];
  }

  /** A merge succeeds exactly for a record in a mergeable state whose run directory is there, on a screenshot that
      the scene check and the input check accept, and with gestures the gesture check too. */
  lemma MergeSucceedsExactly(record: Record, a: Attended, resolve: Resolver, lib: Library)
    ensures Merged(record, a, resolve, lib).Ok? <==>
      && Field(record, "status") in {Json.Str("incomplete"), Json.Str("passed")}
      && Field(record, "target").Str? && Field(record, "viewer").Str? && Field(record, "run_id").Str?
      && resolve(Field(record, "target").s, Field(record, "viewer").s, Field(record, "run_id").s).At?
      && a.scene && a.input && (a.gestures ==> a.gestureMarkers)
      && WellFormed(record)
  {
  }

  /** The merge replaces the input results and the screenshot of an earlier one, and stores both beside the run. */
  lemma StaysExactly(item: Json.Value, dir: string)
    requires Readable(item)
    ensures Stays(item) <==>
      item.fields["kind"] != Json.Str("input-results") && !PyText.EndsWith(item.fields["path"].s, "manual-input.png")
    ensures Stored(dir) == dir + "/" + "manual-input.png" && ResultsFile(dir) == dir + "/" + "manual-input-results.json"
  {
  }

  predicate PassedIn(record: Record, name: string) {
    Field(record, "scenarios").Obj? && Is(Json.Get(Field(record, "scenarios"), name), "passed")
  }

  /** A merge passes the claimed scenarios and no others, leaves every field but three alone, and marks
      the record passed exactly if the record has then earned it. */
  lemma MergeDecides(record: Record, a: Attended, resolve: Resolver, lib: Library)
    requires Merged(record, a, resolve, lib).Ok?
    ensures var merged := Merged(record, a, resolve, lib).value;
      && Field(merged, "scenarios").Obj?
      && (forall name :: PassedIn(merged, name) <==> PassedIn(record, name) || name in Claimed(a))
      && (forall key | key !in {"scenarios", "artifacts", "status"} :: Field(merged, key) == Field(record, key))
      && (Is(Field(merged, "status"), "passed") <==> R.Earned(merged))
      && Field(merged, "status") in {Json.Str("passed"), Json.Str("incomplete")}
      && (exists dir :: Admitted(record, a, resolve) == Ok(dir) && Field(merged, "artifacts") ==
            Json.Arr(Staying(Iterated(Field(record, "artifacts")).value) + NewEntries(dir, a, lib)))
  {
    var dir := Admitted(record, a, resolve).value;
    var scenarios := MarkPassed(Field(record, "scenarios").fields, Claimed(a));
    var artifacts := Staying(Iterated(Field(record, "artifacts")).value) + NewEntries(dir, a, lib);
    AttendedFields(record, scenarios, artifacts);
    MarkedPassed(Field(record, "scenarios").fields, Claimed(a));
    assert "incomplete"[0] != "passed"[0];
  }

  lemma MarkedPassed(fields: map<string, Json.Value>, names: seq<string>)
    ensures forall name :: Is(Json.Get(Json.Obj(MarkPassed(fields, names)), name), "passed") <==>
      Is(Json.Get(Json.Obj(fields), name), "passed") || name in names
  {
  }

  // ----- any number of merges

  /** The record file after an attempt: a merge that raises is not saved. */
  function Saved(record: Record, a: Attended, resolve: Resolver, lib: Library): Record {
    match Merged(record, a, resolve, lib)
    case Ok(merged) => merged
    case Err(_) => record
  }

  function AllSaved(record: Record, attempts: seq<Attended>, resolve: Resolver, lib: Library): Record {
    if attempts == [] then record
    else Saved(AllSaved(record, attempts[..|attempts| - 1], resolve, lib), attempts[|attempts| - 1], resolve, lib)
  }

  /** An attempt that succeeds on the record as it was before any of them. */
  predicate Vouches(record: Record, a: Attended, name: string, resolve: Resolver, lib: Library) {
    Merged(record, a, resolve, lib).Ok? && name in Claimed(a)
  }

  predicate Vouched(record: Record, attempts: seq<Attended>, name: string, resolve: Resolver, lib: Library) {
    exists i | 0 <= i < |attempts| :: Vouches(record, attempts[i], name, resolve, lib)
  }

  predicate Accepting(record: Record) {
    Is(Field(record, "status"), "incomplete") || Is(Field(record, "status"), "passed")
  }

  /** What decides whether a merge succeeds, and what the gate will require. */
  predicate SameStanding(before: Record, now: Record) {
    && (Accepting(before) <==> Accepting(now)) && (WellFormed(before) <==> WellFormed(now))
    && forall key | key in {"target", "viewer", "run_id", "post_run_smoke"} :: Field(now, key) == Field(before, key)
  }

  lemma StandingAdmits(before: Record, now: Record, a: Attended, resolve: Resolver, lib: Library)
    requires SameStanding(before, now)
    ensures Merged(now, a, resolve, lib).Ok? <==> Merged(before, a, resolve, lib).Ok?
  {
    assert Field(now, "target") == Field(before, "target") && Field(now, "viewer") == Field(before, "viewer");
    assert Field(now, "run_id") == Field(before, "run_id");
  }

  lemma MergedWellFormed(record: Record, a: Attended, resolve: Resolver, lib: Library)
    requires Merged(record, a, resolve, lib).Ok?
    ensures WellFormed(Merged(record, a, resolve, lib).value)
  {
    MergeDecides(record, a, resolve, lib);
    var dir := Admitted(record, a, resolve).value;
    var kept := Staying(Iterated(Field(record, "artifacts")).value);
    EntryReadable(Stored(dir), a.screenshot, "viewer-capture", lib);
    EntryReadable(ResultsFile(dir), a.results, "input-results", lib);
    ReadableTogether(kept, NewEntries(dir, a, lib));
  }

  lemma ReadableTogether(kept: seq<Json.Value>, entries: seq<Json.Value>)
    requires forall item | item in kept :: Readable(item)
    requires AllReadable(entries)
    ensures AllReadable(kept + entries)
  {
    forall i | 0 <= i < |kept + entries| ensures Readable((kept + entries)[i]) {
      if i < |kept| {
        assert kept[i] in kept;
      }
    }
  }

  lemma EntryReadable(path: string, bytes: Bytes, kind: string, lib: Library)
    ensures Readable(R.Entry(path, bytes, kind, lib))
  {
    R.EntryFields(path, bytes, kind, lib);
  }

  lemma StandingKept(record: Record, a: Attended, resolve: Resolver, lib: Library)
    ensures SameStanding(record, Saved(record, a, resolve, lib))
  {
    if Merged(record, a, resolve, lib).Ok? {
      MergeDecides(record, a, resolve, lib);
      MergedWellFormed(record, a, resolve, lib);
      StandingKeys();
    }
  }

  lemma StandingKeys()
    ensures {"target", "viewer", "run_id", "post_run_smoke"} !! {"scenarios", "artifacts", "status"}
  {
    assert "scenarios"[1] == 'c' && "artifacts"[1] == 'r' && "status"[1] == 't';
    assert "target"[1] == 'a' && "viewer"[1] == 'i' && "run_id"[1] == 'u' && "post_run_smoke"[1] == 'o';
  }

  lemma StandingTransitive(r: Record, s: Record, t: Record)
    requires SameStanding(r, s) && SameStanding(s, t)
    ensures SameStanding(r, t)
  {
  }

  /** After any attempts a scenario counts as passed exactly if it was passed at the start, or an
      attempt that succeeds on the starting record claims it: the order of attempts does not matter. */
  lemma {:induction false} PassedAfterAttempts(record: Record, attempts: seq<Attended>, name: string, resolve: Resolver,
                                               lib: Library)
    ensures var now := AllSaved(record, attempts, resolve, lib);
      && SameStanding(record, now)
      && (PassedIn(now, name) <==> PassedIn(record, name) || Vouched(record, attempts, name, resolve, lib))
  {
    if attempts == [] {
    } else {
      var n := |attempts| - 1;
      var before := AllSaved(record, attempts[..n], resolve, lib);
      PassedAfterAttempts(record, attempts[..n], name, resolve, lib);
      StandingAdmits(record, before, attempts[n], resolve, lib);
      StandingKept(before, attempts[n], resolve, lib);
      StandingTransitive(record, before, Saved(before, attempts[n], resolve, lib));
      VouchedMore(record, attempts, name, resolve, lib);
      if Merged(before, attempts[n], resolve, lib).Ok? {
        MergeDecides(before, attempts[n], resolve, lib);
      }
    }
  }

  lemma VouchedMore(record: Record, attempts: seq<Attended>, name: string, resolve: Resolver, lib: Library)
    requires attempts != []
    ensures var n := |attempts| - 1;
      Vouched(record, attempts, name, resolve, lib) <==>
      Vouched(record, attempts[..n], name, resolve, lib) || Vouches(record, attempts[n], name, resolve, lib)
  {
    var n := |attempts| - 1;
    assert forall i | 0 <= i < n :: attempts[..n][i] == attempts[i];
  }

  /** No merge makes an unearned pass, however many are attempted. */
  lemma {:induction false} PassedStaysEarned(record: Record, attempts: seq<Attended>, resolve: Resolver, lib: Library)
    requires R.PassedIsEarned(record)
    ensures R.PassedIsEarned(AllSaved(record, attempts, resolve, lib))
  {
    if attempts == [] {
    } else {
      var n := |attempts| - 1;
      var before := AllSaved(record, attempts[..n], resolve, lib);
      PassedStaysEarned(record, attempts[..n], resolve, lib);
      if Merged(before, attempts[n], resolve, lib).Ok? {
        MergeDecides(before, attempts[n], resolve, lib);
      }
    }
  }

  lemma EarnedIf(record: Record)
    ensures R.Earned(record) <==>
      && Is(Field(record, "post_run_smoke"), "passed") && Field(record, "scenarios").Obj?
      && forall name | name in Required(Field(record, "target")) :: PassedIn(record, name)
  {
  }

  /** A scenario no attended run can claim, once not passed, keeps the record from ever passing. */
  lemma UnclaimedNeverPasses(record: Record, attempts: seq<Attended>, name: string, resolve: Resolver, lib: Library)
    requires R.PassedIsEarned(record) && name in Required(Field(record, "target")) && !PassedIn(record, name)
    requires name !in INPUT_SCENARIOS + GESTURE_SCENARIOS
    ensures !Is(Field(AllSaved(record, attempts, resolve, lib), "status"), "passed")
  {
    var now := AllSaved(record, attempts, resolve, lib);
    PassedStaysEarned(record, attempts, resolve, lib);
    PassedAfterAttempts(record, attempts, name, resolve, lib);
    assert "target" in {"target", "viewer", "run_id", "post_run_smoke"};
    assert Field(now, "target") == Field(record, "target");
    EarnedIf(now);
  }

  /** What a record has earned after any attempts, from the record before them. */
  lemma EarnedAfterAttempts(record: Record, attempts: seq<Attended>, resolve: Resolver, lib: Library)
    requires Field(record, "scenarios").Obj?
    ensures R.Earned(AllSaved(record, attempts, resolve, lib)) <==>
      && Is(Field(record, "post_run_smoke"), "passed")
      && forall name | name in Required(Field(record, "target")) ::
           PassedIn(record, name) || Vouched(record, attempts, name, resolve, lib)
  {
    var now := AllSaved(record, attempts, resolve, lib);
    forall name ensures PassedIn(now, name) <==> PassedIn(record, name) || Vouched(record, attempts, name, resolve, lib) {
      PassedAfterAttempts(record, attempts, name, resolve, lib);
    }
    PassedAfterAttempts(record, attempts, "", resolve, lib);
    assert "target" in {"target", "viewer", "run_id", "post_run_smoke"};
    assert "post_run_smoke" in {"target", "viewer", "run_id", "post_run_smoke"};
    ScenariosStay(record, attempts, resolve, lib);
    EarnedIf(now);
  }

  lemma {:induction false} ScenariosStay(record: Record, attempts: seq<Attended>, resolve: Resolver, lib: Library)
    requires Field(record, "scenarios").Obj?
    ensures Field(AllSaved(record, attempts, resolve, lib), "scenarios").Obj?
  {
    if attempts == [] {
    } else {
      var n := |attempts| - 1;
      var before := AllSaved(record, attempts[..n], resolve, lib);
      ScenariosStay(record, attempts[..n], resolve, lib);
      if Merged(before, attempts[n], resolve, lib).Ok? {
        MergeDecides(before, attempts[n], resolve, lib);
      }
    }
  }

  lemma RevokeRequired(target: Json.Value)
    requires Is(target, "plasma")
    ensures R.NameText(S.PortalRevoke) in Required(target)
    ensures R.NameText(S.PortalRevoke) !in INPUT_SCENARIOS + GESTURE_SCENARIOS
  {
    assert PORTAL_SCENARIOS[2] == R.NameText(S.PortalRevoke);
    var claimable := INPUT_SCENARIOS + GESTURE_SCENARIOS;
    assert claimable[0] == "keyboard" && claimable[1] == "pointer" && claimable[2] == "scroll" && claimable[3] == "drag";
    assert "portal-revoke"[1] == 'o' && "portal-revoke"[2] == 'r' && "pointer"[2] == 'i';
    assert forall name | name in claimable :: name == "keyboard" || name == "pointer" || name == "scroll" || name == "drag";
  }

  lemma RevokedNeverPasses(record: Record, attempts: seq<Attended>, resolve: Resolver, lib: Library)
    requires R.PassedIsEarned(record) && Is(Field(record, "target"), "plasma")
    requires !PassedIn(record, R.NameText(S.PortalRevoke))
    ensures !Is(Field(AllSaved(record, attempts, resolve, lib), "status"), "passed")
  {
    RevokeRequired(Field(record, "target"));
    UnclaimedNeverPasses(record, attempts, R.NameText(S.PortalRevoke), resolve, lib);
  }

  lemma PlasmaRunRevoked(record: Record, run: R.Run, outcomes: map<S.Name, S.Outcome>, artifacts: seq<Json.Value>)
    requires run.fixture == D.Plasma && Is(Field(record, "target"), "plasma")
    requires !Is(Field(record, "status"), "passed") && R.StatusOf(outcomes, S.PortalRevoke) != S.Passed
    ensures var filled := R.Filled(record, run, outcomes, artifacts);
      && R.PassedIsEarned(filled) && Is(Field(filled, "target"), "plasma")
      && !PassedIn(filled, R.NameText(S.PortalRevoke))
  {
    R.FillEarns(record, run, outcomes, artifacts);
    R.FilledTarget(record, run, outcomes, artifacts);
    PlasmaRequiresRevoke();
    R.FilledStatus(record, run, outcomes, artifacts, S.PortalRevoke);
  }

  lemma PlasmaRequiresRevoke()
    ensures S.PortalRevoke in S.Required(D.Plasma)
  {
  }

  lemma RevokeNotPassed(outcomes: map<S.Name, S.Outcome>)
    requires S.AllEvidenced(outcomes)
    ensures R.StatusOf(outcomes, S.PortalRevoke) != S.Passed
  {
    if S.PortalRevoke in outcomes {
      assert S.Evidenced(S.PortalRevoke, outcomes[S.PortalRevoke]);
    }
  }

  /** A run on the Plasma fixture never comes to a passed record: the run cannot pass the revoked
      portal, and no attended run can claim it. */
  lemma PlasmaNeverPasses(record: Record, run: R.Run, outcomes: map<S.Name, S.Outcome>, artifacts: seq<Json.Value>,
                          attempts: seq<Attended>, resolve: Resolver, lib: Library)
    requires run.fixture == D.Plasma && Is(Field(record, "target"), "plasma")
    requires !Is(Field(record, "status"), "passed") && S.AllEvidenced(outcomes)
    ensures !Is(Field(AllSaved(R.Filled(record, run, outcomes, artifacts), attempts, resolve, lib), "status"), "passed")
  {
    RevokeNotPassed(outcomes);
    PlasmaRunRevoked(record, run, outcomes, artifacts);
    RevokedNeverPasses(R.Filled(record, run, outcomes, artifacts), attempts, resolve, lib);
  }

  // ----- the evidence of a merged record

  /** A log that is not replaced as if it were the screenshot, and nothing false said of a file at the place
      of the new results. */
  ghost predicate RoomFor(items: seq<Json.Value>, a: Attended, dir: string, lib: Library)
    requires AllReadable(items)
  {
    && (exists i | 0 <= i < |items| :: Is(items[i].fields["kind"], "runner-log") && Stays(items[i]))
    && forall i | 0 <= i < |items| && Stays(items[i]) :: RoomBeside(items[i], a, dir, lib)
  }

  predicate RoomBeside(item: Json.Value, a: Attended, dir: string, lib: Library)
    requires Readable(item) && Stays(item)
  {
    item.fields["path"].s == ResultsFile(dir) ==>
      Is(Json.Get(item, "sha256"), lib.digest(a.results)) && Json.EqualsInt(Json.Get(item, "size"), |a.results|)
  }

  lemma StoredEnds(dir: string)
    ensures PyText.EndsWith(Stored(dir), SCREENSHOT)
  {
    assert Stored(dir)[|Stored(dir)| - |SCREENSHOT|..] == SCREENSHOT;
  }

  lemma StayingIntact(item: Json.Value, root: Files, a: Attended, dir: string, lib: Library)
    requires Readable(item) && Stays(item) && Intact(item, root, lib)
    ensures Intact(item, Written(root, a, dir), lib) <==> RoomBeside(item, a, dir, lib)
  {
    StoredEnds(dir);
    assert Json.Get(item, "path") == item.fields["path"];
  }

  /** A merge keeps the evidence of a record intact exactly if one of its logs is not called like the screenshot,
      and what it says of a file at the place of the new results is true of them: whatever else the
      screenshot and the results overwrite, the record no longer names as it was. */
  lemma MergeKeepsEvidence(items: seq<Json.Value>, root: Files, a: Attended, dir: string, lib: Library)
    requires AllReadable(items) && EvidenceIntact(Json.Arr(items), root, lib)
    ensures EvidenceIntact(Json.Arr(Staying(items) + NewEntries(dir, a, lib)), Written(root, a, dir), lib) <==>
      RoomFor(items, a, dir, lib)
  {
    var merged := Staying(items) + NewEntries(dir, a, lib);
    if RoomFor(items, a, dir, lib) {
      RoomKeeps(items, root, a, dir, lib);
    }
    if EvidenceIntact(Json.Arr(merged), Written(root, a, dir), lib) {
      KeptHasRoom(items, root, a, dir, lib);
    }
  }

  lemma RoomKeeps(items: seq<Json.Value>, root: Files, a: Attended, dir: string, lib: Library)
    requires AllReadable(items) && EvidenceIntact(Json.Arr(items), root, lib) && RoomFor(items, a, dir, lib)
    ensures EvidenceIntact(Json.Arr(Staying(items) + NewEntries(dir, a, lib)), Written(root, a, dir), lib)
  {
    StayingAllIntact(items, root, a, dir, lib);
    NewIntact(root, a, dir, lib);
    LogStays(items, a, dir, lib);
    var entries := NewEntries(dir, a, lib);
    Joined(Staying(items), entries[0], entries[1], Written(root, a, dir), lib);
    assert Staying(items) + entries == Staying(items) + [entries[0], entries[1]];
  }

  lemma KeptHasRoom(items: seq<Json.Value>, root: Files, a: Attended, dir: string, lib: Library)
    requires AllReadable(items) && EvidenceIntact(Json.Arr(items), root, lib)
    requires EvidenceIntact(Json.Arr(Staying(items) + NewEntries(dir, a, lib)), Written(root, a, dir), lib)
    ensures RoomFor(items, a, dir, lib)
  {
    var kept := Staying(items);
    var merged := kept + NewEntries(dir, a, lib);
    forall i | 0 <= i < |items| && Stays(items[i]) ensures RoomBeside(items[i], a, dir, lib) {
      assert items[i] in kept;
      var j :| 0 <= j < |kept| && kept[j] == items[i];
      assert merged[j] == items[i];
      StayingIntact(items[i], root, a, dir, lib);
    }
    NewHoldNoLog(a, dir, lib);
    LogCarried(merged, Written(root, a, dir), lib);
    LogLeft(items, kept, NewEntries(dir, a, lib), merged);
  }

  lemma LogCarried(items: seq<Json.Value>, files: Files, lib: Library)
    requires EvidenceIntact(Json.Arr(items), files, lib)
    ensures Carries(items, "runner-log")
  {
    assert KINDS[2] == "runner-log" && "runner-log" in KINDS;
  }

  lemma NewHoldNoLog(a: Attended, dir: string, lib: Library)
    ensures forall entry | entry in NewEntries(dir, a, lib) :: !IsLog(entry)
  {
    R.KindTexts();
    R.EntryFields(Stored(dir), a.screenshot, "viewer-capture", lib);
    R.EntryFields(ResultsFile(dir), a.results, "input-results", lib);
  }

  predicate IsLog(item: Json.Value) {
    item.Obj? && Is(Json.Get(item, "kind"), "runner-log")
  }

  lemma LogLeft(items: seq<Json.Value>, kept: seq<Json.Value>, entries: seq<Json.Value>, merged: seq<Json.Value>)
    requires AllReadable(items) && kept == Staying(items) && merged == kept + entries && Carries(merged, "runner-log")
    requires forall entry | entry in entries :: !IsLog(entry)
    ensures exists i | 0 <= i < |items| :: Is(items[i].fields["kind"], "runner-log") && Stays(items[i])
  {
    var item := CarriedLog(merged);
    assert item in kept;
    var i :| 0 <= i < |items| && items[i] == item;
    assert Is(items[i].fields["kind"], "runner-log") && Stays(items[i]);
  }

  lemma CarriedLog(items: seq<Json.Value>) returns (item: Json.Value)
    requires Carries(items, "runner-log")
    ensures item in items && IsLog(item)
  {
    var i :| 0 <= i < |items| && items[i].Obj? && Is(Json.Get(items[i], "kind"), "runner-log");
    item := items[i];
  }

  lemma StayingAllIntact(items: seq<Json.Value>, root: Files, a: Attended, dir: string, lib: Library)
    requires AllReadable(items) && RoomFor(items, a, dir, lib) && EvidenceIntact(Json.Arr(items), root, lib)
    ensures forall i | 0 <= i < |Staying(items)| :: IntactEvidence(Staying(items)[i], Written(root, a, dir), lib)
  {
    var kept := Staying(items);
    forall i | 0 <= i < |kept| ensures IntactEvidence(kept[i], Written(root, a, dir), lib) {
      assert kept[i] in kept;
      var j :| 0 <= j < |items| && items[j] == kept[i];
      StayingIntact(kept[i], root, a, dir, lib);
    }
  }

  predicate IntactEvidence(item: Json.Value, files: Files, lib: Library) {
    Intact(item, files, lib) && Json.Hashable(Json.Get(item, "kind"))
  }

  lemma Joined(kept: seq<Json.Value>, shot: Json.Value, results: Json.Value, files: Files, lib: Library)
    requires forall i | 0 <= i < |kept| :: IntactEvidence(kept[i], files, lib)
    requires R.IntactOfKind(shot, "viewer-capture", files, lib) && R.IntactOfKind(results, "input-results", files, lib)
    requires Carries(kept, "runner-log")
    ensures EvidenceIntact(Json.Arr(kept + [shot, results]), files, lib)
  {
    JoinedCarries(kept, shot, results, "runner-log", "viewer-capture", "input-results");
    JoinedIntact(kept, shot, results, files, lib);
    IntactTogether(kept + [shot, results], files, lib);
  }

  lemma JoinedCarries(kept: seq<Json.Value>, shot: Json.Value, results: Json.Value, log: string, capture: string, input: string)
    requires Carries(kept, log) && shot.Obj? && Is(Json.Get(shot, "kind"), capture)
    requires results.Obj? && Is(Json.Get(results, "kind"), input)
    ensures var merged := kept + [shot, results];
      Carries(merged, log) && Carries(merged, capture) && Carries(merged, input)
  {
    var merged := kept + [shot, results];
    var i :| 0 <= i < |kept| && kept[i].Obj? && Is(Json.Get(kept[i], "kind"), log);
    CarriesAt(merged, i, log);
    CarriesAt(merged, |kept|, capture);
    CarriesAt(merged, |kept| + 1, input);
  }

  lemma JoinedIntact(kept: seq<Json.Value>, shot: Json.Value, results: Json.Value, files: Files, lib: Library)
    requires forall i | 0 <= i < |kept| :: IntactEvidence(kept[i], files, lib)
    requires IntactEvidence(shot, files, lib) && IntactEvidence(results, files, lib)
    ensures AllIntact(kept + [shot, results], files, lib)
  {
  }

  predicate AllIntact(items: seq<Json.Value>, files: Files, lib: Library) {
    forall i | 0 <= i < |items| :: IntactEvidence(items[i], files, lib)
  }

  lemma IntactTogether(items: seq<Json.Value>, files: Files, lib: Library)
    requires AllIntact(items, files, lib)
    requires Carries(items, "runner-log") && Carries(items, "viewer-capture") && Carries(items, "input-results")
    ensures EvidenceIntact(Json.Arr(items), files, lib)
  {
    R.KindTexts();
  }

  lemma CarriesAt(items: seq<Json.Value>, i: nat, kind: string)
    requires i < |items| && items[i].Obj? && Is(Json.Get(items[i], "kind"), kind)
    ensures Carries(items, kind)
  {
  }

  lemma LogStays(items: seq<Json.Value>, a: Attended, dir: string, lib: Library)
    requires AllReadable(items) && RoomFor(items, a, dir, lib)
    ensures Carries(Staying(items), "runner-log")
  {
    var kept := Staying(items);
    var i :| 0 <= i < |items| && Is(items[i].fields["kind"], "runner-log") && Stays(items[i]);
    assert items[i] in kept;
    var j :| 0 <= j < |kept| && kept[j] == items[i];
    CarriesAt(kept, j, "runner-log");
  }

  lemma NewIntact(root: Files, a: Attended, dir: string, lib: Library)
    ensures var entries := NewEntries(dir, a, lib);
      && R.IntactOfKind(entries[0], "viewer-capture", Written(root, a, dir), lib)
      && R.IntactOfKind(entries[1], "input-results", Written(root, a, dir), lib)
  {
    FilesApart(dir);
    R.EntryIntact(Stored(dir), a.screenshot, "viewer-capture", Written(root, a, dir), lib);
    R.EntryIntact(ResultsFile(dir), a.results, "input-results", Written(root, a, dir), lib);
  }
}
