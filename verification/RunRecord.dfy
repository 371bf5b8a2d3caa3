/** How a record comes to say what it says: `new_partial_record` (src/wayland_vnc/qualification.py) and
    `fill_record` (src/wayland_vnc/desktop_scenarios.py). */
module RunRecord {
  import opened Results
  import opened Qualification
  import Json
  import S = Scenarios
  import D = Driver

  // ----- names in a record

  function NameText(name: S.Name): string {
    match name
    case FirstFrame => "first-frame"
    case Colors => "colors"
    case ChangingFrames => "changing-frames"
    case Keyboard => "keyboard"
    case Pointer => "pointer"
    case DragName => "drag"
    case ScrollName => "scroll"
    case BaseMode100 => "1080p-100"
    case HighDpi200 => "4k-200"
    case Reconnect20 => "reconnect-20"
    case ViewerKilled => "viewer-killed"
    case NetworkInterruption => "network-interruption"
    case Resize => "resize"
    case MonitorChange => "monitor-change"
    case ServerRestart => "server-restart"
    case LockName => "lock"
    case SuspendResume => "suspend-resume"
    case PortalApprove => "portal-approve"
    case PortalDeny => "portal-deny"
    case PortalRevoke => "portal-revoke"
    case PortalRestore => "portal-restore"
  }

  /** Length, first character and fourth character from the end tell all the names apart. */
  ghost function Signature(name: S.Name): (nat, char, char) {
    match name
    case FirstFrame => (11, 'f', 'r')
    case Colors => (6, 'c', 'l')
    case ChangingFrames => (15, 'c', 'a')
    case Keyboard => (8, 'k', 'o')
    case Pointer => (7, 'p', 'n')
    case DragName => (4, 'd', 'd')
    case ScrollName => (6, 's', 'r')
    case BaseMode100 => (9, '1', '-')
    case HighDpi200 => (6, '4', '-')
    case Reconnect20 => (12, 'r', 't')
    case ViewerKilled => (13, 'v', 'l')
    case NetworkInterruption => (20, 'n', 't')
    case Resize => (6, 'r', 's')
    case MonitorChange => (14, 'm', 'a')
    case ServerRestart => (14, 's', 't')
    case LockName => (4, 'l', 'l')
    case SuspendResume => (14, 's', 's')
    case PortalApprove => (14, 'p', 'r')
    case PortalDeny => (11, 'p', 'd')
    case PortalRevoke => (13, 'p', 'v')
    case PortalRestore => (14, 'p', 't')
  }

  lemma SignatureOfText(name: S.Name)
    ensures var text := NameText(name);
      |text| >= 4 && Signature(name) == (|text|, text[0], text[|text| - 4])
  {
  }

  lemma NameTextInjective(a: S.Name, b: S.Name)
    ensures NameText(a) == NameText(b) ==> a == b
  {
    SignatureOfText(a);
    SignatureOfText(b);
  }

  const ORDER: seq<S.Name> := [
    S.FirstFrame, S.Colors, S.ChangingFrames, S.Keyboard, S.Pointer, S.DragName, S.ScrollName, S.BaseMode100,
    S.HighDpi200, S.Reconnect20, S.ViewerKilled, S.NetworkInterruption, S.Resize, S.MonitorChange, S.ServerRestart,
    S.LockName, S.SuspendResume]

  const PORTAL_ORDER: seq<S.Name> := [S.PortalApprove, S.PortalDeny, S.PortalRevoke, S.PortalRestore]

  lemma OrderTexts()
    ensures |ORDER| == |SCENARIOS| && forall i | 0 <= i < |ORDER| :: NameText(ORDER[i]) == SCENARIOS[i]
    ensures |PORTAL_ORDER| == |PORTAL_SCENARIOS|
    ensures forall i | 0 <= i < |PORTAL_ORDER| :: NameText(PORTAL_ORDER[i]) == PORTAL_SCENARIOS[i]
  {
  }

  lemma OrderNames()
    ensures forall name :: name in ORDER <==> name in S.SCENARIOS
    ensures forall name :: name in PORTAL_ORDER <==> name in S.PORTAL_SCENARIOS
  {
    assert ORDER[0] == S.FirstFrame && ORDER[1] == S.Colors && ORDER[2] == S.ChangingFrames && ORDER[3] == S.Keyboard;
    assert ORDER[4] == S.Pointer && ORDER[5] == S.DragName && ORDER[6] == S.ScrollName && ORDER[7] == S.BaseMode100;
    assert ORDER[8] == S.HighDpi200 && ORDER[9] == S.Reconnect20 && ORDER[10] == S.ViewerKilled;
    assert ORDER[11] == S.NetworkInterruption && ORDER[12] == S.Resize && ORDER[13] == S.MonitorChange;
    assert ORDER[14] == S.ServerRestart && ORDER[15] == S.LockName && ORDER[16] == S.SuspendResume;
    assert PORTAL_ORDER[0] == S.PortalApprove && PORTAL_ORDER[1] == S.PortalDeny;
    assert PORTAL_ORDER[2] == S.PortalRevoke && PORTAL_ORDER[3] == S.PortalRestore;
  }

  /** Two lists that agree place by place hold the same things under their two names. */
  lemma SameThings<A, B>(order: seq<A>, texts: seq<B>, show: A -> B, text: B)
    requires |order| == |texts| && forall i | 0 <= i < |order| :: show(order[i]) == texts[i]
    ensures text in texts <==> exists x :: x in order && show(x) == text
  {
    if text in texts {
      var i :| 0 <= i < |texts| && texts[i] == text;
      assert order[i] in order;
    }
  }

  ghost predicate Names(names: set<S.Name>, text: string) {
    exists name :: name in names && NameText(name) == text
  }

  lemma ScenarioTexts(text: string)
    ensures text in SCENARIOS <==> Names(S.SCENARIOS, text)
  {
    OrderTexts();
    OrderNames();
    SameThings(ORDER, SCENARIOS, NameText, text);
    assert forall name :: name in ORDER && NameText(name) == text <==> name in S.SCENARIOS && NameText(name) == text;
  }

  lemma PortalTexts(text: string)
    ensures text in PORTAL_SCENARIOS <==> Names(S.PORTAL_SCENARIOS, text)
  {
    OrderTexts();
    OrderNames();
    SameThings(PORTAL_ORDER, PORTAL_SCENARIOS, NameText, text);
  }

  lemma NamesTogether(names: set<S.Name>, more: set<S.Name>, text: string)
    ensures Names(names + more, text) <==> Names(names, text) || Names(more, text)
  {
  }

  /** The names the gate requires of a target are the names the run requires of its fixture. */
  lemma RequiredTexts(fixture: D.Fixture, target: Json.Value, text: string)
    requires Is(target, "plasma") <==> fixture == D.Plasma
    ensures text in Required(target) <==> Names(S.Required(fixture), text)
  {
    ScenarioTexts(text);
    PortalTexts(text);
    NamesTogether(S.SCENARIOS, if fixture == D.Plasma then S.PORTAL_SCENARIOS else {}, text);
    assert text in Required(target) <==> text in SCENARIOS || (fixture == D.Plasma && text in PORTAL_SCENARIOS);
  }

  function StatusText(status: S.Status): string {
    match status
    case Passed => "passed"
    case Failed => "failed"
    case NotRun => "not-run"
  }

  lemma StatusTextPassed(status: S.Status)
    ensures StatusText(status) == "passed" <==> status == S.Passed
  {
    assert "failed"[0] != "passed"[0] && "not-run"[0] != "passed"[0];
  }

  // ----- filling a record

  /** What a run hands to its record besides the outcomes. */
  datatype Run = Run(fixture: D.Fixture, firstFrame: Option<int>, cycles: nat, healthy: bool)

  function StatusOf(outcomes: map<S.Name, S.Outcome>, name: S.Name): S.Status {
    if name in outcomes then outcomes[name].status else S.NotRun
  }

  function ScenarioFields(outcomes: map<S.Name, S.Outcome>, names: set<S.Name>): (fields: map<string, Json.Value>)
    ensures forall name | name in names ::
      NameText(name) in fields && fields[NameText(name)] == Json.Str(StatusText(StatusOf(outcomes, name)))
    ensures forall text | text in fields :: exists name :: name in names && NameText(name) == text
  {
    assert forall a, b | a in names && b in names && NameText(a) == NameText(b) :: a == b by {
      forall a, b | a in names && b in names && NameText(a) == NameText(b) ensures a == b {
        NameTextInjective(a, b);
      }
    }
    map name | name in names :: NameText(name) := Json.Str(StatusText(StatusOf(outcomes, name)))
  }

  predicate AllPassed(outcomes: map<S.Name, S.Outcome>, names: set<S.Name>) {
    forall name | name in names :: StatusOf(outcomes, name) == S.Passed
  }

  function Entry(path: string, bytes: Bytes, kind: string, lib: Library): Json.Value {
    Json.Obj(map["path" := Json.Str(path), "sha256" := Json.Str(lib.digest(bytes)),
                 "size" := Json.Int(|bytes|), "kind" := Json.Str(kind)])
  }

  function CaptureEntries(captures: seq<string>, files: Files, lib: Library): (entries: seq<Json.Value>)
    requires forall c | c in captures :: c in files
    ensures |entries| == |captures|
    ensures forall i | 0 <= i < |captures| ::
      entries[i] == Entry(captures[i], files[captures[i]], "viewer-capture", lib)
  {
    seq(|captures|, i requires 0 <= i < |captures| =>
      assert captures[i] in captures; Entry(captures[i], files[captures[i]], "viewer-capture", lib))
  }

  /** Milliseconds as the seconds a record holds, to three places. */
  function Seconds(firstFrame: Option<int>): Json.Value {
    match firstFrame
    case None => Json.Null
    case Some(ms) => Json.Float(ms as real / 1000.0)
  }

  function WithResults(record: Record, scenarios: map<string, Json.Value>, firstFrame: Json.Value, cycles: nat): Record {
    record["scenarios" := Json.Obj(scenarios)]["first_frame_seconds" := firstFrame]["reconnect_cycles" := Json.Int(cycles)]
  }

  function WithEvidence(record: Record, artifacts: seq<Json.Value>, healthy: bool): Record {
    record["artifacts" := Json.Arr(artifacts)]["post_run_smoke" := Json.Str(if healthy then "passed" else "failed")]
  }

  function WithStatus(record: Record, passed: bool): Record {
    if passed then record["status" := Json.Str("passed")] else record
  }

  /** The record as a run leaves it, given the statuses of its scenarios and whether all of them passed. */
  function Completed(record: Record, run: Run, scenarios: map<string, Json.Value>, complete: bool,
                     artifacts: seq<Json.Value>): Record
  {
    var measured := WithResults(record, scenarios, Seconds(run.firstFrame), run.cycles);
    WithStatus(WithEvidence(measured, artifacts, run.healthy), run.healthy && complete)
  }

  function Filled(record: Record, run: Run, outcomes: map<S.Name, S.Outcome>, artifacts: seq<Json.Value>): Record {
    var names := S.Required(run.fixture);
    Completed(record, run, ScenarioFields(outcomes, names), AllPassed(outcomes, names), artifacts)
  }

  /** Everything in order of first appearance, once. */
  function Firsts(paths: seq<string>): seq<string> {
    if paths == [] then []
    else
      var r := Firsts(paths[..|paths| - 1]);
      if paths[|paths| - 1] in r then r else r + [paths[|paths| - 1]]
  }

  function Flat(lists: seq<seq<string>>): seq<string> {
    if lists == [] then [] else Flat(lists[..|lists| - 1]) + lists[|lists| - 1]
  }

  lemma {:induction false} FirstsMembers(paths: seq<string>)
    ensures forall p :: p in Firsts(paths) <==> p in paths
    ensures forall i, j | 0 <= i < j < |Firsts(paths)| :: Firsts(paths)[i] != Firsts(paths)[j]
  {
    if paths == [] {
    } else {
      FirstsMembers(paths[..|paths| - 1]);
      assert paths == paths[..|paths| - 1] + [paths[|paths| - 1]];
    }
  }

  /** The captures of a run, each once: the colours hold the capture of the first frame. */
  function Captures(evidence: Evidence, files: Files): (captures: seq<string>)
    requires Captured(evidence, files)
    ensures forall c | c in captures :: c in files
  {
    FirstsMembers(Flat(evidence.captures));
    Firsts(Flat(evidence.captures))
  }

  /** What a run writes for its record: the captures of each outcome, in the order in which the outcomes
      were decided, its log and its input results. */
  datatype Evidence = Evidence(order: seq<S.Name>, captures: seq<seq<string>>, logPath: string, log: Bytes,
                               resultsPath: string, results: Bytes)

  /** Every outcome once in the order, and a path for each of its captures. */
  predicate Linked(evidence: Evidence, outcomes: map<S.Name, S.Outcome>) {
    && |evidence.captures| == |evidence.order|
    && (forall i, j | 0 <= i < j < |evidence.order| :: evidence.order[i] != evidence.order[j])
    && (forall name :: name in evidence.order <==> name in outcomes)
    && forall i | 0 <= i < |evidence.order| ::
         evidence.order[i] in outcomes && |evidence.captures[i]| == |outcomes[evidence.order[i]].captures|
  }

  predicate Captured(evidence: Evidence, files: Files) {
    forall c | c in Flat(evidence.captures) :: c in files
  }

  function RunArtifacts(evidence: Evidence, files: Files, lib: Library): seq<Json.Value>
    requires Captured(evidence, files)
  {
    CaptureEntries(Captures(evidence, files), files, lib) +
    [Entry(evidence.logPath, evidence.log, "runner-log", lib),
     Entry(evidence.resultsPath, evidence.results, "input-results", lib)]
  }

  method Gather(lists: seq<seq<string>>) returns (captures: seq<string>)
    ensures captures == Firsts(Flat(lists))
  {
    captures := [];
    for i := 0 to |lists|
      invariant captures == Firsts(Flat(lists[..i]))
    {
      assert lists[..i + 1][..i] == lists[..i];
      captures := GatherMore(Flat(lists[..i]), lists[i], captures);
    }
    assert lists[..|lists|] == lists;
  }

  method GatherMore(ghost before: seq<string>, paths: seq<string>, gathered: seq<string>)
      returns (captures: seq<string>)
    requires gathered == Firsts(before)
    ensures captures == Firsts(before + paths)
  {
    captures := gathered;
    assert before + paths[..0] == before;
    for j := 0 to |paths|
      invariant captures == Firsts(before + paths[..j])
    {
      assert before + paths[..j + 1] == (before + paths[..j]) + [paths[j]];
      if paths[j] !in captures {
        captures := captures + [paths[j]];
      }
    }
    assert paths[..|paths|] == paths;
  }

  /** A record being made, and the evidence root its artifacts are in. */
  class Draft {
    var record: Record
    var root: Files

    constructor (record: Record, root: Files)
      ensures this.record == record && this.root == root
    {
      this.record := record;
      this.root := root;
    }

    /** `fill_record`: the record becomes "passed" only if nothing is missing. */
    method Fill(run: Run, outcomes: map<S.Name, S.Outcome>, evidence: Evidence, lib: Library)
      requires Captured(evidence, root)
      modifies this
      ensures record == Filled(old(record), run, outcomes, RunArtifacts(evidence, old(root), lib))
      ensures root == old(root)[evidence.logPath := evidence.log][evidence.resultsPath := evidence.results]
    {
      var names := S.Required(run.fixture);
      Complete(run, ScenarioFields(outcomes, names), AllPassed(outcomes, names), evidence, lib);
    }

    method Complete(run: Run, scenarios: map<string, Json.Value>, complete: bool, evidence: Evidence, lib: Library)
      requires Captured(evidence, root)
      modifies this
      ensures record == Completed(old(record), run, scenarios, complete, RunArtifacts(evidence, old(root), lib))
      ensures root == old(root)[evidence.logPath := evidence.log][evidence.resultsPath := evidence.results]
    {
      RecordResults(scenarios, Seconds(run.firstFrame), run.cycles);
      var captures := Gather(evidence.captures);
      assert captures == Captures(evidence, root);
      var artifacts := CaptureEntries(captures, root, lib);
      var logged := Store(evidence.logPath, evidence.log, "runner-log", lib);
      var inputs := Store(evidence.resultsPath, evidence.results, "input-results", lib);
      artifacts := artifacts + [logged];
      artifacts := artifacts + [inputs];
      assert artifacts == RunArtifacts(evidence, old(root), lib);
      RecordEvidence(artifacts, run.healthy);
      record := WithStatus(record, run.healthy && complete);
    }

    method RecordResults(scenarios: map<string, Json.Value>, firstFrame: Json.Value, cycles: nat)
      modifies this`record
      ensures record == WithResults(old(record), scenarios, firstFrame, cycles)
    {
      record := record["scenarios" := Json.Obj(scenarios)];
      record := record["first_frame_seconds" := firstFrame];
      record := record["reconnect_cycles" := Json.Int(cycles)];
    }

    method RecordEvidence(artifacts: seq<Json.Value>, healthy: bool)
      modifies this`record
      ensures record == WithEvidence(old(record), artifacts, healthy)
    {
      record := record["artifacts" := Json.Arr(artifacts)];
      record := record["post_run_smoke" := Json.Str(if healthy then "passed" else "failed")];
    }

    /** Writes a file and describes it. */
    method Store(path: string, bytes: Bytes, kind: string, lib: Library) returns (entry: Json.Value)
      modifies this`root
      ensures root == old(root)[path := bytes] && entry == Entry(path, bytes, kind, lib)
    {
      root := root[path := bytes];
      entry := Entry(path, bytes, kind, lib);
    }
  }

  /** `new_partial_record`. */
  function PartialRecord(runId: string, recordedAt: string, commit: string, target: string, viewer: string,
                         versions: map<string, Json.Value>): Record
  {
    map["schema_version" := Json.Int(2), "run_id" := Json.Str(runId), "recorded_at" := Json.Str(recordedAt),
        "commit" := Json.Str(commit), "target" := Json.Str(target), "viewer" := Json.Str(viewer),
        "session_type" := Json.Str("wayland"), "status" := Json.Str("incomplete"), "versions" := Json.Obj(versions),
        "scenarios" := Json.Obj(map[]), "first_frame_seconds" := Json.Null, "reconnect_cycles" := Json.Int(0),
        "artifacts" := Json.Arr([])]
  }

  // ----- when a record is marked passed

  /** All the target requires has passed, on a fixture that was healthy afterwards. */
  predicate Earned(record: Record) {
    Is(Field(record, "post_run_smoke"), "passed") && ScenariosPassed(record)
  }

  ghost predicate PassedIsEarned(record: Record) {
    Is(Field(record, "status"), "passed") ==> Earned(record)
  }

  predicate SamePair(target: Json.Value, fixture: D.Fixture) {
    Is(target, "plasma") <==> fixture == D.Plasma
  }

  lemma ResultsFields(record: Record, scenarios: map<string, Json.Value>, firstFrame: Json.Value, cycles: nat)
    ensures var r := WithResults(record, scenarios, firstFrame, cycles);
      && Field(r, "scenarios") == Json.Obj(scenarios) && Field(r, "first_frame_seconds") == firstFrame
      && Field(r, "reconnect_cycles") == Json.Int(cycles)
    ensures forall key | key !in {"scenarios", "first_frame_seconds", "reconnect_cycles"} ::
      Field(WithResults(record, scenarios, firstFrame, cycles), key) == Field(record, key)
  {
    assert |"scenarios"| == 9 && |"first_frame_seconds"| == 19 && |"reconnect_cycles"| == 16;
  }

  lemma EvidenceFields(record: Record, artifacts: seq<Json.Value>, healthy: bool)
    ensures var r := WithEvidence(record, artifacts, healthy);
      && Field(r, "artifacts") == Json.Arr(artifacts)
      && Field(r, "post_run_smoke") == Json.Str(if healthy then "passed" else "failed")
    ensures forall key | key !in {"artifacts", "post_run_smoke"} ::
      Field(WithEvidence(record, artifacts, healthy), key) == Field(record, key)
  {
    assert |"artifacts"| == 9 && |"post_run_smoke"| == 14;
  }

  lemma StatusFields(record: Record, passed: bool)
    ensures Field(WithStatus(record, passed), "status") == if passed then Json.Str("passed") else Field(record, "status")
    ensures forall key | key != "status" :: Field(WithStatus(record, passed), key) == Field(record, key)
  {
  }

  const KEPT: seq<string> := ["schema_version", "run_id", "recorded_at", "commit", "target", "viewer", "session_type", "versions"]

  const FILLED: set<string> := {"scenarios", "first_frame_seconds", "reconnect_cycles", "artifacts", "post_run_smoke", "status"}

  lemma CompletedFields(record: Record, run: Run, scenarios: map<string, Json.Value>, complete: bool,
                        artifacts: seq<Json.Value>)
    ensures var r := Completed(record, run, scenarios, complete, artifacts);
      && Field(r, "scenarios") == Json.Obj(scenarios) && Field(r, "first_frame_seconds") == Seconds(run.firstFrame)
      && Field(r, "reconnect_cycles") == Json.Int(run.cycles) && Field(r, "artifacts") == Json.Arr(artifacts)
      && Field(r, "post_run_smoke") == Json.Str(if run.healthy then "passed" else "failed")
      && Field(r, "status") == (if run.healthy && complete then Json.Str("passed") else Field(record, "status"))
    ensures forall key | key !in FILLED ::
      Field(Completed(record, run, scenarios, complete, artifacts), key) == Field(record, key)
  {
    var measured := WithResults(record, scenarios, Seconds(run.firstFrame), run.cycles);
    var evidenced := WithEvidence(measured, artifacts, run.healthy);
    ResultsFields(record, scenarios, Seconds(run.firstFrame), run.cycles);
    EvidenceFields(measured, artifacts, run.healthy);
    StatusFields(evidenced, run.healthy && complete);
    FilledKeys();
  }

  lemma FilledKeys()
    ensures "status" !in {"scenarios", "first_frame_seconds", "reconnect_cycles", "artifacts", "post_run_smoke"}
    ensures "artifacts" !in {"scenarios", "first_frame_seconds", "reconnect_cycles"}
    ensures "post_run_smoke" !in {"scenarios", "first_frame_seconds", "reconnect_cycles"}
    ensures {"scenarios", "first_frame_seconds", "reconnect_cycles"} !! {"artifacts", "post_run_smoke", "status"}
  {
    assert "status"[0] == 's' && "status"[1] == 't' && "scenarios"[1] == 'c' && "artifacts"[0] == 'a';
    assert "post_run_smoke"[0] == 'p' && "first_frame_seconds"[0] == 'f' && "reconnect_cycles"[0] == 'r';
  }

  lemma KeptKeys()
    ensures forall key | key in KEPT :: key !in FILLED
  {
  }

  lemma StatusesPassed(outcomes: map<S.Name, S.Outcome>, fixture: D.Fixture, target: Json.Value)
    requires SamePair(target, fixture)
    ensures var fields := ScenarioFields(outcomes, S.Required(fixture));
      (forall text | text in Required(target) :: Is(Json.Get(Json.Obj(fields), text), "passed")) <==>
      AllPassed(outcomes, S.Required(fixture))
  {
    var names := S.Required(fixture);
    forall text ensures text in Required(target) <==> Names(names, text) {
      RequiredTexts(fixture, target, text);
    }
    PassedNames(outcomes, names, Required(target));
  }

  lemma PassedNames(outcomes: map<S.Name, S.Outcome>, names: set<S.Name>, texts: seq<string>)
    requires forall text :: text in texts <==> Names(names, text)
    ensures (forall text | text in texts :: Is(Json.Get(Json.Obj(ScenarioFields(outcomes, names)), text), "passed")) <==>
      AllPassed(outcomes, names)
  {
    var fields := ScenarioFields(outcomes, names);
    forall name | name in names
      ensures NameText(name) in texts
      ensures Is(Json.Get(Json.Obj(fields), NameText(name)), "passed") <==> StatusOf(outcomes, name) == S.Passed
    {
      assert Names(names, NameText(name));
      StatusTextPassed(StatusOf(outcomes, name));
    }
  }

  /** A run marks its record passed exactly if the fixture stayed healthy and every required scenario
      passed; a record that was not marked before is then marked exactly if it has earned it. */
  lemma FillEarns(record: Record, run: Run, outcomes: map<S.Name, S.Outcome>, artifacts: seq<Json.Value>)
    requires SamePair(Field(record, "target"), run.fixture)
    ensures var filled := Filled(record, run, outcomes, artifacts);
      && (Earned(filled) <==> run.healthy && AllPassed(outcomes, S.Required(run.fixture)))
      && Field(filled, "status") == (if Earned(filled) then Json.Str("passed") else Field(record, "status"))
      && (!Is(Field(record, "status"), "passed") ==> PassedIsEarned(filled))
  {
    FilledEarned(record, run, outcomes, artifacts);
    var names := S.Required(run.fixture);
    CompletedFields(record, run, ScenarioFields(outcomes, names), AllPassed(outcomes, names), artifacts);
  }

  lemma FilledEarned(record: Record, run: Run, outcomes: map<S.Name, S.Outcome>, artifacts: seq<Json.Value>)
    requires SamePair(Field(record, "target"), run.fixture)
    ensures Earned(Filled(record, run, outcomes, artifacts)) <==>
      run.healthy && AllPassed(outcomes, S.Required(run.fixture))
  {
    var names := S.Required(run.fixture);
    CompletedFields(record, run, ScenarioFields(outcomes, names), AllPassed(outcomes, names), artifacts);
    TargetKept();
    StatusesPassed(outcomes, run.fixture, Field(record, "target"));
    assert "failed"[0] != "passed"[0];
  }

  lemma TargetKept()
    ensures "target" !in FILLED
  {
  }

  lemma FilledTarget(record: Record, run: Run, outcomes: map<S.Name, S.Outcome>, artifacts: seq<Json.Value>)
    ensures Field(Filled(record, run, outcomes, artifacts), "target") == Field(record, "target")
  {
    TargetKept();
    var names := S.Required(run.fixture);
    CompletedFields(record, run, ScenarioFields(outcomes, names), AllPassed(outcomes, names), artifacts);
  }

  lemma FilledStatus(record: Record, run: Run, outcomes: map<S.Name, S.Outcome>, artifacts: seq<Json.Value>,
                     name: S.Name)
    requires name in S.Required(run.fixture)
    ensures var scenarios := Field(Filled(record, run, outcomes, artifacts), "scenarios");
      scenarios.Obj? && (Is(Json.Get(scenarios, NameText(name)), "passed") <==> StatusOf(outcomes, name) == S.Passed)
  {
    var names := S.Required(run.fixture);
    CompletedFields(record, run, ScenarioFields(outcomes, names), AllPassed(outcomes, names), artifacts);
    StatusTextPassed(StatusOf(outcomes, name));
  }

  // ----- when the record of a run qualifies

  lemma EntryFields(path: string, bytes: Bytes, kind: string, lib: Library)
    ensures var entry := Entry(path, bytes, kind, lib);
      && Json.Get(entry, "path") == Json.Str(path) && Json.Get(entry, "sha256") == Json.Str(lib.digest(bytes))
      && Json.Get(entry, "size") == Json.Int(|bytes|) && Json.Get(entry, "kind") == Json.Str(kind)
  {
    assert "path"[0] == 'p' && "sha256"[1] == 'h' && "size"[1] == 'i' && "kind"[0] == 'k' && "sha256"[0] == 's';
  }

  lemma EntryIntact(path: string, bytes: Bytes, kind: string, files: Files, lib: Library)
    requires path in files && files[path] == bytes
    ensures IntactOfKind(Entry(path, bytes, kind, lib), kind, files, lib)
  {
    EntryFields(path, bytes, kind, lib);
  }

  /** A log and results of their own, apart from each other and from every capture. */
  predicate Apart(evidence: Evidence) {
    && evidence.logPath != evidence.resultsPath
    && evidence.logPath !in Firsts(Flat(evidence.captures)) && evidence.resultsPath !in Firsts(Flat(evidence.captures))
  }

  function After(evidence: Evidence, files: Files): Files {
    files[evidence.logPath := evidence.log][evidence.resultsPath := evidence.results]
  }

  lemma RunArtifactsIntact(evidence: Evidence, files: Files, lib: Library)
    requires Captured(evidence, files) && Apart(evidence)
    ensures EvidenceIntact(Json.Arr(RunArtifacts(evidence, files, lib)), After(evidence, files), lib) <==>
      Captures(evidence, files) != []
  {
    var n := |Captures(evidence, files)|;
    var items := RunArtifacts(evidence, files, lib);
    forall i | 0 <= i < n + 2
      ensures IntactOfKind(items[i], if i < n then "viewer-capture" else if i == n then "runner-log" else "input-results",
                           After(evidence, files), lib)
    {
      RunArtifactIntact(evidence, files, lib, i);
    }
    ThreeKinds(items, n, After(evidence, files), lib);
  }

  ghost predicate IntactOfKind(item: Json.Value, kind: string, files: Files, lib: Library) {
    Intact(item, files, lib) && Is(Json.Get(item, "kind"), kind)
  }

  lemma ThreeKinds(items: seq<Json.Value>, n: nat, files: Files, lib: Library)
    requires |items| == n + 2
    requires forall i | 0 <= i < n :: IntactOfKind(items[i], "viewer-capture", files, lib)
    requires IntactOfKind(items[n], "runner-log", files, lib) && IntactOfKind(items[n + 1], "input-results", files, lib)
    ensures EvidenceIntact(Json.Arr(items), files, lib) <==> n > 0
  {
    KindTexts();
    assert Carries(items, "runner-log") && Carries(items, "input-results");
    if n > 0 {
      assert IntactOfKind(items[0], "viewer-capture", files, lib);
      assert Carries(items, "viewer-capture");
    } else {
      assert !Carries(items, "viewer-capture");
    }
  }

  lemma KindTexts()
    ensures forall kind :: kind in KINDS <==> kind == "viewer-capture" || kind == "input-results" || kind == "runner-log"
    ensures "viewer-capture" != "input-results" && "viewer-capture" != "runner-log" && "input-results" != "runner-log"
  {
    assert KINDS[0] == "viewer-capture" && KINDS[1] == "input-results" && KINDS[2] == "runner-log";
    assert "viewer-capture"[0] == 'v' && "input-results"[0] == 'i' && "runner-log"[0] == 'r';
  }

  lemma RunArtifactIntact(evidence: Evidence, files: Files, lib: Library, i: nat)
    requires Captured(evidence, files) && Apart(evidence) && i < |Captures(evidence, files)| + 2
    ensures var n := |Captures(evidence, files)|;
      IntactOfKind(RunArtifacts(evidence, files, lib)[i],
                   if i < n then "viewer-capture" else if i == n then "runner-log" else "input-results",
                   After(evidence, files), lib)
  {
    var captures := Captures(evidence, files);
    if i < |captures| {
      assert captures[i] in captures;
      EntryIntact(captures[i], files[captures[i]], "viewer-capture", After(evidence, files), lib);
    } else if i == |captures| {
      EntryIntact(evidence.logPath, evidence.log, "runner-log", After(evidence, files), lib);
    } else {
      EntryIntact(evidence.resultsPath, evidence.results, "input-results", After(evidence, files), lib);
    }
  }

  /** What a record says before its run: who ran what, and on which versions. */
  predicate Presented(record: Record, commit: string, lib: Library) {
    && Json.EqualsInt(Field(record, "schema_version"), 2)
    && lib.uuid(Field(record, "run_id")) && lib.timestamp(Field(record, "recorded_at"))
    && Is(Field(record, "commit"), commit) && KnownPair(Field(record, "target"), Field(record, "viewer"))
    && Is(Field(record, "session_type"), "wayland") && VersionsGiven(record)
  }

  lemma SamePresented(record: Record, filled: Record, commit: string, lib: Library)
    requires forall key | key in KEPT :: Field(filled, key) == Field(record, key)
    ensures Presented(filled, commit, lib) <==> Presented(record, commit, lib)
    ensures Field(filled, "target") == Field(record, "target")
  {
    assert KEPT[0] == "schema_version" && KEPT[1] == "run_id" && KEPT[2] == "recorded_at" && KEPT[3] == "commit";
    assert KEPT[4] == "target" && KEPT[5] == "viewer" && KEPT[6] == "session_type" && KEPT[7] == "versions";
    assert forall i | 0 <= i < 8 :: KEPT[i] in KEPT;
  }

  /** The record of a run qualifies at the gate exactly if the run passed everything its fixture requires,
      captured something, was quick and reconnected often enough, and the record named its subject
      properly to begin with. */
  lemma FilledQualifies(record: Record, commit: string, run: Run, outcomes: map<S.Name, S.Outcome>, evidence: Evidence,
                        files: Files, lib: Library)
    requires SamePair(Field(record, "target"), run.fixture) && !Is(Field(record, "status"), "passed")
    requires Captured(evidence, files) && Apart(evidence)
    ensures Qualifies(Filled(record, run, outcomes, RunArtifacts(evidence, files, lib)), commit, After(evidence, files),
                      lib) <==>
      && Presented(record, commit, lib) && Firsts(Flat(evidence.captures)) != []
      && run.healthy && AllPassed(outcomes, S.Required(run.fixture))
      && run.firstFrame.Some? && 0 <= run.firstFrame.value <= 10000 && run.cycles >= 20
  {
    RunArtifactsIntact(evidence, files, lib);
    FilledJudged(record, commit, run, outcomes, RunArtifacts(evidence, files, lib), After(evidence, files), lib,
                 Firsts(Flat(evidence.captures)) != []);
  }

  lemma FilledJudged(record: Record, commit: string, run: Run, outcomes: map<S.Name, S.Outcome>,
                     artifacts: seq<Json.Value>, files: Files, lib: Library, intact: bool)
    requires SamePair(Field(record, "target"), run.fixture) && !Is(Field(record, "status"), "passed")
    requires intact <==> EvidenceIntact(Json.Arr(artifacts), files, lib)
    ensures Qualifies(Filled(record, run, outcomes, artifacts), commit, files, lib) <==>
      && Presented(record, commit, lib) && intact && run.healthy && AllPassed(outcomes, S.Required(run.fixture))
      && run.firstFrame.Some? && 0 <= run.firstFrame.value <= 10000 && run.cycles >= 20
  {
    FillEarns(record, run, outcomes, artifacts);
    FilledFields(record, run, outcomes, artifacts);
    Judged(record, Filled(record, run, outcomes, artifacts), commit, run, artifacts, files, lib);
  }

  lemma Judged(record: Record, filled: Record, commit: string, run: Run, artifacts: seq<Json.Value>, files: Files,
               lib: Library)
    requires Field(filled, "artifacts") == Json.Arr(artifacts)
    requires Field(filled, "first_frame_seconds") == Seconds(run.firstFrame)
    requires Field(filled, "reconnect_cycles") == Json.Int(run.cycles)
    requires forall key | key in KEPT :: Field(filled, key) == Field(record, key)
    requires Is(Field(filled, "status"), "passed") <==> Earned(filled)
    ensures Qualifies(filled, commit, files, lib) <==>
      && Presented(record, commit, lib) && Earned(filled) && EvidenceIntact(Json.Arr(artifacts), files, lib)
      && run.firstFrame.Some? && 0 <= run.firstFrame.value <= 10000 && run.cycles >= 20
  {
    SamePresented(record, filled, commit, lib);
    QualifiesIf(filled, commit, files, lib);
  }

  lemma FilledFields(record: Record, run: Run, outcomes: map<S.Name, S.Outcome>, artifacts: seq<Json.Value>)
    ensures var filled := Filled(record, run, outcomes, artifacts);
      && Field(filled, "artifacts") == Json.Arr(artifacts)
      && Field(filled, "first_frame_seconds") == Seconds(run.firstFrame)
      && Field(filled, "reconnect_cycles") == Json.Int(run.cycles)
      && forall key | key in KEPT :: Field(filled, key) == Field(record, key)
  {
    var names := S.Required(run.fixture);
    CompletedFields(record, run, ScenarioFields(outcomes, names), AllPassed(outcomes, names), artifacts);
    KeptKeys();
  }

  lemma QualifiesIf(record: Record, commit: string, files: Files, lib: Library)
    ensures Qualifies(record, commit, files, lib) <==>
      && Presented(record, commit, lib) && Is(Field(record, "status"), "passed") && Earned(record)
      && QuickFirstFrame(Field(record, "first_frame_seconds")) && TwentyReconnects(Field(record, "reconnect_cycles"))
      && EvidenceIntact(Field(record, "artifacts"), files, lib)
  {
  }

  // ----- from a new record to the gate

  lemma {:induction false} FlatHolds(lists: seq<seq<string>>, i: nat, p: string)
    requires i < |lists| && p in lists[i]
    ensures p in Flat(lists)
  {
    if i == |lists| - 1 {
    } else {
      FlatHolds(lists[..|lists| - 1], i, p);
    }
  }

  /** A run that passed its first frame has captured something. */
  lemma FirstFrameCaptured(evidence: Evidence, outcomes: map<S.Name, S.Outcome>)
    requires Linked(evidence, outcomes) && S.AllEvidenced(outcomes)
    requires StatusOf(outcomes, S.FirstFrame) == S.Passed
    ensures Firsts(Flat(evidence.captures)) != []
  {
    assert S.FirstFrame in evidence.order;
    var i :| 0 <= i < |evidence.order| && evidence.order[i] == S.FirstFrame;
    assert S.Evidenced(S.FirstFrame, outcomes[S.FirstFrame]);
    assert evidence.captures[i][0] in evidence.captures[i];
    FlatHolds(evidence.captures, i, evidence.captures[i][0]);
    FirstsMembers(Flat(evidence.captures));
  }

  /** What a run measures: the latency of a first frame that passed, and the count of reconnects that did. */
  predicate Measured(run: Run, outcomes: map<S.Name, S.Outcome>) {
    && (StatusOf(outcomes, S.FirstFrame) == S.Passed ==> run.firstFrame.Some?)
    && (StatusOf(outcomes, S.Reconnect20) == S.Passed ==> run.cycles == S.RECONNECT_CYCLES)
  }

  predicate Quick(firstFrame: Option<int>) {
    firstFrame.Some? && 0 <= firstFrame.value <= S.FIRST_FRAME_BUDGET
  }

  lemma RequiredHold(fixture: D.Fixture)
    ensures S.FirstFrame in S.Required(fixture) && S.Reconnect20 in S.Required(fixture)
  {
  }

  /** The record of what a run decided, measured and saved qualifies at the gate exactly if the run was healthy
      to the end, everything its fixture requires passed, its first frame came in time, and the record named
      its subject properly to begin with. */
  lemma RunQualifies(record: Record, commit: string, run: Run, outcomes: map<S.Name, S.Outcome>, evidence: Evidence,
                     files: Files, lib: Library)
    requires SamePair(Field(record, "target"), run.fixture) && !Is(Field(record, "status"), "passed")
    requires Captured(evidence, files) && Apart(evidence) && Linked(evidence, outcomes)
    requires S.AllEvidenced(outcomes) && Measured(run, outcomes)
    ensures Qualifies(Filled(record, run, outcomes, RunArtifacts(evidence, files, lib)), commit, After(evidence, files),
                      lib) <==>
      && Presented(record, commit, lib)
      && run.healthy && AllPassed(outcomes, S.Required(run.fixture)) && Quick(run.firstFrame)
  {
    RunArtifactsIntact(evidence, files, lib);
    RequiredHold(run.fixture);
    PassedRun(run, outcomes, S.Required(run.fixture), evidence);
    RunJudged(record, commit, run, outcomes, RunArtifacts(evidence, files, lib), After(evidence, files), lib,
              Firsts(Flat(evidence.captures)) != []);
  }

  lemma RunJudged(record: Record, commit: string, run: Run, outcomes: map<S.Name, S.Outcome>,
                  artifacts: seq<Json.Value>, files: Files, lib: Library, intact: bool)
    requires SamePair(Field(record, "target"), run.fixture) && !Is(Field(record, "status"), "passed")
    requires intact <==> EvidenceIntact(Json.Arr(artifacts), files, lib)
    requires AllPassed(outcomes, S.Required(run.fixture)) ==> intact && run.firstFrame.Some? && run.cycles >= 20
    ensures Qualifies(Filled(record, run, outcomes, artifacts), commit, files, lib) <==>
      && Presented(record, commit, lib)
      && run.healthy && AllPassed(outcomes, S.Required(run.fixture)) && Quick(run.firstFrame)
  {
    FilledJudged(record, commit, run, outcomes, artifacts, files, lib, intact);
  }

  lemma PassedRun(run: Run, outcomes: map<S.Name, S.Outcome>, names: set<S.Name>, evidence: Evidence)
    requires S.FirstFrame in names && S.Reconnect20 in names
    requires Linked(evidence, outcomes) && S.AllEvidenced(outcomes) && Measured(run, outcomes)
    ensures AllPassed(outcomes, names) ==>
      Firsts(Flat(evidence.captures)) != [] && run.firstFrame.Some? && run.cycles >= 20
  {
    if AllPassed(outcomes, names) {
      FirstFrameCaptured(evidence, outcomes);
    }
  }

  lemma PartialFields(runId: string, recordedAt: string, commit: string, target: string, viewer: string,
                      versions: map<string, Json.Value>)
    ensures var r := PartialRecord(runId, recordedAt, commit, target, viewer, versions);
      && Field(r, "status") == Json.Str("incomplete") && Field(r, "target") == Json.Str(target)
      && Field(r, "viewer") == Json.Str(viewer) && Field(r, "commit") == Json.Str(commit)
      && Field(r, "versions") == Json.Obj(versions)
  {
    assert "status"[1] == 't' && "target"[1] == 'a' && "viewer"[1] == 'i' && "commit"[1] == 'o' && "run_id"[1] == 'u';
    assert |"session_type"| == 12 && |"versions"| == 8;
    assert |"scenarios"| == 9 && |"first_frame_seconds"| == 19 && |"reconnect_cycles"| == 16 && |"artifacts"| == 9;
  }

  lemma PartialIdentity(runId: string, recordedAt: string, commit: string, target: string, viewer: string,
                        versions: map<string, Json.Value>)
    ensures var r := PartialRecord(runId, recordedAt, commit, target, viewer, versions);
      && Field(r, "schema_version") == Json.Int(2) && Field(r, "run_id") == Json.Str(runId)
      && Field(r, "recorded_at") == Json.Str(recordedAt) && Field(r, "session_type") == Json.Str("wayland")
  {
    assert "status"[1] == 't' && "target"[1] == 'a' && "viewer"[1] == 'i' && "commit"[1] == 'o' && "run_id"[1] == 'u';
    assert |"schema_version"| == 14 && |"recorded_at"| == 11 && |"session_type"| == 12 && |"versions"| == 8;
    assert |"scenarios"| == 9 && |"first_frame_seconds"| == 19 && |"reconnect_cycles"| == 16 && |"artifacts"| == 9;
  }

  /** Every version of the backend, compositor and so on is given. */
  predicate AllGiven(versions: map<string, Json.Value>) {
    forall key | key in VERSION_FIELDS ::
      Json.Get(Json.Obj(versions), key).Str? && !Blank(Json.Get(Json.Obj(versions), key).s)
  }

  predicate Introduced(runId: string, recordedAt: string, target: string, viewer: string,
                       versions: map<string, Json.Value>, lib: Library)
  {
    && lib.uuid(Json.Str(runId)) && lib.timestamp(Json.Str(recordedAt))
    && target in TARGETS && viewer in VIEWERS && AllGiven(versions)
  }

  /** A new record presents its subject exactly if its identifier and time are what the library accepts, its
      target and viewer are known, and no version is missing. */
  lemma PartialPresents(runId: string, recordedAt: string, commit: string, target: string, viewer: string,
                        versions: map<string, Json.Value>, lib: Library)
    ensures Presented(PartialRecord(runId, recordedAt, commit, target, viewer, versions), commit, lib) <==>
      Introduced(runId, recordedAt, target, viewer, versions, lib)
  {
    PartialFields(runId, recordedAt, commit, target, viewer, versions);
    PartialIdentity(runId, recordedAt, commit, target, viewer, versions);
    PresentedIf(PartialRecord(runId, recordedAt, commit, target, viewer, versions), runId, recordedAt, commit, target,
                viewer, versions, lib);
  }

  lemma PresentedIf(record: Record, runId: string, recordedAt: string, commit: string, target: string, viewer: string,
                    versions: map<string, Json.Value>, lib: Library)
    requires Field(record, "schema_version") == Json.Int(2) && Field(record, "run_id") == Json.Str(runId)
    requires Field(record, "recorded_at") == Json.Str(recordedAt) && Field(record, "session_type") == Json.Str("wayland")
    requires Field(record, "target") == Json.Str(target) && Field(record, "viewer") == Json.Str(viewer)
    requires Field(record, "commit") == Json.Str(commit) && Field(record, "versions") == Json.Obj(versions)
    ensures Presented(record, commit, lib) <==> Introduced(runId, recordedAt, target, viewer, versions, lib)
  {
  }

  /** What a run leaves on disk: the evidence of its outcomes, and the files with its captures. */
  datatype Saved = Saved(evidence: Evidence, files: Files)

  ghost predicate Saves(saved: map<S.Name, S.Outcome> -> Saved) {
    forall outcomes :: SavesAll(saved(outcomes), outcomes)
  }

  predicate SavesAll(saved: Saved, outcomes: map<S.Name, S.Outcome>) {
    Captured(saved.evidence, saved.files) && Apart(saved.evidence) && Linked(saved.evidence, outcomes)
  }

  /** A whole qualification run: the scenarios against any driver at all, and the record of what they decided.
      It qualifies exactly if nothing is wrong with the run or its subject. */
  method QualifyDesktop(session: S.Session, runId: string, recordedAt: string, commit: string, target: string,
                        viewer: string, versions: map<string, Json.Value>,
                        saved: map<S.Name, S.Outcome> -> Saved, lib: Library)
      returns (draft: Draft, outcomes: map<S.Name, S.Outcome>)
    requires session.driver.Valid() && session.driver.open == {} && session.driver.peak == 0
    requires session.driver.unsized == 0 && session.driver.mode == D.BASE_MODE && session.currentMode == D.BASE_MODE
    requires target == "plasma" <==> session.fixture == D.Plasma
    requires Saves(saved)
    modifies session, session.driver
    ensures Qualifies(draft.record, commit, draft.root, lib) <==>
      && Introduced(runId, recordedAt, target, viewer, versions, lib)
      && session.healthy == Some(true) && AllPassed(outcomes, S.Required(session.fixture)) && Quick(session.firstFrame)
    ensures session.Faultless(old(session.driver.asked)) && Introduced(runId, recordedAt, target, viewer, versions, lib)
      ==> Qualifies(draft.record, commit, draft.root, lib)
    ensures session.healthy.Some? && session.driver.asked > 0
    ensures session.driver.Smoked(session.driver.asked - 1, session.currentMode, session.healthy.value)
  {
    var record := PartialRecord(runId, recordedAt, commit, target, viewer, map[]);
    var run;
    run, outcomes := Measure(session);
    record := record["versions" := Json.Obj(versions)];
    NewRecord(record, runId, recordedAt, commit, target, viewer, versions, lib);
    assert SavesAll(saved(outcomes), outcomes);
    draft := FillNew(record, commit, run, outcomes, saved(outcomes), lib);
  }

  lemma NewRecord(record: Record, runId: string, recordedAt: string, commit: string, target: string, viewer: string,
                  versions: map<string, Json.Value>, lib: Library)
    requires record == PartialRecord(runId, recordedAt, commit, target, viewer, map[])["versions" := Json.Obj(versions)]
    ensures Field(record, "target") == Json.Str(target) && !Is(Field(record, "status"), "passed")
    ensures Presented(record, commit, lib) <==> Introduced(runId, recordedAt, target, viewer, versions, lib)
  {
    VersionsAdded(runId, recordedAt, commit, target, viewer, versions);
    PartialFields(runId, recordedAt, commit, target, viewer, versions);
    PartialPresents(runId, recordedAt, commit, target, viewer, versions, lib);
    assert "incomplete"[0] != "passed"[0];
  }

  lemma RequiredPassed(session: S.Session, outcomes: map<S.Name, S.Outcome>, start: nat)
    requires session.Faultless(start) && session.AllPassed(outcomes)
    requires session.only.None? ==> S.Required(session.fixture) <= outcomes.Keys
    ensures AllPassed(outcomes, S.Required(session.fixture))
  {
  }

  /** The scenarios, and what they measured. */
  method Measure(session: S.Session) returns (run: Run, outcomes: map<S.Name, S.Outcome>)
    requires session.driver.Valid() && session.driver.open == {} && session.driver.peak == 0
    requires session.driver.unsized == 0 && session.driver.mode == D.BASE_MODE && session.currentMode == D.BASE_MODE
    modifies session, session.driver
    ensures S.AllEvidenced(outcomes) && Measured(run, outcomes)
    ensures run.fixture == session.fixture && run.firstFrame == session.firstFrame && session.healthy == Some(run.healthy)
    ensures session.Faultless(old(session.driver.asked)) ==>
      run.healthy && AllPassed(outcomes, S.Required(session.fixture)) && Quick(session.firstFrame)
    ensures session.healthy.Some? && session.driver.asked > 0
    ensures session.driver.Smoked(session.driver.asked - 1, session.currentMode, session.healthy.value)
  {
    hide S.Session.Faultless, S.Session.AllPassed, AllPassed, S.Required, S.AllEvidenced;
    ghost var start := session.driver.asked;
    outcomes := session.RunScenarios();
    if session.Faultless(start) {
      RequiredPassed(session, outcomes, start);
    }
    run := Run(session.fixture, session.firstFrame, session.reconnectCycles, session.healthy.value);
  }

  lemma VersionsAdded(runId: string, recordedAt: string, commit: string, target: string, viewer: string,
                      versions: map<string, Json.Value>)
    ensures PartialRecord(runId, recordedAt, commit, target, viewer, map[])["versions" := Json.Obj(versions)] ==
      PartialRecord(runId, recordedAt, commit, target, viewer, versions)
  {
    assert "versions"[0] == 'v' && |"versions"| == 8 && |"viewer"| == 6;
  }

  method FillNew(record: Record, commit: string, run: Run, outcomes: map<S.Name, S.Outcome>, saved: Saved, lib: Library)
      returns (draft: Draft)
    requires SamePair(Field(record, "target"), run.fixture) && !Is(Field(record, "status"), "passed")
    requires SavesAll(saved, outcomes) && S.AllEvidenced(outcomes) && Measured(run, outcomes)
    ensures fresh(draft)
    ensures Qualifies(draft.record, commit, draft.root, lib) <==>
      && Presented(record, commit, lib)
      && run.healthy && AllPassed(outcomes, S.Required(run.fixture)) && Quick(run.firstFrame)
  {
    draft := new Draft(record, saved.files);
    draft.Fill(run, outcomes, saved.evidence, lib);
    RunQualifies(record, commit, run, outcomes, saved.evidence, saved.files, lib);
  }
}
