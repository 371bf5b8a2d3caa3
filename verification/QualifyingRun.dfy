/** A run of the scenarios that qualifies, whatever identifies it: the runner and the gate do let a fixture and a viewer
    without fault through. */
module QualifyingRun {
  import opened Results
  import opened Markers
  import opened Qualification
  import opened RunRecord
  import Json
  import S = Scenarios
  import D = Driver

  // ----- a fixture and a viewer without fault

  const ALL_MARKERS: set<Marker> := {KeyboardMarker, PointerMarker, ScrollMarker, DragMarker}

  /** Yes, at once, and a new frame with every marker, except for the one asked for while the desktop is locked; and the
      size of the mode each time it is asked for. */
  function Faithful(n: nat): D.Answer {
    D.Answer(
      true, true, 0,
      Some(D.Capture(0, 0, n, 1920, 1080, if n == 105 then D.NoScene else D.Scene, ALL_MARKERS)),
      if n == 128 then Some((1280, 720)) else if n == 138 then Some((3840, 2160)) else None,
      None, [])
  }

  function FaithfulOracle(): D.Oracle {
    D.Oracle(map n: nat | n < 147 :: Faithful(n), Faithful(0))
  }

  const ABLE := D.Abilities(true, true, false, true, false, {})

  lemma FaithfulIsFaultless(session: S.Session)
    requires session.fixture == D.Sway && session.only.None?
    requires session.driver.oracle == FaithfulOracle() && session.driver.abilities == ABLE
    ensures session.Faultless(0)
  {
    assert forall m: Marker :: m in ALL_MARKERS by {
      forall m: Marker ensures m in ALL_MARKERS {
        match m {
          case KeyboardMarker =>
          case PointerMarker =>
          case ScrollMarker =>
          case DragMarker =>
        }
      }
    }
    forall n: nat | n < 147 && n != 105 ensures session.driver.Good(n) {
      assert session.driver.Reply(n) == Faithful(n);
    }
    assert session.driver.Reply(105) == Faithful(105);
    assert session.driver.Reply(128) == Faithful(128);
    assert session.driver.Reply(138) == Faithful(138);
  }

  // ----- where its evidence is kept

  /** The names that have an outcome, in the order given. */
  function Decided(names: seq<S.Name>, outcomes: map<S.Name, S.Outcome>): (order: seq<S.Name>)
    ensures forall name :: name in order <==> name in names && name in outcomes
    ensures Distinct(names) ==> Distinct(order)
  {
    if names == [] then []
    else
      var rest := Decided(names[1..], outcomes);
      assert Distinct(names) ==> Distinct(names[1..]) && names[0] !in names[1..];
      if names[0] in outcomes then [names[0]] + rest else rest
  }

  predicate Distinct(names: seq<S.Name>) {
    forall i, j | 0 <= i < j < |names| :: names[i] != names[j]
  }

  /** The captures of each outcome, all in one file. */
  function PathsOf(order: seq<S.Name>, outcomes: map<S.Name, S.Outcome>, path: string): (paths: seq<seq<string>>)
    requires forall name | name in order :: name in outcomes
    ensures |paths| == |order|
    ensures forall i | 0 <= i < |order| :: |paths[i]| == |outcomes[order[i]].captures|
    ensures forall p | p in Flat(paths) :: p == path
  {
    if order == [] then []
    else
      var last := |order| - 1;
      PathsOf(order[..last], outcomes, path) + [seq(|outcomes[order[last]].captures|, k => path)]
  }

  function Keep(outcomes: map<S.Name, S.Outcome>): Saved {
    var order := Decided(ORDER + PORTAL_ORDER, outcomes);
    Saved(Evidence(order, PathsOf(order, outcomes, "c"), "l", [], "r", []), map["c" := []])
  }

  lemma KeepSaves()
    ensures Saves(Keep)
  {
    forall outcomes: map<S.Name, S.Outcome> ensures SavesAll(Keep(outcomes), outcomes) {
      KeepsAll(outcomes);
    }
  }

  lemma KeepsAll(outcomes: map<S.Name, S.Outcome>)
    ensures SavesAll(Keep(outcomes), outcomes)
  {
    AllNames();
    FirstsMembers(Flat(Keep(outcomes).evidence.captures));
  }

  function Place(name: S.Name): nat {
    match name
    case FirstFrame => 0
    case Colors => 1
    case ChangingFrames => 2
    case Keyboard => 3
    case Pointer => 4
    case DragName => 5
    case ScrollName => 6
    case BaseMode100 => 7
    case HighDpi200 => 8
    case Reconnect20 => 9
    case ViewerKilled => 10
    case NetworkInterruption => 11
    case Resize => 12
    case MonitorChange => 13
    case ServerRestart => 14
    case LockName => 15
    case SuspendResume => 16
    case PortalApprove => 17
    case PortalDeny => 18
    case PortalRevoke => 19
    case PortalRestore => 20
  }

  lemma PlaceOf(name: S.Name)
    ensures Place(name) < 21 && (ORDER + PORTAL_ORDER)[Place(name)] == name
  {
  }

  lemma AllNames()
    ensures Distinct(ORDER + PORTAL_ORDER) && forall name: S.Name :: name in ORDER + PORTAL_ORDER
  {
    forall name: S.Name ensures name in ORDER + PORTAL_ORDER {
      PlaceOf(name);
    }
    forall i | 0 <= i < 21 ensures Place((ORDER + PORTAL_ORDER)[i]) == i {
      PlaceAt(i);
    }
  }

  lemma PlaceAt(i: nat)
    requires i < 21
    ensures Place((ORDER + PORTAL_ORDER)[i]) == i
  {
    assert (ORDER + PORTAL_ORDER)[i] == if i < 17 then ORDER[i] else PORTAL_ORDER[i - 17];
  }

  // ----- the run

  method Qualify(runId: string, recordedAt: string, commit: string, viewer: string, versions: map<string, Json.Value>,
                 lib: Library) returns (session: S.Session, draft: Draft)
    requires Introduced(runId, recordedAt, "sway", viewer, versions, lib)
    ensures fresh(session) && session.fixture == D.Sway && session.only.None?
    ensures Qualifies(draft.record, commit, draft.root, lib)
  {
    var driver := new D.Driver(FaithfulOracle(), ABLE);
    session := new S.Session(D.Sway, driver, None);
    FaithfulIsFaultless(session);
    KeepSaves();
    assert "sway"[0] != "plasma"[0];
    var outcomes;
    draft, outcomes := QualifyDesktop(session, runId, recordedAt, commit, "sway", viewer, versions, Keep, lib);
  }
}
