/** The scenarios of src/wayland_vnc/desktop_scenarios.py, run against the adversary of Driver.
    No driver call raises; the exceptions the scenarios raise themselves are modelled. */
module Scenarios {
  import opened Results
  import opened Markers
  import opened Driver

  datatype Name =
    | FirstFrame | Colors | ChangingFrames | Keyboard | Pointer | DragName | ScrollName | BaseMode100 | HighDpi200
    | Reconnect20 | ViewerKilled | NetworkInterruption | Resize | MonitorChange | ServerRestart | LockName
    | SuspendResume | PortalApprove | PortalDeny | PortalRevoke | PortalRestore

  datatype Status = Passed | Failed | NotRun

  datatype Outcome = Outcome(status: Status, captures: seq<Capture>)

  /** The questions an input is judged by: from the first screenshot after it up to the last. */
  datatype Window = Window(start: nat, end: nat)

  /** A scenario returns its outcome, or lets an OSError or ValueError out. */
  datatype Verdict = Returned(outcome: Outcome) | Raised

  const FIRST_FRAME_BUDGET: nat := 10000
  const RECONNECT_CYCLES: nat := 20
  const RECONNECT_TRANSIENT_RETRIES: nat := 3

  const INTERRUPTION_BUDGET: nat := 5000

  const INPUT_NAMES := [Keyboard, Pointer, ScrollName, DragName]

  const INPUTS: set<Name> := {Keyboard, Pointer, ScrollName, DragName}

  const MANUAL: set<Name> := {Keyboard, Pointer, DragName, ScrollName, MonitorChange, LockName, SuspendResume}

  function MarkerOf(name: Name): Marker {
    match name
    case Keyboard => KeyboardMarker
    case Pointer => PointerMarker
    case ScrollName => ScrollMarker
    case _ => DragMarker
  }

  const SCENARIOS: set<Name> := {
    FirstFrame, Colors, ChangingFrames, Keyboard, Pointer, DragName, ScrollName, BaseMode100, HighDpi200, Reconnect20,
    ViewerKilled, NetworkInterruption, Resize, MonitorChange, ServerRestart, LockName, SuspendResume}

  const PORTAL_SCENARIOS: set<Name> := {PortalApprove, PortalDeny, PortalRevoke, PortalRestore}

  function Required(fixture: Fixture): set<Name> {
    SCENARIOS + if fixture == Plasma then PORTAL_SCENARIOS else {}
  }

  const AUTOMATED := [FirstFrame, ChangingFrames, Reconnect20, ViewerKilled, NetworkInterruption, ServerRestart]

  const PORTAL := [PortalApprove, PortalDeny, PortalRestore]

  const AUTOMATED_NAMES: set<Name> := {
    FirstFrame, ChangingFrames, Reconnect20, ViewerKilled, NetworkInterruption, ServerRestart}

  /** Everything that runs before the portal and mode scenarios. */
  const FIRST_NAMES: set<Name> := AUTOMATED_NAMES + {Colors, BaseMode100} + INPUTS + {LockName} + {MonitorChange}

  function BaseRun(fixture: Fixture): set<Name> {
    FIRST_NAMES + (if fixture == Plasma then PORTAL_SCENARIOS else {}) + {Resize}
  }

  lemma AutomatedNames()
    ensures forall name :: name in AUTOMATED <==> name in AUTOMATED_NAMES
    ensures AUTOMATED_NAMES <= BASE_NAMES
  {
  }

  lemma PortalMembers()
    ensures forall name :: name in PORTAL <==> name == PortalApprove || name == PortalDeny || name == PortalRestore
  {
    assert PORTAL[0] == PortalApprove && PORTAL[1] == PortalDeny && PORTAL[2] == PortalRestore;
  }

  lemma ManualDecided(fixture: Fixture, decided: set<Name>)
    requires BaseRun(fixture) <= decided && SuspendResume in decided
    ensures MANUAL <= decided
  {
  }

  lemma RequiredNames(fixture: Fixture, decided: set<Name>)
    requires BaseRun(fixture) <= decided && HighDpi200 in decided && SuspendResume in decided
    ensures Required(fixture) <= decided
  {
  }

  /** The scenarios that start and end in the base mode, one name each. */
  const BASE_NAMES: set<Name> := {
    FirstFrame, ChangingFrames, Reconnect20, ViewerKilled, NetworkInterruption, ServerRestart, LockName, MonitorChange,
    PortalApprove, PortalDeny, PortalRestore, Resize}

  /** The evidence a passed scenario holds. */
  predicate Evidenced(name: Name, o: Outcome) {
    o.status == Passed ==>
      match name
      case Reconnect20 => |o.captures| == RECONNECT_CYCLES && Scenes(o.captures)
      case ChangingFrames =>
        |o.captures| == 2 && Scenes(o.captures) && o.captures[0].content != o.captures[1].content
      case MonitorChange =>
        |o.captures| == 3 && Scenes(o.captures) && o.captures[0].content != o.captures[2].content
      case LockName =>
        && |o.captures| == 3 && o.captures[1].sight == NoScene
        && o.captures[0].sight == Scene && o.captures[2].sight == Scene
      case BaseMode100 => true
      case PortalRevoke => false
      case Keyboard => |o.captures| == 1 && KeyboardMarker in o.captures[0].markers
      case Pointer => |o.captures| == 1 && PointerMarker in o.captures[0].markers
      case ScrollName => |o.captures| == 1 && ScrollMarker in o.captures[0].markers
      case DragName => |o.captures| == 1 && DragMarker in o.captures[0].markers
      case _ => 1 <= |o.captures| <= 2 && Scenes(o.captures)
  }

  predicate AllEvidenced(outcomes: map<Name, Outcome>) {
    forall name | name in outcomes :: Evidenced(name, outcomes[name])
  }

  /** A decided outcome is never decided again. */
  predicate Keeps(before: map<Name, Outcome>, after: map<Name, Outcome>) {
    forall name | name in before :: name in after && after[name] == before[name]
  }

  function At(outcomes: map<Name, Outcome>, name: Name): Option<Outcome> {
    if name in outcomes then Some(outcomes[name]) else None
  }

  /** What was decided, or not, of the first frame and the reconnects stays so. */
  predicate KeepsClocked(before: map<Name, Outcome>, after: map<Name, Outcome>) {
    At(after, FirstFrame) == At(before, FirstFrame) && At(after, Reconnect20) == At(before, Reconnect20)
  }

  /** And what was decided of the 4K scenario. */
  predicate KeepsFirst(before: map<Name, Outcome>, after: map<Name, Outcome>) {
    KeepsClocked(before, after) && At(after, HighDpi200) == At(before, HighDpi200)
  }

  /** `_derived`: the colours, and the base mode if the first frame has its size. */
  function Derived(outcomes: map<Name, Outcome>): (r: map<Name, Outcome>)
    requires AllEvidenced(outcomes)
    ensures AllEvidenced(r)
    ensures r.Keys == outcomes.Keys + if FirstFrame in outcomes then {Colors, BaseMode100} else {}
    ensures BaseMode100 in r && FirstFrame in r && r[BaseMode100].status == Passed ==>
      outcomes[FirstFrame].status == Passed && outcomes[FirstFrame].captures[0].width == BASE_MODE.width &&
      outcomes[FirstFrame].captures[0].height == BASE_MODE.height
    ensures forall name | name in outcomes && name != Colors && name != BaseMode100 :: r[name] == outcomes[name]
    ensures FirstFrame in outcomes ==>
      r[Colors] == (if outcomes[FirstFrame].status == Passed then outcomes[FirstFrame] else Outcome(Failed, [])) &&
      r[BaseMode100].captures == []
  {
    if FirstFrame !in outcomes then outcomes
    else
      var first := outcomes[FirstFrame];
      if first.status != Passed then outcomes[Colors := Outcome(Failed, [])][BaseMode100 := Outcome(Failed, [])]
      else
        var base := first.captures[0].width == BASE_MODE.width && first.captures[0].height == BASE_MODE.height;
        outcomes[Colors := Outcome(Passed, first.captures)]
                [BaseMode100 := Outcome(if base then Passed else Failed, [])]
  }

  /** Every manual scenario that no group decided was not run. */
  function WithDefaults(outcomes: map<Name, Outcome>): (r: map<Name, Outcome>)
    requires AllEvidenced(outcomes)
    ensures AllEvidenced(r) && r.Keys == MANUAL + outcomes.Keys
    ensures forall name | name in outcomes :: r[name] == outcomes[name]
    ensures forall name | name in MANUAL && name !in outcomes :: r[name] == Outcome(NotRun, [])
  {
    (map name | name in MANUAL :: Outcome(NotRun, [])) + outcomes
  }

  lemma DefaultsKeep(outcomes: map<Name, Outcome>)
    requires AllEvidenced(outcomes)
    ensures KeepsFirst(outcomes, WithDefaults(outcomes)) && outcomes.Keys <= WithDefaults(outcomes).Keys
    ensures PortalRevoke in outcomes ==> At(WithDefaults(outcomes), PortalRevoke) == At(outcomes, PortalRevoke)
  {
    assert FirstFrame !in MANUAL && Reconnect20 !in MANUAL && HighDpi200 !in MANUAL;
  }

  /** Captures that `verify_scene` accepted. */
  predicate Scenes(captures: seq<Capture>) {
    forall c | c in captures :: c.sight == Scene
  }

  /** Each capture is of a later session than the one before it. */
  predicate OwnSessions(captures: seq<Capture>) {
    forall i, j | 0 <= i < j < |captures| :: captures[i].session < captures[j].session
  }

  /** Every passed input was acknowledged by its own marker. */
  predicate Marked(outcomes: map<Name, Outcome>) {
    forall name | name in outcomes && outcomes[name].status == Passed ::
      |outcomes[name].captures| == 1 && MarkerOf(name) in outcomes[name].captures[0].markers
  }

  class Session {
    const fixture: Fixture
    const driver: Driver
    const only: Option<set<Name>>
    var firstFrame: Option<int>
    var reconnectCycles: nat
    var healthy: Option<bool>
    var currentMode: Mode

    constructor (fixture: Fixture, driver: Driver, only: Option<set<Name>>)
      ensures this.fixture == fixture && this.driver == driver && this.only == only
      ensures firstFrame == None && reconnectCycles == 0 && healthy == None && currentMode == BASE_MODE
    {
      this.fixture, this.driver, this.only := fixture, driver, only;
      firstFrame, reconnectCycles, healthy, currentMode := None, 0, None, BASE_MODE;
    }

    /** One of the fixtures the runner can drive by name, or one whose machine adds the capability. */
    predicate Can(capability: Capability) {
      !(fixture == Gnome || fixture == Plasma) || capability in driver.abilities.machine
    }

    /** Which fixtures can be resized, locked and hot-plugged by name; any other needs a machine that can. */
    lemma CanExactly(capability: Capability)
      ensures Can(capability) <==>
        fixture in [Sway, Labwc, XfceLabwc, LxqtLabwc, Wayfire, Hyprland] || capability in driver.abilities.machine
    {
      match fixture {
        case Gnome =>
        case Plasma =>
        case Sway =>
        case Labwc =>
        case XfceLabwc =>
        case LxqtLabwc =>
        case Wayfire =>
        case Hyprland =>
      }
    }

    // ----- building blocks

    function Left(milliseconds: int): nat {
      if milliseconds < 0 then 0 else milliseconds
    }

    /** What every building block and every scenario leaves alone: the sessions open before it are
        the sessions open after it, at most one more was open at any moment between, and the fixture
        is in the mode it was in. */
    twostate predicate Settled()
      reads this, driver
    {
      && driver.Valid()
      && driver.open == old(driver.open)
      && Steady()
      && driver.mode == old(driver.mode)
      && driver.unsized == old(driver.unsized)
      && currentMode == old(currentMode)
      && healthy == old(healthy)
    }

    /** And no size was left unreported. */
    twostate predicate Tidy()
      reads this, driver
    {
      Settled() && driver.unreported == old(driver.unreported)
    }

    /** More may have been asked, and nothing that was asked is forgotten. */
    twostate predicate Longer()
      reads this, driver
    {
      old(driver.asked) <= driver.asked && old(driver.log) <= driver.log && old(driver.now) <= driver.now
    }

    twostate predicate Steady()
      reads this, driver
    {
      && old(driver.opens) <= driver.opens && Longer()
      && old(driver.peak) <= driver.peak <= Max(old(driver.peak), |old(driver.open)| + 1)
    }

    /** Whatever is asked, the answer is yes, and the viewer leaves the time it began to the runner's clock. */
    ghost predicate Patient(start: nat, end: nat) {
      forall n {:trigger driver.Reply(n)} | start <= n < end :: driver.Reply(n).yes && driver.Reply(n).startedAt.None?
    }

    lemma PatientPart(start: nat, from: nat, to: nat, end: nat)
      requires start <= from && to <= end
      ensures Patient(start, end) ==> Patient(from, to)
    {
    }

    /** At least that long has passed, unless an answer was no, or the viewer says itself when it began. */
    twostate predicate Lasted(milliseconds: nat)
      reads driver`asked, driver`now
    {
      Patient(old(driver.asked), driver.asked) ==> driver.now >= old(driver.now) + milliseconds
    }

    ghost predicate AlwaysScene(start: nat, end: nat) {
      forall n | start <= n < end :: driver.SceneAt(n)
    }

    /** Captures that are all screenshots the viewer gave between two of the questions it was asked. */
    ghost predicate Fresh(captures: seq<Capture>, start: nat, end: nat)
      reads driver`log
    {
      forall c | c in captures :: driver.Shown(c, start, end)
    }

    ghost predicate AllFresh(outcomes: map<Name, Outcome>, start: nat, end: nat)
      reads driver`log
    {
      AllFreshIn(outcomes, driver.log, start, end)
    }

    ghost predicate AllFreshIn(outcomes: map<Name, Outcome>, log: set<Entry>, start: nat, end: nat) {
      forall name, c | name in outcomes && c in outcomes[name].captures :: driver.ShownIn(log, c, start, end)
    }

    /** A fixture that does not pass its first smoke check has failed the first frame. */
    ghost predicate UnfitFails(outcomes: map<Name, Outcome>, start: nat)
      reads driver`log
    {
      && driver.Noted(start, AskedSmoke(BASE_MODE.width, BASE_MODE.height))
      && (!driver.Reply(start).yes ==> FirstFrame in outcomes && outcomes[FirstFrame] == Outcome(Failed, []))
    }

    /** A passed first frame has a latency, and passed reconnects have their count. */
    predicate Measured(outcomes: map<Name, Outcome>)
      reads this`firstFrame, this`reconnectCycles
    {
      && (FirstFrame in outcomes && outcomes[FirstFrame].status == Passed ==> firstFrame.Some?)
      && (Reconnect20 in outcomes && outcomes[Reconnect20].status == Passed ==> reconnectCycles == RECONNECT_CYCLES)
    }

    /** Outcomes with their evidence and measurements, and captures given since the start of the run. */
    ghost predicate Sound(outcomes: map<Name, Outcome>, start: nat)
      reads this`firstFrame, this`reconnectCycles, driver`asked, driver`log
    {
      AllEvidenced(outcomes) && Measured(outcomes) && start <= driver.asked && AllFresh(outcomes, start, driver.asked)
    }

    /** A resize whose viewer left its size unreported is recorded as failed, with nothing captured. */
    ghost predicate SizeMissed(outcomes: map<Name, Outcome>, before: nat)
      reads driver`unreported
    {
      driver.unreported != before ==> At(outcomes, Resize) == Some(Outcome(Failed, []))
    }

    /** A viewer that shows the scene whenever it is asked but never reports its size. */
    ghost predicate AlwaysBlind() {
      && driver.abilities.reportsSize
      && forall n: nat :: driver.SceneAt(n) && driver.Reply(n).yes && driver.Reply(n).size.None?
    }

    /** The 4K scenario runs, and all that it asks is answered except for the size. */
    ghost predicate Leaks() {
      Selected(HighDpi200) && Can(CanResize) && AlwaysBlind()
    }

    predicate Selected(name: Name) {
      only.None? || name in only.value
    }

    lemma ShownLater(before: set<Entry>, after: set<Entry>, c: Capture, start: nat, mid: nat, end: nat)
      requires driver.ShownIn(before, c, start, mid) && before <= after && mid <= end
      ensures driver.ShownIn(after, c, start, end)
    {
    }

    lemma FreshLater(outcomes: map<Name, Outcome>, before: set<Entry>, after: set<Entry>, start: nat, mid: nat,
                     end: nat)
      requires AllFreshIn(outcomes, before, start, mid) && before <= after && mid <= end
      ensures AllFreshIn(outcomes, after, start, end)
    {
      forall name, c | name in outcomes && c in outcomes[name].captures ensures driver.ShownIn(after, c, start, end) {
        ShownLater(before, after, c, start, mid, end);
      }
    }

    lemma FreshDerived(outcomes: map<Name, Outcome>, start: nat, end: nat)
      requires AllEvidenced(outcomes) && AllFresh(outcomes, start, end)
      ensures AllFresh(Derived(outcomes), start, end)
      ensures KeepsFirst(outcomes, Derived(outcomes)) && outcomes.Keys <= Derived(outcomes).Keys
    {
    }

    /** What was decided of the first frame and the reconnects decides these two. */
    lemma FirstKept(before: map<Name, Outcome>, after: map<Name, Outcome>, start: nat)
      requires KeepsClocked(before, after)
      ensures Measured(after) <==> Measured(before)
      ensures UnfitFails(after, start) <==> UnfitFails(before, start)
    {
      assert At(after, FirstFrame) == At(before, FirstFrame) && At(after, Reconnect20) == At(before, Reconnect20);
    }

    lemma FreshDefaults(outcomes: map<Name, Outcome>, start: nat, end: nat)
      requires AllEvidenced(outcomes) && AllFresh(outcomes, start, end)
      ensures AllFresh(WithDefaults(outcomes), start, end)
    {
    }

    /** One more outcome, whose captures are of the questions since. */
    lemma FreshAdded(outcomes: map<Name, Outcome>, before: set<Entry>, name: Name, o: Outcome, start: nat, mid: nat,
                     end: nat)
      requires AllFreshIn(outcomes, before, start, mid) && before <= driver.log
      requires Fresh(o.captures, mid, end) && start <= mid <= end
      ensures AllFresh(outcomes[name := o], start, end)
    {
      FreshLater(outcomes, before, driver.log, start, mid, end);
      forall c | c in o.captures ensures driver.ShownIn(driver.log, c, start, end) {
        assert driver.Shown(c, mid, end);
      }
    }

    lemma FreshTogether(outcomes: map<Name, Outcome>, before: set<Entry>, more: map<Name, Outcome>, start: nat,
                        mid: nat, end: nat)
      requires AllFreshIn(outcomes, before, start, mid) && before <= driver.log
      requires AllFresh(more, mid, end) && start <= mid <= end
      ensures AllFresh(outcomes + more, start, end)
    {
      FreshLater(outcomes, before, driver.log, start, mid, end);
      forall name, c | name in more && c in more[name].captures ensures driver.ShownIn(driver.log, c, start, end) {
        assert driver.ShownIn(driver.log, c, mid, end);
      }
    }

    /** Whether there is one. */
    function Count(capture: Option<Capture>): nat {
      if capture.Some? then 1 else 0
    }

    // ----- answers that let a scenario pass, from the n-th question on

    predicate Differ(m: nat, n: nat) {
      driver.SceneAt(m) && driver.SceneAt(n) && driver.Reply(m).shot.value.content != driver.Reply(n).shot.value.content
    }

    predicate Unlike(before: Capture, n: nat) {
      driver.SceneAt(n) && driver.Reply(n).shot.value.content != before.content
    }

    /** A frame of the base mode, at once. */
    predicate Starts(n: nat) {
      && driver.SceneAt(n + 1) && driver.Reply(n).startedAt.None?
      && driver.Reply(n).delay == 0 && driver.Reply(n + 1).delay == 0
      && driver.Reply(n + 1).shot.value.width == BASE_MODE.width &&
        driver.Reply(n + 1).shot.value.height == BASE_MODE.height
    }

    predicate Changes(n: nat) {
      Differ(n + 1, n + 3)
    }

    ghost predicate Reconnects(n: nat) {
      forall m {:trigger driver.SceneAt(m)} | n <= m < n + 60 :: driver.SceneAt(m)
    }

    predicate ShowsTwice(n: nat) {
      driver.SceneAt(n + 1) && driver.SceneAt(n + 4)
    }

    predicate Survives(n: nat) {
      driver.Reply(n + 3).yes && Differ(n + 1, n + 4)
    }

    predicate Restarts(n: nat) {
      driver.Reply(n + 1).yes && driver.SceneAt(n + 3)
    }

    predicate FollowsResize(n: nat) {
      Can(CanResize) && driver.SceneAt(n + 1) && Follows(n + 2)
    }

    predicate Follows(n: nat) {
      && driver.abilities.reportsSize && driver.SceneAt(n + 2) && driver.Reply(n + 3).yes
      && driver.Reply(n + 4).size == Some((RESIZED_MODE.width, RESIZED_MODE.height))
    }

    predicate Renders4K(n: nat) {
      Can(CanResize) && driver.Reply(n).yes && driver.Reply(n + 2).yes && Shows4K(n + 3)
    }

    /** A viewer that need not fit the desktop shows it, and says that it is that large. */
    predicate Shows4K(n: nat) {
      && driver.abilities.reportsSize && !driver.abilities.canFit && driver.SceneAt(n + 1)
      && driver.Reply(n + 2).size == Some((HIGH_DPI_MODE.width, HIGH_DPI_MODE.height))
    }

    predicate AnswersInputs(n: nat) {
      driver.SceneAt(n + 1) && AnswersAll(n + 2)
    }

    predicate AnswersAll(n: nat) {
      driver.Good(n + 2) && driver.Good(n + 5) && driver.Good(n + 8) && driver.Good(n + 11)
    }

    predicate LocksAndUnlocks(n: nat) {
      Can(CanLock) && driver.abilities.supportsInput && driver.SceneAt(n + 1) && Yields(n + 2)
    }

    /** The lock and the secret work at once, with no key to press first. */
    predicate Yields(n: nat) {
      && !NeedsKey() && driver.HiddenAt(n + 1) && driver.Reply(n + 2).yes
      && driver.SceneAt(n + 4) && driver.Reply(n + 5).yes
    }

    predicate KeepsMonitor(n: nat) {
      Can(CanHotplug) && driver.SceneAt(n + 4) && Differ(n + 1, n + 7) && driver.Reply(n + 8).yes
    }

    predicate LocksAndReplugs(n: nat) {
      LocksAndUnlocks(n) && KeepsMonitor(n + 10)
    }

    predicate SleepsWell(n: nat) {
      driver.abilities.supportsSuspend && Slept(n + 2) && driver.Reply(n + 3).yes && Differ(n + 1, n + 4)
    }

    /** The first screenshot with the scene; none only once the deadline is over or the viewer dead. It asks at
        most three questions for every quarter of a second left, and six more. */
    method CaptureValid(session: nat, deadline: int) returns (capture: Option<Capture>)
      requires session in driver.open
      modifies driver`asked, driver`log, driver`now, driver`scenes
      ensures Longer() && old(driver.asked) < driver.asked
      ensures driver.asked <= old(driver.asked) + 3 + 3 * (Left(deadline - old(driver.now)) / 250 + 1)
      ensures capture.Some? ==>
        && capture.value.sight == Scene && driver.ShownBy(session, capture.value, old(driver.asked), driver.asked)
        && capture.value.at == driver.asked - 1
      ensures capture.None? && driver.now < deadline ==>
        driver.Noted(driver.asked - 1, AskedAlive(session)) && !driver.Reply(driver.asked - 1).yes
      ensures driver.scenes == old(driver.scenes) + Count(capture)
      ensures capture.None? && Patient(old(driver.asked), driver.asked) ==> driver.now >= deadline
      ensures capture.None? ==> !driver.SceneAt(old(driver.asked))
      ensures driver.SceneAt(old(driver.asked)) ==>
        capture.Some? && driver.asked == old(driver.asked) + 1 && driver.Took(0)
    {
      ghost var rounds := 0;
      while true
        invariant Longer() && driver.scenes == old(driver.scenes)
        invariant driver.asked == old(driver.asked) + 3 * rounds
        invariant rounds > 0 ==> 250 * (rounds - 1) < deadline - old(driver.now)
        invariant driver.now >= old(driver.now) + 250 * rounds
        invariant if rounds > 0 then !driver.SceneAt(old(driver.asked)) else driver.now == old(driver.now)
        decreases deadline - driver.now
      {
        var shot := driver.Screenshot(session);
        if shot.Some? && shot.value.sight == Scene {
          return shot;
        }
        if driver.now >= deadline {
          return None;
        }
        var alive := driver.Alive(session);
        if !alive {
          return None;
        }
        driver.Sleep(250);
        rounds := rounds + 1;
      }
    }

    /** Of the screenshots asked for with every second question, none can be read and shows no scene. */
    ghost predicate NeverHidden(start: nat, end: nat) {
      forall n {:trigger driver.HiddenAt(n)} | start <= n < end && (n - start) % 2 == 0 :: !driver.HiddenAt(n)
    }

    /** Polls until a readable screenshot shows no scene; none only if there was none until the time was over. */
    method SceneHidden(session: nat, milliseconds: nat) returns (capture: Option<Capture>)
      requires session in driver.open
      modifies driver`asked, driver`log, driver`now, driver`scenes
      ensures Longer()
      ensures capture.Some? ==>
        && capture.value.sight == NoScene && driver.ShownBy(session, capture.value, old(driver.asked), driver.asked)
        && capture.value.at == driver.asked - 1
      ensures capture.None? ==>
        NeverHidden(old(driver.asked), driver.asked) && driver.now >= old(driver.now) + milliseconds
      ensures milliseconds > 0 && driver.HiddenAt(old(driver.asked)) ==>
        capture.Some? && driver.asked == old(driver.asked) + 1 && driver.Took(0)
    {
      var deadline := driver.now + milliseconds;
      while driver.now < deadline
        invariant Longer() && (driver.asked - old(driver.asked)) % 2 == 0
        invariant NeverHidden(old(driver.asked), driver.asked)
        invariant driver.asked == old(driver.asked) ==> driver.now == old(driver.now)
        invariant driver.asked > old(driver.asked) ==> !driver.HiddenAt(old(driver.asked))
        decreases deadline - driver.now
      {
        var shot := driver.Screenshot(session);
        if shot.Some? && shot.value.sight == NoScene {
          return shot;
        }
        driver.Sleep(250);
      }
      return None;
    }

    /** When an attempt began: when the viewer says it asked the server, or else when it was told to connect. */
    function Began(begun: nat, clock: int): int {
      match driver.Reply(begun).startedAt
      case Some(t) => t
      case None => clock
    }

    predicate Fits(fit: bool) {
      fit && driver.abilities.canFit
    }

    /** The time a viewer needs to fit the desktop. */
    function FitTime(fit: bool, begun: nat): int {
      if Fits(fit) then driver.Reply(begun + 1).delay else 0
    }

    /** One attempt: the time a viewer needs to fit the desktop is not charged to the server. */
    method Attempt(fit: bool) returns (session: nat, capture: Option<Capture>, elapsed: int)
      requires driver.Valid()
      modifies driver`asked, driver`log, driver`now, driver`scenes, driver`open, driver`opens, driver`peak
      ensures capture.Some? ==>
        capture.value.sight == Scene && driver.ShownBy(session, capture.value, old(driver.asked), driver.asked)
      ensures driver.scenes == old(driver.scenes) + Count(capture)
      ensures capture.None? ==> !AlwaysScene(old(driver.asked), driver.asked)
      ensures capture.None? ==> Lasted(10000)
      ensures driver.Valid() && Steady() && driver.opens == old(driver.opens) + 1
      ensures session == old(driver.opens) && session !in old(driver.open)
      ensures driver.open == old(driver.open) + {session}
      ensures old(driver.asked) < driver.asked && driver.Noted(old(driver.asked), Opened(session))
      ensures Fits(fit) ==> driver.Noted(old(driver.asked) + 1, Did(FitDesktop))
      ensures elapsed ==
        driver.now - Began(old(driver.asked), old(driver.now)) - FitTime(fit, old(driver.asked))
      ensures !Fits(fit) && driver.SceneAt(old(driver.asked) + 1) ==>
        && capture.Some? && capture.value.at == old(driver.asked) + 1 && driver.asked == old(driver.asked) + 2
        && driver.now ==
             old(driver.now) + driver.Reply(old(driver.asked)).delay + driver.Reply(old(driver.asked) + 1).delay
      ensures !driver.SceneAt(old(driver.asked) + 1) || Fits(fit) || capture.Some?
    {
      ghost var begun := driver.asked;
      var started := driver.now;
      var startedAt: Option<int>;
      session, startedAt := driver.Connect();
      assert driver.Noted(begun, Opened(session));
      if startedAt.Some? {
        started := startedAt.value;
      }
      if fit && driver.abilities.canFit {
        var fitStarted := driver.now;
        driver.Act(FitDesktop);
        assert driver.Noted(begun + 1, Did(FitDesktop));
        started := started + driver.now - fitStarted;
      }
      ghost var shooting := driver.asked;
      capture := CaptureValid(session, started + FIRST_FRAME_BUDGET);
      if capture.None? {
        assert !driver.SceneAt(shooting);
      }
      elapsed := driver.now - started;
    }

    /** The attempt that gave the session was the first, or followed one whose failure the viewer called transient. */
    ghost predicate Opening(session: nat, begun: nat, clock: int, first: nat, firstNow: int, again: bool)
      reads driver`log
    {
      && first <= begun && driver.Noted(begun, Opened(session))
      && if again then
           && first + 2 <= begun && 0 < session && driver.Noted(begun - 2, AskedTransient(session - 1))
           && driver.Reply(begun - 2).yes
         else begun == first && clock == firstNow
    }

    /** Connects and waits for the first valid frame, with one retry when the viewer calls the
        failure transient; the session returned is open, every other one it opened is closed. */
    method ConnectAndCapture(fit: bool)
      returns (session: nat, capture: Option<Capture>, elapsed: int, ghost begun: nat, ghost clock: int)
      requires driver.Valid()
      modifies driver`asked, driver`log, driver`now, driver`scenes, driver`open, driver`opens, driver`peak
      ensures capture.Some? ==> driver.ShownBy(session, capture.value, old(driver.asked), driver.asked)
      ensures driver.scenes == old(driver.scenes) + Count(capture)
      ensures capture.None? ==> !AlwaysScene(old(driver.asked), driver.asked)
      ensures capture.None? ==> Lasted(10000)
      ensures driver.Valid() && Steady()
      ensures old(driver.opens) <= session < driver.opens && session !in old(driver.open)
      ensures driver.open == old(driver.open) + {session}
      ensures driver.opens <= old(driver.opens) + 2
      ensures capture.Some? ==> capture.value.sight == Scene
      ensures old(driver.asked) < driver.asked
      ensures Opening(session, begun, clock, old(driver.asked), old(driver.now), driver.opens == old(driver.opens) + 2)
      ensures capture.Some? ==> elapsed == driver.now - Began(begun, clock) - FitTime(fit, begun)
      ensures capture.None? && driver.opens != old(driver.opens) + 2 ==>
        driver.Noted(driver.asked - 1, AskedTransient(session)) && !driver.Reply(driver.asked - 1).yes
      ensures !Fits(fit) && driver.SceneAt(old(driver.asked) + 1) ==>
        && capture.Some? && capture.value.at == old(driver.asked) + 1 && driver.asked == old(driver.asked) + 2
        && begun == old(driver.asked)
        && driver.now ==
             old(driver.now) + driver.Reply(old(driver.asked)).delay + driver.Reply(old(driver.asked) + 1).delay
    {
      hide Patient;
      var attempt := 1;
      while true
        invariant 1 <= attempt <= 2
        invariant driver.Valid() && Steady() && driver.open == old(driver.open)
        invariant driver.opens == old(driver.opens) + attempt - 1
        invariant driver.scenes == old(driver.scenes)
        invariant attempt == 1 ==> driver.asked == old(driver.asked) && driver.now == old(driver.now)
        invariant attempt == 2 ==>
          && old(driver.asked) + 2 <= driver.asked && driver.Noted(driver.asked - 2, AskedTransient(driver.opens - 1))
          && driver.Reply(driver.asked - 2).yes && !AlwaysScene(old(driver.asked), driver.asked)
          && (Fits(fit) || !driver.SceneAt(old(driver.asked) + 1))
        decreases 2 - attempt
      {
        begun, clock := driver.asked, driver.now;
        session, capture, elapsed := Attempt(fit);
        PatientPart(old(driver.asked), begun, driver.asked, driver.asked);
        if capture.Some? || attempt == 2 {
          return;
        }
        ghost var asking := driver.asked;
        PatientPart(old(driver.asked), begun, asking, asking + 1);
        var transient := driver.TransientError(session);
        assert driver.Noted(asking, AskedTransient(session));
        if !transient {
          return;
        }
        driver.Disconnect(session);
        attempt := attempt + 1;
      }
    }

    /** The session most scenarios start with: open if it gave a frame, and closed again if not. */
    method FirstSight() returns (session: nat, capture: Option<Capture>)
      requires driver.Valid()
      modifies driver`asked, driver`log, driver`now, driver`scenes, driver`open, driver`opens, driver`peak
      ensures driver.Valid() && Steady() && old(driver.asked) < driver.asked && old(driver.opens) < driver.opens
      ensures driver.scenes == old(driver.scenes) + Count(capture)
      ensures capture.None? ==> driver.open == old(driver.open)
      ensures capture.Some? ==>
        && session !in old(driver.open) && driver.open == old(driver.open) + {session}
        && capture.value.sight == Scene && driver.ShownBy(session, capture.value, old(driver.asked), driver.asked)
      ensures driver.SceneAt(old(driver.asked) + 1) ==>
        capture.Some? && capture.value.at == old(driver.asked) + 1 && driver.asked == old(driver.asked) + 2
      ensures capture.None? ==> Lasted(10000)
    {
      var elapsed;
      ghost var begun, clock;
      session, capture, elapsed, begun, clock := ConnectAndCapture(false);
      if capture.None? {
        driver.Disconnect(session);
      }
    }

    /** One session, for one valid frame, closed again by the last question. */
    method OneFrame() returns (capture: Option<Capture>)
      requires driver.Valid()
      modifies driver`asked, driver`log, driver`now, driver`scenes, driver`open, driver`opens, driver`peak
      ensures old(driver.asked) < driver.asked && old(driver.opens) < driver.opens
      ensures capture.Some? ==> OfOneSession(capture.value, old(driver.asked), old(driver.opens))
      ensures driver.scenes == old(driver.scenes) + Count(capture)
      ensures Tidy() && driver.opens <= old(driver.opens) + 2
      ensures driver.SceneAt(old(driver.asked) + 1) ==> capture.Some? && driver.asked == old(driver.asked) + 3
      ensures capture.None? ==> Lasted(10000)
    {
      ghost var begun, clock;
      var session, elapsed;
      session, capture, elapsed, begun, clock := ConnectAndCapture(false);
      driver.Disconnect(session);
    }

    /** A frame of a session opened since, which the last question closed. */
    ghost predicate OfOneSession(capture: Capture, start: nat, opens: nat)
      reads driver`asked, driver`log, driver`opens
    {
      && capture.sight == Scene && driver.asked > 0 && driver.Shown(capture, start, driver.asked - 1)
      && driver.Noted(driver.asked - 1, Closed(capture.session)) && opens <= capture.session < driver.opens
    }

    // ----- scenarios

    /** A passed outcome whose first capture has the size of the base mode. */
    predicate BaseSized(o: Outcome) {
      && o.status == Passed && |o.captures| == 1
      && o.captures[0].width == BASE_MODE.width && o.captures[0].height == BASE_MODE.height
    }

    /** Passes exactly if a frame came, with the time from the opening of the session it came from. */
    method ScenarioFirstFrame() returns (o: Outcome, ghost begun: nat, ghost clock: int)
      requires driver.Valid()
      modifies this`firstFrame, driver
      ensures Fresh(o.captures, old(driver.asked), driver.asked)
      ensures Tidy()
      ensures o.status == Passed <==> driver.scenes == old(driver.scenes) + 1
      ensures o.status == Passed ==> |o.captures| == 1 && Scenes(o.captures) && firstFrame.Some?
      ensures old(driver.asked) < driver.asked
      ensures o.status == Passed ==>
        && Opening(o.captures[0].session, begun, clock, old(driver.asked), old(driver.now),
                   driver.opens == old(driver.opens) + 2)
        && firstFrame == Some(driver.now - driver.Reply(driver.asked - 1).delay - Began(begun, clock))
      ensures o.status != Passed ==> o == Outcome(Failed, []) && firstFrame == old(firstFrame)
      ensures Starts(old(driver.asked)) ==>
        BaseSized(o) && firstFrame == Some(0) && driver.asked == old(driver.asked) + 3
      ensures o.status != Passed ==> Lasted(10000)
    {
      var session, capture, elapsed;
      session, capture, elapsed, begun, clock := ConnectAndCapture(false);
      driver.Disconnect(session);
      if capture.None? {
        o := Outcome(Failed, []);
        return;
      }
      firstFrame := Some(elapsed);
      o := Outcome(Passed, [capture.value]);
    }

    ghost predicate Changed(o: Outcome, session: nat, start: nat, waited: nat)
      reads driver`asked, driver`log
    {
      BothShown(o, session, start, waited) && o.captures[0].content != o.captures[1].content
    }

    /** Two frames of one session, one before and one after a second's wait. */
    ghost predicate BothShown(o: Outcome, session: nat, start: nat, waited: nat)
      reads driver`asked, driver`log
    {
      && |o.captures| == 2 && Scenes(o.captures)
      && driver.ShownBy(session, o.captures[0], start, waited) && driver.Noted(waited, Waited)
      && driver.ShownBy(session, o.captures[1], waited + 1, driver.asked)
    }

    /** Passes exactly if both captures came and their contents differ. */
    method ScenarioChangingFrames() returns (o: Outcome, ghost session: nat, ghost waited: nat)
      requires driver.Valid()
      modifies driver
      ensures Fresh(o.captures, old(driver.asked), driver.asked)
      ensures Tidy()
      ensures if driver.scenes == old(driver.scenes) + 2 then |o.captures| == 2 else o == Outcome(Failed, [])
      ensures o.status == Passed <==>
        driver.scenes == old(driver.scenes) + 2 && o.captures[0].content != o.captures[1].content
      ensures |o.captures| == 2 ==> BothShown(o, session, old(driver.asked), waited)
      ensures o.status == Passed ==> Changed(o, session, old(driver.asked), waited)
      ensures o.status != Passed ==> o.status == Failed
      ensures Changes(old(driver.asked)) ==> o.status == Passed && driver.asked == old(driver.asked) + 5
      ensures o.captures == [] ==> Lasted(6000)
    {
      ghost var start := driver.asked;
      var viewer, first := FirstSight();
      session, waited := viewer, driver.asked;
      if first.None? {
        o := Outcome(Failed, []);
        return;
      }
      o := SecondSight(viewer, first.value, start);
    }

    method SecondSight(session: nat, first: Capture, ghost start: nat) returns (o: Outcome)
      requires driver.Valid() && session in driver.open && first.sight == Scene
      requires start <= driver.asked && driver.ShownBy(session, first, start, driver.asked)
      modifies driver`asked, driver`log, driver`now, driver`scenes, driver`open
      ensures driver.Valid() && driver.open == old(driver.open) - {session}
      ensures Longer() && Fresh(o.captures, start, driver.asked)
      ensures driver.scenes <= old(driver.scenes) + 1
      ensures if driver.scenes == old(driver.scenes) + 1 then |o.captures| == 2 && o.captures[0] == first
        else o == Outcome(Failed, [])
      ensures |o.captures| == 2 ==> BothShown(o, session, start, old(driver.asked))
      ensures o.status == Passed <==>
        driver.scenes == old(driver.scenes) + 1 && first.content != o.captures[1].content
      ensures o.status != Passed ==> o.status == Failed
      ensures driver.SceneAt(old(driver.asked) + 1) ==>
        && driver.asked == old(driver.asked) + 3 && |o.captures| == 2
        && o.captures[1].content == driver.Reply(old(driver.asked) + 1).shot.value.content
      ensures o.captures == [] ==> Lasted(6000)
    {
      driver.Sleep(1000);
      var second := CaptureValid(session, driver.now + 5000);
      driver.Disconnect(session);
      if second.None? {
        return Outcome(Failed, []);
      }
      if first.content == second.value.content {
        return Outcome(Failed, [first, second.value]);
      }
      return Outcome(Passed, [first, second.value]);
    }

    /** One session, closed again, and whether the viewer called its failure transient. */
    method ReconnectOnce() returns (capture: Option<Capture>, transient: bool)
      requires driver.Valid()
      modifies driver`asked, driver`log, driver`now, driver`scenes, driver`open, driver`opens, driver`peak
      ensures Tidy() && driver.opens <= old(driver.opens) + 2 && old(driver.asked) + 2 <= driver.asked
      ensures driver.scenes == old(driver.scenes) + Count(capture)
      ensures capture.Some? ==> OfOneSession(capture.value, old(driver.asked), old(driver.opens))
      ensures capture.None? ==> Excused(driver.asked - 2, transient)
      ensures driver.SceneAt(old(driver.asked) + 1) ==> capture.Some? && driver.asked == old(driver.asked) + 3
      ensures capture.None? ==> Lasted(10000)
      ensures capture.None? && Patient(old(driver.asked), driver.asked) ==> transient
    {
      ghost var begun, clock;
      var session, elapsed;
      session, capture, elapsed, begun, clock := ConnectAndCapture(false);
      transient := false;
      if capture.None? {
        transient := driver.TransientError(session);
        assert driver.Noted(driver.asked - 1, AskedTransient(session));
      }
      driver.Disconnect(session);
    }

    /** The viewer was asked whether its failure was transient, and it was or not. */
    ghost predicate Excused(n: nat, transient: bool)
      reads driver`log
    {
      driver.Reply(n).yes == transient && exists session: nat :: driver.Noted(n, AskedTransient(session))
    }

    /** Twenty clean reconnects with at most three transient retries: it ends within 23 rounds, and passes
        exactly if twenty of them gave a frame. It fails only at a fourth round without one, or at one whose
        failure the viewer did not call transient. */
    method ScenarioReconnect() returns (o: Outcome, ghost rounds: nat)
      requires driver.Valid()
      modifies this`reconnectCycles, driver
      ensures Fresh(o.captures, old(driver.asked), driver.asked)
      ensures Tidy()
      ensures rounds <= 23
      ensures driver.opens <= old(driver.opens) + 2 * rounds
      ensures |o.captures| == driver.scenes - old(driver.scenes) <= rounds
      ensures o.status == Passed <==> driver.scenes == old(driver.scenes) + 20
      ensures o.status == Passed ==>
        Scenes(o.captures) && reconnectCycles == RECONNECT_CYCLES && OwnSessions(o.captures)
      ensures o.status != Passed ==> o.status == Failed && reconnectCycles == old(reconnectCycles)
      ensures o.status != Passed ==>
        && 2 <= driver.asked && rounds <= |o.captures| + 4
        && (rounds == |o.captures| + 4 || Excused(driver.asked - 2, false))
      ensures Reconnects(old(driver.asked)) ==> o.status == Passed && driver.asked == old(driver.asked) + 60
      ensures o.status != Passed ==> Lasted(40000)
    {
      ghost var start := driver.asked;
      var captures: seq<Capture> := [];
      var retries, cycle := 0, 0;
      rounds := 0;
      while cycle < RECONNECT_CYCLES
        invariant Tidy() && reconnectCycles == old(reconnectCycles)
        invariant Scenes(captures) && |captures| == cycle <= RECONNECT_CYCLES &&
          driver.scenes == old(driver.scenes) + cycle
        invariant Fresh(captures, start, driver.asked)
        invariant OwnSessions(captures) && forall c | c in captures :: c.session < driver.opens
        invariant rounds == cycle + retries && retries <= RECONNECT_TRANSIENT_RETRIES
        invariant driver.opens <= old(driver.opens) + 2 * rounds
        invariant Reconnects(start) ==> driver.asked == start + 3 * cycle
        invariant Lasted(10000 * retries)
        decreases RECONNECT_CYCLES - cycle, RECONNECT_TRANSIENT_RETRIES - retries
      {
        assert Reconnects(start) ==> driver.SceneAt(start + 3 * cycle + 1);
        var capture, transient := ReconnectOnce();
        rounds := rounds + 1;
        if capture.None? {
          if transient && retries < RECONNECT_TRANSIENT_RETRIES {
            retries := retries + 1;
            continue;
          }
          return Outcome(Failed, captures), rounds;
        }
        cycle := cycle + 1;
        captures := captures + [capture.value];
      }
      reconnectCycles := RECONNECT_CYCLES;
      return Outcome(Passed, captures), rounds;
    }

    /** Passes exactly if a frame came before the session is closed and another, of a later session, after it. */
    method ScenarioViewerKilled() returns (o: Outcome, ghost killed: nat)
      requires driver.Valid()
      modifies driver
      ensures Fresh(o.captures, old(driver.asked), driver.asked)
      ensures Tidy()
      ensures |o.captures| == driver.scenes - old(driver.scenes) && (|o.captures| == 1 ==> driver.asked > killed + 1)
      ensures o.status == Passed <==> driver.scenes == old(driver.scenes) + 2
      ensures o.status != Passed ==> o.status == Failed
      ensures o.status == Passed ==>
        && |o.captures| == 2 && Scenes(o.captures) && OwnSessions(o.captures)
        && driver.Shown(o.captures[0], old(driver.asked), killed)
        && driver.Noted(killed, Closed(o.captures[0].session))
        && driver.Shown(o.captures[1], killed + 1, driver.asked)
      ensures ShowsTwice(old(driver.asked)) ==> o.status == Passed && driver.asked == old(driver.asked) + 6
      ensures o.status != Passed ==> Lasted(10000)
    {
      var capture := OneFrame();
      killed := driver.asked - 1;
      if capture.None? {
        return Outcome(Failed, []), killed;
      }
      var after := OneFrame();
      if after.None? {
        return Outcome(Failed, [capture.value]), killed;
      }
      return Outcome(Passed, [capture.value, after.value]), killed;
    }

    predicate Another(before: Capture, after: Option<Capture>) {
      after.Some? && after.value.content != before.content
    }

    /** What an interruption leaves: the frame the surviving session still gave, if it was alive to be asked for one,
        and, if that was no other than the frame before, the frame of a new session opened after it was closed. */
    ghost predicate Resumed(before: Capture, session: nat, cut: nat, kept: Option<Capture>, closing: nat,
                            again: Option<Capture>)
      reads driver`asked, driver`log
    {
      && cut < closing && driver.Noted(cut + 1, AskedAlive(session)) && driver.Noted(closing, Closed(session))
      && (kept.Some? ==> Kept(kept.value, session, cut, closing))
      && (driver.Reply(cut + 1).yes && driver.SceneAt(cut + 2) ==> kept.Some?)
      && (again.Some? ==> Reopened(again.value, session, closing))
      && (Another(before, kept) ==> again.None?)
    }

    ghost predicate Kept(kept: Capture, session: nat, cut: nat, closing: nat)
      reads driver`log
    {
      kept.sight == Scene && driver.ShownBy(session, kept, cut + 1, closing) && driver.Reply(cut + 1).yes
    }

    ghost predicate Reopened(again: Capture, session: nat, closing: nat)
      reads driver`asked, driver`log
    {
      again.sight == Scene && again.session > session && driver.Shown(again, closing + 1, driver.asked)
    }

    /** How an interruption is judged: by another frame of the session, or else by one of a new session. */
    predicate Recovers(o: Outcome, before: Capture, kept: Option<Capture>, again: Option<Capture>) {
      o == if Another(before, kept) then Outcome(Passed, [before, kept.value])
           else if again.Some? then Outcome(Passed, [before, again.value])
           else Outcome(Failed, [before])
    }

    /** What follows an interruption of either kind: it passes exactly with another frame on the surviving session,
        or else with a clean reconnect. */
    method Recover(session: nat, before: Capture, budget: nat, ghost start: nat, ghost cut: nat)
      returns (o: Outcome, ghost kept: Option<Capture>, ghost closing: nat, ghost again: Option<Capture>)
      requires driver.Valid() && session in driver.open && before.sight == Scene
      requires start <= cut && driver.asked == cut + 1 && driver.ShownBy(session, before, start, cut)
      modifies driver
      ensures Longer() && Fresh(o.captures, start, driver.asked)
      ensures driver.Valid() && driver.open == old(driver.open) - {session}
      ensures old(driver.opens) <= driver.opens
      ensures old(driver.peak) <= driver.peak <= Max(old(driver.peak), |old(driver.open)|)
      ensures driver.mode == old(driver.mode) && driver.unsized == old(driver.unsized)
      ensures driver.unreported == old(driver.unreported)
      ensures driver.scenes == old(driver.scenes) + Count(kept) + Count(again)
      ensures Resumed(before, session, cut, kept, closing, again) && Recovers(o, before, kept, again)
      ensures Another(before, kept) || driver.opens > old(driver.opens)
      ensures driver.Reply(cut + 1).yes && Unlike(before, cut + 2) ==>
        o.status == Passed && driver.asked == cut + 4
      ensures kept.None? ==> Lasted(budget)
      ensures o.status != Passed ==> Lasted(10000)
    {
      hide Patient;
      var after;
      after, kept := Surviving(session, before, budget);
      closing, again := driver.asked, None;
      driver.Disconnect(session);
      assert driver.Noted(closing, Closed(session));
      if after.Some? {
        o := Outcome(Passed, [before, after.value]);
        return;
      }
      ghost var lost := driver.asked;
      o, again := Reconnected(before, session);
      PatientPart(old(driver.asked), old(driver.asked), closing, driver.asked);
      PatientPart(old(driver.asked), lost, driver.asked, driver.asked);
    }

    /** The frame of a new session in place of the one lost. */
    method Reconnected(before: Capture, ghost session: nat) returns (o: Outcome, ghost again: Option<Capture>)
      requires driver.Valid() && session < driver.opens && driver.asked > 0
      modifies driver
      ensures Tidy() && driver.opens > old(driver.opens)
      ensures driver.scenes == old(driver.scenes) + Count(again)
      ensures again.Some? ==> Reopened(again.value, session, old(driver.asked) - 1)
      ensures o == if again.Some? then Outcome(Passed, [before, again.value]) else Outcome(Failed, [before])
      ensures again.None? ==> Lasted(10000)
    {
      var reconnected := OneFrame();
      again := reconnected;
      o := if reconnected.None? then Outcome(Failed, [before]) else Outcome(Passed, [before, reconnected.value]);
    }

    method Surviving(session: nat, before: Capture, budget: nat)
      returns (after: Option<Capture>, ghost kept: Option<Capture>)
      requires session in driver.open
      modifies driver`asked, driver`log, driver`now, driver`scenes
      ensures Longer() && driver.scenes == old(driver.scenes) + Count(kept)
      ensures driver.Noted(old(driver.asked), AskedAlive(session))
      ensures kept.Some? ==>
        && kept.value.sight == Scene && driver.ShownBy(session, kept.value, old(driver.asked), driver.asked)
        && driver.Reply(old(driver.asked)).yes
      ensures after == if Another(before, kept) then kept else None
      ensures driver.Reply(old(driver.asked)).yes && driver.SceneAt(old(driver.asked) + 1) ==>
        kept.Some? && kept.value.at == old(driver.asked) + 1 && driver.asked == old(driver.asked) + 2
      ensures kept.None? ==> Lasted(budget)
    {
      after, kept := None, None;
      ghost var aliveAt := driver.asked;
      var alive := driver.Alive(session);
      assert driver.Noted(aliveAt, AskedAlive(session));
      if alive {
        after := CaptureValid(session, driver.now + budget);
        kept := after;
        if after.Some? && after.value.content == before.content {
          after := None;
        }
      }
    }

    /** Passes exactly with a frame before the viewer is paused and one after: another one or on a new session. */
    method ScenarioNetworkInterruption()
      returns (o: Outcome, ghost session: nat, ghost cut: nat, ghost before: Option<Capture>,
               ghost kept: Option<Capture>,
               ghost closing: nat, ghost again: Option<Capture>)
      requires driver.Valid()
      modifies driver
      ensures Fresh(o.captures, old(driver.asked), driver.asked)
      ensures Tidy()
      ensures driver.scenes == old(driver.scenes) + Count(before) + Count(kept) + Count(again)
      ensures before.None? ==> o == Outcome(Failed, []) && kept.None? && again.None? && driver.opens > old(driver.opens)
      ensures before.Some? ==>
        && Seen(before.value, session, old(driver.asked), cut) && driver.Noted(cut, Did(Pause))
        && Resumed(before.value, session, cut, kept, closing, again) && Recovers(o, before.value, kept, again)
      ensures Survives(old(driver.asked)) ==> o.status == Passed && driver.asked == old(driver.asked) + 6
      ensures kept.None? ==> Lasted(5000)
      ensures o.status != Passed ==> Lasted(10000)
    {
      ghost var start := driver.asked;
      var viewer, capture := FirstSight();
      session, cut, before, kept, closing, again := viewer, driver.asked, capture, None, 0, None;
      if capture.None? {
        o := Outcome(Failed, []);
        return;
      }
      driver.Act(Pause);
      assert driver.Noted(cut, Did(Pause));
      o, kept, closing, again := Recover(viewer, capture.value, INTERRUPTION_BUDGET, start, cut);
    }

    /** A frame of the session, shown between two questions. */
    ghost predicate Seen(c: Capture, session: nat, start: nat, end: nat)
      reads driver`log
    {
      c.sight == Scene && driver.ShownBy(session, c, start, end)
    }

    /** Passes exactly with a frame from a server that was restarted and passed its smoke checks. */
    method ScenarioServerRestart() returns (o: Outcome, ghost restarted: nat)
      requires driver.Valid() && driver.mode == BASE_MODE
      modifies driver
      ensures Fresh(o.captures, old(driver.asked), driver.asked)
      ensures Tidy()
      ensures restarted == old(driver.asked) && driver.Noted(restarted, Restarted)
      ensures driver.Noted(restarted + 1, AskedSmoke(BASE_MODE.width, BASE_MODE.height))
      ensures o.status == Passed <==> driver.Reply(restarted + 1).yes && driver.scenes == old(driver.scenes) + 1
      ensures o.status != Passed ==> o == Outcome(Failed, [])
      ensures driver.Reply(restarted + 1).yes ==> driver.opens > old(driver.opens)
      ensures o.status == Passed ==>
        && |o.captures| == 1 && Scenes(o.captures) && driver.Noted(restarted, Restarted)
        && driver.Smoked(restarted + 1, BASE_MODE, true) && driver.Shown(o.captures[0], restarted + 2, driver.asked)
      ensures Restarts(old(driver.asked)) ==> o.status == Passed && driver.asked == old(driver.asked) + 5
      ensures o.status != Passed ==> Lasted(10000)
    {
      restarted := driver.asked;
      driver.Restart();
      assert driver.Noted(restarted, Restarted);
      var healthy := driver.Smoke(BASE_MODE.width, BASE_MODE.height);
      assert driver.Smoked(restarted + 1, BASE_MODE, healthy);
      if !healthy {
        o := Outcome(Failed, []);
        return;
      }
      var capture := OneFrame();
      o := if capture.None? then Outcome(Failed, []) else Outcome(Passed, [capture.value]);
    }

    /** The size of the frames the viewer receives; a viewer that has a size report and gives none is
        an OSError. */
    method FramebufferSize(session: nat, capture: Capture) returns (size: Option<(nat, nat)>)
      requires session in driver.open
      modifies driver`asked, driver`log, driver`now, driver`unsized, driver`unreported
      ensures size == SizeOf(capture, old(driver.asked)) && old(driver.now) <= driver.now
      ensures driver.asked == old(driver.asked) + (if driver.abilities.reportsSize then 1 else 0)
      ensures if driver.abilities.reportsSize then driver.Asked(AskedSize(session)) else driver.log == old(driver.log)
      ensures driver.unreported == if driver.mode != HIGH_DPI_MODE && size.None? then old(driver.unreported) + 1
        else old(driver.unreported)
      ensures driver.unsized == if driver.mode == HIGH_DPI_MODE && size.None? then old(driver.unsized) + 1
        else old(driver.unsized)
    {
      if driver.abilities.reportsSize {
        size := driver.FramebufferSize(session);
      } else {
        size := Some((capture.width, capture.height));
      }
    }

    /** The size a viewer reports when asked, or else the size of its screenshot. */
    function SizeOf(capture: Capture, at: nat): Option<(nat, nat)> {
      if driver.abilities.reportsSize then driver.Reply(at).size else Some((capture.width, capture.height))
    }

    /** A viewer that can be asked for the size of its frames was asked. */
    ghost predicate SizeAsked(session: nat, at: nat)
      reads driver`asked, driver`log
    {
      driver.abilities.reportsSize ==> driver.Noted(at, AskedSize(session))
    }

    /** How a live resize is judged: by the frame after the change of mode, by whether the session is then alive, and by
        the size of that frame, asked for right after. */
    ghost predicate Resizes(v: Verdict, before: Capture, session: nat, resized: nat, after: Option<Capture>,
                            aliveAt: nat)
      reads driver`asked, driver`log
    {
      && driver.Noted(resized, ModeSet(RESIZED_MODE)) && resized < aliveAt && driver.Noted(aliveAt, AskedAlive(session))
      && (after.Some? ==> Seen(after.value, session, resized + 1, aliveAt))
      && (after.Some? && driver.Reply(aliveAt).yes ==> SizeAsked(session, aliveAt + 1))
      && v == ResizeVerdict(before, after, driver.Reply(aliveAt).yes,
                            if after.Some? then SizeOf(after.value, aliveAt + 1) else None)
    }

    function ResizeVerdict(before: Capture, after: Option<Capture>, alive: bool, size: Option<(nat, nat)>): Verdict {
      if after.None? || !alive then Returned(Outcome(Failed, [before]))
      else if size.None? then Raised
      else if size.value == (1280, 720) then Returned(Outcome(Passed, [before, after.value]))
      else Returned(Outcome(Failed, [before]))
    }

    /** The live resize. Its `finally` disconnects and restores the base mode whether or not the size
        is reported. It passes exactly if the connected viewer, still alive, shows a frame of the new size. */
    method ScenarioResize()
      returns (v: Verdict, ghost session: nat, ghost resized: nat, ghost before: Option<Capture>,
               ghost after: Option<Capture>, ghost aliveAt: nat)
      requires driver.Valid() && driver.mode == BASE_MODE
      modifies driver
      ensures v.Returned? ==> Fresh(v.outcome.captures, old(driver.asked), driver.asked)
      ensures Settled()
      ensures driver.unreported == old(driver.unreported) + if v.Raised? then 1 else 0
      ensures v.Raised? ==> driver.abilities.reportsSize && Can(CanResize)
      ensures v == Returned(Outcome(NotRun, [])) <==> !Can(CanResize)
      ensures driver.scenes == old(driver.scenes) + Count(before) + Count(after)
      ensures before.None? && Can(CanResize) ==> v == Returned(Outcome(Failed, [])) && driver.opens > old(driver.opens)
      ensures before.None? ==> after.None?
      ensures before.Some? ==>
        Seen(before.value, session, old(driver.asked), resized) &&
          Resizes(v, before.value, session, resized, after, aliveAt)
      ensures FollowsResize(old(driver.asked)) ==>
        v.Returned? && v.outcome.status == Passed && driver.asked == old(driver.asked) + 11
      ensures Can(CanResize) && after.None? ==> Lasted(10000)
      ensures before.Some? ==> Restored(session) && 0 < resized && driver.Noted(resized - 1, Did(LiveResize(true)))
    {
      hide Resizes, Follows;
      session, resized, before, after, aliveAt := 0, 0, None, None, 0;
      if !Can(CanResize) {
        v := Returned(Outcome(NotRun, []));
        return;
      }
      ghost var start := driver.asked;
      var viewer, first := FirstSight();
      session, before := viewer, first;
      if first.None? {
        v := Returned(Outcome(Failed, []));
        return;
      }
      v, resized, after, aliveAt := ResizeAndRestore(viewer, first.value, start);
    }

    /** From the mode change to the cleanup. */
    method ResizeAndRestore(session: nat, before: Capture, ghost start: nat)
      returns (v: Verdict, ghost resized: nat, ghost shown: Option<Capture>, ghost aliveAt: nat)
      requires driver.Valid() && session in driver.open && driver.mode == BASE_MODE
      requires start <= driver.asked && driver.ShownBy(session, before, start, driver.asked) && before.sight == Scene
      modifies driver`asked, driver`log, driver`now, driver`scenes, driver`mode, driver`unsized, driver`unreported,
        driver`open
      ensures driver.Valid() && driver.open == old(driver.open) - {session}
      ensures Longer() && driver.mode == BASE_MODE && driver.unsized == old(driver.unsized)
      ensures v.Returned? ==> Fresh(v.outcome.captures, start, driver.asked)
      ensures v.Raised? ==> driver.abilities.reportsSize
      ensures driver.unreported == old(driver.unreported) + if v.Raised? then 1 else 0
      ensures driver.scenes == old(driver.scenes) + Count(shown)
      ensures old(driver.asked) <= resized && Resizes(v, before, session, resized, shown, aliveAt)
      ensures v != Returned(Outcome(NotRun, []))
      ensures Follows(old(driver.asked)) ==>
        v.Returned? && v.outcome.status == Passed && driver.asked == old(driver.asked) + 9
      ensures shown.None? ==> Lasted(10000)
      ensures Restored(session) && 0 < resized && driver.Noted(resized - 1, Did(LiveResize(true)))
    {
      var after, alive, size;
      after, alive, size, resized, aliveAt := ResizeLive(session);
      shown := after;
      RestoreMode(session);
      if after.Some? && alive && size.None? {
        v := Raised;
      } else if !alive || after.None? || size != Some((RESIZED_MODE.width, RESIZED_MODE.height)) {
        v := Returned(Outcome(Failed, [before]));
      } else {
        v := Returned(Outcome(Passed, [before, after.value]));
      }
    }

    /** The last four questions: the live resize is over, the session closed, and the base mode set on
        an idle server. */
    ghost predicate Restored(session: nat)
      reads driver`asked, driver`log
    {
      && 4 <= driver.asked && driver.Noted(driver.asked - 4, Did(LiveResize(false)))
      && driver.Noted(driver.asked - 3, Closed(session)) && driver.Noted(driver.asked - 2, AskedIdle)
      && driver.Noted(driver.asked - 1, ModeSet(BASE_MODE))
    }

    /** The cleanup of the live resize. */
    method RestoreMode(session: nat)
      requires driver.Valid() && session in driver.open
      modifies driver`asked, driver`log, driver`now, driver`mode, driver`open
      ensures driver.Valid() && driver.open == old(driver.open) - {session} && Longer() && driver.mode == BASE_MODE
      ensures driver.asked == old(driver.asked) + 4
      ensures Restored(session)
    {
      ghost var start := driver.asked;
      driver.Act(LiveResize(false));
      assert driver.Noted(start, Did(LiveResize(false)));
      driver.Disconnect(session);
      assert driver.Noted(start + 1, Closed(session));
      var idle := driver.WaitIdle();
      assert driver.Noted(start + 2, AskedIdle);
      driver.SetMode(BASE_MODE);
    }

    /** The mode change itself, and the frame and the size that the connected viewer shows for it. */
    method ResizeLive(session: nat)
      returns (after: Option<Capture>, alive: bool, size: Option<(nat, nat)>, ghost resized: nat, ghost aliveAt: nat)
      requires session in driver.open
      modifies driver`asked, driver`log, driver`now, driver`scenes, driver`mode, driver`unsized, driver`unreported
      ensures Longer() && old(driver.asked) <= resized < aliveAt < driver.asked
      ensures driver.scenes == old(driver.scenes) + Count(after)
      ensures after.Some? ==> Seen(after.value, session, resized + 1, aliveAt)
      ensures driver.Noted(resized, ModeSet(RESIZED_MODE))
      ensures driver.Noted(aliveAt, AskedAlive(session)) && alive == driver.Reply(aliveAt).yes
      ensures after.Some? && alive ==> SizeAsked(session, aliveAt + 1)
      ensures size == if after.Some? && alive then SizeOf(after.value, aliveAt + 1) else None
      ensures driver.unsized == old(driver.unsized)
      ensures after.Some? && alive && size.None? ==> driver.abilities.reportsSize
      ensures driver.unreported == old(driver.unreported) + if after.Some? && alive && size.None? then 1 else 0
      ensures driver.SceneAt(old(driver.asked) + 2) ==> after.Some? && aliveAt == old(driver.asked) + 3
      ensures after.Some? && alive && driver.abilities.reportsSize ==> driver.asked == aliveAt + 2
      ensures after.None? ==> Lasted(10000)
      ensures resized == old(driver.asked) + 1 && driver.Noted(resized - 1, Did(LiveResize(true)))
    {
      ghost var start := driver.asked;
      driver.Act(LiveResize(true));
      assert driver.Noted(start, Did(LiveResize(true)));
      resized := driver.asked;
      driver.SetMode(RESIZED_MODE);
      assert driver.Noted(resized, ModeSet(RESIZED_MODE));
      after := CaptureValid(session, driver.now + FIRST_FRAME_BUDGET);
      aliveAt := driver.asked;
      alive := driver.Alive(session);
      assert driver.Noted(aliveAt, AskedAlive(session));
      size := None;
      if after.Some? && alive {
        ghost var sizeAt := driver.asked;
        size := FramebufferSize(session, after.value);
        assert driver.abilities.reportsSize ==> driver.Noted(sizeAt, AskedSize(session));
        assert size == SizeOf(after.value, sizeAt) && SizeAsked(session, sizeAt);
      }
    }

    /** What it takes for the 4K scenario to get as far as the viewer: the capability, an idle server, a
        fixture that passes its checks in the new mode, and a screenshot with the scene. */
    ghost predicate Reaches4K(start: nat, end: nat) {
      Can(CanResize) && driver.Reply(start).yes && driver.Reply(start + 2).yes && AlwaysScene(start + 3, end)
    }

    /** How the 4K scenario is judged, by the frame it got and the size of that frame. */
    ghost predicate Sized(v: Verdict, capture: Option<Capture>, sizeAt: nat) {
      && (v.Raised? <==> capture.Some? && SizeOf(capture.value, sizeAt).None?)
      && (v.Returned? && v.outcome.status == Passed <==>
            capture.Some? && SizeOf(capture.value, sizeAt) == Some((HIGH_DPI_MODE.width, HIGH_DPI_MODE.height)))
      && (v.Returned? && v.outcome.status != Passed ==> v.outcome.status == Failed)
    }

    lemma FailedUnsized()
      ensures Sized(Returned(Outcome(Failed, [])), None, 0)
    {
    }

    /** The 4K scenario leaves the fixture in its mode. It passes exactly with a frame of the 4K size. It asks for the
        size with the session open and nothing to close it: a viewer that leaves its size unreported there leaks the
        session. */
    method ScenarioHighDpi() returns (v: Verdict, ghost session: nat, ghost capture: Option<Capture>, ghost sizeAt: nat)
      requires driver.Valid() && driver.mode == BASE_MODE && currentMode == BASE_MODE
      modifies this`currentMode, driver
      ensures v.Returned? ==> Fresh(v.outcome.captures, old(driver.asked), driver.asked)
      ensures driver.Valid() && Steady() && currentMode == driver.mode
      ensures capture.None? ==> !Reaches4K(old(driver.asked), driver.asked)
      ensures capture.Some? ==>
        && driver.ShownBy(session, capture.value, old(driver.asked), driver.asked) &&
          old(driver.asked) <= sizeAt <= driver.asked
        && SizeAsked(session, sizeAt)
      ensures v == Returned(Outcome(NotRun, [])) <==> !Can(CanResize)
      ensures Can(CanResize) ==> Sized(v, capture, sizeAt) && driver.Noted(old(driver.asked), AskedIdle)
      ensures !Can(CanResize) ==> capture.None?
      ensures driver.scenes == old(driver.scenes) + Count(capture)
      ensures Renders4K(old(driver.asked)) ==>
        v.Returned? && v.outcome.status == Passed && driver.asked == old(driver.asked) + 7
      ensures v.Returned? ==> driver.open == old(driver.open) && driver.unsized == old(driver.unsized)
      ensures v.Raised? ==> driver.unsized == old(driver.unsized) + 1 && driver.abilities.reportsSize
      ensures driver.unreported == old(driver.unreported)
      ensures v.Raised? ==> exists s :: s !in old(driver.open) && driver.open == old(driver.open) + {s}
      ensures v.Returned? && v.outcome.status == Passed ==>
        && |v.outcome.captures| == 1 && Scenes(v.outcome.captures) && driver.mode == HIGH_DPI_MODE
        && capture == Some(v.outcome.captures[0])
        && SizeOf(capture.value, sizeAt) == Some((HIGH_DPI_MODE.width, HIGH_DPI_MODE.height))
      ensures Can(CanResize) && capture.None? ==> Lasted(10000)
    {
      hide Sized, Shows4K, SizeAsked, SizeOf;
      session, capture, sizeAt := 0, None, 0;
      FailedUnsized();
      if !Can(CanResize) {
        v := Returned(Outcome(NotRun, []));
        return;
      }
      var ready := Enter4K();
      if !ready {
        v := Returned(Outcome(Failed, []));
        return;
      }
      v, session, capture, sizeAt := ShowIn4K();
    }

    /** The change to the 4K mode, once the server is idle, and the smoke checks in it. */
    method Enter4K() returns (ready: bool)
      requires driver.mode == BASE_MODE && currentMode == BASE_MODE
      modifies this`currentMode, driver`asked, driver`log, driver`now, driver`mode
      ensures Longer() && currentMode == driver.mode && driver.Noted(old(driver.asked), AskedIdle)
      ensures ready <==> driver.Reply(old(driver.asked)).yes && driver.Reply(old(driver.asked) + 2).yes
      ensures ready ==> driver.asked == old(driver.asked) + 3 && driver.mode == HIGH_DPI_MODE
      ensures !ready ==> !Patient(old(driver.asked), driver.asked)
    {
      ghost var asking := driver.asked;
      var idle := driver.WaitIdle();
      assert driver.Noted(asking, AskedIdle);
      if !idle {
        return false;
      }
      driver.SetMode(HIGH_DPI_MODE);
      currentMode := HIGH_DPI_MODE;
      ready := driver.Smoke(HIGH_DPI_MODE.width, HIGH_DPI_MODE.height);
    }

    /** The viewer's part of the 4K scenario. */
    method ShowIn4K() returns (v: Verdict, ghost session: nat, ghost capture: Option<Capture>, ghost sizeAt: nat)
      requires driver.Valid() && driver.mode == HIGH_DPI_MODE
      modifies driver`asked, driver`log, driver`now, driver`scenes, driver`open, driver`opens, driver`peak,
        driver`unsized, driver`unreported
      ensures v.Returned? ==> Fresh(v.outcome.captures, old(driver.asked), driver.asked)
      ensures driver.Valid() && Steady()
      ensures capture.None? ==> !AlwaysScene(old(driver.asked), driver.asked)
      ensures capture.Some? ==>
        && driver.ShownBy(session, capture.value, old(driver.asked), driver.asked) &&
          old(driver.asked) <= sizeAt <= driver.asked
        && SizeAsked(session, sizeAt)
      ensures Sized(v, capture, sizeAt) && driver.scenes == old(driver.scenes) + Count(capture)
      ensures v != Returned(Outcome(NotRun, [])) && (v.Raised? ==> driver.abilities.reportsSize)
      ensures Shows4K(old(driver.asked)) ==>
        v.Returned? && v.outcome.status == Passed && driver.asked == old(driver.asked) + 4
      ensures v.Returned? ==> driver.open == old(driver.open) && driver.unsized == old(driver.unsized)
      ensures v.Raised? ==> driver.unsized == old(driver.unsized) + 1
      ensures driver.unreported == old(driver.unreported)
      ensures v.Raised? ==> exists s :: s !in old(driver.open) && driver.open == old(driver.open) + {s}
      ensures v.Returned? && v.outcome.status == Passed ==>
        && |v.outcome.captures| == 1 && Scenes(v.outcome.captures)
        && capture == Some(v.outcome.captures[0])
        && SizeOf(capture.value, sizeAt) == Some((HIGH_DPI_MODE.width, HIGH_DPI_MODE.height))
      ensures capture.None? ==> Lasted(10000)
    {
      ghost var start := driver.asked;
      ghost var begun, clock;
      var viewer, shot, elapsed;
      viewer, shot, elapsed, begun, clock := ConnectAndCapture(true);
      session, capture, sizeAt := viewer, shot, driver.asked;
      if shot.None? {
        driver.Disconnect(viewer);
        v := Returned(Outcome(Failed, []));
        return;
      }
      v := SizeIn4K(viewer, shot.value);
    }

    /** The size of the frame, asked for with the session open, and nothing to close it if there is no answer. */
    method SizeIn4K(session: nat, shot: Capture) returns (v: Verdict)
      requires driver.Valid() && session in driver.open && driver.mode == HIGH_DPI_MODE
      modifies driver`asked, driver`log, driver`now, driver`open, driver`unsized, driver`unreported
      ensures driver.Valid() && Longer() && driver.unreported == old(driver.unreported)
      ensures Sized(v, Some(shot), old(driver.asked)) && SizeAsked(session, old(driver.asked))
      ensures v.Returned? ==> v.outcome.captures == [shot]
      ensures if v.Raised? then driver.open == old(driver.open) && driver.unsized == old(driver.unsized) + 1
              else driver.open == old(driver.open) - {session} && driver.unsized == old(driver.unsized)
      ensures v.Returned? && driver.abilities.reportsSize ==> driver.asked == old(driver.asked) + 2
    {
      ghost var sizeAt := driver.asked;
      var size := FramebufferSize(session, shot);
      assert driver.abilities.reportsSize ==> driver.Noted(sizeAt, AskedSize(session));
      if size.None? {
        return Raised;
      }
      driver.Disconnect(session);
      return Returned(Outcome(
        if size == Some((HIGH_DPI_MODE.width, HIGH_DPI_MODE.height)) then Passed else Failed, [shot]));
    }

    /** A session that began when the portal was told how to answer and that ended with a reading of its
        log: the frame it showed, or none. */
    ghost predicate Answered(policy: PortalPolicy, capture: Option<Capture>, start: nat, end: nat)
      reads driver`asked, driver`log
    {
      && start + 2 < end && driver.Noted(start, Did(PortalMode(policy)))
      && driver.Noted(start + 1, AskedLog) && driver.Noted(end - 1, AskedLog)
      && (capture.Some? ==> capture.value.sight == Scene && driver.Shown(capture.value, start + 2, end - 1))
      && (capture.None? ==> driver.NoSceneBetween(start, Did(PortalMode(policy)), end - 1, AskedLog))
    }

    /** What the portal has logged when it is told how to answer. */
    method TellPortal(policy: PortalPolicy) returns (seen: seq<PortalEvent>)
      modifies driver`asked, driver`log, driver`now
      ensures Longer() && driver.asked == old(driver.asked) + 2 && driver.scenes == old(driver.scenes)
      ensures Tally(old(driver.asked), driver.scenes) in driver.log
      ensures driver.Noted(old(driver.asked), Did(PortalMode(policy))) && driver.Noted(old(driver.asked) + 1, AskedLog)
      ensures seen == driver.Reply(old(driver.asked) + 1).events
    {
      ghost var start := driver.asked;
      driver.Act(PortalMode(policy));
      assert driver.Noted(start, Did(PortalMode(policy)));
      seen := driver.PortalEvents();
      assert driver.Noted(start + 1, AskedLog);
    }

    /** Tells the portal how to answer and opens one session; the events are those the portal logged meanwhile. */
    method FrameUnder(policy: PortalPolicy) returns (capture: Option<Capture>, events: seq<PortalEvent>)
      requires driver.Valid()
      modifies driver`asked, driver`log, driver`now, driver`scenes, driver`open, driver`opens, driver`peak
      ensures Tidy()
      ensures Answered(policy, capture, old(driver.asked), driver.asked)
      ensures events == driver.NewEvents(old(driver.asked) + 1, driver.asked - 1)
      ensures driver.scenes == old(driver.scenes) + Count(capture) && old(driver.opens) < driver.opens
      ensures capture.None? ==> Tally(old(driver.asked), driver.scenes) in driver.log
      ensures driver.SceneAt(old(driver.asked) + 3) ==> capture.Some? && driver.asked == old(driver.asked) + 6
      ensures capture.None? ==> Lasted(10000)
    {
      ghost var start := driver.asked;
      var seen := TellPortal(policy);
      capture := OneFrame();
      ghost var end := driver.asked;
      var log := driver.PortalEvents();
      assert driver.Noted(end, AskedLog);
      events := Since(log, |seen|);
    }

    /** `_fresh_portal_state`: the fixture is restarted, with or without the token the portal stored. */
    method FreshPortalState(forget: bool) returns (healthy: bool)
      requires driver.mode == BASE_MODE
      modifies driver`asked, driver`log, driver`now, driver`mode
      ensures Longer() && driver.mode == BASE_MODE
      ensures driver.asked == old(driver.asked) + if forget then 3 else 2
      ensures healthy == driver.Reply(driver.asked - 1).yes
      ensures driver.Noted(driver.asked - 2, Restarted) && driver.Smoked(driver.asked - 1, BASE_MODE, healthy)
      ensures forget ==> driver.Noted(old(driver.asked), Did(PortalForget))
    {
      ghost var start := driver.asked;
      if forget {
        driver.Act(PortalForget);
        assert driver.Noted(start, Did(PortalForget));
      }
      ghost var restarted := driver.asked;
      driver.Restart();
      assert driver.Noted(restarted, Restarted);
      healthy := driver.Smoke(BASE_MODE.width, BASE_MODE.height);
    }

    /** Passes exactly with a frame from a session that the portal logged an approval for, on a fixture that passed its
        smoke checks. */
    method ScenarioPortalApprove() returns (o: Outcome, ghost asking: nat)
      requires driver.Valid() && driver.mode == BASE_MODE
      modifies driver
      ensures Fresh(o.captures, old(driver.asked), driver.asked)
      ensures Tidy()
      ensures asking == old(driver.asked) + 3 && asking <= driver.asked
      ensures driver.Noted(asking - 1, AskedSmoke(BASE_MODE.width, BASE_MODE.height))
      ensures o.status == Passed <==>
        && driver.Reply(asking - 1).yes && driver.scenes == old(driver.scenes) + 1
        && Holds(driver.NewEvents(asking + 1, driver.asked - 1), Approve)
      ensures driver.Reply(asking - 1).yes ==>
        driver.Noted(asking, Did(PortalMode(AnswerApprove))) && driver.opens > old(driver.opens)
      ensures o.status != Passed ==> o == Outcome(Failed, [])
      ensures o.status == Passed ==>
        && |o.captures| == 1 && Answered(AnswerApprove, Some(o.captures[0]), asking, driver.asked)
        && Holds(driver.NewEvents(asking + 1, driver.asked - 1), Approve)
      ensures driver.scenes == old(driver.scenes) ==> Lasted(10000)
    {
      var healthy := FreshPortalState(true);
      asking := driver.asked;
      if !healthy {
        o := Outcome(Failed, []);
        return;
      }
      var capture, events := FrameUnder(AnswerApprove);
      o := if capture.None? || !Holds(events, Approve) then Outcome(Failed, []) else Outcome(Passed, [capture.value]);
    }

    /** A denied session, up to the moment the portal approves again. */
    method DeniedFrame() returns (capture: Option<Capture>, denied: bool, ghost asking: nat, ghost approved: nat)
      requires driver.Valid()
      modifies driver`asked, driver`log, driver`now, driver`scenes, driver`open, driver`opens, driver`peak
      ensures Tidy() && approved + 1 == driver.asked && asking == old(driver.asked)
      ensures asking + 2 < approved && driver.Noted(asking, Did(PortalMode(AnswerDeny)))
      ensures driver.scenes == old(driver.scenes) + Count(capture) && old(driver.opens) < driver.opens
      ensures capture.Some? ==> driver.Shown(capture.value, old(driver.asked), approved)
      ensures denied == Holds(driver.NewEvents(asking + 1, approved - 1), Deny)
      ensures capture.None? && denied ==> Denied(asking, approved)
      ensures capture.None? ==> Lasted(10000)
      ensures driver.Noted(approved, Did(PortalMode(AnswerApprove)))
    {
      asking := driver.asked;
      var events;
      capture, events := FrameUnder(AnswerDeny);
      approved := driver.asked;
      driver.Act(PortalMode(AnswerApprove));
      assert driver.Noted(approved, Did(PortalMode(AnswerApprove)));
      denied := Holds(events, Deny);
    }

    /** Between the denial and the approval, the portal logged that it denied and the viewer showed no scene. */
    ghost predicate Denied(asking: nat, approved: nat)
      reads driver`asked, driver`log
    {
      && asking + 2 < approved && Holds(driver.NewEvents(asking + 1, approved - 1), Deny)
      && driver.NoSceneBetween(asking, Did(PortalMode(AnswerDeny)), approved, Did(PortalMode(AnswerApprove)))
    }

    /** Denied, the viewer must show no frame; only a later approval may. It passes exactly if the portal logged the
        denial, no frame came under it, and one came from the fixture restarted after it. */
    method ScenarioPortalDeny()
      returns (o: Outcome, ghost asking: nat, ghost approved: nat, ghost leaked: Option<Capture>)
      requires driver.Valid() && driver.mode == BASE_MODE
      modifies driver
      ensures Fresh(o.captures, old(driver.asked), driver.asked)
      ensures Tidy()
      ensures asking == old(driver.asked) + 3 && asking <= approved
      ensures driver.Noted(asking - 1, AskedSmoke(BASE_MODE.width, BASE_MODE.height))
      ensures o.status == Passed <==>
        && driver.Reply(asking - 1).yes && Holds(driver.NewEvents(asking + 1, approved - 1), Deny) && leaked.None?
        && driver.Reply(approved + 3).yes && driver.scenes == old(driver.scenes) + 1
      ensures leaked.Some? ==> driver.Shown(leaked.value, asking, approved)
      ensures driver.Reply(asking - 1).yes ==> asking < approved && driver.Noted(asking, Did(PortalMode(AnswerDeny)))
      ensures o.status != Passed ==> o.status == Failed
      ensures o.status == Passed ==>
        && |o.captures| == 1 && Scenes(o.captures) && Denied(asking, approved)
        && driver.Shown(o.captures[0], approved + 1, driver.asked)
      ensures leaked.None? ==> Lasted(10000)
      ensures leaked.None? && Holds(driver.NewEvents(asking + 1, approved - 1), Deny) && o.status != Passed ==>
        Lasted(20000)
      ensures driver.Reply(asking - 1).yes ==> driver.Noted(approved, Did(PortalMode(AnswerApprove)))
    {
      var healthy := FreshPortalState(true);
      asking, approved, leaked := driver.asked, driver.asked, None;
      if !healthy {
        o := Outcome(Failed, []);
        return;
      }
      var capture, denied;
      capture, denied, asking, approved := DeniedFrame();
      leaked := capture;
      if !denied {
        o := Outcome(Failed, []);
        return;
      }
      if capture.Some? {
        o := Outcome(Failed, [capture.value]);
        return;
      }
      o := FrameAfresh();
    }

    /** A frame from a restarted fixture, or a failure. */
    method FrameAfresh() returns (o: Outcome)
      requires driver.Valid() && driver.mode == BASE_MODE
      modifies driver
      ensures Tidy()
      ensures Fresh(o.captures, old(driver.asked), driver.asked) && Scenes(o.captures)
      ensures driver.scenes <= old(driver.scenes) + 1
      ensures o.status == Passed <==> driver.Reply(old(driver.asked) + 2).yes && driver.scenes == old(driver.scenes) + 1
      ensures o.status != Passed ==> o == Outcome(Failed, [])
      ensures o.status == Passed ==> |o.captures| == 1
      ensures o.status != Passed ==> Lasted(10000)
    {
      var healthy := FreshPortalState(true);
      if !healthy {
        return Outcome(Failed, []);
      }
      var recovered := OneFrame();
      o := if recovered.None? then Outcome(Failed, []) else Outcome(Passed, [recovered.value]);
    }

    /** Passes exactly with a persistent grant and then, after a restart, a frame without any prompt. */
    method ScenarioPortalRestore()
      returns (o: Outcome, ghost granting: nat, ghost restarted: nat, ghost granted: Option<Capture>,
               ghost again: Option<Capture>)
      requires driver.Valid() && driver.mode == BASE_MODE
      modifies driver
      ensures Fresh(o.captures, old(driver.asked), driver.asked)
      ensures Tidy()
      ensures granting == old(driver.asked) + 3 && granting <= restarted
      ensures driver.Noted(granting - 1, AskedSmoke(BASE_MODE.width, BASE_MODE.height))
      ensures driver.scenes == old(driver.scenes) + Count(granted) + Count(again)
      ensures if driver.Reply(granting - 1).yes then Restores(o, granting, restarted, granted, again)
              else o == Outcome(Failed, []) && granted.None? && again.None?
      ensures granted.None? || (Persists(driver.NewEvents(granting + 1, restarted - 1)) && again.None?) ==>
        Lasted(10000)
      ensures driver.Reply(granting - 1).yes ==>
        driver.asked > 0 && driver.Noted(driver.asked - 1, Did(PortalMode(AnswerApprove)))
    {
      var healthy := FreshPortalState(true);
      granting, restarted, granted, again := driver.asked, driver.asked, None, None;
      if !healthy {
        o := Outcome(Failed, []);
        return;
      }
      o, restarted, granted, again := GrantAndRestore();
    }

    /** How a restored grant is judged: by a frame under it and the portal's word that it is kept, and after the restart
        by the smoke checks, a frame, and no event in the portal's log. */
    ghost predicate Restores(o: Outcome, granting: nat, restarted: nat, granted: Option<Capture>,
                             again: Option<Capture>)
      reads driver`asked, driver`log
    {
      && granting + 2 < restarted && Answered(AnswerApprovePersist, granted, granting, restarted)
      && if granted.None? || !Persists(driver.NewEvents(granting + 1, restarted - 1)) then
        o == Outcome(Failed, []) && again.None?
         else RestoresAfter(o, granted.value, restarted, again)
    }

    ghost predicate RestoresAfter(o: Outcome, granted: Capture, restarted: nat, again: Option<Capture>)
      reads driver`asked, driver`log
    {
      && driver.Noted(restarted, Restarted) && driver.Smoked(restarted + 1, BASE_MODE, driver.Reply(restarted + 1).yes)
      && if !driver.Reply(restarted + 1).yes then o == Outcome(Failed, []) && again.None?
         else
           && restarted + 5 < driver.asked && Answered(AnswerNone, again, restarted + 2, driver.asked - 1)
           && o == if again.None? then Outcome(Failed, [granted])
                   else if driver.NewEvents(restarted + 3, driver.asked - 2) != [] then Outcome(Failed, [])
                   else Outcome(Passed, [granted, again.value])
    }

    /** From the grant on. */
    method GrantAndRestore()
      returns (o: Outcome, ghost restarted: nat, ghost granted: Option<Capture>, ghost again: Option<Capture>)
      requires driver.Valid() && driver.mode == BASE_MODE
      modifies driver
      ensures Fresh(o.captures, old(driver.asked), driver.asked)
      ensures Tidy() && old(driver.asked) < restarted
      ensures driver.scenes == old(driver.scenes) + Count(granted) + Count(again)
      ensures Restores(o, old(driver.asked), restarted, granted, again)
      ensures granted.None? || (Persists(driver.NewEvents(old(driver.asked) + 1, restarted - 1)) && again.None?) ==>
        Lasted(10000)
      ensures driver.asked > 0 && driver.Noted(driver.asked - 1, Did(PortalMode(AnswerApprove)))
    {
      ghost var granting := driver.asked;
      again := None;
      var capture, events := FrameUnder(AnswerApprovePersist);
      restarted, granted := driver.asked, capture;
      if capture.None? || !Persists(events) {
        driver.Act(PortalMode(AnswerApprove));
        o := Outcome(Failed, []);
        return;
      }
      o, again := RestoreAfterRestart(capture.value, granting, restarted);
    }

    /** A session with no one to answer a prompt; afterwards the portal approves again. */
    method Unprompted() returns (restored: Option<Capture>, prompts: seq<PortalEvent>)
      requires driver.Valid()
      modifies driver`asked, driver`log, driver`now, driver`scenes, driver`open, driver`opens, driver`peak
      ensures Tidy() && driver.scenes == old(driver.scenes) + Count(restored)
      ensures old(driver.asked) + 3 < driver.asked &&
        Answered(AnswerNone, restored, old(driver.asked), driver.asked - 1)
      ensures prompts == driver.NewEvents(old(driver.asked) + 1, driver.asked - 2)
      ensures restored.None? ==> Lasted(10000)
      ensures driver.asked > 0 && driver.Noted(driver.asked - 1, Did(PortalMode(AnswerApprove)))
    {
      restored, prompts := FrameUnder(AnswerNone);
      driver.Act(PortalMode(AnswerApprove));
    }

    /** A restart with the stored token kept, and a session with no one to answer a prompt. */
    method RestartUnprompted() returns (healthy: bool, restored: Option<Capture>, prompts: seq<PortalEvent>)
      requires driver.Valid() && driver.mode == BASE_MODE
      modifies driver
      ensures Tidy() && driver.scenes == old(driver.scenes) + Count(restored)
      ensures driver.Noted(old(driver.asked), Restarted) && driver.Smoked(old(driver.asked) + 1, BASE_MODE, healthy)
      ensures !healthy ==> restored.None?
      ensures healthy ==>
        && old(driver.asked) + 5 < driver.asked
        && Answered(AnswerNone, restored, old(driver.asked) + 2, driver.asked - 1)
        && prompts == driver.NewEvents(old(driver.asked) + 3, driver.asked - 2)
      ensures restored.None? ==> Lasted(10000)
      ensures driver.asked > 0 && driver.Noted(driver.asked - 1, Did(PortalMode(AnswerApprove)))
    {
      healthy := FreshPortalState(false);
      if healthy {
        restored, prompts := Unprompted();
      } else {
        driver.Act(PortalMode(AnswerApprove));
        restored, prompts := None, [];
      }
    }

    method RestoreAfterRestart(capture: Capture, ghost granting: nat, ghost restarted: nat)
      returns (o: Outcome, ghost again: Option<Capture>)
      requires driver.Valid() && driver.mode == BASE_MODE && restarted == driver.asked
      requires Answered(AnswerApprovePersist, Some(capture), granting, restarted)
      requires Persists(driver.NewEvents(granting + 1, restarted - 1))
      modifies driver
      ensures Tidy() && driver.scenes == old(driver.scenes) + Count(again)
      ensures Fresh(o.captures, granting, driver.asked) && RestoresAfter(o, capture, restarted, again)
      ensures again.None? ==> Lasted(10000)
      ensures driver.asked > 0 && driver.Noted(driver.asked - 1, Did(PortalMode(AnswerApprove)))
    {
      var healthy, restored, prompts := RestartUnprompted();
      again := restored;
      if !healthy {
        o := Outcome(Failed, []);
        return;
      }
      if restored.None? {
        o := Outcome(Failed, [capture]);
        return;
      }
      if prompts != [] {
        o := Outcome(Failed, []);
        return;
      }
      o := Outcome(Passed, [capture, restored.value]);
    }

    /** Of the screenshots asked for with every second question, one holds the marker. */
    ghost predicate Acknowledged(m: Marker, start: nat, end: nat) {
      exists n {:trigger driver.MarkerAt(n, m)} :: start <= n < end && (n - start) % 2 == 0 && driver.MarkerAt(n, m)
    }

    /** Of the screenshots asked for with every second question, each can be judged, if it came. */
    ghost predicate AllClear(start: nat, end: nat) {
      forall n {:trigger Unclear(n)} | start <= n < end && (n - start) % 2 == 0 :: !Unclear(n)
    }

    /** Waits for the scene to acknowledge one input, for five seconds; `None` is an unreadable or too
        narrow capture. */
    method AwaitMarker(session: nat, name: Name) returns (o: Option<Outcome>)
      requires session in driver.open
      modifies driver`asked, driver`log, driver`now, driver`scenes
      ensures Longer() && old(driver.asked) < driver.asked && driver.Noted(old(driver.asked), Shot(session))
      ensures old(driver.scenes) <= driver.scenes
      ensures o.Some? ==> Fresh(o.value.captures, old(driver.asked), driver.asked)
      ensures o.Some? && o.value.status == Passed ==>
        |o.value.captures| == 1 && MarkerOf(name) in o.value.captures[0].markers
      ensures o.Some? ==> (o.value.status == Passed <==> Acknowledged(MarkerOf(name), old(driver.asked), driver.asked))
      ensures o.Some? && o.value.status != Passed ==>
        o.value == Outcome(Failed, []) && driver.now >= old(driver.now) + 5000
      ensures if o.None? then Unclear(driver.asked - 1)
        else AllClear(old(driver.asked), driver.asked) && o.value.status != NotRun
      ensures driver.Good(old(driver.asked)) ==>
        o.Some? && o.value.status == Passed && driver.asked == old(driver.asked) + 2
    {
      var deadline := driver.now + 5000;
      var found: set<Marker> := {};
      var path: Option<Capture> := None;
      ghost var begun := driver.asked;
      while MarkerOf(name) !in found && driver.now < deadline
        invariant Longer() && (driver.asked - begun) % 2 == 0 && old(driver.scenes) <= driver.scenes
        invariant if driver.asked == begun then driver.now == old(driver.now) else driver.Noted(begun, Shot(session))
        invariant MarkerOf(name) in found ==> path.Some? && MarkerOf(name) in path.value.markers
        invariant MarkerOf(name) in found <==> Acknowledged(MarkerOf(name), begun, driver.asked)
        invariant AllClear(begun, driver.asked)
        invariant driver.Good(begun) ==> driver.asked == if MarkerOf(name) in found then begun + 2 else begun
        invariant path.Some? ==> driver.ShownBy(session, path.value, begun, driver.asked)
        decreases deadline - driver.now
      {
        ghost var at := driver.asked;
        var shot := driver.Screenshot(session);
        assert driver.Noted(at, Shot(session));
        assert driver.MarkerAt(at, MarkerOf(name)) <==> shot.Some? && MarkerOf(name) in shot.value.markers;
        if shot.Some? {
          if shot.value.sight == Unreadable || shot.value.width < 6 {
            return None;
          }
          path, found := shot, shot.value.markers;
        }
        driver.Sleep(250);
      }
      if MarkerOf(name) in found {
        return Some(Outcome(Passed, [path.value]));
      }
      return Some(Outcome(Failed, []));
    }

    /** The answer, taken as a screenshot, cannot be read, or is too narrow to judge. */
    predicate Unclear(n: int) {
      0 <= n && driver.Reply(n).shot.Some? &&
        (driver.Reply(n).shot.value.sight == Unreadable || driver.Reply(n).shot.value.width < 6)
    }

    function ActionOf(name: Name): Action {
      match name
      case Keyboard => TypeText
      case ScrollName => Scroll
      case DragName => Drag
      case _ => Click
    }

    /** Each of the four inputs has an action and a marker of its own. */
    lemma InputsApart(name: Name)
      requires name in INPUTS
      ensures ActionOf(name) == TypeText <==> name == Keyboard
      ensures ActionOf(name) == Click <==> name == Pointer
      ensures ActionOf(name) == Scroll <==> name == ScrollName
      ensures ActionOf(name) == Drag <==> name == DragName
      ensures MarkerOf(name) == KeyboardMarker <==> name == Keyboard
      ensures MarkerOf(name) == PointerMarker <==> name == Pointer
      ensures MarkerOf(name) == ScrollMarker <==> name == ScrollName
      ensures MarkerOf(name) == DragMarker <==> name == DragName
    {
    }

    /** An input is passed exactly if the scene acknowledged it after it was made. */
    ghost predicate Judged(log: set<Entry>, name: Name, o: Outcome, session: nat, w: Window) {
      && (o.status == Passed <==> Acknowledged(MarkerOf(name), w.start, w.end))
      && o.status != NotRun && AllClear(w.start, w.end)
      && 2 <= w.start && Asking(w.start, Shot(session)) in log && Asking(w.start - 1, Did(ActionOf(name))) in log
      && (name == Keyboard ==> Asking(w.start - 2, Did(Click)) in log)
    }

    ghost predicate AllJudged(log: set<Entry>, outcomes: map<Name, Outcome>, session: nat, windows: map<Name, Window>) {
      outcomes.Keys == windows.Keys &&
        forall name | name in outcomes :: Judged(log, name, outcomes[name], session, windows[name])
    }

    lemma JudgedMore(before: set<Entry>, log: set<Entry>, outcomes: map<Name, Outcome>, session: nat,
                     windows: map<Name, Window>, name: Name, o: Outcome, w: Window)
      requires before <= log && AllJudged(before, outcomes, session, windows) && Judged(log, name, o, session, w)
      ensures AllJudged(log, outcomes[name := o], session, windows[name := w])
    {
      forall other | other in outcomes && other != name
        ensures Judged(log, other, outcomes[other], session, windows[other])
      {
        assert Judged(before, other, outcomes[other], session, windows[other]);
      }
    }

    lemma JudgedLater(before: set<Entry>, log: set<Entry>, outcomes: map<Name, Outcome>, session: nat,
                      windows: map<Name, Window>)
      requires before <= log && AllJudged(before, outcomes, session, windows)
      ensures AllJudged(log, outcomes, session, windows)
    {
      forall name | name in outcomes ensures Judged(log, name, outcomes[name], session, windows[name]) {
        assert Judged(before, name, outcomes[name], session, windows[name]);
      }
    }

    lemma NothingYet(session: nat, start: nat)
      ensures Marked(map[]) && AllPassed(map[]) && AllJudged(driver.log, map[], session, map[]) &&
        AllFresh(map[], start, driver.asked)
    {
    }

    lemma PassedAndMarked(outcomes: map<Name, Outcome>, name: Name, o: Outcome)
      requires Marked(outcomes)
      requires o.status == Passed ==> |o.captures| == 1 && MarkerOf(name) in o.captures[0].markers
      ensures Marked(outcomes[name := o])
      ensures AllPassed(outcomes) && o.status == Passed ==> AllPassed(outcomes[name := o])
    {
    }

    /** All four inputs through one session, which is closed however the waiting ends. Each passes exactly if the
        session, once it has shown a frame, acknowledges it. */
    method ScenarioInput()
      returns (r: Option<map<Name, Outcome>>, ghost session: nat, ghost before: Option<Capture>,
               ghost windows: map<Name, Window>)
      requires driver.Valid()
      modifies driver
      ensures r.Some? ==> AllFresh(r.value, old(driver.asked), driver.asked)
      ensures Tidy()
      ensures r.Some? ==> r.value.Keys == INPUTS
      ensures !driver.abilities.supportsInput ==>
        r.Some? && before.None? && forall name | name in INPUTS :: r.value[name] == Outcome(NotRun, [])
      ensures driver.abilities.supportsInput && before.None? ==>
        r.Some? && driver.opens > old(driver.opens) &&
          forall name | name in INPUTS :: r.value[name] == Outcome(Failed, [])
      ensures before.Some? <==> driver.scenes > old(driver.scenes)
      ensures before.Some? && r.Some? ==> AllJudged(driver.log, r.value, session, windows)
      ensures r.Some? ==> Marked(r.value)
      ensures driver.abilities.supportsInput && AnswersInputs(old(driver.asked)) ==>
        r.Some? && AllPassed(r.value) && driver.asked == old(driver.asked) + 16
      ensures before.Some? && r.Some? ==> AllPassed(r.value) || driver.now >= old(driver.now) + 5000
      ensures driver.abilities.supportsInput && before.None? ==> Lasted(10000)
      ensures r.None? ==> Unclear(driver.asked - 2)
      ensures driver.abilities.supportsInput && r.Some? ==> AllRun(r.value)
    {
      hide Marked, AllJudged, AllPassed, AllFresh, AnswersAll, AllRun, Unclear, Patient;
      session, before, windows := 0, None, map[];
      NoneShown(NotRun, driver.asked, driver.asked);
      if !driver.abilities.supportsInput {
        r := Some(map name | name in INPUTS :: Outcome(NotRun, []));
        return;
      }
      ghost var start := driver.asked;
      var viewer, capture := FirstSight();
      session, before := viewer, capture;
      NoneShown(Failed, start, driver.asked);
      if capture.None? {
        r := Some(map name | name in INPUTS :: Outcome(Failed, []));
        return;
      }
      r, windows := AwaitAndLeave(viewer, start);
    }

    /** None of the inputs was left out. */
    predicate AllRun(outcomes: map<Name, Outcome>) {
      forall name | name in outcomes :: outcomes[name].status != NotRun
    }

    lemma JudgedRun(log: set<Entry>, outcomes: map<Name, Outcome>, session: nat, windows: map<Name, Window>)
      requires AllJudged(log, outcomes, session, windows)
      ensures AllRun(outcomes)
    {
    }

    lemma NoneShown(status: Status, start: nat, end: nat)
      requires status != Passed
      ensures var outcomes := map name | name in INPUTS :: Outcome(status, []);
        Marked(outcomes) && AllFresh(outcomes, start, end) && (status != NotRun ==> AllRun(outcomes))
    {
    }

    predicate AllPassed(outcomes: map<Name, Outcome>) {
      forall name | name in outcomes :: outcomes[name].status == Passed
    }

    method AwaitAndLeave(session: nat, ghost start: nat)
      returns (r: Option<map<Name, Outcome>>, ghost windows: map<Name, Window>)
      requires driver.Valid() && session in driver.open && start <= driver.asked && driver.asked > 0
      modifies driver`asked, driver`log, driver`now, driver`scenes, driver`open
      ensures driver.Valid() && driver.open == old(driver.open) - {session} && Longer() &&
        old(driver.scenes) <= driver.scenes
      ensures r.Some? ==> AllFresh(r.value, start, driver.asked)
      ensures r.Some? ==> r.value.Keys == INPUTS && Marked(r.value) && AllJudged(driver.log, r.value, session, windows)
      ensures AnswersAll(old(driver.asked)) ==>
        r.Some? && AllPassed(r.value) && driver.asked == old(driver.asked) + 14
      ensures r.Some? ==> AllPassed(r.value) || driver.now >= old(driver.now) + 5000
      ensures r.None? ==> Unclear(driver.asked - 2)
      ensures r.Some? ==> AllRun(r.value)
    {
      r, windows := AwaitAll(session, start);
      ghost var mid, log := driver.asked, driver.log;
      driver.Disconnect(session);
      if r.Some? {
        FreshLater(r.value, log, driver.log, start, mid, driver.asked);
        JudgedLater(log, driver.log, r.value, session, windows);
        JudgedRun(driver.log, r.value, session, windows);
      }
    }

    /** One input made through the viewer; text goes where a click has put the focus. */
    method Enter(name: Name)
      requires name in INPUTS
      modifies driver`asked, driver`log, driver`now
      ensures Longer() && driver.asked == old(driver.asked) + if name == Keyboard then 2 else 1
      ensures driver.Noted(driver.asked - 1, Did(ActionOf(name)))
      ensures name == Keyboard ==> driver.Noted(driver.asked - 2, Did(Click))
    {
      ghost var start := driver.asked;
      driver.Act(if name == ScrollName then Scroll else if name == DragName then Drag else Click);
      assert driver.Noted(start, Did(if name == ScrollName then Scroll else if name == DragName then Drag else Click));
      if name == Keyboard {
        driver.Act(TypeText);
        assert driver.Noted(start + 1, Did(TypeText));
      }
    }

    /** One input made through the viewer, and waited for. */
    method MakeInput(session: nat, name: Name) returns (o: Option<Outcome>, ghost window: Window)
      requires session in driver.open && name in INPUTS && driver.asked > 0
      modifies driver`asked, driver`log, driver`now, driver`scenes
      ensures Longer() && old(driver.scenes) <= driver.scenes
      ensures o.Some? ==> Fresh(o.value.captures, old(driver.asked), driver.asked)
      ensures o.Some? && o.value.status == Passed ==>
        |o.value.captures| == 1 && MarkerOf(name) in o.value.captures[0].markers
      ensures o.Some? ==> Judged(driver.log, name, o.value, session, window)
      ensures var n := old(driver.asked) + if name == Keyboard then 2 else 1;
        driver.Good(n) ==> o.Some? && o.value.status == Passed && driver.asked == n + 2
      ensures o.Some? && o.value.status != Passed ==> driver.now >= old(driver.now) + 5000
      ensures o.None? ==> Unclear(driver.asked - 1)
    {
      hide Acknowledged, AllClear, Unclear;
      Enter(name);
      ghost var shooting := driver.asked;
      o := AwaitMarker(session, name);
      window := Window(shooting, driver.asked);
    }

    method AwaitAll(session: nat, ghost start: nat)
      returns (r: Option<map<Name, Outcome>>, ghost windows: map<Name, Window>)
      requires session in driver.open && start <= driver.asked && driver.asked > 0
      modifies driver`asked, driver`log, driver`now, driver`scenes
      ensures Longer() && old(driver.scenes) <= driver.scenes
      ensures r.Some? ==> AllFresh(r.value, start, driver.asked)
      ensures r.Some? ==> r.value.Keys == INPUTS && Marked(r.value) && AllJudged(driver.log, r.value, session, windows)
      ensures AnswersAll(old(driver.asked)) ==>
        r.Some? && AllPassed(r.value) && driver.asked == old(driver.asked) + 13
      ensures r.Some? ==> AllPassed(r.value) || driver.now >= old(driver.now) + 5000
      ensures r.None? ==> Unclear(driver.asked - 1)
    {
      hide Judged, AllJudged, Marked, AllPassed, AllFreshIn;
      var outcomes: map<Name, Outcome> := map[];
      windows := map[];
      NothingYet(session, start);
      ghost var begun := driver.asked;
      for i := 0 to |INPUT_NAMES|
        invariant outcomes.Keys == (set k | k in INPUT_NAMES[..i]) && Marked(outcomes)
        invariant AllJudged(driver.log, outcomes, session, windows)
        invariant Longer() && AllFresh(outcomes, start, driver.asked) && old(driver.scenes) <= driver.scenes
        invariant AllPassed(outcomes) || driver.now >= old(driver.now) + 5000
        invariant AnswersAll(begun) ==>
          AllPassed(outcomes) && driver.asked == begun + if i == 0 then 0 else 3 * i + 1
      {
        var name := INPUT_NAMES[i];
        assert i == 0 <==> name == Keyboard;
        assert AnswersAll(begun) ==> driver.Good(begun + 3 * i + 2);
        ghost var mid, log := driver.asked, driver.log;
        var o;
        ghost var window;
        o, window := MakeInput(session, name);
        if o.None? {
          return None, windows;
        }
        assert INPUT_NAMES[..i + 1] == INPUT_NAMES[..i] + [name];
        FreshAdded(outcomes, log, name, o.value, start, mid, driver.asked);
        JudgedMore(log, driver.log, outcomes, session, windows, name, o.value, window);
        PassedAndMarked(outcomes, name, o.value);
        outcomes := outcomes[name := o.value];
        windows := windows[name := window];
      }
      assert INPUT_NAMES[..|INPUT_NAMES|] == INPUT_NAMES;
      return Some(outcomes), windows;
    }

    /** How the lock is judged: by a capture without the scene while it is locked, by whether the session is alive right
        after it, by a frame after the secret was typed, and by whether the session is alive right after that. */
    function LockOutcome(before: Capture, hidden: Option<Capture>, restored: Option<Capture>): Outcome {
      if hidden.None? then Outcome(Failed, [before])
      else if !driver.Reply(hidden.value.at + 1).yes || restored.None? || !driver.Reply(restored.value.at + 1).yes then
        Outcome(Failed, [hidden.value])
      else Outcome(Passed, [before, hidden.value, restored.value])
    }

    /** The captures it is judged by are the session's: the first while locked that can be read and shows no scene, if
        there was one in ten seconds, and the first with the scene after the secret. */
    ghost predicate LockSeen(session: nat, locked: nat, dark: nat, unlocked: nat, hidden: Option<Capture>,
                             restored: Option<Capture>)
      reads driver`asked, driver`log, driver`scenes
    {
      && driver.Noted(locked, Did(Lock))
      && (if hidden.Some? then Dark(session, hidden.value, locked, unlocked) else NeverHidden(locked + 1, dark))
      && if hidden.Some? && driver.Reply(hidden.value.at + 1).yes then Relit(session, unlocked, restored)
        else restored.None?
    }

    ghost predicate Dark(session: nat, hidden: Capture, locked: nat, unlocked: nat)
      reads driver`log
    {
      && hidden.sight == NoScene && driver.ShownBy(session, hidden, locked + 1, unlocked) && hidden.at + 1 < unlocked
      && driver.Noted(hidden.at + 1, AskedAlive(session))
    }

    ghost predicate Relit(session: nat, unlocked: nat, restored: Option<Capture>)
      reads driver`asked, driver`log, driver`scenes
    {
      && Woken(unlocked)
      && if restored.Some? then
        Seen(restored.value, session, unlocked + 1, driver.asked) &&
          driver.Noted(restored.value.at + 1, AskedAlive(session))
         else Tally(unlocked, driver.scenes) in driver.log
    }

    /** The secret was typed, on GNOME and Plasma two seconds after a key, unless the viewer presses one itself. */
    ghost predicate Woken(unlocked: nat)
      reads driver`log
    {
      && driver.Noted(unlocked, Did(TypeSecret))
      && (NeedsKey() ==>
            2 <= unlocked && driver.Noted(unlocked - 2, Did(TypeText)) && driver.Noted(unlocked - 1, Waited))
    }

    predicate NeedsKey() {
      (fixture == Gnome || fixture == Plasma) && !driver.abilities.wakesOwnLockScreen
    }

    /** Only the lock screens of GNOME and Plasma need a key, and from the runner only if the viewer presses none. */
    lemma NeedsKeyExactly()
      ensures NeedsKey() <==> fixture in [Gnome, Plasma] && !driver.abilities.wakesOwnLockScreen
    {
    }

    /** Locks the desktop, and unlocks it through the viewer. */
    method ScenarioLock()
      returns (o: Outcome, ghost session: nat, ghost locked: nat, ghost dark: nat, ghost unlocked: nat,
               ghost before: Option<Capture>, ghost hidden: Option<Capture>, ghost restored: Option<Capture>)
      requires driver.Valid()
      modifies driver
      ensures Fresh(o.captures, old(driver.asked), driver.asked)
      ensures Tidy()
      ensures !(Can(CanLock) && driver.abilities.supportsInput) <==> o == Outcome(NotRun, [])
      ensures before.None? ==> o.captures == [] && o.status != Passed && driver.scenes == old(driver.scenes)
      ensures before.None? && o.status != NotRun ==> driver.opens > old(driver.opens)
      ensures before.Some? ==>
        && Seen(before.value, session, old(driver.asked), locked) &&
          LockSeen(session, locked, dark, unlocked, hidden, restored)
        && dark + 2 == driver.asked && o == LockOutcome(before.value, hidden, restored)
      ensures LocksAndUnlocks(old(driver.asked)) ==> o.status == Passed && driver.asked == old(driver.asked) + 10
      ensures o.status != NotRun && (before.None? || hidden.None? || restored.None?) ==> Lasted(10000)
      ensures before.Some? ==> driver.Noted(dark, Closed(session)) && driver.Noted(dark + 1, Did(ForceUnlock))
    {
      hide LockSeen, Yields;
      session, locked, dark, unlocked, before, hidden, restored := 0, 0, 0, 0, None, None, None;
      if !Can(CanLock) || !driver.abilities.supportsInput {
        o := Outcome(NotRun, []);
        return;
      }
      ghost var start := driver.asked;
      var viewer, first := FirstSight();
      session, locked, before := viewer, driver.asked, first;
      if first.None? {
        o := Outcome(Failed, []);
        return;
      }
      o, dark, unlocked, hidden, restored := LockAndLeave(viewer, first.value, start);
    }

    /** The fixture is never left locked. */
    method LockAndLeave(session: nat, before: Capture, ghost start: nat)
      returns (o: Outcome, ghost dark: nat, ghost unlocked: nat, ghost hidden: Option<Capture>,
               ghost restored: Option<Capture>)
      requires driver.Valid() && session in driver.open && before.sight == Scene
      requires start <= driver.asked && driver.ShownBy(session, before, start, driver.asked)
      modifies driver`asked, driver`log, driver`now, driver`scenes, driver`open
      ensures driver.Valid() && driver.open == old(driver.open) - {session}
      ensures Longer() && Fresh(o.captures, start, driver.asked)
      ensures o == LockOutcome(before, hidden, restored) &&
        LockSeen(session, old(driver.asked), dark, unlocked, hidden, restored)
      ensures dark + 2 == driver.asked
      ensures Yields(old(driver.asked)) ==> o.status == Passed && driver.asked == old(driver.asked) + 8
      ensures hidden.None? || restored.None? ==> Lasted(10000)
      ensures driver.Noted(dark, Closed(session)) && driver.Noted(dark + 1, Did(ForceUnlock))
    {
      o, unlocked, hidden, restored := LockAndUnlock(session, before, start);
      dark := driver.asked;
      driver.Disconnect(session);
      assert driver.Noted(dark, Closed(session));
      driver.Act(ForceUnlock);
      assert driver.Noted(dark + 1, Did(ForceUnlock));
    }

    method LockAndUnlock(session: nat, before: Capture, ghost start: nat)
      returns (o: Outcome, ghost unlocked: nat, ghost dark: Option<Capture>, ghost lit: Option<Capture>)
      requires session in driver.open && before.sight == Scene
      requires start <= driver.asked && driver.ShownBy(session, before, start, driver.asked)
      modifies driver`asked, driver`log, driver`now, driver`scenes
      ensures Longer() && Fresh(o.captures, start, driver.asked)
      ensures o == LockOutcome(before, dark, lit) &&
        LockSeen(session, old(driver.asked), driver.asked, unlocked, dark, lit)
      ensures Yields(old(driver.asked)) ==> o.status == Passed && driver.asked == old(driver.asked) + 6
      ensures dark.None? || lit.None? ==> Lasted(10000)
    {
      var hidden, alive := LockedFrame(session);
      unlocked, dark, lit := driver.asked, hidden, None;
      if hidden.None? {
        o := Outcome(Failed, [before]);
        return;
      }
      if !alive {
        o := Outcome(Failed, [hidden.value]);
        return;
      }
      var restored;
      restored, unlocked, lit := UnlockedFrame(session);
      o := if restored.None? then Outcome(Failed, [hidden.value])
        else Outcome(Passed, [before, hidden.value, restored.value]);
    }

    /** The capture while locked, and whether the session is still up. */
    method LockedFrame(session: nat) returns (hidden: Option<Capture>, alive: bool)
      requires session in driver.open
      modifies driver`asked, driver`log, driver`now, driver`scenes
      ensures Longer() && driver.Noted(old(driver.asked), Did(Lock))
      ensures if hidden.Some? then Dark(session, hidden.value, old(driver.asked), driver.asked)
              else NeverHidden(old(driver.asked) + 1, driver.asked)
      ensures hidden.Some? ==> alive == driver.Reply(hidden.value.at + 1).yes
      ensures driver.HiddenAt(old(driver.asked) + 1) ==>
        hidden.Some? && hidden.value.at == old(driver.asked) + 1 && driver.asked == old(driver.asked) + 3
      ensures hidden.None? ==> driver.now >= old(driver.now) + 10000
    {
      ghost var locked := driver.asked;
      driver.Act(Lock);
      assert driver.Noted(locked, Did(Lock));
      hidden := SceneHidden(session, FIRST_FRAME_BUDGET);
      alive := false;
      if hidden.Some? {
        ghost var aliveAt := driver.asked;
        alive := driver.Alive(session);
        assert driver.Noted(aliveAt, AskedAlive(session));
      }
    }

    /** GNOME and Plasma ask for the secret only after a key, which some viewers press themselves. */
    method UnlockedFrame(session: nat)
      returns (restored: Option<Capture>, ghost unlocked: nat, ghost lit: Option<Capture>)
      requires session in driver.open
      modifies driver`asked, driver`log, driver`now, driver`scenes
      ensures Longer() && old(driver.asked) <= unlocked && Relit(session, unlocked, lit)
      ensures restored == if lit.Some? && driver.Reply(lit.value.at + 1).yes then lit else None
      ensures !NeedsKey() && driver.SceneAt(old(driver.asked) + 1) ==>
        lit.Some? && lit.value.at == old(driver.asked) + 1 && driver.asked == old(driver.asked) + 3
      ensures lit.None? ==> Lasted(10000)
    {
      if (fixture == Gnome || fixture == Plasma) && !driver.abilities.wakesOwnLockScreen {
        WakeLockScreen();
      }
      unlocked := driver.asked;
      restored, lit := FrameAfterSecret(session);
    }

    method WakeLockScreen()
      modifies driver`asked, driver`log, driver`now
      ensures Longer() && driver.asked == old(driver.asked) + 2
      ensures driver.Noted(old(driver.asked), Did(TypeText)) && driver.Noted(old(driver.asked) + 1, Waited)
    {
      ghost var start := driver.asked;
      driver.Act(TypeText);
      assert driver.Noted(start, Did(TypeText));
      driver.Sleep(2000);
      assert driver.Noted(start + 1, Waited);
    }

    /** The secret, and a frame after it from a session that is still up. */
    method FrameAfterSecret(session: nat) returns (restored: Option<Capture>, ghost lit: Option<Capture>)
      requires session in driver.open
      modifies driver`asked, driver`log, driver`now, driver`scenes
      ensures Longer() && driver.Noted(old(driver.asked), Did(TypeSecret))
      ensures if lit.Some? then
        Seen(lit.value, session, old(driver.asked) + 1, driver.asked) &&
          driver.Noted(lit.value.at + 1, AskedAlive(session))
              else Tally(old(driver.asked), driver.scenes) in driver.log
      ensures restored == if lit.Some? && driver.Reply(lit.value.at + 1).yes then lit else None
      ensures driver.SceneAt(old(driver.asked) + 1) ==>
        lit.Some? && lit.value.at == old(driver.asked) + 1 && driver.asked == old(driver.asked) + 3
      ensures lit.None? ==> Lasted(10000)
    {
      ghost var unlocked := driver.asked;
      driver.Act(TypeSecret);
      assert driver.Noted(unlocked, Did(TypeSecret));
      restored := CaptureValid(session, driver.now + FIRST_FRAME_BUDGET);
      lit := restored;
      if restored.Some? {
        ghost var aliveAt := driver.asked;
        var alive := driver.Alive(session);
        assert driver.Noted(aliveAt, AskedAlive(session));
        if !alive {
          restored := None;
        }
      }
    }

    /** How the change of monitors is judged: by a frame while the second one was there, another after it went, and
        whether the session is alive then. */
    ghost predicate Replugs(o: Outcome, before: Capture, session: nat, plugged: nat, unplugged: nat, aliveAt: nat,
                            during: Option<Capture>, after: Option<Capture>)
      reads driver`log
    {
      && Plugged(session, plugged, unplugged, aliveAt, during, after) && driver.Noted(aliveAt, AskedAlive(session))
      && o == if driver.Reply(aliveAt).yes && during.Some? && Another(before, after)
              then Outcome(Passed, [before, during.value, after.value]) else Outcome(Failed, [before])
    }

    ghost predicate Plugged(session: nat, plugged: nat, unplugged: nat, end: nat, during: Option<Capture>,
                            after: Option<Capture>)
      reads driver`log
    {
      && plugged < unplugged < end
      && driver.Noted(plugged, Did(Hotplug(true))) && driver.Noted(unplugged, Did(Hotplug(false)))
      && (during.Some? ==> Seen(during.value, session, plugged + 1, unplugged))
      && (after.Some? ==> Seen(after.value, session, unplugged + 1, end))
    }

    /** Passes exactly with a frame before, during and after the second monitor, the last another than
        the first, and the session alive at the end. */
    method ScenarioMonitorChange()
      returns (o: Outcome, ghost session: nat, ghost plugged: nat, ghost unplugged: nat,
               ghost before: Option<Capture>, ghost during: Option<Capture>, ghost after: Option<Capture>)
      requires driver.Valid()
      modifies driver
      ensures Fresh(o.captures, old(driver.asked), driver.asked)
      ensures Tidy() && old(driver.asked) <= driver.asked
      ensures !Can(CanHotplug) <==> o == Outcome(NotRun, [])
      ensures driver.scenes == old(driver.scenes) + Count(before) + Count(during) + Count(after)
      ensures before.None? ==> o.captures == [] && o.status != Passed && during.None? && after.None?
      ensures before.None? && Can(CanHotplug) ==> driver.opens > old(driver.opens)
      ensures before.Some? ==>
        && Seen(before.value, session, old(driver.asked), plugged) && 2 <= driver.asked
        && Replugs(o, before.value, session, plugged, unplugged, driver.asked - 2, during, after)
      ensures KeepsMonitor(old(driver.asked)) ==>
        o.status == Passed && driver.asked == old(driver.asked) + 10
      ensures Can(CanHotplug) && (before.None? || during.None? || after.None?) ==> Lasted(10000)
    {
      hide Replugs;
      session, plugged, unplugged, before, during, after := 0, 0, 0, None, None, None;
      if !Can(CanHotplug) {
        o := Outcome(NotRun, []);
        return;
      }
      ghost var start := driver.asked;
      var viewer, first := FirstSight();
      session, plugged, before := viewer, driver.asked, first;
      if first.None? {
        o := Outcome(Failed, []);
        return;
      }
      o, unplugged, during, after := ReplugAndLeave(viewer, first.value, start);
    }

    method ReplugAndLeave(session: nat, before: Capture, ghost start: nat)
      returns (o: Outcome, ghost unplugged: nat, ghost during: Option<Capture>, ghost later: Option<Capture>)
      requires driver.Valid() && session in driver.open && before.sight == Scene
      requires start <= driver.asked && driver.ShownBy(session, before, start, driver.asked)
      modifies driver`asked, driver`log, driver`now, driver`scenes, driver`open
      ensures driver.Valid() && driver.open == old(driver.open) - {session}
      ensures Longer() && Fresh(o.captures, start, driver.asked)
      ensures driver.scenes == old(driver.scenes) + Count(during) + Count(later)
      ensures 2 <= driver.asked &&
        Replugs(o, before, session, old(driver.asked), unplugged, driver.asked - 2, during, later)
      ensures driver.SceneAt(old(driver.asked) + 2) && driver.SceneAt(old(driver.asked) + 5) ==>
        driver.asked == old(driver.asked) + 8 && during.Some? && later.Some? && later.value.at == old(driver.asked) + 5
      ensures o.status != NotRun
      ensures Unlike(before, old(driver.asked) + 5) && driver.Reply(old(driver.asked) + 6).yes ==>
        driver.SceneAt(old(driver.asked) + 2) ==> o.status == Passed
      ensures during.None? || later.None? ==> Lasted(10000)
    {
      var withSecond, after;
      withSecond, after, unplugged := Replug(session);
      during, later := withSecond, after;
      ghost var aliveAt := driver.asked;
      var alive := driver.Alive(session);
      assert driver.Noted(aliveAt, AskedAlive(session));
      driver.Disconnect(session);
      if !alive || withSecond.None? || after.None? || before.content == after.value.content {
        o := Outcome(Failed, [before]);
      } else {
        o := Outcome(Passed, [before, withSecond.value, after.value]);
      }
    }

    method Replug(session: nat) returns (during: Option<Capture>, after: Option<Capture>, ghost unplugged: nat)
      requires session in driver.open
      modifies driver`asked, driver`log, driver`now, driver`scenes
      ensures Longer() && driver.scenes == old(driver.scenes) + Count(during) + Count(after)
      ensures Plugged(session, old(driver.asked), unplugged, driver.asked, during, after)
      ensures driver.SceneAt(old(driver.asked) + 2) && driver.SceneAt(old(driver.asked) + 5) ==>
        driver.asked == old(driver.asked) + 6 && during.Some? && after.Some? && after.value.at == old(driver.asked) + 5
      ensures during.None? || after.None? ==> Lasted(10000)
    {
      during := FrameWith(session, true);
      unplugged := driver.asked;
      after := FrameWith(session, false);
    }

    /** A second monitor comes or goes, and a second later a frame. */
    method FrameWith(session: nat, attach: bool) returns (capture: Option<Capture>)
      requires session in driver.open
      modifies driver`asked, driver`log, driver`now, driver`scenes
      ensures Longer() && old(driver.asked) < driver.asked && driver.Noted(old(driver.asked), Did(Hotplug(attach)))
      ensures driver.scenes == old(driver.scenes) + Count(capture)
      ensures capture.Some? ==>
        capture.value.sight == Scene && driver.ShownBy(session, capture.value, old(driver.asked) + 1, driver.asked)
      ensures driver.SceneAt(old(driver.asked) + 2) ==>
        capture.Some? && capture.value.at == old(driver.asked) + 2 && driver.asked == old(driver.asked) + 3
      ensures capture.None? ==> Lasted(10000)
    {
      ghost var start := driver.asked;
      driver.Act(Hotplug(attach));
      assert driver.Noted(start, Did(Hotplug(attach)));
      driver.Sleep(1000);
      capture := CaptureValid(session, driver.now + FIRST_FRAME_BUDGET);
    }

    /** Passes exactly if the hypervisor says that the machine suspended and that it runs again, and the desktop then
        reaches the viewer again. */
    method ScenarioSuspendResume()
      returns (o: Outcome, ghost session: nat, ghost slept: nat, ghost before: Option<Capture>,
               ghost kept: Option<Capture>,
               ghost closing: nat, ghost again: Option<Capture>)
      requires driver.Valid()
      modifies driver
      ensures Fresh(o.captures, old(driver.asked), driver.asked)
      ensures Tidy()
      ensures !driver.abilities.supportsSuspend <==> o == Outcome(NotRun, [])
      ensures driver.scenes == old(driver.scenes) + Count(before) + Count(kept) + Count(again)
      ensures before.None? ==> o.captures == [] && o.status != Passed && kept.None? && again.None?
      ensures before.None? && driver.abilities.supportsSuspend ==> driver.opens > old(driver.opens)
      ensures before.Some? ==>
        Seen(before.value, session, old(driver.asked), slept) &&
          Wakes(o, before.value, session, slept, kept, closing, again)
      ensures SleepsWell(old(driver.asked)) ==>
        o.status == Passed && driver.asked == old(driver.asked) + 6
      ensures driver.abilities.supportsSuspend && before.None? ==> Lasted(10000)
      ensures before.Some? && Slept(slept) && (kept.None? || o.status != Passed) ==> Lasted(10000)
    {
      session, slept, before, kept, closing, again := 0, 0, None, None, 0, None;
      if !driver.abilities.supportsSuspend {
        o := Outcome(NotRun, []);
        return;
      }
      ghost var start := driver.asked;
      var viewer, first := FirstSight();
      session, slept, before := viewer, driver.asked, first;
      if first.None? {
        o := Outcome(Failed, []);
        return;
      }
      o, kept, closing, again := SleepAndWake(viewer, first.value, start);
    }

    /** How a suspend is judged: by the hypervisor's two answers, and then as an interruption. */
    ghost predicate Wakes(o: Outcome, before: Capture, session: nat, slept: nat, kept: Option<Capture>, closing: nat,
                          again: Option<Capture>)
      reads driver`asked, driver`log
    {
      && driver.Noted(slept, Suspended)
      && if Slept(slept) then Resumed(before, session, slept, kept, closing, again) && Recovers(o, before, kept, again)
         else o == Outcome(Failed, [before])
    }

    /** From the suspend to the cleanup. */
    method SleepAndWake(session: nat, before: Capture, ghost start: nat)
      returns (o: Outcome, ghost kept: Option<Capture>, ghost closing: nat, ghost again: Option<Capture>)
      requires driver.Valid() && session in driver.open && before.sight == Scene
      requires start <= driver.asked && driver.ShownBy(session, before, start, driver.asked)
      modifies driver
      ensures Longer() && Fresh(o.captures, start, driver.asked) && o.status != NotRun
      ensures driver.Valid() && driver.open == old(driver.open) - {session}
      ensures old(driver.opens) <= driver.opens
      ensures old(driver.peak) <= driver.peak <= Max(old(driver.peak), |old(driver.open)|)
      ensures driver.mode == old(driver.mode) && driver.unsized == old(driver.unsized)
      ensures driver.unreported == old(driver.unreported)
      ensures driver.scenes == old(driver.scenes) + Count(kept) + Count(again)
      ensures Wakes(o, before, session, old(driver.asked), kept, closing, again)
      ensures Slept(old(driver.asked)) && driver.Reply(old(driver.asked) + 1).yes &&
        Unlike(before, old(driver.asked) + 2)
        ==> o.status == Passed && driver.asked == old(driver.asked) + 4
      ensures Slept(old(driver.asked)) && o.status != Passed ==> Lasted(10000)
      ensures Slept(old(driver.asked)) && kept.None? ==> Lasted(10000)
    {
      ghost var slept := driver.asked;
      kept, closing, again := None, 0, None;
      var suspended, running := driver.Suspend();
      assert driver.Noted(slept, Suspended);
      if !suspended || !running {
        driver.Disconnect(session);
        o := Outcome(Failed, [before]);
        return;
      }
      o, kept, closing, again := Recover(session, before, FIRST_FRAME_BUDGET, start, slept);
    }

    /** The machine suspended, and runs again. */
    predicate Slept(n: nat) {
      driver.Reply(n).yes && driver.Reply(n).yesToo
    }

    // ----- a run without fault

    /** How many questions a scenario asks a fixture and a viewer without fault. */
    function Cost(name: Name): nat {
      match name
      case FirstFrame => 3
      case ChangingFrames => 5
      case Reconnect20 => 60
      case ViewerKilled => 6
      case NetworkInterruption => 6
      case ServerRestart => 5
      case LockName => 10
      case MonitorChange => 10
      case Resize => 11
      case _ => 0
    }

    /** From the n-th question on, the answers let the scenario pass. */
    ghost predicate Obliges(name: Name, n: nat) {
      match name
      case FirstFrame => Starts(n)
      case ChangingFrames => Changes(n)
      case Reconnect20 => Reconnects(n)
      case ViewerKilled => ShowsTwice(n)
      case NetworkInterruption => Survives(n)
      case ServerRestart => Restarts(n)
      case LockName => LocksAndUnlocks(n)
      case MonitorChange => KeepsMonitor(n)
      case Resize => FollowsResize(n)
      case _ => false
    }

    /** What a scenario without fault comes to: a pass, for the first frame one of the base size and in no time. */
    ghost predicate Eased(name: Name, o: Outcome, from: nat, to: nat)
      reads this`firstFrame
    {
      o.status == Passed && to == from + Cost(name) && (name == FirstFrame ==> BaseSized(o) && firstFrame == Some(0))
    }

    function Costs(names: seq<Name>): nat {
      if names == [] then 0 else Costs(names[..|names| - 1]) + Cost(names[|names| - 1])
    }

    ghost predicate AllOblige(names: seq<Name>, n: nat) {
      forall i | 0 <= i < |names| :: Obliges(names[i], n + Costs(names[..i]))
    }

    /** A group that is all to be run, and whose scenarios are all obliged. */
    ghost predicate Smooth(names: seq<Name>, before: map<Name, Outcome>, n: nat) {
      && only.None? && (forall i, j | 0 <= i < j < |names| :: names[i] != names[j])
      && (forall i | 0 <= i < |names| :: names[i] !in before) && AllOblige(names, n)
    }

    /** All that is decided is passed, and the scenarios to come are not decided. */
    predicate PassedToResize(outcomes: map<Name, Outcome>) {
      AllPassed(outcomes) && HighDpi200 !in outcomes && SuspendResume !in outcomes
    }

    predicate PassedToMonitor(outcomes: map<Name, Outcome>) {
      PassedToResize(outcomes) && Resize !in outcomes
    }

    predicate PassedToInput(outcomes: map<Name, Outcome>) {
      PassedToMonitor(outcomes) && LockName !in outcomes && MonitorChange !in outcomes
    }

    /** From the n-th question on, every answer lets the run go on without fault: the screenshot that is asked for while
        the desktop is locked does not show the scene, the two sizes are those of the modes, and all else is good. */
    ghost predicate Faultless(n: nat) {
      && only.None? && fixture != Plasma && Able() && driver.HiddenAt(n + 105) && driver.Reply(n + 105).yes
      && (forall m {:trigger driver.Good(m)} {:trigger driver.SceneAt(m)} {:trigger driver.Reply(m)}
            | n <= m < n + 147 && m != n + 105 :: driver.Good(m))
      && driver.Reply(n + 128).size == Some((RESIZED_MODE.width, RESIZED_MODE.height))
      && driver.Reply(n + 138).size == Some((HIGH_DPI_MODE.width, HIGH_DPI_MODE.height))
    }

    predicate Able() {
      && Can(CanResize) && Can(CanLock) && Can(CanHotplug) && !NeedsKey()
      && driver.abilities.supportsInput && driver.abilities.supportsSuspend
      && driver.abilities.reportsSize && !driver.abilities.canFit
    }

    /** One more scenario decided, and passed. */
    lemma PassedOne(before: map<Name, Outcome>, after: map<Name, Outcome>, name: Name)
      requires AllPassed(before) && Keeps(before, after) && after.Keys <= before.Keys + {name}
      requires name in after && after[name].status == Passed
      ensures AllPassed(after)
      ensures forall other | other !in before && other != name :: other !in after
    {
      forall other | other in after ensures after[other].status == Passed {
        assert other in before || other == name;
      }
    }

    lemma PassedLockAndMonitor(before: map<Name, Outcome>, locked: map<Name, Outcome>, after: map<Name, Outcome>)
      requires PassedToInput(before) && Keeps(before, locked) && locked.Keys <= before.Keys + {LockName}
      requires LockName in locked && locked[LockName].status == Passed
      requires Keeps(locked, after) && after.Keys <= locked.Keys + {MonitorChange}
      requires MonitorChange in after && after[MonitorChange].status == Passed
      ensures PassedToMonitor(after)
    {
      PassedOne(before, locked, LockName);
      PassedOne(locked, after, MonitorChange);
    }

    lemma PassedResize(before: map<Name, Outcome>, after: map<Name, Outcome>)
      requires PassedToMonitor(before) && Keeps(before, after) && after.Keys <= before.Keys + {Resize}
      requires Resize in after && after[Resize].status == Passed
      ensures PassedToResize(after)
    {
      PassedOne(before, after, Resize);
    }

    lemma PassedInputs(before: map<Name, Outcome>, after: map<Name, Outcome>)
      requires PassedToInput(before) && after.Keys == before.Keys + INPUTS
      requires forall name | name in INPUTS :: after[name].status == Passed
      requires forall name | name in before && name !in INPUTS :: after[name] == before[name]
      ensures PassedToInput(after)
    {
      forall name | name in after ensures after[name].status == Passed {
        assert name in INPUTS || name in before;
      }
    }

    lemma PassedDerived(outcomes: map<Name, Outcome>)
      requires AllEvidenced(outcomes) && PassedToInput(outcomes) && FirstFrame in outcomes &&
        BaseSized(outcomes[FirstFrame])
      ensures PassedToInput(Derived(outcomes))
    {
      forall name | name in Derived(outcomes) ensures Derived(outcomes)[name].status == Passed {
        assert name in outcomes || name == Colors || name == BaseMode100;
      }
    }

    lemma PassedDefaults(outcomes: map<Name, Outcome>)
      requires AllEvidenced(outcomes) && AllPassed(outcomes) && MANUAL <= outcomes.Keys
      ensures AllPassed(WithDefaults(outcomes))
    {
      forall name | name in WithDefaults(outcomes) ensures WithDefaults(outcomes)[name].status == Passed {
        assert name in outcomes;
      }
    }

    lemma PassedLast(before: map<Name, Outcome>, shown: map<Name, Outcome>, after: map<Name, Outcome>)
      requires PassedToResize(before)
      requires HighDpi200 in shown && shown == before[HighDpi200 := shown[HighDpi200]] &&
        shown[HighDpi200].status == Passed
      requires SuspendResume in after && after == shown[SuspendResume := after[SuspendResume]] &&
        after[SuspendResume].status == Passed
      ensures AllPassed(after)
    {
      PassedOne(before, shown, HighDpi200);
      PassedOne(shown, after, SuspendResume);
    }

    lemma AutomatedCosts()
      ensures Costs(AUTOMATED[..0]) == 0 && Costs(AUTOMATED[..1]) == 3 && Costs(AUTOMATED[..2]) == 8
      ensures Costs(AUTOMATED[..3]) == 68 && Costs(AUTOMATED[..4]) == 74 && Costs(AUTOMATED[..5]) == 80
      ensures Costs(AUTOMATED) == 85
    {
      CostsMore(AUTOMATED, 1);
      CostsMore(AUTOMATED, 2);
      CostsMore(AUTOMATED, 3);
      CostsMore(AUTOMATED, 4);
      CostsMore(AUTOMATED, 5);
      CostsMore(AUTOMATED, 6);
      assert AUTOMATED[..6] == AUTOMATED;
    }

    lemma CostsMore(names: seq<Name>, i: nat)
      requires 0 < i <= |names|
      ensures Costs(names[..i]) == Costs(names[..i - 1]) + Cost(names[i - 1])
    {
      assert names[..i][..i - 1] == names[..i - 1];
    }

    lemma FaultlessAutomated(n: nat)
      requires Faultless(n)
      ensures Smooth(AUTOMATED, map[], n + 1) && driver.Reply(n).yes
    {
      hide Starts, Changes, Reconnects, ShowsTwice, Survives, Restarts, Faultless;
      AutomatedCosts();
      FaultlessFirst(n);
      forall i | 0 <= i < |AUTOMATED| ensures Obliges(AUTOMATED[i], n + 1 + Costs(AUTOMATED[..i])) {
        assert i == 0 || i == 1 || i == 2 || i == 3 || i == 4 || i == 5;
      }
    }

    lemma FaultlessFirst(n: nat)
      requires Faultless(n)
      ensures Starts(n + 1) && Changes(n + 4) && Reconnects(n + 9) && ShowsTwice(n + 69) && Survives(n + 75) &&
        Restarts(n + 81)
      ensures driver.Reply(n).yes && only.None?
    {
    }

    lemma FaultlessRest(n: nat)
      requires Faultless(n)
      ensures AnswersInputs(n + 86) && LocksAndUnlocks(n + 102) && KeepsMonitor(n + 112) && FollowsResize(n + 122)
      ensures Renders4K(n + 133) && SleepsWell(n + 140) && driver.Reply(n + 146).yes
      ensures only.None? && fixture != Plasma && driver.abilities.supportsInput
    {
    }

    lemma SingleSmooth(name: Name, before: map<Name, Outcome>, n: nat)
      requires only.None? && name !in before && Obliges(name, n)
      ensures Smooth([name], before, n) && Costs([name]) == Cost(name)
    {
      assert [name][..0] == [] && [name][..1] == [name];
      CostsMore([name], 1);
    }

    // ----- a whole run

    /** One of the automated scenarios, by name. */
    method RunUnattended(name: Name) returns (o: Outcome)
      requires name in AUTOMATED_NAMES && driver.Valid() && driver.mode == BASE_MODE
      modifies this`firstFrame, this`reconnectCycles, driver
      ensures Fresh(o.captures, old(driver.asked), driver.asked)
      ensures Tidy()
      ensures Evidenced(name, o)
      ensures Clocked(name, o)
      ensures Obliges(name, old(driver.asked)) ==> Eased(name, o, old(driver.asked), driver.asked)
    {
      match name {
        case FirstFrame =>
          ghost var begun, clock;
          o, begun, clock := ScenarioFirstFrame();
        case ChangingFrames =>
          ghost var session, waited;
          o, session, waited := ScenarioChangingFrames();
        case Reconnect20 =>
          ghost var rounds;
          o, rounds := ScenarioReconnect();
        case ViewerKilled =>
          ghost var killed;
          o, killed := ScenarioViewerKilled();
        case NetworkInterruption =>
          ghost var session, cut, before, kept, closing, again;
          o, session, cut, before, kept, closing, again := ScenarioNetworkInterruption();
        case ServerRestart =>
          ghost var restarted;
          o, restarted := ScenarioServerRestart();
      }
    }

    /** A passed first frame leaves its latency, twenty reconnects their count, and nothing else touches either. */
    twostate predicate Clocked(name: Name, o: Outcome)
      reads this
    {
      && (if name == FirstFrame then o.status == Passed ==> firstFrame.Some? else firstFrame == old(firstFrame))
      && if name == Reconnect20 then o.status == Passed ==> reconnectCycles == RECONNECT_CYCLES
         else reconnectCycles == old(reconnectCycles)
    }

    /** One scenario that leaves the fixture in the base mode, by name. */
    method RunScenario(name: Name) returns (v: Verdict)
      requires name in BASE_NAMES && driver.Valid() && driver.mode == BASE_MODE
      modifies this`firstFrame, this`reconnectCycles, driver
      ensures v.Returned? ==> Fresh(v.outcome.captures, old(driver.asked), driver.asked)
      ensures Settled()
      ensures v.Returned? ==> Evidenced(name, v.outcome) && Clocked(name, v.outcome)
      ensures Obliges(name, old(driver.asked)) ==>
        v.Returned? && Eased(name, v.outcome, old(driver.asked), driver.asked)
      ensures driver.unreported == old(driver.unreported) + if v.Raised? then 1 else 0
      ensures v.Raised? ==> name == Resize && driver.abilities.reportsSize && Clocked(name, Outcome(Failed, []))
    {
      var o: Outcome;
      if name in AUTOMATED_NAMES {
        o := RunUnattended(name);
      } else if name == Resize {
        ghost var session, resized, before, after, aliveAt;
        v, session, resized, before, after, aliveAt := ScenarioResize();
        return;
      } else {
        o := RunAttended(name);
      }
      v := Returned(o);
    }

    /** One of the desktop or portal scenarios, by name. */
    method RunAttended(name: Name) returns (o: Outcome)
      requires name in {LockName, MonitorChange, PortalApprove, PortalDeny, PortalRestore}
      requires driver.Valid() && driver.mode == BASE_MODE
      modifies driver
      ensures Fresh(o.captures, old(driver.asked), driver.asked)
      ensures Tidy()
      ensures Evidenced(name, o)
      ensures Obliges(name, old(driver.asked)) ==> Eased(name, o, old(driver.asked), driver.asked)
    {
      if name == LockName {
        ghost var session, locked, dark, unlocked, before, hidden, restored;
        o, session, locked, dark, unlocked, before, hidden, restored := ScenarioLock();
      } else if name == MonitorChange {
        ghost var session, plugged, unplugged, before, during, after;
        o, session, plugged, unplugged, before, during, after := ScenarioMonitorChange();
      } else {
        o := RunPortalScenario(name);
      }
    }

    method RunPortalScenario(name: Name) returns (o: Outcome)
      requires name in {PortalApprove, PortalDeny, PortalRestore}
      requires driver.Valid() && driver.mode == BASE_MODE
      modifies driver
      ensures Fresh(o.captures, old(driver.asked), driver.asked)
      ensures Tidy()
      ensures Evidenced(name, o)
    {
      match name {
        case PortalApprove =>
          ghost var asking;
          o, asking := ScenarioPortalApprove();
        case PortalDeny =>
          ghost var asking, approved, leaked;
          o, asking, approved, leaked := ScenarioPortalDeny();
        case PortalRestore =>
          ghost var granting, restarted, granted, again;
          o, granting, restarted, granted, again := ScenarioPortalRestore();
      }
    }

    /** The first scenarios of a group are decided if they are selected, and nothing else was decided or changed. */
    predicate Through(names: seq<Name>, i: nat, before: map<Name, Outcome>, outcomes: map<Name, Outcome>)
      requires i <= |names|
    {
      && (forall j | 0 <= j < i && Selected(names[j]) :: names[j] in outcomes)
      && (forall name | name in outcomes :: name in before || (name in names && Selected(name)))
      && Keeps(before, outcomes)
    }

    lemma ThroughMore(names: seq<Name>, i: nat, before: map<Name, Outcome>, earlier: map<Name, Outcome>,
                      outcomes: map<Name, Outcome>)
      requires i < |names| && Through(names, i, before, earlier)
      requires if names[i] !in earlier && Selected(names[i]) then
        names[i] in outcomes && outcomes == earlier[names[i] := outcomes[names[i]]]
               else outcomes == earlier
      ensures Through(names, i + 1, before, outcomes)
    {
    }

    /** `_run_group`: in order, those selected and not already decided. */
    method RunGroup(names: seq<Name>, before: map<Name, Outcome>, ghost start: nat)
      returns (outcomes: map<Name, Outcome>)
      requires driver.Valid() && driver.mode == BASE_MODE && forall name | name in names :: name in BASE_NAMES
      requires Sound(before, start)
      modifies this`firstFrame, this`reconnectCycles, driver
      ensures Settled()
      ensures Sound(outcomes, start)
      ensures forall name | name in names && Selected(name) :: name in outcomes
      ensures forall name | name in outcomes :: name in before || (name in names && Selected(name))
      ensures Keeps(before, outcomes) && SizeMissed(outcomes, old(driver.unreported))
      ensures FirstFrame !in names ==> firstFrame == old(firstFrame)
      ensures Smooth(names, before, old(driver.asked)) ==> Smoothly(names, |names|, outcomes, old(driver.asked))
    {
      hide Sound, Smooth, Smoothly;
      outcomes := before;
      ghost var begun, smooth := driver.asked, Smooth(names, before, driver.asked);
      if smooth {
        SmoothFirst(names, before);
      }
      for i := 0 to |names|
        invariant Settled() && Sound(outcomes, start)
        invariant Through(names, i, before, outcomes)
        invariant SizeMissed(outcomes, old(driver.unreported))
        invariant FirstFrame !in names ==> firstFrame == old(firstFrame)
        invariant smooth ==> Smoothly(names, i, outcomes, begun)
      {
        ghost var earlier := outcomes;
        outcomes := RunStep(names, i, outcomes, start, before, begun, smooth);
        ThroughMore(names, i, before, earlier, outcomes);
      }
    }

    /** One turn of the loop. */
    method RunStep(names: seq<Name>, i: nat, before: map<Name, Outcome>, ghost start: nat,
                   ghost first: map<Name, Outcome>, ghost begun: nat, ghost smooth: bool)
      returns (outcomes: map<Name, Outcome>)
      requires i < |names| && driver.Valid() && driver.mode == BASE_MODE && names[i] in BASE_NAMES
      requires Sound(before, start)
      requires smooth ==> Smooth(names, first, begun) && Smoothly(names, i, before, begun)
      modifies this`firstFrame, this`reconnectCycles, driver
      ensures Settled()
      ensures Sound(outcomes, start)
      ensures if names[i] !in before && Selected(names[i]) then
        names[i] in outcomes && outcomes == before[names[i] := outcomes[names[i]]]
              else outcomes == before
      ensures driver.unreported != old(driver.unreported) ==>
        At(outcomes, Resize) == Some(Outcome(Failed, [])) && Resize !in before
      ensures names[i] != FirstFrame ==> firstFrame == old(firstFrame)
      ensures smooth ==> Smoothly(names, i + 1, outcomes, begun)
    {
      ghost var now := driver.asked;
      outcomes := RunDue(names[i], before, start);
      if smooth {
        SmoothAt(names, first, begun, i);
        assert now == begun + Costs(names[..i]);
        assert names[i] !in names[..i];
        SmoothlyMore(names, i, before, outcomes, begun, now);
      }
    }

    lemma SmoothFirst(names: seq<Name>, before: map<Name, Outcome>)
      requires Smooth(names, before, driver.asked)
      ensures Smoothly(names, 0, before, driver.asked)
    {
    }

    lemma SmoothAt(names: seq<Name>, before: map<Name, Outcome>, begun: nat, i: nat)
      requires i < |names| && Smooth(names, before, begun)
      ensures only.None? && Obliges(names[i], begun + Costs(names[..i]))
      ensures forall j, k | 0 <= j < k < |names| :: names[j] != names[k]
    {
    }

    /** One scenario of a group, unless it is decided or not selected. */
    method RunDue(name: Name, before: map<Name, Outcome>, ghost start: nat) returns (outcomes: map<Name, Outcome>)
      requires driver.Valid() && driver.mode == BASE_MODE && name in BASE_NAMES
      requires Sound(before, start)
      modifies this`firstFrame, this`reconnectCycles, driver
      ensures Settled()
      ensures Sound(outcomes, start)
      ensures if name !in before && Selected(name) then name in outcomes && outcomes == before[name := outcomes[name]]
              else outcomes == before
      ensures driver.unreported != old(driver.unreported) ==>
        name == Resize && name !in before && name in outcomes && outcomes[name] == Outcome(Failed, [])
      ensures name != FirstFrame ==> firstFrame == old(firstFrame)
      ensures name !in before && Selected(name) && Obliges(name, old(driver.asked)) ==>
        Eased(name, outcomes[name], old(driver.asked), driver.asked)
    {
      outcomes := before;
      if name !in outcomes && Selected(name) {
        outcomes := RunNext(name, outcomes, start);
      }
    }

    /** The first scenarios of a group have passed, and the others are not decided. */
    ghost predicate Smoothly(names: seq<Name>, i: nat, outcomes: map<Name, Outcome>, begun: nat)
      reads this`firstFrame, driver`asked
    {
      && i <= |names| && driver.asked == begun + Costs(names[..i])
      && (forall name | name in names[..i] :: name in outcomes && outcomes[name].status == Passed)
      && (forall j | i <= j < |names| :: names[j] !in outcomes)
      && (FirstFrame in names[..i] ==> BaseSized(outcomes[FirstFrame]) && firstFrame == Some(0))
    }

    lemma SmoothlyMore(names: seq<Name>, i: nat, before: map<Name, Outcome>, after: map<Name, Outcome>, begun: nat,
                       now: nat)
      requires i < |names| && (forall j, k | 0 <= j < k < |names| :: names[j] != names[k])
      requires now == begun + Costs(names[..i]) && forall j | i <= j < |names| :: names[j] !in before
      requires forall name | name in names[..i] :: name in before && before[name].status == Passed
      requires names[i] in after && after == before[names[i] := after[names[i]]]
      requires Eased(names[i], after[names[i]], now, driver.asked)
      requires FirstFrame in names[..i] ==> BaseSized(before[FirstFrame]) && firstFrame == Some(0)
      ensures Smoothly(names, i + 1, after, begun)
    {
      CostsMore(names, i + 1);
      assert names[..i + 1] == names[..i] + [names[i]];
      assert forall j | i + 1 <= j < |names| :: names[j] != names[i];
    }

    /** One more scenario; an exception is a failure. */
    method RunNext(name: Name, before: map<Name, Outcome>, ghost start: nat) returns (outcomes: map<Name, Outcome>)
      requires driver.Valid() && driver.mode == BASE_MODE && name in BASE_NAMES && name !in before
      requires Sound(before, start)
      modifies this`firstFrame, this`reconnectCycles, driver
      ensures Settled()
      ensures Sound(outcomes, start)
      ensures name in outcomes && outcomes == before[name := outcomes[name]]
      ensures driver.unreported != old(driver.unreported) ==> name == Resize && outcomes[name] == Outcome(Failed, [])
      ensures name != FirstFrame ==> firstFrame == old(firstFrame)
      ensures Obliges(name, old(driver.asked)) ==> Eased(name, outcomes[name], old(driver.asked), driver.asked)
    {
      ghost var mid, log := driver.asked, driver.log;
      var v := RunScenario(name);
      var o := if v.Returned? then v.outcome else Outcome(Failed, []);
      FreshAdded(before, log, name, o, start, mid, driver.asked);
      outcomes := before[name := o];
    }

    /** `_run_group` of one scenario. */
    method RunOne(name: Name, before: map<Name, Outcome>, ghost start: nat) returns (outcomes: map<Name, Outcome>)
      requires name == LockName || name == MonitorChange || name == Resize
      requires driver.Valid() && driver.mode == BASE_MODE && Sound(before, start)
      modifies this`firstFrame, this`reconnectCycles, driver
      ensures Settled()
      ensures Sound(outcomes, start)
      ensures Selected(name) ==> name in outcomes
      ensures Keeps(before, outcomes) && KeepsFirst(before, outcomes) && firstFrame == old(firstFrame)
      ensures outcomes.Keys <= before.Keys + {name}
      ensures only.None? && name !in before && Obliges(name, old(driver.asked)) ==>
        outcomes[name].status == Passed && driver.asked == old(driver.asked) + Cost(name)
    {
      if only.None? && name !in before && Obliges(name, driver.asked) {
        SingleSmooth(name, before, driver.asked);
      }
      assert name in [name];
      outcomes := RunGroup([name], before, start);
    }

    /** `_run_input`: all four inputs or, if none of them is selected, none; an exception fails all four. */
    method RunInput(before: map<Name, Outcome>, ghost start: nat) returns (outcomes: map<Name, Outcome>)
      requires driver.Valid() && Sound(before, start)
      modifies driver
      ensures Settled()
      ensures Sound(outcomes, start)
      ensures KeepsFirst(before, outcomes)
      ensures outcomes.Keys == before.Keys + if only.None? || only.value * INPUTS != {} then INPUTS else {}
      ensures forall name | name in before && (name !in INPUTS || name !in outcomes) :: outcomes[name] == before[name]
      ensures !(only.None? || only.value * INPUTS != {}) ==> outcomes == before
      ensures only.None? && driver.abilities.supportsInput && AnswersInputs(old(driver.asked)) ==>
        driver.asked == old(driver.asked) + 16 && forall name | name in INPUTS :: outcomes[name].status == Passed
      ensures (only.None? || only.value * INPUTS != {}) && driver.abilities.supportsInput ==>
        forall name | name in INPUTS :: outcomes[name].status != NotRun
    {
      if only.Some? && only.value * INPUTS == {} {
        return before;
      }
      ghost var mid, log := driver.asked, driver.log;
      var inputs := Inputs();
      FreshTogether(before, log, inputs, start, mid, driver.asked);
      outcomes := before + inputs;
    }

    method Inputs() returns (inputs: map<Name, Outcome>)
      requires driver.Valid()
      modifies driver
      ensures Settled() && inputs.Keys == INPUTS && AllEvidenced(inputs)
      ensures AllFresh(inputs, old(driver.asked), driver.asked)
      ensures driver.abilities.supportsInput && AnswersInputs(old(driver.asked)) ==>
        AllPassed(inputs) && driver.asked == old(driver.asked) + 16
      ensures driver.abilities.supportsInput ==> AllRun(inputs)
    {
      hide AllJudged, AllPassed, AllFresh, AnswersAll, Judged, AllRun, Unclear;
      ghost var session, before, windows;
      var r;
      r, session, before, windows := ScenarioInput();
      NoneShown(Failed, old(driver.asked), driver.asked);
      inputs := if r.Some? then r.value else map name | name in INPUTS :: Outcome(Failed, []);
    }

    /** `run_scenarios`. The mode the run believes the fixture to be in is the mode it is in, from the
        first scenario to the smoke checks at the end, and every scenario before the 4K one starts in
        the base mode. Unless the viewer left its size unreported in the 4K scenario, every session
        is closed again and at most one was open at any moment; if it did, exactly one is leaked and the
        scenario is recorded as failed. Every capture behind an outcome is a screenshot the viewer gave
        during the run, and the health that is recorded is the driver's last answer. */
    method RunScenarios() returns (outcomes: map<Name, Outcome>)
      requires driver.Valid() && driver.open == {} && driver.peak == 0 && driver.unsized == 0
      requires driver.mode == BASE_MODE && currentMode == BASE_MODE
      modifies this, driver
      ensures driver.Valid() && currentMode == driver.mode && old(driver.asked) < driver.asked
      ensures driver.unsized <= 1 && |driver.open| == driver.unsized && driver.peak <= 1 + driver.unsized
      ensures driver.unsized == 1 ==>
        driver.abilities.reportsSize && At(outcomes, HighDpi200) == Some(Outcome(Failed, []))
      ensures Leaks() ==> driver.unsized == 1
      ensures AllEvidenced(outcomes) && Measured(outcomes) && AllFresh(outcomes, old(driver.asked), driver.asked)
      ensures UnfitFails(outcomes, old(driver.asked))
      ensures healthy.Some? && driver.Smoked(driver.asked - 1, currentMode, healthy.value)
      ensures MANUAL <= outcomes.Keys
      ensures only.None? ==> Required(fixture) <= outcomes.Keys
      ensures fixture == Plasma ==> At(outcomes, PortalRevoke) == Some(Outcome(NotRun, []))
      ensures Faultless(old(driver.asked)) ==> AllPassed(outcomes) && healthy == Some(true) && firstFrame == Some(0)
    {
      outcomes := RunAll();
      if only.None? {
        RequiredNames(fixture, outcomes.Keys);
      }
      if Faultless(old(driver.asked)) {
        FaultlessRest(old(driver.asked));
      }
      CheckHealth(outcomes, old(driver.asked));
    }

    /** The smoke checks after the run, in the mode the run ended in. */
    method CheckHealth(ghost outcomes: map<Name, Outcome>, ghost start: nat)
      requires AllFresh(outcomes, start, driver.asked)
      modifies this`healthy, driver`asked, driver`log, driver`now
      ensures healthy.Some? && driver.asked == old(driver.asked) + 1 && Longer()
      ensures driver.Smoked(driver.asked - 1, currentMode, healthy.value)
      ensures AllFresh(outcomes, start, driver.asked)
    {
      ghost var log := driver.log;
      var ok := driver.Smoke(currentMode.width, currentMode.height);
      FreshLater(outcomes, log, driver.log, start, old(driver.asked), driver.asked);
      healthy := Some(ok);
    }

    /** Every group in order, and the defaults for what none of them decided. */
    method RunAll() returns (outcomes: map<Name, Outcome>)
      requires driver.Valid() && driver.open == {} && driver.peak == 0 && driver.unsized == 0
      requires driver.mode == BASE_MODE && currentMode == BASE_MODE
      modifies this`firstFrame, this`reconnectCycles, this`currentMode, driver
      ensures driver.Valid() && currentMode == driver.mode && Longer()
      ensures driver.unsized <= 1 && |driver.open| == driver.unsized && driver.peak <= 1 + driver.unsized
      ensures driver.unsized == 1 ==>
        driver.abilities.reportsSize && At(outcomes, HighDpi200) == Some(Outcome(Failed, []))
      ensures Leaks() ==> driver.unsized == 1
      ensures Sound(outcomes, old(driver.asked))
      ensures UnfitFails(outcomes, old(driver.asked))
      ensures MANUAL <= outcomes.Keys
      ensures only.None? ==> BaseRun(fixture) <= outcomes.Keys && HighDpi200 in outcomes && SuspendResume in outcomes
      ensures fixture == Plasma ==> At(outcomes, PortalRevoke) == Some(Outcome(NotRun, []))
      ensures Faultless(old(driver.asked)) ==>
        AllPassed(outcomes) && driver.asked == old(driver.asked) + 146 && firstFrame == Some(0)
    {
      var decided := RunDecided();
      FreshDefaults(decided, old(driver.asked), driver.asked);
      DefaultsKeep(decided);
      outcomes := WithDefaults(decided);
      FirstKept(decided, outcomes, old(driver.asked));
      if Faultless(old(driver.asked)) {
        ManualDecided(fixture, decided.Keys);
        PassedDefaults(decided);
      }
    }

    method RunDecided() returns (outcomes: map<Name, Outcome>)
      requires driver.Valid() && driver.open == {} && driver.peak == 0 && driver.unsized == 0
      requires driver.mode == BASE_MODE && currentMode == BASE_MODE
      modifies this`firstFrame, this`reconnectCycles, this`currentMode, driver
      ensures driver.Valid() && currentMode == driver.mode && Longer()
      ensures driver.unsized <= 1 && |driver.open| == driver.unsized && driver.peak <= 1 + driver.unsized
      ensures driver.unsized == 1 ==>
        driver.abilities.reportsSize && At(outcomes, HighDpi200) == Some(Outcome(Failed, []))
      ensures Leaks() ==> driver.unsized == 1
      ensures Sound(outcomes, old(driver.asked))
      ensures UnfitFails(outcomes, old(driver.asked))
      ensures only.None? ==> BaseRun(fixture) <= outcomes.Keys && HighDpi200 in outcomes && SuspendResume in outcomes
      ensures fixture == Plasma ==> At(outcomes, PortalRevoke) == Some(Outcome(NotRun, []))
      ensures Faultless(old(driver.asked)) ==>
        AllPassed(outcomes) && driver.asked == old(driver.asked) + 146 && firstFrame == Some(0)
    {
      var based := RunInBaseMode();
      outcomes := RunLast(based, old(driver.asked));
      FirstKept(based, outcomes, old(driver.asked));
    }

    method RunInBaseMode() returns (outcomes: map<Name, Outcome>)
      requires driver.Valid() && driver.mode == BASE_MODE
      modifies this`firstFrame, this`reconnectCycles, driver
      ensures Settled() && Sound(outcomes, old(driver.asked))
      ensures UnfitFails(outcomes, old(driver.asked)) && HighDpi200 !in outcomes
      ensures only.None? ==> BaseRun(fixture) <= outcomes.Keys
      ensures fixture == Plasma ==> At(outcomes, PortalRevoke) == Some(Outcome(NotRun, []))
      ensures Faultless(old(driver.asked)) ==>
        PassedToResize(outcomes) && driver.asked == old(driver.asked) + 133 && firstFrame == Some(0)
    {
      hide Sound, Faultless, AllPassed, PassedToMonitor, PassedToResize;
      outcomes := RunFirst();
      outcomes := RunPortalAndResize(outcomes, old(driver.asked));
    }

    method RunPortalAndResize(before: map<Name, Outcome>, ghost start: nat) returns (outcomes: map<Name, Outcome>)
      requires driver.Valid() && driver.mode == BASE_MODE && Sound(before, start)
      modifies this`firstFrame, this`reconnectCycles, driver
      ensures Settled() && Sound(outcomes, start)
      ensures only.None? && fixture == Plasma ==> PORTAL_SCENARIOS <= outcomes.Keys
      ensures only.None? ==> Resize in outcomes
      ensures before.Keys <= outcomes.Keys && KeepsFirst(before, outcomes) && firstFrame == old(firstFrame)
      ensures fixture == Plasma ==> At(outcomes, PortalRevoke) == Some(Outcome(NotRun, []))
      ensures Faultless(start) && old(driver.asked) == start + 122 && PassedToMonitor(before) ==>
        PassedToResize(outcomes) && driver.asked == start + 133
    {
      hide Sound, Faultless, AllPassed, AnswersInputs, LocksAndUnlocks, KeepsMonitor, FollowsResize, Renders4K,
        SleepsWell;
      if Faultless(start) {
        FaultlessRest(start);
      }
      var driven := RunPortal(before, start);
      ghost var easy := Faultless(start) && driver.asked == start + 122 && PassedToMonitor(driven);
      outcomes := RunOne(Resize, driven, start);
      if easy {
        PassedResize(driven, outcomes);
      }
    }

    /** What runs in the base mode and does not change it, up to the session scenarios. */
    method RunFirst() returns (outcomes: map<Name, Outcome>)
      requires driver.Valid() && driver.mode == BASE_MODE
      modifies this`firstFrame, this`reconnectCycles, driver
      ensures Settled() && Sound(outcomes, old(driver.asked))
      ensures UnfitFails(outcomes, old(driver.asked)) && HighDpi200 !in outcomes
      ensures only.None? ==> FIRST_NAMES <= outcomes.Keys
      ensures Faultless(old(driver.asked)) ==>
        PassedToMonitor(outcomes) && driver.asked == old(driver.asked) + 122 && firstFrame == Some(0)
    {
      hide Sound, Faultless, AllPassed, PassedToInput, PassedToMonitor;
      outcomes := RunAutomated();
      outcomes := RunAfterAutomated(outcomes, old(driver.asked));
    }

    method RunAfterAutomated(before: map<Name, Outcome>, ghost start: nat) returns (outcomes: map<Name, Outcome>)
      requires driver.Valid() && driver.mode == BASE_MODE && Sound(before, start)
      modifies this`firstFrame, this`reconnectCycles, driver
      ensures Settled() && Sound(outcomes, start)
      ensures only.None? ==> INPUTS <= outcomes.Keys && LockName in outcomes && MonitorChange in outcomes
      ensures before.Keys <= outcomes.Keys && KeepsFirst(before, outcomes) && firstFrame == old(firstFrame)
      ensures Faultless(start) && old(driver.asked) == start + 86 && PassedToInput(before) ==>
        PassedToMonitor(outcomes) && driver.asked == start + 122
    {
      hide Sound, Faultless, AllPassed, PassedToInput, PassedToMonitor, AnswersInputs, LocksAndUnlocks, KeepsMonitor,
        FollowsResize, Renders4K, SleepsWell;
      if Faultless(start) {
        FaultlessRest(start);
      }
      ghost var easy := Faultless(start) && driver.asked == start + 86 && PassedToInput(before);
      var entered := RunInput(before, start);
      if easy {
        PassedInputs(before, entered);
      }
      outcomes := RunLockAndMonitor(entered, start);
    }

    method RunLockAndMonitor(before: map<Name, Outcome>, ghost start: nat) returns (outcomes: map<Name, Outcome>)
      requires driver.Valid() && driver.mode == BASE_MODE && Sound(before, start)
      modifies this`firstFrame, this`reconnectCycles, driver
      ensures Settled() && Sound(outcomes, start)
      ensures only.None? ==> LockName in outcomes && MonitorChange in outcomes
      ensures before.Keys <= outcomes.Keys && KeepsFirst(before, outcomes) && firstFrame == old(firstFrame)
      ensures only.None? && PassedToInput(before) && LocksAndReplugs(old(driver.asked)) ==>
        PassedToMonitor(outcomes) && driver.asked == old(driver.asked) + 20
    {
      hide Sound, AllPassed, LocksAndUnlocks, KeepsMonitor;
      ghost var easy := only.None? && PassedToInput(before) && LocksAndReplugs(driver.asked);
      var locked := RunOne(LockName, before, start);
      outcomes := RunOne(MonitorChange, locked, start);
      if easy {
        PassedLockAndMonitor(before, locked, outcomes);
      }
    }

    /** The automated scenarios and what derives from the first of them. */
    method RunAutomated() returns (outcomes: map<Name, Outcome>)
      requires driver.Valid() && driver.mode == BASE_MODE
      modifies this`firstFrame, this`reconnectCycles, driver
      ensures Settled() && Sound(outcomes, old(driver.asked))
      ensures UnfitFails(outcomes, old(driver.asked)) && HighDpi200 !in outcomes
      ensures only.None? ==> AUTOMATED_NAMES <= outcomes.Keys && Colors in outcomes && BaseMode100 in outcomes
      ensures Faultless(old(driver.asked)) ==>
        driver.asked == old(driver.asked) + 86 && firstFrame == Some(0) && PassedToInput(outcomes)
    {
      var plain := RunUnderived();
      FreshDerived(plain, old(driver.asked), driver.asked);
      outcomes := Derived(plain);
      FirstKept(plain, outcomes, old(driver.asked));
      if Faultless(old(driver.asked)) {
        PassedDerived(plain);
      }
    }

    /** A fixture that fails its smoke checks has failed the first frame. */
    method RunUnderived() returns (outcomes: map<Name, Outcome>)
      requires driver.Valid() && driver.mode == BASE_MODE
      modifies this`firstFrame, this`reconnectCycles, driver
      ensures Settled() && Sound(outcomes, old(driver.asked))
      ensures UnfitFails(outcomes, old(driver.asked)) && HighDpi200 !in outcomes
      ensures only.None? ==> AUTOMATED_NAMES <= outcomes.Keys
      ensures Faultless(old(driver.asked)) ==>
        && driver.asked == old(driver.asked) + 86 && firstFrame == Some(0) && PassedToInput(outcomes)
        && FirstFrame in outcomes && BaseSized(outcomes[FirstFrame])
    {
      hide Sound, Faultless, Smooth, Smoothly, AllPassed, PassedToInput, BaseSized, UnfitFails;
      ghost var start := driver.asked;
      if Faultless(start) {
        FaultlessAutomated(start);
      }
      var smoke := driver.Smoke(BASE_MODE.width, BASE_MODE.height);
      outcomes := if smoke then map[] else map[FirstFrame := Outcome(Failed, [])];
      SoundAtFirst(outcomes, start);
      AutomatedNames();
      ghost var first := outcomes;
      outcomes := RunGroup(AUTOMATED, outcomes, old(driver.asked));
      UnfitKept(smoke, first, outcomes, start);
      if Faultless(start) {
        AutomatedStage(outcomes, start + 1);
      }
    }

    lemma UnfitKept(smoke: bool, first: map<Name, Outcome>, outcomes: map<Name, Outcome>, start: nat)
      requires driver.Smoked(start, BASE_MODE, smoke) && Keeps(first, outcomes)
      requires !smoke ==> first == map[FirstFrame := Outcome(Failed, [])]
      ensures UnfitFails(outcomes, start)
    {
    }

    lemma SoundAtFirst(outcomes: map<Name, Outcome>, start: nat)
      requires start <= driver.asked && (outcomes == map[] || outcomes == map[FirstFrame := Outcome(Failed, [])])
      ensures Sound(outcomes, start)
    {
    }

    lemma AutomatedStage(outcomes: map<Name, Outcome>, begun: nat)
      requires Smoothly(AUTOMATED, |AUTOMATED|, outcomes, begun)
      requires forall name | name in outcomes :: name in AUTOMATED
      ensures driver.asked == begun + 85 && firstFrame == Some(0) && PassedToInput(outcomes)
      ensures FirstFrame in outcomes && BaseSized(outcomes[FirstFrame])
    {
      AutomatedCosts();
      AutomatedNames();
      assert AUTOMATED[..|AUTOMATED|] == AUTOMATED;
    }

    /** The portal scenarios, on Plasma only, where revoking a grant cannot be driven. */
    method RunPortal(before: map<Name, Outcome>, ghost start: nat) returns (outcomes: map<Name, Outcome>)
      requires driver.Valid() && driver.mode == BASE_MODE && Sound(before, start)
      modifies this`firstFrame, this`reconnectCycles, driver
      ensures Settled() && Sound(outcomes, start)
      ensures only.None? && fixture == Plasma ==> PORTAL_SCENARIOS <= outcomes.Keys
      ensures before.Keys <= outcomes.Keys && KeepsFirst(before, outcomes) && firstFrame == old(firstFrame)
      ensures fixture == Plasma ==> At(outcomes, PortalRevoke) == Some(Outcome(NotRun, []))
      ensures fixture != Plasma ==> outcomes == before && driver.asked == old(driver.asked)
    {
      outcomes := before;
      if fixture == Plasma {
        var driven := RunPortalGroup(before, start);
        outcomes := driven[PortalRevoke := Outcome(NotRun, [])];
      }
    }

    method RunPortalGroup(before: map<Name, Outcome>, ghost start: nat) returns (outcomes: map<Name, Outcome>)
      requires driver.Valid() && driver.mode == BASE_MODE && Sound(before, start)
      modifies this`firstFrame, this`reconnectCycles, driver
      ensures Settled() && Sound(outcomes, start)
      ensures only.None? ==> PortalApprove in outcomes && PortalDeny in outcomes && PortalRestore in outcomes
      ensures before.Keys <= outcomes.Keys && KeepsFirst(before, outcomes) && firstFrame == old(firstFrame)
    {
      hide Sound, Smooth, Smoothly;
      PortalMembers();
      outcomes := RunGroup(PORTAL, before, start);
    }

    /** The 4K scenario, then the suspend scenario in whatever mode that left. */
    method RunLast(before: map<Name, Outcome>, ghost start: nat) returns (outcomes: map<Name, Outcome>)
      requires driver.Valid() && driver.open == {} && driver.peak <= 1 && driver.unsized == 0
      requires driver.mode == BASE_MODE && currentMode == BASE_MODE && Sound(before, start) && HighDpi200 !in before
      modifies this`currentMode, driver
      ensures driver.Valid() && currentMode == driver.mode && Longer()
      ensures driver.unsized <= 1 && |driver.open| == driver.unsized && driver.peak <= 1 + driver.unsized
      ensures driver.unsized == 1 ==>
        driver.abilities.reportsSize && At(outcomes, HighDpi200) == Some(Outcome(Failed, []))
      ensures Leaks() ==> driver.unsized == 1
      ensures Sound(outcomes, start)
      ensures Selected(HighDpi200) ==> HighDpi200 in outcomes
      ensures Selected(SuspendResume) ==> SuspendResume in outcomes
      ensures Keeps(before, outcomes) && outcomes.Keys <= before.Keys + {HighDpi200, SuspendResume}
      ensures KeepsClocked(before, outcomes) && At(outcomes, PortalRevoke) == At(before, PortalRevoke)
      ensures Faultless(start) && old(driver.asked) == start + 133 && PassedToResize(before) ==>
        AllPassed(outcomes) && driver.asked == start + 146
    {
      hide Sound, Faultless, AllPassed, AlwaysBlind, AnswersInputs, LocksAndUnlocks, KeepsMonitor, FollowsResize,
        Renders4K, SleepsWell;
      if Faultless(start) {
        FaultlessRest(start);
      }
      outcomes := before;
      ghost var easy := Faultless(start) && driver.asked == start + 133 && PassedToResize(before);
      if Selected(HighDpi200) {
        outcomes := Run4K(outcomes, start);
      }
      ghost var shown := outcomes;
      if SuspendResume !in outcomes && Selected(SuspendResume) {
        outcomes := RunSuspend(outcomes, start);
      }
      if easy {
        PassedLast(before, shown, outcomes);
      }
    }

    method Run4K(before: map<Name, Outcome>, ghost start: nat) returns (outcomes: map<Name, Outcome>)
      requires driver.Valid() && driver.open == {} && driver.peak <= 1 && driver.unsized == 0
      requires driver.mode == BASE_MODE && currentMode == BASE_MODE && Sound(before, start) && HighDpi200 !in before
      modifies this`currentMode, driver
      ensures driver.Valid() && currentMode == driver.mode && Longer()
      ensures driver.unsized <= 1 && |driver.open| == driver.unsized && driver.peak <= 1
      ensures Sound(outcomes, start)
      ensures HighDpi200 in outcomes && outcomes == before[HighDpi200 := outcomes[HighDpi200]]
      ensures driver.unsized == 1 ==> driver.abilities.reportsSize && outcomes[HighDpi200] == Outcome(Failed, [])
      ensures Can(CanResize) && AlwaysBlind() ==> driver.unsized == 1
      ensures Renders4K(old(driver.asked)) ==>
        outcomes[HighDpi200].status == Passed && driver.asked == old(driver.asked) + 7
    {
      ghost var mid, log := driver.asked, driver.log;
      ghost var session, capture, sizeAt;
      var v;
      v, session, capture, sizeAt := ScenarioHighDpi();
      var o := if v.Returned? then v.outcome else Outcome(Failed, []);
      FreshAdded(before, log, HighDpi200, o, start, mid, driver.asked);
      outcomes := before[HighDpi200 := o];
    }

    method RunSuspend(before: map<Name, Outcome>, ghost start: nat) returns (outcomes: map<Name, Outcome>)
      requires driver.Valid() && Sound(before, start)
      modifies driver
      ensures Settled()
      ensures Sound(outcomes, start)
      ensures SuspendResume in outcomes && outcomes == before[SuspendResume := outcomes[SuspendResume]]
      ensures SleepsWell(old(driver.asked)) ==>
        outcomes[SuspendResume].status == Passed && driver.asked == old(driver.asked) + 6
    {
      ghost var mid, log := driver.asked, driver.log;
      ghost var session, slept, first, kept, closing, again;
      var o;
      o, session, slept, first, kept, closing, again := ScenarioSuspendResume();
      FreshAdded(before, log, SuspendResume, o, start, mid, driver.asked);
      outcomes := before[SuspendResume := o];
    }
  }

  /** A run that ends with a session open: the viewer shows the scene whenever it is asked, and never says
      how large its frames are. */
  method LeakingRun() returns (run: Session)
    ensures fresh(run) && fresh(run.driver) && |run.driver.open| == 1
  {
    var answer := Answer(true, true, 0, Some(Capture(0, 0, 0, BASE_MODE.width, BASE_MODE.height, Scene, {})), None,
                         None, []);
    var driver := new Driver(Oracle(map[], answer), Abilities(false, false, false, true, false, {CanResize}));
    run := new Session(Gnome, driver, None);
    var outcomes := run.RunScenarios();
  }
}
