/** The fixture and viewer that the scenarios of src/wayland_vnc/desktop_scenarios.py drive, as an
    adversary: every answer it gives and every delay it takes comes from an arbitrary oracle. */
module Driver {
  import opened Results
  import opened Markers

  datatype Mode = Mode(width: nat, height: nat, scale: nat)

  const BASE_MODE := Mode(1920, 1080, 1)
  const HIGH_DPI_MODE := Mode(3840, 2160, 2)
  const RESIZED_MODE := Mode(1280, 720, 1)

  /** A saved screenshot: `verify_scene` finds the scene in it, or not, or cannot read the file. */
  datatype Sight = Scene | NoScene | Unreadable

  /** `at` is the number of the question that the screenshot answered, and `session` the session that gave it;
      `content` stands for the bytes of the file, and so for their digest. */
  datatype Capture = Capture(
    at: nat, session: nat, content: nat, width: nat, height: nat, sight: Sight, markers: set<Marker>)

  datatype PortalAction = Approve | Deny | OtherAction

  datatype PortalEvent = PortalEvent(action: PortalAction, persist: bool)

  datatype Fixture = Gnome | Plasma | Sway | Labwc | XfceLabwc | LxqtLabwc | Wayfire | Hyprland

  datatype Capability = CanResize | CanLock | CanHotplug

  datatype Answer = Answer(
    yes: bool,
    yesToo: bool,
    delay: nat,
    shot: Option<Capture>,
    size: Option<(nat, nat)>,
    startedAt: Option<int>,
    events: seq<PortalEvent>)

  /** The answers to the questions, by number, and the answer to every other one. A run asks finitely many, so this
      is any behaviour at all. */
  datatype Oracle = Oracle(answers: map<nat, Answer>, otherwise: Answer) {
    function Reply(n: nat): Answer {
      if n in answers then answers[n] else otherwise
    }
  }

  datatype Action =
    | Pause | Lock | ForceUnlock | Hotplug(attach: bool) | PortalMode(mode: PortalPolicy) | PortalForget
    | TypeText | TypeSecret | Click | Scroll | Drag | LiveResize(on: bool) | FitDesktop

  /** One call of the driver. */
  datatype Question =
    | Waited | Did(action: Action) | Opened(session: nat) | Closed(session: nat) | Shot(session: nat)
    | AskedAlive(session: nat) | AskedTransient(session: nat) | AskedSize(session: nat)
    | AskedSmoke(width: nat, height: nat) | Restarted | ModeSet(mode: Mode) | AskedIdle | AskedLog | Suspended

  /** The n-th question, and how many screenshots with the scene the viewer had given by then. */
  datatype Entry = Asking(at: nat, what: Question) | Tally(at: nat, scenes: nat)

  datatype PortalPolicy = AnswerApprove | AnswerDeny | AnswerApprovePersist | AnswerNone

  /** What the viewer and the machine can do; the names are those the program gives them. */
  datatype Abilities = Abilities(
    supportsInput: bool,
    supportsSuspend: bool,
    wakesOwnLockScreen: bool,
    reportsSize: bool,
    canFit: bool,
    machine: set<Capability>)

  predicate Holds(events: seq<PortalEvent>, action: PortalAction) {
    exists e | e in events :: e.action == action
  }

  predicate Persists(events: seq<PortalEvent>) {
    exists e | e in events :: e.persist
  }

  function Since(events: seq<PortalEvent>, count: nat): seq<PortalEvent> {
    if count <= |events| then events[count..] else []
  }

  function Max(a: nat, b: nat): nat {
    if a < b then b else a
  }

  class Driver {
    const oracle: Oracle
    const abilities: Abilities
    /** Questions asked so far, and the clock in milliseconds. */
    var asked: nat
    var now: int
    /** How many sessions were ever opened. */
    var opens: nat
    /** The mode the fixture is really in. */
    var mode: Mode
    /** What was asked so far, by number. */
    ghost var log: set<Entry>
    /** Screenshots with the scene that the viewer has given. */
    ghost var scenes: nat
    /** Viewer sessions: those open now, and the most open at once. */
    ghost var open: set<nat>
    ghost var peak: nat
    /** How often the viewer left its size unreported: in the 4K mode, and in others. */
    ghost var unsized: nat
    ghost var unreported: nat

    /** The answer to the n-th question. */
    function Reply(n: nat): Answer {
      oracle.Reply(n)
    }

    ghost predicate Valid()
      reads this
    {
      && (forall s | s in open :: s < opens)
      && |open| <= peak
    }

    /** One more question, and nothing that was asked is forgotten. */
    twostate predicate Asked(what: Question)
      reads this
    {
      && asked == old(asked) + 1 && old(now) <= now
      && log == old(log) + {Asking(old(asked), what), Tally(old(asked), old(scenes))}
    }

    /** The clock moves by what the answer takes, and by what is slept besides. */
    twostate predicate Took(slept: nat)
      reads this
    {
      now == old(now) + Reply(old(asked)).delay + slept
    }

    /** The n-th question was this one. */
    ghost predicate Noted(n: nat, what: Question)
      reads `log
    {
      Asking(n, what) in log
    }

    /** The screenshot that a session gives in answer to the n-th question, if that asks it for one. */
    function ShotOf(n: nat, session: nat): Option<Capture> {
      match Reply(n).shot
      case None => None
      case Some(c) => Some(c.(at := n, session := session))
    }

    /** A screenshot that the session gave when it was asked, between two of the questions. */
    ghost predicate ShownBy(session: nat, c: Capture, start: nat, end: nat)
      reads `log
    {
      c.session == session && Shown(c, start, end)
    }

    /** A screenshot that some session gave when it was asked, between two of the questions. */
    ghost predicate Shown(c: Capture, start: nat, end: nat)
      reads `log
    {
      ShownIn(log, c, start, end)
    }

    ghost predicate ShownIn(log: set<Entry>, c: Capture, start: nat, end: nat) {
      start <= c.at < end && Asking(c.at, Shot(c.session)) in log && ShotOf(c.at, c.session) == Some(c)
    }

    /** The answer to a question, taken as a screenshot, shows the scene. */
    predicate SceneAt(n: nat) {
      Reply(n).shot.Some? && Reply(n).shot.value.sight == Scene
    }

    /** The answer to a question, taken as a screenshot, can be read and does not show the scene. */
    predicate HiddenAt(n: nat) {
      Reply(n).shot.Some? && Reply(n).shot.value.sight == NoScene
    }

    /** The answer to a question, taken as a screenshot, holds a marker. */
    predicate MarkerAt(n: nat, m: Marker) {
      Reply(n).shot.Some? && m in Reply(n).shot.value.markers
    }

    /** The answer of a fixture and a viewer without fault: yes, at once, and taken as a screenshot, one of the base
        mode with the scene and every marker, unlike any other. */
    predicate Good(n: nat) {
      var a := Reply(n);
      && a.yes && a.yesToo && a.delay == 0 && a.startedAt == None
      && a.shot.Some? && GoodShot(a.shot.value, n)
    }

    predicate GoodShot(c: Capture, n: nat) {
      && c.sight == Scene && c.content == n && c.width == BASE_MODE.width && c.height == BASE_MODE.height
      && forall m: Marker :: m in c.markers
    }

    /** The n-th question asked whether the fixture passes its smoke checks at the size of a mode, and
        it does or not. */
    ghost predicate Smoked(n: nat, mode: Mode, yes: bool)
      reads `log
    {
      Noted(n, AskedSmoke(mode.width, mode.height)) && Reply(n).yes == yes
    }

    /** Two questions with no screenshot of the scene between them. */
    ghost predicate NoSceneBetween(first: nat, one: Question, last: nat, other: Question)
      reads `log
    {
      Noted(first, one) && Noted(last, other) && exists k :: Tally(first, k) in log && Tally(last, k) in log
    }

    /** What the portal's log held at the second reading beyond what it had at the first. */
    function NewEvents(first: nat, last: nat): seq<PortalEvent> {
      Since(Reply(last).events, |Reply(first).events|)
    }

    constructor (oracle: Oracle, abilities: Abilities)
      ensures Valid() && open == {} && peak == 0 && mode == BASE_MODE && unsized == 0 && unreported == 0
      ensures this.oracle == oracle && this.abilities == abilities && asked == 0
    {
      this.oracle, this.abilities := oracle, abilities;
      asked, now, opens, mode := 0, 0, 0, BASE_MODE;
      log, scenes, open, peak, unsized, unreported := {}, 0, {}, 0, 0, 0;
    }

    method Ask(ghost what: Question) returns (a: Answer)
      modifies `asked, `log, `now
      ensures Asked(what) && Took(0) && a == Reply(old(asked))
    {
      a := Reply(asked);
      log := log + {Asking(asked, what), Tally(asked, scenes)};
      asked := asked + 1;
      now := now + a.delay;
    }

    method Sleep(milliseconds: nat)
      modifies `asked, `log, `now
      ensures Asked(Waited) && Took(milliseconds)
    {
      var a := Ask(Waited);
      now := now + milliseconds;
    }

    /** An action on the fixture whose only modelled effect is that it takes time. */
    method Act(action: Action)
      modifies `asked, `log, `now
      ensures Asked(Did(action)) && Took(0)
    {
      var a := Ask(Did(action));
    }

    /** Some viewers say when they really asked the server, on the driver's clock. */
    method Connect() returns (session: nat, startedAt: Option<int>)
      requires Valid()
      modifies `asked, `log, `now, `open, `opens, `peak
      ensures Asked(Opened(session)) && Took(0) && startedAt == Reply(old(asked)).startedAt
      ensures Valid()
      ensures session == old(opens) && session !in old(open) && open == old(open) + {session}
      ensures opens == old(opens) + 1
      ensures peak == Max(old(peak), |old(open)| + 1)
    {
      session := opens;
      var a := Ask(Opened(session));
      opens := opens + 1;
      open := open + {session};
      peak := Max(peak, |open|);
      startedAt := a.startedAt;
    }

    /** Only an open session can be disconnected, as only an open session can be asked anything. */
    method Disconnect(session: nat)
      requires Valid() && session in open
      modifies `asked, `log, `now, `open
      ensures Asked(Closed(session)) && Took(0)
      ensures Valid()
      ensures open == old(open) - {session}
    {
      var a := Ask(Closed(session));
      open := open - {session};
    }

    method Screenshot(session: nat) returns (shot: Option<Capture>)
      requires session in open
      modifies `asked, `log, `now, `scenes
      ensures Asked(Shot(session)) && Took(0) && shot == ShotOf(old(asked), session)
      ensures scenes == if shot.Some? && shot.value.sight == Scene then old(scenes) + 1 else old(scenes)
    {
      var at := asked;
      var a := Ask(Shot(session));
      shot := if a.shot.Some? then Some(a.shot.value.(at := at, session := session)) else None;
      if shot.Some? && shot.value.sight == Scene {
        scenes := scenes + 1;
      }
    }

    method Alive(session: nat) returns (yes: bool)
      requires session in open
      modifies `asked, `log, `now
      ensures Asked(AskedAlive(session)) && Took(0) && yes == Reply(old(asked)).yes
    {
      var a := Ask(AskedAlive(session));
      yes := a.yes;
    }

    method TransientError(session: nat) returns (yes: bool)
      requires session in open
      modifies `asked, `log, `now
      ensures Asked(AskedTransient(session)) && Took(0) && yes == Reply(old(asked)).yes
    {
      var a := Ask(AskedTransient(session));
      yes := a.yes;
    }

    method FramebufferSize(session: nat) returns (size: Option<(nat, nat)>)
      requires session in open
      modifies `asked, `log, `now, `unsized, `unreported
      ensures Asked(AskedSize(session)) && size == Reply(old(asked)).size
      ensures unsized == if mode == HIGH_DPI_MODE && size.None? then old(unsized) + 1 else old(unsized)
      ensures unreported == if mode != HIGH_DPI_MODE && size.None? then old(unreported) + 1 else old(unreported)
    {
      var a := Ask(AskedSize(session));
      size := a.size;
      if size.None? {
        if mode == HIGH_DPI_MODE {
          unsized := unsized + 1;
        } else {
          unreported := unreported + 1;
        }
      }
    }

    /** Whether the fixture passes its smoke checks at a size. */
    method Smoke(width: nat, height: nat) returns (yes: bool)
      modifies `asked, `log, `now
      ensures Asked(AskedSmoke(width, height)) && yes == Reply(old(asked)).yes
    {
      var a := Ask(AskedSmoke(width, height));
      yes := a.yes;
    }

    /** A restarted fixture comes up in the mode it was in, or in the base mode. */
    method Restart()
      modifies `asked, `log, `now, `mode
      ensures Asked(Restarted)
      ensures mode == if Reply(old(asked)).yes then BASE_MODE else old(mode)
    {
      var a := Ask(Restarted);
      if a.yes {
        mode := BASE_MODE;
      }
    }

    method SetMode(newMode: Mode)
      modifies `asked, `log, `now, `mode
      ensures Asked(ModeSet(newMode))
      ensures mode == newMode
    {
      var a := Ask(ModeSet(newMode));
      mode := newMode;
    }

    method WaitIdle() returns (yes: bool)
      modifies `asked, `log, `now
      ensures Asked(AskedIdle) && yes == Reply(old(asked)).yes
    {
      var a := Ask(AskedIdle);
      yes := a.yes;
    }

    method PortalEvents() returns (events: seq<PortalEvent>)
      modifies `asked, `log, `now
      ensures Asked(AskedLog) && events == Reply(old(asked)).events
    {
      var a := Ask(AskedLog);
      events := a.events;
    }

    /** The hypervisor's word on whether the machine suspended, and whether it runs again. */
    method Suspend() returns (suspended: bool, running: bool)
      modifies `asked, `log, `now
      ensures Asked(Suspended) && suspended == Reply(old(asked)).yes && running == Reply(old(asked)).yesToo
    {
      var a := Ask(Suspended);
      suspended, running := a.yes, a.yesToo;
    }
  }
}
