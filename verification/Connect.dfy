/** The screen-answering loop of `connect` in src/wayland_vnc/android_viewer.py, over any sequence of UI
    dumps. Dumps, the activity in front and whether typing succeeds are arbitrary; adb itself does not fail. */
module Connect {
  import opened Results
  import PyText

  datatype UiNode = UiNode(text: string, rid: string, checked: bool)

  type Dump = seq<UiNode>

  const QUIET_DUMPS := 4

  // ----- finding a node

  /** What `find` looks for: a text in the node's text, or an end of its resource id. */
  datatype Query = Text(text: string) | Id(rid: string) {
    predicate Matches(node: UiNode) {
      match this
      case Text(text) => PyText.Contains(node.text, text)
      case Id(rid) => PyText.EndsWith(node.rid, rid)
    }
  }

  function Find(nodes: Dump, query: Query): Option<UiNode> {
    if nodes == [] then None else if query.Matches(nodes[0]) then Some(nodes[0]) else Find(nodes[1..], query)
  }

  /** The first match in the dump, if there is one. */
  lemma {:induction false} FindFirst(nodes: Dump, query: Query)
    ensures Find(nodes, query).None? <==> forall i | 0 <= i < |nodes| :: !query.Matches(nodes[i])
    ensures Find(nodes, query).Some? ==> exists i | 0 <= i < |nodes| ::
      Find(nodes, query) == Some(nodes[i]) && query.Matches(nodes[i]) && forall j | 0 <= j < i :: !query.Matches(nodes[j])
  {
    if nodes != [] && !query.Matches(nodes[0]) {
      var rest := nodes[1..];
      FindFirst(rest, query);
      assert forall i | 1 <= i < |nodes| :: nodes[i] == rest[i - 1];
      if Find(rest, query).Some? {
        var i :| 0 <= i < |rest| && Find(rest, query) == Some(rest[i]) && query.Matches(rest[i]) &&
          forall j | 0 <= j < i :: !query.Matches(rest[j]);
        assert nodes[i + 1] == rest[i];
        assert forall j | 0 <= j < i + 1 :: !query.Matches(nodes[j]);
      }
    }
  }

  /** Every control and text the screens are told by, where the dump has it. */
  datatype Seen = Seen(
    tutorial: Option<UiNode>, help: Option<UiNode>, hint: Option<UiNode>, dismiss: Option<UiNode>,
    accept: Option<UiNode>, analytics: Option<UiNode>, next: Option<UiNode>, proceed: Option<UiNode>,
    identity: Option<UiNode>, unencrypted: Option<UiNode>, invalid: Option<UiNode>, ok: Option<UiNode>,
    done: Option<UiNode>, toolbar: Option<UiNode>, user: Option<UiNode>, password: Option<UiNode>,
    title: Option<UiNode>, authentication: Option<UiNode>)

  function Scan(nodes: Dump): Seen {
    Seen(Find(nodes, Text("SKIP TUTORIAL")), Find(nodes, Id("help_view")), Find(nodes, Text("Viewing full screen")),
         Find(nodes, Text("Got it")), Find(nodes, Id("accept_button")), Find(nodes, Id("analytics_checkbox")),
         Find(nodes, Id("next_button")), Find(nodes, Text("Continue connecting?")), Find(nodes, Text("Identity check")),
         Find(nodes, Text("Unencrypted connection")), Find(nodes, Text("Invalid username or password")),
         Find(nodes, Id("android:id/button1")), Find(nodes, Id("menu_done")), Find(nodes, Id("menu_pin")),
         Find(nodes, Id("UserEdit")), Find(nodes, Id("PassEdit")), Find(nodes, Id("alertTitle")),
         Find(nodes, Id("authentication_dialog")))
  }

  // ----- answering one screen

  datatype Action = Tap(node: UiNode) | Back | EnterCredentials | EnterPassword

  datatype Step =
    | TutorialSkipped | HelpClosed | HintDismissed | FirstRunAccepted | AnalyticsDeclined | TourNext
    | ContinueConnecting | IdentityCheck | UnencryptedAccepted | CredentialsEntered | Dialog(title: string)

  /** What a screen gets: no answer, a step, a wait for credentials already entered, the refusal, or an
      exception for a control that is not there or typing that fails. */
  datatype Reply =
    | Nothing
    | Did(step: Step, actions: seq<Action>)
    | Waiting
    | Refusal(actions: seq<Action>)
    | Raises(actions: seq<Action>)

  /** `_tap(node)` and then the step: tapping nothing raises. */
  function TapFor(node: Option<UiNode>, before: seq<Action>, step: Step): Reply {
    if node.None? then Raises(before) else Did(step, before + [Tap(node.value)])
  }

  function AnswerFirstRun(seen: Seen): Reply {
    if seen.tutorial.Some? then TapFor(seen.tutorial, [], TutorialSkipped)
    else if seen.help.Some? then Did(HelpClosed, [Back])
    else if seen.hint.Some? && seen.dismiss.Some? then TapFor(seen.dismiss, [], HintDismissed)
    else if seen.accept.Some? then
      if seen.analytics.Some? && seen.analytics.value.checked then
        TapFor(seen.accept, [Tap(seen.analytics.value)], AnalyticsDeclined)
      else TapFor(seen.accept, [], FirstRunAccepted)
    else if seen.next.Some? then TapFor(seen.next, [], TourNext)
    else Nothing
  }

  /** The four screens known by a text and answered by a button. */
  function AnswerSimple(seen: Seen): Reply {
    if seen.proceed.Some? then TapFor(seen.ok, [], ContinueConnecting)
    else if seen.identity.Some? then TapFor(seen.done, [], IdentityCheck)
    else if seen.unencrypted.Some? then TapFor(seen.done, [], UnencryptedAccepted)
    else if seen.invalid.Some? then
      if seen.ok.Some? then Refusal([Tap(seen.ok.value)]) else Raises([])
    else Nothing
  }

  predicate Sheet(seen: Seen) {
    seen.user.Some? || seen.password.Some?
  }

  function AnswerCredentials(seen: Seen, entered: bool, typing: bool): Reply {
    if !Sheet(seen) then Nothing
    else if entered then Waiting
    else
      var typed := if seen.user.Some? then EnterCredentials else EnterPassword;
      if typing then TapFor(seen.done, [typed], CredentialsEntered) else Raises([typed])
  }

  function AnswerDialog(seen: Seen): Reply {
    if seen.title.Some? && seen.ok.Some? then TapFor(seen.ok, [], Dialog(seen.title.value.text)) else Nothing
  }

  /** `_answer_screen`, for credentials that were entered before or not. */
  function Answer(seen: Seen, entered: bool, typing: bool): Reply {
    var first := AnswerFirstRun(seen);
    if first != Nothing then first
    else
      var simple := AnswerSimple(seen);
      if simple != Nothing then simple
      else
        var credentials := AnswerCredentials(seen, entered, typing);
        if credentials != Nothing then credentials else AnswerDialog(seen)
  }

  // ----- what the answers come to

  predicate FirstRunScreen(seen: Seen) {
    || seen.tutorial.Some? || seen.help.Some? || (seen.hint.Some? && seen.dismiss.Some?)
    || seen.accept.Some? || seen.next.Some?
  }

  predicate KnownScreen(seen: Seen) {
    seen.proceed.Some? || seen.identity.Some? || seen.unencrypted.Some? || seen.invalid.Some?
  }

  /** A dump with nothing to answer. */
  predicate Quiet(seen: Seen) {
    && !FirstRunScreen(seen) && !KnownScreen(seen) && !Sheet(seen)
    && !(seen.title.Some? && seen.ok.Some?)
  }

  /** The credentials sheet with nothing in front of it. */
  predicate Asks(seen: Seen) {
    !FirstRunScreen(seen) && !KnownScreen(seen) && Sheet(seen)
  }

  predicate Refuses(seen: Seen) {
    && !FirstRunScreen(seen) && seen.invalid.Some? && seen.ok.Some?
    && !seen.proceed.Some? && !seen.identity.Some? && !seen.unencrypted.Some?
  }

  /** A known screen whose button is not in the dump. */
  predicate Unanswerable(seen: Seen) {
    && !FirstRunScreen(seen)
    && if seen.proceed.Some? then !seen.ok.Some?
       else if seen.identity.Some? || seen.unencrypted.Some? then !seen.done.Some?
       else seen.invalid.Some? && !seen.ok.Some?
  }

  function ActionsOf(reply: Reply): seq<Action> {
    match reply
    case Did(_, actions) => actions
    case Refusal(actions) => actions
    case Raises(actions) => actions
    case _ => []
  }

  lemma FirstRunReplies(seen: Seen)
    ensures AnswerFirstRun(seen) == Nothing <==> !FirstRunScreen(seen)
    ensures FirstRunScreen(seen) ==> AnswerFirstRun(seen).Did? && AnswerFirstRun(seen).step != CredentialsEntered
  {
  }

  lemma SimpleReplies(seen: Seen)
    ensures AnswerSimple(seen) == Nothing <==> !KnownScreen(seen)
    ensures !FirstRunScreen(seen) ==> (AnswerSimple(seen).Refusal? <==> Refuses(seen))
    ensures !FirstRunScreen(seen) ==> (AnswerSimple(seen).Raises? <==> Unanswerable(seen))
    ensures AnswerSimple(seen) != Waiting
    ensures AnswerSimple(seen).Did? ==> AnswerSimple(seen).step != CredentialsEntered
  {
  }

  /** Each kind of answer, by what is on the screen. */
  lemma Replies(seen: Seen, entered: bool, typing: bool)
    ensures var reply := Answer(seen, entered, typing);
      && (reply == Nothing <==> Quiet(seen))
      && (reply.Refusal? <==> Refuses(seen))
      && (reply == Waiting <==> Asks(seen) && entered)
      && (reply.Raises? <==> Unanswerable(seen) || (Asks(seen) && !entered && !(typing && seen.done.Some?)))
      && (reply.Did? && reply.step == CredentialsEntered <==> Asks(seen) && !entered && typing && seen.done.Some?)
  {
    FirstRunReplies(seen);
    SimpleReplies(seen);
  }

  // ----- the loop

  /** What each round sees in its dump, whether the desktop activity is in front, and whether typing works. */
  datatype World = World(seen: nat -> Seen, front: nat -> bool, typing: nat -> bool)

  function WorldOf(dumps: nat -> Dump, front: nat -> bool, typing: nat -> bool): World {
    World((round: nat) => Scan(dumps(round)), front, typing)
  }

  datatype End = Settled(round: nat) | Refused(round: nat) | Raised(round: nat) | TimedOut

  /** One of the app's own views that stand in front of the desktop. */
  predicate Covered(seen: Seen) {
    seen.title.Some? || seen.help.Some? || seen.tutorial.Some? || seen.authentication.Some? || seen.unencrypted.Some?
  }

  predicate DesktopVisible(world: World, i: nat) {
    !Covered(world.seen(i)) && world.front(i)
  }

  predicate QuietSince(world: World, from: nat, to: nat) {
    forall j | from <= j < to :: Quiet(world.seen(j))
  }

  /** A round at which the desktop counts as up: nothing to answer, and the toolbar in the dump or the last of
      four such rounds with the desktop in front. */
  predicate Settles(world: World, i: nat) {
    && Quiet(world.seen(i))
    && (world.seen(i).toolbar.Some? ||
        (i + 1 >= QUIET_DUMPS && QuietSince(world, i + 1 - QUIET_DUMPS, i + 1) && DesktopVisible(world, i)))
  }

  predicate AskedBefore(world: World, i: nat) {
    exists j | 0 <= j < i :: Asks(world.seen(j))
  }

  predicate FailsAt(world: World, i: nat) {
    || Unanswerable(world.seen(i))
    || (Asks(world.seen(i)) && !AskedBefore(world, i) && !(world.typing(i) && world.seen(i).done.Some?))
  }

  predicate GoesOn(world: World, i: nat) {
    !Settles(world, i) && !Refuses(world.seen(i)) && !FailsAt(world, i)
  }

  /** The first round that ends the loop, and how. */
  predicate EndsAs(world: World, rounds: nat, end: End) {
    match end
    case TimedOut => AllGoOn(world, rounds)
    case _ => end.round < rounds && EndedBy(world, end.round, end) && AllGoOn(world, end.round)
  }

  predicate AllGoOn(world: World, i: nat) {
    forall j | 0 <= j < i :: GoesOn(world, j)
  }

  predicate EndedBy(world: World, i: nat, end: End) {
    || (end == Settled(i) && Settles(world, i))
    || (end == Refused(i) && Refuses(world.seen(i)))
    || (end == Raised(i) && FailsAt(world, i))
  }

  /** The rounds that were answered before the loop ended. */
  function Rounds(end: End, rounds: nat): nat {
    match end
    case Settled(i) => i + 1
    case Refused(i) => i + 1
    case Raised(i) => i + 1
    case TimedOut => rounds
  }

  function Entry(action: Action): nat {
    if action == EnterCredentials || action == EnterPassword then 1 else 0
  }

  /** How often the credentials are typed. */
  function Entries(actions: seq<Action>): nat {
    if actions == [] then 0 else Entries(actions[..|actions| - 1]) + Entry(actions[|actions| - 1])
  }

  /** At most two actions, of which only the first can type. */
  predicate FirstTypes(actions: seq<Action>, entries: nat) {
    && |actions| <= 2 && (|actions| == 0 ==> entries == 0) && (|actions| > 0 ==> Entry(actions[0]) == entries)
    && (|actions| == 2 ==> Entry(actions[1]) == 0)
  }

  lemma EntriesShort(actions: seq<Action>, entries: nat)
    requires FirstTypes(actions, entries)
    ensures Entries(actions) == entries
  {
    if |actions| > 0 {
      var init := actions[..|actions| - 1];
      if |actions| == 2 {
        assert init[..0] == [] && Entries(init) == Entry(actions[0]);
      }
    }
  }

  lemma {:induction false} EntriesSum(a: seq<Action>, b: seq<Action>)
    ensures Entries(a + b) == Entries(a) + Entries(b)
  {
    if b == [] {
      assert a + b == a;
    } else {
      assert (a + b)[..|a + b| - 1] == a + b[..|b| - 1];
      EntriesSum(a, b[..|b| - 1]);
    }
  }

  lemma AskedMore(world: World, i: nat)
    ensures AskedBefore(world, i + 1) <==> AskedBefore(world, i) || Asks(world.seen(i))
  {
  }

  /** The number of quiet rounds up to this one, back to one that was not. */
  predicate QuietCount(world: World, i: nat, quiet: nat) {
    quiet <= i && QuietSince(world, i - quiet, i) && (quiet < i ==> !Quiet(world.seen(i - quiet - 1)))
  }

  /** A count of quiet rounds that reaches back to one that was not tells whether the last four were quiet. */
  lemma QuietMore(world: World, i: nat, quiet: nat)
    requires QuietCount(world, i, quiet) && Quiet(world.seen(i))
    ensures QuietCount(world, i + 1, quiet + 1)
    ensures quiet + 1 >= QUIET_DUMPS <==> i + 1 >= QUIET_DUMPS && QuietSince(world, i + 1 - QUIET_DUMPS, i + 1)
  {
  }

  lemma FirstOnlyTypes(seen: Seen, entered: bool, typing: bool)
    ensures FirstTypes(ActionsOf(Answer(seen, entered, typing)), if Asks(seen) && !entered then 1 else 0)
  {
    FirstRunReplies(seen);
    SimpleReplies(seen);
  }

  /** An answer types the credentials once, or not at all. */
  lemma EntriesOf(seen: Seen, entered: bool, typing: bool)
    ensures Entries(ActionsOf(Answer(seen, entered, typing))) == if Asks(seen) && !entered then 1 else 0
  {
    FirstOnlyTypes(seen, entered, typing);
    EntriesShort(ActionsOf(Answer(seen, entered, typing)), if Asks(seen) && !entered then 1 else 0);
  }

  // ----- the taps of a whole run

  function RoundActions(world: World, i: nat): seq<Action> {
    ActionsOf(Answer(world.seen(i), AskedBefore(world, i), world.typing(i)))
  }

  /** All that is tapped and typed in the rounds so far. */
  function Answered(world: World, n: nat): seq<Action> {
    if n == 0 then [] else Answered(world, n - 1) + RoundActions(world, n - 1)
  }

  /** However many rounds ask for the credentials, they are typed once if one does. */
  lemma {:induction false} TypedOnce(world: World, n: nat)
    ensures Entries(Answered(world, n)) == if AskedBefore(world, n) then 1 else 0
  {
    if n == 0 {
    } else {
      TypedOnce(world, n - 1);
      AskedMore(world, n - 1);
      EntriesSum(Answered(world, n - 1), RoundActions(world, n - 1));
      EntriesOf(world.seen(n - 1), AskedBefore(world, n - 1), world.typing(n - 1));
    }
  }

  /** The button that accepts the first-run page, on a page where the analytics box is ticked; nothing else that
      the page is told by lies on the same node. */
  predicate AcceptsTicked(seen: Seen, node: UiNode) {
    && seen.accept == Some(node) && seen.analytics.Some? && seen.analytics.value.checked
    && seen.analytics != Some(node) && seen.tutorial != Some(node) && seen.dismiss != Some(node)
    && seen.next != Some(node) && seen.ok != Some(node) && seen.done != Some(node)
  }

  /** The k-th action is one of this round's, and does not accept a ticked box unless the action before it, of the
      same round, was a tap of the box. */
  predicate TapOf(world: World, j: nat, actions: seq<Action>, k: nat)
    requires k < |actions|
  {
    && |Answered(world, j)| <= k < |Answered(world, j + 1)| && actions[k] in RoundActions(world, j)
    && (actions[k].Tap? && AcceptsTicked(world.seen(j), actions[k].node) ==>
          |Answered(world, j)| < k && actions[k - 1] == Tap(world.seen(j).analytics.value))
  }

  /** In every run, each action has its round, and a tap that accepts the first-run page of its round while the
      analytics box is ticked there comes right after that round's tap of the box. */
  lemma {:induction false} AnalyticsNeverAccepted(world: World, n: nat, k: nat)
    requires k < |Answered(world, n)|
    ensures exists j | 0 <= j < n :: TapOf(world, j, Answered(world, n), k)
  {
    var before := Answered(world, n - 1);
    var actions := RoundActions(world, n - 1);
    if k < |before| {
      AnalyticsNeverAccepted(world, n - 1, k);
      var j :| 0 <= j < n - 1 && TapOf(world, j, before, k);
      assert TapOf(world, j, Answered(world, n), k);
    } else {
      RoundDeclines(world.seen(n - 1), AskedBefore(world, n - 1), world.typing(n - 1), k - |before|);
      assert Answered(world, n)[k] == actions[k - |before|];
      assert k > |before| ==> Answered(world, n)[k - 1] == actions[k - |before| - 1];
      assert TapOf(world, n - 1, Answered(world, n), k);
    }
  }

  lemma RoundDeclines(seen: Seen, entered: bool, typing: bool, k: nat)
    requires k < |ActionsOf(Answer(seen, entered, typing))|
    ensures var actions := ActionsOf(Answer(seen, entered, typing));
      actions[k].Tap? && AcceptsTicked(seen, actions[k].node) ==> k > 0 && actions[k - 1] == Tap(seen.analytics.value)
  {
    FirstRunReplies(seen);
    SimpleReplies(seen);
  }

  class App {
    const world: World
    var steps: seq<Step>
    var actions: seq<Action>

    constructor (world: World)
      ensures this.world == world && steps == [] && actions == []
    {
      this.world := world;
      steps := [];
      actions := [];
    }

    predicate Entered()
      reads this
    {
      CredentialsEntered in steps
    }

    method AnswerScreen(seen: Seen, typing: bool) returns (reply: Reply)
      modifies this
      ensures reply == Answer(seen, old(Entered()), typing) && actions == old(actions) + ActionsOf(reply)
      ensures steps == if reply.Did? then old(steps) + [reply.step] else old(steps)
    {
      reply := Answer(seen, Entered(), typing);
      actions := actions + ActionsOf(reply);
      if reply.Did? {
        steps := steps + [reply.step];
      }
    }

    method AnswerRound(i: nat) returns (reply: Reply)
      requires actions == Answered(world, i) && (Entered() <==> AskedBefore(world, i))
      modifies this
      ensures reply == Nothing <==> Quiet(world.seen(i))
      ensures reply.Refusal? <==> Refuses(world.seen(i))
      ensures reply.Raises? <==> FailsAt(world, i)
      ensures reply == Answer(world.seen(i), AskedBefore(world, i), world.typing(i))
      ensures actions == Answered(world, i + 1)
      ensures !reply.Raises? ==> (Entered() <==> AskedBefore(world, i + 1))
    {
      AskedMore(world, i);
      Replies(world.seen(i), AskedBefore(world, i), world.typing(i));
      reply := AnswerScreen(world.seen(i), world.typing(i));
    }

    /** The loop over the dumps. */
    method AnswerScreens(rounds: nat) returns (end: End)
      requires steps == [] && actions == []
      modifies this
      ensures EndsAs(world, rounds, end) && actions == Answered(world, Rounds(end, rounds))
    {
      var quiet := 0;
      for i := 0 to rounds
        invariant AllGoOn(world, i) && QuietCount(world, i, quiet)
        invariant actions == Answered(world, i) && (Entered() <==> AskedBefore(world, i))
      {
        var reply := AnswerRound(i);
        if reply.Refusal? {
          return Refused(i);
        }
        if reply.Raises? {
          return Raised(i);
        }
        if reply == Nothing {
          QuietMore(world, i, quiet);
          quiet := quiet + 1;
          if world.seen(i).toolbar.Some? || (quiet >= QUIET_DUMPS && DesktopVisible(world, i)) {
            return Settled(i);
          }
        } else {
          quiet := 0;
        }
      }
      end := TimedOut;
    }

    /** However the dumps come, the loop ends at the first round that settles, refuses or fails, and the
        credentials are typed once if any round asked for them and never again. */
    method Connect(rounds: nat) returns (end: End)
      requires steps == [] && actions == []
      modifies this
      ensures EndsAs(world, rounds, end) && actions == Answered(world, Rounds(end, rounds))
      ensures Entries(actions) == if AskedBefore(world, Rounds(end, rounds)) then 1 else 0
    {
      end := AnswerScreens(rounds);
      TypedOnce(world, Rounds(end, rounds));
    }
  }

  // ----- settling under a cover

  /** The desktop the loop settles on is covered exactly if the toolbar ended the loop while a dialog without its
      button, or an authentication sheet without its fields, was in the dump. */
  lemma SettledCovered(world: World, i: nat)
    requires Settles(world, i)
    ensures Covered(world.seen(i)) <==>
      world.seen(i).toolbar.Some? && (world.seen(i).title.Some? || world.seen(i).authentication.Some?)
  {
    assert Quiet(world.seen(i));
    if world.seen(i).toolbar.None? {
      assert DesktopVisible(world, i);
    }
  }

  lemma NothingWritten(word: string)
    requires word != ""
    ensures !PyText.Contains("", word)
  {
  }

  const SHEET_OPENING: Dump := [UiNode("", "menu_pin", false), UiNode("", "authentication_dialog", false)]

  lemma NoText(query: Query)
    requires query.Text? && query.text != ""
    ensures Find(SHEET_OPENING, query) == None
  {
    NothingWritten(query.text);
    FindFirst(SHEET_OPENING, query);
  }

  lemma NoId(query: Query)
    requires query.Id? && query.rid != "" && query.rid[|query.rid| - 1] != 'g'
    requires |query.rid| > 8 || query.rid[|query.rid| - 1] != 'n'
    ensures Find(SHEET_OPENING, query) == None
  {
    FindFirst(SHEET_OPENING, query);
    LastLetter("authentication_dialog", query.rid);
    LastLetter("menu_pin", query.rid);
  }

  lemma LastLetter(s: string, suffix: string)
    requires s != "" && suffix != ""
    ensures PyText.EndsWith(s, suffix) ==> |suffix| <= |s| && suffix[|suffix| - 1] == s[|s| - 1]
  {
  }

  /** The sheet's frame in the dump before its fields, with the toolbar still up, ends the loop at once. */
  lemma SettlesUnderCover(front: nat -> bool, typing: nat -> bool)
    ensures var world := WorldOf(_ => SHEET_OPENING, front, typing);
      Settles(world, 0) && Covered(world.seen(0))
  {
    SheetOpeningIds();
    SheetOpeningTexts();
    SheetOpeningShows();
  }

  lemma SheetOpeningTexts()
    ensures var seen := Scan(SHEET_OPENING);
      && seen.tutorial.None? && seen.hint.None? && seen.proceed.None? && seen.identity.None?
      && seen.unencrypted.None? && seen.invalid.None?
  {
    NoText(Text("SKIP TUTORIAL"));
    NoText(Text("Viewing full screen"));
    NoText(Text("Continue connecting?"));
    NoText(Text("Identity check"));
    NoText(Text("Unencrypted connection"));
    NoText(Text("Invalid username or password"));
  }

  lemma SheetOpeningIds()
    ensures var seen := Scan(SHEET_OPENING);
      && seen.help.None? && seen.accept.None? && seen.next.None? && seen.ok.None? && seen.user.None?
      && seen.password.None?
  {
    NoId(Id("help_view"));
    NoId(Id("accept_button"));
    NoId(Id("next_button"));
    NoId(Id("android:id/button1"));
    NoId(Id("UserEdit"));
    NoId(Id("PassEdit"));
  }

  lemma SheetOpeningShows()
    ensures Scan(SHEET_OPENING).toolbar.Some? && Scan(SHEET_OPENING).authentication.Some?
  {
    FindFirst(SHEET_OPENING, Id("menu_pin"));
    FindFirst(SHEET_OPENING, Id("authentication_dialog"));
    assert PyText.EndsWith(SHEET_OPENING[0].rid, "menu_pin") && PyText.EndsWith(SHEET_OPENING[1].rid, "authentication_dialog");
  }
}
