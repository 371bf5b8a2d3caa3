/** What `connect` of src/wayland_vnc/android_viewer.py taps and types, told from the dump alone: by the
    texts and resource ids its nodes carry. */
module ConnectScreens {
  import opened Results
  import opened Connect
  import PyText

  // ----- what a dump shows

  ghost predicate Says(nodes: Dump, text: string) {
    exists i | 0 <= i < |nodes| :: PyText.Contains(nodes[i].text, text)
  }

  ghost predicate Has(nodes: Dump, rid: string) {
    exists i | 0 <= i < |nodes| :: PyText.EndsWith(nodes[i].rid, rid)
  }

  /** The first node of the dump that says `text`. */
  ghost predicate FirstSaying(nodes: Dump, text: string, node: UiNode) {
    exists i | 0 <= i < |nodes| :: nodes[i] == node && PyText.Contains(node.text, text) &&
      forall j | 0 <= j < i :: !PyText.Contains(nodes[j].text, text)
  }

  /** The first node of the dump whose resource id ends in `rid`. */
  ghost predicate FirstWith(nodes: Dump, rid: string, node: UiNode) {
    exists i | 0 <= i < |nodes| :: nodes[i] == node && PyText.EndsWith(node.rid, rid) &&
      forall j | 0 <= j < i :: !PyText.EndsWith(nodes[j].rid, rid)
  }

  lemma FindText(nodes: Dump, text: string)
    ensures Find(nodes, Text(text)).Some? <==> Says(nodes, text)
    ensures Says(nodes, text) ==> FirstSaying(nodes, text, Find(nodes, Text(text)).value)
  {
    FindFirst(nodes, Text(text));
    if Says(nodes, text) {
      var i :| 0 <= i < |nodes| && PyText.Contains(nodes[i].text, text);
      assert Text(text).Matches(nodes[i]);
    }
  }

  lemma FindId(nodes: Dump, rid: string)
    ensures Find(nodes, Id(rid)).Some? <==> Has(nodes, rid)
    ensures Has(nodes, rid) ==> FirstWith(nodes, rid, Find(nodes, Id(rid)).value)
  {
    FindFirst(nodes, Id(rid));
    if Has(nodes, rid) {
      var i :| 0 <= i < |nodes| && PyText.EndsWith(nodes[i].rid, rid);
      assert Id(rid).Matches(nodes[i]);
    }
  }

  // ----- what an answer presses

  /** The step is taken by a tap of the first node with that id, after `before`; without one, `_tap` raises. */
  ghost predicate Presses(reply: Reply, step: Step, before: seq<Action>, nodes: Dump, rid: string) {
    if Has(nodes, rid) then
      reply.Did? && exists node :: FirstWith(nodes, rid, node) && reply == Did(step, before + [Tap(node)])
    else reply == Raises(before)
  }

  ghost predicate PressesText(reply: Reply, step: Step, nodes: Dump, text: string) {
    exists node :: FirstSaying(nodes, text, node) && reply == Did(step, [Tap(node)])
  }

  lemma TapForPresses(nodes: Dump, rid: string, before: seq<Action>, step: Step)
    ensures Presses(TapFor(Find(nodes, Id(rid)), before, step), step, before, nodes, rid)
  {
    FindId(nodes, rid);
  }

  lemma TapForText(nodes: Dump, text: string, step: Step)
    requires Says(nodes, text)
    ensures PressesText(TapFor(Find(nodes, Text(text)), [], step), step, nodes, text)
  {
    FindText(nodes, text);
    assert [] + [Tap(Find(nodes, Text(text)).value)] == [Tap(Find(nodes, Text(text)).value)];
  }

  // ----- which screens are up

  ghost predicate HintUp(nodes: Dump) {
    Says(nodes, "Viewing full screen") && Says(nodes, "Got it")
  }

  ghost predicate FirstRunUp(nodes: Dump) {
    || Says(nodes, "SKIP TUTORIAL") || Has(nodes, "help_view") || HintUp(nodes)
    || Has(nodes, "accept_button") || Has(nodes, "next_button")
  }

  ghost predicate KnownUp(nodes: Dump) {
    || Says(nodes, "Continue connecting?") || Says(nodes, "Identity check")
    || Says(nodes, "Unencrypted connection") || Says(nodes, "Invalid username or password")
  }

  ghost predicate SheetUp(nodes: Dump) {
    Has(nodes, "UserEdit") || Has(nodes, "PassEdit")
  }

  lemma FirstRunShows(nodes: Dump)
    ensures FirstRunScreen(Scan(nodes)) <==> FirstRunUp(nodes)
  {
    FindText(nodes, "SKIP TUTORIAL");
    FindId(nodes, "help_view");
    FindText(nodes, "Viewing full screen");
    FindText(nodes, "Got it");
    FindId(nodes, "accept_button");
    FindId(nodes, "next_button");
  }

  lemma KnownShows(nodes: Dump)
    ensures KnownScreen(Scan(nodes)) <==> KnownUp(nodes)
  {
    FindText(nodes, "Continue connecting?");
    FindText(nodes, "Identity check");
    FindText(nodes, "Unencrypted connection");
    FindText(nodes, "Invalid username or password");
  }

  lemma SheetShows(nodes: Dump)
    ensures Scan(nodes).user.Some? <==> Has(nodes, "UserEdit")
    ensures Scan(nodes).password.Some? <==> Has(nodes, "PassEdit")
  {
    FindId(nodes, "UserEdit");
    FindId(nodes, "PassEdit");
  }

  // ----- the answers, screen by screen

  /** The credentials sheet with nothing before it: both credentials where there is a field for the user
      name, the password alone where there is not, and then the button that sends them, once. */
  lemma CredentialsAnswered(nodes: Dump, entered: bool, typing: bool)
    requires !FirstRunUp(nodes) && !KnownUp(nodes) && SheetUp(nodes)
    ensures var reply := Answer(Scan(nodes), entered, typing);
      var typed := if Has(nodes, "UserEdit") then EnterCredentials else EnterPassword;
      if entered then reply == Waiting
      else if !typing then reply == Raises([typed])
      else Presses(reply, CredentialsEntered, [typed], nodes, "menu_done")
  {
    FirstRunShows(nodes);
    KnownShows(nodes);
    SheetShows(nodes);
    FirstRunReplies(Scan(nodes));
    SimpleReplies(Scan(nodes));
    TapForPresses(nodes, "menu_done", [if Has(nodes, "UserEdit") then EnterCredentials else EnterPassword], CredentialsEntered);
  }

  /** The four screens known by what they say, first come first answered: each has its own button. */
  lemma KnownAnswered(nodes: Dump, entered: bool, typing: bool)
    requires !FirstRunUp(nodes) && KnownUp(nodes)
    ensures var reply := Answer(Scan(nodes), entered, typing);
      if Says(nodes, "Continue connecting?") then Presses(reply, ContinueConnecting, [], nodes, "android:id/button1")
      else if Says(nodes, "Identity check") then Presses(reply, IdentityCheck, [], nodes, "menu_done")
      else if Says(nodes, "Unencrypted connection") then Presses(reply, UnencryptedAccepted, [], nodes, "menu_done")
      else if Has(nodes, "android:id/button1") then
        exists node :: FirstWith(nodes, "android:id/button1", node) && reply == Refusal([Tap(node)])
      else reply == Raises([])
  {
    var seen := Scan(nodes);
    FirstRunShows(nodes);
    KnownShows(nodes);
    FirstRunReplies(seen);
    SimpleReplies(seen);
    KnownOnes(nodes);
    TapForPresses(nodes, "android:id/button1", [], ContinueConnecting);
    TapForPresses(nodes, "menu_done", [], IdentityCheck);
    TapForPresses(nodes, "menu_done", [], UnencryptedAccepted);
    FindId(nodes, "android:id/button1");
  }

  lemma KnownOnes(nodes: Dump)
    ensures Scan(nodes).proceed.Some? <==> Says(nodes, "Continue connecting?")
    ensures Scan(nodes).identity.Some? <==> Says(nodes, "Identity check")
    ensures Scan(nodes).unencrypted.Some? <==> Says(nodes, "Unencrypted connection")
    ensures Scan(nodes).invalid.Some? <==> Says(nodes, "Invalid username or password")
  {
    FindText(nodes, "Continue connecting?");
    FindText(nodes, "Identity check");
    FindText(nodes, "Unencrypted connection");
    FindText(nodes, "Invalid username or password");
  }

  /** The first-run pages up to the hint over the desktop. */
  lemma TourAnswered(nodes: Dump, entered: bool, typing: bool)
    ensures var reply := Answer(Scan(nodes), entered, typing);
      if Says(nodes, "SKIP TUTORIAL") then PressesText(reply, TutorialSkipped, nodes, "SKIP TUTORIAL")
      else if Has(nodes, "help_view") then reply == Did(HelpClosed, [Back])
      else HintUp(nodes) ==> PressesText(reply, HintDismissed, nodes, "Got it")
  {
    FindText(nodes, "SKIP TUTORIAL");
    FindId(nodes, "help_view");
    FindText(nodes, "Viewing full screen");
    FindText(nodes, "Got it");
    if Says(nodes, "SKIP TUTORIAL") {
      TapForText(nodes, "SKIP TUTORIAL", TutorialSkipped);
    } else if HintUp(nodes) {
      TapForText(nodes, "Got it", HintDismissed);
    }
  }

  /** The page that is accepted, with its analytics box unticked first if it is ticked, and the pages before it. */
  lemma AcceptAnswered(nodes: Dump, entered: bool, typing: bool)
    requires !Says(nodes, "SKIP TUTORIAL") && !Has(nodes, "help_view") && !HintUp(nodes)
    ensures var reply := Answer(Scan(nodes), entered, typing);
      if Has(nodes, "accept_button") then
        (exists box :: FirstWith(nodes, "analytics_checkbox", box) && box.checked &&
          Presses(reply, AnalyticsDeclined, [Tap(box)], nodes, "accept_button"))
        || (Presses(reply, FirstRunAccepted, [], nodes, "accept_button") &&
          forall box :: FirstWith(nodes, "analytics_checkbox", box) ==> !box.checked)
      else Has(nodes, "next_button") ==> Presses(reply, TourNext, [], nodes, "next_button")
  {
    FindText(nodes, "SKIP TUTORIAL");
    FindId(nodes, "help_view");
    FindText(nodes, "Viewing full screen");
    FindText(nodes, "Got it");
    FindId(nodes, "accept_button");
    FindId(nodes, "next_button");
    FindId(nodes, "analytics_checkbox");
    TapForPresses(nodes, "accept_button", [], FirstRunAccepted);
    TapForPresses(nodes, "next_button", [], TourNext);
    var box := Find(nodes, Id("analytics_checkbox"));
    if box.Some? {
      TapForPresses(nodes, "accept_button", [Tap(box.value)], AnalyticsDeclined);
    }
    forall other | FirstWith(nodes, "analytics_checkbox", other) ensures box == Some(other) {
      FirstIsOne(nodes, "analytics_checkbox", other);
    }
  }

  lemma FirstIsOne(nodes: Dump, rid: string, node: UiNode)
    requires FirstWith(nodes, rid, node)
    ensures Find(nodes, Id(rid)) == Some(node)
  {
    FindFirst(nodes, Id(rid));
    var i :| 0 <= i < |nodes| && nodes[i] == node && PyText.EndsWith(node.rid, rid) &&
      forall j | 0 <= j < i :: !PyText.EndsWith(nodes[j].rid, rid);
    assert Id(rid).Matches(nodes[i]);
    assert forall j | 0 <= j < i :: !Id(rid).Matches(nodes[j]);
  }

  /** Any other dialog with a title and its button is answered by the button; any other dump is not answered. */
  lemma OtherAnswered(nodes: Dump, entered: bool, typing: bool)
    requires !FirstRunUp(nodes) && !KnownUp(nodes) && !SheetUp(nodes)
    ensures var reply := Answer(Scan(nodes), entered, typing);
      if Has(nodes, "alertTitle") && Has(nodes, "android:id/button1") then
        exists title :: FirstWith(nodes, "alertTitle", title) &&
          Presses(reply, Dialog(title.text), [], nodes, "android:id/button1")
      else reply == Nothing
  {
    FirstRunShows(nodes);
    KnownShows(nodes);
    SheetShows(nodes);
    FirstRunReplies(Scan(nodes));
    SimpleReplies(Scan(nodes));
    FindId(nodes, "alertTitle");
    FindId(nodes, "android:id/button1");
    if Has(nodes, "alertTitle") {
      TapForPresses(nodes, "android:id/button1", [], Dialog(Find(nodes, Id("alertTitle")).value.text));
    }
  }

  /** A sheet with both fields and its button. */
  const SHEET: Dump := [UiNode("", "UserEdit", false), UiNode("", "PassEdit", false), UiNode("", "menu_done", false)]

  lemma SheetSays(text: string)
    requires text != ""
    ensures !Says(SHEET, text)
  {
    NothingWritten(text);
  }

  lemma SheetLacks(rid: string)
    requires rid != "" && rid[|rid| - 1] !in ['t', 'e']
    ensures !Has(SHEET, rid)
  {
    LastLetter("UserEdit", rid);
    LastLetter("PassEdit", rid);
    LastLetter("menu_done", rid);
  }

  lemma SheetIsClear()
    ensures !FirstRunUp(SHEET) && !KnownUp(SHEET)
  {
    SheetSays("SKIP TUTORIAL");
    SheetLacks("help_view");
    SheetSays("Viewing full screen");
    SheetLacks("accept_button");
    SheetLacks("next_button");
    SheetSays("Continue connecting?");
    SheetSays("Identity check");
    SheetSays("Unencrypted connection");
    SheetSays("Invalid username or password");
  }

  lemma SheetFields()
    ensures Has(SHEET, "UserEdit") && FirstWith(SHEET, "menu_done", SHEET[2])
  {
    assert PyText.EndsWith(SHEET[0].rid, "UserEdit");
    assert PyText.EndsWith(SHEET[2].rid, "menu_done");
    LastLetter("UserEdit", "menu_done");
    LastLetter("PassEdit", "menu_done");
  }

  lemma BothTyped(nodes: Dump, button: UiNode)
    requires !FirstRunUp(nodes) && !KnownUp(nodes) && Has(nodes, "UserEdit") && FirstWith(nodes, "menu_done", button)
    ensures Answer(Scan(nodes), false, true) == Did(CredentialsEntered, [EnterCredentials] + [Tap(button)])
  {
    CredentialsAnswered(nodes, false, true);
    HasFirst(nodes, "menu_done", button);
    forall node | FirstWith(nodes, "menu_done", node) ensures node == button {
      FirstIsOne(nodes, "menu_done", node);
      FirstIsOne(nodes, "menu_done", button);
    }
  }

  lemma HasFirst(nodes: Dump, rid: string, node: UiNode)
    requires FirstWith(nodes, rid, node)
    ensures Has(nodes, rid)
  {
  }

  /** It gets the user name and the password, and then its own button. */
  lemma SheetGetsBoth()
    ensures Answer(Scan(SHEET), false, true) == Did(CredentialsEntered, [EnterCredentials] + [Tap(SHEET[2])])
  {
    SheetIsClear();
    SheetFields();
    BothTyped(SHEET, SHEET[2]);
  }

  // ----- when the desktop counts as up

  lemma CoveredExactly(nodes: Dump)
    ensures Covered(Scan(nodes)) <==>
      || Has(nodes, "alertTitle") || Has(nodes, "help_view") || Says(nodes, "SKIP TUTORIAL")
      || Has(nodes, "authentication_dialog") || Says(nodes, "Unencrypted connection")
  {
    FindId(nodes, "alertTitle");
    FindId(nodes, "help_view");
    FindText(nodes, "SKIP TUTORIAL");
    FindId(nodes, "authentication_dialog");
    FindText(nodes, "Unencrypted connection");
  }

  lemma ToolbarShows(nodes: Dump)
    ensures Scan(nodes).toolbar.Some? <==> Has(nodes, "menu_pin")
  {
    FindId(nodes, "menu_pin");
  }

  /** With nothing to answer from the start and the desktop in front, it takes the toolbar or a fourth dump. */
  lemma FourthQuietDumpSettles(world: World, i: nat)
    requires forall j | 0 <= j <= i :: Quiet(world.seen(j)) && world.seen(j).toolbar.None?
    ensures Settles(world, i) <==> i >= 3 && world.front(i) && !Covered(world.seen(i))
  {
  }
}
