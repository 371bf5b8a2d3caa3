# Verified models of wayland-vnc

Dafny models of the parts of wayland-vnc whose correctness is hardest to see, with proofs of what those parts are
for. `dafny verify dfyconfig.toml` checks everything; no file needs another tool.

The models follow the program file by file. Code that updates state is a class or a method with loops, proved against
a specification; code made of expressions is functions. What the program learns from outside — UI dumps, pointer
reports, what a viewer shows, whether a file operation fails, digests, identifiers, the clock — is an arbitrary
function, so each theorem holds for every behaviour of the outside world it names.

- **Catalogues** (`PoReader`, `MoFile`, `CompileCatalogue`, over `PyText`): PO text to the bytes of an MO file, following
  chapter 3 ("The Format of PO Files") and section 10.3 ("The Format of GNU MO Files") of the GNU gettext manual. A
  printed document parses to what it says, the bytes decode to the catalogue, and binary search over them agrees with
  it.
- **Installer** (`Installer`, `Uninstaller`, over `Json`): an ordered list of package files installed into a tree, with
  backups and a manifest. Any step may fail. Installing is all or nothing, uninstalling undoes it.
- **Credentials and configuration** (`ConfigText`, `Runtime`, over `Numerals`): two text files that hold the password, and
  a server that has loaded one of them. All copies stay in step through any run of operations.
- **Scenarios** (`Scenarios` against the adversary in `Driver`): session discipline, fixture modes and when exactly each
  scenario passes, for every driver that does not raise. A driver's answers are a table by number with an answer for
  every other one, which is any behaviour at all, since a run asks finitely many questions.
- **Records, store and gate** (`RunRecord`, `QualifyingRun`, `ManualInput`, `EvidenceStore`, `Qualification`): how a record
  comes to be marked passed, that a run without fault qualifies, what copying preserves, and exactly which lists of
  records pass the gate.
- **Pointer and connection** (`Pointer`, `PointerBudget`, `Connect`, `ConnectScreens`, over `Rounding`): the learning pointer
  loop, for every pointer and, for linear pointers, its convergence; the screen-answering loop, for every sequence of
  dumps, and what it types and taps on each.
- **Kernels** (`ImageEvidence`, `Edid`, `BufferLayout`): scanning pixel rows, packing detailed timings (section 3.10.2 of
  the E-EDID standard, release A revision 2, with the checksum of section 3.11), and the wrap-around-aware layout check.

Some promises hold only in part. The members named here say where they fail, and exactly when they hold:

- `apply_network` accepts a blank address; with no server running, the next password change then misses the
  configuration (`Runtime.BlankAddressLosesCredential`). It accepts an address of several lines, too; with nothing
  stored and no server running, such an address can make the configuration ask for a credential that nobody stored
  (`Runtime.AddressNamesCredential`, and exactly when in `Runtime.ApplyNetworkKeeps`).
- A viewer that does not report its size in the 4K scenario leaks that scenario's session
  (`Scenarios.Session.ScenarioHighDpi`, `Scenarios.Session.RunScenarios`, `Scenarios.LeakingRun`).
- `uninstall` checks neither for absolute backup paths, nor for paths listed twice, nor for backups listed as installed
  before it starts removing; it can then raise half-way (`Uninstaller.CheckedIsCarriedThrough`,
  `Uninstaller.AbsoluteBackupLosesFile`, `Uninstaller.ListedBackupIsLost`, `Uninstaller.FailureKeepsTree`).
- A failed install puts every file back, but what an older backup directory held of the files it had moved is gone
  (`Installer.Root.Install`, `Installer.RolledBackExactly`).
- An artifact named `records.json` is overwritten by the store's own list (`EvidenceStore.MirroredQualifies`,
  `EvidenceStore.ListReplacesLog`). The runs of this program give no artifact that name.
- A merge of manual input replaces a log that is called like its screenshot, and overwrites a file that the record
  already names at the place of its results (`ManualInput.MergeKeepsEvidence`).
- `connect` settles under a cover if the toolbar is in the dump together with a dialog that has no button or an
  authentication sheet that has no fields yet (`Connect.SettledCovered`, `Connect.SettlesUnderCover`).
- A held drag is not clamped as swipes are (`Pointer.DragInside`).
- A stray pixel of the first colour hides the bars that follow it (`ImageEvidence.StrayPixelHides`, and exactly when in
  `ImageEvidence.FirstRunDecides`).
- From tolerance 43 on, one orange pixel counts both for the scroll marker and for the drag marker; at the usual 24 no
  pixel counts twice (`ImageEvidence.CountsOnceExactly`).
- The comment in `make-edid.py` calls the vertical blanking 460 microseconds at least. Its lines are counted by the line
  time of the unblanked picture, so for 1600x1200 it comes out shorter (`Edid.FrameBlankingExactly`,
  `Edid.GuestBlankingLasts`).
- PO text cannot carry the line breaks `splitlines` knows and the escapes do not (`PoReader.UncarriedIsLost`).

## Model

| member | source | states |
|---|---|---|
| `PoReader.Unquote` | scripts/compile_catalogue.py:35-51 | the text of one quoted line with its escapes undone, or the error for a line that is not quoted |
| `PoReader.OtherEscapes` | scripts/compile_catalogue.py:43-47 | a backslash before a character that is no escape adds nothing to it |
| `PoReader.Reader.Flush` | scripts/compile_catalogue.py:75-86 | closing an entry keeps it exactly if it is translated and not fuzzy, or is the header; a plural entry raises |
| `PoReader.Reader.ContinueField` | scripts/compile_catalogue.py:88-93 | a quoted line goes to the open field, and is passed over if none is open |
| `PoReader.Reader.StartEntry` | scripts/compile_catalogue.py:95-98 | a msgid closes the entry before it and opens its own, which a pending fuzzy flag then belongs to |
| `PoReader.Reader.Feed` | scripts/compile_catalogue.py:100-117 | the state after any line, for each kind of line, and the error for a line of no known kind |
| `PoReader.Parse` | scripts/compile_catalogue.py:120-126 | reading a text line by line comes to the fold of its lines over the reader state |
| `PoReader.ParsePrinted` | scripts/compile_catalogue.py:35-126 | parsing any printed document, however wrapped and with any comments, gives exactly the translated non-fuzzy messages and the header; a fuzzy flag, in whatever flag comment, reaches only the next message |
| `PoReader.TranslatedExactly` | scripts/compile_catalogue.py:75-126 | in the catalogue of a printed document a non-empty key has a value exactly if the last message with that msgid that has a translation, and no fuzzy flag between it and the message before, has that translation |
| `PoReader.HeaderExactly` | scripts/compile_catalogue.py:75-126 | the header is in the catalogue even when flagged fuzzy or empty, and the last one counts |
| `PoReader.FlagCostsOneMessage` | scripts/compile_catalogue.py:75-126 | a fuzzy flag above two messages costs the first its entry and the second nothing |
| `PoReader.ParsedIsCarried` | scripts/compile_catalogue.py:35-126 | no parsed string holds a line break the format cannot escape, whatever the text |
| `PoReader.UncarriedIsLost` | scripts/compile_catalogue.py:35-126 | a string with such a line break never survives printing and parsing: the limit in ParsePrinted is exact |
| `PoReader.PluralRefused` | scripts/compile_catalogue.py:100-117 | a plural line anywhere after an opened msgid makes the whole parse fail |
| `PoReader.ContextRefused` | scripts/compile_catalogue.py:100-117 | a message context anywhere makes the whole parse fail |
| `PoReader.UnknownRefused` | scripts/compile_catalogue.py:100-117 | so does a line that is neither blank nor a comment nor begins as a line of an entry does |
| `PyText.SplitUnlines` | scripts/compile_catalogue.py:120-126 | splitting joined lines gives the lines back, for lines without any of the breaks `splitlines` knows |
| `PyText.BreaksExactly` | scripts/compile_catalogue.py:120-126 | the line breaks and the white space of Python, character by character |
| `MoFile.SortedKeys` | scripts/compile_catalogue.py:129-154 | the keys of the catalogue, each once, strictly increasing |
| `MoFile.LessExactly` | scripts/compile_catalogue.py:131-131 | the order is that of `bytes`: one key is before another exactly if some prefix of it is a prefix of the other and it either ends there or goes on with a smaller byte |
| `MoFile.SortedKeysInOrder` | scripts/compile_catalogue.py:131-131 | each sorted key is before every later one in that order, stated on the bytes |
| `MoFile.Serialise` | scripts/compile_catalogue.py:129-154 | the bytes are the two-table layout of the sorted strings, the keys they hold increase in the order of `bytes`, and it raises exactly if a number does not fit in 32 bits |
| `MoFile.WrittenInOrder` | scripts/compile_catalogue.py:129-154 | of the keys the table of the written bytes points at, each is before every later one, stated on the bytes |
| `MoFile.HeaderBytes` | scripts/compile_catalogue.py:150-150 | the file begins with the magic number, lowest byte first, revision 0, the count and the place of the first table |
| `MoFile.LayOut` | scripts/compile_catalogue.py:129-154 | offsets handed out msgids first, then translations, give that layout |
| `MoFile.PlaceRun` | scripts/compile_catalogue.py:136-146 | each loop places its strings one after the other, each ended by a NUL |
| `MoFile.Pack` | scripts/compile_catalogue.py:147-154 | packing raises exactly if some word is over 32 bits, and else gives header, tables and strings |
| `MoFile.FitsExactly` | scripts/compile_catalogue.py:129-154 | the catalogue is writable exactly if its last translation starts, and measures, within 32 bits |
| `MoFile.U32RoundTrip` | scripts/compile_catalogue.py:147-154 | reading a packed 32-bit word gives the number back |
| `MoFile.CellReads` | scripts/compile_catalogue.py:129-154 | table cell i holds the length of string i and where it starts |
| `MoFile.CellPoints` | scripts/compile_catalogue.py:129-154 | every entry is in bounds and points at its string, NUL-terminated |
| `MoFile.CellsTilePayload` | scripts/compile_catalogue.py:129-154 | the strings tile the payload from the end of the tables to the end of the file, without gap or overlap |
| `MoFile.LookupAgrees` | scripts/compile_catalogue.py:129-154 | a length-based binary search over the bytes returns the value of every key present and nothing for every other byte string |
| `MoFile.LoadRoundTrip` | scripts/compile_catalogue.py:129-154 | decoding the bytes gives the whole map back |
| `CompileCatalogue.Compile` | scripts/compile_catalogue.py:157-162 | the compiled bytes translate each message of the text exactly as parsed, and nothing else; it raises exactly when parsing or packing does |
| `CompileCatalogue.DocumentTranslates` | scripts/compile_catalogue.py:35-162 | printed document to bytes: looking a message up gives what the document says of it |
| `Installer.Root.AtomicWrite` | src/wayland_vnc/installer.py:49-60 | the written file and nothing else changes, or, failing, nothing does |
| `Installer.Root.PlaceFile` | src/wayland_vnc/installer.py:63-99 | one turn of the loop: what is in the way is set aside, then the file is written |
| `Installer.Root.RollbackPartial` | src/wayland_vnc/installer.py:102-112 | every installed file is unlinked and every backup that is there put back, both in reverse order |
| `Installer.Root.Install` | src/wayland_vnc/installer.py:63-112 | all or nothing: for every tree and every failing step, either every package file, backup and the manifest are in place and nothing else changed, or every path outside the state directory is as it was, there is no new manifest, and of the backup directory only the entries of the files set aside before the failing step are gone; it succeeds exactly if nothing was installed, no path is refused and no step fails |
| `Installer.UnsafeExactly` | src/wayland_vnc/installer.py:36-46 | a path is refused exactly if it begins with a slash or one of its parts is two dots |
| `Installer.RolledBackExactly` | src/wayland_vnc/installer.py:63-112 | a failed install leaves the whole tree as it was exactly if the backup directory held nothing of the files it had set aside |
| `Uninstaller.CheckFirst` | src/wayland_vnc/installer.py:115-155 | the checks come to what CheckedExactly states, without touching anything |
| `Uninstaller.ReadExactly` | src/wayland_vnc/installer.py:115-141 | the manifest is read exactly if it is there, of version 1 and of the right shape, and then for the files and backups it lists |
| `Uninstaller.CheckedExactly` | src/wayland_vnc/installer.py:142-155 | the checks accept a readable manifest exactly if every listed file is there with the recorded digest, no listed path is absolute or has two dots, and every backup is there |
| `Uninstaller.ChangedFileStops` | src/wayland_vnc/installer.py:142-148 | one listed file with another digest, or gone, and uninstalling raises and the tree is as it was |
| `Uninstaller.MissingBackupStops` | src/wayland_vnc/installer.py:149-155 | one listed backup gone, and uninstalling raises and the tree is as it was |
| `Uninstaller.ManifestTells` | src/wayland_vnc/installer.py:63-99 | the manifest of a finished install, field by field: path, digest and mode of each file, and the paths that held something before |
| `Uninstaller.Uninstall` | src/wayland_vnc/installer.py:134-170 | the tree after uninstalling is the effect of the unlinks and the restores, in order, up to the first that raises; a tree that is not as the manifest records is left alone with an error |
| `Uninstaller.UnlinkEachEffect` | src/wayland_vnc/installer.py:156-160 | present files can be unlinked one by one exactly if none is listed twice |
| `Uninstaller.RestoreEachSucceeds` | src/wayland_vnc/installer.py:161-167 | backups go back one by one, from any tree, exactly if no destination is refused and each is there when its turn comes, whatever earlier ones moved or wrote |
| `Uninstaller.RestoreEachEffect` | src/wayland_vnc/installer.py:161-167 | what every path then holds, followed back through the moves to where it came from |
| `Uninstaller.CheckedIsCarriedThrough` | src/wayland_vnc/installer.py:134-170 | after the checks, for every manifest they accept, uninstalling succeeds exactly if the manifest alone says so: nothing installed listed twice, no absolute backup path, and every backup neither listed as installed nor moved away before its turn; and what every path then holds; it returns what it removed and restored |
| `Uninstaller.OutsideIsCarriedThrough` | src/wayland_vnc/installer.py:134-170 | for backups that go back outside the state directory: it succeeds exactly if nothing is listed twice, no backup path is absolute and neither the manifest nor a backup is listed as installed; backed-up paths get their backup back, other installed ones go, and nothing else changes outside the backup directory |
| `Uninstaller.FailureKeepsTree` | src/wayland_vnc/installer.py:134-170 | an uninstall that raises has left the tree as it was exactly if a check raised, or nothing is listed as installed and the first backup path is absolute |
| `Uninstaller.AbsoluteBackupLosesFile` | src/wayland_vnc/installer.py:134-170 | a manifest with an absolute backup path passes the checks and then raises with the installed file already removed |
| `Uninstaller.ListedBackupIsLost` | src/wayland_vnc/installer.py:134-170 | a manifest that lists its own backup as installed passes the checks and then raises with the backup, the only copy, already removed |
| `Uninstaller.UninstallUndoesInstall` | src/wayland_vnc/installer.py:63-170 | uninstalling after installing, for every tree and package and any later changes elsewhere, restores every path outside the state directory and leaves no manifest or backup |
| `ConfigText.FileReads` | src/wayland_vnc/runtime.py:80-131 | a file written from single-line settings reads back as exactly those settings |
| `ConfigText.CredentialsRoundTrip` | src/wayland_vnc/runtime.py:60-131 | reading the credentials file gives the credential that was written, whatever characters it is made of |
| `ConfigText.ConfigReads` | src/wayland_vnc/runtime.py:155-203 | a written configuration reads back as its bind and its credential, also when those contain `=` or look like settings |
| `ConfigText.AuthenticationIsOn` | src/wayland_vnc/runtime.py:155-187 | every written configuration turns authentication on, keeps encryption strict and names the key, whatever lines the address holds, for a path of one line |
| `ConfigText.AcceptableExactly` | src/wayland_vnc/runtime.py:60-77 | a credential is accepted exactly if the user name is printable ASCII and not empty and the password is 6 to 64 such characters with no space at either end |
| `ConfigText.BindRoundTrip` | src/wayland_vnc/runtime.py:155-203 | the bind read back is the one given for exactly the addresses that are one trimmed line with something on it |
| `ConfigText.ConfigReadsAny` | src/wayland_vnc/runtime.py:155-203 | what any address at all comes to, beside a path without such lines: the bind read back is what its lines leave, and the credential is the stored one or else the one its lines name |
| `ConfigText.ConfigReadsPath` | src/wayland_vnc/runtime.py:155-203 | what any address and any path to the key come to, whatever lines they hold: the path's lines override address and port, and a stored credential overrides both |
| `ConfigText.SingleLinePath` | src/wayland_vnc/runtime.py:155-203 | a path of one line overrides nothing |
| `Numerals.ParseShow` | src/wayland_vnc/runtime.py:190-203 | reading a printed port gives the port |
| `Runtime.Host.SetPassword` | src/wayland_vnc/runtime.py:117-131 | the credentials file holds the new credential, or an unacceptable one raises with nothing changed |
| `Runtime.Host.Provision` | src/wayland_vnc/runtime.py:155-187 | the configuration is written from the credentials file and the bind; a bad port raises first |
| `Runtime.Host.EnsureCredentials` | src/wayland_vnc/runtime.py:134-152 | a generated password is stored only where there is none |
| `Runtime.Host.Serve` | src/wayland_vnc/runtime.py:834-881 | serving loads the configuration it has just rewritten for the stored bind |
| `Runtime.Host.RestartService` | src/wayland_vnc/runtime.py:229-242 | only an active unit is restarted |
| `Runtime.Host.Start` | src/wayland_vnc/settings.py:589-597 | starting an active unit changes nothing, starting another launches it |
| `Runtime.Host.Stop` | src/wayland_vnc/settings.py:589-591 | stopping takes the server down and leaves every file as it is |
| `Runtime.Host.SetCredential` | src/wayland_vnc/settings.py:513-538 | the new credential is stored, the configuration refreshed and an active server restarted |
| `Runtime.Host.ApplyNetwork` | src/wayland_vnc/settings.py:540-558 | the bind is stored and an active server restarted |
| `Runtime.Host.SetLanAccess` | src/wayland_vnc/settings.py:560-565 | the switch is a change of address that keeps the stored port |
| `Runtime.InStepBind` | src/wayland_vnc/runtime.py:155-242 | in step, the bind read from the configuration can be provisioned again as it is |
| `Runtime.LaunchedInStep` | src/wayland_vnc/runtime.py:834-881 | a launch from readable files keeps bind and credential, and the server runs on the configuration on disk |
| `Runtime.FirstLaunch` | src/wayland_vnc/runtime.py:834-881 | the first launch of all generates a password for the user vnc and serves on 127.0.0.1:5900 with it |
| `Runtime.SetCredentialKeeps` | src/wayland_vnc/settings.py:513-538 | a new credential reaches every copy and moves neither address nor port; a refused one changes nothing |
| `Runtime.ApplyNetworkKeeps` | src/wayland_vnc/settings.py:540-558 | a new bind is stored exactly for ports from 1025 to 65535 and an active server restarted; for every address all copies are in step afterwards exactly if the port was refused, a server runs, or something is left of the address and a credential is stored or the address names none |
| `Runtime.SetLanAccessKeeps` | src/wayland_vnc/settings.py:560-565 | the switch always succeeds and keeps port and credential |
| `Runtime.RunStaysInStep` | src/wayland_vnc/settings.py:513-597 | every sequence of operations, refused ones included, keeps all copies in step, for addresses that leave something and name no credential |
| `Runtime.RunAgrees` | src/wayland_vnc/settings.py:513-597 | from an empty directory, after any such run: the configured credential is the stored one and an active server runs on the configuration on disk |
| `Runtime.BlankAddressLosesCredential` | src/wayland_vnc/settings.py:513-558 | storing any address and then changing the password leaves the copies equal exactly if something is left of the address or a server runs |
| `Runtime.AddressNamesCredential` | src/wayland_vnc/settings.py:540-558 | an address of several lines that names a credential makes the configuration ask for it although none is stored |
| `Driver.Driver.Connect` | src/wayland_vnc/desktop_scenarios.py:64-96 | a fresh session, open from then on; the peak of open sessions is recorded |
| `Driver.Driver.Disconnect` | src/wayland_vnc/desktop_scenarios.py:64-96 | only an open session can be closed |
| `Driver.Driver.Restart` | src/wayland_vnc/desktop_scenarios.py:64-96 | the restarted fixture is in the mode it was in or in the base mode |
| `Scenarios.Session.CaptureValid` | src/wayland_vnc/desktop_scenarios.py:126-138 | a capture it returns is the session's answer to the last question it asked, a screenshot, and shows the scene; there is none only once the deadline is over or the viewer not alive when asked; a viewer that shows the scene at once is asked once; it asks at most three questions for each quarter of a second left, and six more |
| `Scenarios.Session.ConnectAndCapture` | src/wayland_vnc/desktop_scenarios.py:167-196 | one open session is returned and every other one it opened is closed, after at most two connections; the capture is that session's answer to a screenshot question, and there is none only if the viewer showed no scene |
| `Scenarios.Session.ScenarioFirstFrame` | src/wayland_vnc/desktop_scenarios.py:199-205 | passes exactly if a valid frame came, and then records the time from the opening of the session that gave it, which is the first or followed a failure the viewer called transient; leaves no session open; with every answer yes, it fails only after ten seconds |
| `Scenarios.Session.ScenarioChangingFrames` | src/wayland_vnc/desktop_scenarios.py:208-221 | passes exactly if both captures of one session came, one before and one after a second's wait, and their contents differ; so for every viewer that shows the scene with two contents; with every answer yes it fails for want of a frame only after six seconds |
| `Scenarios.Session.ScenarioReconnect` | src/wayland_vnc/desktop_scenarios.py:224-244 | passes exactly if twenty rounds gave a frame, each of a later session than the one before; ends within 23 rounds, and fails only at a fourth round without a frame or at one whose failure the viewer did not call transient; counts twenty cycles or keeps the count; with every answer yes, it fails only after forty seconds |
| `Scenarios.Session.ScenarioViewerKilled` | src/wayland_vnc/desktop_scenarios.py:247-257 | passes exactly if a frame came before the session was closed and another, of a later session, after; leaves no session open |
| `Scenarios.Session.ScenarioNetworkInterruption` | src/wayland_vnc/desktop_scenarios.py:260-278 | passes exactly if a frame came before the interruption and, after it, another frame of the session, alive when asked, or else one of a later session once that was closed; leaves no session open; with every answer yes, the session had five seconds and a later one ten |
| `Scenarios.Session.Recover` | src/wayland_vnc/desktop_scenarios.py:260-278 | whether the session survives or is replaced, it is closed and at most one is open; it passes exactly with another frame of the session, which was alive when asked, or else with one of a later session |
| `Scenarios.Session.ScenarioServerRestart` | src/wayland_vnc/desktop_scenarios.py:281-289 | passes exactly if the smoke check after the restart passed and a frame came after it; the fixture is in the base mode again |
| `Scenarios.Session.FramebufferSize` | src/wayland_vnc/desktop_scenarios.py:151-164 | the viewer's report where it has one, else the size of the screenshot; no size is an error only of a viewer that reports sizes |
| `Scenarios.Session.ScenarioResize` | src/wayland_vnc/desktop_scenarios.py:316-347 | passes exactly if a frame came before and after the mode change, the session was then alive and the size, as it says or as the frame shows, is the new one; session closed and base mode restored even if the size report raises, which is exactly when a size was left unreported; not run exactly where the fixture cannot resize; the live resize is switched on before and off after |
| `Scenarios.Session.ScenarioHighDpi` | src/wayland_vnc/desktop_scenarios.py:350-374 | passes exactly if it got a frame and its size is the 4K one; raises, and then leaks its session, exactly if it got a frame and the session leaves its size unreported; leaves the fixture in its mode; it gets a frame from every viewer that always shows one, on an idle and healthy fixture; not run exactly where the fixture cannot change its mode |
| `Scenarios.Session.ScenarioPortalApprove` | src/wayland_vnc/desktop_scenarios.py:389-402 | passes exactly if the fixture passed its smoke check, a frame came and the portal logged an approval meanwhile |
| `Scenarios.Session.ScenarioPortalDeny` | src/wayland_vnc/desktop_scenarios.py:405-427 | passes exactly if the fixture passed its smoke check, the portal logged a denial, no screenshot showed the scene from then until the portal approves again, and the fixture restarted after it passed its check and gave a frame; the portal is told to approve again whatever the denial came to |
| `Scenarios.Session.ScenarioPortalRestore` | src/wayland_vnc/desktop_scenarios.py:430-456 | passes exactly if a frame came under a grant logged as persistent and, after a restart that keeps the token and a smoke check that passed, one of a session with no one to answer for which the portal logged nothing; the portal is told to approve again however it ends |
| `Scenarios.Session.ScenarioInput` | src/wayland_vnc/desktop_scenarios.py:459-492 | decides all four inputs through one session, closed however the waiting ends; without a frame all fail; with one each passes exactly if one of the screenshots asked for after that input was made holds its marker; it raises exactly on a screenshot that cannot be judged, and an input fails only after five seconds |
| `Scenarios.Session.InputsApart` | src/wayland_vnc/desktop_scenarios.py:459-492 | each of the four inputs has an action and a marker of its own |
| `Scenarios.Session.ScenarioLock` | src/wayland_vnc/desktop_scenarios.py:518-553 | passes exactly with captures of one session: the scene before the lock, one without it while locked with the session alive right after, and the scene again after the secret was typed with the session alive right after; not run exactly where the fixture cannot lock or the viewer cannot type; however it ends, the session is closed and the fixture then unlocked |
| `Scenarios.Session.NeedsKeyExactly` | src/wayland_vnc/desktop_scenarios.py:299-308 | the runner presses a key first exactly on GNOME and Plasma and for a viewer that does not |
| `Scenarios.Session.ScenarioMonitorChange` | src/wayland_vnc/desktop_scenarios.py:556-579 | passes exactly if a frame came before the second monitor, one while it was there and one after it went, the last unlike the first, and the session was then alive; not run exactly where the fixture cannot |
| `Scenarios.Session.ScenarioSuspendResume` | src/wayland_vnc/desktop_scenarios.py:582-618 | passes exactly if a frame came, the hypervisor says that the machine suspended and runs again, and then another frame of the session, alive when asked, or else one of a later session came; not run exactly where the machine cannot suspend |
| `Scenarios.Derived` | src/wayland_vnc/desktop_scenarios.py:679-695 | colours and base mode are decided by the first frame, the latter passed only at 1920x1080 |
| `Scenarios.WithDefaults` | src/wayland_vnc/desktop_scenarios.py:714-719 | every manual scenario nothing decided is not run; decided ones are kept |
| `Scenarios.Session.RunGroup` | src/wayland_vnc/desktop_scenarios.py:654-664 | every selected undecided scenario is decided with evidence given meanwhile and no other is; decided ones are kept; if a size was left unreported, and so a scenario raised, the live resize is a failure with nothing captured |
| `Scenarios.Session.RunNext` | src/wayland_vnc/desktop_scenarios.py:654-664 | one more scenario is decided, with evidence, and every earlier decision kept; if a size was left unreported meanwhile, it was the live resize, which raised and is a failure with nothing captured |
| `Scenarios.Session.RunInput` | src/wayland_vnc/desktop_scenarios.py:667-676 | all four inputs are decided if none or at least one of them is selected for a targeted run, and else nothing is; nothing but inputs is decided anew; a viewer that takes input leaves none of them not run, even if the scenario raises |
| `Scenarios.Session.CanExactly` | src/wayland_vnc/desktop_scenarios.py:292-296 | a fixture can be resized, locked and hot-plugged exactly if it is one of the six that can by name or its machine can |
| `Scenarios.Session.RunScenarios` | src/wayland_vnc/desktop_scenarios.py:698-723 | for every driver that does not raise: the recorded mode is the real one at the smoke check, scenarios before the 4K one start in the base mode, at most one session is open and none is left, but for one leaked exactly when the 4K scenario misses its size report and is recorded as failed, as it does with every viewer that always shows the scene and never says its size; with nothing left unselected every required scenario is decided, each pass with its evidence, all of it answers the viewer gave to screenshot questions during the run; a passed first frame has a latency and passed reconnects their count of twenty; a fixture that fails its first smoke check fails the first frame; recorded health is the answer to the last question, a smoke check in the mode the run ended in; portal-revoke is not run; with a fixture other than Plasma and a viewer without fault everything passes, on a healthy fixture and with a first frame in no time |
| `Scenarios.LeakingRun` | src/wayland_vnc/desktop_scenarios.py:350-374 | a run that ends with a session open |
| `RunRecord.RequiredTexts` | src/wayland_vnc/qualification.py:121-129 | the names the gate requires of a target are the names the run requires of its fixture |
| `RunRecord.Gather` | src/wayland_vnc/desktop_scenarios.py:738-742 | the captures of all outcomes in order of first appearance, once each |
| `RunRecord.Draft.Fill` | src/wayland_vnc/desktop_scenarios.py:726-773 | the record and the evidence root after a run |
| `RunRecord.FillEarns` | src/wayland_vnc/desktop_scenarios.py:726-773 | a run marks its record passed exactly if the fixture stayed healthy and every required scenario passed |
| `RunRecord.FilledQualifies` | src/wayland_vnc/desktop_scenarios.py:726-773 | whatever the outcomes are, the record filled with them qualifies at the gate exactly if all required scenarios passed on a healthy fixture, with a capture, a first frame within ten seconds, twenty reconnects and a well-presented subject |
| `RunRecord.RunQualifies` | src/wayland_vnc/desktop_scenarios.py:726-773 | the record of outcomes, measurements and captures that a run can leave qualifies exactly if the fixture stayed healthy, all required scenarios passed, the first frame came within ten seconds and the subject is well presented: capture and reconnect count follow |
| `RunRecord.PartialPresents` | src/wayland_vnc/qualification.py:53-69 | a new record presents its subject exactly if its identifier and time parse, its target and viewer are known and every version is given |
| `RunRecord.QualifyDesktop` | scripts/qualify-desktop.py:1175-1227 | from a new record through a whole run against any driver to the filled record: it qualifies exactly if the subject is well presented, the last smoke check passed, every required scenario passed and the first frame came within ten seconds; with a fixture and a viewer without fault it does for every well-presented subject |
| `QualifyingRun.FaithfulIsFaultless` | src/wayland_vnc/desktop_scenarios.py:698-723 | there is such a fixture and viewer: 147 answers, by number, that let the run go on without fault |
| `QualifyingRun.Qualify` | scripts/qualify-desktop.py:1175-1227 | a whole run, on Sway against that viewer, whose record qualifies at the gate for every well-presented subject |
| `ManualInput.Retain` | src/wayland_vnc/manual_input.py:49-50 | exactly the artifacts that are neither input results nor a manual screenshot stay, in order; a malformed one raises |
| `ManualInput.MarkClaimed` | src/wayland_vnc/manual_input.py:46-48 | the claimed scenarios are passed and no other changes |
| `ManualInput.Merge` | src/wayland_vnc/manual_input.py:16-63 | the record and the evidence root after a merge; one that raises has not touched the status, and before its checks are done nothing at all |
| `ManualInput.MergeSucceedsExactly` | src/wayland_vnc/manual_input.py:16-49 | a merge succeeds exactly for a well-formed record in a mergeable state whose run directory is there, on a screenshot that the scene check, the input check and, if gestures are claimed, the gesture check accept |
| `ManualInput.ClaimedExactly` | src/wayland_vnc/manual_input.py:12-13 | what an attended run claims: keyboard and pointer, and scroll and drag only with the gestures |
| `ManualInput.StaysExactly` | src/wayland_vnc/manual_input.py:41-50 | an artifact stays exactly if its kind is not input-results and its path does not end in the name of the screenshot |
| `ManualInput.MergeDecides` | src/wayland_vnc/manual_input.py:46-63 | a merge passes the claimed scenarios only, keeps all other fields, and sets the status to passed exactly if the record has earned it |
| `ManualInput.PassedAfterAttempts` | src/wayland_vnc/manual_input.py:16-63 | after any number of attempts a scenario is passed exactly if it was before or an attempt that succeeds claims it |
| `ManualInput.PassedStaysEarned` | src/wayland_vnc/manual_input.py:52-63 | no sequence of merges makes an unearned pass |
| `ManualInput.EarnedAfterAttempts` | src/wayland_vnc/manual_input.py:52-63 | what a record has earned after any attempts, stated on the record before them |
| `ManualInput.UnclaimedNeverPasses` | src/wayland_vnc/manual_input.py:52-63 | a missing scenario no attended run can claim keeps the record from ever passing |
| `ManualInput.PlasmaNeverPasses` | src/wayland_vnc/manual_input.py:16-63 | a Plasma run, filled and merged any number of times, never becomes passed |
| `ManualInput.MergeKeepsEvidence` | src/wayland_vnc/manual_input.py:49-53 | intact evidence stays intact through a merge exactly if some log is not called like the screenshot and what the record says of a file at the place of the new results is true of them, although the merge overwrites files of the evidence root |
| `Qualification.Collect` | src/wayland_vnc/qualification.py:197-211 | the loop over the artifacts gathers every flaw and every kind, up to a kind that cannot be hashed |
| `Qualification.ValidateArtifacts` | src/wayland_vnc/qualification.py:197-211 | flaws of all artifacts, and of missing kinds |
| `Qualification.FlawlessQualifies` | src/wayland_vnc/qualification.py:145-211 | validation finds nothing in exactly the records that qualify |
| `Qualification.KnownPairExactly` | src/wayland_vnc/qualification.py:7-10 | the seven targets and the two viewers |
| `Qualification.VersionsGivenExactly` | src/wayland_vnc/qualification.py:109-118 | each of the five versions is a text that is not blank |
| `Qualification.ScenariosPassedExactly` | src/wayland_vnc/qualification.py:121-129 | each of the seventeen scenarios is passed, and on Plasma the four of the portal |
| `Qualification.MeasuresExactly` | src/wayland_vnc/qualification.py:132-142 | a number from 0 to 10 and a whole number from 20, truth values excluded |
| `Qualification.EvidenceIntactExactly` | src/wayland_vnc/qualification.py:157-211 | a list with a capture, input results and a log, whose every entry is a file of the recorded digest and size |
| `Qualification.RecordErrors` | src/wayland_vnc/qualification.py:214-222 | no error exactly if every record is flawless and no pair repeats |
| `Qualification.MissingPairs` | src/wayland_vnc/qualification.py:223-227 | exactly the target and viewer pairs not seen are reported missing |
| `Qualification.ReleaseErrors` | src/wayland_vnc/qualification.py:214-227 | empty exactly if the list is one qualifying record per target and viewer pair; qualifying records can only be reported duplicate or missing |
| `EvidenceStore.VerifySources` | src/wayland_vnc/evidence_store.py:59-73 | the paths of the artifacts, if each is there with the recorded digest |
| `EvidenceStore.VerifiedExactly` | src/wayland_vnc/evidence_store.py:59-73 | artifacts go through exactly if every entry names a file that has the recorded digest |
| `EvidenceStore.AlteredStops` | src/wayland_vnc/evidence_store.py:95-105 | one artifact with another digest in a record of the commit stops the publication, also of incomplete records |
| `EvidenceStore.ChosenExactly` | src/wayland_vnc/evidence_store.py:95-114 | the records published are those of the commit and, unless incomplete ones were asked for, only those that qualify |
| `EvidenceStore.CommitNameExactly` | src/wayland_vnc/evidence_store.py:90-91 | a commit name is one path component other than the two dotted ones |
| `EvidenceStore.Store.CopyAll` | src/wayland_vnc/evidence_store.py:105-109 | the listed files are in the store as they are in the evidence root, all others as before |
| `EvidenceStore.PublishRecord` | src/wayland_vnc/evidence_store.py:96-113 | one record is skipped or published whole; it raises exactly on a record of the commit with an artifact that is not there with its digest or that the gate's checks raise on, and before the first copy |
| `EvidenceStore.MirroredQualifies` | src/wayland_vnc/evidence_store.py:76-119 | a record that qualifies where it was made qualifies in the store exactly if what it says of an artifact called `records.json` is true of the store's list |
| `EvidenceStore.Publish` | src/wayland_vnc/evidence_store.py:76-119 | what is returned is exactly the chosen records and their list is written; unless incomplete ones were asked for, each then qualifies in the store exactly if what it says of a `records.json` is true of that list, so always if it has no such artifact; it raises exactly on a bad commit name or at the first record that chokes, and then `records.json` is as it was or the artifact of that name of a record before that one |
| `EvidenceStore.PublishAndJudge` | src/wayland_vnc/evidence_store.py:76-119 | unless a record says something false of a `records.json`, the gate over a fresh store does not raise, reports only duplicate and missing pairs, and passes exactly if the published records are one for each pair |
| `EvidenceStore.ListReplacesLog` | src/wayland_vnc/evidence_store.py:76-119 | a record whose log is called `records.json` qualifies where it was made and not in a store whose list has another digest |
| `Rounding.Round` | src/wayland_vnc/android_viewer.py:776-795 | to the nearest integer, halves to even |
| `Pointer.AndroidViewer.SwipeBy` | src/wayland_vnc/android_viewer.py:929-956 | one swipe of the clamped, stretched delta, inside the safe zone, or none |
| `Pointer.AndroidViewer.TakeStep` | src/wayland_vnc/android_viewer.py:776-795 | the step toward the target, with its detour away and back |
| `Pointer.AndroidViewer.MoveCursorTo` | src/wayland_vnc/android_viewer.py:748-774 | the loop of attempts and the last look, for an arbitrary pointer |
| `Pointer.SwipeInside` | src/wayland_vnc/android_viewer.py:922-956 | both ends of every swipe are in the safe zone, and a slow one is at least 40 pixels long |
| `Pointer.SwipeExactly` | src/wayland_vnc/android_viewer.py:922-956 | every swipe in numbers: start corner, delta and duration, a pixel a millisecond when fast but 100 at least, four milliseconds a pixel over 40 pixels or more when slow |
| `Pointer.CommandedExactly` | src/wayland_vnc/android_viewer.py:929-956 | nothing is commanded exactly for no move, and a move that fits and is not short goes as wanted |
| `Pointer.RunIsSafe` | src/wayland_vnc/android_viewer.py:748-795 | for every pointer: gains stay in [0.2, 4], every swipe is safe, and it succeeds exactly on a last report within the tolerance |
| `Pointer.AttemptCommands` | src/wayland_vnc/android_viewer.py:748-795 | an attempt that sees the pointer elsewhere swipes the legs of its move: fast at least 30 pixels, slow at least 40 a leg, slow never clamped, legs summing to the move |
| `Pointer.NoReportProvokesOne` | src/wayland_vnc/android_viewer.py:755-758 | an attempt without a report swipes 40 pixels each way slowly, and nothing else |
| `Pointer.CloseExactly` | src/wayland_vnc/android_viewer.py:759-761 | arrived is within six pixels along each axis |
| `Pointer.SpeedExactly` | src/wayland_vnc/android_viewer.py:762-762 | a distance over 120 pixels along an axis is covered fast, any other slowly |
| `Pointer.LearntBounded` | src/wayland_vnc/android_viewer.py:764-769 | the gain learnt is the way the pointer went a commanded pixel, kept within 0.2 and 4; nothing seen or commanded teaches nothing |
| `Pointer.LegsSum` | src/wayland_vnc/android_viewer.py:776-795 | the away and back legs sum exactly to the wanted move |
| `Pointer.StepFrom` | src/wayland_vnc/android_viewer.py:776-795 | a step makes one swipe, or two with a look between for a slow move under 40 pixels, and starts from the pointer last seen |
| `Pointer.LearntExactly` | src/wayland_vnc/android_viewer.py:766-770 | one commanded move of a linear pointer teaches its gain exactly, clamped or not |
| `Pointer.LinearAttempt` | src/wayland_vnc/android_viewer.py:748-795 | an attempt on a linear pointer makes its net move exactly and learns the gain of its speed |
| `Pointer.AxisStep` | src/wayland_vnc/android_viewer.py:776-795 | with the true gain an axis ends within half a gain of the target, or, clamped, strictly closer without overshoot |
| `Pointer.AttemptProgress` | src/wayland_vnc/android_viewer.py:748-795 | each attempt on a linear pointer arrives or shrinks the attempts still needed |
| `Pointer.Converges` | src/wayland_vnc/android_viewer.py:748-795 | on every linear pointer the loop arrives: one attempt per full swipe of the way, and a fixed number more from wrong gains |
| `Pointer.ScreenConverges` | src/wayland_vnc/android_viewer.py:748-774 | across a 1920x1080 screen 14 attempts are enough with known gains, and 31 from any gains in range |
| `PointerBudget.RunPlaces` | src/wayland_vnc/android_viewer.py:748-795 | whether the loop places a linear pointer is told by the way that is left and the gains alone |
| `PointerBudget.FirstGainsArrive` | src/wayland_vnc/android_viewer.py:748-795 | a viewer with its first gains places the pointer anywhere on a 1920x1080 screen in the default 14 attempts, for every pair of true gains in range |
| `PointerBudget.OneFewerFallsShort` | src/wayland_vnc/android_viewer.py:748-795 | 13 attempts are not enough: 1058 pixels at true gains 0.2 and 4 |
| `Pointer.DragInside` | src/wayland_vnc/android_viewer.py:802-824 | a held drag stays in the safe zone exactly if its whole move fits, since it is not clamped |
| `Connect.FindFirst` | src/wayland_vnc/android_viewer.py:216-223 | the first node that matches, or none exactly if none does |
| `Connect.Replies` | src/wayland_vnc/android_viewer.py:426-483 | which screens get no answer, a refusal, a wait, credentials or an exception, stated on the screen alone |
| `Connect.AnalyticsNeverAccepted` | src/wayland_vnc/android_viewer.py:426-458 | in every run, whatever the dumps, each action has its round, and a tap that accepts the first-run page of that round while the analytics box is ticked comes right after that round's own tap of the box |
| `Connect.EntriesOf` | src/wayland_vnc/android_viewer.py:525-540 | one answer types the credentials once exactly if the sheet asks and they were not entered yet |
| `Connect.TypedOnce` | src/wayland_vnc/android_viewer.py:362-395 | over any number of rounds the credentials are typed once if one of them asked and never otherwise |
| `Connect.App.AnswerRound` | src/wayland_vnc/android_viewer.py:378-386 | each round answers its dump as the screen calls for, given whether an earlier round asked for credentials: what is typed and tapped is spelt out in ConnectScreens |
| `ConnectScreens.TourAnswered` | src/wayland_vnc/android_viewer.py:433-444 | first-run pages, stated on the dump: the tutorial, the help page and the hint each get their own answer |
| `ConnectScreens.AcceptAnswered` | src/wayland_vnc/android_viewer.py:445-458 | the page to accept gets its own button, after a tap of its analytics box exactly if that is ticked; the pages before it get next |
| `ConnectScreens.KnownAnswered` | src/wayland_vnc/android_viewer.py:466-475 | the four screens known by their text, in order: ok for continue and refusal, done for identity and unencrypted, each on the node of that name |
| `ConnectScreens.CredentialsAnswered` | src/wayland_vnc/android_viewer.py:525-540 | a credentials sheet with a user field gets user name and password, one without gets the password alone, and then its own done button, once |
| `ConnectScreens.OtherAnswered` | src/wayland_vnc/android_viewer.py:479-483 | any other titled dialog gets its ok button, any other dump no answer |
| `ConnectScreens.SheetGetsBoth` | src/wayland_vnc/android_viewer.py:525-540 | on a sheet with both fields the first answer types both and taps done |
| `Connect.App.Connect` | src/wayland_vnc/android_viewer.py:362-395 | for every sequence of dumps the loop ends at the first round that settles, refuses or fails, all taps are the answers of the rounds in order, and the credentials are typed at most once; it settles on a dump that needs no answer and has the toolbar, or is the fourth such in a row with the desktop visible |
| `ConnectScreens.FourthQuietDumpSettles` | src/wayland_vnc/android_viewer.py:372-394 | with nothing to answer and no toolbar, the desktop in front settles the loop at the fourth dump and not before |
| `ConnectScreens.ToolbarShows` | src/wayland_vnc/android_viewer.py:390-393 | the toolbar that ends the loop is the node of that name |
| `ConnectScreens.CoveredExactly` | src/wayland_vnc/android_viewer.py:460-483 | which dumps have a dialog or page over the desktop, stated on the dump |
| `Connect.SettledCovered` | src/wayland_vnc/android_viewer.py:362-395 | the desktop settled on is covered exactly if the toolbar ended the loop with an unanswerable dialog or an empty authentication sheet in the dump |
| `Connect.SettlesUnderCover` | src/wayland_vnc/android_viewer.py:362-395 | a dump with the toolbar and an opening authentication sheet settles at once |
| `ImageEvidence.NextRun` | src/wayland_vnc/image_evidence.py:63-85 | the first maximal run near the target at or after a column |
| `ImageEvidence.RowCenters` | src/wayland_vnc/image_evidence.py:63-85 | a centre for every target exactly if the row can be cut into such runs, each wide enough; centres rise and lie on near pixels |
| `ImageEvidence.BarsUnique` | src/wayland_vnc/image_evidence.py:63-85 | there is only one such cut |
| `ImageEvidence.BarsInOrder` | src/wayland_vnc/image_evidence.py:63-85 | the runs are disjoint and ordered, each at least the minimum wide, with its centre inside, as many pixels before it as after it or one fewer |
| `ImageEvidence.FindBand` | src/wayland_vnc/image_evidence.py:119-127 | succeeds exactly if the tolerance is from 0 to 64, the image at least 400 by 200 and some sampled row holds the band, and returns the first such row |
| `ImageEvidence.VerifyScene` | src/wayland_vnc/image_evidence.py:130-133 | the same for red, green, blue and white |
| `ImageEvidence.NearExactly` | src/wayland_vnc/image_evidence.py:47-48 | near is within the tolerance in all three channels; with none, the colour itself |
| `ImageEvidence.ColorsExactly` | src/wayland_vnc/image_evidence.py:8-153 | the eight colours |
| `ImageEvidence.CountsOnceExactly` | src/wayland_vnc/image_evidence.py:8-153 | no pixel is near two of the eight colours exactly at tolerances up to 42 |
| `ImageEvidence.StepExactly` | src/wayland_vnc/image_evidence.py:119-127 | the rows are sampled as far apart as still gives 120 of them, or one by one |
| `ImageEvidence.SolidBlockIsFound` | src/wayland_vnc/image_evidence.py:119-133 | a block of solid bars as tall as the sampling step is found at every tolerance from 0 to 64 |
| `ImageEvidence.StrayPixelHides` | src/wayland_vnc/image_evidence.py:63-85 | a stray near pixel before the bars hides them all |
| `ImageEvidence.FirstRunDecides` | src/wayland_vnc/image_evidence.py:63-85 | bars behind a margin without the other colours are found exactly if the row's first run near the first colour, in the margin or not, is wide enough |
| `ImageEvidence.RowHoldsRun` | src/wayland_vnc/image_evidence.py:156-164 | the counter finds a run exactly if the row has one |
| `ImageEvidence.DetectMarkers` | src/wayland_vnc/image_evidence.py:167-186 | exactly the markers with a run of a sixth of the width on a sampled row; raises on a bad tolerance or a width under 6 |
| `ImageEvidence.TallBandIsShown` | src/wayland_vnc/image_evidence.py:167-186 | a band as tall as the sampling step is never missed |
| `ImageEvidence.ShownAtHigherTolerance` | src/wayland_vnc/image_evidence.py:167-186 | no marker is lost when the tolerance grows |
| `ImageEvidence.CompleteIsShown` | src/wayland_vnc/image_evidence.py:119-186 | a pair of bands found in order is also detected marker by marker |
| `Edid.RaisesExactly` | scripts/kvm/make-edid.py:77-105 | a descriptor is written exactly if no shared byte overflows |
| `Edid.RoundTripExactly` | scripts/kvm/make-edid.py:77-105 | decoding gives the timing back exactly if it is within the field widths |
| `Edid.RefreshRecovered` | scripts/kvm/make-edid.py:52-74 | the refresh worked out from the rounded clock is the requested one in frames over 10000 pixels |
| `Edid.TimingFits` | scripts/kvm/make-edid.py:52-105 | the timing of a mode is within the field widths exactly if width, height and vertical blanking are under 4096 and it has fewer than 655,355,000 pixels a second |
| `Edid.SyncInsideBlanking` | scripts/kvm/make-edid.py:52-74 | the sync pulses lie inside the blanking, 80 pixels and at least three lines before its end |
| `Edid.BlankingLines` | scripts/kvm/make-edid.py:58-61 | the vertical blanking is 14 lines, or the 460 microseconds in lines of the unblanked picture and half a line to a line and a half more |
| `Edid.FrameBlankingExactly` | scripts/kvm/make-edid.py:56-61 | it lasts 460 microseconds of the whole frame exactly if the lines it adds to the first fit in what the rounding left to spare |
| `Edid.GuestBlankingLasts` | scripts/kvm/make-edid.py:44-61 | it lasts 460 microseconds in each of the guests' modes but the first |
| `Edid.WriteBlock` | scripts/kvm/make-edid.py:114-152 | the 128 bytes are header, descriptors, no extensions and the checksum |
| `Edid.HeaderSays` | scripts/kvm/make-edid.py:117-137 | the fixed part read back: signature, manufacturer WVN, product, serial, year 2026, version 1.4, no established or standard timings |
| `Edid.FreeSlots` | scripts/kvm/make-edid.py:138-148 | a free slot holds the monitor name if it is the first, and else the unused descriptor |
| `Edid.BuildEdid` | scripts/kvm/make-edid.py:114-152 | the block of up to four modes: its bytes sum to 0 modulo 256 and each slot is its mode's descriptor; it raises exactly if a mode cannot be written or there are more than four |
| `Edid.GuestModesRead` | scripts/kvm/make-edid.py:44-105 | a display reads every one of the guests' modes back |
| `BufferLayout.LayoutExact` | native/buffer-layout.h:11-33 | accepts exactly the layouts that fit on unbounded integers, for every SIZE_MAX from 2^32-1, with results that do not wrap |
| `BufferLayout.BytesInside` | native/buffer-layout.h:11-33 | every byte of every row of an accepted frame is in the mapping, from the pixel offset on, and in the chunk |
| `BufferLayout.BytesApart` | native/buffer-layout.h:11-33 | no two bytes of an accepted frame share an address |

## Left out

What the program does and the models do not:

- GTK and curses interfaces, command lines, diagnostics, gettext loading, version syncing, cloud-init and packaging.
- Subprocesses, docker, adb, QEMU sockets, systemctl, D-Bus, libsecret and openssl: only their effect, as an oracle or a
  step, where a property needs it. Commands in `Runtime` succeed.
- Symlinks, directories, path resolution and temporary files: trees are flat and paths already resolved.
- File permissions, except the mode of an installed file.
- Pillow decoding and file reading of screenshots: an image is rows of red, green and blue values.
- SHA-256, UUID and timestamp parsing: parameters of the gate. `str.encode` is an injective parameter.
- `int()` of digits outside ASCII.
- In `Runtime`, a configuration directory with a line in its path that looks like an address, a port, a username or a
  password; `ConfigText.ConfigReadsPath` states what such a path comes to.
- Logs, `scenario_details` and the texts of outcomes, errors and skipped records.
- The GNOME backend: its password store, its private daemon and its listen address. Key generation is a flag.
- The reconfigure screen and the `provision` command, which do not restart a running unit.
- Exceptions out of driver calls in scenarios; those the scenarios raise themselves are modelled.
- The first-frame latency of a passed scenario: a valid screenshot is accepted before the deadline is looked at.
- What typing credentials does screen by screen, turning the screen and homing the toolbar: one step, or an exception.
- Two-finger gestures, screen edges and the rounding of reports in the pointer model, and floating-point rounding of gains.
- Floating-point rounding in the timing arithmetic: quotients are exact before they are rounded.
- The value left in `mapping_size` when the last guard of the layout check fails.
- Scenarios.Session.CaptureValid: bounds the questions it asks and not the time, because a driver call may take any time.
- Connect.AnalyticsNeverAccepted: says nothing of a page on which the accept button lies on the same node as another
  control, because the dump then does not tell which of them was meant.
