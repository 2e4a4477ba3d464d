# Pangolin installer wizard, modelled in Dafny

The Pangolin installer has a terminal user interface (`install/tui.go`). It
is a wizard that walks the operator through a fixed sequence of screens:

1. welcome;
2. hybrid mode, and hybrid credentials in hybrid mode;
3. domain configuration;
4. e-mail configuration and SMTP settings;
5. advanced options;
6. container runtime;
7. the question whether to install containers;
8. installation, CrowdSec, and the setup token;
9. completion.

Every screen shows a list of text inputs and buttons. A `model` record holds
the current screen, the collected `Config`, the fields, the focus index, an
error line, the `installing` flag, the last button chosen and the installation
log. The Bubble Tea `Update` method changes this record in response to key
presses and to the log, completion and error messages that the installation
flows send.

The project has these modules:

- `Text`: the pieces of Go's `strings` and `strconv` packages that the wizard
  uses, as pure functions:
  - `TrimPrefix`, `TrimSuffix`, `Split`, `Join`;
  - `Atoi` with 64-bit bounds, and `Itoa`.
- `ScreenGraph`: the 15 screens and the two pure transition functions,
  `getNextScreen` and `getPrevScreen`, with a rank that orders the screens.
- `Domain`: the dashboard-domain composition (the default subdomain is
  `pangolin`) and the subdomain recovery used when the domain screen is shown
  again. It also holds the URL parsing of `loadExistingConfig`, with the file
  reads as parameters.
- `Fields`: text inputs, each holding a value, a focus mark and a limit of 100
  characters, and buttons. It also covers the cyclic focus movement, Go's
  truncating `%`, and each screen's field layout and focus seeding
  (`initScreen`).
- `LogSink`: the installation log, bounded at 200 lines. A single line drops
  the oldest line on overflow; a batch keeps the last 200. The batch scan
  looks for the success marker and for `Error`.
- `Messages`: key bindings, the messages `Update` receives, and each
  installation flow as the fixed list of messages it sends. The outcome of
  each external step is a parameter.
- `Controller`: every handler as a pure function from one state to a `Step`,
  which is the new state plus the command returned to the Bubble Tea runtime.
- `Behaviour`: the properties of the controller. These include invariants
  kept by every message, the undo of each answer by the back key, validation
  of the domain and SMTP screens, log handling and the flows.
- `Tui`: the class `Wizard`. Its fields are the fields of `model`, and its
  methods update them step by step as the Go handlers do. Each method is
  proved to compute the matching `Controller` function, so every property in
  `Behaviour` carries over to it.

The model follows the code as written, including these behaviours:

- **The installation screens are unreachable.**
  - After the question on the container-installation screen, `nextScreen`
    (install/tui.go:799-816) would move on to the installation screen or
    to CrowdSec.
  - That code never runs. From that screen, `getNextScreen` answers the
    installation screen, so `startInstallation` returns first
    (install/tui.go:783-785).
  - Pressing a button on the container-installation screen runs the
    config-and-proceed flow instead (install/tui.go:674-677, 1039-1046). That flow ends
    with a completion message, which only clears `installing`.
  - So no sequence of messages takes the wizard past that screen
    (`Behaviour.InstallScreenUnreachable`). The installation, CrowdSec,
    setup-token and completion screens are modelled, and their properties are
    proved for any state, but the initial state never reaches them.
- **The installation flow never reports completion.**
  `performInstallationAsync` sends only single log lines, and single log lines
  never trigger completion. So `installing` stays set after that flow
  (`Behaviour.FlowOutcome`).
- **No flow sends a batch of log lines.** The batch scan is modelled and
  proved, but nothing in `install/tui.go` sends a batch.
- **The search for a trailing button finds nothing.** In `handleEnter`, the
  search for a button after the last field covers an empty range, so Enter on
  the last input always submits (`Behaviour.EnterDispatch`).
- **Entering the completion screen always quits.** `nextScreen` assigns the
  screen before it tests it (install/tui.go:780, 789).
- **The install-screen gating is narrower than the flows.** Keys are gated
  only on the installation screen. On the CrowdSec installation screen, Esc
  goes back to the welcome screen, because `getPrevScreen` has no case for it
  (`Behaviour.CrowdsecInstallEscRestarts`).

## Model

| member | source | states |
|---|---|---|
| Text.TrimPrefix | install/tui.go:1911-1915 | a present prefix and the result reassemble the input; an absent prefix leaves the input unchanged |
| Text.TrimSuffix | install/tui.go:884-889 | a present suffix and the result reassemble the input; an absent suffix leaves the input unchanged |
| Text.TrimSuffixOfAppend | install/tui.go:884-889 | trimming the suffix that was just appended gives back the original string |
| Text.IndexOf | install/tui.go:1918 | the index found holds the separator and no earlier position does; none is found only when the separator is absent |
| Text.Split | install/tui.go:1918 | the parts are never empty as a list, and no part contains the separator |
| Text.JoinSplit | install/tui.go:1918-1923 | joining the parts of a split with the same separator gives back the input |
| Text.JoinAppend | install/tui.go:1923 | joining two non-empty lists of labels is the two joins with the separator between them |
| Text.DigitChar | install/tui.go:928 | the character produced for a digit is a decimal digit and reads back as that digit |
| Text.Atoi | install/tui.go:708-712 | a successful parse is of an optional sign followed by at least one digit and nothing else, so a space, a unit or a second sign fails; the value lies within the 64-bit range and has the sign written; `AtoiOfDigits` gives the value of every numeral and the failure of one outside the 64-bit range |
| Text.Itoa | install/tui.go:928 | the decimal rendering is non-empty, all digits, and has no leading zero for a positive number |
| Text.ItoaValue | install/tui.go:928 | the digits of the rendering denote the number rendered |
| Text.ItoaLength | install/tui.go:928 | the rendering of a 64-bit integer has at most 19 digits |
| Text.AtoiItoa | install/tui.go:708-712 | parsing the rendering of a positive 64-bit port gives the port back |
| Text.Render | install/tui.go:928 | the decimal rendering of any integer is non-empty and starts with `-` exactly for a negative one |
| Text.AtoiOfDigits | install/tui.go:708-712 | a run of digits, bare, after `+` or after `-`, parses as the number it denotes, with the sign, exactly when that fits in 64 bits, and fails otherwise, as Go's range error does |
| Text.AtoiReadsBack | install/tui.go:708-712 | every 64-bit integer, negative ones included, is parsed back from its decimal rendering |
| Text.AtoiReadsPadded | install/tui.go:708-712 | a non-negative 64-bit integer written with any number of leading zeros is parsed back as itself |
| ScreenGraph.NextScreen | install/tui.go:209-269 | `getNextScreen`: completion maps to itself, and every other screen moves to a later one; `NextFixedPoint`, `NextAdvances` and `PrevUndoesNext` state the rest |
| ScreenGraph.PrevScreen | install/tui.go:271-317 | `getPrevScreen`: welcome and completion map to themselves, and every other screen moves to an earlier one; `CrowdsecInstallBackRestarts` (no case for CrowdSec installation, so welcome), `PrevStaysInCollection` and `PrevUndoesNext` state the rest |
| ScreenGraph.Rank | install/tui.go:163-179 | the welcome screen alone has the least rank and the completion screen alone the greatest |
| ScreenGraph.NextFixedPoint | install/tui.go:209-269 | the next screen equals the current one exactly on the completion screen |
| ScreenGraph.PrevFixedPoints | install/tui.go:271-317 | the previous screen equals the current one exactly on the welcome and completion screens |
| ScreenGraph.NextAdvances | install/tui.go:209-269 | every forward transition except at completion moves to a later screen, so the wizard cannot cycle forward |
| ScreenGraph.PrevRetreats | install/tui.go:271-317 | every backward transition other than the two fixed points moves to an earlier screen |
| ScreenGraph.PrevStaysInCollection | install/tui.go:271-302 | going back from a configuration screen stays among the configuration screens |
| ScreenGraph.PrevUndoesNext | install/tui.go:209-317 | from the welcome screen through the installation screen, going back after going forward returns to the same screen, provided the recorded flags agree with the choice that was made |
| ScreenGraph.UndoNeedsRecordedChoice | install/tui.go:209-283 | when the hybrid flag disagrees with the choice, going back lands on a screen that was never visited |
| ScreenGraph.CrowdsecNoIsNotUndone | install/tui.go:247-311 | answering No on the CrowdSec screen leads to the setup token, from which going back leads to the installation screen instead |
| ScreenGraph.CrowdsecInstallBackRestarts | install/tui.go:254-315 | the CrowdSec installation screen has no previous screen of its own and going back restarts at welcome |
| ScreenGraph.CompleteIsNotUndone | install/tui.go:262-313 | completion follows the setup token, and going back from completion stays there |
| Domain.ComposeDashboard | install/tui.go:745-750 | the dashboard domain is the subdomain, or `pangolin` when it is empty, joined to the base domain by a dot |
| Domain.RecoverSubdomain | install/tui.go:882-890 | a recovered subdomain recomposes the dashboard domain, and none is recovered exactly when a domain is empty or the dashboard domain does not end in the dotted base domain |
| Domain.SubdomainRoundTrip | install/tui.go:745-750 | showing the domain screen again after saving it recovers the subdomain typed, or `pangolin` for an empty one |
| Domain.StripScheme | install/tui.go:1911-1915 | the host is the URL with `https://` removed, or else `http://`, or the URL itself |
| Domain.ParseDashboardURL | install/tui.go:1908-1926 | domains are read exactly when the host has a dot, and the dashboard domain is the host |
| Domain.ParsedBaseIsLastTwoLabels | install/tui.go:1918-1925 | the base domain is the last two dot-separated labels of the host and is a suffix of it |
| Domain.HostAroundBase | install/tui.go:1918-1923 | a host of three or more labels is its leading labels, a dot and its base domain |
| Domain.LoadedSubdomainRecovered | install/tui.go:1908-1926 | for a loaded host of three or more labels, the domain screen recovers its leading labels as the subdomain |
| Domain.TwoLabelHostNotRecovered | install/tui.go:1908-1926 | for a loaded two-label host no subdomain is recovered, and saving again would compose a different dashboard domain |
| Domain.LoadExistingConfig | install/tui.go:1885-1939 | each missing or unreadable file gives its own error, and the config is loaded exactly when all three reads succeed; a loaded config keeps the zero value outside the domains and the e-mail, and is non-hybrid with Docker, takes the Let's Encrypt e-mail from the Traefik config and the domains from the parsed dashboard URL, or empty domains when it has no dot |
| Fields.Button | install/tui.go:1005-1010 | a button is an unfocused, optional field with an empty value and the given label |
| Fields.Clip | install/tui.go:995 | a value is cut to its first 100 characters, and a value within the limit is kept whole |
| Fields.Input | install/tui.go:992-1003 | an input field is unfocused, keeps its label and required mark, and holds the value cut to the limit |
| Fields.GoRem | install/tui.go:546-554 | Go's remainder is smaller than the divisor in size, takes the sign of the dividend (unlike Dafny's) and differs from the dividend by a multiple of the divisor |
| Fields.Cycle | install/tui.go:546-554 | the focus moves one step forward or back and wraps around at either end, staying within the fields |
| Fields.CycleRoundTrip | install/tui.go:546-554 | Tab followed by Shift+Tab, or the reverse, returns the focus to where it was |
| Fields.Refocus | install/tui.go:559-571 | when no button is focused, afterwards exactly the input at the focus index is focused; buttons are untouched and nothing but the focus marks changes |
| Fields.ScreenFields | install/tui.go:822-990 | every layout starts unfocused, with no value over the character limit |
| Fields.SeededFocus | install/tui.go:831-961 | the seeded button reflects the saved hybrid, e-mail and Podman choices; other screens start on the first field |
| Fields.LayoutShape | install/tui.go:822-990 | exactly the welcome, installation, CrowdSec-installation, setup-token and completion screens have no fields, and the seeded focus lies within the layout |
| Fields.HybridDomainPrefill | install/tui.go:849-865 | in hybrid mode the required address input shows the saved dashboard domain, or the public address when none is saved |
| Fields.SmtpPortPrefill | install/tui.go:908-931 | the port input of the SMTP screen reads back as the saved port, or 587 when none is saved |
| LogSink.Last | install/tui.go:490-492 | the tail kept is the input when short enough, else its last n elements |
| LogSink.AppendLine | install/tui.go:476-481 | a line is appended, and on a full log the oldest line is dropped first |
| LogSink.AppendBatch | install/tui.go:487-493 | the log never exceeds 200 lines and is the suffix of the old log followed by the batch, whole when it fits |
| LogSink.AppendLineBounded | install/tui.go:476-481 | a single append keeps a log of at most 200 lines within the bound and is the last 200 lines of old log plus line |
| LogSink.LastOfLast | install/tui.go:476-493 | trimming, then appending and trimming again, is the same as appending and trimming once |
| LogSink.BatchIsRepeatedAppend | install/tui.go:476-493 | appending a batch gives the same log as appending its lines one by one |
| LogSink.BatchAfterLine | install/tui.go:476-493 | appending the first line of a batch and then the rest is the same as appending the whole batch |
| LogSink.BatchIsLast | install/tui.go:487-493 | a batch append keeps the last 200 lines of the old log followed by the batch, in order |
| LogSink.AppendLinesKeepsLast | install/tui.go:476-481 | any run of single appends keeps the last 200 lines of everything logged, in order |
| LogSink.FirstSignal | install/tui.go:498-506 | a batch reports nothing exactly when no line signals, and otherwise the signal of one of its lines; `FirstSignalIsFirst` shows it is the first such line |
| LogSink.LineSignal | install/tui.go:498-505 | a line signals completion exactly when it holds the success marker, and failure exactly when it holds `Error` without the success marker |
| LogSink.FirstSignalIsFirst | install/tui.go:495-506 | the signal reported for a batch is that of the first line carrying one, and none is reported exactly when no line carries one |
| LogSink.ScanBatch | install/tui.go:495-506 | the scan loop stops at the first line carrying a signal and reports it, or reports none after scanning every line |
| Messages.BindingOf | install/tui.go:105-146 | characters outside the bound keys and Backspace have no binding, so they reach the focused input |
| Messages.Logs | install/tui.go:476-485 | each line becomes one single-line log message, in order |
| Messages.FlowLines | install/tui.go:1048-1225 | the installation flow sends seventeen lines |
| Messages.FlowMessages | install/tui.go:1048-1294 | a flow sends its lines in order as single log messages, followed by one completion message for every flow but the installation flow |
| Messages.FlowShape | install/tui.go:1048-1294 | the installation flow sends only single log lines and never completion; the config flows send log lines and end with one completion message |
| Controller.Initial | install/tui.go:351-390 | the wizard starts on the welcome screen with no fields, no log and not installing, with the loaded configuration or the empty one |
| Controller.Entered | install/tui.go:822-827 | showing a screen clears the error line and keeps the screen, config, log and installing flag |
| Controller.Navigated | install/tui.go:542-557 | `handleNavigation` changes nothing without fields; otherwise it clears the error, moves the focus within the fields and changes nothing else; `Behaviour.NavigationMoves` gives the cyclic step |
| Controller.HasButton | install/tui.go:573-580 | `hasButtonFields`: a list with a button is non-empty, and a list without one holds only inputs |
| Controller.SaveSmtp | install/tui.go:706-716 | host, user, password and no-reply address are the first, third, fourth and fifth inputs; the port is the parsed number when the text parses and 587 otherwise, within the 64-bit range; nothing else in the config changes |
| Controller.Started | install/tui.go:1012-1046 | starting a flow sets `installing`, runs that flow and changes nothing else |
| Controller.Advanced | install/tui.go:761-820 | `nextScreen` moves to the graph's next screen for the last choice, sets `installing` exactly on entering installation or CrowdSec installation, quits exactly on entering completion, and saves the SMTP settings only when leaving the SMTP screen |
| Controller.FirstMissing | install/tui.go:726-731 | nothing is missing exactly when every required input is filled; a reported caption belongs to a required empty input; `Behaviour.FirstMissingIsFirst` shows it is the first |
| Controller.DomainSaved | install/tui.go:724-759 | `validateAndSaveDomainConfig`: a missing field only sets the error "<caption> is required"; a complete domain screen moves to the advanced screen in hybrid mode or the e-mail question in standard mode, with Gerbil on and the mode kept |
| Controller.Submitted | install/tui.go:700-722 | `handleSubmit` outside the domain screen moves to the graph's next screen, changing the config only on the SMTP screen |
| Controller.Pressed | install/tui.go:632-698 | `handleButtonPress` records the focused button as the last choice; on the installation, CrowdSec-installation and completion screens it does nothing else; on the container-installation question it sets `installing` and runs the config-and-proceed flow |
| Controller.BackedOut | install/tui.go:582-595 | `handleBack` quits without change exactly on welcome and completion; otherwise it shows `getPrevScreen`'s screen with the error cleared and the config kept |
| Controller.EnterPressed | install/tui.go:597-630 | `handleEnter` on an input that is not the last moves the focus one on; on the last input it always submits |
| Controller.KeyPressed | install/tui.go:406-470 | Ctrl+C quits unchanged; on the installation screen no other key changes the screen, config, focus or `installing`, or returns a command |
| Controller.Updated | install/tui.go:396-540 | installation messages never move the wizard or touch the config and fields; single log lines and step labels return no command; a batch keeps the log within 200 lines; completion and error clear `installing` |
| Controller.SmtpPort | install/tui.go:708-712 | the port is the parsed number when the text parses and 587 otherwise |
| Controller.Answer | install/tui.go:632-698 | each button screen records exactly its own answer: hybrid mode, e-mail, IPv6, Podman for the second runtime button, CrowdSec; every other flag and every domain, e-mail and SMTP setting is kept |
| Controller.EditInput | install/tui.go:527-531 | an unfocused input is unchanged; a focused one gains a typed character while under 100 characters, a full one ignores it, and Backspace drops the last character; nothing but the value changes, and the limit is kept |
| Controller.Typed | install/tui.go:527-531 | a key reaching the fields changes at most the value of the input at the focus index, as `EditInput` does, and nothing else in the state |
| Controller.TypeThenErase | install/tui.go:527-531 | typing a character into a focused input with room for it and then Backspace gives the input back |
| Behaviour.InitialCollecting | install/tui.go:351-390 | the initial state is a well-formed configuration-collection state |
| Behaviour.EnteredWellformed | install/tui.go:822-990 | showing any screen gives a well-formed state whose fields have that screen's layout |
| Behaviour.NavigatedPreserves | install/tui.go:542-571 | focus movement keeps the state well formed and changes only the error, the focus and the focus marks |
| Behaviour.NavigationMoves | install/tui.go:542-557 | with no fields navigation changes nothing; otherwise it clears the error and moves the focus one step cyclically, keeping the fields' contents |
| Behaviour.TypedPreserves | install/tui.go:527-531 | typing keeps the state well formed and the layout's shape |
| Behaviour.AdvancedPreserves | install/tui.go:761-820 | moving on keeps the state well formed, and from a configuration screen lands on another configuration screen with its layout |
| Behaviour.DomainSavedPreserves | install/tui.go:724-759 | saving the domain screen keeps the state well formed and collecting |
| Behaviour.SubmittedPreserves | install/tui.go:700-722 | submitting keeps the state well formed and collecting |
| Behaviour.PressedPreserves | install/tui.go:632-698 | pressing any button keeps the state well formed and collecting |
| Behaviour.BackedOutPreserves | install/tui.go:582-595 | going back keeps the state well formed and collecting |
| Behaviour.EnterPressedPreserves | install/tui.go:597-630 | Enter keeps the state well formed and collecting |
| Behaviour.KeyPressedPreserves | install/tui.go:406-470 | every key keeps the state well formed and collecting |
| Behaviour.BackKeyPreserves | install/tui.go:424-428 | the back key keeps the state well formed and collecting |
| Behaviour.EnterKeyPreserves | install/tui.go:430-434 | the Enter key keeps the state well formed and collecting |
| Behaviour.MoveKeyPreserves | install/tui.go:436-468 | Tab, Shift+Tab, Left and Right keep the state well formed and collecting |
| Behaviour.OtherKeyPreserves | install/tui.go:406-470 | quit, help, arrows and typing keep the state well formed and collecting |
| Behaviour.UpdatedPreserves | install/tui.go:396-540 | every message keeps the state well formed and collecting |
| Behaviour.Replay | install/tui.go:396-540 | handling any sequence of messages from a well-formed state gives a well-formed state |
| Behaviour.ReplayAppend | install/tui.go:396-540 | handling two sequences one after the other is handling their concatenation |
| Behaviour.CollectionIsClosed | install/tui.go:396-540 | no sequence of messages takes a collecting state out of the configuration-collection screens |
| Behaviour.InstallScreenUnreachable | install/tui.go:783-816 | from the initial state no sequence of messages reaches the installation, CrowdSec, setup-token or completion screens |
| Behaviour.AdvancedKeepsPath | install/tui.go:761-791 | moving on with the last choice recorded in the flags shows the hybrid-credentials screen only in hybrid mode and the e-mail screens only in standard mode, the SMTP screen only with e-mail on |
| Behaviour.BackedOutKeepsPath | install/tui.go:582-595 | going back keeps those screens shown only under the flags that lead to them |
| Behaviour.PressedKeepsPath | install/tui.go:632-698 | a button records its answer before moving on, so the flags still agree with the screen shown |
| Behaviour.DomainSavedKeepsPath | install/tui.go:724-759 | saving the domain screen moves on in agreement with the hybrid flag, whatever the last choice |
| Behaviour.EnterPressedKeepsPath | install/tui.go:597-630 | Enter keeps the flags in agreement with the screen shown |
| Behaviour.KeyPressedKeepsPath | install/tui.go:406-470 | every key keeps the flags in agreement with the screen shown |
| Behaviour.OtherKeysKeepScreen | install/tui.go:406-470 | every key but a handled Back or Enter leaves the screen and the config as they were |
| Behaviour.UpdatedKeepsPath | install/tui.go:396-540 | every message keeps the flags in agreement with the screen shown |
| Behaviour.ForwardPathIsClosed | install/tui.go:396-540 | no sequence of messages takes a collecting state with agreeing flags to one without |
| Behaviour.ReachedOnForwardPath | install/tui.go:351-540 | every state reached from the initial state is a collecting state whose flags agree with the screen shown |
| Behaviour.ReplayLogs | install/tui.go:476-481 | a run of single log messages changes only the log, which grows as by repeated bounded appends |
| Behaviour.LogsThenCompletion | install/tui.go:476-513 | log messages followed by a completion message update the log and then only clear the installing flag |
| Behaviour.FlowOutcome | install/tui.go:1048-1294 | running a flow appends its lines to the log and clears `installing` for the config flows, never for the installation flow |
| Behaviour.SignalCmdReports | install/tui.go:495-507 | a batch yields a completion message exactly when its first signalling line holds the success marker, an error message exactly when it holds `Error` first, and nothing when no line signals |
| Behaviour.SingleMessages | install/tui.go:476-518 | a single log line only appends to the log and never completes; completion clears `installing`; an error clears it and shows its reason |
| Behaviour.BatchReport | install/tui.go:487-507 | a batch keeps the last 200 lines of log plus batch and reports completion exactly when its first signalling line has the success marker |
| Behaviour.FirstMissingIsFirst | install/tui.go:726-731 | the missing field reported is the first required field left empty, and none is reported exactly when every required field is filled |
| Behaviour.EnterDispatch | install/tui.go:597-630 | Enter moves on without fields, presses a focused button, steps to the next field from an input, and submits from the last input because no button can follow it |
| Behaviour.StandardMissing | install/tui.go:726-731 | on the standard domain screen the base domain is reported missing first, then the e-mail, and the optional subdomain never |
| Behaviour.BackBehaviour | install/tui.go:582-595 | going back quits exactly on the welcome and completion screens and then changes nothing; otherwise it moves to the previous screen, clears the error and keeps the config |
| Behaviour.AdvancedMoves | install/tui.go:761-791 | moving on goes to the next screen of the graph for the last choice and never changes the hybrid, e-mail or CrowdSec flags |
| Behaviour.BackUndoesPress | install/tui.go:582-698 | on every configuration screen before the container question whose flags agree with the path to it, pressing a button that leaves the screen is undone by going back |
| Behaviour.ReachedBackUndoesPress | install/tui.go:582-698 | on every screen the wizard reaches from its start, except the container question, pressing a button that leaves the screen is undone by going back |
| Behaviour.PressAnswer | install/tui.go:632-698 | pressing a button on a plain button screen records the choice, updates the flags it answers and then moves on |
| Behaviour.DomainPressAnswer | install/tui.go:724-759 | a domain screen with every required field filled moves on from the domain screen with the hybrid flag unchanged |
| Behaviour.BackAfterAdvance | install/tui.go:582-820 | before the container question, going back after moving on with consistent flags returns to the screen left |
| Behaviour.StandardDomainValidation | install/tui.go:724-759 | an empty base domain or e-mail shows "… is required" and changes nothing else; otherwise the base domain, the composed dashboard domain and the e-mail are saved, Gerbil is enabled and the e-mail screen follows |
| Behaviour.HybridDomainValidation | install/tui.go:724-759 | in hybrid mode an empty address is reported; otherwise the address becomes the dashboard domain, the base domain is kept, Gerbil is enabled and the advanced screen follows |
| Behaviour.DomainScreenRoundTrip | install/tui.go:724-895 | after saving the domain screen and going back, the inputs show the typed base domain and e-mail and the typed subdomain or `pangolin` |
| Behaviour.DomainScreenShown | install/tui.go:849-895 | going back from the e-mail screen shows the saved base domain, recovered subdomain and e-mail |
| Behaviour.SmtpRoundTrip | install/tui.go:700-931 | submitting the SMTP screen copies host, user, password and sender verbatim and saves the parsed port or 587; going back shows them again, with a port that reads back as the saved one |
| Behaviour.EmailScreenShown | install/tui.go:908-931 | going back from the advanced screen with e-mail on shows the saved SMTP settings |
| Behaviour.AnswerRestoredOnBack | install/tui.go:632-990 | after answering the hybrid, e-mail or runtime question and going back, the focus is on the button chosen |
| Behaviour.RestoredAfterAdvance | install/tui.go:582-990 | going back after moving on from a question screen seeds the focus from the recorded answer |
| Behaviour.AdvancedAnswerNotRestored | install/tui.go:670-950 | after answering No to IPv6 and going back, the focus is on Yes although IPv6 stays off, because that screen seeds no focus |
| Behaviour.RuneGoesToFocusedInput | install/tui.go:406-536 | a typed character goes into the focused input while under 100 characters and is otherwise dropped |
| Behaviour.HelpToggles | install/tui.go:417-422 | `?` outside a focused input toggles the help and changes nothing else |
| Behaviour.InstallScreenLocked | install/tui.go:424-468 | on the installation screen no key but quit and help moves the screen, the config, the focus or the installing flag |
| Behaviour.CrowdsecInstallEscRestarts | install/tui.go:424-428 | Esc on the CrowdSec installation screen goes back to the welcome screen, since the gating does not cover it |
| Behaviour.ClosingTransitions | install/tui.go:780-791 | entering the installation or CrowdSec installation screen sets `installing` and runs its flow, and entering completion quits; nothing else returns a command |
| Behaviour.ContainerQuestionRunsFlow | install/tui.go:674-677 | a button on the container-installation screen records the choice, sets `installing` and runs the config-and-proceed flow without changing screen |
| Behaviour.ConfigFlowReturns | install/tui.go:1264-1294 | when that flow finishes the wizard is still on the same screen with the same fields and `installing` cleared |
| Behaviour.TabShiftTabRoundTrip | install/tui.go:436-446 | Tab then Shift+Tab returns to the same state with the error cleared |
| Tui.Wizard.constructor | install/tui.go:351-390 | the new wizard is in the initial state and well formed |
| Tui.Wizard.UpdateFocus | install/tui.go:559-571 | the loop marks exactly the input at the focus index as focused |
| Tui.Wizard.HasButtonFields | install/tui.go:573-580 | the loop answers whether some field is a button |
| Tui.Wizard.StandardDomainFields | install/tui.go:866-891 | the standard domain layout has four fields, with base domain and e-mail required, prefilled from the config |
| Tui.Wizard.HybridDomainFields | install/tui.go:851-865 | the hybrid domain layout has a required address input and a button, prefilled as `initScreen` does |
| Tui.Wizard.EmailFields | install/tui.go:908-943 | the SMTP layout has five inputs and a button, prefilled as `initScreen` does |
| Tui.Wizard.Layout | install/tui.go:822-990 | the fields and the seeded focus are those of the current screen |
| Tui.Wizard.InitScreen | install/tui.go:822-990 | showing a screen computes `Controller.Entered` |
| Tui.Wizard.HandleNavigation | install/tui.go:542-557 | the method computes `Controller.Navigated` |
| Tui.Wizard.HandleBack | install/tui.go:582-595 | the method computes `Controller.BackedOut` |
| Tui.Wizard.SaveEmailSettings | install/tui.go:706-716 | the config gains the SMTP settings from the first five fields and nothing else changes |
| Tui.Wizard.StartInstallation | install/tui.go:1012-1019 | `installing` is set and the installation flow is run |
| Tui.Wizard.StartCrowdsecInstallation | install/tui.go:1021-1028 | `installing` is set and the CrowdSec flow is run |
| Tui.Wizard.CreateConfigFilesAndProceed | install/tui.go:1039-1046 | `installing` is set and the config-and-proceed flow is run |
| Tui.Wizard.MoveToNextScreen | install/tui.go:761-820 | the method computes `Controller.Advanced` |
| Tui.Wizard.ValidateAndSaveDomainConfig | install/tui.go:724-759 | the method computes `Controller.DomainSaved` |
| Tui.Wizard.HandleSubmit | install/tui.go:700-722 | the method computes `Controller.Submitted` |
| Tui.Wizard.HandleButtonPress | install/tui.go:632-698 | the method computes `Controller.Pressed` |
| Tui.Wizard.HandleEnter | install/tui.go:597-630 | the method computes `Controller.EnterPressed` |
| Tui.Wizard.UpdateFocusedInput | install/tui.go:527-531 | the key reaches the input at the focus index only, as `Controller.Typed` states |
| Tui.Wizard.HandleBinding | install/tui.go:406-470 | a key whose binding applies is handled as `Controller.KeyPressed` says; any other leaves the state alone and is the one `KeyPressed` hands to the input |
| Tui.Wizard.HandleArrow | install/tui.go:458-468 | Left and Right move the focus exactly on a screen with buttons, as `Controller.Navigated` does, and change nothing otherwise |
| Tui.Wizard.AppendLog | install/tui.go:476-481 | the log becomes `LogSink.AppendLine` of the old log and the line, and nothing else changes |
| Tui.Wizard.AppendBatchLogs | install/tui.go:487-507 | the log becomes `LogSink.AppendBatch` of the old log and the batch, and the command is decided by the first signalling line |
| Tui.Wizard.HandleKey | install/tui.go:406-470 | the key handling computes `Controller.KeyPressed` |
| Tui.Wizard.Update | install/tui.go:396-540 | each message computes `Controller.Updated` and keeps the wizard well formed |

## Left out

- Views, styles, key-help rendering and the window-size message are
  presentation only (install/tui.go:21-158, 401-404, 1359-1882).
- The spinner tick and the viewport are left out. A flow is modelled as
  starting when its command is returned, and the log is the viewport's
  content.
- The text input widget is a value and a focus mark. Typing appends at the
  end and Backspace removes the last character. Cursor movement,
  placeholders and password echo are not modelled, nor are the widget's
  other editing keys: delete word (ctrl+w, alt+backspace), delete to the
  start or end of the line (ctrl+u, ctrl+k), forward delete (delete,
  ctrl+d) and paste (ctrl+v).
- Up and Down reach the focused input; the widget ignores them. Keys that
  reach the viewport on the installation screen only scroll it, so they are
  left out.
- The bodies of the `perform*Async` steps (subprocesses, file copies,
  polling) are not modelled. Each flow is the fixed list of messages it
  sends. Each step's outcome line is a parameter.
- The runtime's order of delivery is not modelled: `Run(flow)` stands for
  sending the whole list in order.
- `performSetupToken` and `createConfigFilesOnly` (with
  `performConfigCreationAsync`) are not modelled, because nothing in
  `install/tui.go` calls them.
- `getPublicIP` is a parameter of every handler that shows a screen.
- Behaviour.Replay: passes one public address to every message, so it and
  the lemmas about runs (`CollectionIsClosed`, `InstallScreenUnreachable`,
  `ReachedOnForwardPath`, `ReachedBackUndoesPress`) cover runs in which the
  public-address lookup gives the same answer each time.
- `loadVersions`, `generateRandomSecretKey`, `createConfigFiles`,
  `checkPortsAvailable` and `os.Geteuid` are defined outside this file and are
  not part of this model.
- The file reads in `loadExistingConfig` (`ReadAppConfig`,
  `ReadTraefikConfig` and the existence check) are parameters.
- Strings are sequences of characters, while Go's `strings.Contains` and
  `len` work on bytes. The markers and limits are compared per character.
- `installStepMsg` only sets a label that the view shows. It is modelled as
  setting `installStep`.
- Text.Atoi: accepts an optional sign and decimal digits within the 64-bit
  range. It does not model the error value that Go returns; a failed parse is
  `None`.
- Tui.Wizard.HandleEnter: has no loop for the search for a trailing button,
  because that search covers an empty range; `Behaviour.EnterDispatch`
  proves that no button can follow the last field.
- Messages.FlowLines: states only the length of the installation flow's lines.
  The lines themselves are read off its definition.
