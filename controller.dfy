/**
 * What each of the wizard's handlers does, as a function from the wizard's
 * state to its new state and the command handed back to the event loop.
 * The Go handlers take the `model` by value and return the updated copy;
 * these functions state those results, and the class `Tui.Wizard` is proved
 * to compute them step by step.
 */
module Controller {
  import opened Text
  import opened ScreenGraph
  import opened Domain
  import opened Fields
  import opened LogSink
  import opened Messages

  /**
   * The part of the `model` the handlers read and write. `err` holds the
   * message of the displayed error, if any; `publicIP`, the widgets'
   * internals, window size and port warnings are not part of it.
   */
  datatype State = State(
    currentScreen: Screen,
    config: Config,
    fields: seq<Field>,
    focusIndex: int,
    err: Option<string>,
    installing: bool,
    lastChoice: int,
    installLogs: seq<string>,
    installStep: string,
    showHelp: bool)

  /** A handler's result: the new state and the command for the event loop. */
  datatype Step = Step(st: State, cmd: Cmd)

  /** `initialModel`: the welcome screen with no fields, over the loaded configuration or the empty one. */
  function Initial(loaded: LoadResult): (st: State)
    ensures st.currentScreen == Welcome && st.fields == [] && !st.installing && st.installLogs == []
    ensures st.config == if loaded.Loaded? then loaded.config else EmptyConfig
  {
    State(Welcome, if loaded.Loaded? then loaded.config else EmptyConfig, [], 0, None, false, 0, [], "", false)
  }

  /**
   * What every handler keeps true: the focus index is a valid index (0 when
   * there are no fields), exactly the input at that index is focused, no
   * input holds more than 100 characters, the log holds at most 200 lines,
   * and the domain screen has the inputs `validateAndSaveDomainConfig` reads.
   */
  predicate Wellformed(st: State) {
    FocusInRange(st.fields, st.focusIndex) &&
    FocusMarked(st.fields, st.focusIndex) &&
    WithinLimit(st.fields) &&
    |st.installLogs| <= MaxLogLines &&
    (st.currentScreen == DomainConfig ==> |st.fields| >= if st.config.hybridMode then 1 else 3)
  }

  /** `initScreen`: the new screen's fields, the seeded focus, no error, and the focus marks updated. */
  function Entered(st: State, publicIP: string): (r: State)
    ensures r.currentScreen == st.currentScreen && r.config == st.config && r.err.None?
    ensures r.installing == st.installing && r.installLogs == st.installLogs
  {
    var k := SeededFocus(st.currentScreen, st.config);
    st.(fields := Refocus(ScreenFields(st.currentScreen, st.config, publicIP), k), focusIndex := k, err := None)
  }

  /** `handleNavigation`: nothing without fields; otherwise clear the error and move the focus cyclically. */
  function Navigated(st: State, direction: int): (r: Step)
    ensures r.cmd == NoCmd
    ensures |st.fields| == 0 ==> r.st == st
    ensures |st.fields| > 0 ==> r.st == st.(err := None, focusIndex := r.st.focusIndex, fields := r.st.fields) &&
                                |r.st.fields| == |st.fields|
    ensures 0 <= st.focusIndex < |st.fields| ==> 0 <= r.st.focusIndex < |st.fields|
  {
    if |st.fields| == 0 then Step(st, NoCmd)
    else
      var k := Cycle(st.focusIndex, direction, |st.fields|);
      Step(st.(err := None, focusIndex := k, fields := Refocus(st.fields, k)), NoCmd)
  }

  /** `hasButtonFields` */
  predicate HasButton(fs: seq<Field>): (b: bool)
    ensures b ==> |fs| > 0
    ensures !b ==> forall i :: 0 <= i < |fs| ==> fs[i].kind == InputField
  {
    exists i :: 0 <= i < |fs| && fs[i].kind == ButtonField
  }

  /** Whether a button follows index `k` (the search in `handleEnter`). */
  predicate HasButtonAfter(fs: seq<Field>, k: int) {
    exists i :: k < i < |fs| && 0 <= i && fs[i].kind == ButtonField
  }

  /** The SMTP port the e-mail screen stores: the parsed number, or 587 when the text is not one. */
  function SmtpPort(text: string): (port: int)
    ensures Atoi(text).Some? ==> port == Atoi(text).value
    ensures Atoi(text).None? ==> port == 587
  {
    match Atoi(text)
    case Some(p) => p
    case None => 587
  }

  /** Saving the e-mail screen: host, port, user, password and no-reply address from its first five inputs. */
  function SaveSmtp(config: Config, fs: seq<Field>): (r: Config)
    requires |fs| >= 5
    ensures r.emailSMTPHost == fs[0].value && r.emailSMTPUser == fs[2].value &&
            r.emailSMTPPass == fs[3].value && r.emailNoReply == fs[4].value
    ensures r.emailSMTPPort == SmtpPort(fs[1].value)
    ensures MinInt <= r.emailSMTPPort <= MaxInt
    ensures r.(emailSMTPHost := config.emailSMTPHost, emailSMTPPort := config.emailSMTPPort,
               emailSMTPUser := config.emailSMTPUser, emailSMTPPass := config.emailSMTPPass,
               emailNoReply := config.emailNoReply) == config
  {
    config.(emailSMTPHost := fs[0].value, emailSMTPPort := SmtpPort(fs[1].value),
            emailSMTPUser := fs[2].value, emailSMTPPass := fs[3].value, emailNoReply := fs[4].value)
  }

  /** `startInstallation`, `startCrowdsecInstallation`, `createConfigFilesAndProceed`: mark the wizard busy and run the flow. */
  function Started(st: State, flow: Flow): (r: Step)
    ensures r.st == st.(installing := true) && r.cmd == Run(flow)
  {
    Step(st.(installing := true), Run(flow))
  }

  /**
   * `nextScreen`: save the e-mail settings when leaving the e-mail screen,
   * move to the next screen, then start the installation flows on entering
   * their screens, quit on entering `Complete`, and lay out the new screen
   * otherwise. (Its branch for leaving the container-installation screen
   * can never be taken and has no counterpart here.)
   */
  function Advanced(st: State, publicIP: string): (r: Step)
    ensures var next := NextScreen(st.currentScreen, st.lastChoice, st.config);
            r.st.currentScreen == next &&
            r.st.installing == (st.installing || next == Install || next == CrowdsecInstall) &&
            (r.cmd == QuitCmd <==> next == Complete)
    ensures r.st.config == if st.currentScreen == EmailInput && |st.fields| >= 5 then SaveSmtp(st.config, st.fields) else st.config
    ensures r.st.lastChoice == st.lastChoice && r.st.installLogs == st.installLogs
  {
    var next := NextScreen(st.currentScreen, st.lastChoice, st.config);
    var config := if st.currentScreen == EmailInput && |st.fields| >= 5 then SaveSmtp(st.config, st.fields) else st.config;
    var moved := st.(config := config, currentScreen := next);
    if next == Install then Started(moved, InstallFlow)
    else if next == CrowdsecInstall then Started(moved, CrowdsecInstallFlow)
    else if next == Complete then Step(moved, QuitCmd)
    else Step(Entered(moved, publicIP), NoCmd)
  }

  /** The caption of the first required field left empty, if any. */
  function FirstMissing(fs: seq<Field>): (r: Option<string>)
    ensures r.None? <==> forall i :: 0 <= i < |fs| ==> !(fs[i].required && fs[i].value == "")
    ensures r.Some? ==> exists i :: 0 <= i < |fs| && fs[i].required && fs[i].value == "" && fs[i].caption == r.value
    decreases |fs|
  {
    if |fs| == 0 then None
    else if fs[0].required && fs[0].value == "" then Some(fs[0].caption)
    else FirstMissing(fs[1..])
  }

  /** The error shown for a required field left empty. */
  function Required(caption: string): string {
    caption + " is required"
  }

  /** The domain screen's inputs, enough for the current mode. */
  predicate DomainInputsPresent(st: State) {
    |st.fields| >= if st.config.hybridMode then 1 else 3
  }

  /**
   * `validateAndSaveDomainConfig`: a required field left empty reports
   * "<caption> is required" and stays; otherwise hybrid mode stores the
   * typed address as dashboard domain, standard mode stores the base domain,
   * the composed dashboard domain and the e-mail address, and both move on.
   */
  function DomainSaved(st: State, publicIP: string): (r: Step)
    requires DomainInputsPresent(st)
    ensures FirstMissing(st.fields).Some? ==>
              r == Step(st.(err := Some(Required(FirstMissing(st.fields).value))), NoCmd)
    ensures FirstMissing(st.fields).None? && st.currentScreen == DomainConfig ==>
              r.st.currentScreen == (if st.config.hybridMode then AdvancedConfig else EmailConfig) &&
              r.st.config.installGerbil && r.st.config.hybridMode == st.config.hybridMode
    ensures r.st.lastChoice == st.lastChoice
  {
    match FirstMissing(st.fields)
    case Some(caption) => Step(st.(err := Some(Required(caption))), NoCmd)
    case None =>
      var config :=
        if st.config.hybridMode then
          st.config.(dashboardDomain := st.fields[0].value, installGerbil := true)
        else
          st.config.(baseDomain := st.fields[0].value,
                     dashboardDomain := ComposeDashboard(st.fields[1].value, st.fields[0].value),
                     letsEncryptEmail := st.fields[2].value,
                     installGerbil := true);
      Advanced(st.(config := config), publicIP)
  }

  /** `handleSubmit` */
  function Submitted(st: State, publicIP: string): (r: Step)
    requires st.currentScreen == DomainConfig ==> DomainInputsPresent(st)
    ensures st.currentScreen != DomainConfig ==> r.st.currentScreen == NextScreen(st.currentScreen, st.lastChoice, st.config)
    ensures st.currentScreen != DomainConfig && st.currentScreen != EmailInput ==> r.st.config == st.config
    ensures r.st.lastChoice == st.lastChoice
  {
    match st.currentScreen
    case DomainConfig => DomainSaved(st, publicIP)
    case EmailInput =>
      var saved := if |st.fields| >= 5 then st.(config := SaveSmtp(st.config, st.fields)) else st;
      Advanced(saved, publicIP)
    case _ => Advanced(st, publicIP)
  }

  /**
   * `handleButtonPress`: remember the focused button as the last choice,
   * apply the screen's answer to the configuration, and move on.
   */
  function Pressed(st: State, publicIP: string): (r: Step)
    requires st.currentScreen == DomainConfig ==> DomainInputsPresent(st)
    ensures r.st.lastChoice == st.focusIndex
    ensures st.currentScreen == Install || st.currentScreen == CrowdsecInstall || st.currentScreen == Complete ==>
              r == Step(st.(lastChoice := st.focusIndex), NoCmd)
    ensures st.currentScreen == InstallContainers ==>
              r == Step(st.(lastChoice := st.focusIndex, installing := true), Run(ConfigAndProceedFlow))
  {
    var chosen := st.(lastChoice := st.focusIndex);
    match st.currentScreen
    case DomainConfig => DomainSaved(chosen, publicIP)
    case EmailInput => Submitted(chosen, publicIP)
    case InstallContainers => Started(chosen, ConfigAndProceedFlow)
    case Install => Step(chosen, NoCmd)
    case CrowdsecInstall => Step(chosen, NoCmd)
    case Complete => Step(chosen, NoCmd)
    case _ => Advanced(chosen.(config := Answer(st.currentScreen, st.focusIndex, st.config)), publicIP)
  }

  /**
   * Two configurations agree on everything but the five answers the
   * question screens record: the domains, the e-mail and SMTP settings and
   * whether Gerbil is installed.
   */
  predicate SameSettings(a: Config, b: Config) {
    a.dashboardDomain == b.dashboardDomain && a.baseDomain == b.baseDomain &&
    a.letsEncryptEmail == b.letsEncryptEmail && a.installGerbil == b.installGerbil &&
    a.emailSMTPHost == b.emailSMTPHost && a.emailSMTPPort == b.emailSMTPPort &&
    a.emailSMTPUser == b.emailSMTPUser && a.emailSMTPPass == b.emailSMTPPass &&
    a.emailNoReply == b.emailNoReply
  }

  /**
   * The answer a question screen records for the button at index `k`
   * ("Yes" and "Docker" come first); the other screens record nothing.
   */
  function Answer(s: Screen, k: int, config: Config): (r: Config)
    ensures r.hybridMode == if s == HybridMode then k == 0 else config.hybridMode
    ensures r.enableEmail == if s == EmailConfig then k == 0 else config.enableEmail
    ensures r.enableIPv6 == if s == AdvancedConfig then k == 0 else config.enableIPv6
    ensures r.installationContainerType == if s == Container then (if k == 0 then Docker else Podman)
                                           else config.installationContainerType
    ensures r.doCrowdsecInstall == if s == Crowdsec then k == 0 else if s == CrowdsecManage then k != 1
                                   else config.doCrowdsecInstall
    ensures SameSettings(r, config)
  {
    var yes := k == 0;
    match s
    case HybridMode => config.(hybridMode := yes)
    case EmailConfig => config.(enableEmail := yes)
    case AdvancedConfig => config.(enableIPv6 := yes)
    case Container => config.(installationContainerType := if yes then Docker else Podman)
    case Crowdsec => config.(doCrowdsecInstall := yes)
    case CrowdsecManage => config.(doCrowdsecInstall := k != 1)
    case _ => config
  }

  /** `handleBack`: quit on the welcome screen or where Back loops; otherwise show the previous screen afresh. */
  function BackedOut(st: State, publicIP: string): (r: Step)
    ensures r.cmd == QuitCmd <==> st.currentScreen == Welcome || st.currentScreen == Complete
    ensures r.cmd == QuitCmd ==> r.st == st
    ensures r.cmd != QuitCmd ==> r.cmd == NoCmd && r.st.currentScreen == PrevScreen(st.currentScreen, st.config) &&
                                 r.st.err.None? && r.st.config == st.config
  {
    if st.currentScreen == Welcome then Step(st, QuitCmd)
    else
      var prev := PrevScreen(st.currentScreen, st.config);
      if prev == st.currentScreen then Step(st, QuitCmd)
      else Step(Entered(st.(currentScreen := prev), publicIP), NoCmd)
  }

  /**
   * `handleEnter`: without fields, move on; on a button, press it; on an
   * input, move to the next field, or on the last field submit unless a
   * button follows it.
   */
  function EnterPressed(st: State, publicIP: string): (r: Step)
    requires Wellformed(st)
    ensures |st.fields| > 0 && st.fields[st.focusIndex].kind == InputField && st.focusIndex < |st.fields| - 1 ==>
              r.cmd == NoCmd && r.st.currentScreen == st.currentScreen && r.st.focusIndex == st.focusIndex + 1
    ensures |st.fields| > 0 && st.fields[st.focusIndex].kind == InputField && st.focusIndex == |st.fields| - 1 ==>
              r == Submitted(st, publicIP)
  {
    if |st.fields| == 0 then Advanced(st, publicIP)
    else if st.fields[st.focusIndex].kind == ButtonField then Pressed(st, publicIP)
    else if st.focusIndex < |st.fields| - 1 then Navigated(st, 1)
    else if HasButtonAfter(st.fields, st.focusIndex) then Navigated(st, 1)
    else Submitted(st, publicIP)
  }

  /** Whether the keyboard focus is in a text input (`focusedOnInput`). */
  predicate FocusedOnInput(st: State) {
    0 <= st.focusIndex < |st.fields| && st.fields[st.focusIndex].kind == InputField && st.fields[st.focusIndex].focused
  }

  /**
   * A focused text input's own handling of a key: a character is appended
   * while the input holds fewer than 100, backspace removes the last one;
   * an unfocused input ignores every key.
   */
  function EditInput(f: Field, k: Key): (r: Field)
    ensures r.(value := f.value) == f
    ensures !f.focused ==> r == f
    ensures |f.value| <= CharLimit ==> |r.value| <= CharLimit
    ensures f.focused && k.Rune? && |f.value| < CharLimit ==> r.value == f.value + [k.c]
    ensures k.Rune? && |f.value| >= CharLimit ==> r == f
    ensures f.focused && k == BackspaceKey && |f.value| > 0 ==> r.value + [f.value[|f.value| - 1]] == f.value
    ensures k == BackspaceKey && |f.value| == 0 ==> r == f
    ensures !k.Rune? && k != BackspaceKey ==> r == f
  {
    if !f.focused then f
    else match k
      case Rune(c) => if |f.value| < CharLimit then f.(value := f.value + [c]) else f
      case BackspaceKey => if |f.value| > 0 then f.(value := f.value[..|f.value| - 1]) else f
      case _ => f
  }

  /** Typing a character into a focused input with room for it and erasing it again restores the input. */
  lemma TypeThenErase(f: Field, c: char)
    requires f.focused && |f.value| < CharLimit
    ensures EditInput(f, Rune(c)).value == f.value + [c]
    ensures EditInput(EditInput(f, Rune(c)), BackspaceKey) == f
  {
    assert (f.value + [c])[..|f.value|] == f.value;
  }

  /** A key that reaches the text input at the focus index. */
  function Typed(st: State, k: Key): (r: State)
    ensures r == st.(fields := r.fields)
    ensures |r.fields| == |st.fields|
    ensures forall i :: 0 <= i < |st.fields| ==> r.fields[i].(value := st.fields[i].value) == st.fields[i]
    ensures forall i :: 0 <= i < |st.fields| && i != st.focusIndex ==> r.fields[i] == st.fields[i]
    ensures 0 <= st.focusIndex < |st.fields| && st.fields[st.focusIndex].kind == InputField ==>
              r.fields[st.focusIndex] == EditInput(st.fields[st.focusIndex], k)
  {
    if 0 <= st.focusIndex < |st.fields| && st.fields[st.focusIndex].kind == InputField then
      st.(fields := st.fields[st.focusIndex := EditInput(st.fields[st.focusIndex], k)])
    else st
  }

  /**
   * The key part of `Update`: Back, Enter, Tab, Shift+Tab, Left and Right
   * do nothing of their own on the install screen; Help and Back, and
   * Left and Right, are left to a focused text input; Left and Right move
   * the focus only on screens with buttons.
   */
  function KeyPressed(st: State, k: Key, publicIP: string): (r: Step)
    requires Wellformed(st)
    ensures BindingOf(k) == Some(Quit) ==> r == Step(st, QuitCmd)
    ensures st.currentScreen == Install && BindingOf(k) != Some(Quit) ==>
              r.cmd == NoCmd && r.st.currentScreen == Install && r.st.config == st.config &&
              r.st.installing == st.installing && r.st.focusIndex == st.focusIndex
  {
    var onInput := FocusedOnInput(st);
    var typed := Step(Typed(st, k), NoCmd);
    var open := st.currentScreen != Install;
    match BindingOf(k)
    case Some(Quit) => Step(st, QuitCmd)
    case Some(Help) => if !onInput then Step(st.(showHelp := !st.showHelp), NoCmd) else typed
    case Some(Back) => if open && !onInput then BackedOut(st, publicIP) else typed
    case Some(Enter) => if open then EnterPressed(st, publicIP) else typed
    case Some(Tab) => if open then Navigated(st, 1) else typed
    case Some(ShiftTab) => if open then Navigated(st, -1) else typed
    case Some(Up) => typed
    case Some(Down) => typed
    case Some(Left) => if open && !onInput && HasButton(st.fields) then Navigated(st, -1) else typed
    case Some(Right) => if open && !onInput && HasButton(st.fields) then Navigated(st, 1) else typed
    case None => typed
  }

  /** The reason reported when a batch of log lines shows an error. */
  const InstallFailed := "installation failed"

  /** The command that reports what a batch of log lines signals. */
  function SignalCmd(s: Option<Signal>): Cmd {
    match s
    case Some(Completed) => Emit(InstallCompleteMsg)
    case Some(Failed) => Emit(InstallErrorMsg(InstallFailed))
    case None => NoCmd
  }

  /**
   * `Update`: keys as above; a step message sets the step text; a log line
   * is appended; a batch is appended and scanned for the markers; the
   * completion and error messages end the busy state, the error one also
   * showing its reason.
   */
  function Updated(st: State, msg: Msg, publicIP: string): (r: Step)
    requires Wellformed(st)
    ensures !msg.KeyMsg? ==> r.st.currentScreen == st.currentScreen && r.st.config == st.config &&
                             r.st.fields == st.fields && r.st.focusIndex == st.focusIndex
    ensures msg.InstallLogMsg? || msg.InstallStepMsg? ==> r.cmd == NoCmd
    ensures msg.InstallBatchLogsMsg? ==> |r.st.installLogs| <= MaxLogLines
    ensures msg == InstallCompleteMsg || msg.InstallErrorMsg? ==> !r.st.installing
  {
    match msg
    case KeyMsg(k) => KeyPressed(st, k, publicIP)
    case InstallStepMsg(step) => Step(st.(installStep := step), NoCmd)
    case InstallLogMsg(line) => Step(st.(installLogs := AppendLine(st.installLogs, line)), NoCmd)
    case InstallBatchLogsMsg(lines) =>
      Step(st.(installLogs := AppendBatch(st.installLogs, lines)), SignalCmd(FirstSignal(lines)))
    case InstallCompleteMsg => Step(st.(installing := false), NoCmd)
    case InstallErrorMsg(reason) => Step(st.(installing := false, err := Some(reason)), NoCmd)
  }
}
