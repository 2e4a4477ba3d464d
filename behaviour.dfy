/**
 * Properties of the wizard's handlers: the invariants every handler keeps,
 * where sequences of events can and cannot lead, and what the individual
 * screens do with the operator's answers.
 */
module Behaviour {
  import opened Text
  import opened ScreenGraph
  import opened Domain
  import opened Fields
  import opened LogSink
  import opened Messages
  import opened Controller

  /** Two field lists with the same kinds, captions and required flags, position by position. */
  predicate SameShape(a: seq<Field>, b: seq<Field>) {
    |a| == |b| &&
    forall i :: 0 <= i < |a| ==> a[i].kind == b[i].kind && a[i].caption == b[i].caption && a[i].required == b[i].required
  }

  /**
   * The states of the configuration-collection part of the wizard: a
   * well-formed state on one of the screens up to the container-installation
   * question, showing that screen's fields (with whatever the operator typed).
   */
  predicate Collecting(st: State) {
    Wellformed(st) &&
    InCollection(st.currentScreen) &&
    SameShape(st.fields, ScreenFields(st.currentScreen, st.config, ""))
  }

  /** The initial state belongs to the collection part. */
  lemma InitialCollecting(loaded: LoadResult)
    ensures Collecting(Initial(loaded))
  {
  }

  /** `initScreen` lays out the screen's own fields and leaves a well-formed state. */
  lemma EnteredWellformed(st: State, publicIP: string)
    requires |st.installLogs| <= MaxLogLines
    ensures Wellformed(Entered(st, publicIP))
    ensures SameShape(Entered(st, publicIP).fields, ScreenFields(st.currentScreen, st.config, ""))
  {
    LayoutShape(st.currentScreen, st.config, publicIP);
  }

  /** Moving the focus keeps the invariants and changes nothing but the focus and the error. */
  lemma NavigatedPreserves(st: State, direction: int)
    requires Wellformed(st)
    ensures var r := Navigated(st, direction).st;
            Wellformed(r) && (Collecting(st) ==> Collecting(r)) &&
            r == st.(err := r.err, focusIndex := r.focusIndex, fields := r.fields)
  {
  }

  /**
   * Without fields, moving the focus changes nothing; otherwise it clears
   * the error and moves the focus one field on (from the last to the first)
   * or back (from the first to the last), changing nothing else about the
   * fields but which input is focused.
   */
  lemma NavigationMoves(st: State, direction: int)
    requires Wellformed(st)
    ensures |st.fields| == 0 ==> Navigated(st, direction) == Step(st, NoCmd)
    ensures var r := Navigated(st, direction).st;
            var i, n := st.focusIndex, |st.fields|;
            n > 0 ==>
              r.err.None? && |r.fields| == n &&
              (direction > 0 ==> r.focusIndex == if i == n - 1 then 0 else i + 1) &&
              (direction <= 0 ==> r.focusIndex == if i == 0 then n - 1 else i - 1) &&
              forall j :: 0 <= j < n ==> r.fields[j].(focused := false) == st.fields[j].(focused := false)
  {
  }

  /** Typing into the focused input keeps the invariants. */
  lemma TypedPreserves(st: State, k: Key)
    requires Wellformed(st)
    ensures Wellformed(Typed(st, k)) && (Collecting(st) ==> Collecting(Typed(st, k)))
  {
  }

  /** `nextScreen` keeps the invariants, and stays in the collection part unless it leaves the container-installation question. */
  lemma AdvancedPreserves(st: State, publicIP: string)
    requires FocusInRange(st.fields, st.focusIndex) && FocusMarked(st.fields, st.focusIndex)
    requires WithinLimit(st.fields) && |st.installLogs| <= MaxLogLines
    ensures var r := Advanced(st, publicIP).st;
            Wellformed(r) && (InCollection(st.currentScreen) && st.currentScreen != InstallContainers ==> Collecting(r))
  {
    var next := NextScreen(st.currentScreen, st.lastChoice, st.config);
    var config := if st.currentScreen == EmailInput && |st.fields| >= 5 then SaveSmtp(st.config, st.fields) else st.config;
    var moved := st.(config := config, currentScreen := next);
    if next != Install && next != CrowdsecInstall && next != Complete {
      EnteredWellformed(moved, publicIP);
    }
  }

  /** Saving the domain screen keeps the invariants. */
  lemma DomainSavedPreserves(st: State, publicIP: string)
    requires Wellformed(st) && st.currentScreen == DomainConfig
    ensures var r := DomainSaved(st, publicIP).st;
            Wellformed(r) && (Collecting(st) ==> Collecting(r))
  {
    if FirstMissing(st.fields).None? {
      var config :=
        if st.config.hybridMode then
          st.config.(dashboardDomain := st.fields[0].value, installGerbil := true)
        else
          st.config.(baseDomain := st.fields[0].value,
                     dashboardDomain := ComposeDashboard(st.fields[1].value, st.fields[0].value),
                     letsEncryptEmail := st.fields[2].value,
                     installGerbil := true);
      AdvancedPreserves(st.(config := config), publicIP);
    }
  }

  /** Submitting a screen keeps the invariants. */
  lemma SubmittedPreserves(st: State, publicIP: string)
    requires Wellformed(st)
    ensures var r := Submitted(st, publicIP).st;
            Wellformed(r) && (Collecting(st) && st.currentScreen != InstallContainers ==> Collecting(r))
  {
    match st.currentScreen
    case DomainConfig => DomainSavedPreserves(st, publicIP);
    case EmailInput =>
      var saved := if |st.fields| >= 5 then st.(config := SaveSmtp(st.config, st.fields)) else st;
      AdvancedPreserves(saved, publicIP);
    case _ => AdvancedPreserves(st, publicIP);
  }

  /** Pressing a button keeps the invariants. */
  lemma PressedPreserves(st: State, publicIP: string)
    requires Wellformed(st)
    ensures var r := Pressed(st, publicIP).st;
            Wellformed(r) && (Collecting(st) ==> Collecting(r))
  {
    var chosen := st.(lastChoice := st.focusIndex);
    if st.currentScreen == DomainConfig {
      assert Pressed(st, publicIP) == DomainSaved(chosen, publicIP);
      DomainSavedPreserves(chosen, publicIP);
    } else if st.currentScreen !in {InstallContainers, Install, CrowdsecInstall, Complete} {
      var a := PressAnswer(st, publicIP);
      AdvancedPreserves(a, publicIP);
    }
  }

  /** Going back keeps the invariants, and Back never leaves the collection part. */
  lemma BackedOutPreserves(st: State, publicIP: string)
    requires Wellformed(st)
    ensures var r := BackedOut(st, publicIP).st;
            Wellformed(r) && (Collecting(st) ==> Collecting(r))
  {
    if st.currentScreen != Welcome {
      var prev := PrevScreen(st.currentScreen, st.config);
      EnteredWellformed(st.(currentScreen := prev), publicIP);
      if InCollection(st.currentScreen) {
        PrevStaysInCollection(st.currentScreen, st.config);
      }
    }
  }

  /** Enter keeps the invariants. */
  lemma EnterPressedPreserves(st: State, publicIP: string)
    requires Wellformed(st)
    ensures var r := EnterPressed(st, publicIP).st;
            Wellformed(r) && (Collecting(st) ==> Collecting(r))
  {
    if |st.fields| == 0 {
      AdvancedPreserves(st, publicIP);
    } else if st.fields[st.focusIndex].kind == ButtonField {
      PressedPreserves(st, publicIP);
    } else if st.focusIndex < |st.fields| - 1 || HasButtonAfter(st.fields, st.focusIndex) {
      NavigatedPreserves(st, 1);
    } else {
      SubmittedPreserves(st, publicIP);
    }
  }

  /** Every key keeps the invariants. */
  lemma KeyPressedPreserves(st: State, k: Key, publicIP: string)
    requires Wellformed(st)
    ensures var r := KeyPressed(st, k, publicIP).st;
            Wellformed(r) && (Collecting(st) ==> Collecting(r))
  {
    match BindingOf(k)
    case Some(Back) => BackKeyPreserves(st, k, publicIP);
    case Some(Enter) => EnterKeyPreserves(st, k, publicIP);
    case Some(Tab) => MoveKeyPreserves(st, k, publicIP);
    case Some(ShiftTab) => MoveKeyPreserves(st, k, publicIP);
    case Some(Left) => MoveKeyPreserves(st, k, publicIP);
    case Some(Right) => MoveKeyPreserves(st, k, publicIP);
    case _ => OtherKeyPreserves(st, k, publicIP);
  }

  /** Esc keeps the invariants, whether it goes back or is typed. */
  lemma BackKeyPreserves(st: State, k: Key, publicIP: string)
    requires Wellformed(st) && BindingOf(k) == Some(Back)
    ensures var r := KeyPressed(st, k, publicIP).st;
            Wellformed(r) && (Collecting(st) ==> Collecting(r))
  {
    if st.currentScreen != Install && !FocusedOnInput(st) {
      assert KeyPressed(st, k, publicIP) == BackedOut(st, publicIP);
      BackedOutPreserves(st, publicIP);
    } else {
      assert KeyPressed(st, k, publicIP) == Step(Typed(st, k), NoCmd);
      TypedPreserves(st, k);
    }
  }

  /** Enter keeps the invariants, whether it is handled or typed. */
  lemma EnterKeyPreserves(st: State, k: Key, publicIP: string)
    requires Wellformed(st) && BindingOf(k) == Some(Enter)
    ensures var r := KeyPressed(st, k, publicIP).st;
            Wellformed(r) && (Collecting(st) ==> Collecting(r))
  {
    if st.currentScreen != Install {
      assert KeyPressed(st, k, publicIP) == EnterPressed(st, publicIP);
      EnterPressedPreserves(st, publicIP);
    } else {
      assert KeyPressed(st, k, publicIP) == Step(Typed(st, k), NoCmd);
      TypedPreserves(st, k);
    }
  }

  /** Tab, Shift+Tab, Left and Right keep the invariants, whether they move the focus or are typed. */
  lemma MoveKeyPreserves(st: State, k: Key, publicIP: string)
    requires Wellformed(st) && BindingOf(k) in {Some(Tab), Some(ShiftTab), Some(Left), Some(Right)}
    ensures var r := KeyPressed(st, k, publicIP).st;
            Wellformed(r) && (Collecting(st) ==> Collecting(r))
  {
    var r := KeyPressed(st, k, publicIP);
    if r == Step(Typed(st, k), NoCmd) {
      TypedPreserves(st, k);
    } else if r == Navigated(st, 1) {
      NavigatedPreserves(st, 1);
    } else {
      assert r == Navigated(st, -1);
      NavigatedPreserves(st, -1);
    }
  }

  /** Every other key (ctrl+c, ?, the arrows up and down, and plain characters) keeps the invariants. */
  lemma OtherKeyPreserves(st: State, k: Key, publicIP: string)
    requires Wellformed(st) && BindingOf(k) !in {Some(Back), Some(Enter), Some(Tab), Some(ShiftTab), Some(Left), Some(Right)}
    ensures var r := KeyPressed(st, k, publicIP).st;
            Wellformed(r) && (Collecting(st) ==> Collecting(r))
  {
    if BindingOf(k) != Some(Quit) && !(BindingOf(k) == Some(Help) && !FocusedOnInput(st)) {
      assert KeyPressed(st, k, publicIP) == Step(Typed(st, k), NoCmd);
      TypedPreserves(st, k);
    }
  }

  /**
   * Every message keeps the state well-formed (valid focus, exactly the
   * focused input marked, at most 200 log lines, the domain screen's inputs
   * present), and no message leads out of the collection part.
   */
  lemma UpdatedPreserves(st: State, msg: Msg, publicIP: string)
    requires Wellformed(st)
    ensures var r := Updated(st, msg, publicIP).st;
            Wellformed(r) && (Collecting(st) ==> Collecting(r))
  {
    match msg
    case KeyMsg(k) => KeyPressedPreserves(st, k, publicIP);
    case InstallLogMsg(line) => AppendLineBounded(st.installLogs, line);
    case _ =>
  }

  /** The state after `Update` has handled each message of `msgs` in turn. */
  function Replay(st: State, msgs: seq<Msg>, publicIP: string): (r: State)
    requires Wellformed(st)
    ensures Wellformed(r)
    decreases |msgs|
  {
    if |msgs| == 0 then st
    else
      UpdatedPreserves(st, msgs[0], publicIP);
      Replay(Updated(st, msgs[0], publicIP).st, msgs[1..], publicIP)
  }

  /** Handling two sequences of messages is handling the first, then the second. */
  lemma {:induction false} ReplayAppend(st: State, a: seq<Msg>, b: seq<Msg>, publicIP: string)
    requires Wellformed(st)
    ensures Replay(st, a + b, publicIP) == Replay(Replay(st, a, publicIP), b, publicIP)
    decreases |a|
  {
    if |a| == 0 {
      assert a + b == b;
    } else {
      UpdatedPreserves(st, a[0], publicIP);
      assert (a + b)[0] == a[0];
      assert (a + b)[1..] == a[1..] + b;
      ReplayAppend(Updated(st, a[0], publicIP).st, a[1..], b, publicIP);
    }
  }

  /** No sequence of messages leads a state of the collection part out of it. */
  lemma {:induction false} CollectionIsClosed(st: State, msgs: seq<Msg>, publicIP: string)
    requires Collecting(st)
    ensures Collecting(Replay(st, msgs, publicIP))
    decreases |msgs|
  {
    if |msgs| > 0 {
      UpdatedPreserves(st, msgs[0], publicIP);
      CollectionIsClosed(Updated(st, msgs[0], publicIP).st, msgs[1..], publicIP);
    }
  }

  /**
   * Whatever the operator does and whatever the installer reports, the
   * wizard started on the welcome screen never shows the install screen or
   * any screen after it: pressing either button on the container-installation
   * question runs the configuration flow and stays there.
   */
  lemma InstallScreenUnreachable(loaded: LoadResult, msgs: seq<Msg>, publicIP: string)
    ensures var r := Replay(Initial(loaded), msgs, publicIP);
            r.currentScreen !in {Install, Crowdsec, CrowdsecManage, CrowdsecInstall, SetupToken, Complete}
  {
    InitialCollecting(loaded);
    CollectionIsClosed(Initial(loaded), msgs, publicIP);
  }

  /**
   * The hybrid-mode and e-mail flags agree with the way the forward walk
   * reaches the current screen: the hybrid-credentials screen only in
   * hybrid mode, the e-mail question only in standard mode, and the e-mail
   * screen only in standard mode with e-mail enabled.
   */
  predicate OnForwardPath(st: State) {
    (st.currentScreen == HybridCredentials ==> st.config.hybridMode) &&
    (st.currentScreen == EmailConfig ==> !st.config.hybridMode) &&
    (st.currentScreen == EmailInput ==> !st.config.hybridMode && st.config.enableEmail)
  }

  /** Moving on from a state whose last choice is the recorded answer stays on the forward path. */
  lemma AdvancedKeepsPath(a: State, publicIP: string)
    requires OnForwardPath(a)
    requires a.currentScreen == HybridMode ==> a.config.hybridMode == (a.lastChoice == 0)
    requires a.currentScreen == EmailConfig ==> a.config.enableEmail == (a.lastChoice == 0)
    ensures OnForwardPath(Advanced(a, publicIP).st)
  {
    AdvancedMoves(a, publicIP);
  }

  /** Going back stays on the forward path. */
  lemma BackedOutKeepsPath(st: State, publicIP: string)
    requires OnForwardPath(st)
    ensures OnForwardPath(BackedOut(st, publicIP).st)
  {
    BackBehaviour(st, publicIP);
  }

  /** Pressing a button records the answer before moving on, so it stays on the forward path. */
  lemma PressedKeepsPath(st: State, publicIP: string)
    requires Wellformed(st) && OnForwardPath(st)
    ensures OnForwardPath(Pressed(st, publicIP).st)
  {
    if st.currentScreen == DomainConfig {
      var chosen := st.(lastChoice := st.focusIndex);
      assert Pressed(st, publicIP) == DomainSaved(chosen, publicIP);
      DomainSavedKeepsPath(chosen, publicIP);
    } else if st.currentScreen !in {InstallContainers, Install, CrowdsecInstall, Complete} {
      var a := PressAnswer(st, publicIP);
      AdvancedKeepsPath(a, publicIP);
    }
  }

  /** Saving the domain screen keeps the hybrid-mode flag and moves on independently of the last choice. */
  lemma DomainSavedKeepsPath(st: State, publicIP: string)
    requires Wellformed(st) && st.currentScreen == DomainConfig
    ensures OnForwardPath(DomainSaved(st, publicIP).st)
  {
    if FirstMissing(st.fields).None? {
      var config :=
        if st.config.hybridMode then
          st.config.(dashboardDomain := st.fields[0].value, installGerbil := true)
        else
          st.config.(baseDomain := st.fields[0].value,
                     dashboardDomain := ComposeDashboard(st.fields[1].value, st.fields[0].value),
                     letsEncryptEmail := st.fields[2].value,
                     installGerbil := true);
      AdvancedKeepsPath(st.(config := config), publicIP);
    }
  }

  /**
   * Enter stays on the forward path: in the collection part only the domain
   * and e-mail screens have inputs, and moving on from those does not depend
   * on the last choice.
   */
  lemma EnterPressedKeepsPath(st: State, publicIP: string)
    requires Collecting(st) && OnForwardPath(st)
    ensures OnForwardPath(EnterPressed(st, publicIP).st)
  {
    if |st.fields| == 0 {
      assert st.currentScreen == Welcome;
      AdvancedKeepsPath(st, publicIP);
    } else if st.fields[st.focusIndex].kind == ButtonField {
      PressedKeepsPath(st, publicIP);
    } else if st.focusIndex < |st.fields| - 1 || HasButtonAfter(st.fields, st.focusIndex) {
      NavigatedPreserves(st, 1);
    } else {
      assert false;
    }
  }

  /** Every key stays on the forward path. */
  lemma KeyPressedKeepsPath(st: State, k: Key, publicIP: string)
    requires Collecting(st) && OnForwardPath(st)
    ensures OnForwardPath(KeyPressed(st, k, publicIP).st)
  {
    var r := KeyPressed(st, k, publicIP);
    if BindingOf(k) == Some(Back) && st.currentScreen != Install && !FocusedOnInput(st) {
      assert r == BackedOut(st, publicIP);
      BackedOutKeepsPath(st, publicIP);
    } else if BindingOf(k) == Some(Enter) && st.currentScreen != Install {
      assert r == EnterPressed(st, publicIP);
      EnterPressedKeepsPath(st, publicIP);
    } else {
      OtherKeysKeepScreen(st, k, publicIP);
    }
  }

  /** Every key but a Back or Enter that is handled leaves the screen and the configuration as they were. */
  lemma OtherKeysKeepScreen(st: State, k: Key, publicIP: string)
    requires Wellformed(st)
    requires BindingOf(k) == Some(Back) ==> st.currentScreen == Install || FocusedOnInput(st)
    requires BindingOf(k) == Some(Enter) ==> st.currentScreen == Install
    ensures var r := KeyPressed(st, k, publicIP).st;
            r.currentScreen == st.currentScreen && r.config == st.config
  {
    NavigatedPreserves(st, 1);
    NavigatedPreserves(st, -1);
  }

  /**
   * Every message keeps a state of the collection part on the forward path:
   * the hybrid-credentials and e-mail screens are only ever shown with the
   * flags the answers leading to them set.
   */
  lemma UpdatedKeepsPath(st: State, msg: Msg, publicIP: string)
    requires Collecting(st) && OnForwardPath(st)
    ensures OnForwardPath(Updated(st, msg, publicIP).st)
  {
    if msg.KeyMsg? {
      KeyPressedKeepsPath(st, msg.key, publicIP);
    }
  }

  /** No sequence of messages leads a state of the collection part off the forward path. */
  lemma {:induction false} ForwardPathIsClosed(st: State, msgs: seq<Msg>, publicIP: string)
    requires Collecting(st) && OnForwardPath(st)
    ensures Collecting(Replay(st, msgs, publicIP)) && OnForwardPath(Replay(st, msgs, publicIP))
    decreases |msgs|
  {
    if |msgs| > 0 {
      UpdatedPreserves(st, msgs[0], publicIP);
      UpdatedKeepsPath(st, msgs[0], publicIP);
      ForwardPathIsClosed(Updated(st, msgs[0], publicIP).st, msgs[1..], publicIP);
    }
  }

  /** Every state the wizard reaches from its start is a state of the collection part on the forward path. */
  lemma ReachedOnForwardPath(loaded: LoadResult, msgs: seq<Msg>, publicIP: string)
    ensures var r := Replay(Initial(loaded), msgs, publicIP);
            Collecting(r) && OnForwardPath(r)
  {
    InitialCollecting(loaded);
    ForwardPathIsClosed(Initial(loaded), msgs, publicIP);
  }

  /** Handling log-line messages one by one appends their lines one by one and changes nothing else. */
  lemma {:induction false} ReplayLogs(st: State, lines: seq<string>, publicIP: string)
    requires Wellformed(st)
    ensures Replay(st, Logs(lines), publicIP) == st.(installLogs := AppendLines(st.installLogs, lines))
    decreases |lines|
  {
    if |lines| > 0 {
      var next := st.(installLogs := AppendLine(st.installLogs, lines[0]));
      AppendLineBounded(st.installLogs, lines[0]);
      assert Logs(lines)[1..] == Logs(lines[1..]);
      ReplayLogs(next, lines[1..], publicIP);
    }
  }

  /**
   * Handling log lines one by one, then possibly a completion message,
   * appends the lines and ends the busy state only with the completion.
   */
  lemma LogsThenCompletion(st: State, lines: seq<string>, complete: bool, publicIP: string)
    requires Wellformed(st)
    ensures Replay(st, Logs(lines) + if complete then [InstallCompleteMsg] else [], publicIP)
         == st.(installLogs := AppendLines(st.installLogs, lines), installing := st.installing && !complete)
  {
    ReplayLogs(st, lines, publicIP);
    if complete {
      ReplayAppend(st, Logs(lines), [InstallCompleteMsg], publicIP);
    } else {
      assert Logs(lines) + [] == Logs(lines);
    }
  }

  /**
   * What a flow leaves behind once all its messages are handled: its lines
   * appended to the log and nothing else changed, except that the two
   * shorter flows end the busy state while the main installation flow
   * leaves it set (it never reports completion).
   */
  lemma FlowOutcome(st: State, flow: Flow, runtime: ContainerType, lastChoice: int, outcomes: seq<string>, publicIP: string)
    requires Wellformed(st)
    requires |outcomes| == OutcomeCount(flow)
    ensures var r := Replay(st, FlowMessages(flow, runtime, lastChoice, outcomes), publicIP);
            r == st.(installLogs := AppendLines(st.installLogs, FlowLines(flow, runtime, lastChoice, outcomes)),
                     installing := st.installing && flow == InstallFlow)
  {
    var lines := FlowLines(flow, runtime, lastChoice, outcomes);
    assert FlowMessages(flow, runtime, lastChoice, outcomes) == Logs(lines) + if flow == InstallFlow then [] else [InstallCompleteMsg];
    LogsThenCompletion(st, lines, flow != InstallFlow, publicIP);
  }

  /**
   * The command a batch's scan yields reports completion or failure exactly
   * when the batch's first line carrying a marker reports that outcome (a
   * line with both markers reports success), and nothing when no line
   * carries a marker.
   */
  lemma SignalCmdReports(lines: seq<string>)
    ensures var cmd := SignalCmd(FirstSignal(lines));
            (cmd == Emit(InstallCompleteMsg) <==>
               exists i :: 0 <= i < |lines| && LineSignal(lines[i]) == Some(Completed) &&
                           forall j :: 0 <= j < i ==> LineSignal(lines[j]).None?) &&
            (cmd == Emit(InstallErrorMsg(InstallFailed)) <==>
               exists i :: 0 <= i < |lines| && LineSignal(lines[i]) == Some(Signal.Failed) &&
                           forall j :: 0 <= j < i ==> LineSignal(lines[j]).None?) &&
            (cmd == NoCmd <==> forall j :: 0 <= j < |lines| ==> LineSignal(lines[j]).None?)
  {
    FirstSignalIsFirst(lines, Completed);
    FirstSignalIsFirst(lines, Signal.Failed);
    match FirstSignal(lines)
    case Some(Completed) =>
      assert SignalCmd(FirstSignal(lines)) == Emit(InstallCompleteMsg);
    case Some(Failed) =>
      assert SignalCmd(FirstSignal(lines)) == Emit(InstallErrorMsg(InstallFailed));
    case None =>
      assert SignalCmd(FirstSignal(lines)) == NoCmd;
  }

  /**
   * A single log line is appended (the oldest line dropping out past 200)
   * and never reports anything; the completion message ends the busy state
   * and the error message also shows its reason.
   */
  lemma SingleMessages(st: State, line: string, reason: string, publicIP: string)
    requires Wellformed(st)
    ensures var r := Updated(st, InstallLogMsg(line), publicIP);
            r.cmd == NoCmd && r.st == st.(installLogs := Last(MaxLogLines, st.installLogs + [line]))
    ensures Updated(st, InstallCompleteMsg, publicIP) == Step(st.(installing := false), NoCmd)
    ensures Updated(st, InstallErrorMsg(reason), publicIP) == Step(st.(installing := false, err := Some(reason)), NoCmd)
  {
    AppendLineBounded(st.installLogs, line);
  }

  /**
   * A batch of log lines keeps the last 200 lines of the log and the batch,
   * changes nothing else, and reports success only when the first line
   * carrying a marker carries the success marker.
   */
  lemma BatchReport(st: State, lines: seq<string>, publicIP: string)
    requires Wellformed(st)
    ensures var r := Updated(st, InstallBatchLogsMsg(lines), publicIP);
            r.st == st.(installLogs := Last(MaxLogLines, st.installLogs + lines)) &&
            (r.cmd == Emit(InstallCompleteMsg) <==>
               exists i :: 0 <= i < |lines| && LineSignal(lines[i]) == Some(Completed) &&
                           forall j :: 0 <= j < i ==> LineSignal(lines[j]).None?) &&
            (r.cmd == NoCmd <==> forall j :: 0 <= j < |lines| ==> LineSignal(lines[j]).None?)
  {
    BatchIsLast(st.installLogs, lines);
    SignalCmdReports(lines);
  }

  /**
   * `FirstMissing` names the first required field left empty, and finds
   * nothing exactly when every required field has a value.
   */
  lemma {:induction false} FirstMissingIsFirst(fs: seq<Field>)
    ensures FirstMissing(fs).None? <==> forall i :: 0 <= i < |fs| ==> !(fs[i].required && fs[i].value == "")
    ensures FirstMissing(fs).Some? ==>
              exists i :: 0 <= i < |fs| && fs[i].required && fs[i].value == "" && fs[i].caption == FirstMissing(fs).value &&
                          forall j :: 0 <= j < i ==> !(fs[j].required && fs[j].value == "")
    decreases |fs|
  {
    if |fs| > 0 {
      FirstMissingIsFirst(fs[1..]);
      if !(fs[0].required && fs[0].value == "") {
        if FirstMissing(fs).Some? {
          var i :| 0 <= i < |fs[1..]| && fs[1..][i].required && fs[1..][i].value == "" &&
                   fs[1..][i].caption == FirstMissing(fs).value &&
                   forall j :: 0 <= j < i ==> !(fs[1..][j].required && fs[1..][j].value == "");
          assert fs[i + 1] == fs[1..][i];
          assert forall j :: 0 <= j < i + 1 ==> !(fs[j].required && fs[j].value == "") by {
            forall j | 0 <= j < i + 1 ensures !(fs[j].required && fs[j].value == "") {
              if j > 0 { assert fs[j] == fs[1..][j - 1]; }
            }
          }
        }
        assert (forall i :: 0 <= i < |fs| ==> !(fs[i].required && fs[i].value == "")) <==>
               (forall i :: 0 <= i < |fs[1..]| ==> !(fs[1..][i].required && fs[1..][i].value == ""));
      }
    }
  }

  /**
   * Enter without fields moves on; on a button it presses the button; on an
   * input before the last field it moves the focus on; on an input that is
   * the last field it always submits, no button being able to follow it.
   */
  lemma EnterDispatch(st: State, publicIP: string)
    requires Wellformed(st)
    ensures |st.fields| == 0 ==> EnterPressed(st, publicIP) == Advanced(st, publicIP)
    ensures |st.fields| > 0 && st.fields[st.focusIndex].kind == ButtonField ==>
              EnterPressed(st, publicIP) == Pressed(st, publicIP)
    ensures |st.fields| > 0 && st.fields[st.focusIndex].kind == InputField && st.focusIndex < |st.fields| - 1 ==>
              EnterPressed(st, publicIP) == Navigated(st, 1) && Navigated(st, 1).st.focusIndex == st.focusIndex + 1
    ensures |st.fields| > 0 && st.fields[st.focusIndex].kind == InputField && st.focusIndex == |st.fields| - 1 ==>
              !HasButtonAfter(st.fields, st.focusIndex) && EnterPressed(st, publicIP) == Submitted(st, publicIP)
  {
  }

  /** On the standard-mode domain screen the first missing field is the base domain, then the e-mail address. */
  lemma StandardMissing(st: State)
    requires Collecting(st) && st.currentScreen == DomainConfig && !st.config.hybridMode
    ensures FirstMissing(st.fields) == if st.fields[0].value == "" then Some(BaseDomainCaption)
                                      else if st.fields[2].value == "" then Some(EmailCaption)
                                      else None
  {
    var fs := st.fields;
    var layout := ScreenFields(DomainConfig, st.config, "");
    assert layout[0].required && layout[0].caption == BaseDomainCaption && !layout[1].required;
    assert layout[2].required && layout[2].caption == EmailCaption && !layout[3].required;
    assert FirstMissing(fs[3..]) == None by {
      assert fs[3..][0] == fs[3] && fs[3..][1..] == [];
    }
    assert FirstMissing(fs[2..]) == if fs[2].value == "" then Some(EmailCaption) else None by {
      assert fs[2..][0] == fs[2] && fs[2..][1..] == fs[3..];
    }
    assert FirstMissing(fs[1..]) == FirstMissing(fs[2..]) by {
      assert fs[1..][0] == fs[1] && fs[1..][1..] == fs[2..];
    }
  }

  /**
   * Back quits, changing nothing, exactly on the welcome screen and where
   * the previous screen is the screen itself (the completion screen);
   * everywhere else it shows the previous screen afresh.
   */
  lemma BackBehaviour(st: State, publicIP: string)
    ensures var r := BackedOut(st, publicIP);
            (r.cmd == QuitCmd <==> st.currentScreen == Welcome || PrevScreen(st.currentScreen, st.config) == st.currentScreen) &&
            (r.cmd == QuitCmd ==> r.st == st) &&
            (r.cmd != QuitCmd ==> r.cmd == NoCmd && r.st.currentScreen == PrevScreen(st.currentScreen, st.config) &&
                                  r.st.err.None? && r.st.config == st.config)
    ensures BackedOut(st, publicIP).cmd == QuitCmd <==> st.currentScreen == Welcome || st.currentScreen == Complete
  {
    PrevFixedPoints(st.currentScreen, st.config);
  }

  /**
   * `nextScreen` moves to the screen `getNextScreen` names and leaves the
   * hybrid-mode, e-mail and CrowdSec flags as they were.
   */
  lemma AdvancedMoves(st: State, publicIP: string)
    ensures var r := Advanced(st, publicIP).st;
            r.currentScreen == NextScreen(st.currentScreen, st.lastChoice, st.config) &&
            r.config.hybridMode == st.config.hybridMode && r.config.enableEmail == st.config.enableEmail &&
            r.config.doCrowdsecInstall == st.config.doCrowdsecInstall
  {
  }

  /**
   * In the collection part on the forward path, whenever pressing a button
   * leads to another screen, Back there leads to the screen the button was
   * on.
   */
  lemma BackUndoesPress(st: State, publicIP: string)
    requires Collecting(st) && OnForwardPath(st) && st.currentScreen != InstallContainers
    ensures var p := Pressed(st, publicIP).st;
            p.currentScreen != st.currentScreen ==> BackedOut(p, publicIP).st.currentScreen == st.currentScreen
  {
    var s := st.currentScreen;
    var p := Pressed(st, publicIP).st;
    if s == DomainConfig {
      var chosen := st.(lastChoice := st.focusIndex);
      assert Pressed(st, publicIP) == DomainSaved(chosen, publicIP);
      if FirstMissing(st.fields).None? {
        var a := DomainPressAnswer(st, publicIP);
        BackAfterAdvance(a, publicIP);
      }
    } else {
      var a := PressAnswer(st, publicIP);
      BackAfterAdvance(a, publicIP);
    }
  }

  /**
   * On every screen the wizard reaches from its start, other than the
   * container-installation question, Back undoes a button press that moved
   * on.
   */
  lemma ReachedBackUndoesPress(loaded: LoadResult, msgs: seq<Msg>, publicIP: string)
    ensures var st := Replay(Initial(loaded), msgs, publicIP);
            var p := Pressed(st, publicIP).st;
            st.currentScreen != InstallContainers && p.currentScreen != st.currentScreen ==>
              BackedOut(p, publicIP).st.currentScreen == st.currentScreen
  {
    var st := Replay(Initial(loaded), msgs, publicIP);
    ReachedOnForwardPath(loaded, msgs, publicIP);
    if st.currentScreen != InstallContainers {
      BackUndoesPress(st, publicIP);
    }
  }

  /**
   * Pressing a button on a screen before the container question, other than
   * the domain screen, is moving on from a state that records the answer.
   */
  lemma PressAnswer(st: State, publicIP: string) returns (a: State)
    requires st.currentScreen !in {DomainConfig, InstallContainers, Install, CrowdsecInstall, Complete}
    ensures Pressed(st, publicIP) == Advanced(a, publicIP)
    ensures a == st.(lastChoice := st.focusIndex, config := a.config)
    ensures a.config.hybridMode == if st.currentScreen == HybridMode then st.focusIndex == 0 else st.config.hybridMode
    ensures a.config.enableEmail == if st.currentScreen == EmailConfig then st.focusIndex == 0 else st.config.enableEmail
    ensures st.currentScreen == Container ==> (a.config.installationContainerType == Podman <==> st.focusIndex != 0)
  {
    var chosen := st.(lastChoice := st.focusIndex);
    if st.currentScreen == EmailInput {
      a := if |st.fields| >= 5 then chosen.(config := SaveSmtp(chosen.config, chosen.fields)) else chosen;
      assert Pressed(st, publicIP) == Submitted(chosen, publicIP);
    } else {
      a := chosen.(config := Answer(st.currentScreen, st.focusIndex, st.config));
    }
  }

  /** Pressing Continue on a complete domain screen is moving on once the domain settings are stored. */
  lemma DomainPressAnswer(st: State, publicIP: string) returns (a: State)
    requires st.currentScreen == DomainConfig && DomainInputsPresent(st) && FirstMissing(st.fields).None?
    ensures Pressed(st, publicIP) == Advanced(a, publicIP)
    ensures a.currentScreen == DomainConfig && a.config.hybridMode == st.config.hybridMode
  {
    var chosen := st.(lastChoice := st.focusIndex);
    a := chosen.(config :=
      if st.config.hybridMode then
        st.config.(dashboardDomain := st.fields[0].value, installGerbil := true)
      else
        st.config.(baseDomain := st.fields[0].value,
                   dashboardDomain := ComposeDashboard(st.fields[1].value, st.fields[0].value),
                   letsEncryptEmail := st.fields[2].value,
                   installGerbil := true));
    assert Pressed(st, publicIP) == DomainSaved(chosen, publicIP);
  }

  /**
   * Before the container question, when moving on from a screen leaves it,
   * Back returns to it, provided the configuration records the answers as
   * the forward walk does.
   */
  lemma BackAfterAdvance(a: State, publicIP: string)
    requires Rank(a.currentScreen) < Rank(InstallContainers)
    requires ForwardConsistent(a.currentScreen, a.lastChoice, a.config)
    ensures var p := Advanced(a, publicIP).st;
            p.currentScreen != a.currentScreen ==> BackedOut(p, publicIP).st.currentScreen == a.currentScreen
  {
    var p := Advanced(a, publicIP).st;
    AdvancedMoves(a, publicIP);
    PrevUndoesNext(a.currentScreen, a.lastChoice, a.config);
    assert PrevScreen(p.currentScreen, p.config) == PrevScreen(p.currentScreen, a.config);
    BackBehaviour(p, publicIP);
  }

  /**
   * The standard-mode domain screen requires the base domain and the e-mail
   * address, reporting the first one missing, and otherwise stores the base
   * domain, the composed dashboard domain and the e-mail address and moves
   * to the e-mail question.
   */
  lemma StandardDomainValidation(st: State, publicIP: string)
    requires Collecting(st) && st.currentScreen == DomainConfig && !st.config.hybridMode
    ensures var base, sub, email := st.fields[0].value, st.fields[1].value, st.fields[2].value;
            var r := DomainSaved(st, publicIP);
            (base == "" ==> r == Step(st.(err := Some(Required(BaseDomainCaption))), NoCmd)) &&
            (base != "" && email == "" ==> r == Step(st.(err := Some(Required(EmailCaption))), NoCmd)) &&
            (base != "" && email != "" ==>
               r.cmd == NoCmd && r.st.currentScreen == EmailConfig && r.st.err.None? &&
               r.st.config == st.config.(baseDomain := base, dashboardDomain := ComposeDashboard(sub, base),
                                         letsEncryptEmail := email, installGerbil := true))
  {
    StandardMissing(st);
    if st.fields[0].value == "" {
    } else if st.fields[2].value == "" {
    }
  }

  /**
   * The hybrid-mode domain screen requires its one input, and otherwise
   * stores it as the dashboard domain, leaves the base domain alone and
   * moves to the advanced settings.
   */
  lemma HybridDomainValidation(st: State, publicIP: string)
    requires Collecting(st) && st.currentScreen == DomainConfig && st.config.hybridMode
    ensures var r := DomainSaved(st, publicIP);
            (st.fields[0].value == "" ==> r == Step(st.(err := Some(Required(PublicAddressCaption))), NoCmd)) &&
            (st.fields[0].value != "" ==>
               r.cmd == NoCmd && r.st.currentScreen == AdvancedConfig && r.st.err.None? &&
               r.st.config == st.config.(dashboardDomain := st.fields[0].value, installGerbil := true))
  {
    var fs := st.fields;
    var layout := ScreenFields(DomainConfig, st.config, "");
    assert layout[0].required && layout[0].caption == PublicAddressCaption && !layout[1].required;
    assert fs[0].required && fs[0].caption == PublicAddressCaption && !fs[1].required;
    assert FirstMissing(fs[1..]) == None by {
      assert fs[1..][0] == fs[1] && fs[1..][1..] == [];
    }
  }

  /**
   * Saving the standard-mode domain screen and pressing Back on the e-mail
   * question shows the domain screen again with what was typed: the base
   * domain, the subdomain ("pangolin" if it was left empty) and the e-mail
   * address.
   */
  lemma DomainScreenRoundTrip(st: State, publicIP: string)
    requires Collecting(st) && st.currentScreen == DomainConfig && !st.config.hybridMode
    requires st.fields[0].value != "" && st.fields[2].value != ""
    ensures var base, sub, email := st.fields[0].value, st.fields[1].value, st.fields[2].value;
            var back := BackedOut(DomainSaved(st, publicIP).st, publicIP).st;
            back.currentScreen == DomainConfig && |back.fields| == 4 &&
            back.fields[0].value == base &&
            back.fields[1].value == (if sub == "" then DefaultSubdomain else sub) &&
            back.fields[2].value == email
  {
    var fs := st.fields;
    StandardDomainValidation(st, publicIP);
    var saved := DomainSaved(st, publicIP).st;
    DomainScreenShown(saved, publicIP);
    SubdomainRoundTrip(fs[1].value, fs[0].value);
    assert |fs[0].value| <= CharLimit && |fs[1].value| <= CharLimit && |fs[2].value| <= CharLimit;
  }

  /** Back from the e-mail question in standard mode lays the domain screen out from the configuration. */
  lemma DomainScreenShown(st: State, publicIP: string)
    requires st.currentScreen == EmailConfig && !st.config.hybridMode
    ensures var c := st.config;
            var back := BackedOut(st, publicIP).st;
            back.currentScreen == DomainConfig && |back.fields| == 4 &&
            back.fields[0].value == Clip(c.baseDomain) &&
            back.fields[1].value == Clip(match RecoverSubdomain(c.dashboardDomain, c.baseDomain)
                                         case Some(sub) => sub
                                         case None => "") &&
            back.fields[2].value == Clip(c.letsEncryptEmail)
  {
    BackBehaviour(st, publicIP);
  }

  /**
   * Submitting the e-mail screen stores its five inputs (an unreadable port
   * as 587) and moves to the advanced settings; pressing Back there shows
   * the e-mail screen again with the same texts and a port text that reads
   * back as the stored port, or 587 when that is not positive.
   */
  lemma SmtpRoundTrip(st: State, publicIP: string)
    requires Collecting(st) && OnForwardPath(st) && st.currentScreen == EmailInput
    ensures var fs := st.fields;
            var saved := Submitted(st, publicIP).st;
            var port := saved.config.emailSMTPPort;
            var back := BackedOut(saved, publicIP).st;
            saved.currentScreen == AdvancedConfig &&
            saved.config == st.config.(emailSMTPHost := fs[0].value, emailSMTPPort := SmtpPort(fs[1].value),
                                       emailSMTPUser := fs[2].value, emailSMTPPass := fs[3].value,
                                       emailNoReply := fs[4].value) &&
            back.currentScreen == EmailInput && |back.fields| == 6 &&
            back.fields[0].value == fs[0].value && back.fields[2].value == fs[2].value &&
            back.fields[3].value == fs[3].value && back.fields[4].value == fs[4].value &&
            Atoi(back.fields[1].value) == Some(if port > 0 then port else 587)
  {
    var fs := st.fields;
    var saved := Submitted(st, publicIP).st;
    assert |fs| == 6;
    assert Submitted(st, publicIP) == Advanced(st.(config := SaveSmtp(st.config, fs)), publicIP);
    assert saved.config == SaveSmtp(st.config, fs);
    EmailScreenShown(saved, publicIP);
    assert |fs[0].value| <= CharLimit && |fs[2].value| <= CharLimit;
    assert |fs[3].value| <= CharLimit && |fs[4].value| <= CharLimit;
  }

  /** Back from the advanced settings in standard mode with e-mail enabled lays the e-mail screen out from the configuration. */
  lemma EmailScreenShown(st: State, publicIP: string)
    requires st.currentScreen == AdvancedConfig && !st.config.hybridMode && st.config.enableEmail
    requires st.config.emailSMTPPort <= MaxInt
    ensures var c := st.config;
            var back := BackedOut(st, publicIP).st;
            back.currentScreen == EmailInput && |back.fields| == 6 &&
            back.fields[0].value == Clip(c.emailSMTPHost) && back.fields[2].value == Clip(c.emailSMTPUser) &&
            back.fields[3].value == Clip(c.emailSMTPPass) && back.fields[4].value == Clip(c.emailNoReply) &&
            Atoi(back.fields[1].value) == Some(if c.emailSMTPPort > 0 then c.emailSMTPPort else 587)
  {
    BackBehaviour(st, publicIP);
    SmtpPortPrefill(st.config, publicIP);
  }

  /**
   * On the hybrid-mode, e-mail and container-runtime questions, pressing a
   * button and then Back on the next screen shows the question again with
   * the same button focused.
   */
  lemma AnswerRestoredOnBack(st: State, publicIP: string)
    requires Collecting(st)
    requires st.currentScreen == HybridMode || st.currentScreen == Container ||
             (st.currentScreen == EmailConfig && !st.config.hybridMode)
    ensures var back := BackedOut(Pressed(st, publicIP).st, publicIP).st;
            back.currentScreen == st.currentScreen && back.focusIndex == st.focusIndex
  {
    assert |st.fields| == 2;
    var a := PressAnswer(st, publicIP);
    RestoredAfterAdvance(a, publicIP);
  }

  /**
   * Moving on from one of these questions and going back shows the question
   * with the focus the recorded answer seeds.
   */
  lemma RestoredAfterAdvance(a: State, publicIP: string)
    requires a.currentScreen == HybridMode || a.currentScreen == Container || a.currentScreen == EmailConfig
    requires ForwardConsistent(a.currentScreen, a.lastChoice, a.config)
    ensures var back := BackedOut(Advanced(a, publicIP).st, publicIP).st;
            back.currentScreen == a.currentScreen && back.focusIndex == SeededFocus(a.currentScreen, a.config)
  {
    var p := Advanced(a, publicIP).st;
    AdvancedMoves(a, publicIP);
    assert p.config == a.config;
    BackAfterAdvance(a, publicIP);
    BackBehaviour(p, publicIP);
  }

  /** On the advanced-settings question the answer is not restored: Back after "No" focuses "Yes". */
  lemma AdvancedAnswerNotRestored(st: State, publicIP: string)
    requires Collecting(st) && st.currentScreen == AdvancedConfig && st.focusIndex == 1
    ensures var back := BackedOut(Pressed(st, publicIP).st, publicIP).st;
            back.currentScreen == AdvancedConfig && back.focusIndex == 0 && !back.config.enableIPv6
  {
  }

  /**
   * Any character typed while an input has the focus is appended to that
   * input, even the characters bound to help and navigation, unless the
   * input is full; nothing else changes.
   */
  lemma RuneGoesToFocusedInput(st: State, c: char, publicIP: string)
    requires Wellformed(st) && FocusedOnInput(st)
    ensures var f := st.fields[st.focusIndex];
            Updated(st, KeyMsg(Rune(c)), publicIP) ==
            if |f.value| < CharLimit then Step(st.(fields := st.fields[st.focusIndex := f.(value := f.value + [c])]), NoCmd)
            else Step(st, NoCmd)
  {
  }

  /** Without a focused input, "?" toggles the help and changes nothing else. */
  lemma HelpToggles(st: State, publicIP: string)
    requires Wellformed(st) && !FocusedOnInput(st)
    ensures Updated(st, KeyMsg(Rune('?')), publicIP) == Step(st.(showHelp := !st.showHelp), NoCmd)
  {
  }

  /**
   * On the install screen no key but ctrl+c and the help key does anything
   * of its own: the screen, the configuration, the focus and the busy state
   * stay as they are.
   */
  lemma InstallScreenLocked(st: State, k: Key, publicIP: string)
    requires Wellformed(st) && st.currentScreen == Install
    requires BindingOf(k) != Some(Quit) && BindingOf(k) != Some(Help)
    ensures var r := Updated(st, KeyMsg(k), publicIP);
            r.cmd == NoCmd && r.st.currentScreen == Install && r.st.config == st.config &&
            r.st.focusIndex == st.focusIndex && r.st.installing == st.installing
  {
  }

  /** The CrowdSec installation screen is not locked: Esc there returns to the welcome screen. */
  lemma CrowdsecInstallEscRestarts(st: State, publicIP: string)
    requires Wellformed(st) && st.currentScreen == CrowdsecInstall && !FocusedOnInput(st)
    ensures var r := Updated(st, KeyMsg(Esc), publicIP);
            r.cmd == NoCmd && r.st.currentScreen == Welcome
  {
  }

  /**
   * Moving on to the install, CrowdSec installation or completion screen
   * does not lay the screen out: the first two start their flow and mark
   * the wizard busy, the last quits.
   */
  lemma ClosingTransitions(st: State, publicIP: string)
    ensures var next := NextScreen(st.currentScreen, st.lastChoice, st.config);
            var r := Advanced(st, publicIP);
            (next == Install ==> r.cmd == Run(InstallFlow) && r.st.installing && r.st.fields == st.fields) &&
            (next == CrowdsecInstall ==> r.cmd == Run(CrowdsecInstallFlow) && r.st.installing && r.st.fields == st.fields) &&
            (next == Complete ==> r.cmd == QuitCmd && r.st.currentScreen == Complete) &&
            (r.cmd.Run? || r.cmd == QuitCmd <==> next in {Install, CrowdsecInstall, Complete})
  {
  }

  /**
   * On the container-installation question either button runs the
   * configuration flow, marks the wizard busy and stays on the question.
   */
  lemma ContainerQuestionRunsFlow(st: State, publicIP: string)
    requires Collecting(st) && st.currentScreen == InstallContainers
    ensures var r := EnterPressed(st, publicIP);
            r.cmd == Run(ConfigAndProceedFlow) &&
            r.st == st.(lastChoice := st.focusIndex, installing := true)
  {
    assert ScreenFields(InstallContainers, st.config, "") == YesNo;
    assert st.fields[st.focusIndex].kind == ButtonField;
    assert EnterPressed(st, publicIP) == Pressed(st, publicIP);
  }

  /**
   * Once the configuration flow's messages are handled, the wizard is idle
   * on the screen it started from, with the flow's lines in the log: the
   * flow never moves to another screen.
   */
  lemma ConfigFlowReturns(st: State, runtime: ContainerType, outcomes: seq<string>, publicIP: string)
    requires Wellformed(st)
    requires |outcomes| == OutcomeCount(ConfigAndProceedFlow)
    ensures var done := Replay(st, FlowMessages(ConfigAndProceedFlow, runtime, st.lastChoice, outcomes), publicIP);
            done.currentScreen == st.currentScreen && done.fields == st.fields && !done.installing &&
            done.installLogs == AppendLines(st.installLogs, FlowLines(ConfigAndProceedFlow, runtime, st.lastChoice, outcomes))
  {
    FlowOutcome(st, ConfigAndProceedFlow, runtime, st.lastChoice, outcomes, publicIP);
  }

  /** Tab followed by Shift+Tab puts the focus back where it was, clearing only the error. */
  lemma TabShiftTabRoundTrip(st: State, publicIP: string)
    requires Wellformed(st) && |st.fields| > 0 && st.currentScreen != Install
    ensures var a := KeyPressed(st, TabKey, publicIP).st;
            KeyPressed(a, ShiftTabKey, publicIP).st == st.(err := None)
  {
    var n := |st.fields|;
    var k := Cycle(st.focusIndex, 1, n);
    CycleRoundTrip(st.focusIndex, n);
    NavigatedPreserves(st, 1);
    var a := KeyPressed(st, TabKey, publicIP).st;
    assert a == st.(err := None, focusIndex := k, fields := Refocus(st.fields, k));
    var b := KeyPressed(a, ShiftTabKey, publicIP).st;
    assert b == a.(focusIndex := st.focusIndex, fields := Refocus(a.fields, st.focusIndex));
    assert Refocus(Refocus(st.fields, k), st.focusIndex) == st.fields;
  }
}
