/**
 * The events the wizard reacts to (key presses and the installer's progress
 * messages), the commands its handlers hand back to the event loop, and the
 * provisioning flows as the ordered messages each one sends.
 */
module Messages {
  import opened Text
  import opened ScreenGraph

  /** A key press, as the key bindings distinguish them. */
  datatype Key =
    | CtrlC | Esc | EnterKey | TabKey | ShiftTabKey
    | UpArrow | DownArrow | LeftArrow | RightArrow | BackspaceKey
    | Rune(c: char)

  /** The key bindings `Update` matches against, in the order it tries them. */
  datatype Binding = Quit | Help | Back | Enter | Tab | ShiftTab | Up | Down | Left | Right

  /** Which binding a key matches: ctrl+c, ?, esc, enter, tab, shift+tab, up/k, down/j, left/h, right/l. */
  function BindingOf(k: Key): (b: Option<Binding>)
    ensures k.Rune? && k.c !in "?kjhl" ==> b.None?
    ensures k == BackspaceKey ==> b.None?
  {
    match k
    case CtrlC => Some(Quit)
    case Esc => Some(Back)
    case EnterKey => Some(Enter)
    case TabKey => Some(Tab)
    case ShiftTabKey => Some(ShiftTab)
    case UpArrow => Some(Up)
    case DownArrow => Some(Down)
    case LeftArrow => Some(Left)
    case RightArrow => Some(Right)
    case BackspaceKey => None
    case Rune(c) =>
      if c == '?' then Some(Help)
      else if c == 'k' then Some(Up)
      else if c == 'j' then Some(Down)
      else if c == 'h' then Some(Left)
      else if c == 'l' then Some(Right)
      else None
  }

  /** The messages `Update` handles. */
  datatype Msg =
    | KeyMsg(key: Key)
    | InstallStepMsg(step: string)
    | InstallLogMsg(line: string)
    | InstallBatchLogsMsg(lines: seq<string>)
    | InstallCompleteMsg
    | InstallErrorMsg(reason: string)

  /** The provisioning flows the wizard starts. */
  datatype Flow =
    | InstallFlow           // performInstallationAsync
    | ConfigAndProceedFlow  // performConfigCreationAndProceedAsync
    | CrowdsecInstallFlow   // performCrowdsecInstallationAsync

  /** What a handler hands back to the event loop besides the new state. */
  datatype Cmd =
    | NoCmd
    | QuitCmd
    | Emit(msg: Msg)   // a command that yields this message
    | Run(flow: Flow)  // the spinner tick together with the flow's sequence of steps

  /**
   * How many steps of a flow produce a line that depends on an external
   * action (writing files, probing or starting the container runtime,
   * pulling images, starting or stopping containers, backing up, installing
   * CrowdSec).
   */
  function OutcomeCount(flow: Flow): nat {
    match flow
    case InstallFlow => 9
    case ConfigAndProceedFlow => 1
    case CrowdsecInstallFlow => 3
  }

  // The fixed lines the flows send.
  const ConfigLoadedLine := "✓ Configuration loaded and secret generated"
  const InstallDoneLine := "🎉 Installation process completed!"
  const ReviewLine := "📋 Review the logs above for any errors or warnings."
  const ScrollLine := "🔍 Use ↑↓ arrows to scroll through the installation output."
  const ExitLine := "✨ Press Ctrl+C to exit when you're ready."
  const PullingPrefix := "🚢 Pulling container images with "
  const StartingPrefix := "🚀 Starting containers with "
  const ProceedLine := "🚀 Proceeding with container installation..."
  const SkipLine := "⏭️ Skipping container installation, proceeding to CrowdSec setup..."
  const StoppingLine := "🛑 Stopping existing containers..."
  const BackupLine := "💾 Backing up configuration..."
  const CrowdsecLine := "🛡️ Installing CrowdSec security solution..."
  const CrowdsecDoneLine := "🎉 CrowdSec installation completed!"

  function Logs(lines: seq<string>): (r: seq<Msg>)
    ensures |r| == |lines|
    ensures forall i :: 0 <= i < |r| ==> r[i] == InstallLogMsg(lines[i])
  {
    if |lines| == 0 then [] else [InstallLogMsg(lines[0])] + Logs(lines[1..])
  }

  /**
   * The log lines a flow sends, in order. `outcomes` holds the lines of the
   * steps that depend on external actions; the other lines are fixed, or
   * depend only on the container runtime and the last button chosen when
   * the flow was started.
   */
  function FlowLines(flow: Flow, runtime: ContainerType, lastChoice: int, outcomes: seq<string>): (r: seq<string>)
    requires |outcomes| == OutcomeCount(flow)
    ensures flow == InstallFlow ==> |r| == 17
  {
    match flow
    case InstallFlow =>
      var tool := if runtime == Podman then "podman-compose" else "docker compose";
      [
        ConfigLoadedLine,
        outcomes[0],  // configuration files
        outcomes[1],  // compose tool probe
        outcomes[2],  // runtime installation notice
        outcomes[3],  // runtime installation and service start
        outcomes[4],  // waiting for the runtime
        outcomes[5],  // runtime liveness poll
        outcomes[6],  // compose file check
        PullingPrefix + tool + "...",
        outcomes[7],  // image pull
        StartingPrefix + tool + "...",
        outcomes[8],  // container start
        InstallDoneLine,
        "",
        ReviewLine,
        ScrollLine,
        ExitLine]
    case ConfigAndProceedFlow =>
      [
        ConfigLoadedLine,
        outcomes[0],  // configuration files
        if lastChoice == 0 then ProceedLine else SkipLine]
    case CrowdsecInstallFlow =>
      [
        StoppingLine,
        outcomes[0],  // stopping containers
        BackupLine,
        outcomes[1],  // backup
        CrowdsecLine,
        outcomes[2],  // CrowdSec installation
        CrowdsecDoneLine,
        "",
        ReviewLine,
        ScrollLine,
        ExitLine]
  }

  /**
   * The messages a flow sends: its log lines one message each, then, for
   * every flow but the main installation, a completion message.
   */
  function FlowMessages(flow: Flow, runtime: ContainerType, lastChoice: int, outcomes: seq<string>): (r: seq<Msg>)
    requires |outcomes| == OutcomeCount(flow)
    ensures var lines := FlowLines(flow, runtime, lastChoice, outcomes);
            |r| == |lines| + (if flow == InstallFlow then 0 else 1) &&
            forall i :: 0 <= i < |lines| ==> r[i] == InstallLogMsg(lines[i])
  {
    Logs(FlowLines(flow, runtime, lastChoice, outcomes)) + if flow == InstallFlow then [] else [InstallCompleteMsg]
  }

  /**
   * Every flow sends only single log lines, never a batch; the main
   * installation flow never sends a completion message, the other two end
   * with exactly one.
   */
  lemma FlowShape(flow: Flow, runtime: ContainerType, lastChoice: int, outcomes: seq<string>)
    requires |outcomes| == OutcomeCount(flow)
    ensures var msgs := FlowMessages(flow, runtime, lastChoice, outcomes);
            (flow == InstallFlow ==> |msgs| == 17 && forall i :: 0 <= i < |msgs| ==> msgs[i].InstallLogMsg?) &&
            (flow != InstallFlow ==> |msgs| >= 1 && msgs[|msgs| - 1] == InstallCompleteMsg &&
                                     forall i :: 0 <= i < |msgs| - 1 ==> msgs[i].InstallLogMsg?)
  {
    var logs := Logs(FlowLines(flow, runtime, lastChoice, outcomes));
    var msgs := FlowMessages(flow, runtime, lastChoice, outcomes);
    if flow == InstallFlow {
      assert msgs == logs;
    } else {
      assert msgs == logs + [InstallCompleteMsg];
      assert forall i :: 0 <= i < |msgs| - 1 ==> msgs[i] == logs[i];
    }
  }
}
