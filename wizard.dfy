/**
 * The wizard's `model` and its handlers, updating the state step by step as
 * the Go methods do. Each handler is proved to compute the corresponding
 * function of `Controller`, so everything proved there holds of it.
 */
module Tui {
  import opened Text
  import opened ScreenGraph
  import opened Domain
  import opened Fields
  import opened LogSink
  import opened Messages
  import opened Controller
  import Behaviour

  class Wizard {
    var currentScreen: Screen
    var config: Config
    var fields: seq<Field>
    var focusIndex: int
    var err: Option<string>
    var installing: bool
    var lastChoice: int
    var installLogs: seq<string>
    var installStep: string
    var showHelp: bool

    /** The wizard's state as a value. */
    function St(): State
      reads this
    {
      State(currentScreen, config, fields, focusIndex, err, installing, lastChoice, installLogs, installStep, showHelp)
    }

    /** The invariant every handler keeps (see `Controller.Wellformed`). */
    predicate Valid()
      reads this
    {
      Wellformed(St())
    }

    /** `initialModel`, given the result of loading an existing installation's configuration. */
    constructor (loaded: LoadResult)
      ensures St() == Initial(loaded) && Valid()
    {
      currentScreen := Welcome;
      config := if loaded.Loaded? then loaded.config else EmptyConfig;
      fields := [];
      focusIndex := 0;
      err := None;
      installing := false;
      lastChoice := 0;
      installLogs := [];
      installStep := "";
      showHelp := false;
    }

    /** `updateFocus`: focus the input at the focus index and blur every other input. */
    method UpdateFocus()
      modifies this
      ensures St() == old(St()).(fields := Refocus(old(fields), old(focusIndex)))
    {
      ghost var orig := fields;
      var i := 0;
      while i < |fields|
        invariant 0 <= i <= |fields| == |orig|
        invariant St() == old(St()).(fields := fields)
        invariant forall j :: 0 <= j < i ==> fields[j] == Refocus(orig, focusIndex)[j]
        invariant forall j :: i <= j < |fields| ==> fields[j] == orig[j]
      {
        if fields[i].kind == InputField {
          fields := fields[i := fields[i].(focused := i == focusIndex)];
        }
        i := i + 1;
      }
      assert fields == Refocus(orig, focusIndex);
    }

    /** `hasButtonFields` */
    method HasButtonFields() returns (b: bool)
      ensures b <==> exists i :: 0 <= i < |fields| && fields[i].kind == ButtonField
    {
      for i := 0 to |fields|
        invariant forall j :: 0 <= j < i ==> fields[j].kind != ButtonField
      {
        if fields[i].kind == ButtonField {
          return true;
        }
      }
      return false;
    }

    /** The standard-mode domain screen's fields, prefilled from the configuration as `initScreen` does. */
    method StandardDomainFields() returns (fs: seq<Field>)
      ensures !config.hybridMode ==> fs == ScreenFields(DomainConfig, config, "")
      ensures |fs| == 4 && fs[0].required && fs[2].required
    {
      fs := [Input(BaseDomainCaption, true, ""), Input(SubdomainCaption, false, ""),
             Input(EmailCaption, true, ""), Button(ContinueCaption)];
      if config.baseDomain != "" {
        fs := fs[0 := Input(BaseDomainCaption, true, config.baseDomain)];
      }
      if config.dashboardDomain != "" && config.baseDomain != "" {
        var subdomain := TrimSuffix(config.dashboardDomain, "." + config.baseDomain);
        if subdomain != config.dashboardDomain {
          fs := fs[1 := Input(SubdomainCaption, false, subdomain)];
        }
      }
      if config.letsEncryptEmail != "" {
        fs := fs[2 := Input(EmailCaption, true, config.letsEncryptEmail)];
      }
    }

    /** The hybrid-mode domain screen's fields: the stored dashboard domain, else the public address. */
    method HybridDomainFields(publicIP: string) returns (fs: seq<Field>)
      ensures config.hybridMode ==> fs == ScreenFields(DomainConfig, config, publicIP)
      ensures |fs| == 2 && fs[0].required && fs[0].kind == InputField
    {
      fs := [Input(PublicAddressCaption, true, ""), Button(ContinueCaption)];
      if config.dashboardDomain != "" {
        fs := fs[0 := Input(PublicAddressCaption, true, config.dashboardDomain)];
      } else if publicIP != "" {
        fs := fs[0 := Input(PublicAddressCaption, true, publicIP)];
      }
    }

    /** The e-mail screen's fields: the stored settings, the port written in decimal or 587. */
    method EmailFields() returns (fs: seq<Field>)
      ensures fs == ScreenFields(EmailInput, config, "")
      ensures |fs| == 6 && fs[5].kind == ButtonField
    {
      var port := if config.emailSMTPPort > 0 then Itoa(config.emailSMTPPort) else "587";
      fs := [Input(SmtpHostCaption, false, config.emailSMTPHost),
             Input(SmtpPortCaption, false, port),
             Input(SmtpUserCaption, false, config.emailSMTPUser),
             Input(SmtpPassCaption, false, config.emailSMTPPass),
             Input(NoReplyCaption, false, config.emailNoReply),
             Button(ContinueCaption)];
    }

    /** The switch of `initScreen`: the current screen's fields and the focus it starts with. */
    method Layout(publicIP: string) returns (fs: seq<Field>, k: nat)
      ensures fs == ScreenFields(currentScreen, config, publicIP)
      ensures k == SeededFocus(currentScreen, config)
    {
      fs := [];
      k := 0;
      match currentScreen {
        case HybridMode =>
          fs := [Button("Yes"), Button("No")];
          k := if config.hybridMode then 0 else 1;
        case HybridCredentials =>
          fs := [Button("Yes"), Button("No")];
        case DomainConfig =>
          if config.hybridMode {
            fs := HybridDomainFields(publicIP);
          } else {
            fs := StandardDomainFields();
          }
        case EmailConfig =>
          fs := [Button("Yes"), Button("No")];
          k := if config.enableEmail then 0 else 1;
        case EmailInput =>
          fs := EmailFields();
        case AdvancedConfig =>
          fs := [Button("Yes"), Button("No")];
        case Container =>
          fs := [Button("Docker"), Button("Podman")];
          k := if config.installationContainerType == Podman then 1 else 0;
        case InstallContainers =>
          fs := [Button("Yes"), Button("No")];
        case Crowdsec =>
          fs := [Button("Yes"), Button("No")];
        case CrowdsecManage =>
          fs := [Button("Yes"), Button("No")];
        case _ =>
      }
    }

    /** `initScreen`: lay out the current screen's fields, prefilled from the configuration, and set the focus. */
    method InitScreen(publicIP: string)
      modifies this
      ensures St() == Entered(old(St()), publicIP)
    {
      fields := [];
      focusIndex := 0;
      err := None;
      fields, focusIndex := Layout(publicIP);
      UpdateFocus();
    }

    /** `handleNavigation`: clear the error and move the focus one field on or back, wrapping around. */
    method HandleNavigation(direction: int) returns (cmd: Cmd)
      modifies this
      ensures Step(St(), cmd) == Navigated(old(St()), direction)
    {
      if |fields| == 0 {
        return NoCmd;
      }
      err := None;
      var n := |fields|;
      if direction > 0 {
        RemWrap(focusIndex + 1, n);
        focusIndex := GoRem(focusIndex + 1, n);
      } else {
        RemWrap(focusIndex - 1 + n, n);
        focusIndex := GoRem(focusIndex - 1 + n, n);
      }
      UpdateFocus();
      return NoCmd;
    }

    /** `handleBack` */
    method HandleBack(publicIP: string) returns (cmd: Cmd)
      modifies this
      ensures Step(St(), cmd) == BackedOut(old(St()), publicIP)
    {
      if currentScreen == Welcome {
        return QuitCmd;
      }
      var prev := PrevScreen(currentScreen, config);
      if prev == currentScreen {
        return QuitCmd;
      }
      currentScreen := prev;
      InitScreen(publicIP);
      return NoCmd;
    }

    /** The e-mail screen's five inputs saved into the configuration, as `handleSubmit` and `nextScreen` both do. */
    method SaveEmailSettings()
      requires |fields| >= 5
      modifies this
      ensures St() == old(St()).(config := SaveSmtp(old(config), old(fields)))
    {
      var host := fields[0].value;
      var port := 587;
      var parsed := Atoi(fields[1].value);
      if parsed.Some? {
        port := parsed.value;
      }
      assert port == SmtpPort(fields[1].value);
      config := config.(emailSMTPHost := host, emailSMTPPort := port, emailSMTPUser := fields[2].value,
                        emailSMTPPass := fields[3].value, emailNoReply := fields[4].value);
    }

    /** `startInstallation` */
    method StartInstallation() returns (cmd: Cmd)
      modifies this
      ensures Step(St(), cmd) == Started(old(St()), InstallFlow)
    {
      installing := true;
      return Run(InstallFlow);
    }

    /** `startCrowdsecInstallation` */
    method StartCrowdsecInstallation() returns (cmd: Cmd)
      modifies this
      ensures Step(St(), cmd) == Started(old(St()), CrowdsecInstallFlow)
    {
      installing := true;
      return Run(CrowdsecInstallFlow);
    }

    /** `createConfigFilesAndProceed` */
    method CreateConfigFilesAndProceed() returns (cmd: Cmd)
      modifies this
      ensures Step(St(), cmd) == Started(old(St()), ConfigAndProceedFlow)
    {
      installing := true;
      return Run(ConfigAndProceedFlow);
    }

    /** `nextScreen` */
    method MoveToNextScreen(publicIP: string) returns (cmd: Cmd)
      modifies this
      ensures Step(St(), cmd) == Advanced(old(St()), publicIP)
    {
      ghost var start := St();
      var next := NextScreen(currentScreen, lastChoice, config);
      if currentScreen == EmailInput && |fields| >= 5 {
        SaveEmailSettings();
      }
      currentScreen := next;
      ghost var moved := St();
      assert moved == start.(config := moved.config, currentScreen := next);
      assert moved.config == if start.currentScreen == EmailInput && |start.fields| >= 5
                             then SaveSmtp(start.config, start.fields) else start.config;
      if next == Install {
        cmd := StartInstallation();
        return;
      }
      if next == CrowdsecInstall {
        cmd := StartCrowdsecInstallation();
        return;
      }
      if next == Complete && currentScreen == Complete {
        return QuitCmd;
      }
      if next == InstallContainers {
        currentScreen := next;
        InitScreen(publicIP);
        return NoCmd;
      }
      if currentScreen == InstallContainers && !installing {
        // `nextScreen` starts the installation or moves to the CrowdSec or
        // setup-token screen here; the current screen is `next`, which is
        // not the container-installation screen, so this is never reached.
        assert false;
      }
      InitScreen(publicIP);
      return NoCmd;
    }

    /** `validateAndSaveDomainConfig` */
    method ValidateAndSaveDomainConfig(publicIP: string) returns (cmd: Cmd)
      requires DomainInputsPresent(St())
      modifies this
      ensures Step(St(), cmd) == DomainSaved(old(St()), publicIP)
    {
      for i := 0 to |fields|
        invariant FirstMissing(fields) == FirstMissing(fields[i..])
      {
        if fields[i].required && fields[i].value == "" {
          err := Some(Required(fields[i].caption));
          return NoCmd;
        }
        assert fields[i..][1..] == fields[i + 1..];
      }
      if config.hybridMode {
        var dashboardDomain := fields[0].value;
        config := config.(dashboardDomain := dashboardDomain, installGerbil := true);
      } else {
        var baseDomain := fields[0].value;
        var subdomain := fields[1].value;
        var email := fields[2].value;
        if subdomain == "" {
          subdomain := DefaultSubdomain;
        }
        var dashboardDomain := subdomain + "." + baseDomain;
        config := config.(baseDomain := baseDomain, dashboardDomain := dashboardDomain,
                          letsEncryptEmail := email, installGerbil := true);
      }
      cmd := MoveToNextScreen(publicIP);
    }

    /** `handleSubmit` */
    method HandleSubmit(publicIP: string) returns (cmd: Cmd)
      requires currentScreen == DomainConfig ==> DomainInputsPresent(St())
      modifies this
      ensures Step(St(), cmd) == Submitted(old(St()), publicIP)
    {
      match currentScreen {
        case DomainConfig =>
          cmd := ValidateAndSaveDomainConfig(publicIP);
        case EmailInput =>
          if |fields| >= 5 {
            SaveEmailSettings();
          }
          cmd := MoveToNextScreen(publicIP);
        case _ =>
          cmd := MoveToNextScreen(publicIP);
      }
    }

    /** `handleButtonPress` */
    method HandleButtonPress(publicIP: string) returns (cmd: Cmd)
      requires currentScreen == DomainConfig ==> DomainInputsPresent(St())
      modifies this
      ensures Step(St(), cmd) == Pressed(old(St()), publicIP)
    {
      lastChoice := focusIndex;
      match currentScreen {
        case Welcome =>
          cmd := MoveToNextScreen(publicIP);
        case HybridMode =>
          config := config.(hybridMode := focusIndex == 0);
          cmd := MoveToNextScreen(publicIP);
        case HybridCredentials =>
          cmd := MoveToNextScreen(publicIP);
        case DomainConfig =>
          cmd := ValidateAndSaveDomainConfig(publicIP);
        case EmailConfig =>
          config := config.(enableEmail := focusIndex == 0);
          cmd := MoveToNextScreen(publicIP);
        case EmailInput =>
          cmd := HandleSubmit(publicIP);
        case AdvancedConfig =>
          config := config.(enableIPv6 := focusIndex == 0);
          cmd := MoveToNextScreen(publicIP);
        case Container =>
          if focusIndex == 0 {
            config := config.(installationContainerType := Docker);
          } else {
            config := config.(installationContainerType := Podman);
          }
          cmd := MoveToNextScreen(publicIP);
        case InstallContainers =>
          cmd := CreateConfigFilesAndProceed();
        case Crowdsec =>
          config := config.(doCrowdsecInstall := focusIndex == 0);
          cmd := MoveToNextScreen(publicIP);
        case CrowdsecManage =>
          if focusIndex == 1 {
            config := config.(doCrowdsecInstall := false);
          } else {
            config := config.(doCrowdsecInstall := true);
          }
          cmd := MoveToNextScreen(publicIP);
        case SetupToken =>
          cmd := MoveToNextScreen(publicIP);
        case _ =>
          cmd := NoCmd;
      }
    }

    /** `handleEnter` */
    method HandleEnter(publicIP: string) returns (cmd: Cmd)
      requires Valid()
      modifies this
      ensures Step(St(), cmd) == EnterPressed(old(St()), publicIP)
    {
      if |fields| == 0 {
        cmd := MoveToNextScreen(publicIP);
        return;
      }
      var current := fields[focusIndex];
      match current.kind {
        case ButtonField =>
          cmd := HandleButtonPress(publicIP);
        case InputField =>
          if focusIndex < |fields| - 1 {
            cmd := HandleNavigation(1);
          } else {
            // `handleEnter` then looks for a button after the focused field;
            // the focus is on the last field, so there is none and the
            // screen is submitted.
            cmd := HandleSubmit(publicIP);
          }
      }
    }

    /** The focused text input's own handling of a key that no binding consumed. */
    method UpdateFocusedInput(k: Key)
      modifies this
      ensures St() == Typed(old(St()), k)
    {
      if 0 <= focusIndex < |fields| && fields[focusIndex].kind == InputField {
        var f := fields[focusIndex];
        if f.focused {
          match k {
            case Rune(c) =>
              if |f.value| < CharLimit {
                f := f.(value := f.value + [c]);
              }
            case BackspaceKey =>
              if |f.value| > 0 {
                f := f.(value := f.value[..|f.value| - 1]);
              }
            case _ =>
          }
        }
        fields := fields[focusIndex := f];
      }
    }

    /**
     * The key-press branch of `Update` up to the bindings: a key whose
     * binding applies here is handled; any other is left to the input.
     */
    method HandleBinding(k: Key, publicIP: string) returns (handled: bool, cmd: Cmd)
      requires Valid()
      modifies this
      ensures handled ==> Step(St(), cmd) == KeyPressed(old(St()), k, publicIP)
      ensures !handled ==> St() == old(St()) && KeyPressed(old(St()), k, publicIP) == Step(Typed(old(St()), k), NoCmd)
    {
      var focusedOnInput := false;
      if focusIndex < |fields| && fields[focusIndex].kind == InputField {
        focusedOnInput := fields[focusIndex].focused;
      }
      handled := true;
      match BindingOf(k) {
        case Some(Quit) =>
          return true, QuitCmd;
        case Some(Help) =>
          if !focusedOnInput {
            showHelp := !showHelp;
            return true, NoCmd;
          }
        case Some(Back) =>
          if currentScreen != Install && !focusedOnInput {
            cmd := HandleBack(publicIP);
            return;
          }
        case Some(Enter) =>
          if currentScreen != Install {
            cmd := HandleEnter(publicIP);
            return;
          }
        case Some(Tab) =>
          if currentScreen != Install {
            cmd := HandleNavigation(1);
            return;
          }
        case Some(ShiftTab) =>
          if currentScreen != Install {
            cmd := HandleNavigation(-1);
            return;
          }
        case Some(Up) =>
        case Some(Down) =>
        case Some(Left) =>
          if currentScreen != Install && !focusedOnInput {
            handled, cmd := HandleArrow(-1);
            return;
          }
        case Some(Right) =>
          if currentScreen != Install && !focusedOnInput {
            handled, cmd := HandleArrow(1);
            return;
          }
        case None =>
      }
      return false, NoCmd;
    }

    /** Left and Right move the focus only on a screen with buttons. */
    method HandleArrow(direction: int) returns (handled: bool, cmd: Cmd)
      modifies this
      ensures handled <==> HasButton(old(fields))
      ensures handled ==> Step(St(), cmd) == Navigated(old(St()), direction)
      ensures !handled ==> St() == old(St())
    {
      cmd := NoCmd;
      handled := HasButtonFields();
      if handled {
        cmd := HandleNavigation(direction);
      }
    }

    /** The key-press branch of `Update`: a binding, or else the focused input. */
    method HandleKey(k: Key, publicIP: string) returns (cmd: Cmd)
      requires Valid()
      modifies this
      ensures Step(St(), cmd) == KeyPressed(old(St()), k, publicIP)
    {
      var handled;
      handled, cmd := HandleBinding(k, publicIP);
      if !handled {
        UpdateFocusedInput(k);
        cmd := NoCmd;
      }
    }

    /** A single log line: appended, and the oldest line dropped past 200. */
    method AppendLog(line: string)
      modifies this
      ensures St() == old(St()).(installLogs := AppendLine(old(installLogs), line))
    {
      installLogs := installLogs + [line];
      if |installLogs| > MaxLogLines {
        installLogs := installLogs[1..];
      }
    }

    /**
     * A batch of log lines: the last 200 lines are kept, and the first line
     * that signals completion or an error decides the command returned.
     */
    method AppendBatchLogs(lines: seq<string>) returns (cmd: Cmd)
      modifies this
      ensures St() == old(St()).(installLogs := AppendBatch(old(installLogs), lines))
      ensures cmd == SignalCmd(FirstSignal(lines))
    {
      installLogs := installLogs + lines;
      if |installLogs| > MaxLogLines {
        var start := |installLogs| - MaxLogLines;
        installLogs := installLogs[start..];
      }
      var signal := ScanBatch(lines);
      match signal {
        case Some(Completed) =>
          return Emit(InstallCompleteMsg);
        case Some(Failed) =>
          return Emit(InstallErrorMsg(InstallFailed));
        case None =>
          return NoCmd;
      }
    }

    /** `Update`: dispatch a key press or a message from the installation flows. */
    method Update(msg: Msg, publicIP: string) returns (cmd: Cmd)
      requires Valid()
      modifies this
      ensures Step(St(), cmd) == Updated(old(St()), msg, publicIP)
      ensures Valid()
    {
      Behaviour.UpdatedPreserves(St(), msg, publicIP);
      match msg {
        case KeyMsg(k) =>
          cmd := HandleKey(k, publicIP);
        case InstallStepMsg(step) =>
          installStep := step;
          return NoCmd;
        case InstallLogMsg(line) =>
          AppendLog(line);
          return NoCmd;
        case InstallBatchLogsMsg(lines) =>
          cmd := AppendBatchLogs(lines);
        case InstallCompleteMsg =>
          installing := false;
          return NoCmd;
        case InstallErrorMsg(reason) =>
          installing := false;
          err := Some(reason);
          return NoCmd;
      }
    }
  }

}
