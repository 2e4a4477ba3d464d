/**
 * The installer wizard's screens, the part of the installer configuration
 * the wizard collects, and the two pure transition functions of the screen
 * graph: `getNextScreen` and `getPrevScreen`.
 */
module ScreenGraph {

  /** The fifteen screens of the wizard (`screenID`). */
  datatype Screen =
    | Welcome
    | HybridMode
    | HybridCredentials
    | DomainConfig
    | EmailConfig
    | EmailInput
    | AdvancedConfig
    | Container
    | InstallContainers
    | Install
    | Crowdsec
    | CrowdsecManage
    | CrowdsecInstall
    | SetupToken
    | Complete

  /** The container runtime the installation will use. */
  datatype ContainerType = Docker | Podman

  /**
   * The fields of the installer's `Config` record that the wizard reads or
   * writes. The Go zero value is `EmptyConfig`.
   */
  datatype Config = Config(
    hybridMode: bool,
    enableEmail: bool,
    doCrowdsecInstall: bool,
    enableIPv6: bool,
    installationContainerType: ContainerType,
    dashboardDomain: string,
    baseDomain: string,
    letsEncryptEmail: string,
    installGerbil: bool,
    emailSMTPHost: string,
    emailSMTPPort: int,
    emailSMTPUser: string,
    emailSMTPPass: string,
    emailNoReply: string)

  /**
   * `Config{}`: every flag false, every text empty, port 0. The container
   * type's zero value is not Podman; the wizard only ever tests for Podman,
   * so it is written here as Docker.
   */
  const EmptyConfig := Config(false, false, false, false, Docker, "", "", "", false, "", 0, "", "", "")

  /**
   * `getNextScreen`: the screen that follows `current`, given the index of
   * the button last pressed and the configuration collected so far.
   */
  function NextScreen(current: Screen, choice: int, config: Config): (r: Screen)
    ensures current == Complete ==> r == Complete
    ensures current != Complete ==> Rank(r) > Rank(current)
  {
    match current
    case Welcome => HybridMode
    case HybridMode => if choice == 0 then HybridCredentials else DomainConfig
    case HybridCredentials => DomainConfig
    case DomainConfig => if config.hybridMode then AdvancedConfig else EmailConfig
    case EmailConfig => if choice == 0 then EmailInput else AdvancedConfig
    case EmailInput => AdvancedConfig
    case AdvancedConfig => Container
    case Container => InstallContainers
    case InstallContainers => Install
    case Install => if !config.hybridMode then Crowdsec else SetupToken
    case Crowdsec => if choice == 0 then CrowdsecManage else SetupToken
    case CrowdsecManage => if config.doCrowdsecInstall then CrowdsecInstall else SetupToken
    case CrowdsecInstall => SetupToken
    case SetupToken => Complete
    case Complete => Complete
  }

  /**
   * `getPrevScreen`: the screen that Back leads to. `CrowdsecInstall` has no
   * case of its own in `getPrevScreen` and falls through to `Welcome`.
   */
  function PrevScreen(current: Screen, config: Config): (r: Screen)
    ensures current == Welcome || current == Complete ==> r == current
    ensures current != Welcome && current != Complete ==> Rank(r) < Rank(current)
  {
    match current
    case Welcome => Welcome
    case HybridMode => Welcome
    case HybridCredentials => HybridMode
    case DomainConfig => if config.hybridMode then HybridCredentials else HybridMode
    case EmailConfig => DomainConfig
    case EmailInput => EmailConfig
    case AdvancedConfig =>
      if config.hybridMode then DomainConfig
      else if config.enableEmail then EmailInput
      else EmailConfig
    case Container => AdvancedConfig
    case InstallContainers => Container
    case Install => InstallContainers
    case Crowdsec => Install
    case CrowdsecManage => Crowdsec
    case SetupToken => if config.doCrowdsecInstall then CrowdsecManage else Install
    case Complete => Complete
    case CrowdsecInstall => Welcome
  }

  /** Position of a screen in declaration order, which is also the order of the forward walk. */
  function Rank(s: Screen): (r: nat)
    ensures r <= 14
    ensures r == 0 <==> s == Welcome
    ensures r == 14 <==> s == Complete
  {
    match s
    case Welcome => 0
    case HybridMode => 1
    case HybridCredentials => 2
    case DomainConfig => 3
    case EmailConfig => 4
    case EmailInput => 5
    case AdvancedConfig => 6
    case Container => 7
    case InstallContainers => 8
    case Install => 9
    case Crowdsec => 10
    case CrowdsecManage => 11
    case CrowdsecInstall => 12
    case SetupToken => 13
    case Complete => 14
  }

  /**
   * The configuration-collection part of the graph: the screens from
   * `Welcome` up to the one that asks whether to install containers.
   */
  predicate InCollection(s: Screen) {
    Rank(s) <= Rank(InstallContainers)
  }

  /** `Complete` is the only screen `NextScreen` maps to itself. */
  lemma NextFixedPoint(s: Screen, choice: int, config: Config)
    ensures NextScreen(s, choice, config) == s <==> s == Complete
  {
  }

  /** `Welcome` and `Complete` are the only screens `PrevScreen` maps to themselves. */
  lemma PrevFixedPoints(s: Screen, config: Config)
    ensures PrevScreen(s, config) == s <==> s == Welcome || s == Complete
  {
  }

  /** Going forward always moves strictly further along the walk, except from `Complete`: the graph has no cycle. */
  lemma NextAdvances(s: Screen, choice: int, config: Config)
    requires s != Complete
    ensures Rank(NextScreen(s, choice, config)) > Rank(s)
  {
  }

  /** Going back always moves strictly towards `Welcome`, except on the two fixed points. */
  lemma PrevRetreats(s: Screen, config: Config)
    requires s != Welcome && s != Complete
    ensures Rank(PrevScreen(s, config)) < Rank(s)
  {
  }

  /** Back never leaves the configuration-collection part of the graph. */
  lemma PrevStaysInCollection(s: Screen, config: Config)
    requires InCollection(s)
    ensures InCollection(PrevScreen(s, config))
  {
  }

  /**
   * The configuration a forward walk has when it leaves screen `s` with
   * button `choice`: the choice on the hybrid-mode and e-mail screens is
   * the one recorded in the configuration, the hybrid-credentials screen is
   * only shown in hybrid mode, the e-mail screens only in standard mode, and
   * the CrowdSec flag is only ever set in standard mode.
   */
  predicate ForwardConsistent(s: Screen, choice: int, config: Config) {
    (s == HybridMode ==> config.hybridMode == (choice == 0)) &&
    (s == HybridCredentials ==> config.hybridMode) &&
    (s == EmailConfig ==> !config.hybridMode && config.enableEmail == (choice == 0)) &&
    (s == EmailInput ==> !config.hybridMode && config.enableEmail) &&
    (s == Install ==> config.hybridMode ==> !config.doCrowdsecInstall)
  }

  /**
   * From `Welcome` through `Install`, Back undoes Next when the
   * configuration is the one the forward walk produced.
   */
  lemma PrevUndoesNext(s: Screen, choice: int, config: Config)
    requires Rank(s) <= Rank(Install)
    requires ForwardConsistent(s, choice, config)
    ensures PrevScreen(NextScreen(s, choice, config), config) == s
  {
  }

  /** The forward-consistency conditions are needed: without them Back can skip the screen just left. */
  lemma UndoNeedsRecordedChoice(config: Config)
    requires config.hybridMode
    ensures PrevScreen(NextScreen(HybridMode, 1, config), config) == HybridCredentials
    ensures PrevScreen(NextScreen(EmailConfig, 1, config), config) == DomainConfig
  {
  }

  /**
   * After the CrowdSec screen Back does not return to it: answering "No"
   * leads to the setup-token screen, whose Back goes to the install screen.
   */
  lemma CrowdsecNoIsNotUndone(config: Config)
    requires !config.doCrowdsecInstall
    ensures NextScreen(Crowdsec, 1, config) == SetupToken
    ensures PrevScreen(NextScreen(Crowdsec, 1, config), config) == Install
  {
  }

  /** Back from the CrowdSec installation screen returns to the very first screen. */
  lemma CrowdsecInstallBackRestarts(config: Config)
    requires config.doCrowdsecInstall
    ensures NextScreen(CrowdsecManage, 0, config) == CrowdsecInstall
    ensures PrevScreen(CrowdsecInstall, config) == Welcome
  {
  }

  /** Back from `Complete` stays on `Complete`, although `SetupToken` leads there. */
  lemma CompleteIsNotUndone(choice: int, config: Config)
    ensures NextScreen(SetupToken, choice, config) == Complete
    ensures PrevScreen(Complete, config) == Complete
  {
  }
}
