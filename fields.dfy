/**
 * The interactive elements of a screen (`field`): buttons and text inputs,
 * which input has the keyboard focus, and the field set `initScreen` lays
 * out for each screen, prefilled from the configuration.
 */
module Fields {
  import opened Text
  import opened ScreenGraph
  import opened Domain

  datatype FieldKind = ButtonField | InputField

  /**
   * A field; for an input, the text input widget is reduced to its value
   * and whether it has the focus. A button carries the zero input: empty
   * and never focused.
   */
  datatype Field = Field(kind: FieldKind, caption: string, required: bool, value: string, focused: bool)

  /** `createButtonField` */
  function Button(caption: string): (f: Field)
    ensures f.kind == ButtonField && f.caption == caption && !f.required && f.value == "" && !f.focused
  {
    Field(ButtonField, caption, false, "", false)
  }

  /** The most characters a text input holds (`CharLimit` of every input the wizard creates). */
  const CharLimit: nat := 100

  /** The first `CharLimit` characters of `s`: what a text input keeps of a value it is given. */
  function Clip(s: string): (r: string)
    ensures |r| <= CharLimit
    ensures |s| <= CharLimit ==> r == s
    ensures |s| > CharLimit ==> r == s[..CharLimit]
  {
    if |s| <= CharLimit then s else s[..CharLimit]
  }

  /**
   * `createInputField` followed by `SetValue(value)` (an untouched input has
   * value ""): the input keeps at most its first 100 characters.
   */
  function Input(caption: string, required: bool, value: string): (f: Field)
    ensures f.kind == InputField && f.caption == caption && f.required == required && !f.focused
    ensures f.value == Clip(value)
  {
    Field(InputField, caption, required, Clip(value), false)
  }

  /** Every field's text is within the input limit. */
  predicate WithinLimit(fs: seq<Field>) {
    forall i :: 0 <= i < |fs| ==> |fs[i].value| <= CharLimit
  }

  /**
   * Go's `%` on a positive divisor: it truncates towards zero, so the
   * remainder is smaller than the divisor in size, takes the sign of the
   * dividend, and differs from it by a multiple of the divisor.
   */
  function GoRem(a: int, n: int): (r: int)
    requires n > 0
    ensures -n < r < n
    ensures a >= 0 ==> r >= 0
    ensures a < 0 ==> r <= 0
    ensures (a - r) % n == 0
  {
    if a >= 0 then
      MultipleRem(a / n, n);
      assert a - a % n == (a / n) * n;
      a % n
    else
      MultipleRem(-((-a) / n), n);
      assert a + (-a) % n == -((-a) / n) * n;
      -((-a) % n)
  }

  /** A multiple of a positive divisor leaves no remainder. */
  lemma MultipleRem(q: int, n: int)
    requires n > 0
    ensures (q * n) % n == 0
  {
    var x := q * n;
    var k := q - x / n;
    assert x % n == k * n;
    if k != 0 {
      assert k >= 1 || k <= -1;
    }
  }

  /** Reducing a number below twice the divisor wraps it at most once. */
  lemma RemWrap(a: int, n: int)
    requires n > 0
    ensures 0 <= a < 2 * n ==> GoRem(a, n) == if a < n then a else a - n
  {
    if 0 <= a < 2 * n {
      SmallRem(a, n);
    }
  }

  lemma SmallRem(a: int, n: int)
    requires n > 0 && 0 <= a < 2 * n
    ensures a % n == if a < n then a else a - n
  {
    var q := a / n;
    assert a == q * n + a % n;
    if q != 0 && q != 1 {
      assert q >= 2 || q <= -1;
    }
  }

  /**
   * `handleNavigation`'s new focus among `n` fields: one on for a positive
   * direction, one back otherwise, wrapping around.
   */
  function Cycle(i: int, direction: int, n: nat): (k: int)
    requires n > 0
    ensures 0 <= i < n ==> 0 <= k < n
    ensures 0 <= i < n && direction > 0 ==> k == if i == n - 1 then 0 else i + 1
    ensures 0 <= i < n && direction <= 0 ==> k == if i == 0 then n - 1 else i - 1
  {
    if direction > 0 then
      RemWrap(i + 1, n); GoRem(i + 1, n)
    else
      RemWrap(i - 1 + n, n); GoRem(i - 1 + n, n)
  }

  /** Moving the focus on and then back, or back and then on, returns it where it was. */
  lemma CycleRoundTrip(i: int, n: nat)
    requires 0 <= i < n
    ensures Cycle(Cycle(i, 1, n), -1, n) == i
    ensures Cycle(Cycle(i, -1, n), 1, n) == i
  {
  }

  /**
   * `updateFocus`: afterwards exactly the input at index `k` is focused
   * (provided no button was), buttons are untouched, and nothing but the
   * focus marks changed.
   */
  function Refocus(fs: seq<Field>, k: int): (r: seq<Field>)
    ensures |r| == |fs|
    ensures ButtonsUnfocused(fs) ==> FocusMarked(r, k)
    ensures forall i :: 0 <= i < |fs| ==> r[i].(focused := false) == fs[i].(focused := false)
    ensures forall i :: 0 <= i < |fs| && fs[i].kind == ButtonField ==> r[i] == fs[i]
  {
    seq(|fs|, i requires 0 <= i < |fs| => if fs[i].kind == InputField then fs[i].(focused := i == k) else fs[i])
  }

  /** Exactly the input at index `k` is focused, and no button is. */
  predicate FocusMarked(fs: seq<Field>, k: int) {
    forall i :: 0 <= i < |fs| ==> (fs[i].focused <==> fs[i].kind == InputField && i == k)
  }

  /** The focus index points at a field, or is 0 when there is none. */
  predicate FocusInRange(fs: seq<Field>, k: int) {
    if |fs| == 0 then k == 0 else 0 <= k < |fs|
  }

  /** No button carries the focus flag. */
  predicate ButtonsUnfocused(fs: seq<Field>) {
    forall i :: 0 <= i < |fs| ==> fs[i].kind == ButtonField ==> !fs[i].focused
  }

  const YesNo := [Button("Yes"), Button("No")]

  // The captions of the fields `initScreen` lays out.
  const ContinueCaption := "Continue"
  const PublicAddressCaption := "Public IP or Domain"
  const BaseDomainCaption := "Base Domain"
  const SubdomainCaption := "Dashboard Subdomain"
  const EmailCaption := "Let's Encrypt Email"
  const SmtpHostCaption := "SMTP Host"
  const SmtpPortCaption := "SMTP Port"
  const SmtpUserCaption := "SMTP Username"
  const SmtpPassCaption := "SMTP Password"
  const NoReplyCaption := "No-Reply Email"

  /**
   * The fields `initScreen` lays out for a screen, before the focus is set.
   * `publicIP` is what `getPublicIP` returns; it is only consulted on the
   * hybrid-mode domain screen when no dashboard domain is stored.
   */
  function ScreenFields(s: Screen, config: Config, publicIP: string): (fs: seq<Field>)
    ensures ButtonsUnfocused(fs)
    ensures forall i :: 0 <= i < |fs| ==> !fs[i].focused
    ensures WithinLimit(fs)
  {
    match s
    case HybridMode => YesNo
    case HybridCredentials => YesNo
    case DomainConfig =>
      if config.hybridMode then
        [Input(PublicAddressCaption, true, if config.dashboardDomain != "" then config.dashboardDomain else publicIP),
         Button(ContinueCaption)]
      else
        [Input(BaseDomainCaption, true, config.baseDomain),
         Input(SubdomainCaption, false,
               match RecoverSubdomain(config.dashboardDomain, config.baseDomain)
               case Some(sub) => sub
               case None => ""),
         Input(EmailCaption, true, config.letsEncryptEmail),
         Button(ContinueCaption)]
    case EmailConfig => YesNo
    case EmailInput =>
      [Input(SmtpHostCaption, false, config.emailSMTPHost),
       Input(SmtpPortCaption, false, if config.emailSMTPPort > 0 then Itoa(config.emailSMTPPort) else "587"),
       Input(SmtpUserCaption, false, config.emailSMTPUser),
       Input(SmtpPassCaption, false, config.emailSMTPPass),
       Input(NoReplyCaption, false, config.emailNoReply),
       Button(ContinueCaption)]
    case AdvancedConfig => YesNo
    case Container => [Button("Docker"), Button("Podman")]
    case InstallContainers => YesNo
    case Crowdsec => YesNo
    case CrowdsecManage => YesNo
    case _ => []
  }

  /** The focus `initScreen` starts with: the button matching the stored answer where there is one, else the first field. */
  function SeededFocus(s: Screen, config: Config): (k: nat)
    ensures k <= 1
    ensures s == HybridMode ==> (k == 0 <==> config.hybridMode)
    ensures s == EmailConfig ==> (k == 0 <==> config.enableEmail)
    ensures s == Container ==> (k == 1 <==> config.installationContainerType == Podman)
    ensures s != HybridMode && s != EmailConfig && s != Container ==> k == 0
  {
    match s
    case HybridMode => if config.hybridMode then 0 else 1
    case EmailConfig => if config.enableEmail then 0 else 1
    case Container => if config.installationContainerType == Podman then 1 else 0
    case _ => 0
  }

  /**
   * The screens without fields are exactly the welcome screen and the
   * screens that run or end the installation, and the seeded focus is
   * always a valid index.
   */
  lemma LayoutShape(s: Screen, config: Config, publicIP: string)
    ensures ScreenFields(s, config, publicIP) == [] <==>
            s in {Welcome, Install, CrowdsecInstall, SetupToken, Complete}
    ensures FocusInRange(ScreenFields(s, config, publicIP), SeededFocus(s, config))
  {
  }

  /** The hybrid-mode domain screen offers the stored dashboard domain, else the public address. */
  lemma HybridDomainPrefill(config: Config, publicIP: string)
    requires config.hybridMode
    ensures var fs := ScreenFields(DomainConfig, config, publicIP);
            |fs| == 2 && fs[0].required &&
            fs[0].value == Clip(if config.dashboardDomain != "" then config.dashboardDomain else publicIP)
  {
  }

  /** The e-mail screen shows the stored SMTP port, or 587 when none is stored, and reading it back gives that port. */
  lemma SmtpPortPrefill(config: Config, publicIP: string)
    requires config.emailSMTPPort <= MaxInt
    ensures var fs := ScreenFields(EmailInput, config, publicIP);
            |fs| == 6 &&
            Atoi(fs[1].value) == Some(if config.emailSMTPPort > 0 then config.emailSMTPPort else 587)
  {
    if config.emailSMTPPort > 0 {
      AtoiItoa(config.emailSMTPPort);
      ItoaLength(config.emailSMTPPort, 19);
    } else {
      assert Itoa(587) == "587";
      AtoiItoa(587);
    }
  }
}
