/**
 * The wizard's domain-name handling: composing the dashboard domain from a
 * subdomain and a base domain when the domain screen is submitted,
 * recovering the subdomain from a stored dashboard domain when the screen is
 * shown again, and reading both domains back from the dashboard URL of an
 * existing installation (`loadExistingConfig`).
 */
module Domain {
  import opened Text
  import opened ScreenGraph

  /** The subdomain used when the operator leaves the subdomain field empty. */
  const DefaultSubdomain := "pangolin"

  /**
   * Standard mode: the dashboard domain is the subdomain, or "pangolin" when
   * it is empty, followed by a dot and the base domain.
   */
  function ComposeDashboard(subdomain: string, baseDomain: string): (r: string)
    ensures subdomain != "" ==> r == subdomain + "." + baseDomain
    ensures subdomain == "" ==> r == DefaultSubdomain + "." + baseDomain
  {
    var sub := if subdomain == "" then DefaultSubdomain else subdomain;
    sub + "." + baseDomain
  }

  /**
   * The subdomain shown in the domain screen's second field: the stored
   * dashboard domain without the trailing "." + base domain, offered only
   * when both are set and the suffix was actually there.
   */
  function RecoverSubdomain(dashboardDomain: string, baseDomain: string): (r: Option<string>)
    ensures r.Some? ==> r.value + "." + baseDomain == dashboardDomain
    ensures r.None? <==> dashboardDomain == "" || baseDomain == "" || !HasSuffix(dashboardDomain, "." + baseDomain)
  {
    if dashboardDomain != "" && baseDomain != "" then
      var sub := TrimSuffix(dashboardDomain, "." + baseDomain);
      if sub != dashboardDomain then Some(sub) else None
    else None
  }

  /**
   * Submitting the domain screen and showing it again is loss-free: the
   * subdomain field shows what was typed, or "pangolin" if it was left empty.
   */
  lemma SubdomainRoundTrip(subdomain: string, baseDomain: string)
    requires baseDomain != ""
    ensures RecoverSubdomain(ComposeDashboard(subdomain, baseDomain), baseDomain)
         == Some(if subdomain == "" then DefaultSubdomain else subdomain)
  {
    var sub := if subdomain == "" then DefaultSubdomain else subdomain;
    assert ComposeDashboard(subdomain, baseDomain) == sub + ("." + baseDomain);
    TrimSuffixOfAppend(sub, "." + baseDomain);
  }

  /** The domains read back from a dashboard URL. */
  datatype Domains = Domains(dashboardDomain: string, baseDomain: string)

  /** The dashboard URL without a leading "https://" or, failing that, "http://". */
  function StripScheme(url: string): (host: string)
    ensures HasPrefix(url, "https://") ==> "https://" + host == url
    ensures !HasPrefix(url, "https://") && HasPrefix(url, "http://") ==> "http://" + host == url
    ensures !HasPrefix(url, "https://") && !HasPrefix(url, "http://") ==> host == url
  {
    if HasPrefix(url, "https://") then TrimPrefix(url, "https://")
    else if HasPrefix(url, "http://") then TrimPrefix(url, "http://")
    else url
  }

  /**
   * The URL-parsing part of `loadExistingConfig`: a host with at least one
   * dot gives the whole host as dashboard domain and its last two labels as
   * base domain; anything else gives nothing.
   */
  function ParseDashboardURL(url: string): (r: Option<Domains>)
    ensures r.Some? <==> '.' in StripScheme(url)
    ensures r.Some? ==> r.value.dashboardDomain == StripScheme(url)
  {
    var host := StripScheme(url);
    var parts := Split(host, '.');
    if |parts| >= 2 then
      Some(Domains(host, Join(parts[|parts| - 2..], '.')))
    else
      assert '.' !in host by { JoinSplit(host, '.'); }
      None
  }

  /** The base domain read back is exactly the host's last two labels, and ends the host. */
  lemma ParsedBaseIsLastTwoLabels(url: string)
    requires ParseDashboardURL(url).Some?
    ensures var d := ParseDashboardURL(url).value;
            var parts := Split(d.dashboardDomain, '.');
            d.baseDomain == parts[|parts| - 2] + "." + parts[|parts| - 1] &&
            HasSuffix(d.dashboardDomain, d.baseDomain)
  {
    var d := ParseDashboardURL(url).value;
    var parts := Split(d.dashboardDomain, '.');
    var n := |parts|;
    assert parts[n - 2..][1..] == [parts[n - 1]];
    JoinSplit(d.dashboardDomain, '.');
    if n == 2 {
      assert parts[n - 2..] == parts;
    } else {
      assert parts == parts[..n - 2] + parts[n - 2..];
      JoinAppend(parts[..n - 2], parts[n - 2..], '.');
    }
  }

  /** A host of three or more labels is its leading labels, a dot, and its last two labels. */
  lemma {:induction false} HostAroundBase(host: string)
    requires |Split(host, '.')| >= 3
    ensures var parts := Split(host, '.');
            host == Join(parts[..|parts| - 2], '.') + ("." + Join(parts[|parts| - 2..], '.'))
  {
    var parts := Split(host, '.');
    var n := |parts|;
    JoinSplit(host, '.');
    assert parts == parts[..n - 2] + parts[n - 2..];
    JoinAppend(parts[..n - 2], parts[n - 2..], '.');
  }

  /**
   * For a host of three or more labels, showing the domain screen after
   * loading an existing installation offers everything before the base
   * domain as subdomain, and composing them again gives back the host.
   */
  lemma LoadedSubdomainRecovered(url: string)
    requires |Split(StripScheme(url), '.')| >= 3
    ensures ParseDashboardURL(url).Some?
    ensures var d := ParseDashboardURL(url).value;
            var parts := Split(d.dashboardDomain, '.');
            RecoverSubdomain(d.dashboardDomain, d.baseDomain) == Some(Join(parts[..|parts| - 2], '.'))
  {
    var host := StripScheme(url);
    var parts := Split(host, '.');
    var n := |parts|;
    var base := Join(parts[n - 2..], '.');
    var front := Join(parts[..n - 2], '.');
    assert ParseDashboardURL(url) == Some(Domains(host, base));
    HostAroundBase(host);
    TrimSuffixOfAppend(front, "." + base);
    assert RecoverSubdomain(host, base) == Some(front);
  }

  /**
   * For a host of exactly two labels the base domain is the whole host, so
   * no subdomain is offered and submitting the screen unchanged would turn
   * the dashboard domain into "pangolin." + host.
   */
  lemma TwoLabelHostNotRecovered(url: string)
    requires ParseDashboardURL(url).Some?
    requires |Split(StripScheme(url), '.')| == 2
    ensures var d := ParseDashboardURL(url).value;
            d.baseDomain == d.dashboardDomain &&
            RecoverSubdomain(d.dashboardDomain, d.baseDomain).None? &&
            ComposeDashboard("", d.baseDomain) != d.dashboardDomain
  {
    var d := ParseDashboardURL(url).value;
    var parts := Split(d.dashboardDomain, '.');
    assert parts[0..] == parts;
    JoinSplit(d.dashboardDomain, '.');
  }

  /** What `loadExistingConfig` reads from the application's configuration file. */
  datatype AppConfig = AppConfig(dashboardURL: string)

  /** What `loadExistingConfig` reads from the reverse proxy's configuration file. */
  datatype TraefikConfig = TraefikConfig(letsEncryptEmail: string)

  /** Why no existing configuration could be loaded. */
  datatype LoadError = ConfigMissing | AppConfigUnreadable | TraefikConfigUnreadable

  datatype LoadResult = Loaded(config: Config) | Failed(error: LoadError)

  /**
   * `loadExistingConfig`, with the file-system checks and the two readers as
   * parameters: `None` stands for a reader that returned an error.
   */
  function LoadExistingConfig(configExists: bool, app: Option<AppConfig>, traefik: Option<TraefikConfig>): (r: LoadResult)
    ensures !configExists ==> r == Failed(ConfigMissing)
    ensures configExists && app.None? ==> r == Failed(AppConfigUnreadable)
    ensures configExists && app.Some? && traefik.None? ==> r == Failed(TraefikConfigUnreadable)
    ensures r.Loaded? <==> configExists && app.Some? && traefik.Some?
    ensures r.Loaded? ==> r.config == EmptyConfig.(dashboardDomain := r.config.dashboardDomain,
                                                   baseDomain := r.config.baseDomain,
                                                   letsEncryptEmail := r.config.letsEncryptEmail)
    ensures r.Loaded? ==> !r.config.hybridMode && r.config.installationContainerType == Docker
    ensures r.Loaded? ==> r.config.letsEncryptEmail == traefik.value.letsEncryptEmail
    ensures r.Loaded? ==> match ParseDashboardURL(app.value.dashboardURL)
                          case Some(d) => r.config.dashboardDomain == d.dashboardDomain && r.config.baseDomain == d.baseDomain
                          case None => r.config.dashboardDomain == "" && r.config.baseDomain == ""
  {
    if !configExists then Failed(ConfigMissing)
    else if app.None? then Failed(AppConfigUnreadable)
    else if traefik.None? then Failed(TraefikConfigUnreadable)
    else
      var domains := if app.value.dashboardURL != "" then ParseDashboardURL(app.value.dashboardURL) else None;
      var config := match domains
        case Some(d) => EmptyConfig.(dashboardDomain := d.dashboardDomain, baseDomain := d.baseDomain)
        case None => EmptyConfig;
      Loaded(config.(letsEncryptEmail := traefik.value.letsEncryptEmail, hybridMode := false, installationContainerType := Docker))
  }
}
