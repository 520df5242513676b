/** The inputs of class `pow`: the two facts every Boxen node provides, the
    class parameters as a caller may or may not supply them, and the
    configuration the class works with once the defaults are filled in. */
module Settings {
  import opened Wrappers
  import opened Domains

  /** `$::boxen_home` (the Boxen install root) and `$::boxen_user` (the
      account the machine is set up for). */
  datatype Facts = Facts(boxenHome: string, boxenUser: string)

  /** The class parameters; `None` is a parameter the caller left out. */
  datatype Params = Params(
    hostDir: Option<string>,
    logDir: Option<string>,
    httpPort: Option<nat>,
    dnsPort: Option<nat>,
    dstPort: Option<nat>,
    domains: Option<string>,
    extDomains: Option<string>,
    timeout: Option<nat>,
    workers: Option<nat>,
    nginxProxy: Option<bool>)

  /** A declaration of the class that supplies no parameter at all. */
  const NoParams: Params :=
    Params(None, None, None, None, None, None, None, None, None, None)

  const DefaultHttpPort: nat := 30559
  const DefaultDnsPort: nat := 30560
  const DefaultDstPort: nat := 1999
  const DefaultDomains: string := "pow"

  function DefaultHostDir(home: string): string { home + "/data/pow/hosts" }
  function DefaultLogDir(home: string): string { home + "/log/pow" }

  /** The parameters with their defaults filled in. The three optional
      settings stay optional: the config file mentions them only when they
      were supplied. Ports are not range-checked. */
  datatype Config = Config(
    home: string,
    user: string,
    hostDir: string,
    logDir: string,
    httpPort: nat,
    dnsPort: nat,
    dstPort: nat,
    domains: string,
    extDomains: Option<string>,
    timeout: Option<nat>,
    workers: Option<nat>,
    nginxProxy: bool)
  {
    /** The `domains` string split into its domains. */
    function DomainList(): seq<string> {
      SplitDomains(domains)
    }
  }

  function Normalize(facts: Facts, params: Params): Config {
    Config(
      facts.boxenHome,
      facts.boxenUser,
      params.hostDir.GetOr(DefaultHostDir(facts.boxenHome)),
      params.logDir.GetOr(DefaultLogDir(facts.boxenHome)),
      params.httpPort.GetOr(DefaultHttpPort),
      params.dnsPort.GetOr(DefaultDnsPort),
      params.dstPort.GetOr(DefaultDstPort),
      params.domains.GetOr(DefaultDomains),
      params.extDomains,
      params.timeout,
      params.workers,
      params.nginxProxy.GetOr(true))
  }

  /** The declaration that supplies every value of `c`. */
  function Explicit(c: Config): Params {
    Params(Some(c.hostDir), Some(c.logDir), Some(c.httpPort), Some(c.dnsPort), Some(c.dstPort),
      Some(c.domains), c.extDomains, c.timeout, c.workers, Some(c.nginxProxy))
  }

  /** A declaration that supplies every value gets exactly those values: no
      default overrides a supplied parameter. */
  lemma NormalizeExplicit(c: Config)
    ensures Normalize(Facts(c.home, c.user), Explicit(c)) == c
  {
  }

  /** Without parameters the class works with its defaults: the hosts and
      log directories under the Boxen root, ports 30559, 30560 and 1999,
      the domain `pow`, no optional setting, nginx in front. */
  lemma NormalizeDefaults(f: Facts)
    ensures Normalize(f, NoParams) == Config(f.boxenHome, f.boxenUser,
      f.boxenHome + "/data/pow/hosts", f.boxenHome + "/log/pow", 30559, 30560, 1999, "pow", None, None, None, true)
  {
  }
}
