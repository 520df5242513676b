/** Class `pow`: from the two Boxen facts and the class parameters to the
    catalogue it compiles to. It writes `~/.powconfig`, installs the `pow`
    package after it, links `~/.pow` to the hosts directory, creates the
    hosts and log directories, runs the `dev.pow.powd` agent, declares one
    DNS resolver file per domain, and either puts pow behind nginx or runs
    pow's own firewall daemon, never both. */
module Pow {
  import opened Wrappers
  import opened Text
  import opened Settings
  import opened Catalogue
  import Powconfig
  import Site

  const PowdLabel := "dev.pow.powd"
  const FirewallLabel := "dev.pow.firewall"
  const PowdPlist := "/Library/LaunchAgents/dev.pow.powd.plist"
  const FirewallPlist := "/Library/LaunchDaemons/dev.pow.firewall.plist"
  const ResolverDir := "/etc/resolver"

  function PowconfigPath(user: string): string { "/Users/" + user + "/.powconfig" }
  function HostLinkPath(user: string): string { "/Users/" + user + "/.pow" }
  function SitePath(home: string): string { home + "/config/nginx/sites/pow.conf" }
  function ResolverPath(d: string): string { "/etc/resolver/" + d }

  // ---------------------------------------------------------------------
  // The resources

  function PowconfigFile(c: Config): Resource {
    Resource(File, PowconfigPath(c.user),
      NoAttrs.(ensure := Some("present"), mode := Some("0644"), content := Some(Powconfig.Render(c))), [], [])
  }

  function PowPackage(c: Config): Resource {
    Resource(Package, "pow", NoAttrs.(ensure := Some("latest"), provider := Some("homebrew")),
      [Ref(File, PowconfigPath(c.user))], [])
  }

  function HostLink(c: Config): Resource {
    Resource(File, HostLinkPath(c.user), NoAttrs.(ensure := Some("link"), target := Some(c.hostDir)),
      [Ref(File, c.hostDir)], [])
  }

  function Directory(path: string): Resource {
    Resource(File, path, NoAttrs.(ensure := Some("directory")), [], [])
  }

  const PowdPlistFile: Resource := Resource(File, PowdPlist, NoAttrs, [], [Ref(Service, PowdLabel)])

  const PowdService: Resource :=
    Resource(Service, PowdLabel, NoAttrs.(ensure := Some("running")), [Ref(Package, "pow")], [])

  function ResolverFile(d: string): Resource {
    Resource(File, ResolverPath(d), NoAttrs.(owner := Some("root"), group := Some("wheel")), [Ref(File, ResolverDir)], [])
  }

  function SiteFile(c: Config): Resource {
    Resource(File, SitePath(c.home), NoAttrs.(content := Some(Site.SiteContent(c.DomainList(), c.httpPort))), [], [])
  }

  const FirewallPlistFile: Resource :=
    Resource(File, FirewallPlist, NoAttrs.(owner := Some("root"), group := Some("wheel")), [], [Ref(Service, FirewallLabel)])

  const FirewallService: Resource :=
    Resource(Service, FirewallLabel, NoAttrs.(ensure := Some("running")), [Ref(Package, "pow")], [])

  /** How port 80 reaches pow: an nginx site, or pow's own firewall rule. */
  datatype ProxyStrategy =
    | NginxProxy(site: Resource)
    | LocalFirewall(descriptor: Resource, service: Resource)

  function Strategy(c: Config): ProxyStrategy {
    if c.nginxProxy then NginxProxy(SiteFile(c)) else LocalFirewall(FirewallPlistFile, FirewallService)
  }

  function StrategyResources(s: ProxyStrategy): seq<Resource> {
    match s
    case NginxProxy(site) => [site]
    case LocalFirewall(descriptor, service) => [descriptor, service]
  }

  function StrategyClasses(s: ProxyStrategy): set<string> {
    match s
    case NginxProxy(_) => {"nginx::config", "nginx"}
    case LocalFirewall(_, _) => {}
  }

  /** One resolver file per domain, in the order of the domains. */
  function Resolvers(ds: seq<string>): seq<Resource> {
    seq(|ds|, i requires 0 <= i < |ds| => ResolverFile(ds[i]))
  }

  /** What every compilation declares, whatever the parameters. */
  function Base(c: Config): seq<Resource> {
    [PowconfigFile(c), PowPackage(c), HostLink(c), Directory(c.hostDir), Directory(c.logDir),
     PowdPlistFile, PowdService]
  }

  function Resources(c: Config): seq<Resource> {
    Base(c) + Resolvers(c.DomainList()) + StrategyResources(Strategy(c))
  }

  function Classes(c: Config): set<string> {
    {"pow"} + StrategyClasses(Strategy(c))
  }

  /** Compiles the class: the catalogue, or the reference the class would
      declare twice, which Puppet refuses. */
  function Compile(facts: Facts, params: Params): (r: Result<Catalogue, DuplicateDeclaration>)
    ensures r.Ok? <==> Distinct(Ids(Resources(Normalize(facts, params))))
    ensures r.Ok? ==> r.value == Catalogue(Classes(Normalize(facts, params)), Resources(Normalize(facts, params)))
  {
    var c := Normalize(facts, params);
    Assemble(Classes(c), Resources(c))
  }

  // ---------------------------------------------------------------------
  // What a compiled catalogue holds

  /** A resource of a compiled catalogue is what looking up its reference
      finds. */
  lemma Declared(f: Facts, p: Params, cat: Catalogue, i: nat)
    requires Compile(f, p) == Ok(cat)
    requires i < |cat.resources|
    ensures Lookup(cat.resources, cat.resources[i].Id()) == Some(cat.resources[i])
  {
    LookupDistinct(cat.resources, i);
  }

  /** The class itself is in the catalogue. */
  lemma IncludesPow(f: Facts, p: Params, cat: Catalogue)
    requires Compile(f, p) == Ok(cat)
    ensures "pow" in cat.classes
  {
  }

  /** The launch agent's plist notifies the `dev.pow.powd` service. */
  lemma PowdPlistNotifies(f: Facts, p: Params, cat: Catalogue)
    requires Compile(f, p) == Ok(cat)
    ensures var r := Lookup(cat.resources, Ref(File, PowdPlist));
      r.Some? && r.value.notify == [Ref(Service, PowdLabel)]
  {
    Declared(f, p, cat, 5);
  }

  /** `~/.powconfig` of the Boxen user is present, mode 0644, and holds the
      rendered settings. */
  lemma PowconfigDeclared(f: Facts, p: Params, cat: Catalogue)
    requires Compile(f, p) == Ok(cat)
    ensures var r := Lookup(cat.resources, Ref(File, "/Users/" + f.boxenUser + "/.powconfig"));
      && r.Some?
      && r.value.attrs.ensure == Some("present") && r.value.attrs.mode == Some("0644")
      && r.value.attrs.content == Some(Powconfig.Render(Normalize(f, p)))
  {
    Declared(f, p, cat, 0);
  }

  /** Whether the caller supplied what setting `k` exports; the six
      mandatory settings always have a value, supplied or defaulted. */
  predicate Supplied(p: Params, k: Powconfig.Key) {
    match k
    case ExtDomains => p.extDomains.Some?
    case Timeout => p.timeout.Some?
    case Workers => p.workers.Some?
    case _ => true
  }

  lemma ValueIffSupplied(f: Facts, p: Params, k: Powconfig.Key)
    ensures Powconfig.ValueOf(Normalize(f, p), k).Some? <==> Supplied(p, k)
  {
  }

  /** Every setting `~/.powconfig` exports is on a line of its own, as
      `export NAME=VALUE`. */
  lemma PowconfigExports(f: Facts, p: Params, cat: Catalogue, k: Powconfig.Key)
    requires Compile(f, p) == Ok(cat)
    requires Supplied(p, k)
    ensures var r := Lookup(cat.resources, Ref(File, "/Users/" + f.boxenUser + "/.powconfig"));
      var v := Powconfig.ValueOf(Normalize(f, p), k);
      && r.Some? && r.value.attrs.content.Some? && v.Some?
      && MatchesAtLineStart(r.value.attrs.content.value, "export " + Powconfig.KeyName(k) + "=" + v.value)
  {
    PowconfigDeclared(f, p, cat);
    ValueIffSupplied(f, p, k);
    Powconfig.ExportedLine(Normalize(f, p), k);
  }

  /** A line `export NAME=` is in `~/.powconfig` exactly when the setting was
      supplied or is mandatory: an optional parameter left out leaves no
      line. This needs the supplied strings to be free of newlines. */
  lemma PowconfigExportsOnlySupplied(f: Facts, p: Params, cat: Catalogue, k: Powconfig.Key)
    requires Compile(f, p) == Ok(cat)
    requires Powconfig.NewlineFree(Normalize(f, p))
    ensures var r := Lookup(cat.resources, Ref(File, "/Users/" + f.boxenUser + "/.powconfig"));
      && r.Some? && r.value.attrs.content.Some?
      && (MatchesAtLineStart(r.value.attrs.content.value, "export " + Powconfig.KeyName(k) + "=") <==> Supplied(p, k))
  {
    PowconfigDeclared(f, p, cat);
    ValueIffSupplied(f, p, k);
    Powconfig.ExportedKeyIff(Normalize(f, p), k);
  }

  /** The `pow` package comes from Homebrew, latest version, after
      `~/.powconfig`. */
  lemma PackageDeclared(f: Facts, p: Params, cat: Catalogue)
    requires Compile(f, p) == Ok(cat)
    ensures var r := Lookup(cat.resources, Ref(Package, "pow"));
      && r.Some?
      && r.value.attrs.provider == Some("homebrew") && r.value.attrs.ensure == Some("latest")
      && r.value.require == [Ref(File, "/Users/" + f.boxenUser + "/.powconfig")]
  {
    assert cat.resources[1] == PowPackage(Normalize(f, p));
    Declared(f, p, cat, 1);
  }

  /** `~/.pow` links to the hosts directory and comes after it; the hosts and
      log directories exist, at the supplied paths or under the Boxen
      root. */
  lemma HostDirectories(f: Facts, p: Params, cat: Catalogue)
    requires Compile(f, p) == Ok(cat)
    ensures var hosts := p.hostDir.GetOr(f.boxenHome + "/data/pow/hosts");
      var logs := p.logDir.GetOr(f.boxenHome + "/log/pow");
      var link := Lookup(cat.resources, Ref(File, "/Users/" + f.boxenUser + "/.pow"));
      var hostDir := Lookup(cat.resources, Ref(File, hosts));
      var logDir := Lookup(cat.resources, Ref(File, logs));
      && link.Some? && link.value.attrs.ensure == Some("link") && link.value.attrs.target == Some(hosts)
      && link.value.require == [Ref(File, hosts)]
      && hostDir.Some? && hostDir.value.attrs.ensure == Some("directory")
      && logDir.Some? && logDir.value.attrs.ensure == Some("directory")
  {
    var c := Normalize(f, p);
    assert c.hostDir == p.hostDir.GetOr(f.boxenHome + "/data/pow/hosts");
    assert c.logDir == p.logDir.GetOr(f.boxenHome + "/log/pow");
    assert HostLinkPath(c.user) == "/Users/" + f.boxenUser + "/.pow";
    HostLinkAt(f, p, cat);
    DirectoriesAt(f, p, cat);
  }

  lemma HostLinkAt(f: Facts, p: Params, cat: Catalogue)
    requires Compile(f, p) == Ok(cat)
    ensures Lookup(cat.resources, Ref(File, HostLinkPath(Normalize(f, p).user))) == Some(HostLink(Normalize(f, p)))
  {
    assert cat.resources[2] == HostLink(Normalize(f, p));
    Declared(f, p, cat, 2);
  }

  lemma DirectoriesAt(f: Facts, p: Params, cat: Catalogue)
    requires Compile(f, p) == Ok(cat)
    ensures var c := Normalize(f, p);
      && Lookup(cat.resources, Ref(File, c.hostDir)) == Some(Directory(c.hostDir))
      && Lookup(cat.resources, Ref(File, c.logDir)) == Some(Directory(c.logDir))
  {
    var c := Normalize(f, p);
    assert cat.resources[3] == Directory(c.hostDir) && cat.resources[4] == Directory(c.logDir);
    Declared(f, p, cat, 3);
    Declared(f, p, cat, 4);
  }

  /** The `dev.pow.powd` service runs, after the package. */
  lemma PowdServiceDeclared(f: Facts, p: Params, cat: Catalogue)
    requires Compile(f, p) == Ok(cat)
    ensures var r := Lookup(cat.resources, Ref(Service, PowdLabel));
      && r.Some? && r.value.attrs.ensure == Some("running")
      && r.value.require == [Ref(Package, "pow")]
  {
    Declared(f, p, cat, 6);
  }

  /** Every domain gets its resolver file, owned by root:wheel, after
      `/etc/resolver`. */
  lemma ResolverFiles(f: Facts, p: Params, cat: Catalogue, d: string)
    requires Compile(f, p) == Ok(cat)
    requires d in Normalize(f, p).DomainList()
    ensures var r := Lookup(cat.resources, Ref(File, "/etc/resolver/" + d));
      && r.Some? && r.value.attrs.owner == Some("root") && r.value.attrs.group == Some("wheel")
      && r.value.require == [Ref(File, "/etc/resolver")]
  {
    var c := Normalize(f, p);
    var k :| 0 <= k < |c.DomainList()| && c.DomainList()[k] == d;
    ResolverAt(c, k);
    Declared(f, p, cat, 7 + k);
  }

  /** Unless the hosts directory is `/etc/resolver` itself, the resources
      a compiled catalogue declares after `/etc/resolver` are the resolver
      files of the listed domains and nothing else. */
  lemma ResolversOnly(f: Facts, p: Params, cat: Catalogue)
    requires Compile(f, p) == Ok(cat)
    requires Normalize(f, p).hostDir != ResolverDir
    ensures forall r :: r in cat.resources && Ref(File, ResolverDir) in r.require ==> r in Resolvers(Normalize(f, p).DomainList())
  {
    var c := Normalize(f, p);
    forall r | r in cat.resources && Ref(File, ResolverDir) in r.require ensures r in Resolvers(c.DomainList()) {
      AfterResolverDir(c, r);
    }
  }

  /** Of the class's resources only the resolver files and, when its
      target is `/etc/resolver`, `~/.pow` require `File[/etc/resolver]`. */
  lemma AfterResolverDir(c: Config, r: Resource)
    requires r in Resources(c) && Ref(File, ResolverDir) in r.require
    ensures r == HostLink(c) || r in Resolvers(c.DomainList())
  {
    assert r in Base(c) || r in Resolvers(c.DomainList()) || r in StrategyResources(Strategy(c));
    BaseAfterResolverDir(c, r);
    StrategyAfterResolverDir(c, r);
  }

  lemma BaseAfterResolverDir(c: Config, r: Resource)
    ensures r in Base(c) && Ref(File, ResolverDir) in r.require ==> r == HostLink(c)
  {
    assert PowconfigPath(c.user)[1] != ResolverDir[1];
  }

  lemma StrategyAfterResolverDir(c: Config, r: Resource)
    ensures r in StrategyResources(Strategy(c)) ==> Ref(File, ResolverDir) !in r.require
  {
  }

  lemma ResolverAt(c: Config, k: nat)
    requires k < |c.DomainList()|
    ensures 7 + k < |Resources(c)| && Resources(c)[7 + k] == ResolverFile(c.DomainList()[k])
  {
    ResolversSection(c, k);
    ResolverOfDomain(c.DomainList(), k);
  }

  lemma ResolversSection(c: Config, k: nat)
    requires k < |c.DomainList()|
    ensures 7 + k < |Resources(c)| && Resources(c)[7 + k] == Resolvers(c.DomainList())[k]
  {
    BaseLength(c);
    Middle(Base(c), Resolvers(c.DomainList()), StrategyResources(Strategy(c)), k);
  }

  lemma BaseLength(c: Config)
    ensures |Base(c)| == 7
  {
  }

  /** The element `k` of the middle run of three. */
  lemma Middle(a: seq<Resource>, b: seq<Resource>, z: seq<Resource>, k: nat)
    requires k < |b|
    ensures |a| + k < |a + b + z| && (a + b + z)[|a| + k] == b[k]
  {
  }

  lemma ResolverOfDomain(ds: seq<string>, k: nat)
    requires k < |ds|
    ensures Resolvers(ds)[k] == ResolverFile(ds[k])
  {
  }

  lemma StrategySection(c: Config, k: nat)
    requires k < |StrategyResources(Strategy(c))|
    ensures 7 + |c.DomainList()| + k < |Resources(c)|
    ensures Resources(c)[7 + |c.DomainList()| + k] == StrategyResources(Strategy(c))[k]
  {
  }

  lemma BaseSection(c: Config, i: nat)
    requires i < 7
    ensures i < |Resources(c)| && Resources(c)[i] == Base(c)[i]
  {
  }

  lemma BaseHosts(c: Config)
    ensures |Base(c)| == 7 && Base(c)[2] == HostLink(c) && Base(c)[3] == Directory(c.hostDir)
  {
  }

  // ---------------------------------------------------------------------
  // The two proxy strategies

  /** With nginx in front (the default), the nginx classes are included and
      the site file names every domain and forwards to the HTTP port. */
  lemma NginxSite(f: Facts, p: Params, cat: Catalogue)
    requires Compile(f, p) == Ok(cat)
    requires p.nginxProxy != Some(false)
    ensures "nginx::config" in cat.classes && "nginx" in cat.classes
    ensures var c := Normalize(f, p);
      var r := Lookup(cat.resources, Ref(File, f.boxenHome + "/config/nginx/sites/pow.conf"));
      && r.Some? && r.value.attrs.content.Some?
      && Contains(r.value.attrs.content.value, Site.ServerNameLine(c.DomainList()))
      && Contains(r.value.attrs.content.value, Site.ProxyPassLine(c.httpPort))
  {
    var c := Normalize(f, p);
    assert c.nginxProxy;
    SiteDeclared(f, p, cat);
    Site.SiteServesDomains(c.DomainList(), c.httpPort);
    Site.SiteForwardsToPort(c.DomainList(), c.httpPort);
  }

  lemma SiteDeclared(f: Facts, p: Params, cat: Catalogue)
    requires Compile(f, p) == Ok(cat)
    requires Normalize(f, p).nginxProxy
    ensures Lookup(cat.resources, Ref(File, SitePath(f.boxenHome))) == Some(SiteFile(Normalize(f, p)))
  {
    var c := Normalize(f, p);
    StrategySection(c, 0);
    Declared(f, p, cat, 7 + |c.DomainList()|);
  }

  /** None of the paths the caller chose is the nginx site file's. */
  predicate SiteTitleFree(c: Config) {
    && c.hostDir != SitePath(c.home)
    && c.logDir != SitePath(c.home)
    && forall d :: d in c.DomainList() ==> ResolverPath(d) != SitePath(c.home)
  }

  lemma NoSiteInBase(c: Config)
    requires SiteTitleFree(c)
    ensures forall x :: x in Base(c) ==> x.Id() != Ref(File, SitePath(c.home))
  {
    var site := SitePath(c.home);
    EndsDiffer(PowconfigPath(c.user), site, 0);
    EndsDiffer(HostLinkPath(c.user), site, 0);
    EndsDiffer(PowdPlist, site, 0);
  }

  lemma NoSiteInResolvers(c: Config)
    requires SiteTitleFree(c)
    ensures forall x :: x in Resolvers(c.DomainList()) ==> x.Id() != Ref(File, SitePath(c.home))
  {
    var ds := c.DomainList();
    forall x | x in Resolvers(ds) ensures x.Id() != Ref(File, SitePath(c.home)) {
      var i :| 0 <= i < |ds| && Resolvers(ds)[i] == x;
      assert ds[i] in ds;
    }
  }

  /** Without nginx (and with the caller's paths other than the site
      file's), nothing in the catalogue is the site file. */
  lemma SiteAbsent(c: Config)
    requires !c.nginxProxy && SiteTitleFree(c)
    ensures forall x :: x in Resources(c) ==> x.Id() != Ref(File, SitePath(c.home))
  {
    NoSiteInBase(c);
    NoSiteInResolvers(c);
    EndsDiffer(FirewallPlist, SitePath(c.home), 0);
    NotDeclaredInConcat(Base(c), Resolvers(c.DomainList()), StrategyResources(Strategy(c)), Ref(File, SitePath(c.home)));
  }

  lemma NoFirewallServiceInBase(c: Config)
    ensures forall x :: x in Base(c) ==> x.Id() != Ref(Service, FirewallLabel)
  {
    assert PowdLabel[8] != FirewallLabel[8];
  }

  /** With nginx, nothing in the catalogue is the firewall service. */
  lemma FirewallServiceAbsent(c: Config)
    requires c.nginxProxy
    ensures forall x :: x in Resources(c) ==> x.Id() != Ref(Service, FirewallLabel)
  {
    var r := Ref(Service, FirewallLabel);
    NoFirewallServiceInBase(c);
    ResolversAreFiles(c.DomainList(), r);
    NotDeclaredInConcat(Base(c), Resolvers(c.DomainList()), StrategyResources(Strategy(c)), r);
  }

  /** Without nginx, pow's firewall daemon is declared instead: its plist
      owned by root:wheel notifying its service, the service running after
      the package; the nginx classes are not included. */
  lemma LocalFirewallDeclared(f: Facts, p: Params, cat: Catalogue)
    requires Compile(f, p) == Ok(cat)
    requires p.nginxProxy == Some(false)
    ensures "nginx::config" !in cat.classes && "nginx" !in cat.classes
    ensures var plist := Lookup(cat.resources, Ref(File, FirewallPlist));
      && plist.Some? && plist.value.attrs.owner == Some("root") && plist.value.attrs.group == Some("wheel")
      && plist.value.notify == [Ref(Service, FirewallLabel)]
    ensures var service := Lookup(cat.resources, Ref(Service, FirewallLabel));
      && service.Some? && service.value.attrs.ensure == Some("running")
      && service.value.require == [Ref(Package, "pow")]
  {
    FirewallClasses(f, p, cat);
    FirewallPlistDeclared(f, p, cat);
    FirewallServiceDeclared(f, p, cat);
  }

  lemma FirewallClasses(f: Facts, p: Params, cat: Catalogue)
    requires Compile(f, p) == Ok(cat)
    requires p.nginxProxy == Some(false)
    ensures "nginx::config" !in cat.classes && "nginx" !in cat.classes
  {
  }

  lemma FirewallPlistDeclared(f: Facts, p: Params, cat: Catalogue)
    requires Compile(f, p) == Ok(cat)
    requires p.nginxProxy == Some(false)
    ensures Lookup(cat.resources, Ref(File, FirewallPlist)) == Some(FirewallPlistFile)
  {
    var c := Normalize(f, p);
    StrategySection(c, 0);
    Declared(f, p, cat, 7 + |c.DomainList()|);
  }

  lemma FirewallServiceDeclared(f: Facts, p: Params, cat: Catalogue)
    requires Compile(f, p) == Ok(cat)
    requires p.nginxProxy == Some(false)
    ensures Lookup(cat.resources, Ref(Service, FirewallLabel)) == Some(FirewallService)
  {
    var c := Normalize(f, p);
    StrategySection(c, 1);
    Declared(f, p, cat, 7 + |c.DomainList()| + 1);
  }

  /** Without nginx there is no site file, as long as none of the caller's
      paths is the site file's path. */
  lemma NoSiteWithoutNginx(f: Facts, p: Params, cat: Catalogue)
    requires Compile(f, p) == Ok(cat)
    requires p.nginxProxy == Some(false)
    requires SiteTitleFree(Normalize(f, p))
    ensures Lookup(cat.resources, Ref(File, f.boxenHome + "/config/nginx/sites/pow.conf")).None?
  {
    SiteAbsent(Normalize(f, p));
  }

  /** Exactly one of the two strategies is in the catalogue: the nginx
      classes are included exactly when nginx fronts pow, and the firewall
      service is declared exactly when it does not. */
  lemma ProxyStrategiesExclusive(f: Facts, p: Params, cat: Catalogue)
    requires Compile(f, p) == Ok(cat)
    ensures "nginx" in cat.classes <==> p.nginxProxy != Some(false)
    ensures Lookup(cat.resources, Ref(Service, FirewallLabel)).Some? <==> p.nginxProxy == Some(false)
  {
    if p.nginxProxy == Some(false) {
      LocalFirewallDeclared(f, p, cat);
    } else {
      FirewallServiceAbsent(Normalize(f, p));
    }
  }

  // ---------------------------------------------------------------------
  // Ordering

  /** Resolver files are files. */
  lemma ResolversAreFiles(ds: seq<string>, r: Ref)
    requires r.kind != File
    ensures forall x :: x in Resolvers(ds) ==> x.Id() != r
  {
  }

  /** How deep a reference sits in the order of application: plain files
      first, then the resolver files (which need `/etc/resolver`), then
      `~/.pow` (which needs the hosts directory), then the package, then
      the services. */
  function Level(c: Config, r: Ref): nat {
    match r.kind
    case Service => 4
    case Package => 3
    case File =>
      if r.title == HostLinkPath(c.user) then 2
      else if StartsWith(r.title, ResolverDir + "/") then 1
      else 0
  }

  /** In a catalogue without duplicates the hosts directory is not
      `~/.pow`. */
  lemma HostDirIsNotLink(c: Config)
    requires Distinct(Ids(Resources(c)))
    ensures c.hostDir != HostLinkPath(c.user)
  {
    BaseSection(c, 2);
    BaseSection(c, 3);
    BaseHosts(c);
    assert Ids(Resources(c))[2] != Ids(Resources(c))[3];
  }

  lemma HostLinkLayered(c: Config)
    requires c.hostDir != HostLinkPath(c.user)
    ensures Layered(r => Level(c, r), HostLink(c))
  {
  }

  lemma ResolverLayered(c: Config, d: string)
    ensures Layered(r => Level(c, r), ResolverFile(d))
  {
    assert ResolverDir[1] != HostLinkPath(c.user)[1];
    assert ResolverPath(d)[1] != HostLinkPath(c.user)[1];
    assert StartsWith(ResolverPath(d), ResolverDir + "/");
  }

  lemma BaseLayered(c: Config)
    requires c.hostDir != HostLinkPath(c.user)
    ensures forall x :: x in Base(c) ==> Layered(r => Level(c, r), x)
  {
    HostLinkLayered(c);
    FilesLayered(c);
    PackageLayered(c);
    PowdLayered(c);
  }

  lemma FilesLayered(c: Config)
    ensures Layered(r => Level(c, r), PowconfigFile(c))
    ensures Layered(r => Level(c, r), Directory(c.hostDir))
    ensures Layered(r => Level(c, r), Directory(c.logDir))
  {
  }

  lemma PackageLayered(c: Config)
    ensures Layered(r => Level(c, r), PowPackage(c))
  {
  }

  lemma PowdLayered(c: Config)
    ensures Layered(r => Level(c, r), PowdPlistFile)
    ensures Layered(r => Level(c, r), PowdService)
  {
  }

  lemma ResolversLayered(c: Config)
    ensures forall x :: x in Resolvers(c.DomainList()) ==> Layered(r => Level(c, r), x)
  {
    var ds := c.DomainList();
    forall x | x in Resolvers(ds) ensures Layered(r => Level(c, r), x) {
      var i :| 0 <= i < |ds| && Resolvers(ds)[i] == x;
      ResolverLayered(c, ds[i]);
    }
  }

  lemma StrategyLayered(c: Config)
    ensures forall x :: x in StrategyResources(Strategy(c)) ==> Layered(r => Level(c, r), x)
  {
  }

  /** Every `require` and `notify` of a compiled catalogue points from a
      lower level to a higher one, so following them never leads back to
      where one started: the catalogue has an order to apply it in, with
      `~/.powconfig` before the package, the hosts directory before
      `~/.pow`, `/etc/resolver` before the resolver files and the package
      and the plists before the services. */
  lemma DependenciesAcyclic(f: Facts, p: Params, cat: Catalogue, path: seq<Ref>)
    requires Compile(f, p) == Ok(cat)
    requires Path(cat.resources, path)
    ensures path[0] != path[|path| - 1]
  {
    var c := Normalize(f, p);
    var level := r => Level(c, r);
    HostDirIsNotLink(c);
    BaseLayered(c);
    ResolversLayered(c);
    StrategyLayered(c);
    LayeredConcat(level, Base(c), Resolvers(c.DomainList()), StrategyResources(Strategy(c)));
    NoCycle(cat.resources, level, path);
  }
}
