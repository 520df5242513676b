/** Class `pow` declared with the parameter sets of its own examples: no
    parameter at all, every parameter supplied, custom domain lists, a
    custom port and nginx switched off. What the general facts of modules
    Pow and Powconfig come to for those values, on any node. */
module Scenarios {
  import opened Wrappers
  import opened Text
  import opened Domains
  import opened Settings
  import opened Catalogue
  import Exports
  import Powconfig
  import Site
  import opened Pow
  import opened Collisions

  /** Every parameter supplied, none of them a default. */
  const Custom: Params := Params(
    Some("/test/data/pow/hosts"), Some("/test/log/pow"), Some(76543), Some(45678), Some(23456),
    Some("test,test2"), Some("test3,test4"), Some(500), Some(4), None)

  /** Only the two directories supplied. */
  const CustomDirs: Params := NoParams.(hostDir := Some("/test/data/pow/hosts"), logDir := Some("/test/log/pow"))

  /** Only the HTTP port supplied. */
  const CustomPort: Params := NoParams.(httpPort := Some(67895))

  /** Only a list of three domains supplied. */
  const CustomDomains: Params := NoParams.(domains := Some("dev,pow,test"))

  /** The same with a blank before the last domain. */
  const MultipleDomains: Params := NoParams.(domains := Some("dev,pow, local"))

  /** nginx switched off. */
  const NginxOff: Params := NoParams.(nginxProxy := Some(false))

  // ---------------------------------------------------------------------
  // Domain lists and numbers as the class writes them

  /** A single domain token is a one-element list. */
  lemma SingleDomain(d: string)
    requires IsDomainToken(d)
    ensures SplitDomains(d) == [d]
  {
    SplitOnNoSep(d, ',');
    TrimPiecesOfTokens([d]);
  }

  /** A space in front of a domain is trimmed away. */
  lemma SpacedDomain(d: string)
    requires IsDomainToken(d)
    ensures SplitDomains(" " + d) == [d]
  {
    var s := " " + d;
    assert s[1..] == d;
    assert TrimLeft(s) == d;
    assert Trim(s) == d;
    SplitDomainsSingle(s);
  }

  /** A domain, a comma and a list of domains split into that domain
      followed by the list. */
  lemma LeadingDomain(a: string, rest: string)
    requires IsDomainToken(a)
    ensures SplitDomains(a + "," + rest) == [a] + SplitDomains(rest)
  {
    SplitDomainsAppend(a, rest);
    SingleDomain(a);
  }

  /** Three domains written as `a,b, c` split into `a`, `b` and `c`. */
  lemma ThreeDomainsSplit(a: string, b: string, c: string)
    requires IsDomainToken(a) && IsDomainToken(b) && IsDomainToken(c)
    ensures SplitDomains(a + "," + (b + "," + (" " + c))) == [a, b, c]
  {
    LeadingDomain(a, b + "," + (" " + c));
    LeadingDomain(b, " " + c);
    SpacedDomain(c);
  }

  /** `dev,pow, local` names three domains; the space after the second
      comma is trimmed away. */
  lemma ThreeDomains()
    ensures SplitDomains("dev,pow, local") == ["dev", "pow", "local"]
  {
    assert "dev,pow, local" == "dev" + "," + ("pow" + "," + (" " + "local"));
    ThreeDomainsSplit("dev", "pow", "local");
  }

  // ---------------------------------------------------------------------
  // `~/.powconfig` for the default and the custom parameters

  /** `export NAME=`, the start of the line that exports setting `k`. */
  function Prefix(k: Powconfig.Key): string {
    "export " + Powconfig.KeyName(k) + "="
  }

  /** `export NAME=v`, the line that exports setting `k` with value `v`. */
  function Line(k: Powconfig.Key, v: string): string {
    Exports.ExportLine(Powconfig.KeyName, Exports.Entry(k, v))
  }

  /** `^line` matches the `~/.powconfig` of configuration `c`. */
  ghost predicate HasLine(c: Config, line: string) {
    MatchesAtLineStart(Powconfig.Render(c), line)
  }

  /** The paths and the domains left out take their defaults: the hosts and
      log directories under the Boxen root and the domain `pow`. */
  lemma DefaultPowconfigPaths(f: Facts, p: Params)
    requires p.hostDir.None? && p.logDir.None? && p.domains.None?
    ensures var c := Normalize(f, p);
      && HasLine(c, Line(Powconfig.HostRoot, f.boxenHome + "/data/pow/hosts"))
      && HasLine(c, Line(Powconfig.LogRoot, f.boxenHome + "/log/pow"))
      && HasLine(c, Line(Powconfig.Domains, "pow"))
  {
    var c := Normalize(f, p);
    Powconfig.ExportedLine(c, Powconfig.HostRoot);
    Powconfig.ExportedLine(c, Powconfig.LogRoot);
    Powconfig.ExportedLine(c, Powconfig.Domains);
  }

  /** The ports left out take their defaults 30559, 30560 and 1999. */
  lemma DefaultPowconfigPorts(f: Facts, p: Params)
    requires p.httpPort.None? && p.dnsPort.None? && p.dstPort.None?
    ensures var c := Normalize(f, p);
      && HasLine(c, Line(Powconfig.HttpPort, "30559"))
      && HasLine(c, Line(Powconfig.DnsPort, "30560"))
      && HasLine(c, Line(Powconfig.DstPort, "1999"))
  {
    var c := Normalize(f, p);
    DefaultPortTexts();
    Powconfig.ExportedLine(c, Powconfig.HttpPort);
    Powconfig.ExportedLine(c, Powconfig.DnsPort);
    Powconfig.ExportedLine(c, Powconfig.DstPort);
  }

  lemma DefaultPortTexts()
    ensures NatToString(30559) == "30559"
    ensures NatToString(30560) == "30560"
    ensures NatToString(1999) == "1999"
  {
    assert NatToString(3) == "3" && NatToString(30) == "30" && NatToString(305) == "305";
    assert NatToString(3055) == "3055" && NatToString(3056) == "3056";
    assert NatToString(19) == "19" && NatToString(199) == "199";
  }

  /** The optional settings left out leave no line behind. */
  lemma DefaultPowconfigOptionals(f: Facts, p: Params)
    requires p.extDomains.None? && p.timeout.None? && p.workers.None?
    requires Powconfig.NewlineFree(Normalize(f, p))
    ensures var c := Normalize(f, p);
      && !HasLine(c, Prefix(Powconfig.ExtDomains))
      && !HasLine(c, Prefix(Powconfig.Timeout))
      && !HasLine(c, Prefix(Powconfig.Workers))
  {
    var c := Normalize(f, p);
    Powconfig.ExportedKeyIff(c, Powconfig.ExtDomains);
    Powconfig.ExportedKeyIff(c, Powconfig.Timeout);
    Powconfig.ExportedKeyIff(c, Powconfig.Workers);
  }

  /** Supplied paths and domain lists are exported verbatim. */
  lemma SuppliedPaths(f: Facts, p: Params, hosts: string, logs: string, domains: string, ext: string)
    requires p.hostDir == Some(hosts) && p.logDir == Some(logs)
    requires p.domains == Some(domains) && p.extDomains == Some(ext)
    ensures var c := Normalize(f, p);
      && HasLine(c, Line(Powconfig.HostRoot, hosts))
      && HasLine(c, Line(Powconfig.LogRoot, logs))
      && HasLine(c, Line(Powconfig.Domains, domains))
      && HasLine(c, Line(Powconfig.ExtDomains, ext))
  {
    var c := Normalize(f, p);
    SuppliedLine(c, Powconfig.HostRoot, hosts);
    SuppliedLine(c, Powconfig.LogRoot, logs);
    SuppliedLine(c, Powconfig.Domains, domains);
    SuppliedLine(c, Powconfig.ExtDomains, ext);
  }

  lemma SuppliedLine(c: Config, k: Powconfig.Key, v: string)
    requires Powconfig.ValueOf(c, k) == Some(v)
    ensures HasLine(c, Line(k, v))
  {
    Powconfig.ExportedLine(c, k);
  }

  /** Supplied ports are exported in decimal. */
  lemma SuppliedPorts(f: Facts, p: Params, http: nat, dns: nat, dst: nat)
    requires p.httpPort == Some(http) && p.dnsPort == Some(dns) && p.dstPort == Some(dst)
    ensures var c := Normalize(f, p);
      && HasLine(c, Line(Powconfig.HttpPort, NatToString(http)))
      && HasLine(c, Line(Powconfig.DnsPort, NatToString(dns)))
      && HasLine(c, Line(Powconfig.DstPort, NatToString(dst)))
  {
    var c := Normalize(f, p);
    Powconfig.ExportedLine(c, Powconfig.HttpPort);
    Powconfig.ExportedLine(c, Powconfig.DnsPort);
    Powconfig.ExportedLine(c, Powconfig.DstPort);
  }

  /** A supplied timeout and worker count are exported in decimal. */
  lemma SuppliedTuning(f: Facts, p: Params, timeout: nat, workers: nat)
    requires p.timeout == Some(timeout) && p.workers == Some(workers)
    ensures var c := Normalize(f, p);
      && HasLine(c, Line(Powconfig.Timeout, NatToString(timeout)))
      && HasLine(c, Line(Powconfig.Workers, NatToString(workers)))
  {
    var c := Normalize(f, p);
    Powconfig.ExportedLine(c, Powconfig.Timeout);
    Powconfig.ExportedLine(c, Powconfig.Workers);
  }

  /** The custom parameters' paths and domain lists. */
  lemma CustomPowconfigPaths(f: Facts)
    ensures var c := Normalize(f, Custom);
      && HasLine(c, Line(Powconfig.HostRoot, "/test/data/pow/hosts"))
      && HasLine(c, Line(Powconfig.LogRoot, "/test/log/pow"))
      && HasLine(c, Line(Powconfig.Domains, "test,test2"))
      && HasLine(c, Line(Powconfig.ExtDomains, "test3,test4"))
  {
    SuppliedPaths(f, Custom, "/test/data/pow/hosts", "/test/log/pow", "test,test2", "test3,test4");
  }

  /** The custom parameters' numbers. */
  lemma CustomPowconfigNumbers(f: Facts)
    ensures var c := Normalize(f, Custom);
      && HasLine(c, Line(Powconfig.HttpPort, "76543"))
      && HasLine(c, Line(Powconfig.DnsPort, "45678"))
      && HasLine(c, Line(Powconfig.DstPort, "23456"))
      && HasLine(c, Line(Powconfig.Timeout, "500"))
      && HasLine(c, Line(Powconfig.Workers, "4"))
  {
    CustomNumberTexts();
    SuppliedPorts(f, Custom, 76543, 45678, 23456);
    SuppliedTuning(f, Custom, 500, 4);
  }

  lemma CustomNumberTexts()
    ensures NatToString(76543) == "76543"
    ensures NatToString(45678) == "45678"
    ensures NatToString(23456) == "23456"
    ensures NatToString(500) == "500" && NatToString(4) == "4"
  {
    Text76543();
    Text45678();
    Text23456();
    assert NatToString(50) == "50";
  }

  lemma Text76543()
    ensures NatToString(76543) == "76543"
  {
    assert NatToString(76) == "76";
    assert NatToString(765) == "765";
    assert NatToString(7654) == "7654";
  }

  lemma Text45678()
    ensures NatToString(45678) == "45678"
  {
    assert NatToString(45) == "45";
    assert NatToString(456) == "456";
    assert NatToString(4567) == "4567";
  }

  lemma Text23456()
    ensures NatToString(23456) == "23456"
  {
    assert NatToString(23) == "23";
    assert NatToString(234) == "234";
    assert NatToString(2345) == "2345";
  }

  // ---------------------------------------------------------------------
  // The nginx site and the resolver files

  /** The default domain and port give `server_name *.pow;` and
      `proxy_pass http://localhost:30559;`. */
  lemma DefaultServerName()
    ensures Site.ServerNameLine(["pow"]) == "server_name *.pow;"
  {
    var ws := Site.Wildcards(["pow"]);
    assert ws[0] == "*.pow";
    assert ws == ["*.pow"];
  }

  lemma DefaultProxyPass()
    ensures Site.ProxyPassLine(30559) == "proxy_pass http://localhost:30559;"
  {
    DefaultPortTexts();
  }

  lemma CustomProxyPass()
    ensures Site.ProxyPassLine(67895) == "proxy_pass http://localhost:67895;"
  {
    assert NatToString(67) == "67" && NatToString(678) == "678" && NatToString(6789) == "6789";
  }

  /** Three domains written as `a,b,c` split into `a`, `b` and `c`. */
  lemma ThreeTokensSplit(a: string, b: string, c: string)
    requires IsDomainToken(a) && IsDomainToken(b) && IsDomainToken(c)
    ensures SplitDomains(a + "," + (b + "," + c)) == [a, b, c]
  {
    LeadingDomain(a, b + "," + c);
    LeadingDomain(b, c);
    SingleDomain(c);
  }

  /** `dev,pow,test` names three domains. */
  lemma CustomDomainList()
    ensures SplitDomains("dev,pow,test") == ["dev", "pow", "test"]
  {
    assert "dev,pow,test" == "dev" + "," + ("pow" + "," + "test");
    ThreeTokensSplit("dev", "pow", "test");
  }

  /** Each of them is a wildcard server name. */
  lemma CustomServerNames()
    ensures Site.ServerNameLine(["dev", "pow", "test"]) == "server_name *.dev *.pow *.test;"
  {
    var ws := Site.Wildcards(["dev", "pow", "test"]);
    assert ws[0] == "*.dev" && ws[1] == "*.pow" && ws[2] == "*.test";
    assert ws == ["*.dev", "*.pow", "*.test"];
    assert Join(ws, " ") == "*.dev *.pow *.test";
  }

  /** The resolver file of domain `d` is declared, owned by root:wheel,
      after `/etc/resolver`. */
  ghost predicate ResolverDeclared(cat: Catalogue, d: string) {
    var r := Lookup(cat.resources, Ref(File, "/etc/resolver/" + d));
    && r.Some? && r.value.attrs.owner == Some("root") && r.value.attrs.group == Some("wheel")
    && r.value.require == [Ref(File, "/etc/resolver")]
  }

  /** Without a `domains` parameter the class compiles and declares
      `/etc/resolver/pow`. */
  lemma DefaultResolver(f: Facts)
    ensures Compile(f, NoParams).Ok? && ResolverDeclared(Compile(f, NoParams).value, "pow")
  {
    DefaultsCompile(f, NoParams);
    DefaultDomainList(f, NoParams);
    ResolverFiles(f, NoParams, Compile(f, NoParams).value, "pow");
  }

  lemma DefaultDomainList(f: Facts, p: Params)
    requires p.domains.None?
    ensures Normalize(f, p).DomainList() == ["pow"]
  {
    SingleDomain("pow");
  }

  /** `dev,pow, local` compiles and declares the three resolver files, and
      nothing else comes after `/etc/resolver`. */
  lemma ThreeResolvers(f: Facts)
    ensures Compile(f, MultipleDomains).Ok?
    ensures var cat := Compile(f, MultipleDomains).value;
      ResolverDeclared(cat, "dev") && ResolverDeclared(cat, "pow") && ResolverDeclared(cat, "local")
    ensures var cat := Compile(f, MultipleDomains).value;
      forall r :: r in cat.resources && Ref(File, ResolverDir) in r.require ==>
        r == ResolverFile("dev") || r == ResolverFile("pow") || r == ResolverFile("local")
  {
    ThreeDomainsCompile(f);
    var cat := Compile(f, MultipleDomains).value;
    ResolverFiles(f, MultipleDomains, cat, "dev");
    ResolverFiles(f, MultipleDomains, cat, "pow");
    ResolverFiles(f, MultipleDomains, cat, "local");
    var c := Normalize(f, MultipleDomains);
    assert c.hostDir == DefaultHostDir(c.home);
    DefaultHostsNotResolverDir(c);
    ResolversOnly(f, MultipleDomains, cat);
    forall r | r in cat.resources && Ref(File, ResolverDir) in r.require
      ensures r == ResolverFile("dev") || r == ResolverFile("pow") || r == ResolverFile("local")
    {
      OneOfThree(Resolvers(c.DomainList()), c.DomainList(), r);
    }
  }

  /** The default hosts directory is not `/etc/resolver`. */
  lemma DefaultHostsNotResolverDir(c: Config)
    requires c.hostDir == DefaultHostDir(c.home)
    ensures c.hostDir != ResolverDir
  {
    SuffixChar(c.home, "/data/pow/hosts", 0);
    EndsDiffer(c.hostDir, ResolverDir, 0);
  }

  lemma OneOfThree(rs: seq<Resource>, ds: seq<string>, r: Resource)
    requires ds == ["dev", "pow", "local"] && rs == Resolvers(ds) && r in rs
    ensures r == ResolverFile("dev") || r == ResolverFile("pow") || r == ResolverFile("local")
  {
  }

  lemma ThreeDomainsCompile(f: Facts)
    ensures Normalize(f, MultipleDomains).DomainList() == ["dev", "pow", "local"]
    ensures Compile(f, MultipleDomains).Ok?
  {
    ThreeDomains();
    FarDomains("dev", "pow", "local");
    ThreeFarDomainsCompile(f, MultipleDomains, "dev", "pow", "local");
  }

  /** The example domains keep away from the default paths and from each
      other. */
  lemma FarDomains(a: string, b: string, c: string)
    requires a == "dev" && b == "pow" && c in {"local", "test"}
    ensures FarFromDefaults(a) && FarFromDefaults(b) && FarFromDefaults(c)
    ensures a != b && a != c && b != c
  {
    assert a[2] != b[2];
    assert |c| == 4 || |c| == 5;
  }

  /** Three distinct domains that keep away from the default directories
      fit with them. */
  lemma ThreeFarDomainsCompile(f: Facts, p: Params, a: string, b: string, c: string)
    requires p.hostDir.None? && p.logDir.None?
    requires Normalize(f, p).DomainList() == [a, b, c]
    requires FarFromDefaults(a) && FarFromDefaults(b) && FarFromDefaults(c)
    requires a != b && a != c && b != c
    ensures Compile(f, p).Ok?
  {
    var n := Normalize(f, p);
    assert n.hostDir == DefaultHostDir(n.home) && n.logDir == DefaultLogDir(n.home);
    ThreeFarDomainsFit(n, a, b, c);
    DefaultDirsCompile(f, p);
  }

  lemma ThreeFarDomainsFit(n: Config, a: string, b: string, c: string)
    requires n.hostDir == DefaultHostDir(n.home) && n.logDir == DefaultLogDir(n.home)
    requires n.DomainList() == [a, b, c]
    requires FarFromDefaults(a) && FarFromDefaults(b) && FarFromDefaults(c)
    requires a != b && a != c && b != c
    ensures DefaultDirsFit(n)
  {
  }

  /** With nginx switched off the class compiles and declares no nginx
      site file at all. */
  lemma FirewallWithoutSite(f: Facts)
    ensures Compile(f, NginxOff).Ok?
    ensures Lookup(Compile(f, NginxOff).value.resources, Ref(File, f.boxenHome + "/config/nginx/sites/pow.conf")).None?
  {
    DefaultsCompile(f, NginxOff);
    var c := Normalize(f, NginxOff);
    DefaultDomainList(f, NginxOff);
    DefaultPathsFreeOfSite(c);
    NoSiteWithoutNginx(f, NginxOff, Compile(f, NginxOff).value);
  }

  /** The nginx site file is declared and contains `line`. */
  ghost predicate SiteHasLine(cat: Catalogue, home: string, line: string) {
    var r := Lookup(cat.resources, Ref(File, home + "/config/nginx/sites/pow.conf"));
    r.Some? && r.value.attrs.content.Some? && Contains(r.value.attrs.content.value, line)
  }

  /** With no parameter the class compiles, and its nginx site serves
      `*.pow` and forwards to port 30559. */
  lemma DefaultSite(f: Facts)
    ensures Compile(f, NoParams).Ok?
    ensures SiteHasLine(Compile(f, NoParams).value, f.boxenHome, "server_name *.pow;")
    ensures SiteHasLine(Compile(f, NoParams).value, f.boxenHome, "proxy_pass http://localhost:30559;")
  {
    DefaultsCompile(f, NoParams);
    DefaultDomainList(f, NoParams);
    DefaultServerName();
    DefaultProxyPass();
    NginxSite(f, NoParams, Compile(f, NoParams).value);
  }

  /** With HTTP port 67895 the class compiles and its site forwards there. */
  lemma CustomPortSite(f: Facts)
    ensures Compile(f, CustomPort).Ok?
    ensures SiteHasLine(Compile(f, CustomPort).value, f.boxenHome, "proxy_pass http://localhost:67895;")
  {
    DefaultsCompile(f, CustomPort);
    CustomProxyPass();
    NginxSite(f, CustomPort, Compile(f, CustomPort).value);
  }

  /** With domains `dev,pow,test` the class compiles and its site serves
      the three of them. */
  lemma CustomDomainsSite(f: Facts)
    ensures Compile(f, CustomDomains).Ok?
    ensures SiteHasLine(Compile(f, CustomDomains).value, f.boxenHome, "server_name *.dev *.pow *.test;")
  {
    CustomDomainList();
    FarDomains("dev", "pow", "test");
    ThreeFarDomainsCompile(f, CustomDomains, "dev", "pow", "test");
    CustomServerNames();
    NginxSite(f, CustomDomains, Compile(f, CustomDomains).value);
  }

  /** With the two directories supplied the class compiles; `~/.pow` links
      to the supplied hosts directory, and both directories exist. */
  lemma CustomDirsLink(f: Facts)
    ensures Compile(f, CustomDirs).Ok?
    ensures var cat := Compile(f, CustomDirs).value;
      var link := Lookup(cat.resources, Ref(File, "/Users/" + f.boxenUser + "/.pow"));
      var hosts := Lookup(cat.resources, Ref(File, "/test/data/pow/hosts"));
      var logs := Lookup(cat.resources, Ref(File, "/test/log/pow"));
      && link.Some? && link.value.attrs.ensure == Some("link")
      && link.value.attrs.target == Some("/test/data/pow/hosts")
      && link.value.require == [Ref(File, "/test/data/pow/hosts")]
      && hosts.Some? && hosts.value.attrs.ensure == Some("directory")
      && logs.Some? && logs.value.attrs.ensure == Some("directory")
  {
    DefaultDomainList(f, CustomDirs);
    TestDirs("/test/data/pow/hosts", "/test/log/pow");
    OwnDirsCompile(f, CustomDirs, "/test/data/pow/hosts", "/test/log/pow", ["pow"]);
    HostDirectories(f, CustomDirs, Compile(f, CustomDirs).value);
  }

  /** With every parameter supplied the class compiles. */
  lemma CustomCompiles(f: Facts)
    ensures Compile(f, Custom).Ok?
  {
    TwoDomains();
    TestDirs("/test/data/pow/hosts", "/test/log/pow");
    OwnDirsCompile(f, Custom, "/test/data/pow/hosts", "/test/log/pow", ["test", "test2"]);
  }

  /** `test,test2` names two domains. */
  lemma TwoDomains()
    ensures SplitDomains("test,test2") == ["test", "test2"]
  {
    assert "test,test2" == "test" + "," + "test2";
    TwoTokensSplit("test", "test2");
  }

  /** Two domains written as `a,b` split into `a` and `b`. */
  lemma TwoTokensSplit(a: string, b: string)
    requires IsDomainToken(a) && IsDomainToken(b)
    ensures SplitDomains(a + "," + b) == [a, b]
  {
    LeadingDomain(a, b);
    SingleDomain(b);
  }

  /** The example directories keep away from the class's own files and end
      differently. */
  lemma TestDirs(h: string, l: string)
    requires h == "/test/data/pow/hosts" && l == "/test/log/pow"
    ensures OwnDir(h) && OwnDir(l) && LastChar(h) != LastChar(l)
  {
  }

  /** Directories of the caller's own with domains that do not end like the
      nginx site compile. */
  lemma OwnDirsCompile(f: Facts, p: Params, h: string, l: string, ds: seq<string>)
    requires Normalize(f, p).hostDir == h && Normalize(f, p).logDir == l && Normalize(f, p).DomainList() == ds
    requires OwnDir(h) && OwnDir(l) && LastChar(h) != LastChar(l)
    requires ds == ["pow"] || ds == ["test", "test2"]
    ensures Compile(f, p).Ok?
  {
    OwnDirsFitAt(Normalize(f, p), h, l, ds);
    SuppliedDirsCompile(f, p);
  }

  lemma OwnDirsFitAt(n: Config, h: string, l: string, ds: seq<string>)
    requires n.hostDir == h && n.logDir == l && n.DomainList() == ds
    requires OwnDir(h) && OwnDir(l) && LastChar(h) != LastChar(l)
    requires ds == ["pow"] || ds == ["test", "test2"]
    ensures OwnDirsFit(n)
  {
  }

  lemma DefaultPathsFreeOfSite(c: Config)
    requires c.hostDir == DefaultHostDir(c.home) && c.logDir == DefaultLogDir(c.home)
    requires c.DomainList() == ["pow"]
    ensures SiteTitleFree(c)
  {
    var site := SitePath(c.home);
    EndsDiffer(c.hostDir, site, 0);
    EndsDiffer(c.logDir, site, 0);
    EndsDiffer(ResolverPath("pow"), site, 0);
  }
}
