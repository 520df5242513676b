/** When compiling class `pow` succeeds. Puppet refuses a catalogue that
    declares the same resource twice. The titles the class chooses itself
    never collide, so compilation fails exactly when the paths and domains
    the caller supplies make two files share a title. */
module Collisions {
  import opened Text
  import opened Domains
  import opened Settings
  import opened Catalogue
  import opened Pow

  /** The title of the file the proxy strategy declares: the nginx site, or
      the firewall daemon's plist. */
  function StrategyFile(c: Config): string {
    if c.nginxProxy then SitePath(c.home) else FirewallPlist
  }

  /** A path other than the hosts and the log directory. */
  predicate ApartFromDirs(c: Config, t: string) {
    t != c.hostDir && t != c.logDir
  }

  /** The two directories differ from each other and from the class's
      other fixed files. */
  predicate DirsApart(c: Config) {
    && c.hostDir != c.logDir
    && ApartFromDirs(c, PowconfigPath(c.user))
    && ApartFromDirs(c, HostLinkPath(c.user))
    && ApartFromDirs(c, PowdPlist)
    && ApartFromDirs(c, StrategyFile(c))
  }

  /** No resolver file is one of the directories or the strategy's file. */
  predicate ResolversApart(c: Config) {
    forall d :: d in c.DomainList() ==> ApartFromDirs(c, ResolverPath(d)) && ResolverPath(d) != StrategyFile(c)
  }

  predicate NoDomainTwice(ds: seq<string>) {
    forall i, j :: 0 <= i < j < |ds| ==> ds[i] != ds[j]
  }

  /** The caller's paths and domains give every file its own title. */
  predicate PathsApart(c: Config) {
    DirsApart(c) && ResolversApart(c) && NoDomainTwice(c.DomainList())
  }

  /** Compilation succeeds exactly when the caller's paths and domains keep
      the files apart. */
  lemma CompileOkIff(f: Facts, p: Params)
    ensures Compile(f, p).Ok? <==> PathsApart(Normalize(f, p))
  {
    var c := Normalize(f, p);
    if PathsApart(c) {
      ResourcesDistinct(c);
    } else {
      ResourcesClash(c);
    }
  }

  /** Without paths and domains of the caller's choosing the class compiles
      on every node, whatever its Boxen root and user and whatever ports and
      proxy strategy the caller picks: the default paths end differently from
      each other and from the fixed ones. */
  lemma DefaultsCompile(f: Facts, p: Params)
    requires p.hostDir.None? && p.logDir.None? && p.domains.None?
    ensures Compile(f, p).Ok?
  {
    var c := Normalize(f, p);
    assert c.hostDir == DefaultHostDir(c.home) && c.logDir == DefaultLogDir(c.home);
    DefaultDomain(c);
    DefaultFit(c);
    DefaultDirsCompile(f, p);
  }

  lemma DefaultFit(c: Config)
    requires c.hostDir == DefaultHostDir(c.home) && c.logDir == DefaultLogDir(c.home)
    requires c.DomainList() == [DefaultDomains]
    ensures DefaultDirsFit(c)
  {
  }

  lemma DefaultDomain(c: Config)
    requires c.domains == DefaultDomains
    ensures c.DomainList() == [DefaultDomains]
  {
    assert NoEdgeSpace(DefaultDomains);
    SplitDomainsSingle(DefaultDomains);
  }

  /** A domain whose resolver file cannot meet a default directory or the
      nginx site: the default domain, or one that ends in none of the
      characters they end in. */
  predicate FarFromDefaults(d: string) {
    d == DefaultDomains || (|d| > 0 && d[|d| - 1] != 's' && d[|d| - 1] != 'w' && d[|d| - 1] != 'f')
  }

  /** The default directories, with distinct domains that keep away from
      them. */
  predicate DefaultDirsFit(c: Config) {
    && c.hostDir == DefaultHostDir(c.home) && c.logDir == DefaultLogDir(c.home)
    && (forall d :: d in c.DomainList() ==> FarFromDefaults(d))
    && NoDomainTwice(c.DomainList())
  }

  /** Such a declaration compiles. */
  lemma DefaultDirsCompile(f: Facts, p: Params)
    requires DefaultDirsFit(Normalize(f, p))
    ensures Compile(f, p).Ok?
  {
    DefaultDirsPathsApart(Normalize(f, p));
    CompileOkIff(f, p);
  }

  lemma DefaultDirsPathsApart(c: Config)
    requires DefaultDirsFit(c)
    ensures PathsApart(c)
  {
    DefaultDirsApart(c);
    forall d | d in c.DomainList() ensures ApartFromDirs(c, ResolverPath(d)) && ResolverPath(d) != StrategyFile(c) {
      DefaultResolverApart(c, d);
    }
  }

  lemma DefaultResolverApart(c: Config, d: string)
    requires c.hostDir == DefaultHostDir(c.home) && c.logDir == DefaultLogDir(c.home)
    requires FarFromDefaults(d)
    ensures ApartFromDirs(c, ResolverPath(d)) && ResolverPath(d) != StrategyFile(c)
  {
    SuffixChar(c.home, "/data/pow/hosts", 0);
    SuffixChar(c.home, "/log/pow", 4);
    SuffixChar(c.home, "/config/nginx/sites/pow.conf", 0);
    TitleChars(c.user, d);
    if d == DefaultDomains {
      ResolverEndsDiffer(ResolverPath(d), c.hostDir, c.logDir, SitePath(c.home));
    } else {
      SuffixChar("/etc/resolver/", d, 0);
      EndsDiffer(ResolverPath(d), c.hostDir, 0);
      EndsDiffer(ResolverPath(d), c.logDir, 0);
      EndsDiffer(ResolverPath(d), SitePath(c.home), 0);
    }
  }

  /** A directory title none of the class's own files can have: its second
      character is none of theirs (`/U`, `/L`, `/e`) and its last is not
      that of the nginx site (`f`). */
  predicate OwnDir(t: string) {
    |t| > 1 && t[1] != 'U' && t[1] != 'L' && t[1] != 'e' && t[|t| - 1] != 'f'
  }

  /** Directories of the caller's choosing that keep away from the fixed
      files and end differently, with distinct domains whose resolver files
      do not end like the nginx site. */
  predicate OwnDirsFit(c: Config) {
    && OwnDir(c.hostDir) && OwnDir(c.logDir) && LastChar(c.hostDir) != LastChar(c.logDir)
    && (forall d :: d in c.DomainList() ==> |d| > 0 && d[|d| - 1] != 'f')
    && NoDomainTwice(c.DomainList())
  }

  /** Such a declaration compiles. */
  lemma SuppliedDirsCompile(f: Facts, p: Params)
    requires OwnDirsFit(Normalize(f, p))
    ensures Compile(f, p).Ok?
  {
    OwnDirsPathsApart(Normalize(f, p));
    CompileOkIff(f, p);
  }

  /** The last character of a title of more than one character. */
  function LastChar(t: string): char
    requires |t| > 1
  {
    t[|t| - 1]
  }

  lemma OwnDirsPathsApart(c: Config)
    requires OwnDirsFit(c)
    ensures PathsApart(c)
  {
    OwnDirsApart(c);
    forall d | d in c.DomainList() ensures ApartFromDirs(c, ResolverPath(d)) && ResolverPath(d) != StrategyFile(c) {
      OwnResolverApart(c, d);
    }
  }

  lemma OwnDirsApart(c: Config)
    requires OwnDir(c.hostDir) && OwnDir(c.logDir)
    requires LastChar(c.hostDir) != LastChar(c.logDir)
    ensures DirsApart(c)
  {
    TitleChars(c.user, "");
    SuffixChar(c.home, "/config/nginx/sites/pow.conf", 0);
    EndsDiffer(c.hostDir, SitePath(c.home), 0);
    EndsDiffer(c.logDir, SitePath(c.home), 0);
  }

  lemma OwnResolverApart(c: Config, d: string)
    requires OwnDir(c.hostDir) && OwnDir(c.logDir)
    requires |d| > 0 && d[|d| - 1] != 'f'
    ensures ApartFromDirs(c, ResolverPath(d)) && ResolverPath(d) != StrategyFile(c)
  {
    TitleChars(c.user, d);
    SuffixChar(c.home, "/config/nginx/sites/pow.conf", 0);
    SuffixChar("/etc/resolver/", d, 0);
    EndsDiffer(ResolverPath(d), SitePath(c.home), 0);
  }

  /** The characters near the end of `a + b` are those of `b`. */
  lemma SuffixChar(a: string, b: string, k: nat)
    requires k < |b|
    ensures |a + b| > k && (a + b)[|a + b| - 1 - k] == b[|b| - 1 - k]
  {
  }

  lemma DefaultDirsApart(c: Config)
    requires c.hostDir == DefaultHostDir(c.home) && c.logDir == DefaultLogDir(c.home)
    ensures DirsApart(c)
  {
    var h, l := c.hostDir, c.logDir;
    EndsDiffer(h, l, 0);
    EndsDiffer(PowconfigPath(c.user), h, 0);
    EndsDiffer(PowconfigPath(c.user), l, 0);
    EndsDiffer(HostLinkPath(c.user), h, 0);
    EndsDiffer(HostLinkPath(c.user), l, 3);
    EndsDiffer(PowdPlist, h, 0);
    EndsDiffer(PowdPlist, l, 0);
    EndsDiffer(SitePath(c.home), h, 0);
    EndsDiffer(SitePath(c.home), l, 0);
    EndsDiffer(FirewallPlist, h, 0);
    EndsDiffer(FirewallPlist, l, 0);
  }

  /** The default resolver file ends `r/pow`: not in `s` like the hosts
      directory and the nginx site, not `g/pow` like the log directory, and
      not the firewall plist either. */
  lemma ResolverEndsDiffer(r: string, h: string, l: string, site: string)
    requires r == ResolverPath(DefaultDomains)
    requires |h| > 0 && h[|h| - 1] == 's'
    requires |l| > 4 && l[|l| - 5] == 'g'
    requires |site| > 0 && site[|site| - 1] == 'f'
    ensures r != h && r != l && r != site && r != FirewallPlist
  {
    assert |r| == 17 && r[16] == 'w' && r[12] == 'r';
    EndsDiffer(r, FirewallPlist, 0);
  }

  // ---------------------------------------------------------------------
  // Titles that differ whatever the caller says

  lemma ResolverPathInjective(a: string, b: string)
    ensures ResolverPath(a) == ResolverPath(b) ==> a == b
  {
    if ResolverPath(a) == ResolverPath(b) {
      assert ResolverPath(a)[14..] == a;
      assert ResolverPath(b)[14..] == b;
    }
  }

  /** Where the fixed titles begin to differ. */
  lemma TitleChars(user: string, d: string)
    ensures PowconfigPath(user)[1] == 'U' && HostLinkPath(user)[1] == 'U'
    ensures ResolverPath(d)[1] == 'e'
    ensures PowdPlist[1] == 'L' && FirewallPlist[1] == 'L'
  {
  }

  // ---------------------------------------------------------------------
  // No title twice

  /** The fixed resources declare nothing twice: row by row, each differs
      from those after it. */
  lemma BaseDistinct(c: Config)
    requires DirsApart(c)
    ensures Distinct(Ids(Base(c)))
  {
    var b := Base(c);
    forall i, j | 0 <= i < j < |b| ensures b[i].Id() != b[j].Id() {
      if i == 0 {
        PowconfigRow(c, j);
      } else if i == 1 {
        PackageRow(c, j);
      } else if i == 2 {
        HostLinkRow(c, j);
      } else {
        DirsRow(c, i, j);
      }
    }
  }

  lemma PowconfigRow(c: Config, j: nat)
    requires ApartFromDirs(c, PowconfigPath(c.user))
    requires 0 < j < 7
    ensures Base(c)[0].Id() != Base(c)[j].Id()
  {
    TitleChars(c.user, "");
  }

  lemma PackageRow(c: Config, j: nat)
    requires 1 < j < 7
    ensures Base(c)[1].Id() != Base(c)[j].Id()
  {
  }

  lemma HostLinkRow(c: Config, j: nat)
    requires ApartFromDirs(c, HostLinkPath(c.user))
    requires 2 < j < 7
    ensures Base(c)[2].Id() != Base(c)[j].Id()
  {
    TitleChars(c.user, "");
  }

  lemma DirsRow(c: Config, i: nat, j: nat)
    requires c.hostDir != c.logDir && ApartFromDirs(c, PowdPlist)
    requires 3 <= i < j < 7
    ensures Base(c)[i].Id() != Base(c)[j].Id()
  {
  }

  lemma ResolversDistinct(ds: seq<string>)
    requires NoDomainTwice(ds)
    ensures Distinct(Ids(Resolvers(ds)))
  {
    var rs := Resolvers(ds);
    forall i, j | 0 <= i < j < |rs| ensures rs[i].Id() != rs[j].Id() {
      ResolverPathInjective(ds[i], ds[j]);
    }
  }

  lemma StrategyDistinct(c: Config)
    ensures Distinct(Ids(StrategyResources(Strategy(c))))
  {
  }

  /** No resolver file is one of the fixed resources. */
  lemma ResolverApartFromBase(c: Config, d: string)
    requires ApartFromDirs(c, ResolverPath(d))
    ensures forall x :: x in Base(c) ==> x.Id() != ResolverFile(d).Id()
  {
    TitleChars(c.user, d);
  }

  lemma BaseResolversApart(c: Config)
    requires ResolversApart(c)
    ensures forall x, y :: x in Base(c) && y in Resolvers(c.DomainList()) ==> x.Id() != y.Id()
  {
    var ds := c.DomainList();
    forall x, y | x in Base(c) && y in Resolvers(ds) ensures x.Id() != y.Id() {
      var k :| 0 <= k < |ds| && Resolvers(ds)[k] == y;
      assert ds[k] in ds;
      ResolverApartFromBase(c, ds[k]);
    }
  }

  lemma BaseStrategyApart(c: Config)
    requires ApartFromDirs(c, StrategyFile(c))
    ensures forall x, y :: x in Base(c) && y in StrategyResources(Strategy(c)) ==> x.Id() != y.Id()
  {
    if c.nginxProxy {
      BaseSiteApart(c);
    } else {
      BaseFirewallApart(c);
    }
  }

  lemma BaseSiteApart(c: Config)
    requires ApartFromDirs(c, SitePath(c.home)) && c.nginxProxy
    ensures forall x :: x in Base(c) ==> x.Id() != Ref(File, SitePath(c.home))
  {
    var site := SitePath(c.home);
    EndsDiffer(PowconfigPath(c.user), site, 0);
    EndsDiffer(HostLinkPath(c.user), site, 0);
    EndsDiffer(PowdPlist, site, 0);
  }

  lemma BaseFirewallApart(c: Config)
    requires ApartFromDirs(c, FirewallPlist) && !c.nginxProxy
    ensures forall x :: x in Base(c) ==> x.Id() != Ref(File, FirewallPlist)
    ensures forall x :: x in Base(c) ==> x.Id() != Ref(Service, FirewallLabel)
  {
    TitleChars(c.user, "");
    assert PowdPlist[15] != FirewallPlist[15];
    assert PowdLabel[8] != FirewallLabel[8];
  }

  lemma ResolversStrategyApart(c: Config)
    requires ResolversApart(c)
    ensures forall x, y :: x in Resolvers(c.DomainList()) && y in StrategyResources(Strategy(c)) ==> x.Id() != y.Id()
  {
    var ds := c.DomainList();
    forall x, y | x in Resolvers(ds) && y in StrategyResources(Strategy(c)) ensures x.Id() != y.Id() {
      var k :| 0 <= k < |ds| && Resolvers(ds)[k] == x;
      assert ds[k] in ds;
      ResolverApartFromStrategy(c, ds[k]);
    }
  }

  /** No resolver file is one of the strategy's resources. */
  lemma ResolverApartFromStrategy(c: Config, d: string)
    requires ResolverPath(d) != StrategyFile(c)
    ensures forall y :: y in StrategyResources(Strategy(c)) ==> y.Id() != ResolverFile(d).Id()
  {
    TitleChars(c.user, d);
  }

  /** With the files kept apart, the catalogue declares nothing twice. */
  lemma ResourcesDistinct(c: Config)
    requires PathsApart(c)
    ensures Distinct(Ids(Resources(c)))
  {
    var base, rs, s := Base(c), Resolvers(c.DomainList()), StrategyResources(Strategy(c));
    BaseDistinct(c);
    ResolversDistinct(c.DomainList());
    StrategyDistinct(c);
    BaseResolversApart(c);
    BaseStrategyApart(c);
    ResolversStrategyApart(c);
    DistinctAppend(base, rs);
    DistinctAppend(base + rs, s);
  }

  // ---------------------------------------------------------------------
  // A collision is a clash

  /** When the caller's choices make two files share a title, the
      catalogue declares it twice. */
  lemma ResourcesClash(c: Config)
    requires !PathsApart(c)
    ensures !Distinct(Ids(Resources(c)))
  {
    if !DirsApart(c) {
      DirsClash(c);
    } else if !ResolversApart(c) {
      var d :| d in c.DomainList() && !(ApartFromDirs(c, ResolverPath(d)) && ResolverPath(d) != StrategyFile(c));
      var k :| 0 <= k < |c.DomainList()| && c.DomainList()[k] == d;
      ResolverClash(c, k);
    } else {
      var i, j :| 0 <= i < j < |c.DomainList()| && c.DomainList()[i] == c.DomainList()[j];
      DomainTwice(c, i, j);
    }
  }

  lemma DirsClash(c: Config)
    requires !DirsApart(c)
    ensures !Distinct(Ids(Resources(c)))
  {
    if c.hostDir == c.logDir {
      BaseClash(c, 3, 4);
    } else if !ApartFromDirs(c, PowconfigPath(c.user)) {
      BaseDirClash(c, 0);
    } else if !ApartFromDirs(c, HostLinkPath(c.user)) {
      BaseDirClash(c, 2);
    } else if !ApartFromDirs(c, PowdPlist) {
      BaseDirClash(c, 5);
    } else {
      StrategyDirClash(c);
    }
  }

  lemma BaseClash(c: Config, i: nat, j: nat)
    requires i < j < 7 && Base(c)[i].Id() == Base(c)[j].Id()
    ensures !Distinct(Ids(Resources(c)))
  {
    BaseSection(c, i);
    BaseSection(c, j);
    Clash(Resources(c), i, j);
  }

  /** A fixed file with one of the directories' titles. */
  lemma BaseDirClash(c: Config, k: nat)
    requires k < 3 || k == 5
    requires Base(c)[k].kind == File && !ApartFromDirs(c, Base(c)[k].title)
    ensures !Distinct(Ids(Resources(c)))
  {
    if Base(c)[k].title == c.hostDir {
      if k < 3 { BaseClash(c, k, 3); } else { BaseClash(c, 3, k); }
    } else {
      if k < 4 { BaseClash(c, k, 4); } else { BaseClash(c, 4, k); }
    }
  }

  /** A file declared after the fixed ones, at `k`, with one of the
      directories' titles. */
  lemma LaterDirClash(c: Config, k: nat)
    requires 7 <= k < |Resources(c)|
    requires Resources(c)[k].kind == File && !ApartFromDirs(c, Resources(c)[k].title)
    ensures !Distinct(Ids(Resources(c)))
  {
    BaseSection(c, 3);
    BaseSection(c, 4);
    if Resources(c)[k].title == c.hostDir {
      Clash(Resources(c), 3, k);
    } else {
      Clash(Resources(c), 4, k);
    }
  }

  lemma StrategyDirClash(c: Config)
    requires !ApartFromDirs(c, StrategyFile(c))
    ensures !Distinct(Ids(Resources(c)))
  {
    StrategySection(c, 0);
    LaterDirClash(c, 7 + |c.DomainList()|);
  }

  lemma ResolverClash(c: Config, k: nat)
    requires k < |c.DomainList()|
    requires var r := ResolverPath(c.DomainList()[k]);
      !(ApartFromDirs(c, r) && r != StrategyFile(c))
    ensures !Distinct(Ids(Resources(c)))
  {
    ResolverAt(c, k);
    if ResolverPath(c.DomainList()[k]) == StrategyFile(c) {
      ResolverStrategyClash(c, k);
    } else {
      LaterDirClash(c, 7 + k);
    }
  }

  lemma ResolverStrategyClash(c: Config, k: nat)
    requires k < |c.DomainList()| && ResolverPath(c.DomainList()[k]) == StrategyFile(c)
    ensures !Distinct(Ids(Resources(c)))
  {
    ResolverAt(c, k);
    StrategySection(c, 0);
    Clash(Resources(c), 7 + k, 7 + |c.DomainList()|);
  }

  lemma DomainTwice(c: Config, i: nat, j: nat)
    requires i < j < |c.DomainList()| && c.DomainList()[i] == c.DomainList()[j]
    ensures !Distinct(Ids(Resources(c)))
  {
    var ds := c.DomainList();
    ResolverOfDomain(ds, i);
    ResolverOfDomain(ds, j);
    Clash(Resolvers(ds), i, j);
    ClashWithin(Base(c), Resolvers(ds), StrategyResources(Strategy(c)));
  }
}
