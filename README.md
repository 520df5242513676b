# Class `pow` as a catalogue compiler

Boxen's Puppet class `pow` sets up the pow Rack server on a developer's
Mac. Given the two node facts `boxen_home` and `boxen_user` and its class
parameters, compiling the class yields a catalogue:

- the text of `~/.powconfig`, one `export POW_…=…` line per setting;
- the `pow` Homebrew package and the `dev.pow.powd` launch agent;
- the hosts and log directories, with `~/.pow` linking to the hosts directory;
- one resolver file under `/etc/resolver` per configured domain;
- either an nginx site that forwards to pow's HTTP port, or pow's own
  firewall daemon, never both.

The resources carry `require` and `notify` references that order them.

This project models that compile step as a pure function,
`Pow.Compile(facts, params)`. It returns the catalogue (classes plus
resources) or, when two resources would get the same type and title, the
duplicate declaration Puppet refuses. It then proves what the class's
rspec examples check, for every input rather than for the example values
only, together with a handful of general properties:

- Compilation succeeds exactly when the caller's paths and domains keep
  every file title apart. It always succeeds without paths and domains of
  the caller's choosing, and it succeeds for every example parameter set.
- An optional setting leaves no line in `~/.powconfig` unless it was supplied.
- The nginx and firewall branches are mutually exclusive.
- The `require`/`notify` graph has no cycle.
- The domain string, the `server_name` line and the decimal ports round-trip.

Modules, in dependency order:

- `Wrappers`: `Option`, `Result`.
- `Text`: trimming, splitting, joining, line-oriented text, `^`-anchored
  matching, decimal numbers.
- `Exports`: a generic `export NAME=VALUE` file over a key type.
- `Domains`: the comma-separated domain list.
- `Settings`: facts, parameters, defaults.
- `Powconfig`: the nine settings of `~/.powconfig`.
- `Site`: the configuration-dependent lines of the nginx site.
- `Catalogue`: resources, references, Puppet's one-declaration rule, lookup,
  ordering edges.
- `Pow`: the class itself.
- `Collisions`: when compilation succeeds.
- `Scenarios`: the example parameter sets.

A `with_content(/^…/)` expectation is modelled as `MatchesAtLineStart`:
some line of the text starts with the given characters. An unanchored
`with_content(/…/)` is modelled as `Contains`. Any reference to
`File[...]`, `Package[...]` or `Service[...]` is a `Catalogue.Ref`.

## Model

| member | source | states |
|---|---|---|
| Pow.Compile | spec/classes/pow_spec.rb:3-12 | compilation succeeds exactly when no type and title is declared twice; a compiled catalogue holds class `pow` plus the strategy's classes, and the fixed resources, one resolver file per domain and the strategy's files |
| Pow.Declared | spec/classes/pow_spec.rb:11-21 | in a compiled catalogue, looking up a resource's reference finds that very resource |
| Pow.IncludesPow | spec/classes/pow_spec.rb:11-12 | a compiled catalogue includes class `pow` |
| Pow.PowdPlistNotifies | spec/classes/pow_spec.rb:14-16 | the launch agent plist is declared and notifies `Service[dev.pow.powd]` |
| Pow.PowconfigDeclared | spec/classes/pow_spec.rb:18-21 | `/Users/<boxen_user>/.powconfig` is declared present, mode 0644, with the rendered settings as content |
| Pow.ValueIffSupplied | spec/classes/pow_spec.rb:24-35 | a setting has a value exactly when it is mandatory or its optional parameter was supplied |
| Pow.PowconfigExports | spec/classes/pow_spec.rb:26-31 | every setting with a value appears at the start of a line of `~/.powconfig` as `export NAME=VALUE` |
| Pow.PowconfigExportsOnlySupplied | spec/classes/pow_spec.rb:32-34 | with newline-free values, a line starts with `export NAME=` exactly when the setting is mandatory or was supplied |
| Pow.PackageDeclared | spec/classes/pow_spec.rb:73-78 | the `pow` package comes from homebrew, ensure latest, and requires `File[/Users/<user>/.powconfig]` |
| Pow.HostDirectories | spec/classes/pow_spec.rb:81-89 | `~/.pow` links to the hosts directory (the supplied one or `<boxen_home>/data/pow/hosts`) and requires it; the hosts and log directories are declared as directories |
| Pow.PowdServiceDeclared | spec/classes/pow_spec.rb:177-181 | `Service[dev.pow.powd]` is running and requires `Package[pow]` |
| Pow.ResolverFiles | spec/classes/pow_spec.rb:184-191 | every configured domain has `/etc/resolver/<domain>` owned by root:wheel and requiring `File[/etc/resolver]` |
| Pow.AfterResolverDir | spec/classes/pow_spec.rb:184-207 | the only resources requiring `File[/etc/resolver]` are the resolver files of the listed domains, and `~/.pow` when the hosts directory is `/etc/resolver` itself |
| Pow.ResolversOnly | spec/classes/pow_spec.rb:184-207 | unless the hosts directory is `/etc/resolver`, every resource of a compiled catalogue that requires `File[/etc/resolver]` is the resolver file of a listed domain |
| Pow.BaseLayered | spec/classes/pow_spec.rb:73-86 | each fixed resource's `require`s sit lower and its `notify`s higher: plain files, then resolver files, then `~/.pow`, then the package, then the services |
| Pow.ResolversLayered | spec/classes/pow_spec.rb:186-190 | each resolver file comes after `/etc/resolver` |
| Pow.StrategyLayered | spec/classes/pow_spec.rb:164-173 | the firewall plist notifies its service, which comes after the package |
| Pow.NginxSite | spec/classes/pow_spec.rb:117-124 | unless nginx is switched off, the nginx classes are included and the site file contains the `server_name` line of the domains and the `proxy_pass` line of the HTTP port |
| Pow.LocalFirewallDeclared | spec/classes/pow_spec.rb:151-174 | with nginx off, no nginx class is included; the firewall plist is root:wheel and notifies its service; the firewall service is running and requires the package |
| Pow.SiteAbsent | spec/classes/pow_spec.rb:162 | with nginx off, no resource is the nginx site file, provided no caller path is that file's path |
| Pow.NoSiteWithoutNginx | spec/classes/pow_spec.rb:151-162 | with nginx off, looking up the site file finds nothing, under the same proviso |
| Pow.FirewallServiceAbsent | spec/classes/pow_spec.rb:117-124 | with nginx on, no resource is the firewall service |
| Pow.ProxyStrategiesExclusive | spec/classes/pow_spec.rb:117-175 | class `nginx` is included exactly when nginx is on, and the firewall service is declared exactly when it is off |
| Pow.HostDirIsNotLink | spec/classes/pow_spec.rb:81-89 | in a catalogue without duplicates the hosts directory is not `~/.pow` itself |
| Pow.DependenciesAcyclic | spec/classes/pow_spec.rb:73-89 | no chain of `require`/`notify` edges of a compiled catalogue leads back to its start |
| Catalogue.Redeclared | spec/classes/pow_spec.rb:11-12 | a reference that is declared again, or none exactly when every reference is declared once |
| Catalogue.RedeclaredFirst | spec/classes/pow_spec.rb:11-12 | that reference is the first repetition: no earlier reference was declared before |
| Catalogue.Assemble | spec/classes/pow_spec.rb:11-12 | a catalogue exactly when references are distinct; otherwise the error names a reference declared twice |
| Catalogue.Lookup | spec/classes/pow_spec.rb:14-16 | finds a resource declared with the reference, or nothing exactly when none is |
| Catalogue.LookupDistinct | spec/classes/pow_spec.rb:14-21 | with distinct references, looking up a resource's reference finds that resource |
| Catalogue.NoCycle | spec/classes/pow_spec.rb:177-181 | along a chain of layered edges the level rises, so the chain does not return to its start |
| Catalogue.DistinctAppend | spec/classes/pow_spec.rb:11-12 | two runs that declare nothing twice and share no reference declare nothing twice together |
| Catalogue.ClashWithin | spec/classes/pow_spec.rb:11-12 | a run that declares a reference twice still does so between other runs |
| Collisions.CompileOkIff | spec/classes/pow_spec.rb:11-12 | compilation succeeds exactly when the caller's paths and domains give every file its own title |
| Collisions.DefaultsCompile | spec/classes/pow_spec.rb:3-22 | without paths and domains of the caller's choosing, the class compiles for every Boxen root and user, whatever the ports and the proxy strategy |
| Collisions.DefaultDirsCompile | spec/classes/pow_spec.rb:138-147 | with the default directories, distinct domains that do not end like them compile |
| Collisions.SuppliedDirsCompile | spec/classes/pow_spec.rb:99-114 | supplied directories that keep away from the class's own files and end differently, with distinct domains, compile |
| Collisions.ResourcesDistinct | spec/classes/pow_spec.rb:11-12 | with the paths kept apart, no reference is declared twice |
| Collisions.ResourcesClash | spec/classes/pow_spec.rb:11-12 | when two of the caller's paths or domains collide, some reference is declared twice |
| Settings.NormalizeDefaults | spec/classes/pow_spec.rb:24-35 | without parameters: hosts and log directories under the Boxen root, ports 30559, 30560, 1999, domain `pow`, no optional setting, nginx on |
| Settings.NormalizeExplicit | spec/classes/pow_spec.rb:46-70 | a declaration that supplies every value gets exactly those values |
| Powconfig.ValuesReadBack | spec/classes/pow_spec.rb:61-69 | each exported value gives back its setting: paths and domain strings verbatim, numbers as decimals, optional settings exactly when supplied |
| Powconfig.KeyName | spec/classes/pow_spec.rb:26-34 | no variable name contains `=` or a newline |
| Powconfig.KeyNameInjective | spec/classes/pow_spec.rb:26-34 | distinct settings export distinct variable names |
| Powconfig.AllKeysInOrder | spec/classes/pow_spec.rb:26-34 | the key list holds every setting once, in the file's order |
| Powconfig.MandatoryKeysSet | spec/classes/pow_spec.rb:26-31 | the six mandatory settings always have a value |
| Powconfig.Entries | spec/classes/pow_spec.rb:26-34 | every exported entry carries the value the configuration gives its setting |
| Powconfig.EntryOf | spec/classes/pow_spec.rb:26-31 | every setting with a value has an entry |
| Powconfig.EntriesInKeyOrder | spec/classes/pow_spec.rb:26-34 | entries follow the fixed key order, so no setting is exported twice |
| Powconfig.HasEntryIff | spec/classes/pow_spec.rb:32-34 | a setting has an entry exactly when it has a value |
| Powconfig.ExportedLine | spec/classes/pow_spec.rb:61-69 | a setting with a value is exported at a line start with its value verbatim |
| Powconfig.ExportedKeyIff | spec/classes/pow_spec.rb:32-34 | with newline-free values, a line starts with `export NAME=` exactly when the setting has a value |
| Exports.Collect | spec/classes/pow_spec.rb:26-34 | no more entries than keys, each for a listed key and carrying that key's value |
| Exports.CollectComplete | spec/classes/pow_spec.rb:26-31 | no listed key that has a value is skipped |
| Exports.CollectOrdered | spec/classes/pow_spec.rb:26-34 | entries come out in the order of the keys |
| Exports.EntryExported | spec/classes/pow_spec.rb:26-31 | every entry's line starts a line of the file |
| Exports.NamePrefix | spec/classes/pow_spec.rb:32-34 | with `=`-free names, a line begins `export a=` exactly when it exports `a` |
| Exports.ExportedIff | spec/classes/pow_spec.rb:32-34 | a line starts with `export k=` exactly when `k` has an entry |
| Text.TrimLeft | spec/classes/pow_spec.rb:197 | drops exactly the leading whitespace |
| Text.TrimRight | spec/classes/pow_spec.rb:197 | drops exactly the trailing whitespace |
| Text.Trim | spec/classes/pow_spec.rb:197 | no whitespace left at either end, no longer than the input; already-trimmed strings are unchanged |
| Text.TrimSlice | spec/classes/pow_spec.rb:197 | the result is a slice of the input with only whitespace before and after it |
| Text.TrimSubset | spec/classes/pow_spec.rb:197 | every character of the result comes from the input |
| Text.SplitOn | spec/classes/pow_spec.rb:197 | at least one piece, none containing the separator |
| Text.JoinSplitOn | spec/classes/pow_spec.rb:197 | joining the pieces of a split gives back the string |
| Text.SplitOnJoin | spec/classes/pow_spec.rb:141 | splitting a join of separator-free pieces gives back the pieces |
| Text.LineMatches | spec/classes/pow_spec.rb:26-31 | whatever starts one of the lines matches `^` in the joined text |
| Text.MatchesAtLineStartIff | spec/classes/pow_spec.rb:32-34 | with newline-free lines, `^prefix` matches exactly when some line starts with it |
| Text.NatToString | spec/classes/pow_spec.rb:28-30 | only digits, no leading zero except for zero |
| Text.ParseNatToString | spec/classes/pow_spec.rb:63-65 | reading a rendered number back gives the number |
| Text.NatToStringInjective | spec/classes/pow_spec.rb:63-65 | different numbers render differently |
| Domains.TrimPieces | spec/classes/pow_spec.rb:197 | no more domains than pieces; every kept piece is non-empty and trimmed |
| Domains.TrimPiecesKeeps | spec/classes/pow_spec.rb:197 | every piece that is not blank is kept, trimmed |
| Domains.TrimPiecesSource | spec/classes/pow_spec.rb:197 | every kept domain is the trim of some piece |
| Domains.SplitDomains | spec/classes/pow_spec.rb:194-207 | every domain is a non-empty, comma-free, trimmed token |
| Domains.TrimPiecesOfTokens | spec/classes/pow_spec.rb:194-207 | tokens pass through unchanged |
| Domains.SplitDomainsJoin | spec/classes/pow_spec.rb:138-147 | writing a domain list with commas and splitting it gives back the list |
| Domains.SplitDomainsAppend | spec/classes/pow_spec.rb:194-207 | the domains before the first comma come first, then those of the rest |
| Domains.SplitDomainsSingle | spec/classes/pow_spec.rb:184-191 | a comma-free string is one trimmed domain, or none if blank |
| Site.SiteServesDomains | spec/classes/pow_spec.rb:122 | the site content contains the `server_name` line |
| Site.SiteForwardsToPort | spec/classes/pow_spec.rb:123 | the site content contains the `proxy_pass` line |
| Site.ProxyPassLineInjective | spec/classes/pow_spec.rb:126-135 | different ports give different `proxy_pass` lines |
| Site.ServerNamesRoundTrip | spec/classes/pow_spec.rb:138-147 | splitting the `server_name` list at spaces gives `*.d` for each domain |
| Scenarios.DefaultPowconfigPaths | spec/classes/pow_spec.rb:26-31 | without those parameters: `POW_HOST_ROOT=<boxen_home>/data/pow/hosts`, `POW_LOG_ROOT=<boxen_home>/log/pow`, `POW_DOMAINS=pow` |
| Scenarios.DefaultPowconfigPorts | spec/classes/pow_spec.rb:28-30 | without port parameters: `POW_HTTP_PORT=30559`, `POW_DNS_PORT=30560`, `POW_DST_PORT=1999` |
| Scenarios.DefaultPowconfigOptionals | spec/classes/pow_spec.rb:32-34 | no line starts `export POW_EXT_DOMAINS=`, `export POW_TIMEOUT=` or `export POW_WORKERS=` |
| Scenarios.SuppliedPaths | spec/classes/pow_spec.rb:61-67 | supplied paths and domain strings are exported verbatim |
| Scenarios.SuppliedPorts | spec/classes/pow_spec.rb:63-65 | supplied ports are exported in decimal |
| Scenarios.SuppliedTuning | spec/classes/pow_spec.rb:68-69 | a supplied timeout and worker count are exported in decimal |
| Scenarios.CustomPowconfigPaths | spec/classes/pow_spec.rb:61-67 | the example's host and log roots and both domain lists |
| Scenarios.CustomPowconfigNumbers | spec/classes/pow_spec.rb:63-69 | the example's ports 76543, 45678, 23456, timeout 500, workers 4 |
| Scenarios.DefaultServerName | spec/classes/pow_spec.rb:122 | the default domain gives `server_name *.pow;` |
| Scenarios.DefaultProxyPass | spec/classes/pow_spec.rb:123 | the default port gives `proxy_pass http://localhost:30559;` |
| Scenarios.CustomProxyPass | spec/classes/pow_spec.rb:134 | port 67895 gives `proxy_pass http://localhost:67895;` |
| Scenarios.CustomDomainList | spec/classes/pow_spec.rb:141 | `dev,pow,test` splits into three domains |
| Scenarios.CustomServerNames | spec/classes/pow_spec.rb:146 | those give `server_name *.dev *.pow *.test;` |
| Scenarios.ThreeDomains | spec/classes/pow_spec.rb:197 | `dev,pow, local` splits into `dev`, `pow`, `local` |
| Scenarios.DefaultDomainList | spec/classes/pow_spec.rb:184-191 | without `domains` the domain list is `pow` alone |
| Scenarios.DefaultResolver | spec/classes/pow_spec.rb:184-191 | without parameters the class compiles and declares `/etc/resolver/pow` root:wheel after `/etc/resolver` |
| Scenarios.ThreeResolvers | spec/classes/pow_spec.rb:194-207 | with domains `dev,pow, local` the class compiles and declares the three resolver files root:wheel after `/etc/resolver`, and no other resource requires `File[/etc/resolver]` |
| Scenarios.ThreeDomainsCompile | spec/classes/pow_spec.rb:194-199 | `dev,pow, local` gives three domains and compiles |
| Scenarios.FirewallWithoutSite | spec/classes/pow_spec.rb:151-162 | with nginx off the class compiles and declares no site file at all |
| Scenarios.DefaultSite | spec/classes/pow_spec.rb:117-124 | without parameters the class compiles and its site contains `server_name *.pow;` and `proxy_pass http://localhost:30559;` |
| Scenarios.CustomPortSite | spec/classes/pow_spec.rb:126-135 | with HTTP port 67895 the class compiles and its site contains `proxy_pass http://localhost:67895;` |
| Scenarios.CustomDomainsSite | spec/classes/pow_spec.rb:138-147 | with domains `dev,pow,test` the class compiles and its site contains `server_name *.dev *.pow *.test;` |
| Scenarios.CustomDirsLink | spec/classes/pow_spec.rb:99-114 | with the two directories supplied the class compiles, `~/.pow` is a link to `/test/data/pow/hosts` and requires it, and both directories are declared with ensure directory |
| Scenarios.CustomCompiles | spec/classes/pow_spec.rb:46-58 | with every parameter supplied the class compiles |
| Scenarios.TwoDomains | spec/classes/pow_spec.rb:53 | `test,test2` splits into `test` and `test2` |

## Left out

- The manifest `manifests/init.pp` and its templates are not part of this
  model. Their behaviour is taken from the rspec examples. Splitting the
  domains on commas is what the examples show. Trimming each piece is an
  assumption of the model: the example `dev,pow, local` checks only
  `/etc/resolver/dev`, so no example confirms it. No example shows blank
  pieces or repeated domains either: the model drops blank pieces and keeps
  order and duplicates.
- Catalogue application (Homebrew, launchd, nginx, the firewall rule) is out
  of scope. The model stops at the catalogue.
- File contents other than `~/.powconfig` and the two configuration-dependent
  nginx lines are not modelled: the plists, the resolver files and the rest of
  the nginx site. Attributes the examples do not check are left unset.
- Port range and absolute-path validation are not modelled. The examples
  pass port 76543, beyond the 16-bit range, and expect it to be exported,
  so ports are unbounded naturals and any string is a path.
- The user files are `/Users/<user>/.powconfig` and `/Users/<user>/.pow`,
  as the examples expect, whatever the Boxen root.
- Duplicate domains are not deduplicated. A repeated domain declares its
  resolver file twice, which Puppet refuses: `Collisions.CompileOkIff` states
  this as a compile error.
- Pow.PowconfigExportsOnlySupplied, Powconfig.ExportedKeyIff: need values
  free of newlines. A newline inside a supplied path could start a line of
  its own.
- Pow.SiteAbsent, Pow.NoSiteWithoutNginx: need no caller path to equal the
  nginx site path. A hosts directory at that path would be a file with the
  site's title.
- Resource parameters are modelled as a fixed record, not an open hash. The
  `require`/`notify` values are lists of references.
- `ext_domains`, `timeout` and `workers` are written verbatim or in decimal,
  with no validation. `ext_domains` is not split.
- Pow.Compile: compares file titles as written. Puppet strips trailing
  slashes from a file's title before its one-declaration check, so
  `host_dir => '/x/'` with `log_dir => '/x'` is refused by Puppet but
  compiles here.
- Collisions.CompileOkIff: for the same reason, it is exact only for paths
  without a trailing slash.
