/** The nginx virtual host `pow.conf` that forwards requests for the pow
    domains to pow's HTTP port. Of its text only two lines depend on the
    configuration: the `server_name` line with one wildcard per domain and
    the `proxy_pass` line with the HTTP port. */
module Site {
  import opened Text

  /** `*.d` for every domain `d`, in order. */
  function Wildcards(ds: seq<string>): seq<string> {
    seq(|ds|, i requires 0 <= i < |ds| => "*." + ds[i])
  }

  /** `server_name *.d1 *.d2 ... *.dn;` */
  function ServerNameLine(ds: seq<string>): string {
    "server_name " + Join(Wildcards(ds), " ") + ";"
  }

  /** `proxy_pass http://localhost:PORT;` */
  function ProxyPassLine(port: nat): string {
    "proxy_pass http://localhost:" + NatToString(port) + ";"
  }

  /** The configuration-dependent part of the site file. */
  function SiteContent(ds: seq<string>, port: nat): string {
    Unlines([ServerNameLine(ds), ProxyPassLine(port)])
  }

  /** The site file names every domain as a wildcard server name. */
  lemma SiteServesDomains(ds: seq<string>, port: nat)
    ensures Contains(SiteContent(ds, port), ServerNameLine(ds))
  {
    var s := SiteContent(ds, port);
    assert StartsWith(s[0..], ServerNameLine(ds));
  }

  /** The site file forwards to the HTTP port. */
  lemma SiteForwardsToPort(ds: seq<string>, port: nat)
    ensures Contains(SiteContent(ds, port), ProxyPassLine(port))
  {
    var s, a, b := SiteContent(ds, port), ServerNameLine(ds), ProxyPassLine(port);
    assert [a, b][1..] == [b] && [b][1..] == [];
    assert Unlines([b]) == b + "\n";
    assert s == a + "\n" + (b + "\n");
    var i := |a| + 1;
    assert s[i..] == b + "\n";
    assert StartsWith(s[i..], ProxyPassLine(port));
  }

  /** The `proxy_pass` line determines the port: different ports give
      different lines. */
  lemma ProxyPassLineInjective(p: nat, q: nat)
    requires ProxyPassLine(p) == ProxyPassLine(q)
    ensures p == q
  {
    var prefix := "proxy_pass http://localhost:";
    var lp, lq := ProxyPassLine(p), ProxyPassLine(q);
    assert NatToString(p) == lp[|prefix|..|lp| - 1];
    assert NatToString(q) == lq[|prefix|..|lq| - 1];
    NatToStringInjective(p, q);
  }

  /** The wildcard of a domain without spaces has no space either. */
  lemma WildcardsSpaceFree(ds: seq<string>)
    ensures (forall i :: 0 <= i < |ds| ==> ' ' !in ds[i]) ==>
              forall i :: 0 <= i < |ds| ==> ' ' !in Wildcards(ds)[i]
  {
  }

  /** The `server_name` line determines the domains: splitting its list at
      the spaces and dropping the `*.` gives back the domain list, as long
      as no domain contains a space. */
  lemma ServerNamesRoundTrip(ds: seq<string>)
    requires |ds| >= 1
    requires forall i :: 0 <= i < |ds| ==> ' ' !in ds[i]
    ensures var ws := SplitOn(Join(Wildcards(ds), " "), ' ');
      |ws| == |ds| && forall i :: 0 <= i < |ds| ==> ws[i] == "*." + ds[i]
  {
    WildcardsSpaceFree(ds);
    SplitOnJoin(Wildcards(ds), ' ');
  }
}
