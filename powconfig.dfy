/** The text of `~/.powconfig`: one `export KEY=VALUE` line per setting, in
    a fixed order. The six mandatory settings are always written; the
    external domains, the timeout and the worker count only when they were
    supplied. */
module Powconfig {
  import opened Wrappers
  import opened Text
  import opened Settings
  import Exports

  /** The settings `~/.powconfig` can export, in the order it exports them. */
  datatype Key =
    | HostRoot | LogRoot | HttpPort | DnsPort | DstPort | Domains
    | ExtDomains | Timeout | Workers

  /** The environment variable a setting is exported as. */
  function KeyName(k: Key): (name: string)
    ensures '=' !in name && '\n' !in name
  {
    match k
    case HostRoot => "POW_HOST_ROOT"
    case LogRoot => "POW_LOG_ROOT"
    case HttpPort => "POW_HTTP_PORT"
    case DnsPort => "POW_DNS_PORT"
    case DstPort => "POW_DST_PORT"
    case Domains => "POW_DOMAINS"
    case ExtDomains => "POW_EXT_DOMAINS"
    case Timeout => "POW_TIMEOUT"
    case Workers => "POW_WORKERS"
  }

  lemma KeyNameInjective(k: Key, l: Key)
    ensures KeyName(k) == KeyName(l) ==> k == l
  {
  }

  /** Position of a key in the file's fixed order. */
  function Rank(k: Key): nat {
    match k
    case HostRoot => 0
    case LogRoot => 1
    case HttpPort => 2
    case DnsPort => 3
    case DstPort => 4
    case Domains => 5
    case ExtDomains => 6
    case Timeout => 7
    case Workers => 8
  }

  /** Every key, in the file's order: the six mandatory settings, then the
      three optional ones. */
  const AllKeys: seq<Key> :=
    [HostRoot, LogRoot, HttpPort, DnsPort, DstPort, Domains] + [ExtDomains, Timeout, Workers]

  lemma AllKeysInOrder()
    ensures Exports.Increasing(Rank, AllKeys)
    ensures forall k: Key :: k in AllKeys
  {
    assert forall i :: 0 <= i < |AllKeys| ==> Rank(AllKeys[i]) == i;
    forall k: Key ensures k in AllKeys {
      assert AllKeys[Rank(k)] == k;
    }
  }

  /** What the file should say about `k`: the value to export, or `None`
      when the setting is optional and was not supplied. The domain lists go
      out as the comma strings they were given as; numbers in decimal. */
  function ValueOf(c: Config, k: Key): Option<string> {
    match k
    case HostRoot => Some(c.hostDir)
    case LogRoot => Some(c.logDir)
    case HttpPort => Some(NatToString(c.httpPort))
    case DnsPort => Some(NatToString(c.dnsPort))
    case DstPort => Some(NatToString(c.dstPort))
    case Domains => Some(c.domains)
    case ExtDomains => c.extDomains
    case Timeout => if c.timeout.Some? then Some(NatToString(c.timeout.value)) else None
    case Workers => if c.workers.Some? then Some(NatToString(c.workers.value)) else None
  }

  /** What the file says gives the configuration back: the paths and
      domain strings verbatim, the numbers read as decimals, and an
      optional setting exactly when it was supplied. */
  lemma ValuesReadBack(c: Config)
    ensures ValueOf(c, HostRoot) == Some(c.hostDir) && ValueOf(c, LogRoot) == Some(c.logDir)
    ensures ValueOf(c, Key.Domains) == Some(c.domains) && ValueOf(c, ExtDomains) == c.extDomains
    ensures ValueOf(c, HttpPort).Some? && ParseDecimal(ValueOf(c, HttpPort).value) == c.httpPort
    ensures ValueOf(c, DnsPort).Some? && ParseDecimal(ValueOf(c, DnsPort).value) == c.dnsPort
    ensures ValueOf(c, DstPort).Some? && ParseDecimal(ValueOf(c, DstPort).value) == c.dstPort
    ensures ValueOf(c, Timeout).Some? <==> c.timeout.Some?
    ensures c.timeout.Some? ==> ParseDecimal(ValueOf(c, Timeout).value) == c.timeout.value
    ensures ValueOf(c, Workers).Some? <==> c.workers.Some?
    ensures c.workers.Some? ==> ParseDecimal(ValueOf(c, Workers).value) == c.workers.value
  {
    ParseNatToString(c.httpPort);
    ParseNatToString(c.dnsPort);
    ParseNatToString(c.dstPort);
    if c.timeout.Some? {
      ParseNatToString(c.timeout.value);
    }
    if c.workers.Some? {
      ParseNatToString(c.workers.value);
    }
  }

  /** The mandatory settings always have a value. */
  lemma MandatoryKeysSet(c: Config, k: Key)
    requires Rank(k) < 6
    ensures ValueOf(c, k).Some?
  {
  }

  type Entry = Exports.Entry<Key>

  /** The settings `~/.powconfig` exports, each with the value the
      configuration gives it. */
  function Entries(c: Config): (es: seq<Entry>)
    ensures forall i :: 0 <= i < |es| ==> ValueOf(c, es[i].key) == Some(es[i].value)
  {
    Exports.Collect(k => ValueOf(c, k), AllKeys)
  }

  /** Every setting that has a value is exported: `i` is its entry. */
  lemma EntryOf(c: Config, k: Key) returns (i: nat)
    requires ValueOf(c, k).Some?
    ensures i < |Entries(c)| && Entries(c)[i].key == k
  {
    AllKeysInOrder();
    i := Exports.CollectComplete(k => ValueOf(c, k), AllKeys, k);
  }

  /** The file follows the fixed key order, so every key is exported at
      most once. */
  lemma EntriesInKeyOrder(c: Config)
    ensures forall i, j :: 0 <= i < j < |Entries(c)| ==> Rank(Entries(c)[i].key) < Rank(Entries(c)[j].key)
  {
    AllKeysInOrder();
    var values := k => ValueOf(c, k);
    forall i, j | 0 <= i < j < |Entries(c)| ensures Rank(Entries(c)[i].key) < Rank(Entries(c)[j].key) {
      Exports.CollectOrdered(values, Rank, AllKeys, i, j);
    }
  }

  /** The content of `~/.powconfig`. */
  function Render(c: Config): string {
    Exports.Render(KeyName, Entries(c))
  }

  /** No value the facts or the caller supply can break a line. */
  predicate NewlineFree(c: Config) {
    && '\n' !in c.hostDir
    && '\n' !in c.logDir
    && '\n' !in c.domains
    && (c.extDomains.Some? ==> '\n' !in c.extDomains.value)
  }

  /** A setting that has a value is exported at the start of a line, its
      value written verbatim after the `=`. */
  lemma ExportedLine(c: Config, k: Key)
    requires ValueOf(c, k).Some?
    ensures MatchesAtLineStart(Render(c), "export " + KeyName(k) + "=" + ValueOf(c, k).value)
  {
    var i := EntryOf(c, k);
    Exports.EntryExported(KeyName, Entries(c), i);
  }

  /** When no value holds a newline, a line starts with `export K=` exactly
      when setting K has a value: an optional setting that was not supplied
      leaves no line behind. */
  lemma ExportedKeyIff(c: Config, k: Key)
    requires NewlineFree(c)
    ensures MatchesAtLineStart(Render(c), "export " + KeyName(k) + "=") <==> ValueOf(c, k).Some?
  {
    LinesNewlineFree(c);
    NamesDistinct(c, k);
    Exports.ExportedIff(KeyName, Entries(c), k);
    HasEntryIff(c, k);
  }

  /** A setting has an entry exactly when it has a value. */
  lemma HasEntryIff(c: Config, k: Key)
    ensures (exists i :: 0 <= i < |Entries(c)| && Entries(c)[i].key == k) <==> ValueOf(c, k).Some?
  {
    var es := Entries(c);
    if i :| 0 <= i < |es| && es[i].key == k {
      assert ValueOf(c, es[i].key).Some?;
    }
    if ValueOf(c, k).Some? {
      var i := EntryOf(c, k);
    }
  }

  lemma LinesNewlineFree(c: Config)
    requires NewlineFree(c)
    ensures forall i :: 0 <= i < |Entries(c)| ==> '\n' !in Exports.ExportLine(KeyName, Entries(c)[i])
  {
    var es := Entries(c);
    forall i | 0 <= i < |es| ensures '\n' !in Exports.ExportLine(KeyName, es[i]) {
      var k := es[i].key;
      ValueNewlineFree(c, k);
      Exports.LineNewlineFree(KeyName(k), es[i].value);
    }
  }

  lemma NamesDistinct(c: Config, k: Key)
    ensures forall i :: 0 <= i < |Entries(c)| ==> KeyName(Entries(c)[i].key) == KeyName(k) ==> Entries(c)[i].key == k
  {
    var es := Entries(c);
    forall i | 0 <= i < |es| ensures KeyName(es[i].key) == KeyName(k) ==> es[i].key == k {
      KeyNameInjective(es[i].key, k);
    }
  }

  lemma ValueNewlineFree(c: Config, k: Key)
    requires NewlineFree(c) && ValueOf(c, k).Some?
    ensures '\n' !in ValueOf(c, k).value
  {
  }
}
