/** A shell file of `export NAME=VALUE` lines, one per setting that has a
    value, written in the order of a fixed list of settings. Kept generic in
    the setting type `K`: what a setting is called, what it is worth and where
    it goes in the order are parameters, so these facts hold for any such
    file. */
module Exports {
  import opened Wrappers
  import opened Text

  /** A setting and the value it is exported with. */
  datatype Entry<K> = Entry(key: K, value: string)

  /** The entries for the settings of `keys` that `values` gives a value, in
      the order of `keys`; a setting without a value is skipped. */
  function Collect<K>(values: K -> Option<string>, keys: seq<K>): (es: seq<Entry<K>>)
    ensures |es| <= |keys|
    ensures forall i :: 0 <= i < |es| ==> es[i].key in keys && values(es[i].key) == Some(es[i].value)
  {
    if |keys| == 0 then []
    else
      var rest := Collect(values, keys[1..]);
      if values(keys[0]).Some? then [Entry(keys[0], values(keys[0]).value)] + rest else rest
  }

  /** No setting of `keys` that has a value is skipped: `i` is where its
      entry is. */
  lemma {:induction false} CollectComplete<K>(values: K -> Option<string>, keys: seq<K>, k: K) returns (i: nat)
    requires k in keys && values(k).Some?
    ensures i < |Collect(values, keys)| && Collect(values, keys)[i].key == k
  {
    var rest := Collect(values, keys[1..]);
    var head := if values(keys[0]).Some? then [Entry(keys[0], values(keys[0]).value)] else [];
    assert Collect(values, keys) == head + rest;
    if keys[0] == k {
      i := 0;
    } else {
      assert k in keys[1..];
      var j := CollectComplete(values, keys[1..], k);
      i := |head| + j;
    }
  }

  /** `ks` lists settings strictly by their position `rank`, so none twice. */
  predicate Increasing<K>(rank: K -> nat, ks: seq<K>) {
    forall i, j :: 0 <= i < j < |ks| ==> rank(ks[i]) < rank(ks[j])
  }

  /** The first setting of an increasing list comes before all others. */
  lemma IncreasingHead<K>(rank: K -> nat, keys: seq<K>, k: K)
    requires Increasing(rank, keys)
    requires |keys| > 0 && k in keys[1..]
    ensures rank(keys[0]) < rank(k)
  {
    var m :| 0 <= m < |keys[1..]| && keys[1..][m] == k;
    assert keys[m + 1] == k;
  }

  lemma IncreasingTail<K>(rank: K -> nat, keys: seq<K>)
    requires Increasing(rank, keys) && |keys| > 0
    ensures Increasing(rank, keys[1..])
  {
    forall i, j | 0 <= i < j < |keys[1..]| ensures rank(keys[1..][i]) < rank(keys[1..][j]) {
      assert keys[1..][i] == keys[i + 1] && keys[1..][j] == keys[j + 1];
    }
  }

  /** The entries come out in the order of `keys`. */
  lemma {:induction false} CollectOrdered<K>(values: K -> Option<string>, rank: K -> nat, keys: seq<K>, i: nat, j: nat)
    requires Increasing(rank, keys)
    requires i < j < |Collect(values, keys)|
    ensures rank(Collect(values, keys)[i].key) < rank(Collect(values, keys)[j].key)
  {
    var es, rest := Collect(values, keys), Collect(values, keys[1..]);
    if values(keys[0]).Some? {
      assert es == [Entry(keys[0], values(keys[0]).value)] + rest;
      if i == 0 {
        assert es[j] == rest[j - 1];
        IncreasingHead(rank, keys, rest[j - 1].key);
      } else {
        assert es[i] == rest[i - 1] && es[j] == rest[j - 1];
        IncreasingTail(rank, keys);
        CollectOrdered(values, rank, keys[1..], i - 1, j - 1);
      }
    } else {
      assert es == rest;
      IncreasingTail(rank, keys);
      CollectOrdered(values, rank, keys[1..], i, j);
    }
  }

  /** The line that exports one entry. */
  function ExportLine<K>(name: K -> string, e: Entry<K>): string {
    "export " + name(e.key) + "=" + e.value
  }

  function ExportLines<K>(name: K -> string, es: seq<Entry<K>>): seq<string> {
    seq(|es|, i requires 0 <= i < |es| => ExportLine(name, es[i]))
  }

  /** An export line has no newline of its own unless its name or value
      brings one. */
  lemma LineNewlineFree(name: string, value: string)
    ensures '\n' !in name && '\n' !in value ==> '\n' !in "export " + name + "=" + value
  {
  }

  /** The file: the export lines, each ended by a newline. */
  function Render<K>(name: K -> string, es: seq<Entry<K>>): string {
    Unlines(ExportLines(name, es))
  }

  /** Every entry is exported at the start of a line. */
  lemma EntryExported<K>(name: K -> string, es: seq<Entry<K>>, i: nat)
    requires i < |es|
    ensures MatchesAtLineStart(Render(name, es), "export " + name(es[i].key) + "=" + es[i].value)
  {
    LineMatches(ExportLines(name, es), i, ExportLine(name, es[i]));
  }

  /** Where the characters of an export line come from. */
  lemma ExportLineChars(a: string, b: string, v: string)
    ensures var line, p := "export " + b + "=" + v, "export " + a + "=";
      && (StartsWith(line, p) ==> line[|p| - 1] == '=' && forall j :: 0 <= j < |a| ==> line[7 + j] == a[j])
      && (forall j :: 0 <= j < |b| ==> line[7 + j] == b[j])
      && line[7 + |b|] == '='
  {
    var line, p := "export " + b + "=" + v, "export " + a + "=";
    if StartsWith(line, p) {
      assert line[|p| - 1] == p[|p| - 1];
      forall j | 0 <= j < |a| ensures line[7 + j] == a[j] {
        assert line[7 + j] == p[7 + j];
      }
    }
  }

  /** With names free of `=`, the line exporting `b` begins with
      `export a=` exactly when `a` and `b` are the same name. */
  lemma NamePrefix(a: string, b: string, v: string)
    requires '=' !in a && '=' !in b
    ensures StartsWith("export " + b + "=" + v, "export " + a + "=") <==> a == b
  {
    var line, p := "export " + b + "=" + v, "export " + a + "=";
    if a == b {
      assert line[..|p|] == p;
    } else {
      ExportLineChars(a, b, v);
    }
  }

  /** When no name or value holds a newline, no name holds `=` and no other
      setting shares `k`'s name, some line starts with `export k=` exactly
      when `k` has an entry. */
  lemma ExportedIff<K>(name: K -> string, es: seq<Entry<K>>, k: K)
    requires forall i :: 0 <= i < |es| ==> '\n' !in ExportLine(name, es[i])
    requires forall i :: 0 <= i < |es| ==> '=' !in name(es[i].key)
    requires forall i :: 0 <= i < |es| ==> name(es[i].key) == name(k) ==> es[i].key == k
    requires '=' !in name(k) && '\n' !in name(k)
    ensures MatchesAtLineStart(Render(name, es), "export " + name(k) + "=")
        <==> exists i :: 0 <= i < |es| && es[i].key == k
  {
    var lines := ExportLines(name, es);
    var p := "export " + name(k) + "=";
    MatchesAtLineStartIff(lines, p);
    forall i | 0 <= i < |es| ensures StartsWith(lines[i], p) <==> es[i].key == k {
      NamePrefix(name(k), name(es[i].key), es[i].value);
    }
  }
}
