/** String utilities the templates and the manifest rely on: whitespace
    trimming, splitting on a separator, joining, line-oriented text, prefix
    and substring matching, and decimal rendering of natural numbers. */
module Text {

  /** The characters Ruby's `strip` removes at either end: NUL and the ASCII
      whitespace characters. */
  predicate IsSpace(c: char) {
    c == '\0' || c == ' ' || c == '\t' || c == '\n' || c == '\r' || c == '\U{000B}' || c == '\U{000C}'
  }

  /** No whitespace at either end. */
  predicate NoEdgeSpace(s: string) {
    s == [] || (!IsSpace(s[0]) && !IsSpace(s[|s| - 1]))
  }

  predicate IsDigit(c: char) {
    '0' as int <= c as int <= '9' as int
  }

  predicate StartsWith(s: string, prefix: string) {
    |prefix| <= |s| && s[..|prefix|] == prefix
  }

  /** `needle` occurs somewhere in `s`; an unanchored regular expression
      without metacharacters matches exactly when this holds. */
  ghost predicate Contains(s: string, needle: string) {
    exists i :: 0 <= i <= |s| && StartsWith(s[i..], needle)
  }

  // ---------------------------------------------------------------------
  // Trimming

  /** Drops the leading whitespace. */
  function TrimLeft(s: string): (r: string)
    ensures |r| <= |s| && r == s[|s| - |r|..]
    ensures forall i :: 0 <= i < |s| - |r| ==> IsSpace(s[i])
    ensures r == [] || !IsSpace(r[0])
  {
    if |s| > 0 && IsSpace(s[0]) then TrimLeft(s[1..]) else s
  }

  /** Drops the trailing whitespace. */
  function TrimRight(s: string): (r: string)
    ensures |r| <= |s| && r == s[..|r|]
    ensures forall i :: |r| <= i < |s| ==> IsSpace(s[i])
    ensures r == [] || !IsSpace(r[|r| - 1])
  {
    if |s| > 0 && IsSpace(s[|s| - 1]) then TrimRight(s[..|s| - 1]) else s
  }

  /** Ruby's `strip`: the string without the whitespace at both ends. */
  function Trim(s: string): (r: string)
    ensures NoEdgeSpace(r)
    ensures |r| <= |s|
    ensures NoEdgeSpace(s) ==> r == s
  {
    var l := TrimLeft(s);
    assert NoEdgeSpace(s) && |s| > 0 ==> l == s;
    TrimRight(l)
  }

  /** What `strip` keeps is the slice of `s` between its leading and its
      trailing whitespace: `a` is where that slice starts. */
  lemma TrimSlice(s: string) returns (a: nat)
    ensures a + |Trim(s)| <= |s| && Trim(s) == s[a..a + |Trim(s)|]
    ensures forall i :: 0 <= i < a ==> IsSpace(s[i])
    ensures forall i :: a + |Trim(s)| <= i < |s| ==> IsSpace(s[i])
  {
    var l := TrimLeft(s);
    a := |s| - |l|;
    var r := TrimRight(l);
    assert Trim(s) == r;
    assert r == s[a..a + |r|];
    forall i | a + |r| <= i < |s| ensures IsSpace(s[i]) {
      assert s[i] == l[i - a];
    }
  }

  /** Trimming adds no character. */
  lemma TrimSubset(s: string, c: char)
    ensures c in Trim(s) ==> c in s
  {
    var a := TrimSlice(s);
    if c in Trim(s) {
      var k :| 0 <= k < |Trim(s)| && Trim(s)[k] == c;
      assert s[a + k] == c;
    }
  }

  // ---------------------------------------------------------------------
  // Splitting and joining

  /** The pieces between consecutive occurrences of a one-character
      separator, in order, every empty piece included: Ruby's
      `split(sep, -1)`, except that an empty string gives one empty piece
      rather than none. */
  function SplitOn(s: string, sep: char): (parts: seq<string>)
    ensures |parts| >= 1
    ensures forall i :: 0 <= i < |parts| ==> sep !in parts[i]
    decreases |s|
  {
    if |s| == 0 then [""]
    else
      var rest := SplitOn(s[1..], sep);
      if s[0] == sep then [""] + rest
      else [[s[0]] + rest[0]] + rest[1..]
  }

  /** The pieces with `sep` between consecutive ones. */
  function Join(parts: seq<string>, sep: string): string {
    if |parts| == 0 then ""
    else if |parts| == 1 then parts[0]
    else parts[0] + sep + Join(parts[1..], sep)
  }

  lemma JoinCons(c: char, first: string, rest: seq<string>, sep: string)
    ensures Join([[c] + first] + rest, sep) == [c] + Join([first] + rest, sep)
  {
    var xs := [[c] + first] + rest;
    var ys := [first] + rest;
    assert xs[1..] == ys[1..] == rest;
  }

  /** Joining the pieces of a split gives back the original string. */
  lemma {:induction false} JoinSplitOn(s: string, sep: char)
    ensures Join(SplitOn(s, sep), [sep]) == s
    decreases |s|
  {
    if |s| > 0 {
      var rest := SplitOn(s[1..], sep);
      JoinSplitOn(s[1..], sep);
      if s[0] == sep {
        assert ([""] + rest)[1..] == rest;
      } else {
        assert rest == [rest[0]] + rest[1..];
        JoinCons(s[0], rest[0], rest[1..], [sep]);
      }
    }
  }

  /** A string without the separator is a single piece. */
  lemma {:induction false} SplitOnNoSep(a: string, sep: char)
    requires sep !in a
    ensures SplitOn(a, sep) == [a]
    decreases |a|
  {
    if |a| > 0 {
      SplitOnNoSep(a[1..], sep);
      assert [a[0]] + a[1..] == a;
    }
  }

  /** Splitting at the first separator: the part before it is the first
      piece, and the rest is split on its own. */
  lemma {:induction false} SplitOnFirstSep(a: string, b: string, sep: char)
    requires sep !in a
    ensures SplitOn(a + [sep] + b, sep) == [a] + SplitOn(b, sep)
    decreases |a|
  {
    var s := a + [sep] + b;
    if |a| == 0 {
      assert s[1..] == b;
    } else {
      assert s[1..] == a[1..] + [sep] + b;
      SplitOnFirstSep(a[1..], b, sep);
      assert [a[0]] + a[1..] == a;
    }
  }

  /** Splitting a join of separator-free pieces gives back the pieces. */
  lemma {:induction false} SplitOnJoin(parts: seq<string>, sep: char)
    requires |parts| >= 1
    requires forall i :: 0 <= i < |parts| ==> sep !in parts[i]
    ensures SplitOn(Join(parts, [sep]), sep) == parts
  {
    if |parts| == 1 {
      SplitOnNoSep(parts[0], sep);
    } else {
      SplitOnJoin(parts[1..], sep);
      SplitOnFirstSep(parts[0], Join(parts[1..], [sep]), sep);
      assert [parts[0]] + parts[1..] == parts;
    }
  }

  // ---------------------------------------------------------------------
  // Lines

  /** Each line followed by a newline, as a template writes one line per
      entry. */
  function Unlines(lines: seq<string>): string {
    if |lines| == 0 then "" else lines[0] + "\n" + Unlines(lines[1..])
  }

  /** Position `i` starts a line: it is the start of the text or follows a
      newline. This is where the regular-expression anchor `^` matches. */
  predicate AtLineStart(text: string, i: int)
    requires 0 <= i <= |text|
  {
    i == 0 || text[i - 1] == '\n'
  }

  /** The regular expression `^prefix` matches `text`: some line of it
      starts with `prefix`. */
  ghost predicate MatchesAtLineStart(text: string, prefix: string) {
    exists i :: 0 <= i <= |text| && AtLineStart(text, i) && StartsWith(text[i..], prefix)
  }

  /** Where line `k` begins in `Unlines(lines)`. */
  function LineOffset(lines: seq<string>, k: nat): nat
    requires k <= |lines|
  {
    if k == 0 then 0 else |lines[0]| + 1 + LineOffset(lines[1..], k - 1)
  }

  lemma {:induction false} LineOffsetSuffix(lines: seq<string>, k: nat)
    requires k <= |lines|
    ensures LineOffset(lines, k) <= |Unlines(lines)|
    ensures Unlines(lines)[LineOffset(lines, k)..] == Unlines(lines[k..])
    ensures AtLineStart(Unlines(lines), LineOffset(lines, k))
  {
    if k > 0 {
      LineOffsetSuffix(lines[1..], k - 1);
      assert lines[1..][k - 1..] == lines[k..];
      var text := Unlines(lines);
      var head := lines[0] + "\n";
      assert text == head + Unlines(lines[1..]);
      var off := LineOffset(lines[1..], k - 1);
      if off == 0 {
        assert text[|head| - 1] == '\n';
      } else {
        assert text[|head| + off - 1] == Unlines(lines[1..])[off - 1];
      }
    }
  }

  /** Every line of `Unlines(lines)` is a line of the text: whatever starts
      one of the lines matches at a line start. */
  lemma LineMatches(lines: seq<string>, k: nat, prefix: string)
    requires k < |lines| && StartsWith(lines[k], prefix)
    ensures MatchesAtLineStart(Unlines(lines), prefix)
  {
    LineOffsetSuffix(lines, k);
    var text := Unlines(lines);
    var i := LineOffset(lines, k);
    assert text[i..] == lines[k] + "\n" + Unlines(lines[k + 1..]) by {
      assert lines[k..][1..] == lines[k + 1..];
    }
    assert StartsWith(text[i..], prefix);
  }

  lemma CharBeforeLineEnd(line: string, rest: string, i: int)
    ensures 0 < i <= |line| ==> (line + "\n" + rest)[i - 1] in line
  {
    if 0 < i <= |line| {
      assert (line + "\n" + rest)[i - 1] == line[i - 1];
    }
  }

  lemma PrefixBeforeNewline(line: string, rest: string, prefix: string)
    ensures StartsWith(line + "\n" + rest, prefix) && |prefix| > |line| ==> '\n' in prefix
  {
    var text := line + "\n" + rest;
    if StartsWith(text, prefix) && |prefix| > |line| {
      assert prefix[|line|] == text[|line|];
    }
  }

  /** Conversely, when no line and not the prefix holds a newline, a
      line-start match can only come from one of the lines. */
  lemma {:induction false} MatchAtLineIsLine(lines: seq<string>, prefix: string, i: nat)
    requires forall k :: 0 <= k < |lines| ==> '\n' !in lines[k]
    requires '\n' !in prefix && |prefix| > 0
    requires i <= |Unlines(lines)| && AtLineStart(Unlines(lines), i)
    requires StartsWith(Unlines(lines)[i..], prefix)
    ensures exists k :: 0 <= k < |lines| && StartsWith(lines[k], prefix)
  {
    var text := Unlines(lines);
    if |lines| == 0 {
      assert false;
    } else {
      var line := lines[0];
      var rest := Unlines(lines[1..]);
      assert text == line + "\n" + rest;
      if i <= |line| {
        CharBeforeLineEnd(line, rest, i);
        PrefixBeforeNewline(line, rest, prefix);
        assert text[..|prefix|] == line[..|prefix|];
        assert StartsWith(lines[0], prefix);
      } else {
        var j := i - |line| - 1;
        assert text[i..] == rest[j..];
        assert j == 0 || rest[j - 1] == text[i - 1];
        MatchAtLineIsLine(lines[1..], prefix, j);
        var k :| 0 <= k < |lines[1..]| && StartsWith(lines[1..][k], prefix);
        assert StartsWith(lines[k + 1], prefix);
      }
    }
  }

  /** With newline-free lines and prefix, `^prefix` matches the text exactly
      when one of the lines starts with the prefix. */
  lemma MatchesAtLineStartIff(lines: seq<string>, prefix: string)
    requires forall k :: 0 <= k < |lines| ==> '\n' !in lines[k]
    requires '\n' !in prefix && |prefix| > 0
    ensures MatchesAtLineStart(Unlines(lines), prefix)
        <==> exists k :: 0 <= k < |lines| && StartsWith(lines[k], prefix)
  {
    var text := Unlines(lines);
    if MatchesAtLineStart(text, prefix) {
      var i :| 0 <= i <= |text| && AtLineStart(text, i) && StartsWith(text[i..], prefix);
      MatchAtLineIsLine(lines, prefix, i);
    }
    if exists k :: 0 <= k < |lines| && StartsWith(lines[k], prefix) {
      var k :| 0 <= k < |lines| && StartsWith(lines[k], prefix);
      LineMatches(lines, k, prefix);
    }
  }

  // ---------------------------------------------------------------------
  // Decimal numbers

  /** The decimal digit for `d`. */
  function DigitChar(d: nat): (c: char)
    requires d < 10
    ensures IsDigit(c) && DigitValue(c) == d
  {
    (48 + d) as char
  }

  /** The value of a decimal digit. */
  function DigitValue(c: char): (d: nat)
    requires IsDigit(c)
    ensures d < 10
  {
    c as int - '0' as int
  }

  /** Plain decimal notation of `n`, as Ruby's `to_s` writes an Integer:
      only digits, and no leading zero unless `n` is zero. */
  function NatToString(n: nat): (s: string)
    ensures |s| >= 1
    ensures forall i :: 0 <= i < |s| ==> IsDigit(s[i])
    ensures s[0] == '0' <==> n == 0
    ensures n == 0 ==> s == "0"
    decreases n
  {
    if n < 10 then [DigitChar(n)] else NatToString(n / 10) + [DigitChar(n % 10)]
  }

  /** The value of a string of decimal digits. */
  function ParseDecimal(s: string): nat
    requires forall i :: 0 <= i < |s| ==> IsDigit(s[i])
  {
    if |s| == 0 then 0
    else 10 * ParseDecimal(s[..|s| - 1]) + DigitValue(s[|s| - 1])
  }

  /** Rendering a number and reading it back gives the number. */
  lemma {:induction false} ParseNatToString(n: nat)
    ensures ParseDecimal(NatToString(n)) == n
    decreases n
  {
    if n >= 10 {
      var s := NatToString(n);
      ParseNatToString(n / 10);
      assert s[..|s| - 1] == NatToString(n / 10);
    }
  }

  /** Different numbers render differently. */
  lemma NatToStringInjective(m: nat, n: nat)
    requires NatToString(m) == NatToString(n)
    ensures m == n
  {
    ParseNatToString(m);
    ParseNatToString(n);
  }

  /** Strings that differ `k` characters before their ends differ. */
  lemma EndsDiffer(s: string, t: string, k: nat)
    requires k < |s| && k < |t| && s[|s| - 1 - k] != t[|t| - 1 - k]
    ensures s != t
  {
  }
}
