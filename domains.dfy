/** The `domains` parameter of class `pow` is one comma-separated string
    (`"dev,pow, local"`). Split into a list it decides how many resolver files
    the class declares and what the proxy site's `server_name` line says. */
module Domains {
  import opened Text

  /** What a split domain looks like: non-empty, without a comma and without
      whitespace at either end. */
  predicate IsDomainToken(d: string) {
    |d| > 0 && ',' !in d && NoEdgeSpace(d)
  }

  /** Trims every piece and drops the pieces that trimming leaves empty,
      keeping the order of the others. */
  function TrimPieces(pieces: seq<string>): (ds: seq<string>)
    ensures |ds| <= |pieces|
    ensures forall i :: 0 <= i < |ds| ==> |ds[i]| > 0 && NoEdgeSpace(ds[i])
  {
    if |pieces| == 0 then []
    else
      var t := Trim(pieces[0]);
      (if |t| == 0 then [] else [t]) + TrimPieces(pieces[1..])
  }

  /** No piece that trimming leaves non-empty is dropped. */
  lemma {:induction false} TrimPiecesKeeps(pieces: seq<string>, j: nat)
    requires j < |pieces| && |Trim(pieces[j])| > 0
    ensures Trim(pieces[j]) in TrimPieces(pieces)
  {
    var p, rest := pieces[0], pieces[1..];
    assert pieces == [p] + rest;
    var head := if |Trim(p)| == 0 then [] else [Trim(p)];
    TrimPiecesCons(p, rest);
    if j == 0 {
      assert TrimPieces(pieces) == [Trim(p)] + TrimPieces(rest);
    } else {
      assert rest[j - 1] == pieces[j];
      TrimPiecesKeeps(rest, j - 1);
      assert TrimPieces(pieces) == head + TrimPieces(rest);
    }
  }

  /** Every domain kept is a trimmed piece: `j` is the piece it comes from. */
  lemma {:induction false} TrimPiecesSource(pieces: seq<string>, d: string) returns (j: nat)
    requires d in TrimPieces(pieces)
    ensures j < |pieces| && d == Trim(pieces[j])
  {
    var p, rest := pieces[0], pieces[1..];
    assert pieces == [p] + rest;
    TrimPiecesCons(p, rest);
    if |Trim(p)| > 0 && d == Trim(p) {
      j := 0;
    } else {
      assert d in TrimPieces(rest);
      var j' := TrimPiecesSource(rest, d);
      j := j' + 1;
      assert rest[j'] == pieces[j];
    }
  }

  /** The domain list: the pieces between commas, trimmed, empty ones
      dropped, in their original order, duplicates kept. */
  function SplitDomains(s: string): (ds: seq<string>)
    ensures forall i :: 0 <= i < |ds| ==> IsDomainToken(ds[i])
  {
    var pieces := SplitOn(s, ',');
    var ds := TrimPieces(pieces);
    assert forall i :: 0 <= i < |ds| ==> ',' !in ds[i] by {
      forall i | 0 <= i < |ds| ensures ',' !in ds[i] {
        var j := TrimPiecesSource(pieces, ds[i]);
        TrimSubset(pieces[j], ',');
      }
    }
    ds
  }

  /** Pieces that are already domain tokens come through unchanged. */
  lemma {:induction false} TrimPiecesOfTokens(ds: seq<string>)
    requires forall i :: 0 <= i < |ds| ==> IsDomainToken(ds[i])
    ensures TrimPieces(ds) == ds
  {
    if |ds| > 0 {
      TrimPiecesOfTokens(ds[1..]);
      assert [ds[0]] + ds[1..] == ds;
    }
  }

  /** Writing a list of domains as a comma string and splitting it again
      gives back the list. */
  lemma SplitDomainsJoin(ds: seq<string>)
    requires |ds| >= 1
    requires forall i :: 0 <= i < |ds| ==> IsDomainToken(ds[i])
    ensures SplitDomains(Join(ds, ",")) == ds
  {
    SplitOnJoin(ds, ',');
    TrimPiecesOfTokens(ds);
  }

  /** Splitting keeps order: the domains before the first comma come first,
      followed by the domains of the rest. */
  lemma {:induction false} SplitDomainsAppend(a: string, b: string)
    requires ',' !in a
    ensures SplitDomains(a + "," + b) == SplitDomains(a) + SplitDomains(b)
  {
    var rest := SplitOn(b, ',');
    var head := if |Trim(a)| == 0 then [] else [Trim(a)];
    assert a + "," + b == a + [','] + b;
    SplitOnFirstSep(a, b, ',');
    assert SplitOn(a + "," + b, ',') == [a] + rest;
    TrimPiecesCons(a, rest);
    assert SplitDomains(a + "," + b) == head + TrimPieces(rest);
    SplitDomainsSingle(a);
  }

  lemma TrimPiecesCons(p: string, rest: seq<string>)
    ensures TrimPieces([p] + rest)
         == (if |Trim(p)| == 0 then [] else [Trim(p)]) + TrimPieces(rest)
  {
    assert ([p] + rest)[1..] == rest;
  }

  /** A string without a comma is one domain once trimmed, or none if it is
      only whitespace. */
  lemma SplitDomainsSingle(a: string)
    requires ',' !in a
    ensures SplitDomains(a) == if |Trim(a)| == 0 then [] else [Trim(a)]
  {
    SplitOnNoSep(a, ',');
  }
}
