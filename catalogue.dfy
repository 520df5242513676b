/** The part of a Puppet catalogue class `pow` produces: the classes it
    includes and the resources it declares, each with its attributes and the
    `require` and `notify` references that order the resources when the
    catalogue is applied. */
module Catalogue {
  import opened Wrappers

  /** The resource types class `pow` declares. */
  datatype Kind = File | Package | Service

  /** A resource reference such as `File[/etc/resolver]`: type and title. */
  datatype Ref = Ref(kind: Kind, title: string)

  /** The attributes class `pow` sets on its resources; `None` is an
      attribute left unset. */
  datatype Attrs = Attrs(
    ensure: Option<string>,
    mode: Option<string>,
    owner: Option<string>,
    group: Option<string>,
    content: Option<string>,
    target: Option<string>,
    provider: Option<string>)

  const NoAttrs: Attrs := Attrs(None, None, None, None, None, None, None)

  /** A declared resource. `require` lists what must be applied before it;
      `notify` what must be refreshed after it changes. */
  datatype Resource = Resource(
    kind: Kind,
    title: string,
    attrs: Attrs,
    require: seq<Ref>,
    notify: seq<Ref>)
  {
    function Id(): Ref {
      Ref(kind, title)
    }
  }

  datatype Catalogue = Catalogue(classes: set<string>, resources: seq<Resource>)

  /** Puppet refuses a catalogue that declares the same reference twice. */
  datatype DuplicateDeclaration = DuplicateDeclaration(ref: Ref)

  function Ids(rs: seq<Resource>): seq<Ref> {
    seq(|rs|, i requires 0 <= i < |rs| => rs[i].Id())
  }

  predicate Distinct(ids: seq<Ref>) {
    forall i, j :: 0 <= i < j < |ids| ==> ids[i] != ids[j]
  }

  /** The declarations are checked one by one against the references
      declared so far (`seen` at the start): the result is the first
      reference that is declared again, or `None` when none is. */
  function Redeclared(ids: seq<Ref>, seen: set<Ref>): (d: Option<Ref>)
    ensures d.None? <==> Distinct(ids) && forall i :: 0 <= i < |ids| ==> ids[i] !in seen
    ensures d.Some? ==> exists j :: 0 <= j < |ids| && ids[j] == d.value && (d.value in seen || d.value in ids[..j])
  {
    if |ids| == 0 then None
    else if ids[0] in seen then Some(ids[0])
    else
      var d := Redeclared(ids[1..], seen + {ids[0]});
      assert d.Some? ==> exists j :: 1 <= j < |ids| && ids[j] == d.value && (d.value in seen || d.value in ids[..j]) by {
        if d.Some? {
          var j :| 0 <= j < |ids[1..]| && ids[1..][j] == d.value && (d.value in seen + {ids[0]} || d.value in ids[1..][..j]);
          assert ids[1..][..j] == ids[1..j + 1];
          assert ids[j + 1] == d.value;
          assert d.value == ids[0] ==> d.value in ids[..j + 1];
        }
      }
      assert Distinct(ids) && (forall i :: 0 <= i < |ids| ==> ids[i] !in seen)
         <==> Distinct(ids[1..]) && forall i :: 0 <= i < |ids[1..]| ==> ids[1..][i] !in seen + {ids[0]} by {
        if Distinct(ids[1..]) && forall i :: 0 <= i < |ids[1..]| ==> ids[1..][i] !in seen + {ids[0]} {
          forall i, j | 0 <= i < j < |ids| ensures ids[i] != ids[j] {
            if i > 0 {
              assert ids[i] == ids[1..][i - 1] && ids[j] == ids[1..][j - 1];
            } else {
              assert ids[j] == ids[1..][j - 1];
            }
          }
        }
      }
      d
  }

  /** Declaration `j` repeats a reference: one in `seen` or one declared
      before it. */
  predicate RepeatAt(ids: seq<Ref>, seen: set<Ref>, j: nat)
    requires j < |ids|
  {
    ids[j] in seen || ids[j] in ids[..j]
  }

  /** The reference `Redeclared` reports is the first repetition: `j` is
      where it is declared again, and no declaration before `j` repeats. */
  lemma {:induction false} RedeclaredFirst(ids: seq<Ref>, seen: set<Ref>) returns (j: nat)
    requires Redeclared(ids, seen).Some?
    ensures j < |ids| && ids[j] == Redeclared(ids, seen).value && RepeatAt(ids, seen, j)
    ensures forall k :: 0 <= k < j ==> !RepeatAt(ids, seen, k)
  {
    if ids[0] in seen {
      j := 0;
    } else {
      var seen' := seen + {ids[0]};
      var j' := RedeclaredFirst(ids[1..], seen');
      j := j' + 1;
      assert ids[1..][j'] == ids[j];
      assert ids[..j] == [ids[0]] + ids[1..][..j'];
      forall k | 0 <= k < j ensures !RepeatAt(ids, seen, k) {
        if k > 0 {
          assert !RepeatAt(ids[1..], seen', k - 1);
          assert ids[1..][k - 1] == ids[k];
          assert ids[..k] == [ids[0]] + ids[1..][..k - 1];
        }
      }
    }
  }

  /** The catalogue of `classes` and `rs`, unless `rs` declares some
      reference twice: then the error names it. */
  function Assemble(classes: set<string>, rs: seq<Resource>): (r: Result<Catalogue, DuplicateDeclaration>)
    ensures r.Ok? <==> Distinct(Ids(rs))
    ensures r.Ok? ==> r.value.classes == classes && r.value.resources == rs
    ensures r.Err? ==> exists i, j :: 0 <= i < j < |rs| && rs[i].Id() == r.error.ref && rs[j].Id() == r.error.ref
  {
    var ids := Ids(rs);
    match Redeclared(ids, {})
    case Some(ref) =>
      assert exists i, j :: 0 <= i < j < |rs| && rs[i].Id() == ref && rs[j].Id() == ref by {
        var j :| 0 <= j < |ids| && ids[j] == ref && (ref in {} || ref in ids[..j]);
        var i :| 0 <= i < j && ids[..j][i] == ref;
        assert ids[i] == ref;
      }
      Err(DuplicateDeclaration(ref))
    case None => Ok(Catalogue(classes, rs))
  }

  /** The first resource declared as `r`, if any. */
  function Lookup(rs: seq<Resource>, r: Ref): (o: Option<Resource>)
    ensures o.None? <==> forall x :: x in rs ==> x.Id() != r
    ensures o.Some? ==> o.value in rs && o.value.Id() == r
  {
    if |rs| == 0 then None
    else if rs[0].Id() == r then Some(rs[0])
    else Lookup(rs[1..], r)
  }

  /** When no reference is declared twice, looking a resource up finds that
      very resource. */
  lemma {:induction false} LookupDistinct(rs: seq<Resource>, i: nat)
    requires Distinct(Ids(rs))
    requires i < |rs|
    ensures Lookup(rs, rs[i].Id()) == Some(rs[i])
  {
    if i > 0 {
      assert Ids(rs)[0] != Ids(rs)[i];
      assert Distinct(Ids(rs[1..])) by {
        forall a, b | 0 <= a < b < |rs| - 1 ensures Ids(rs[1..])[a] != Ids(rs[1..])[b] {
          assert Ids(rs)[a + 1] != Ids(rs)[b + 1];
        }
      }
      LookupDistinct(rs[1..], i - 1);
    }
  }

  /** `a` must be applied before `b`: `b` requires `a`, or `a` notifies `b`. */
  ghost predicate Edge(rs: seq<Resource>, a: Ref, b: Ref) {
    exists i :: 0 <= i < |rs| && (
      (a in rs[i].require && b == rs[i].Id()) || (a == rs[i].Id() && b in rs[i].notify))
  }

  /** A chain of references, each an `Edge` to the next. */
  ghost predicate Path(rs: seq<Resource>, p: seq<Ref>) {
    |p| >= 2 && forall i :: 0 <= i < |p| - 1 ==> Edge(rs, p[i], p[i + 1])
  }

  /** Every reference of `r` points forward in `level`: what it requires
      lies lower, what it notifies higher. */
  predicate Layered(level: Ref -> nat, r: Resource) {
    && (forall a :: a in r.require ==> level(a) < level(r.Id()))
    && (forall b :: b in r.notify ==> level(r.Id()) < level(b))
  }

  /** Layered resources only make edges that go up a level. */
  lemma EdgesClimb(rs: seq<Resource>, level: Ref -> nat, a: Ref, b: Ref)
    requires forall r :: r in rs ==> Layered(level, r)
    requires Edge(rs, a, b)
    ensures level(a) < level(b)
  {
    var i :| 0 <= i < |rs| && (
      (a in rs[i].require && b == rs[i].Id()) || (a == rs[i].Id() && b in rs[i].notify));
    assert Layered(level, rs[i]);
  }

  /** Along a chain of layered resources the level only goes up, so no
      chain returns to where it started: the references are free of
      cycles and an order to apply them in exists. */
  lemma {:induction false} NoCycle(rs: seq<Resource>, level: Ref -> nat, p: seq<Ref>)
    requires forall r :: r in rs ==> Layered(level, r)
    requires Path(rs, p)
    ensures level(p[0]) < level(p[|p| - 1])
    ensures p[0] != p[|p| - 1]
    decreases |p|
  {
    EdgesClimb(rs, level, p[0], p[1]);
    if |p| > 2 {
      assert Path(rs, p[1..]) by {
        forall i | 0 <= i < |p[1..]| - 1 ensures Edge(rs, p[1..][i], p[1..][i + 1]) {
          assert p[1..][i] == p[i + 1] && p[1..][i + 1] == p[i + 2];
        }
      }
      NoCycle(rs, level, p[1..]);
    }
  }

  /** A reference none of three runs of resources declares is not declared
      by the three together. */
  lemma NotDeclaredInConcat(a: seq<Resource>, b: seq<Resource>, c: seq<Resource>, r: Ref)
    requires forall x :: x in a ==> x.Id() != r
    requires forall x :: x in b ==> x.Id() != r
    requires forall x :: x in c ==> x.Id() != r
    ensures forall x :: x in a + b + c ==> x.Id() != r
  {
  }

  /** Three runs of layered resources are layered together. */
  lemma LayeredConcat(level: Ref -> nat, a: seq<Resource>, b: seq<Resource>, c: seq<Resource>)
    requires forall x :: x in a ==> Layered(level, x)
    requires forall x :: x in b ==> Layered(level, x)
    requires forall x :: x in c ==> Layered(level, x)
    ensures forall x :: x in a + b + c ==> Layered(level, x)
  {
  }

  /** Two runs that each declare no reference twice, and share none, declare
      no reference twice together. */
  lemma DistinctAppend(a: seq<Resource>, b: seq<Resource>)
    requires Distinct(Ids(a)) && Distinct(Ids(b))
    requires forall x, y :: x in a && y in b ==> x.Id() != y.Id()
    ensures Distinct(Ids(a + b))
  {
    var s := a + b;
    forall i, j | 0 <= i < j < |s| ensures Ids(s)[i] != Ids(s)[j] {
      if j < |a| {
        assert Ids(a)[i] != Ids(a)[j];
      } else if i < |a| {
        assert s[i] in a && s[j] in b;
      } else {
        assert Ids(b)[i - |a|] != Ids(b)[j - |a|];
      }
    }
  }

  /** Two resources declared as the same reference make the declarations
      not distinct. */
  lemma Clash(rs: seq<Resource>, i: nat, j: nat)
    requires i < j < |rs| && rs[i].Id() == rs[j].Id()
    ensures !Distinct(Ids(rs))
  {
    assert Ids(rs)[i] == Ids(rs)[j];
  }

  /** A run that declares some reference twice still does so between two
      other runs. */
  lemma ClashWithin(a: seq<Resource>, b: seq<Resource>, c: seq<Resource>)
    requires !Distinct(Ids(b))
    ensures !Distinct(Ids(a + b + c))
  {
    var i, j :| 0 <= i < j < |Ids(b)| && Ids(b)[i] == Ids(b)[j];
    var s := a + b + c;
    assert s[|a| + i] == b[i] && s[|a| + j] == b[j];
    Clash(s, |a| + i, |a| + j);
  }
}
