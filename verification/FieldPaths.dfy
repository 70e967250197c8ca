/**
  Claimed-field sets as tries, the way structured-merge-diff stores a managedFields entry,
  and the walk that decides whether a set covers a path.
 */
module FieldPaths {

  datatype PathElement = FieldName(name: string) | KeyedItem(key: string) | ValueItem(value: string) | Index(i: int)

  type Path = seq<PathElement>

  /** `members` end a claimed path here; `children` lead to longer ones. */
  datatype FieldSet = FieldSet(members: set<PathElement>, children: map<PathElement, FieldSet>)

  const EMPTY_SET := FieldSet({}, map[])

  /** `p` itself is claimed. */
  predicate Has(s: FieldSet, p: Path)
    decreases |p|
  {
    if |p| == 0 then false
    else if |p| == 1 then p[0] in s.members
    else p[0] in s.children && Has(s.children[p[0]], p[1..])
  }

  predicate Empty(s: FieldSet)
  {
    s.members == {} && forall pe | pe in s.children :: Empty(s.children[pe])
  }

  /** `s` claims `p` or something below it. */
  ghost predicate Claims(s: FieldSet, p: Path)
  {
    exists q: Path :: Has(s, q) && p <= q
  }

  lemma {:induction false} HasBelow(s: FieldSet, pe: PathElement, q: Path)
    requires pe in s.children && Has(s.children[pe], q)
    ensures Has(s, [pe] + q)
  {
    assert q != [] && ([pe] + q)[1..] == q;
  }

  /** A trie is empty exactly when it claims nothing at all. */
  lemma {:induction false} EmptyIff(s: FieldSet)
    ensures Empty(s) <==> !exists q: Path :: Has(s, q)
    decreases s
  {
    if Empty(s) {
      forall q: Path ensures !Has(s, q) {
        if |q| > 1 && q[0] in s.children {
          assert Empty(s.children[q[0]]);
          EmptyIff(s.children[q[0]]);
          assert !Has(s.children[q[0]], q[1..]);
        }
      }
    } else if s.members != {} {
      var pe :| pe in s.members;
      assert Has(s, [pe]);
      assert exists q: Path :: Has(s, q);
    } else {
      var pe :| pe in s.children && !Empty(s.children[pe]);
      EmptyIff(s.children[pe]);
      var q: Path :| Has(s.children[pe], q);
      HasBelow(s, pe, q);
      assert exists q: Path :: Has(s, q);
    }
  }

  /** The subtree `p` leads to, or the empty set when the walk falls off the trie. */
  function Below(s: FieldSet, p: Path): FieldSet
    decreases |p|
  {
    if p == [] then s
    else if p[0] in s.children then Below(s.children[p[0]], p[1..])
    else EMPTY_SET
  }

  lemma {:induction false} HasThrough(s: FieldSet, p: Path, q: Path)
    requires q != []
    ensures Has(s, p + q) <==> Has(Below(s, p), q)
    decreases |p|
  {
    if p == [] {
      assert p + q == q;
    } else {
      assert (p + q)[1..] == p[1..] + q && (p + q)[0] == p[0];
      if p[0] in s.children { HasThrough(s.children[p[0]], p[1..], q); }
    }
  }

  /** A claim on an ancestor alone never counts; a claim on `p` or below always does. */
  lemma ClaimsIff(s: FieldSet, p: Path)
    ensures Claims(s, p) <==> Has(s, p) || !Empty(Below(s, p))
  {
    EmptyIff(Below(s, p));
    if Claims(s, p) {
      var q: Path :| Has(s, q) && p <= q;
      if q != p {
        assert q == p + q[|p|..];
        HasThrough(s, p, q[|p|..]);
      }
    }
    if !Empty(Below(s, p)) {
      var q: Path :| Has(Below(s, p), q);
      HasThrough(s, p, q);
      assert p <= p + q;
    }
  }

  method Covers(s: FieldSet, p: Path) returns (b: bool)
    ensures b <==> Claims(s, p)
  {
    ClaimsIff(s, p);
    if Has(s, p) { return true; }
    var at := s;
    for i := 0 to |p|
      invariant Below(s, p) == Below(at, p[i..])
    {
      assert p[i..][1..] == p[i + 1..];
      if p[i] !in at.children { return false; }
      at := at.children[p[i]];
    }
    return !Empty(at);
  }

  ghost predicate Enumerates(ps: seq<Path>, s: FieldSet)
  {
    forall p :: p in ps <==> Has(s, p)
  }

  /** Every claimed path, in some order. */
  method Iterate(s: FieldSet) returns (ps: seq<Path>)
    ensures Enumerates(ps, s)
    decreases s
  {
    ps := [];
    var rest := s.members;
    while rest != {}
      invariant rest <= s.members
      invariant forall p :: p in ps <==> |p| == 1 && p[0] in s.members - rest
      decreases rest
    {
      var pe :| pe in rest;
      ghost var before := ps;
      ps := ps + [[pe]];
      rest := rest - {pe};
      forall p ensures p in ps <==> |p| == 1 && p[0] in s.members - rest {
        assert p in ps <==> p in before || p == [pe];
      }
    }
    var keys := s.children.Keys;
    while keys != {}
      invariant keys <= s.children.Keys
      invariant forall p :: p in ps <==> Has(s, p) && (|p| == 1 || p[0] !in keys)
      decreases keys
    {
      var pe :| pe in keys;
      var below := Iterate(s.children[pe]);
      ghost var before := ps;
      var lifted := Prepend(pe, below);
      ps := ps + lifted;
      keys := keys - {pe};
      forall p ensures p in ps <==> Has(s, p) && (|p| == 1 || p[0] !in keys) {
        assert p in ps <==> p in before || p in lifted;
        if |p| > 1 && p[0] == pe { assert p == [pe] + p[1..]; }
      }
    }
  }

  function Prepend(pe: PathElement, ps: seq<Path>): (r: seq<Path>)
    ensures forall p :: p in r <==> |p| > 0 && p[0] == pe && p[1..] in ps
  {
    if ps == [] then []
    else
      var r := [[pe] + ps[0]] + Prepend(pe, ps[1..]);
      assert forall p | |p| > 0 && p[0] == pe && p[1..] == ps[0] :: p == [pe] + ps[0];
      r
  }
}
