/** Names in byte order, as the renderer and the hash list them. */
module ConfigOrder {

  predicate Before(a: string, b: string)
  {
    b != "" && (a == "" || a[0] < b[0] || (a[0] == b[0] && Before(a[1..], b[1..])))
  }

  lemma {:induction false} BeforeTotal(a: string, b: string)
    requires a != b
    ensures Before(a, b) || Before(b, a)
  {
    if a != "" && b != "" && a[0] == b[0] {
      assert a == [a[0]] + a[1..] && b == [b[0]] + b[1..];
      BeforeTotal(a[1..], b[1..]);
    }
  }

  lemma {:induction false} BeforeTransitive(a: string, b: string, c: string)
    requires Before(a, b) && Before(b, c)
    ensures Before(a, c)
  {
    if a != "" && a[0] == b[0] == c[0] { BeforeTransitive(a[1..], b[1..], c[1..]); }
  }

  lemma {:induction false} BeforeIrreflexive(a: string)
    ensures !Before(a, a)
  {
    if a != "" { BeforeIrreflexive(a[1..]); }
  }

  /** Byte order, said without recursion: a prefix, or smaller where the two first differ. */
  ghost predicate AtMost(a: string, b: string)
  {
    a <= b || exists n | 0 <= n < |a| && n < |b| :: a[..n] == b[..n] && a[n] < b[n]
  }

  lemma {:induction false} NotAfter(a: string, b: string)
    requires !Before(b, a)
    ensures AtMost(a, b)
  {
    if a != "" {
      assert b != "" && a[0] <= b[0];
      if a[0] < b[0] {
        assert a[..0] == b[..0];
      } else {
        NotAfter(a[1..], b[1..]);
        assert a == [a[0]] + a[1..] && b == [b[0]] + b[1..];
        AtMostCons(a[0], a[1..], b[1..]);
      }
    }
  }

  lemma AtMostCons(c: char, a: string, b: string)
    requires AtMost(a, b)
    ensures AtMost([c] + a, [c] + b)
  {
    if !(a <= b) {
      var n :| 0 <= n < |a| && n < |b| && a[..n] == b[..n] && a[n] < b[n];
      assert ([c] + a)[..n + 1] == [c] + a[..n] && ([c] + b)[..n + 1] == [c] + b[..n];
      assert ([c] + a)[n + 1] < ([c] + b)[n + 1];
    }
  }

  ghost predicate Ascending(ks: seq<string>) { forall i, j | 0 <= i < j < |ks| :: Before(ks[i], ks[j]) }

  function Elements(ks: seq<string>): set<string> { set k | k in ks }

  function Insert(ks: seq<string>, k: string): seq<string>
  {
    if ks == [] then [k] else if Before(k, ks[0]) then [k] + ks else [ks[0]] + Insert(ks[1..], k)
  }

  lemma {:induction false} InsertElements(ks: seq<string>, k: string)
    ensures forall x :: x in Insert(ks, k) <==> x in ks || x == k
  {
    if ks != [] && !Before(k, ks[0]) {
      InsertElements(ks[1..], k);
      assert ks == [ks[0]] + ks[1..];
    }
  }

  lemma InsertAdds(ks: seq<string>, k: string)
    ensures Elements(Insert(ks, k)) == Elements(ks) + {k}
  {
    InsertElements(ks, k);
  }

  lemma AscendingCons(k: string, rest: seq<string>)
    requires Ascending(rest) && forall x | x in rest :: Before(k, x)
    ensures Ascending([k] + rest)
  {
  }

  lemma AscendingTail(ks: seq<string>)
    requires Ascending(ks) && ks != []
    ensures Ascending(ks[1..]) && forall x | x in ks[1..] :: Before(ks[0], x)
  {
    var t := ks[1..];
    forall i, j | 0 <= i < j < |t| ensures Before(t[i], t[j]) { assert t[i] == ks[i + 1] && t[j] == ks[j + 1]; }
    forall x | x in t ensures Before(ks[0], x) { var i :| 0 <= i < |t| && t[i] == x; assert ks[i + 1] == x; }
  }

  lemma {:induction false} InsertAscending(ks: seq<string>, k: string)
    requires Ascending(ks) && k !in ks
    ensures Ascending(Insert(ks, k))
  {
    if ks != [] {
      AscendingTail(ks);
      if Before(k, ks[0]) {
        forall x | x in ks ensures Before(k, x) {
          if x != ks[0] { assert ks == [ks[0]] + ks[1..]; BeforeTransitive(k, ks[0], x); }
        }
        AscendingCons(k, ks);
      } else {
        InsertAscending(ks[1..], k);
        InsertElements(ks[1..], k);
        BeforeTotal(k, ks[0]);
        AscendingCons(ks[0], Insert(ks[1..], k));
      }
    }
  }

  // ------------------------------------------------------------ lists that may repeat a name

  ghost predicate NonDescending(ks: seq<string>) { forall i, j | 0 <= i < j < |ks| :: !Before(ks[j], ks[i]) }

  lemma NonDescendingCons(k: string, rest: seq<string>)
    requires NonDescending(rest) && forall x | x in rest :: !Before(x, k)
    ensures NonDescending([k] + rest)
  {
  }

  lemma NonDescendingTail(ks: seq<string>)
    requires NonDescending(ks) && ks != []
    ensures NonDescending(ks[1..]) && forall x | x in ks[1..] :: !Before(x, ks[0])
  {
    var t := ks[1..];
    forall i, j | 0 <= i < j < |t| ensures !Before(t[j], t[i]) { assert t[i] == ks[i + 1] && t[j] == ks[j + 1]; }
    forall x | x in t ensures !Before(x, ks[0]) { var i :| 0 <= i < |t| && t[i] == x; assert ks[i + 1] == x; }
  }

  lemma {:induction false} InsertNonDescending(ks: seq<string>, k: string)
    requires NonDescending(ks)
    ensures NonDescending(Insert(ks, k))
  {
    if ks != [] {
      NonDescendingTail(ks);
      if Before(k, ks[0]) {
        forall x | x in ks ensures !Before(x, k) {
          assert ks == [ks[0]] + ks[1..];
          BeforeIrreflexive(ks[0]);
          if Before(x, k) { BeforeTransitive(x, k, ks[0]); }
        }
        NonDescendingCons(k, ks);
      } else {
        InsertNonDescending(ks[1..], k);
        InsertElements(ks[1..], k);
        NonDescendingCons(ks[0], Insert(ks[1..], k));
      }
    }
  }

  // ------------------------------------------------------------ sets

  /** The set listed in ascending order. */
  ghost predicate Lists(ks: seq<string>, s: set<string>) { Ascending(ks) && Elements(ks) == s }

  ghost function Sorted(s: set<string>): (ks: seq<string>)
    ensures Lists(ks, s)
  {
    if s == {} then []
    else
      var k :| k in s;
      var rest := Sorted(s - {k});
      assert k !in Elements(rest);
      InsertAscending(rest, k);
      InsertAdds(rest, k);
      Insert(rest, k)
  }

  lemma HasElement(ks: seq<string>)
    requires ks != []
    ensures Elements(ks) != {}
  {
    assert ks[0] in Elements(ks);
  }

  lemma SameHead(a: seq<string>, b: seq<string>)
    requires Ascending(a) && Ascending(b) && Elements(a) == Elements(b) && a != []
    ensures b != [] && a[0] == b[0] && Elements(a[1..]) == Elements(b[1..])
  {
    assert a[0] in Elements(b);
    assert b[0] in Elements(a);
    AscendingTail(a);
    AscendingTail(b);
    assert a == [a[0]] + a[1..] && b == [b[0]] + b[1..];
    if a[0] != b[0] { BeforeTransitive(a[0], b[0], a[0]); }
    BeforeIrreflexive(a[0]);
    forall x ensures x in Elements(a[1..]) <==> x in Elements(b[1..]) {
      assert x in Elements(a[1..]) <==> x in Elements(a) && x != a[0];
      assert x in Elements(b[1..]) <==> x in Elements(b) && x != b[0];
    }
  }

  /** A set has one ascending listing. */
  lemma {:induction false} OneListing(a: seq<string>, b: seq<string>)
    requires Ascending(a) && Ascending(b) && Elements(a) == Elements(b)
    ensures a == b
  {
    if b != [] { HasElement(b); }
    if a != [] {
      SameHead(a, b);
      AscendingTail(a);
      AscendingTail(b);
      OneListing(a[1..], b[1..]);
      assert a == [a[0]] + a[1..] && b == [b[0]] + b[1..];
    }
  }

  method SortKeys(s: set<string>) returns (ks: seq<string>)
    ensures ks == Sorted(s)
  {
    ks := [];
    var left := s;
    while left != {}
      invariant left <= s && Ascending(ks) && Elements(ks) == s - left
    {
      var k :| k in left;
      assert k !in Elements(ks);
      InsertAscending(ks, k);
      InsertAdds(ks, k);
      ks := Insert(ks, k);
      left := left - {k};
    }
    OneListing(ks, Sorted(s));
  }
}
