/** How any line of a postgresql.conf is read: white space, comments, quotes and letter case, spelled out. */
module ConfigLines {
  import opened Options
  import opened ConfigText
  import opened ConfigParse

  // ------------------------------------------------------------ white space

  predicate Blank(s: string) { forall i | 0 <= i < |s| :: IsSpace(s[i]) }

  lemma {:induction false} TrimLeftPadded(a: string, s: string)
    requires Blank(a) && (s == "" || !IsSpace(s[0]))
    ensures TrimLeft(a + s) == s
  {
    if a == "" {
      assert a + s == s;
    } else {
      assert (a + s)[0] == a[0] && (a + s)[1..] == a[1..] + s;
      TrimLeftPadded(a[1..], s);
    }
  }

  lemma {:induction false} TrimRightPadded(s: string, b: string)
    requires Blank(b) && (s == "" || !IsSpace(s[|s| - 1]))
    ensures TrimRight(s + b) == s
  {
    var t, n := s + b, |b| - 1;
    if b == "" {
      assert t == s;
    } else {
      assert t[|t| - 1] == b[n] && t[..|t| - 1] == s + b[..n];
      TrimRightPadded(s, b[..n]);
    }
  }

  /** Trimming takes the white space at both ends, all of it and nothing else. */
  lemma TrimPadded(a: string, s: string, b: string)
    requires Blank(a) && Tight(s) && Blank(b)
    ensures Trim(a + s + b) == s
  {
    if s == "" {
      assert a + s + b == (a + b) + "";
      TrimLeftPadded(a + b, "");
    } else {
      assert a + s + b == a + (s + b);
      TrimLeftPadded(a, s + b);
      TrimRightPadded(s, b);
    }
  }

  // ------------------------------------------------------------ letter case

  /** Exactly the capitals of the Latin alphabet are folded. */
  lemma LowerCharIs(c: char)
    ensures 'A' <= c <= 'Z' ==> LowerChar(c) as int - 'a' as int == c as int - 'A' as int
    ensures !('A' <= c <= 'Z') ==> LowerChar(c) == c
  {
  }

  // ------------------------------------------------------------ comments

  /** The text holds an odd number of single quotes. */
  predicate Odd(s: string)
  {
    s != "" && (Odd(s[..|s| - 1]) != (s[|s| - 1] == '\''))
  }

  /** A comment sign with every quote before it closed; `open` counts a quote before the text. */
  predicate CommentAt(s: string, i: nat, open: bool)
  {
    i < |s| && s[i] == '#' && Odd(s[..i]) == open
  }

  lemma {:induction false} OddOfConcat(a: string, b: string)
    ensures Odd(a + b) == (Odd(a) != Odd(b))
  {
    if b == "" {
      assert a + b == a;
    } else {
      assert (a + b)[..|a + b| - 1] == a + b[..|b| - 1];
      OddOfConcat(a, b[..|b| - 1]);
    }
  }

  lemma CommentAfter(head: string, rest: string, i: nat, open: bool)
    ensures CommentAt(head + rest, |head| + i, open) <==>
            CommentAt(rest, i, Odd(head) != open)
  {
    if i < |rest| {
      assert (head + rest)[|head| + i] == rest[i] && (head + rest)[..|head| + i] == head + rest[..i];
      OddOfConcat(head, rest[..i]);
    }
  }

  /** The stripped text ends at the first comment sign outside quotes, or with the text. */
  ghost predicate CutAt(s: string, n: nat, open: bool)
  {
    n <= |s| && (n < |s| ==> CommentAt(s, n, open)) && forall i: nat | i < n :: !CommentAt(s, i, open)
  }

  lemma CutAfter(head: string, rest: string, n: nat, open: bool)
    requires '#' !in head || (head == "#" && open)
    requires CutAt(rest, n, Odd(head) != open)
    ensures CutAt(head + rest, |head| + n, open)
  {
    CommentAfter(head, rest, n, open);
    forall i: nat | i < |head| + n ensures !CommentAt(head + rest, i, open) {
      if i < |head| { assert (head + rest)[..i] == head[..i] && (head + rest)[i] in head; }
      else { CommentAfter(head, rest, i - |head|, open); }
    }
  }

  lemma OddOfOne(c: char)
    ensures Odd([c]) <==> c == '\''
  {
    assert [c][..0] == "";
  }

  lemma {:induction false} StripCuts(s: string, open: bool)
    ensures CutAt(s, |Strip(s, open)|, open) && Strip(s, open) == s[..|Strip(s, open)|]
  {
    StripIsPrefix(s, open);
    if s == "" {
    } else if s[0] == '\'' && open && |s| > 1 && s[1] == '\'' {
      StripCuts(s[2..], true);
      OddOfOne('\'');
      assert "''" == "'" + "'";
      OddOfConcat("'", "'");
      assert s == "''" + s[2..];
      CutAfter("''", s[2..], |Strip(s[2..], true)|, open);
    } else if s[0] == '#' && !open {
      assert s[..0] == "";
    } else {
      var next := if s[0] == '\'' then !open else open;
      StripCuts(s[1..], next);
      OddOfOne(s[0]);
      assert s == [s[0]] + s[1..];
      CutAfter([s[0]], s[1..], |Strip(s[1..], next)|, open);
    }
  }

  // ------------------------------------------------------------ a whole line

  /** No comment sign in the text is outside quotes, and every quote is closed. */
  ghost predicate SelfContained(s: string) { !Odd(s) && forall i: nat | i < |s| :: !CommentAt(s, i, false) }

  lemma OneCut(s: string, m: nat, n: nat)
    requires CutAt(s, m, false) && CutAt(s, n, false)
    ensures m == n
  {
  }

  /** A self-contained value is all there is before a comment. */
  lemma StripsTo(value: string, comment: string)
    requires SelfContained(value) && (comment == "" || comment[0] == '#')
    ensures Strip(value + comment, false) == value
  {
    var s := value + comment;
    StripCuts(s, false);
    if comment != "" { CommentAfter(value, comment, 0, false); assert comment[..0] == ""; }
    forall i: nat | i < |value| ensures !CommentAt(s, i, false) {
      assert s[..i] == value[..i] && s[i] == value[i];
      assert !CommentAt(value, i, false);
    }
    OneCut(s, |value|, |Strip(s, false)|);
    assert s[..|value|] == value;
  }

  lemma FirstEqualsAt(name: string, rest: string)
    requires '=' !in name
    ensures FirstEquals(name + "=" + rest) == |name|
  {
    var t := name + "=" + rest;
    var e := FirstEquals(t);
    assert t[|name|] == '=';
    assert forall i | 0 <= i < |name| :: t[i] == name[i];
    assert forall i | 0 <= i < e :: t[i] == t[..e][i];
  }

  /** A written line: white space, a name, white space, `=`, the rest. */
  lemma AssignmentReads(name: string, gap: string, rest: string)
    requires Tight(name) && name != "" && name[0] != '#' && '=' !in name && Blank(gap)
    ensures Assignment(name + gap + "=" + rest) == Some(Setting(Lower(name), Trim(Strip(rest, false))))
  {
    var t := name + gap + "=" + rest;
    assert '=' !in name + gap by { SpacesHoldNoEquals(gap); }
    FirstEqualsAt(name + gap, rest);
    assert t[0] == name[0] && t[..|name + gap|] == name + gap && t[|name + gap| + 1..] == rest;
    TrimPadded("", name, gap);
    assert "" + name + gap == name + gap;
  }

  lemma SpacesHoldNoEquals(gap: string)
    requires Blank(gap)
    ensures '=' !in gap
  {
  }

  /**
    Every assignment is read the same however it is laid out: the name folded to lower
    case, the value without the white space around it and without the comment after it.
   */
  lemma LineReads(a: string, name: string, b: string, c: string, value: string, d: string, comment: string, z: string)
    requires Blank(a) && Blank(b) && Blank(c) && Blank(d) && Blank(z)
    requires Tight(name) && name != "" && name[0] != '#' && '=' !in name
    requires Tight(value) && value != "" && SelfContained(value)
    requires Tight(comment) && (comment == "" || comment[0] == '#') && (comment == "" ==> d == "")
    ensures LineSetting(a + (name + b + "=" + (c + value + d + comment)) + z) == Some(Setting(Lower(name), value))
  {
    var rest := c + value + d + comment;
    var t := name + b + "=" + rest;
    assert Tight(t) by {
      assert t[0] == name[0];
      assert t[|t| - 1] == if comment != "" then comment[|comment| - 1] else value[|value| - 1];
    }
    TrimPadded(a, t, z);
    AssignmentReads(name, b, rest);
    PaddedIsSelfContained(c, value, d);
    StripsTo(c + value + d, comment);
    TrimPadded(c, value, d);
  }

  lemma {:induction false} BlankHasNoQuotes(s: string)
    requires Blank(s)
    ensures !Odd(s) && '#' !in s
  {
    if s != "" { BlankHasNoQuotes(s[..|s| - 1]); assert s == s[..|s| - 1] + [s[|s| - 1]]; }
  }

  lemma PaddedIsSelfContained(c: string, value: string, d: string)
    requires Blank(c) && Blank(d) && SelfContained(value)
    ensures SelfContained(c + value + d)
  {
    var s := c + value + d;
    BlankHasNoQuotes(c);
    BlankHasNoQuotes(d);
    OddOfConcat(c, value);
    OddOfConcat(c + value, d);
    forall i: nat | i < |s| ensures !CommentAt(s, i, false) {
      if i < |c| { assert s[i] == c[i]; }
      else if i < |c| + |value| {
        CommentAfter(c, value + d, i - |c|, false);
        assert s == c + (value + d);
        assert (value + d)[..i - |c|] == value[..i - |c|] && (value + d)[i - |c|] == value[i - |c|];
        assert !CommentAt(value, i - |c|, false);
      } else { assert s[i] == d[i - |c| - |value|]; }
    }
  }

  /** A line assigns nothing exactly when it is blank, a comment, or has no name before its first `=`. */
  lemma IdleIff(line: string)
    ensures LineSetting(line).None? <==>
            var t := Trim(line);
            t == "" || t[0] == '#' || '=' !in t || Blank(t[..FirstEquals(t)])
  {
    var t := Trim(line);
    var e := FirstEquals(t);
    assert e < |t| ==> t[e] in t;
    assert e == |t| ==> t[..e] == t;
    EmptyTrimIff(t[..e]);
  }

  lemma EmptyTrimIff(s: string)
    ensures Lower(Trim(s)) == "" <==> Blank(s)
  {
    if Blank(s) { TrimPadded(s, "", ""); assert s + "" + "" == s; } else { TrimKeeps(s); }
  }

  lemma {:induction false} TrimKeeps(s: string)
    requires !Blank(s)
    ensures Trim(s) != ""
  {
    KeepsLeft(s);
    KeepsRight(TrimLeft(s));
  }

  lemma {:induction false} KeepsLeft(s: string)
    requires !Blank(s)
    ensures !Blank(TrimLeft(s))
  {
    if IsSpace(s[0]) {
      assert s == [s[0]] + s[1..];
      KeepsLeft(s[1..]);
    }
  }

  lemma {:induction false} KeepsRight(s: string)
    requires !Blank(s)
    ensures TrimRight(s) != ""
  {
    if IsSpace(s[|s| - 1]) {
      assert s == s[..|s| - 1] + [s[|s| - 1]];
      KeepsRight(s[..|s| - 1]);
    }
  }

  /** A value written without quotes stands for itself. */
  lemma BareValueIsItself(value: string)
    requires Tight(value) && !(|value| >= 2 && value[0] == '\'' && value[|value| - 1] == '\'')
    ensures Unquote(value) == value
  {
    TrimTight(value);
  }
}
