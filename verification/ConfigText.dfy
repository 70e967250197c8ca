/** The text of a postgresql.conf: lines, white space, quoting and inline comments. */
module ConfigText {

  // ------------------------------------------------------------ lines

  /** The text split at every newline. */
  function Lines(s: string): (r: seq<string>)
    ensures |r| >= 1
  {
    if s == "" then [""]
    else
      var rest := Lines(s[1..]);
      if s[0] == '\n' then [""] + rest else [[s[0]] + rest[0]] + rest[1..]
  }

  lemma {:induction false} NoNewlineInside(s: string, i: nat)
    requires i < |Lines(s)|
    ensures '\n' !in Lines(s)[i]
  {
    if s != "" {
      NoNewlineInside(s[1..], if s[0] == '\n' && i > 0 then i - 1 else if s[0] == '\n' then 0 else i);
    }
  }

  lemma {:induction false} OneLine(s: string)
    requires '\n' !in s
    ensures Lines(s) == [s]
  {
    if s != "" { OneLine(s[1..]); assert s == [s[0]] + s[1..]; }
  }

  /** Joining two texts with a newline joins their lines. */
  lemma {:induction false} LinesOfJoin(a: string, b: string)
    ensures Lines(a + "\n" + b) == Lines(a) + Lines(b)
  {
    if a == "" {
      assert a + "\n" + b == ['\n'] + b;
      LinesOfCons('\n', b);
    } else {
      var rest := Lines(a[1..]);
      LinesOfJoin(a[1..], b);
      assert a == [a[0]] + a[1..];
      assert a + "\n" + b == [a[0]] + (a[1..] + "\n" + b);
      LinesOfCons(a[0], a[1..] + "\n" + b);
      LinesOfCons(a[0], a[1..]);
      PrependJoin(a[0], rest, Lines(b));
    }
  }

  /** The lines of a text with one character more in front. */
  function Prepend(c: char, lines: seq<string>): seq<string>
    requires |lines| >= 1
  {
    if c == '\n' then [""] + lines else [[c] + lines[0]] + lines[1..]
  }

  lemma LinesOfCons(c: char, s: string)
    ensures Lines([c] + s) == Prepend(c, Lines(s))
  {
    assert ([c] + s)[1..] == s;
  }

  lemma PrependJoin(c: char, first: seq<string>, last: seq<string>)
    requires |first| >= 1
    ensures Prepend(c, first + last) == Prepend(c, first) + last
  {
    assert (first + last)[1..] == first[1..] + last;
  }

  // ------------------------------------------------------------ white space

  predicate IsSpace(c: char)
  {
    c == ' ' || '\t' <= c <= '\r' || c == '\U{85}' || c == '\U{a0}' || c == '\U{1680}' ||
    '\U{2000}' <= c <= '\U{200a}' ||
    c == '\U{2028}' || c == '\U{2029}' || c == '\U{202f}' || c == '\U{205f}' || c == '\U{3000}'
  }

  function TrimLeft(s: string): (r: string)
    ensures |r| <= |s| && s[|s| - |r|..] == r
    ensures r != "" ==> !IsSpace(r[0])
  {
    if s != "" && IsSpace(s[0]) then TrimLeft(s[1..]) else s
  }

  function TrimRight(s: string): (r: string)
    ensures |r| <= |s| && s[..|r|] == r
    ensures r != "" ==> !IsSpace(r[|r| - 1])
  {
    if s != "" && IsSpace(s[|s| - 1]) then TrimRight(s[..|s| - 1]) else s
  }

  function Trim(s: string): (r: string)
    ensures r != "" ==> !IsSpace(r[0]) && !IsSpace(r[|r| - 1])
  {
    var t := TrimLeft(s);
    var r := TrimRight(t);
    assert r != "" ==> r[0] == t[..|r|][0];
    r
  }

  lemma TrimDropsOnly(s: string)
    ensures forall c | c in Trim(s) :: c in s
  {
    var t := TrimLeft(s);
    assert Trim(s) == t[..|Trim(s)|] && t == s[|s| - |t|..];
  }

  /** Nothing to trim. */
  predicate Tight(s: string) { s == "" || (!IsSpace(s[0]) && !IsSpace(s[|s| - 1])) }

  lemma TrimTight(s: string)
    requires Tight(s)
    ensures Trim(s) == s
  {
  }

  lemma TrimLead(s: string)
    requires Tight(s)
    ensures Trim(" " + s) == s
  {
    var t := " " + s;
    assert t[1..] == s;
    assert TrimLeft(t) == TrimLeft(s);
  }

  lemma TrimTrail(s: string)
    requires Tight(s) && s != ""
    ensures Trim(s + " ") == s
  {
    var t := s + " ";
    assert t[..|t| - 1] == s;
    assert TrimLeft(t) == t;
    assert TrimRight(t) == TrimRight(s);
  }

  // ------------------------------------------------------------ letter case

  function LowerChar(c: char): char { if 'A' <= c <= 'Z' then (c as int + 32) as char else c }

  function Lower(s: string): (r: string)
    ensures |r| == |s| && forall i | 0 <= i < |s| :: r[i] == LowerChar(s[i])
  {
    seq(|s|, i requires 0 <= i < |s| => LowerChar(s[i]))
  }

  lemma LowerTwice(s: string)
    ensures Lower(Lower(s)) == Lower(s)
  {
    assert forall i | 0 <= i < |s| :: Lower(Lower(s))[i] == Lower(s)[i];
  }

  // ------------------------------------------------------------ quoting

  /** Every single quote doubled. */
  function Escape(v: string): string
  {
    if v == "" then "" else (if v[0] == '\'' then "''" else [v[0]]) + Escape(v[1..])
  }

  /** Every pair of single quotes, taken from the left, halved. */
  function Unescape(s: string): string
  {
    if |s| >= 2 && s[0] == '\'' && s[1] == '\'' then "'" + Unescape(s[2..])
    else if s == "" then ""
    else [s[0]] + Unescape(s[1..])
  }

  function Quote(v: string): string { "'" + Escape(v) + "'" }

  predicate Quoted(t: string) { |t| >= 2 && t[0] == '\'' && t[|t| - 1] == '\'' }

  function Bare(t: string): string { if Quoted(t) then Unescape(t[1..|t| - 1]) else t }

  function Unquote(v: string): string { Bare(Trim(v)) }

  lemma {:induction false} UnescapeEscape(v: string)
    ensures Unescape(Escape(v)) == v
  {
    if v != "" {
      UnescapeEscape(v[1..]);
      var rest := Escape(v[1..]);
      if v[0] == '\'' { assert ("''" + rest)[2..] == rest; } else { assert ([v[0]] + rest)[1..] == rest; }
    }
  }

  /** Unquoting undoes quoting, whatever the value. */
  lemma UnquoteQuote(v: string)
    ensures Unquote(Quote(v)) == v
  {
    UnescapeEscape(v);
    var q := Quote(v);
    assert q[1..|q| - 1] == Escape(v);
    QuotedIsTight(q);
    TrimTight(q);
  }

  lemma QuotedIsTight(t: string)
    requires Quoted(t)
    ensures Tight(t)
  {
  }

  lemma {:induction false} EscapeKeepsLine(v: string)
    requires '\n' !in v
    ensures '\n' !in Escape(v)
  {
    if v != "" { EscapeKeepsLine(v[1..]); }
  }

  // ------------------------------------------------------------ inline comments

  /** The text up to a comment sign that is outside single quotes. */
  function Strip(s: string, inQuote: bool): string
  {
    if s == "" then ""
    else if s[0] == '\'' then
      if inQuote && |s| > 1 && s[1] == '\'' then "''" + Strip(s[2..], true) else "'" + Strip(s[1..], !inQuote)
    else if s[0] == '#' && !inQuote then ""
    else [s[0]] + Strip(s[1..], inQuote)
  }

  lemma StripPair(s: string, i: nat)
    requires i + 1 < |s| && s[i] == '\'' && s[i + 1] == '\''
    ensures s[..i] + Strip(s[i..], true) == s[..i + 2] + Strip(s[i + 2..], true)
  {
    assert s[i..][2..] == s[i + 2..] && s[..i] + "''" == s[..i + 2];
  }

  lemma StripOne(s: string, i: nat, inQuote: bool)
    requires i < |s| && !(s[i] == '#' && !inQuote)
    requires !(s[i] == '\'' && inQuote && i + 1 < |s| && s[i + 1] == '\'')
    ensures s[..i] + Strip(s[i..], inQuote) ==
            s[..i + 1] + Strip(s[i + 1..], if s[i] == '\'' then !inQuote else inQuote)
  {
    assert s[i..][1..] == s[i + 1..] && s[..i] + [s[i]] == s[..i + 1];
  }

  lemma StripStops(s: string, i: nat, inQuote: bool)
    requires i == |s| || (i < |s| && s[i] == '#' && !inQuote)
    ensures s[..i] + Strip(s[i..], inQuote) == s[..i]
  {
  }

  method StripInlineComment(s: string) returns (r: string)
    ensures r == Strip(s, false)
  {
    var inQuote := false;
    var i := 0;
    assert s[..0] + Strip(s[0..], false) == Strip(s, false) by { assert s[0..] == s; }
    while i < |s|
      invariant 0 <= i <= |s|
      invariant Strip(s, false) == s[..i] + Strip(s[i..], inQuote)
    {
      if s[i] == '\'' {
        if inQuote && i + 1 < |s| && s[i + 1] == '\'' {
          StripPair(s, i);
          i := i + 2;
          continue;
        }
        StripOne(s, i, inQuote);
        inQuote := !inQuote;
      } else {
        if s[i] == '#' && !inQuote {
          StripStops(s, i, inQuote);
          return s[..i];
        }
        StripOne(s, i, inQuote);
      }
      i := i + 1;
    }
    StripStops(s, i, inQuote);
    return s;
  }

  lemma {:induction false} StripInside(v: string)
    ensures Strip(Escape(v) + "'", true) == Escape(v) + "'"
  {
    if v == "" {
      assert Escape(v) + "'" == "'";
    } else {
      StripInside(v[1..]);
      var rest := Escape(v[1..]) + "'";
      if v[0] == '\'' {
        assert Escape(v) + "'" == "''" + rest && ("''" + rest)[2..] == rest;
      } else {
        assert Escape(v) + "'" == [v[0]] + rest && ([v[0]] + rest)[1..] == rest;
      }
    }
  }

  /** A quoted value survives whole, hash signs and quotes included. */
  lemma StripKeepsQuoted(v: string)
    ensures Strip(" " + Quote(v), false) == " " + Quote(v)
  {
    StripInside(v);
    assert (" " + Quote(v))[1..] == Quote(v);
    assert Quote(v)[1..] == Escape(v) + "'";
    assert Quote(v) == "'" + (Escape(v) + "'");
  }

  lemma {:induction false} StripIsPrefix(s: string, inQuote: bool)
    ensures |Strip(s, inQuote)| <= |s| && Strip(s, inQuote) == s[..|Strip(s, inQuote)|]
  {
    if s == "" {
    } else if s[0] == '\'' && inQuote && |s| > 1 && s[1] == '\'' {
      StripIsPrefix(s[2..], true);
      assert s == "''" + s[2..];
    } else if !(s[0] == '#' && !inQuote) {
      StripIsPrefix(s[1..], if s[0] == '\'' then !inQuote else inQuote);
      assert s == [s[0]] + s[1..];
    }
  }
}
