/** The effective settings of a postgresql.conf: the last assignment of each name wins. */
module ConfigParse {
  import opened Options
  import opened ConfigText

  type Settings = map<string, string>

  datatype Setting = Setting(name: string, value: string)

  /** The position of the first equals sign, or the length of the text. */
  function FirstEquals(s: string): (i: nat)
    ensures i <= |s| && '=' !in s[..i] && (i < |s| ==> s[i] == '=')
  {
    if s == "" || s[0] == '=' then 0
    else
      var j := FirstEquals(s[1..]);
      assert s[..j + 1] == [s[0]] + s[1..][..j];
      j + 1
  }

  /** What one line assigns. */
  function LineSetting(line: string): Option<Setting> { Assignment(Trim(line)) }

  function Assignment(t: string): Option<Setting>
  {
    var parts := Parts(t);
    if parts.None? then None else Pair(parts.value.0, parts.value.1)
  }

  /** The two sides of the first equals sign of a line that is no comment. */
  function Parts(t: string): Option<(string, string)>
  {
    if t == "" || t[0] == '#' then None
    else
      var e := FirstEquals(t);
      if e == |t| then None else Some((t[..e], t[e + 1..]))
  }

  function Pair(left: string, right: string): Option<Setting>
  {
    var name := Lower(Trim(left));
    if name == "" then None else Some(Setting(name, Trim(Strip(right, false))))
  }

  method ReadLine(raw: string) returns (r: Option<Setting>)
    ensures r == LineSetting(raw)
  {
    var line := Trim(raw);
    r := ReadTrimmed(line);
  }

  method ReadTrimmed(line: string) returns (r: Option<Setting>)
    ensures r == Assignment(line)
  {
    var parts := CutLine(line);
    if parts.None? { return None; }
    r := ReadPair(parts.value.0, parts.value.1);
  }

  method CutLine(line: string) returns (r: Option<(string, string)>)
    ensures r == Parts(line)
  {
    if line == "" || line[0] == '#' { return None; }
    var e := FirstEquals(line);
    if e == |line| { return None; }
    return Some((line[..e], line[e + 1..]));
  }

  method ReadPair(left: string, right: string) returns (r: Option<Setting>)
    ensures r == Pair(left, right)
  {
    var key := Lower(Trim(left));
    if key == "" { return None; }
    var value := StripInlineComment(right);
    return Some(Setting(key, Trim(value)));
  }

  function Assign(m: Settings, s: Option<Setting>): Settings { if s.None? then m else m[s.value.name := s.value.value] }

  /** Reading lines in order.  The overlay laws hold for every reader of a line, so they are stated for any. */
  type Reader = string -> Option<Setting>

  function Read(f: Reader, lines: seq<string>): Settings
  {
    if lines == [] then map[] else Assign(Read(f, lines[..|lines| - 1]), f(lines[|lines| - 1]))
  }

  function Parse(f: Reader, rendered: string): Settings { Read(f, Lines(rendered)) }

  lemma ReadOneMore(f: Reader, lines: seq<string>, i: nat)
    requires i < |lines|
    ensures Read(f, lines[..i + 1]) == Assign(Read(f, lines[..i]), f(lines[i]))
  {
    assert lines[..i + 1][..i] == lines[..i];
  }

  method ParseEffectiveConfig(rendered: string) returns (m: Settings)
    ensures m == Parse(LineSetting, rendered)
  {
    var lines := Lines(rendered);
    m := map[];
    for i := 0 to |lines|
      invariant m == Read(LineSetting, lines[..i])
    {
      ReadOneMore(LineSetting, lines, i);
      var s := ReadLine(lines[i]);
      if s.Some? { m := m[s.value.name := s.value.value]; }
    }
    assert lines[..|lines|] == lines;
  }

  // ------------------------------------------------------------ overlay

  lemma AssignOverlay(a: Settings, b: Settings, s: Option<Setting>)
    ensures a + Assign(b, s) == Assign(a + b, s)
  {
  }

  lemma {:induction false} ReadOverlay(f: Reader, a: seq<string>, b: seq<string>)
    ensures Read(f, a + b) == Read(f, a) + Read(f, b)
  {
    if b == [] {
      assert a + b == a;
    } else {
      var n := |b| - 1;
      assert (a + b)[..|a + b| - 1] == a + b[..n];
      ReadOverlay(f, a, b[..n]);
      AssignOverlay(Read(f, a), Read(f, b[..n]), f(b[n]));
    }
  }

  /** Parsing a concatenation at a line boundary is the overlay of the parses. */
  lemma ParseOfJoin(f: Reader, a: string, b: string)
    ensures Parse(f, a + "\n" + b) == Parse(f, a) + Parse(f, b)
  {
    LinesOfJoin(a, b);
    ReadOverlay(f, Lines(a), Lines(b));
  }

  lemma ParseLine(f: Reader, line: string)
    requires '\n' !in line
    ensures Parse(f, line) == Assign(map[], f(line))
  {
    OneLine(line);
    assert [line][..0] == [];
  }

  // ------------------------------------------------------------ cosmetic edits

  /** A line that assigns nothing may be put in or taken out at any line boundary. */
  lemma IdleLine(f: Reader, a: string, line: string, b: string)
    requires '\n' !in line && f(line).None?
    ensures Parse(f, a + "\n" + (line + "\n" + b)) == Parse(f, a + "\n" + b)
  {
    ParseOfJoin(f, a, line + "\n" + b);
    ParseOfJoin(f, line, b);
    ParseOfJoin(f, a, b);
    ParseLine(f, line);
    EmptyOverlay(Parse(f, b));
  }

  lemma EmptyOverlay(m: Settings)
    ensures map[] + m == m
  {
  }

  /** Comments and blank lines assign nothing. */
  lemma CommentIsIdle(line: string)
    requires Trim(line) == "" || Trim(line)[0] == '#'
    ensures LineSetting(line).None?
  {
  }

  /** Two texts that set different names may change places. */
  lemma DisjointSwap(f: Reader, a: string, b: string)
    requires Parse(f, a).Keys !! Parse(f, b).Keys
    ensures Parse(f, a + "\n" + b) == Parse(f, b + "\n" + a)
  {
    ParseOfJoin(f, a, b);
    ParseOfJoin(f, b, a);
    OverlaySwap(Parse(f, a), Parse(f, b));
  }

  lemma OverlaySwap(a: Settings, b: Settings)
    requires a.Keys !! b.Keys
    ensures a + b == b + a
  {
  }

  // ------------------------------------------------------------ what the parser can output

  predicate PlainName(k: string) { '=' !in k && '\n' !in k }

  /** Names without `=` or newline, values without newline. */
  ghost predicate Plain(m: Settings) { forall k | k in m :: PlainName(k) && '\n' !in m[k] }

  lemma LowerKeepsPlain(s: string)
    requires PlainName(s)
    ensures PlainName(Lower(s))
  {
    forall i | 0 <= i < |s| ensures LowerChar(s[i]) != '=' && LowerChar(s[i]) != '\n' { assert s[i] in s; }
  }

  lemma NameIsPlain(left: string)
    requires PlainName(left)
    ensures PlainName(Lower(Trim(left)))
  {
    TrimDropsOnly(left);
    LowerKeepsPlain(Trim(left));
  }

  lemma ValueIsPlain(right: string)
    requires '\n' !in right
    ensures '\n' !in Trim(Strip(right, false))
  {
    StripIsPrefix(right, false);
    TrimDropsOnly(Strip(right, false));
  }

  lemma AssignmentIsPlain(t: string)
    requires '\n' !in t && Assignment(t).Some?
    ensures PlainName(Assignment(t).value.name) && '\n' !in Assignment(t).value.value
  {
    var e := FirstEquals(t);
    NameIsPlain(t[..e]);
    ValueIsPlain(t[e + 1..]);
  }

  /** A reader that gives a plain setting for every newline-free line. */
  ghost predicate PlainReader(f: Reader)
  {
    forall line | '\n' !in line && f(line).Some? :: PlainName(f(line).value.name) && '\n' !in f(line).value.value
  }

  lemma LineSettingIsPlain()
    ensures PlainReader(LineSetting)
  {
    forall line | '\n' !in line && LineSetting(line).Some?
      ensures PlainName(LineSetting(line).value.name) && '\n' !in LineSetting(line).value.value
    {
      TrimDropsOnly(line);
      AssignmentIsPlain(Trim(line));
    }
  }

  lemma {:induction false} LinesArePlain(f: Reader, lines: seq<string>)
    requires PlainReader(f) && forall i | 0 <= i < |lines| :: '\n' !in lines[i]
    ensures Plain(Read(f, lines))
  {
    if lines != [] { LinesArePlain(f, lines[..|lines| - 1]); }
  }

  lemma ParsedIsPlain(f: Reader, s: string)
    requires PlainReader(f)
    ensures Plain(Parse(f, s))
  {
    forall i | 0 <= i < |Lines(s)| ensures '\n' !in Lines(s)[i] { NoNewlineInside(s, i); }
    LinesArePlain(f, Lines(s));
  }

  lemma {:induction false} UnescapeKeepsLine(s: string)
    requires '\n' !in s
    ensures '\n' !in Unescape(s)
  {
    if |s| >= 2 && s[0] == '\'' && s[1] == '\'' { UnescapeKeepsLine(s[2..]); }
    else if s != "" { UnescapeKeepsLine(s[1..]); }
  }

  function MapValues(g: string -> string, m: Settings): Settings { map k | k in m :: g(m[k]) }

  function Unquoted(m: Settings): Settings { MapValues(Unquote, m) }

  /** The settings PostgreSQL reports for the file: every value unquoted. */
  function Effective(f: Reader, s: string): Settings { Unquoted(Parse(f, s)) }

  lemma UnquoteKeepsLine(v: string)
    requires '\n' !in v
    ensures '\n' !in Unquote(v)
  {
    TrimDropsOnly(v);
    var t := Trim(v);
    if Quoted(t) { UnescapeKeepsLine(t[1..|t| - 1]); }
  }

  lemma UnquotedIsPlain(m: Settings)
    requires Plain(m)
    ensures Plain(Unquoted(m))
  {
    forall k | k in m ensures '\n' !in Unquote(m[k]) { UnquoteKeepsLine(m[k]); }
  }

  lemma EffectiveIsPlain(s: string)
    ensures Plain(Effective(LineSetting, s))
  {
    LineSettingIsPlain();
    ParsedIsPlain(LineSetting, s);
    UnquotedIsPlain(Parse(LineSetting, s));
  }

  lemma MapValuesOverlay(g: string -> string, a: Settings, b: Settings)
    ensures MapValues(g, a + b) == MapValues(g, a) + MapValues(g, b)
  {
  }

  // ------------------------------------------------------------ written lines

  /** One line per name. */
  function Write(g: string -> string, names: seq<string>): string
  {
    if names == [] then "" else g(names[0]) + "\n" + Write(g, names[1..])
  }

  /** Every name's line is one line, and reads as that name's setting. */
  ghost predicate Readable(f: Reader, g: string -> string, s: string -> Setting, names: seq<string>)
  {
    && f("").None?
    && (forall k | k in names :: '\n' !in g(k) && f(g(k)) == Some(s(k)))
    && (forall i, j | 0 <= i < j < |names| :: s(names[i]).name != s(names[j]).name)
  }

  ghost predicate IsTable(m: Settings, s: string -> Setting, names: seq<string>)
  {
    && (forall k | k in names :: s(k).name in m && m[s(k).name] == s(k).value)
    && (forall x | x in m :: exists k | k in names :: s(k).name == x)
  }

  /** What was written line by line is read back as the table of its settings. */
  lemma {:induction false} WrittenReadsBack(f: Reader, g: string -> string, s: string -> Setting, names: seq<string>)
    requires Readable(f, g, s, names)
    ensures IsTable(Parse(f, Write(g, names)), s, names)
  {
    if names == [] {
      assert Lines("") == [""] && [""][..0] == [];
    } else {
      var k, rest := names[0], names[1..];
      assert forall x | x in rest :: x in names;
      assert forall i, j | 0 <= i < j < |rest| :: s(rest[i]).name != s(rest[j]).name by {
        forall i, j | 0 <= i < j < |rest| ensures s(rest[i]).name != s(rest[j]).name {
          assert rest[i] == names[i + 1] && rest[j] == names[j + 1];
        }
      }
      WrittenReadsBack(f, g, s, rest);
      ParseOfJoin(f, g(k), Write(g, rest));
      ParseLine(f, g(k));
      TableOneMore(Parse(f, Write(g, rest)), s, names);
    }
  }

  lemma TableOneMore(m: Settings, s: string -> Setting, names: seq<string>)
    requires names != [] && IsTable(m, s, names[1..])
    requires forall i, j | 0 <= i < j < |names| :: s(names[i]).name != s(names[j]).name
    ensures IsTable(map[s(names[0]).name := s(names[0]).value] + m, s, names)
  {
    var k := names[0];
    forall x | x in names[1..] ensures s(x).name != s(k).name {
      var i :| 0 <= i < |names[1..]| && names[1..][i] == x;
      assert names[i + 1] == x;
    }
    assert s(k).name !in m;
    assert names == [k] + names[1..];
    assert k in names;
  }
}
