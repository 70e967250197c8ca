/** Rendering: the user's referenced text, then the operator's baseline, then the inline map. */
module ConfigRender {
  import opened Options
  import opened ConfigText
  import opened ConfigParse
  import opened ConfigOrder

  // ------------------------------------------------------------ one line

  function KeyLine(k: string, v: string): string { k + " = " + Quote(v) }

  predicate WellFormed(k: string) { k != "" && Tight(k) && k[0] != '#' && '=' !in k && '\n' !in k }

  lemma KeyLineParts(k: string, v: string)
    requires WellFormed(k)
    ensures var t := KeyLine(k, v);
            Tight(t) && t != "" && t[0] == k[0] && FirstEquals(t) == |k| + 1 && |k| + 1 < |t| &&
            t[..|k| + 1] == k + " " && t[|k| + 2..] == " " + Quote(v)
  {
    var t := KeyLine(k, v);
    assert t[..|k| + 1] == k + " ";
    assert t[|k| + 1] == '=';
    var e := FirstEquals(t);
    assert forall i | 0 <= i < |k| + 1 :: t[i] == (k + " ")[i];
    assert e >= |k| + 1;
    assert forall i | 0 <= i < e :: t[i] == t[..e][i];
  }

  /** A rendered line assigns the quoted value to the lower-case name. */
  lemma KeyLineReads(k: string, v: string)
    requires WellFormed(k)
    ensures LineSetting(KeyLine(k, v)) == Some(Setting(Lower(k), Quote(v)))
  {
    KeyLineParts(k, v);
    PartsRead(KeyLine(k, v), k + " ", " " + Quote(v));
    PaddedPairReads(k, v);
  }

  lemma PartsRead(t: string, left: string, right: string)
    requires Tight(t) && Parts(t) == Some((left, right))
    ensures LineSetting(t) == Pair(left, right)
  {
    TrimTight(t);
  }

  lemma PaddedPairReads(k: string, v: string)
    requires WellFormed(k)
    ensures Pair(k + " ", " " + Quote(v)) == Some(Setting(Lower(k), Quote(v)))
  {
    var value := Quote(v);
    QuotedIsTight(value);
    TrimTrail(k);
    TrimLead(value);
    StripKeepsQuoted(v);
    PairReads(k + " ", " " + value, k, " " + value, value);
  }

  lemma PairReads(left: string, right: string, name: string, stripped: string, value: string)
    requires Trim(left) == name != "" && Strip(right, false) == stripped && Trim(stripped) == value
    ensures Pair(left, right) == Some(Setting(Lower(name), value))
  {
  }

  lemma KeyLineIsOneLine(k: string, v: string)
    requires WellFormed(k) && '\n' !in v
    ensures '\n' !in KeyLine(k, v)
  {
    EscapeKeepsLine(v);
  }

  // ------------------------------------------------------------ the file

  function TrimNewlines(s: string): (r: string)
    ensures |r| <= |s|
  {
    if s != "" && s[|s| - 1] == '\n' then TrimNewlines(s[..|s| - 1]) else s
  }

  const REF_HEADER := "# postgresConfigRef"
  const INLINE_HEADER := "# spec.postgresConfig"

  function Join(a: string, b: string): string { a + "\n" + b }

  /** A layer under a header line, unless it is empty. */
  function RefLayer(header: string, ref: string, base: string): string
  {
    var t := TrimNewlines(ref);
    if t != "" then Join(header, Join(t, Join("", base))) else base
  }

  function Lookup(m: Settings, k: string): string { if k in m then m[k] else "" }

  function LineOf(m: Settings): string -> string { k => KeyLine(k, Lookup(m, k)) }

  ghost function Body(inline: Settings): string { Write(LineOf(inline), Sorted(inline.Keys)) }

  ghost function InlineLayer(header: string, text: string, inline: Settings): string
  {
    if inline != map[] then Join(text, Join(header, Body(inline))) else text
  }

  ghost function Rendered(ref: string, base: string, inline: Settings): string
  {
    InlineLayer(INLINE_HEADER, RefLayer(REF_HEADER, ref, base), inline)
  }

  lemma RefText(header: string, t: string, base: string)
    ensures header + "\n" + t + "\n\n" + base == Join(header, Join(t, Join("", base)))
  {
  }

  lemma InlineText(text: string, header: string, body: string)
    ensures text + "\n" + header + "\n" + body == Join(text, Join(header, body))
  {
  }

  /** One more line written. */
  lemma WriteStep(g: string -> string, prefix: string, names: seq<string>)
    requires names != []
    ensures prefix + Write(g, names) == prefix + g(names[0]) + "\n" + Write(g, names[1..])
  {
  }

  method WriteLines(g: string -> string, prefix: string, names: seq<string>) returns (r: string)
    ensures r == prefix + Write(g, names)
  {
    r := prefix;
    for i := 0 to |names|
      invariant prefix + Write(g, names) == r + Write(g, names[i..])
    {
      assert names[i..][1..] == names[i + 1..];
      WriteStep(g, r, names[i..]);
      r := r + g(names[i]) + "\n";
    }
  }

  method WriteSortedMap(prefix: string, m: Settings) returns (r: string)
    ensures r == prefix + Body(m)
  {
    var keys := SortKeys(m.Keys);
    r := WriteLines(LineOf(m), prefix, keys);
  }

  method WriteRef(header: string, ref: string, base: string) returns (r: string)
    ensures r == RefLayer(header, ref, base)
  {
    r := "";
    var trimmed := TrimNewlines(ref);
    if trimmed != "" {
      RefText(header, trimmed, base);
      r := header + "\n" + trimmed + "\n\n";
    }
    r := r + base;
  }

  method Render(base: string, ref: string, inline: Settings) returns (r: string)
    ensures r == Rendered(ref, base, inline)
  {
    r := WriteRef(REF_HEADER, ref, base);
    if inline != map[] {
      InlineText(r, INLINE_HEADER, Body(inline));
      r := WriteSortedMap(r + "\n" + INLINE_HEADER + "\n", inline);
    }
  }

  // ------------------------------------------------------------ what the file means

  ghost predicate Skips(f: Reader, line: string) { '\n' !in line && f(line).None? }

  lemma CommentSkipped(line: string)
    requires Tight(line) && line != "" && line[0] == '#' && '\n' !in line
    ensures Skips(LineSetting, line)
  {
    TrimTight(line);
  }

  lemma BlankSkipped()
    ensures Skips(LineSetting, "")
  {
    TrimTight("");
  }

  lemma HeadersSkipped()
    ensures Skips(LineSetting, REF_HEADER) && Skips(LineSetting, INLINE_HEADER)
  {
    CommentSkipped(REF_HEADER);
    CommentSkipped(INLINE_HEADER);
  }

  lemma SkippedLine(f: Reader, line: string, rest: string)
    requires Skips(f, line)
    ensures Parse(f, Join(line, rest)) == Parse(f, rest) && Parse(f, line) == map[]
  {
    ParseOfJoin(f, line, rest);
    ParseLine(f, line);
    EmptyOverlay(Parse(f, rest));
  }

  lemma OverlayEmpty(m: Settings)
    ensures m + map[] == m
  {
  }

  /** Newlines at the end set nothing. */
  lemma {:induction false} TrimmedParses(f: Reader, ref: string)
    requires Skips(f, "")
    ensures Parse(f, TrimNewlines(ref)) == Parse(f, ref)
  {
    if ref != "" && ref[|ref| - 1] == '\n' {
      var shorter := ref[..|ref| - 1];
      TrimmedParses(f, shorter);
      assert ref == Join(shorter, "");
      ParseOfJoin(f, shorter, "");
      SkippedLine(f, "", "");
      OverlayEmpty(Parse(f, shorter));
    }
  }

  lemma RefParses(f: Reader, header: string, ref: string, base: string)
    requires Skips(f, "") && Skips(f, header)
    ensures Parse(f, RefLayer(header, ref, base)) == Parse(f, ref) + Parse(f, base)
  {
    var t := TrimNewlines(ref);
    TrimmedParses(f, ref);
    SkippedLine(f, "", base);
    if t == "" {
      EmptyOverlay(Parse(f, base));
    } else {
      var tail := Join("", base);
      SkippedLine(f, header, Join(t, tail));
      ParseOfJoin(f, t, tail);
    }
  }

  lemma InlineParses(f: Reader, header: string, text: string, body: string)
    requires Skips(f, header)
    ensures Parse(f, Join(text, Join(header, body))) == Parse(f, text) + Parse(f, body)
  {
    ParseOfJoin(f, text, Join(header, body));
    SkippedLine(f, header, body);
  }

  /** Inline maps with well-formed names distinct up to case, and values on one line. */
  ghost predicate Admitted(inline: Settings)
  {
    && (forall k | k in inline :: WellFormed(k) && '\n' !in inline[k])
    && (forall j, k | j in inline && k in inline && Lower(j) == Lower(k) :: j == k)
  }

  ghost function Canonical(inline: Settings): Settings
    requires Admitted(inline)
  {
    map k | k in inline :: Lower(k) := inline[k]
  }

  function SettingOf(m: Settings): string -> Setting { k => Setting(Lower(k), Quote(Lookup(m, k))) }

  lemma LineOfReads(inline: Settings, k: string)
    requires Admitted(inline) && k in inline
    ensures '\n' !in LineOf(inline)(k) && LineSetting(LineOf(inline)(k)) == Some(SettingOf(inline)(k))
  {
    KeyLineReads(k, inline[k]);
    KeyLineIsOneLine(k, inline[k]);
  }

  lemma NamesDiffer(inline: Settings, names: seq<string>)
    requires Admitted(inline) && Lists(names, inline.Keys)
    ensures forall i, j | 0 <= i < j < |names| :: Lower(names[i]) != Lower(names[j])
  {
    forall i, j | 0 <= i < j < |names| ensures Lower(names[i]) != Lower(names[j]) {
      assert names[i] in Elements(names) && names[j] in Elements(names);
      BeforeIrreflexive(names[i]);
      assert Before(names[i], names[j]);
    }
  }

  lemma BodyReadable(inline: Settings)
    requires Admitted(inline)
    ensures Readable(LineSetting, LineOf(inline), SettingOf(inline), Sorted(inline.Keys))
  {
    var names := Sorted(inline.Keys);
    BlankSkipped();
    forall k | k in names
      ensures '\n' !in LineOf(inline)(k) && LineSetting(LineOf(inline)(k)) == Some(SettingOf(inline)(k))
    {
      assert k in Elements(names);
      LineOfReads(inline, k);
    }
    NamesDiffer(inline, names);
  }

  /** A table whose values `u` takes back to the inline ones is, after `u`, the inline map under its new names. */
  lemma TableMeans(u: string -> string, m: Settings, s: string -> Setting, names: seq<string>, inline: Settings,
                   want: Settings)
    requires IsTable(m, s, names) && Elements(names) == inline.Keys
    requires forall k | k in inline :: u(s(k).value) == inline[k]
    requires forall k | k in inline :: s(k).name in want && want[s(k).name] == inline[k]
    requires forall x | x in want :: exists k | k in inline :: s(k).name == x
    ensures MapValues(u, m) == want
  {
    forall x | x in m ensures x in want && u(m[x]) == want[x] {
      var k :| k in names && s(k).name == x;
      assert k in Elements(names);
    }
    forall x | x in want ensures x in m {
      var k :| k in inline && s(k).name == x;
      assert k in Elements(names);
    }
  }

  /** Writing a map line by line, reading it back and applying `u` gives the map under its new names. */
  lemma WrittenMeans(f: Reader, g: string -> string, s: string -> Setting, u: string -> string, inline: Settings,
                     want: Settings)
    requires Readable(f, g, s, Sorted(inline.Keys))
    requires forall k | k in inline :: u(s(k).value) == inline[k]
    requires forall k | k in inline :: s(k).name in want && want[s(k).name] == inline[k]
    requires forall x | x in want :: exists k | k in inline :: s(k).name == x
    ensures MapValues(u, Parse(f, Write(g, Sorted(inline.Keys)))) == want
  {
    var names := Sorted(inline.Keys);
    WrittenReadsBack(f, g, s, names);
    TableMeans(u, Parse(f, Write(g, names)), s, names, inline, want);
  }

  lemma CanonicalNames(inline: Settings, s: string -> Setting)
    requires Admitted(inline) && forall k | k in inline :: s(k).name == Lower(k)
    ensures forall k | k in inline :: s(k).name in Canonical(inline) && Canonical(inline)[s(k).name] == inline[k]
    ensures forall x | x in Canonical(inline) :: exists k | k in inline :: s(k).name == x
  {
  }

  lemma QuotedBack(inline: Settings)
    ensures forall k | k in inline :: Unquote(SettingOf(inline)(k).value) == inline[k]
  {
    forall k | k in inline ensures Unquote(SettingOf(inline)(k).value) == inline[k] { UnquoteQuote(inline[k]); }
  }

  lemma BodyMeans(inline: Settings)
    requires Admitted(inline)
    ensures Effective(LineSetting, Body(inline)) == Canonical(inline)
  {
    BodyReadable(inline);
    QuotedBack(inline);
    CanonicalNames(inline, SettingOf(inline));
    WrittenMeans(LineSetting, LineOf(inline), SettingOf(inline), Unquote, inline, Canonical(inline));
  }

  lemma Layers(f: Reader, h1: string, h2: string, ref: string, base: string, inline: Settings)
    requires Skips(f, "") && Skips(f, h1) && Skips(f, h2)
    ensures var r := InlineLayer(h2, RefLayer(h1, ref, base), inline);
            Effective(f, r) == Effective(f, ref) + Effective(f, base) +
                               (if inline != map[] then Effective(f, Body(inline)) else map[])
  {
    var text := RefLayer(h1, ref, base);
    RefParses(f, h1, ref, base);
    MapValuesOverlay(Unquote, Parse(f, ref), Parse(f, base));
    if inline != map[] {
      InlineParses(f, h2, text, Body(inline));
      MapValuesOverlay(Unquote, Parse(f, text), Parse(f, Body(inline)));
    } else {
      OverlayEmpty(Effective(f, ref) + Effective(f, base));
    }
  }

  lemma EmptyCanonical()
    ensures Canonical(map[]) == map[]
  {
  }

  /** The rendered file means the reference overlaid by the baseline overlaid by the inline map. */
  lemma RenderMeans(ref: string, base: string, inline: Settings)
    requires Admitted(inline)
    ensures Effective(LineSetting, Rendered(ref, base, inline)) ==
            Effective(LineSetting, ref) + Effective(LineSetting, base) + Canonical(inline)
  {
    BlankSkipped();
    HeadersSkipped();
    Layers(LineSetting, REF_HEADER, INLINE_HEADER, ref, base, inline);
    BodyMeans(inline);
    EmptyCanonical();
  }
}
