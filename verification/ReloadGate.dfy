/**
  The reload gate: a rendered file is split into settings that need a restart and settings
  a reload applies, and stamped with a marker holding the hash of the latter.
 */
module ReloadGate {
  import opened Options
  import opened ConfigText
  import opened ConfigParse
  import opened ConfigRender
  import opened ConfigHash

  /** The parameter catalogue: each known parameter's context. */
  type Catalog = map<string, string>

  const RESTART_CONTEXTS := {"postmaster", "internal", "backend", "superuser-backend"}

  function ParameterName(name: string): string { Lower(Trim(name)) }

  predicate NeedsRestart(catalog: Catalog, lower: string)
  {
    '.' in lower || lower !in catalog || catalog[lower] == "" || catalog[lower] in RESTART_CONTEXTS
  }

  predicate RequiresRestart(catalog: Catalog, name: string) { NeedsRestart(catalog, ParameterName(name)) }

  /** The settings of one side of the split. */
  function Part(restart: string -> bool, m: Settings, side: bool): Settings
  {
    map k | k in m && restart(k) == side :: m[k]
  }

  function Judge(catalog: Catalog): string -> bool { name => RequiresRestart(catalog, name) }

  const MARKER := "multigres.config_reload_marker"
  // In two halves, each short enough for the solver to look through.
  const MARKER_COMMENT := "# Operator-managed config" + "-version marker; do not edit."

  function Stamped(rendered: string, reloadHash: string): string
  {
    rendered + "\n" + MARKER_COMMENT + "\n" + MARKER + " = '" + reloadHash + "'\n"
  }

  datatype Split = Split(restartHash: string, reloadHash: string, reloadSettings: Settings)

  /** The reload-safe settings of a file, before the marker joins them. */
  function ReloadPart(catalog: Catalog, rendered: string): Settings
  {
    Part(Judge(catalog), Effective(LineSetting, rendered), false)
  }

  ghost function ReloadHash(catalog: Catalog, sha: string -> string, rendered: string): string
  {
    SplitOf(Judge(catalog), sha, Effective(LineSetting, rendered)).reloadHash
  }

  ghost function Expected(catalog: Catalog, sha: string -> string, rendered: string): Settings
  {
    SplitOf(Judge(catalog), sha, Effective(LineSetting, rendered)).reloadSettings
  }

  function Marked(m: Settings, h: string): Settings { m[MARKER := h] }

  /** Sort every setting to one side, unquoted. */
  method Partition(judge: string -> bool, unquote: string -> string, settings: Settings)
    returns (restart: Settings, reload: Settings)
    ensures restart == Part(judge, MapValues(unquote, settings), true)
    ensures reload == Part(judge, MapValues(unquote, settings), false)
  {
    restart, reload := map[], map[];
    var left := settings.Keys;
    while left != {}
      invariant left <= settings.Keys
      invariant restart == map k | k in settings && k !in left && judge(k) :: unquote(settings[k])
      invariant reload == map k | k in settings && k !in left && !judge(k) :: unquote(settings[k])
    {
      var k :| k in left;
      var v := unquote(settings[k]);
      if judge(k) { restart := restart[k := v]; } else { reload := reload[k := v]; }
      left := left - {k};
    }
  }

  /** Both hashes, and the expected settings: the reload-safe side with the marker. */
  ghost function SplitOf(judge: string -> bool, sha: string -> string, effective: Settings): Split
  {
    var reloadHash := sha(PreImage(Part(judge, effective, false)));
    Split(sha(PreImage(Part(judge, effective, true))), reloadHash, Marked(Part(judge, effective, false), reloadHash))
  }

  method HashSides(judge: string -> bool, unquote: string -> string, sha: string -> string, settings: Settings)
    returns (split: Split)
    ensures split == SplitOf(judge, sha, MapValues(unquote, settings))
  {
    var restart, reload := Partition(judge, unquote, settings);
    var reloadHash := HashSettings(reload, sha);
    var restartHash := HashSettings(restart, sha);
    split := Split(restartHash, reloadHash, Marked(reload, reloadHash));
  }

  method StampAndSplit(catalog: Catalog, sha: string -> string, rendered: string)
    returns (stamped: string, split: Split)
    ensures split == SplitOf(Judge(catalog), sha, Effective(LineSetting, rendered))
    ensures stamped == Stamped(rendered, split.reloadHash)
  {
    var settings := ParseEffectiveConfig(rendered);
    split := HashSides(Judge(catalog), Unquote, sha, settings);
    stamped := Stamped(rendered, split.reloadHash);
  }

  // ------------------------------------------------------------ the marker line

  predicate HexDigit(c: char) { '0' <= c <= '9' || 'a' <= c <= 'f' }

  predicate Hex(s: string) { forall i | 0 <= i < |s| :: HexDigit(s[i]) }

  lemma {:induction false} HexNeedsNoEscape(h: string)
    requires Hex(h)
    ensures Escape(h) == h
  {
    if h != "" { HexNeedsNoEscape(h[1..]); assert h == [h[0]] + h[1..]; }
  }

  lemma StampedText(rendered: string, comment: string, marker: string, h: string)
    ensures rendered + "\n" + comment + "\n" + marker + " = '" + h + "'\n" ==
            Join(rendered, Join(comment, Join(marker + " = " + ("'" + h + "'"), "")))
  {
    var line := marker + " = " + ("'" + h + "'");
    assert marker + " = '" + h + "'\n" == Join(line, "");
    assert rendered + "\n" + comment + "\n" + marker + " = '" + h + "'\n" ==
           rendered + "\n" + comment + "\n" + (marker + " = '" + h + "'\n");
  }

  /** Appending a comment, one setting and a blank line sets that one setting. */
  lemma AppendedParses(f: Reader, text: string, comment: string, line: string, s: Setting)
    requires Skips(f, comment) && Skips(f, "") && '\n' !in line && f(line) == Some(s)
    ensures Parse(f, Join(text, Join(comment, Join(line, "")))) == Parse(f, text)[s.name := s.value]
  {
    var tail := Join(line, "");
    ParseOfJoin(f, text, Join(comment, tail));
    SkippedLine(f, comment, tail);
    ParseOfJoin(f, line, "");
    SkippedLine(f, "", "");
    ParseLine(f, line);
    OverlayEmpty(map[s.name := s.value]);
  }

  lemma MarkerWellFormed()
    ensures WellFormed(MARKER) && '.' in MARKER
  {
    assert MARKER[9] == '.';
  }

  lemma MarkerIsLower()
    ensures Lower(MARKER) == MARKER
  {
    assert forall i | 0 <= i < |MARKER| :: LowerChar(MARKER[i]) == MARKER[i];
  }

  lemma MarkerCommentSkipped()
    ensures Skips(LineSetting, MARKER_COMMENT)
  {
    var a, b := "# Operator-managed config", "-version marker; do not edit.";
    assert '\n' !in a && '\n' !in b;
    assert a[0] == '#' && b[|b| - 1] == '.';
    CommentParts(a, b);
  }

  lemma CommentParts(a: string, b: string)
    requires '\n' !in a && '\n' !in b && a != "" && b != "" && a[0] == '#' && b[|b| - 1] == '.'
    ensures Skips(LineSetting, a + b)
  {
    CommentSkipped(a + b);
  }

  lemma {:induction false} HexOneLine(h: string)
    requires Hex(h)
    ensures '\n' !in h
  {
  }

  /** A stamped file reads as the file with the marker set to the hash. */
  lemma StampedReads(rendered: string, h: string)
    requires Hex(h)
    ensures Parse(LineSetting, Stamped(rendered, h)) == Parse(LineSetting, rendered)[MARKER := Quote(h)]
  {
    HexNeedsNoEscape(h);
    HexOneLine(h);
    MarkerWellFormed();
    MarkerIsLower();
    KeyLineReads(MARKER, h);
    KeyLineIsOneLine(MARKER, h);
    BlankSkipped();
    MarkerCommentSkipped();
    StampedText(rendered, MARKER_COMMENT, MARKER, h);
    AppendedParses(LineSetting, rendered, MARKER_COMMENT, KeyLine(MARKER, h), Setting(MARKER, Quote(h)));
  }

  lemma MapValuesUpdate(u: string -> string, m: Settings, k: string, v: string)
    ensures MapValues(u, m[k := v]) == MapValues(u, m)[k := u(v)]
  {
  }

  lemma StampedMeans(rendered: string, h: string)
    requires Hex(h)
    ensures Effective(LineSetting, Stamped(rendered, h)) == Effective(LineSetting, rendered)[MARKER := h]
  {
    StampedReads(rendered, h);
    MapValuesUpdate(Unquote, Parse(LineSetting, rendered), MARKER, Quote(h));
    UnquoteQuote(h);
  }

  // ------------------------------------------------------------ the gate

  /** Every expected setting is in the mounted file with its value. */
  predicate Passes(file: Settings, expected: Settings)
  {
    forall k | k in expected :: k in file && file[k] == expected[k]
  }

  /** A dotted name needs a restart, so the marker is never a reload-safe setting of the file itself. */
  lemma MarkerNeedsRestart(catalog: Catalog)
    ensures Judge(catalog)(MARKER)
  {
    MarkerWellFormed();
    MarkerIsLower();
    TrimTight(MARKER);
  }

  /** The marker carries the hash of one part of the settings: a file passes another's gate when the hashes agree. */
  lemma GateByHash(judge: string -> bool, marker: string, old_: Settings, oldHash: string, next: Settings,
                   nextHash: string)
    requires judge(marker)
    requires Part(judge, old_, false) == Part(judge, next, false) ==> oldHash == nextHash
    requires oldHash == nextHash ==> Part(judge, old_, false) == Part(judge, next, false)
    ensures Passes(old_[marker := oldHash], Part(judge, next, false)[marker := nextHash]) <==>
            Part(judge, old_, false) == Part(judge, next, false)
  {
    var want := Part(judge, next, false)[marker := nextHash];
    var file := old_[marker := oldHash];
    assert marker in want;
    if Part(judge, old_, false) == Part(judge, next, false) {
      forall k | k in want ensures k in file && file[k] == want[k] {
        if k != marker { assert k in Part(judge, old_, false); }
      }
    }
  }

  lemma PartIsPlain(judge: string -> bool, m: Settings)
    requires Plain(m)
    ensures Plain(Part(judge, m, false))
  {
  }

  lemma ReloadPartIsPlain(catalog: Catalog, rendered: string)
    ensures Plain(ReloadPart(catalog, rendered))
  {
    EffectiveIsPlain(rendered);
    PartIsPlain(Judge(catalog), Effective(LineSetting, rendered));
  }

  /** The hash function gives hex digits, and does not collide on these two pre-images. */
  ghost predicate Separates(catalog: Catalog, sha: string -> string, a: string, b: string)
  {
    && Hex(ReloadHash(catalog, sha, a)) && Hex(ReloadHash(catalog, sha, b))
    && (ReloadHash(catalog, sha, a) == ReloadHash(catalog, sha, b) ==>
          PreImage(ReloadPart(catalog, a)) == PreImage(ReloadPart(catalog, b)))
  }

  lemma HashesAgree(catalog: Catalog, sha: string -> string, a: string, b: string)
    requires Separates(catalog, sha, a, b)
    ensures ReloadHash(catalog, sha, a) == ReloadHash(catalog, sha, b) <==>
            ReloadPart(catalog, a) == ReloadPart(catalog, b)
  {
    if ReloadHash(catalog, sha, a) == ReloadHash(catalog, sha, b) {
      ReloadPartIsPlain(catalog, a);
      ReloadPartIsPlain(catalog, b);
      PreImageInjective(ReloadPart(catalog, a), ReloadPart(catalog, b));
    }
  }

  /** The mounted file passes the newer file's gate exactly when their reload-safe settings are the same. */
  lemma GateIsExact(catalog: Catalog, sha: string -> string, mounted: string, next: string)
    requires Separates(catalog, sha, mounted, next)
    ensures Passes(Effective(LineSetting, Stamped(mounted, ReloadHash(catalog, sha, mounted))),
                   Expected(catalog, sha, next)) <==>
            ReloadPart(catalog, mounted) == ReloadPart(catalog, next)
  {
    HashesAgree(catalog, sha, mounted, next);
    StampedMeans(mounted, ReloadHash(catalog, sha, mounted));
    MarkerNeedsRestart(catalog);
    GateByHash(Judge(catalog), MARKER, Effective(LineSetting, mounted), ReloadHash(catalog, sha, mounted),
               Effective(LineSetting, next), ReloadHash(catalog, sha, next));
  }

  /** A stamped file always passes its own gate. */
  lemma PassesItself(catalog: Catalog, sha: string -> string, rendered: string)
    requires Hex(ReloadHash(catalog, sha, rendered))
    ensures Passes(Effective(LineSetting, Stamped(rendered, ReloadHash(catalog, sha, rendered))),
                   Expected(catalog, sha, rendered))
  {
    GateIsExact(catalog, sha, rendered, rendered);
  }

  /** A change that only removes a reload-safe setting is caught too. */
  lemma RemovalIsCaught(catalog: Catalog, sha: string -> string, mounted: string, next: string, name: string)
    requires Separates(catalog, sha, mounted, next)
    requires name in ReloadPart(catalog, mounted) && name !in ReloadPart(catalog, next)
    ensures !Passes(Effective(LineSetting, Stamped(mounted, ReloadHash(catalog, sha, mounted))),
                    Expected(catalog, sha, next))
  {
    GateIsExact(catalog, sha, mounted, next);
  }

  /** Putting in a comment or a blank line moves neither hash and no expected setting. */
  lemma CosmeticEditMovesNothing(catalog: Catalog, sha: string -> string, a: string, line: string, b: string)
    requires '\n' !in line && (Trim(line) == "" || Trim(line)[0] == '#')
    ensures SplitOf(Judge(catalog), sha, Effective(LineSetting, a + "\n" + (line + "\n" + b))) ==
            SplitOf(Judge(catalog), sha, Effective(LineSetting, a + "\n" + b))
  {
    CommentIsIdle(line);
    IdleLine(LineSetting, a, line, b);
  }

  lemma SameParameter(name: string)
    requires Tight(name)
    ensures ParameterName(Lower(name)) == ParameterName(name)
  {
    TrimTight(name);
    LowerTwice(name);
    LowerTight(name);
    TrimTight(Lower(name));
  }

  lemma LowerJudgedAlike(catalog: Catalog, name: string, lower: string)
    requires Tight(name) && lower == Lower(name)
    ensures RequiresRestart(catalog, lower) == RequiresRestart(catalog, name)
  {
    assert ParameterName(lower) == ParameterName(name) by { SameParameter(name); }
    JudgedByParameter(catalog, lower, name);
  }

  /** How a name is written does not change whether it needs a restart. */
  lemma CaseDoesNotMatter(catalog: Catalog, name: string)
    requires Tight(name)
    ensures RequiresRestart(catalog, Lower(name)) == RequiresRestart(catalog, name)
  {
    LowerJudgedAlike(catalog, name, Lower(name));
  }

  lemma JudgedByParameter(catalog: Catalog, a: string, b: string)
    requires ParameterName(a) == ParameterName(b)
    ensures RequiresRestart(catalog, a) == RequiresRestart(catalog, b)
  {
  }

  lemma LowerTight(name: string)
    requires Tight(name)
    ensures Tight(Lower(name))
  {
    if name != "" {
      assert Lower(name)[0] == LowerChar(name[0]) && Lower(name)[|name| - 1] == LowerChar(name[|name| - 1]);
    }
  }
}
