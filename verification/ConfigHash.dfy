/** The pre-image of a settings hash: sorted `name=value` lines. */
module ConfigHash {
  import opened Options
  import opened ConfigParse
  import opened ConfigOrder
  import opened ConfigRender

  function RawLine(m: Settings): string -> string { k => k + "=" + Lookup(m, k) }

  ghost function PreImage(m: Settings): string { Write(RawLine(m), Sorted(m.Keys)) }

  method HashSettings(m: Settings, sha: string -> string) returns (h: string)
    ensures h == sha(PreImage(m))
  {
    var keys := SortKeys(m.Keys);
    var text := WriteLines(RawLine(m), "", keys);
    assert text == PreImage(m);
    h := sha(text);
  }

  // ------------------------------------------------------------ reading a pre-image back

  /** A line cut at its first equals sign, nothing trimmed. */
  function RawSetting(line: string): Option<Setting>
  {
    var e := FirstEquals(line);
    if e == |line| then None else Some(Setting(line[..e], line[e + 1..]))
  }

  lemma RawLineReads(k: string, v: string)
    requires '=' !in k
    ensures RawSetting(k + "=" + v) == Some(Setting(k, v))
  {
    var t := k + "=" + v;
    var e := FirstEquals(t);
    assert t[..|k|] == k && t[|k|] == '=' && t[|k| + 1..] == v;
    assert forall i | 0 <= i < |k| :: t[i] == k[i];
    assert forall i | 0 <= i < e :: t[i] == t[..e][i];
  }

  function Identity(m: Settings): string -> Setting { k => Setting(k, Lookup(m, k)) }

  lemma RawReadable(m: Settings)
    requires Plain(m)
    ensures Readable(RawSetting, RawLine(m), Identity(m), Sorted(m.Keys))
  {
    var names := Sorted(m.Keys);
    forall k | k in names ensures '\n' !in RawLine(m)(k) && RawSetting(RawLine(m)(k)) == Some(Identity(m)(k)) {
      assert k in Elements(names);
      RawLineReads(k, m[k]);
    }
    forall i, j | 0 <= i < j < |names| ensures names[i] != names[j] {
      BeforeIrreflexive(names[i]);
      assert Before(names[i], names[j]);
    }
  }

  /** The pre-image determines the settings. */
  lemma PreImageReadsBack(m: Settings)
    requires Plain(m)
    ensures MapValues((v: string) => v, Parse(RawSetting, PreImage(m))) == m
  {
    RawReadable(m);
    WrittenMeans(RawSetting, RawLine(m), Identity(m), (v: string) => v, m, m);
  }

  /** Different plain settings have different pre-images. */
  lemma PreImageInjective(a: Settings, b: Settings)
    requires Plain(a) && Plain(b) && PreImage(a) == PreImage(b)
    ensures a == b
  {
    PreImageReadsBack(a);
    PreImageReadsBack(b);
  }
}
