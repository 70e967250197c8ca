/** Which settings restart the pods: the restart hash changes with those, and with no other. */
module RestartGate {
  import opened Options
  import opened ConfigText
  import opened ConfigParse
  import opened ConfigHash
  import opened ReloadGate

  // ------------------------------------------------------------ the two sides, written out

  /** Namespaced, unknown, or known without a context. */
  predicate Unclassified(catalog: Catalog, name: string)
  {
    '.' in name || name !in catalog || catalog[name] == ""
  }

  predicate FixedAtStart(context: string)
  {
    context == "postmaster" || context == "internal" || context == "backend" || context == "superuser-backend"
  }

  predicate Restarts(catalog: Catalog, name: string)
  {
    Unclassified(catalog, name) || FixedAtStart(catalog[name])
  }

  // ------------------------------------------------------------ names as the parser gives them

  predicate Canonical(name: string) { ParameterName(name) == name }

  ghost predicate CanonicalReader(f: Reader) { forall line | f(line).Some? :: Canonical(f(line).value.name) }

  lemma ParsedNameIsCanonical(left: string)
    ensures Canonical(Lower(Trim(left)))
  {
    SameParameter(Trim(left));
    TrimTight(Trim(left));
  }

  lemma LineSettingIsCanonical()
    ensures CanonicalReader(LineSetting)
  {
    forall line | LineSetting(line).Some? ensures Canonical(LineSetting(line).value.name) {
      var t := Trim(line);
      ParsedNameIsCanonical(t[..FirstEquals(t)]);
    }
  }

  lemma {:induction false} ReadIsCanonical(f: Reader, lines: seq<string>, k: string)
    requires CanonicalReader(f) && k in Read(f, lines)
    ensures Canonical(k)
  {
    var n := |lines| - 1;
    if f(lines[n]).None? || f(lines[n]).value.name != k { ReadIsCanonical(f, lines[..n], k); }
  }

  lemma ContextsAreFour(context: string)
    ensures context in RESTART_CONTEXTS <==> FixedAtStart(context)
  {
  }

  lemma ClassifiedAlike(catalog: Catalog, name: string)
    ensures NeedsRestart(catalog, name) <==> Restarts(catalog, name)
  {
    if name in catalog { ContextsAreFour(catalog[name]); }
  }

  lemma JudgedAsWritten(catalog: Catalog, name: string, lower: string)
    requires lower == ParameterName(name)
    ensures Judge(catalog)(name) <==> Restarts(catalog, lower)
  {
    ClassifiedAlike(catalog, lower);
  }

  lemma NamesAreJudged(catalog: Catalog, rendered: string, k: string)
    requires k in Effective(LineSetting, rendered)
    ensures Judge(catalog)(k) <==> Restarts(catalog, k)
  {
    LineSettingIsCanonical();
    ReadIsCanonical(LineSetting, Lines(rendered), k);
    JudgedAsWritten(catalog, k, k);
  }

  // ------------------------------------------------------------ the restart hash

  ghost function RestartPart(catalog: Catalog, rendered: string): Settings
  {
    Part(Judge(catalog), Effective(LineSetting, rendered), true)
  }

  ghost function RestartHash(catalog: Catalog, sha: string -> string, rendered: string): string
  {
    SplitOf(Judge(catalog), sha, Effective(LineSetting, rendered)).restartHash
  }

  /** Both give the name the same value, or neither sets it. */
  predicate SameValue(x: Settings, y: Settings, name: string)
  {
    (name in x <==> name in y) && (name in x ==> x[name] == y[name])
  }

  ghost predicate Agree(a: string, b: string, name: string)
  {
    SameValue(Effective(LineSetting, a), Effective(LineSetting, b), name)
  }

  ghost predicate RestartHashesDoNotCollide(catalog: Catalog, sha: string -> string, a: string, b: string)
  {
    RestartHash(catalog, sha, a) == RestartHash(catalog, sha, b) ==>
      PreImage(RestartPart(catalog, a)) == PreImage(RestartPart(catalog, b))
  }

  lemma SideIsPlain(judge: string -> bool, m: Settings, side: bool)
    requires Plain(m)
    ensures Plain(Part(judge, m, side))
  {
  }

  /** A setting is on the restart side exactly when its name, as the parser spells it, restarts. */
  lemma RestartPartIff(catalog: Catalog, rendered: string, name: string)
    ensures name in RestartPart(catalog, rendered) <==>
            name in Effective(LineSetting, rendered) && Restarts(catalog, name)
    ensures name in ReloadPart(catalog, rendered) <==>
            name in Effective(LineSetting, rendered) && !Unclassified(catalog, name) && !FixedAtStart(catalog[name])
  {
    if name in Effective(LineSetting, rendered) { NamesAreJudged(catalog, rendered, name); }
  }

  lemma SidesAgree(judge: string -> bool, restarts: string -> bool, x: Settings, y: Settings)
    requires forall k | k in x || k in y :: judge(k) == restarts(k)
    ensures Part(judge, x, true) == Part(judge, y, true) <==> forall k | restarts(k) :: SameValue(x, y, k)
  {
    var p, q := Part(judge, x, true), Part(judge, y, true);
    if p == q {
      forall k | restarts(k) ensures SameValue(x, y, k) {
        assert k in p <==> k in x;
        assert k in q <==> k in y;
      }
    }
    if forall k | restarts(k) :: SameValue(x, y, k) {
      assert forall k | k in p :: SameValue(x, y, k);
      assert forall k | k in q :: SameValue(x, y, k);
    }
  }

  lemma PartsAgree(catalog: Catalog, a: string, b: string)
    ensures RestartPart(catalog, a) == RestartPart(catalog, b) <==>
            forall name | Restarts(catalog, name) :: Agree(a, b, name)
  {
    var x, y := Effective(LineSetting, a), Effective(LineSetting, b);
    var restarts := name => Restarts(catalog, name);
    forall k | k in x || k in y ensures Judge(catalog)(k) == restarts(k) {
      if k in x { NamesAreJudged(catalog, a, k); } else { NamesAreJudged(catalog, b, k); }
    }
    SidesAgree(Judge(catalog), restarts, x, y);
    SameQuantifier(restarts, x, y, catalog);
  }

  lemma SameQuantifier(restarts: string -> bool, x: Settings, y: Settings, catalog: Catalog)
    requires forall k :: restarts(k) == Restarts(catalog, k)
    ensures (forall k | restarts(k) :: SameValue(x, y, k)) <==> (forall k | Restarts(catalog, k) :: SameValue(x, y, k))
  {
  }

  /** A change restarts the pods when a namespaced, unknown or contextless setting or one fixed at start differs. */
  lemma RestartHashIff(catalog: Catalog, sha: string -> string, a: string, b: string)
    requires RestartHashesDoNotCollide(catalog, sha, a, b)
    ensures RestartHash(catalog, sha, a) == RestartHash(catalog, sha, b) <==>
            && (forall name | Unclassified(catalog, name) :: Agree(a, b, name))
            && (forall name | !Unclassified(catalog, name) && FixedAtStart(catalog[name]) :: Agree(a, b, name))
  {
    var p, q := RestartPart(catalog, a), RestartPart(catalog, b);
    PartsAgree(catalog, a, b);
    assert (forall name | Restarts(catalog, name) :: Agree(a, b, name)) <==>
           && (forall name | Unclassified(catalog, name) :: Agree(a, b, name))
           && (forall name | !Unclassified(catalog, name) && FixedAtStart(catalog[name]) :: Agree(a, b, name));
    if RestartHash(catalog, sha, a) == RestartHash(catalog, sha, b) {
      EffectiveIsPlain(a);
      EffectiveIsPlain(b);
      SideIsPlain(Judge(catalog), Effective(LineSetting, a), true);
      SideIsPlain(Judge(catalog), Effective(LineSetting, b), true);
      PreImageInjective(p, q);
    }
  }

  /** Whatever the hash function, an edit confined to known parameters a reload applies restarts nothing. */
  lemma ReloadableEditRestartsNothing(catalog: Catalog, sha: string -> string, a: string, b: string)
    requires forall name | !Agree(a, b, name) :: !Unclassified(catalog, name) && !FixedAtStart(catalog[name])
    ensures RestartHash(catalog, sha, a) == RestartHash(catalog, sha, b)
  {
    PartsAgree(catalog, a, b);
  }
}
