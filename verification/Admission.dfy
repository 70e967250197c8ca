/** The defaulting webhook's pass over a cluster's shards. */
module Admission {
  import opened Options
  import opened Backups
  import opened ShardMerge
  import opened ShardResolve
  import Levels

  datatype TableGroup = TableGroup(name: string, backup: Option<Backup>, shards: seq<Shard>)

  datatype Database = Database(name: string, backup: Option<Backup>, groups: seq<TableGroup>)

  /** What the pass knows of the cluster besides its databases. */
  datatype Context = Context(cells: seq<string>, backup: Option<Backup>, lite: bool, templated: bool)

  function InheritedBy(c: Context, d: Database, g: TableGroup): Option<Backup>
  {
    Merge(g.backup, Merge(d.backup, c.backup))
  }

  function OptsOf(c: Context, inherited: Option<Backup>, materialize: bool): Opts
  {
    Opts(c.cells, inherited, materialize, c.lite)
  }

  /** Shards that use a template are left to the reconciler. */
  predicate UsesTemplate(c: Context, s: Shard) { s.template != "" || c.templated }

  function AdmittedShard(c: Context, inherited: Option<Backup>, s: Shard): Shard
  {
    if UsesTemplate(c, s) then s else Stored(NO_TEMPLATE, s, OptsOf(c, inherited, false))
  }

  function AdmittedGroup(c: Context, d: Database, g: TableGroup): TableGroup
  {
    g.(shards := seq(|g.shards|, k requires 0 <= k < |g.shards| => AdmittedShard(c, InheritedBy(c, d, g), g.shards[k])))
  }

  function AdmittedDatabase(c: Context, d: Database): Database
  {
    d.(groups := seq(|d.groups|, j requires 0 <= j < |d.groups| => AdmittedGroup(c, d, d.groups[j])))
  }

  function AdmittedDatabases(c: Context, ds: seq<Database>): seq<Database>
  {
    seq(|ds|, i requires 0 <= i < |ds| => AdmittedDatabase(c, ds[i]))
  }

  /** Write the resolved spec and backup into one shard. */
  method DefaultShard(c: Context, inherited: Option<Backup>, s: Shard) returns (out: Shard)
    ensures out == AdmittedShard(c, inherited, s)
  {
    if UsesTemplate(c, s) { return s; }
    var r := ResolveShard(NO_TEMPLATE, s, OptsOf(c, inherited, false));
    var pvc := r.spec.pvc;
    if s.spec.Some? && s.spec.value.pvc.Some? { pvc := s.spec.value.pvc; }
    out := s.(spec := Some(r.spec.(pvc := pvc)), backup := Some(r.backup));
  }

  method DefaultGroup(c: Context, dbBackup: Option<Backup>, ghost d: Database, g: TableGroup) returns (out: TableGroup)
    requires dbBackup == Merge(d.backup, c.backup)
    ensures out == AdmittedGroup(c, d, g)
  {
    var inherited := Merge(g.backup, dbBackup);
    var shards := g.shards;
    for k := 0 to |shards|
      invariant |shards| == |g.shards|
      invariant forall x | 0 <= x < k :: shards[x] == AdmittedShard(c, inherited, g.shards[x])
      invariant forall x | k <= x < |shards| :: shards[x] == g.shards[x]
    {
      var s := DefaultShard(c, inherited, shards[k]);
      shards := shards[k := s];
    }
    out := g.(shards := shards);
  }

  method DefaultDatabase(c: Context, d: Database) returns (out: Database)
    ensures out == AdmittedDatabase(c, d)
  {
    var dbBackup := Merge(d.backup, c.backup);
    var groups := d.groups;
    for j := 0 to |groups|
      invariant |groups| == |d.groups|
      invariant forall x | 0 <= x < j :: groups[x] == AdmittedGroup(c, d, d.groups[x])
      invariant forall x | j <= x < |groups| :: groups[x] == d.groups[x]
    {
      var g := DefaultGroup(c, dbBackup, d, groups[j]);
      groups := groups[j := g];
    }
    out := d.(groups := groups);
  }

  class ClusterSpec {
    var databases: seq<Database>
    var cells: seq<string>
    var backup: Option<Backup>
    var lite: bool
    var templated: bool

    function Ctx(): Context
      reads this
    {
      Context(cells, backup, lite, templated)
    }

    /** Resolve every shard that uses no template, in place. */
    method DefaultShards()
      modifies this`databases
      ensures databases == AdmittedDatabases(Ctx(), old(databases))
    {
      var c := Ctx();
      for i := 0 to |databases|
        invariant |databases| == |old(databases)|
        invariant forall x | 0 <= x < i :: databases[x] == AdmittedDatabase(c, old(databases)[x])
        invariant forall x | i <= x < |databases| :: databases[x] == old(databases)[x]
      {
        var d := DefaultDatabase(c, databases[i]);
        databases := databases[i := d];
      }
    }
  }

  // ------------------------------------------------------------ what is stored

  /** A shard with a template stays as written; any other is stored as it resolves, with no cells filled in. */
  lemma StoredAsResolved(c: Context, inherited: Option<Backup>, s: Shard)
    ensures s.template != "" || c.templated ==> AdmittedShard(c, inherited, s) == s
    ensures s.template == "" && !c.templated ==>
              var r := Resolve(NO_TEMPLATE, s, Opts(c.cells, inherited, false, c.lite));
              AdmittedShard(c, inherited, s) == Shard(s.name, "", s.overrides, Some(r.spec), Some(r.backup))
  {
    if s.template == "" && !c.templated { StoredSpec(NO_TEMPLATE, s, OptsOf(c, inherited, false)); }
  }

  /** Everything but cells is spelled out in a stored pool; its cells are those that were written. */
  lemma StoredPoolIsSpelledOut(c: Context, inherited: Option<Backup>, s: Shard, k: string)
    requires s.template == "" && !c.templated && (k in InlinePools(s) || k in OverridePools(s))
    ensures var out := AdmittedShard(c, inherited, s).spec;
            && out.Some? && k in out.value.pools && var p := out.value.pools[k];
            && p.replicas.Some? && p.storage.size != "" && p.postgres.resources.Some? && p.multipooler.resources.Some?
            && p.cells == if CellsIn(InlinePools(s), k) != [] then CellsIn(InlinePools(s), k)
                          else CellsIn(OverridePools(s), k)
  {
    StoredAsResolved(c, inherited, s);
    InlineThenOverrideThenTemplate(NO_TEMPLATE, s, k);
  }

  /** The pass keeps every database and table group, and its shards in place. */
  lemma OnlyShardsChange(c: Context, ds: seq<Database>, i: nat)
    requires i < |ds|
    ensures var out := AdmittedDatabases(c, ds);
            && |out| == |ds| && out[i].name == ds[i].name && out[i].backup == ds[i].backup
            && |out[i].groups| == |ds[i].groups|
            && forall j | 0 <= j < |ds[i].groups| :: GroupKept(ds[i].groups[j], out[i].groups[j])
  {
    forall j | 0 <= j < |ds[i].groups|
      ensures GroupKept(ds[i].groups[j], AdmittedGroup(c, ds[i], ds[i].groups[j]))
    {
      var g := ds[i].groups[j];
      forall k | 0 <= k < |g.shards| ensures SameShard(g.shards[k], AdmittedGroup(c, ds[i], g).shards[k]) {
        StoredAsResolved(c, InheritedBy(c, ds[i], g), g.shards[k]);
      }
    }
  }

  ghost predicate SameShard(a: Shard, b: Shard)
  {
    a.name == b.name && a.template == b.template && a.overrides == b.overrides
  }

  ghost predicate GroupKept(a: TableGroup, b: TableGroup)
  {
    a.name == b.name && a.backup == b.backup && |a.shards| == |b.shards| &&
    forall k | 0 <= k < |a.shards| :: SameShard(a.shards[k], b.shards[k])
  }

  // ------------------------------------------------------------ meaning

  ghost predicate RuleHolds(b: Option<Backup>) { b.Some? ==> SectionPresent(b.value) }

  /** What the reconciler resolves for one shard, filling in cells. */
  function Meaning(c: Context, d: Database, g: TableGroup, s: Shard, t: Template): Resolved
  {
    Resolve(t, s, OptsOf(c, InheritedBy(c, d, g), true))
  }

  lemma ShardMeansTheSame(c: Context, inherited: Option<Backup>, s: Shard, t: Template)
    requires RuleHolds(inherited) && (!UsesTemplate(c, s) ==> t == NO_TEMPLATE)
    ensures Resolve(t, AdmittedShard(c, inherited, s), OptsOf(c, inherited, true)) ==
            Resolve(t, s, OptsOf(c, inherited, true))
  {
    assert OptsOf(c, inherited, true).(materialize := false) == OptsOf(c, inherited, false);
    if !UsesTemplate(c, s) { AdmissionPreservesUnderRule(NO_TEMPLATE, s, OptsOf(c, inherited, true)); }
  }

  lemma ShardTwice(c: Context, inherited: Option<Backup>, s: Shard)
    requires RuleHolds(inherited)
    ensures AdmittedShard(c, inherited, AdmittedShard(c, inherited, s)) == AdmittedShard(c, inherited, s)
  {
    if !UsesTemplate(c, s) { AdmissionPreservesUnderRule(NO_TEMPLATE, s, OptsOf(c, inherited, false)); }
  }

  lemma InheritedKeepsRule(c: Context, d: Database, g: TableGroup)
    requires RuleHolds(c.backup) && RuleHolds(d.backup) && RuleHolds(g.backup)
    ensures RuleHolds(InheritedBy(c, d, g))
  {
    MergeKeepsRule(d.backup, c.backup);
    MergeKeepsRule(g.backup, Merge(d.backup, c.backup));
  }

  /** Under the schema's backup rule, every shard of the admitted cluster resolves to what it did before. */
  lemma AdmittedClusterMeansTheSame(c: Context, ds: seq<Database>, i: nat, j: nat, k: nat, t: Template)
    requires i < |ds| && j < |ds[i].groups| && k < |ds[i].groups[j].shards|
    requires RuleHolds(c.backup) && RuleHolds(ds[i].backup) && RuleHolds(ds[i].groups[j].backup)
    requires !UsesTemplate(c, ds[i].groups[j].shards[k]) ==> t == NO_TEMPLATE
    ensures var out := AdmittedDatabases(c, ds)[i];
            Meaning(c, out, out.groups[j], out.groups[j].shards[k], t) ==
            Meaning(c, ds[i], ds[i].groups[j], ds[i].groups[j].shards[k], t)
  {
    var d, g, s := ds[i], ds[i].groups[j], ds[i].groups[j].shards[k];
    InheritedKeepsRule(c, d, g);
    ShardMeansTheSame(c, InheritedBy(c, d, g), s, t);
  }

  /** Admitting the admitted cluster changes nothing. */
  lemma AdmittedTwice(c: Context, ds: seq<Database>)
    requires RuleHolds(c.backup)
    requires forall i | 0 <= i < |ds| :: RuleHolds(ds[i].backup) &&
               forall j | 0 <= j < |ds[i].groups| :: RuleHolds(ds[i].groups[j].backup)
    ensures AdmittedDatabases(c, AdmittedDatabases(c, ds)) == AdmittedDatabases(c, ds)
  {
    forall i | 0 <= i < |ds| ensures AdmittedDatabase(c, AdmittedDatabase(c, ds[i])) == AdmittedDatabase(c, ds[i]) {
      DatabaseTwice(c, ds[i]);
    }
  }

  lemma DatabaseTwice(c: Context, d: Database)
    requires RuleHolds(c.backup) && RuleHolds(d.backup) &&
             forall j | 0 <= j < |d.groups| :: RuleHolds(d.groups[j].backup)
    ensures AdmittedDatabase(c, AdmittedDatabase(c, d)) == AdmittedDatabase(c, d)
  {
    var out := AdmittedDatabase(c, d);
    forall j | 0 <= j < |d.groups| ensures AdmittedGroup(c, out, out.groups[j]) == out.groups[j] {
      GroupTwice(c, d, out, d.groups[j]);
    }
    assert AdmittedDatabase(c, out).groups == out.groups;
  }

  lemma GroupTwice(c: Context, d: Database, out: Database, g: TableGroup)
    requires RuleHolds(c.backup) && RuleHolds(d.backup) && RuleHolds(g.backup) && out.backup == d.backup
    ensures AdmittedGroup(c, out, AdmittedGroup(c, d, g)) == AdmittedGroup(c, d, g)
  {
    InheritedKeepsRule(c, d, g);
    var once := AdmittedGroup(c, d, g);
    forall k | 0 <= k < |g.shards| ensures AdmittedShard(c, InheritedBy(c, d, g), once.shards[k]) == once.shards[k] {
      ShardTwice(c, InheritedBy(c, d, g), g.shards[k]);
    }
    assert AdmittedGroup(c, out, once).shards == once.shards;
  }

  // ------------------------------------------------------------ where a shard's backup comes from

  /** Shard, table group, database and cluster, nearest first. */
  function BackupLevels(c: Context, d: Database, g: TableGroup, s: Shard): seq<Option<Backup>>
  {
    [s.backup, g.backup, d.backup, c.backup]
  }

  lemma InheritedIsChain(c: Context, d: Database, g: TableGroup)
    ensures InheritedBy(c, d, g) == Levels.Chain([g.backup, d.backup, c.backup])
  {
    var levels := [g.backup, d.backup, c.backup];
    assert [c.backup][1..] == [] && [d.backup, c.backup][1..] == [c.backup] && levels[1..] == [d.backup, c.backup];
    assert Levels.Chain([c.backup]) == c.backup;
    assert Levels.Chain([d.backup, c.backup]) == Merge(d.backup, c.backup);
  }

  /**
    The backup the reconciler resolves has the kind of the nearest level that is set, and
    each setting is the nearest one said up to a level of another kind, else the default.
   */
  lemma BackupFollowsLevels(c: Context, d: Database, g: TableGroup, s: Shard, t: Template, f: Levels.Field)
    requires forall i | 0 <= i < 4 :: Levels.Valid(BackupLevels(c, d, g, s)[i])
    ensures var levels, backup := BackupLevels(c, d, g, s), Meaning(c, d, g, s, t).backup;
            var kind := if Levels.Kind(levels) == "" then FILESYSTEM else Levels.Kind(levels);
            backup.kind == kind &&
            (Levels.Belongs(f, kind) ==>
               Levels.Get(f, backup) == Or(Levels.Nearest(Levels.Span(levels, kind), f), Levels.Default(f, kind)))
  {
    var above := [g.backup, d.backup, c.backup];
    var levels := BackupLevels(c, d, g, s);
    assert levels == [s.backup] + above;
    assert forall i | 0 <= i < 3 :: above[i] == levels[i + 1];
    assert levels[0] == s.backup;
    InheritedIsChain(c, d, g);
    Levels.ResolvedBackup(s.backup, above, f);
  }
}
