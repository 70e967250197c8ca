/** Resolving a shard, and what admission stores for it. */
module ShardResolve {
  import opened Options
  import opened Backups
  import opened ShardMerge
  import ConfigOrder

  datatype Opts = Opts(allCells: seq<string>, inherited: Option<Backup>, materialize: bool, lite: bool)

  datatype Resolved = Resolved(spec: Inline, backup: Backup)

  const DEFAULT_POOL := "default"
  const DEFAULT_STORAGE := "1Gi"

  /** No cell stands before a smaller one. */
  ghost predicate InOrder(cells: seq<string>)
  {
    forall i, j | 0 <= i < j < |cells| :: ConfigOrder.AtMost(cells[i], cells[j])
  }

  function SortCells(cells: seq<string>): (r: seq<string>)
    ensures multiset(r) == multiset(cells) && |r| == |cells| && ConfigOrder.NonDescending(r)
  {
    if cells == [] then []
    else
      var rest := SortCells(cells[1..]);
      assert cells == [cells[0]] + cells[1..];
      InsertKeeps(rest, cells[0]);
      ConfigOrder.InsertNonDescending(rest, cells[0]);
      var r := ConfigOrder.Insert(rest, cells[0]);
      assert |multiset(r)| == |r| && |multiset(cells)| == |cells|;
      r
  }

  /** The cells themselves, each as often as before, in byte order. */
  lemma SortedCells(cells: seq<string>)
    ensures multiset(SortCells(cells)) == multiset(cells) && InOrder(SortCells(cells))
  {
    var r := SortCells(cells);
    forall i, j | 0 <= i < j < |r| ensures ConfigOrder.AtMost(r[i], r[j]) { ConfigOrder.NotAfter(r[i], r[j]); }
  }

  lemma {:induction false} InsertKeeps(ks: seq<string>, k: string)
    ensures multiset(ConfigOrder.Insert(ks, k)) == multiset(ks) + multiset{k}
  {
    if ks != [] {
      assert ks == [ks[0]] + ks[1..];
      if !ConfigOrder.Before(k, ks[0]) { InsertKeeps(ks[1..], k); }
    }
  }

  /** No cells means every cell of the cluster, filled in only when asked to. */
  function CellsFor(cells: seq<string>, o: Opts): seq<string>
  {
    if o.materialize && cells == [] then SortCells(o.allCells) else cells
  }

  function CompleteMultiorch(m: Multiorch, o: Opts): Multiorch
  {
    (if o.lite then m else m.(replicas := Or(m.replicas, Some(1)), resources := Or(m.resources, Some(DefaultOrch)))).(
      cells := CellsFor(m.cells, o))
  }

  /** A pool on a single cell gets two replicas, so that the shard can elect a primary. */
  function DefaultReplicas(cells: seq<string>, o: Opts): int
  {
    var effective := if cells == [] then |o.allCells| else |cells|;
    if effective == 1 && !o.lite then 2 else 1
  }

  function CompletePool(p: Pool, o: Opts): Pool
  {
    p.(cells := CellsFor(p.cells, o),
       replicas := Or(p.replicas, Some(DefaultReplicas(CellsFor(p.cells, o), o))),
       storage := p.storage.(size := OrText(p.storage.size, DEFAULT_STORAGE)),
       postgres := p.postgres.(resources := Or(p.postgres.resources, Some(DefaultPostgres))),
       multipooler := p.multipooler.(resources := Or(p.multipooler.resources, Some(DefaultPooler))))
  }

  function NewPool(cells: seq<string>): Pool
  {
    Pool("readWrite", cells, None, NO_STORAGE, Container(None, None, None), Container(None, None, None), None, [], None,
         None)
  }

  function SomePools(pools: Pools, cells: seq<string>): Pools
  {
    if pools == map[] then map[DEFAULT_POOL := NewPool(cells)] else pools
  }

  function CompletePools(pools: Pools, o: Opts): Pools { map k | k in pools :: CompletePool(pools[k], o) }

  function Complete(m: Inline, o: Opts): Inline
  {
    var orch := CompleteMultiorch(m.multiorch, o);
    m.(multiorch := orch, pools := CompletePools(SomePools(m.pools, orch.cells), o))
  }

  function Resolve(t: Template, s: Shard, o: Opts): Resolved
  {
    Resolved(Complete(Merged(t, s), o), ShardBackup(s.backup, o.inherited))
  }

  // ------------------------------------------------------------ the code

  method FinishPool(pool: Pool, o: Opts) returns (p: Pool)
    ensures p == CompletePool(pool, o)
  {
    p := pool;
    if o.materialize && p.cells == [] && |o.allCells| > 0 { p := p.(cells := SortCells(o.allCells)); }
    if p.replicas.None? && !o.lite {
      var effective := |p.cells|;
      if effective == 0 { effective := |o.allCells|; }
      if effective == 1 { p := p.(replicas := Some(2)); }
    }
    if p.replicas.None? { p := p.(replicas := Some(1)); }
    if p.storage.size == "" { p := p.(storage := p.storage.(size := DEFAULT_STORAGE)); }
    if p.postgres.resources.None? { p := p.(postgres := p.postgres.(resources := Some(DefaultPostgres))); }
    if p.multipooler.resources.None? { p := p.(multipooler := p.multipooler.(resources := Some(DefaultPooler))); }
  }

  method FinishPools(pools: Pools, o: Opts) returns (r: Pools)
    ensures r == CompletePools(pools, o)
  {
    r := pools;
    var left := pools.Keys;
    while left != {}
      invariant left <= pools.Keys && r.Keys == pools.Keys
      invariant forall k | k in pools && k in left :: r[k] == pools[k]
      invariant forall k | k in pools && k !in left :: r[k] == CompletePool(pools[k], o)
    {
      var k :| k in left;
      var p := FinishPool(r[k], o);
      r := r[k := p];
      left := left - {k};
    }
  }

  method ResolveShard(t: Template, s: Shard, o: Opts) returns (r: Resolved)
    ensures r == Resolve(t, s, o)
  {
    var spec := FromTemplate(t);
    if s.overrides.Some? {
      var over := s.overrides.value;
      var pools := OverlayPools(spec.pools, over.pools);
      var orch := if over.multiorch.Some? then MergeMultiorch(spec.multiorch, over.multiorch.value) else spec.multiorch;
      spec := Inline(orch, pools, spec.pvc, OrText(over.initdb, spec.initdb), Or(over.configRef, spec.configRef),
                     spec.config + over.config);
    }
    if s.spec.Some? {
      var own := s.spec.value;
      var pools := OverlayPools(spec.pools, own.pools);
      spec := Inline(MergeMultiorch(spec.multiorch, own.multiorch), pools, Or(own.pvc, spec.pvc),
                     OrText(own.initdb, spec.initdb),
                     Or(own.configRef, spec.configRef), spec.config + own.config);
    }
    var orch := CompleteMultiorch(spec.multiorch, o);
    var pools := FinishPools(SomePools(spec.pools, orch.cells), o);
    r := Resolved(spec.(multiorch := orch, pools := pools), ShardBackup(s.backup, o.inherited));
  }

  // ------------------------------------------------------------ admission

  /** What admission stores: the shard resolved without filling in cells. */
  function Stored(t: Template, s: Shard, o: Opts): Shard
  {
    var r := Resolve(t, s, o.(materialize := false));
    var pvc := if s.spec.Some? && s.spec.value.pvc.Some? then s.spec.value.pvc else r.spec.pvc;
    s.(spec := Some(r.spec.(pvc := pvc)), backup := Some(r.backup))
  }

  lemma PoolStaysAbsorbed(base: Pool, p: Pool, o: Opts)
    requires PoolAbsorbs(base, p)
    ensures PoolAbsorbs(base, CompletePool(p, o))
  {
    assert p.cells == [] ==> base.cells == [];
  }

  lemma PoolsStayAbsorbed(base: Pools, pools: Pools, cells: seq<string>, o: Opts)
    requires PoolsAbsorb(base, pools)
    ensures PoolsAbsorb(base, CompletePools(SomePools(pools, cells), o))
  {
    forall k | k in base ensures PoolAbsorbs(base[k], CompletePools(SomePools(pools, cells), o)[k]) {
      assert PoolAbsorbs(base[k], pools[k]);
      PoolStaysAbsorbed(base[k], pools[k], o);
    }
  }

  /** Defaults fill only what is unset, so the base still adds nothing. */
  lemma StaysAbsorbed(base: Inline, m: Inline, o: Opts)
    requires Absorbs(base, m)
    ensures Absorbs(base, Complete(m, o))
  {
    PoolsStayAbsorbed(base.pools, m.pools, CompleteMultiorch(m.multiorch, o).cells, o);
    assert m.multiorch.cells == [] ==> base.multiorch.cells == [];
  }

  lemma PoolTwice(p: Pool, o: Opts)
    ensures CompletePool(CompletePool(p, o.(materialize := false)), o) == CompletePool(p, o)
  {
  }

  /** The new default pool takes the orchestrator's cells, filled in now or later. */
  lemma NewPoolTwice(cells: seq<string>, o: Opts)
    ensures CompletePool(NewPool(cells), o) == CompletePool(NewPool(CellsFor(cells, o)), o)
  {
  }

  lemma PoolsTwice(pools: Pools, o: Opts)
    ensures CompletePools(CompletePools(pools, o.(materialize := false)), o) == CompletePools(pools, o)
  {
    forall k | k in pools
      ensures CompletePool(CompletePool(pools[k], o.(materialize := false)), o) == CompletePool(pools[k], o)
    { PoolTwice(pools[k], o); }
  }

  lemma SomePoolsLater(pools: Pools, cells: seq<string>, o: Opts)
    ensures CompletePools(SomePools(pools, cells), o) == CompletePools(SomePools(pools, CellsFor(cells, o)), o)
  {
    NewPoolTwice(cells, o);
  }

  /** Completing without cells and then with them is completing with them. */
  lemma CompleteTwice(m: Inline, o: Opts)
    ensures Complete(Complete(m, o.(materialize := false)), o) == Complete(m, o)
  {
    var once := o.(materialize := false);
    var first := Complete(m, once);
    var pools := SomePools(m.pools, m.multiorch.cells);
    assert first.pools == CompletePools(pools, once);
    assert SomePools(first.pools, CompleteMultiorch(first.multiorch, o).cells) == first.pools by {
      SomeNotEmpty(m.pools, m.multiorch.cells);
      NotEmpty(pools, once);
    }
    PoolsTwice(pools, o);
    SomePoolsLater(m.pools, m.multiorch.cells, o);
  }

  lemma SomeNotEmpty(pools: Pools, cells: seq<string>)
    ensures SomePools(pools, cells) != map[]
  {
    if pools == map[] { assert DEFAULT_POOL in SomePools(pools, cells); }
  }

  lemma NotEmpty(pools: Pools, o: Opts)
    requires pools != map[]
    ensures CompletePools(pools, o) != map[]
  {
    var k :| k in pools;
    assert k in CompletePools(pools, o);
  }

  lemma StoredSpec(t: Template, s: Shard, o: Opts)
    ensures Stored(t, s, o).spec == Some(Complete(Merged(t, s), o.(materialize := false)))
  {
  }

  /** The stored spec merges to itself. */
  lemma StoredMerges(t: Template, s: Shard, o: Opts)
    ensures Merged(t, Stored(t, s, o)) == Complete(Merged(t, s), o.(materialize := false))
  {
    var base := WithOverrides(FromTemplate(t), s.overrides);
    MergeAbsorbs(base, s.spec);
    StaysAbsorbed(base, Merged(t, s), o.(materialize := false));
    StoredSpec(t, s, o);
    Absorbed(base, Complete(Merged(t, s), o.(materialize := false)));
  }

  /** Resolving what admission stored gives what resolving the shard as written gives, except for a bare S3 backup. */
  lemma AdmissionPreservesMeaning(t: Template, s: Shard, o: Opts)
    ensures Resolve(t, Stored(t, s, o), o) == Resolve(t, s, o) <==> !BareS3(s.backup, o.inherited)
  {
    StoredMerges(t, s, o);
    CompleteTwice(Merged(t, s), o);
    StoredBackupResolvesTheSame(s.backup, o.inherited);
  }

  /** Admitting a stored shard again changes nothing, with the same exception. */
  lemma AdmissionTwice(t: Template, s: Shard, o: Opts)
    ensures Stored(t, Stored(t, s, o), o) == Stored(t, s, o) <==> !BareS3(s.backup, o.inherited)
  {
    var once := o.(materialize := false);
    assert Stored(t, s, once) == Stored(t, s, o);
    AdmissionPreservesMeaning(t, s, once);
    StoredSpec(t, s, o);
    StoredSpec(t, Stored(t, s, o), o);
  }

  /** Under the schema's backup rule admission always preserves what is resolved. */
  lemma AdmissionPreservesUnderRule(t: Template, s: Shard, o: Opts)
    requires o.inherited.Some? ==> SectionPresent(o.inherited.value)
    ensures Resolve(t, Stored(t, s, o), o) == Resolve(t, s, o) && Stored(t, Stored(t, s, o), o) == Stored(t, s, o)
  {
    RuleExcludesBareS3(s.backup, o.inherited);
    AdmissionPreservesMeaning(t, s, o);
    AdmissionTwice(t, s, o);
  }

  // ------------------------------------------------------------ layers and counts

  function ReplicasIn(pools: Pools, k: string): Option<int> { if k in pools then pools[k].replicas else None }

  function CellsIn(pools: Pools, k: string): seq<string> { if k in pools then pools[k].cells else [] }

  function SizeIn(pools: Pools, k: string): string { if k in pools then pools[k].storage.size else "" }

  function OverridePools(s: Shard): Pools { if s.overrides.Some? then s.overrides.value.pools else map[] }

  function InlinePools(s: Shard): Pools { if s.spec.Some? then s.spec.value.pools else map[] }

  /** A pool exists if any layer names it, and each setting is the first one set: inline, override, template. */
  lemma InlineThenOverrideThenTemplate(t: Template, s: Shard, k: string)
    ensures var m, i, o := Merged(t, s).pools, InlinePools(s), OverridePools(s);
            && (k in m <==> k in i || k in o || k in t.pools)
            && ReplicasIn(m, k) == Or(ReplicasIn(i, k), Or(ReplicasIn(o, k), ReplicasIn(t.pools, k)))
            && CellsIn(m, k) == OrList(CellsIn(i, k), OrList(CellsIn(o, k), CellsIn(t.pools, k)))
            && SizeIn(m, k) == OrText(SizeIn(i, k), OrText(SizeIn(o, k), SizeIn(t.pools, k)))
  {
    PoolLayers(t, s);
    TwoLayers(t.pools, OverridePools(s), k);
    TwoLayers(MergePools(t.pools, OverridePools(s)), InlinePools(s), k);
  }

  lemma PoolLayers(t: Template, s: Shard)
    ensures Merged(t, s).pools == MergePools(MergePools(t.pools, OverridePools(s)), InlinePools(s))
  {
    EmptyOver(t.pools);
    EmptyOver(WithOverrides(FromTemplate(t), s.overrides).pools);
  }

  lemma TwoLayers(base: Pools, over: Pools, k: string)
    ensures var m := MergePools(base, over);
            && (k in m <==> k in over || k in base)
            && ReplicasIn(m, k) == Or(ReplicasIn(over, k), ReplicasIn(base, k))
            && CellsIn(m, k) == OrList(CellsIn(over, k), CellsIn(base, k))
            && SizeIn(m, k) == OrText(SizeIn(over, k), SizeIn(base, k))
  {
  }

  lemma EmptyOver(pools: Pools)
    ensures MergePools(pools, map[]) == pools
  {
  }

  /**
    Left to the defaults, a pool outside Lite mode has two poolers in all, more than one in a cell
    only when there is one cell.
   */
  lemma EnoughPoolers(p: Pool, o: Opts)
    requires p.replicas.None? && !o.lite
    ensures var q := CompletePool(p, o);
            var cells := if q.cells == [] then |o.allCells| else |q.cells|;
            cells > 0 ==> q.replicas.Some? && q.replicas.value * cells >= 2 && (q.replicas.value > 1 ==> cells == 1)
  {
  }

  /** Explicit replica counts, cells and sizes are never defaulted away. */
  lemma ExplicitStays(p: Pool, o: Opts)
    ensures var q := CompletePool(p, o);
            && (p.replicas.Some? ==> q.replicas == p.replicas) && (p.cells != [] ==> q.cells == p.cells)
            && (p.storage.size != "" ==> q.storage == p.storage)
            && (p.postgres.resources.Some? ==> q.postgres == p.postgres)
            && (p.multipooler.resources.Some? ==> q.multipooler == p.multipooler)
  {
  }

  // ------------------------------------------------------------ cells added or removed after admission

  predicate OneCell(o: Opts) { |o.allCells| == 1 }

  /** The pool's replica count is left to the number of cells the cluster has. */
  predicate Dynamic(p: Pool) { p.replicas.None? && p.cells == [] }

  /** Both lists of cells give a pool without its own the same number of replicas. */
  predicate SameDefault(a: Opts, b: Opts) { a.lite || (OneCell(a) <==> OneCell(b)) }

  lemma PoolUnderOtherCells(p: Pool, a: Opts, b: Opts)
    requires a.lite == b.lite
    ensures CompletePool(CompletePool(p, a.(materialize := false)), b) == CompletePool(p, b) <==>
            (Dynamic(p) ==> SameDefault(a, b))
  {
    var once := CompletePool(p, a.(materialize := false));
    assert once.cells == p.cells;
    assert CompletePool(once, b).replicas == once.replicas;
  }

  /** Some pool of the merged shard, or the pool it is given for want of one, is dynamic. */
  ghost predicate SomeDynamic(pools: Pools) { exists k | k in pools :: Dynamic(pools[k]) }

  lemma PoolsUnderOtherCells(pools: Pools, a: Opts, b: Opts)
    requires a.lite == b.lite
    ensures CompletePools(CompletePools(pools, a.(materialize := false)), b) == CompletePools(pools, b) <==>
            (SomeDynamic(pools) ==> SameDefault(a, b))
  {
    var x, y := CompletePools(CompletePools(pools, a.(materialize := false)), b), CompletePools(pools, b);
    forall k | k in pools ensures x[k] == y[k] <==> (Dynamic(pools[k]) ==> SameDefault(a, b)) {
      PoolUnderOtherCells(pools[k], a, b);
    }
    EqualPoolwise(x, y);
  }

  lemma EqualPoolwise(x: Pools, y: Pools)
    requires x.Keys == y.Keys
    ensures x == y <==> forall k | k in x :: x[k] == y[k]
  {
  }

  lemma CompleteUnderOtherCells(m: Inline, a: Opts, b: Opts)
    requires a.lite == b.lite
    ensures Complete(Complete(m, a.(materialize := false)), b) == Complete(m, b) <==>
            (SomeDynamic(SomePools(m.pools, m.multiorch.cells)) ==> SameDefault(a, b))
  {
    var once := a.(materialize := false);
    var pools := SomePools(m.pools, m.multiorch.cells);
    var first := Complete(m, once);
    SomeNotEmpty(m.pools, m.multiorch.cells);
    NotEmpty(pools, once);
    assert first.pools == CompletePools(pools, once);
    assert CompleteMultiorch(first.multiorch, b) == CompleteMultiorch(m.multiorch, b);
    SomePoolsLater(m.pools, m.multiorch.cells, b);
    PoolsUnderOtherCells(pools, a, b);
  }

  /**
    What admission stored under one list of cells and the reconciler resolves under
    another is what the shard as written resolves to, exactly when neither exception
    applies: a bare S3 backup, or a pool that left its replicas to the cells while the
    cluster went from one cell to several or back.
   */
  lemma StoredSpecStaysDynamicIff(t: Template, s: Shard, a: Opts, b: Opts)
    requires a.lite == b.lite && a.inherited == b.inherited
    ensures var m := Merged(t, s);
            Resolve(t, Stored(t, s, a), b) == Resolve(t, s, b) <==>
            !BareS3(s.backup, a.inherited) && (SomeDynamic(SomePools(m.pools, m.multiorch.cells)) ==> SameDefault(a, b))
  {
    StoredMerges(t, s, a);
    CompleteUnderOtherCells(Merged(t, s), a, b);
    StoredBackupResolvesTheSame(s.backup, a.inherited);
  }

  /** Such a shard: nothing set, admitted with one cell, resolved with two. */
  lemma ReplicasAreFrozen()
    ensures var s := Shard("0-inf", "", None, None, None);
            var one, two := Opts(["a"], None, true, false), Opts(["a", "b"], None, true, false);
            Resolve(NO_TEMPLATE, Stored(NO_TEMPLATE, s, one), two) != Resolve(NO_TEMPLATE, s, two)
  {
    var s := Shard("0-inf", "", None, None, None);
    var one, two := Opts(["a"], None, true, false), Opts(["a", "b"], None, true, false);
    StoredSpecStaysDynamicIff(NO_TEMPLATE, s, one, two);
    assert Dynamic(SomePools(Merged(NO_TEMPLATE, s).pools, [])[DEFAULT_POOL]);
  }
}
