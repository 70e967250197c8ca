/** A shard's configuration: the template, overridden, overlaid by the inline spec. */
module ShardMerge {
  import opened Options
  import opened Backups

  /** Resource requirements; absent when neither requests, limits nor claims are set. */
  datatype Resources = DefaultOrch | DefaultPostgres | DefaultPooler | Given(id: nat)

  datatype Multiorch = Multiorch(replicas: Option<int>, resources: Option<Resources>, affinity: Option<nat>,
                                 annotations: map<string, string>, labels: map<string, string>,
                                 placement: Option<nat>, cells: seq<string>)

  const NO_MULTIORCH := Multiorch(None, None, None, map[], map[], None, [])

  datatype Container = Container(resources: Option<Resources>, user: Option<int>, group: Option<int>)

  datatype Pool = Pool(kind: string, cells: seq<string>, replicas: Option<int>, storage: Storage, postgres: Container,
                       multipooler: Container, affinity: Option<nat>, tolerations: seq<nat>, fsGroup: Option<int>,
                       pvc: Option<PvcPolicy>)

  type Pools = map<string, Pool>

  function MergeMultiorch(base: Multiorch, over: Multiorch): Multiorch
  {
    Multiorch(Or(over.replicas, base.replicas), Or(over.resources, base.resources), Or(over.affinity, base.affinity),
              base.annotations + over.annotations, base.labels + over.labels, Or(over.placement, base.placement),
              OrList(over.cells, base.cells))
  }

  function MergeContainer(base: Container, over: Container): Container
  {
    Container(Or(over.resources, base.resources), Or(over.user, base.user), Or(over.group, base.group))
  }

  function MergePool(base: Pool, over: Pool): Pool
  {
    Pool(OrText(over.kind, base.kind), OrList(over.cells, base.cells), Or(over.replicas, base.replicas),
         MergeStorage(over.storage, base.storage), MergeContainer(base.postgres, over.postgres),
         MergeContainer(base.multipooler, over.multipooler), Or(over.affinity, base.affinity),
         OrList(over.tolerations, base.tolerations), Or(over.fsGroup, base.fsGroup), Or(over.pvc, base.pvc))
  }

  /** Overlay of one table on another, merging where both have an entry. */
  function Overlay<V>(merge: (V, V) -> V, base: map<string, V>, over: map<string, V>): map<string, V>
  {
    map k | k in base.Keys + over.Keys ::
      if k !in over then base[k] else if k in base then merge(base[k], over[k]) else over[k]
  }

  function MergePools(base: Pools, over: Pools): Pools { Overlay(MergePool, base, over) }

  method OverlayTables<V>(merge: (V, V) -> V, base: map<string, V>, over: map<string, V>) returns (r: map<string, V>)
    ensures r == Overlay(merge, base, over)
  {
    r := base;
    var left := over.Keys;
    while left != {}
      invariant left <= over.Keys
      invariant r.Keys == base.Keys + (over.Keys - left)
      invariant forall k | k in r && k !in left && k in over ::
                  r[k] == if k in base then merge(base[k], over[k]) else over[k]
      invariant forall k | k in r && (k in left || k !in over) :: k in base && r[k] == base[k]
    {
      var k :| k in left;
      var v := over[k];
      r := r[k := if k in r then merge(r[k], v) else v];
      left := left - {k};
    }
  }

  /** The overlay of one pool map on another, one pool at a time. */
  method OverlayPools(base: Pools, over: Pools) returns (pools: Pools)
    ensures pools == MergePools(base, over)
  {
    pools := OverlayTables(MergePool, base, over);
  }

  datatype Template = Template(multiorch: Option<Multiorch>, pools: Pools, pvc: Option<PvcPolicy>, initdb: string,
                               configRef: Option<nat>, config: map<string, string>)

  const NO_TEMPLATE := Template(None, map[], None, "", None, map[])

  datatype Overrides = Overrides(multiorch: Option<Multiorch>, pools: Pools, initdb: string, configRef: Option<nat>,
                                 config: map<string, string>)

  datatype Inline = Inline(multiorch: Multiorch, pools: Pools, pvc: Option<PvcPolicy>, initdb: string,
                           configRef: Option<nat>,
                           config: map<string, string>)

  datatype Shard = Shard(name: string, template: string, overrides: Option<Overrides>, spec: Option<Inline>,
                         backup: Option<Backup>)

  /** What a template contributes. */
  function FromTemplate(t: Template): Inline
  {
    Inline(if t.multiorch.Some? then t.multiorch.value else NO_MULTIORCH, t.pools, t.pvc, t.initdb, t.configRef,
           t.config)
  }

  function WithOverrides(base: Inline, o: Option<Overrides>): Inline
  {
    if o.None? then base
    else
      Inline(if o.value.multiorch.Some?
             then MergeMultiorch(base.multiorch, o.value.multiorch.value) else base.multiorch,
             MergePools(base.pools, o.value.pools), base.pvc, OrText(o.value.initdb, base.initdb),
             Or(o.value.configRef, base.configRef), base.config + o.value.config)
  }

  function WithInline(base: Inline, i: Option<Inline>): Inline
  {
    if i.None? then base
    else
      Inline(MergeMultiorch(base.multiorch, i.value.multiorch), MergePools(base.pools, i.value.pools),
             Or(i.value.pvc, base.pvc),
             OrText(i.value.initdb, base.initdb), Or(i.value.configRef, base.configRef), base.config + i.value.config)
  }

  function Merged(t: Template, s: Shard): Inline { WithInline(WithOverrides(FromTemplate(t), s.overrides), s.spec) }

  // ------------------------------------------------------------ absorption

  /** `r` already has everything `base` would lend it. */
  ghost predicate PoolAbsorbs(base: Pool, r: Pool) { MergePool(base, r) == r }

  ghost predicate PoolsAbsorb(base: Pools, r: Pools) { forall k | k in base :: k in r && PoolAbsorbs(base[k], r[k]) }

  ghost predicate Absorbs(base: Inline, r: Inline)
  {
    && MergeMultiorch(base.multiorch, r.multiorch) == r.multiorch && PoolsAbsorb(base.pools, r.pools)
    && Or(r.pvc, base.pvc) == r.pvc && OrText(r.initdb, base.initdb) == r.initdb
    && Or(r.configRef, base.configRef) == r.configRef && base.config + r.config == r.config
  }

  lemma PoolMergeAbsorbs(base: Pool, over: Pool)
    ensures PoolAbsorbs(base, MergePool(base, over)) && PoolAbsorbs(base, base)
  {
  }

  lemma PoolsMergeAbsorb(base: Pools, over: Pools)
    ensures PoolsAbsorb(base, MergePools(base, over))
  {
    forall k | k in base ensures PoolAbsorbs(base[k], MergePools(base, over)[k]) {
      if k in over { PoolMergeAbsorbs(base[k], over[k]); } else { PoolMergeAbsorbs(base[k], base[k]); }
    }
  }

  lemma PoolsAbsorbed(base: Pools, r: Pools)
    requires PoolsAbsorb(base, r)
    ensures MergePools(base, r) == r
  {
    forall k | k in MergePools(base, r) ensures k in r && MergePools(base, r)[k] == r[k] {
      if k in base { assert PoolAbsorbs(base[k], r[k]); }
    }
  }

  lemma MultiorchMergeAbsorbs(base: Multiorch, over: Multiorch)
    ensures var r := MergeMultiorch(base, over); MergeMultiorch(base, r) == r
  {
    assert base.annotations + (base.annotations + over.annotations) == base.annotations + over.annotations;
    assert base.labels + (base.labels + over.labels) == base.labels + over.labels;
  }

  /** Overlaying an inline spec gives something the base adds nothing to. */
  lemma MergeAbsorbs(base: Inline, i: Option<Inline>)
    ensures Absorbs(base, WithInline(base, i))
  {
    var over := if i.Some? then i.value.multiorch else base.multiorch;
    MultiorchMergeAbsorbs(base.multiorch, over);
    PoolsMergeAbsorb(base.pools, if i.Some? then i.value.pools else map[]);
    if i.Some? {
      assert base.config + (base.config + i.value.config) == base.config + i.value.config;
    } else {
      SelfAbsorbs(base);
    }
  }

  lemma SelfAbsorbs(base: Inline)
    ensures Absorbs(base, base)
  {
    assert base.multiorch.annotations + base.multiorch.annotations == base.multiorch.annotations;
    assert base.multiorch.labels + base.multiorch.labels == base.multiorch.labels;
    assert base.config + base.config == base.config;
    forall k | k in base.pools ensures PoolAbsorbs(base.pools[k], base.pools[k]) {
      PoolMergeAbsorbs(base.pools[k], base.pools[k]);
    }
  }

  lemma Absorbed(base: Inline, r: Inline)
    requires Absorbs(base, r)
    ensures WithInline(base, Some(r)) == r
  {
    PoolsAbsorbed(base.pools, r.pools);
  }
}
