/**
  Every setting of a resolved shard, one by one: the nearest layer that sets it, inline
  before override before template, and else its default.
 */
module ShardFields {
  import opened Options
  import opened Backups
  import opened ShardMerge
  import opened ShardResolve

  datatype Value =
    | Text(text: string)
    | Names(names: seq<string>)
    | Number(number: int)
    | Object(id: nat)
    | Objects(ids: seq<nat>)
    | Amounts(resources: Resources)
    | Policy(policy: PvcPolicy)

  function OfText(s: string): Option<Value> { if s == "" then None else Some(Text(s)) }

  function OfNames(s: seq<string>): Option<Value> { if s == [] then None else Some(Names(s)) }

  function OfNumber(n: Option<int>): Option<Value> { if n.None? then None else Some(Number(n.value)) }

  function OfObject(n: Option<nat>): Option<Value> { if n.None? then None else Some(Object(n.value)) }

  function OfObjects(s: seq<nat>): Option<Value> { if s == [] then None else Some(Objects(s)) }

  function OfAmounts(r: Option<Resources>): Option<Value> { if r.None? then None else Some(Amounts(r.value)) }

  function OfPolicy(p: Option<PvcPolicy>): Option<Value> { if p.None? then None else Some(Policy(p.value)) }

  function OfKey(m: map<string, string>, k: string): Option<Value> { if k in m then Some(Text(m[k])) else None }

  /** The nearest that is set. */
  function Nearest(inline: Option<Value>, over: Option<Value>, template: Option<Value>, default: Option<Value>):
    Option<Value>
  {
    if inline.Some? then inline else if over.Some? then over else if template.Some? then template else default
  }

  // ------------------------------------------------------------ pools

  datatype PoolField =
    | Kind
    | Cells
    | Replicas
    | StorageSize
    | StorageClass
    | AccessModes
    | PostgresResources
    | PostgresUser
    | PostgresGroup
    | PoolerResources
    | PoolerUser
    | PoolerGroup
    | Affinity
    | Tolerations
    | FsGroup
    | DeletionPolicy

  function Get(f: PoolField, p: Pool): Option<Value>
  {
    match f
    case Kind => OfText(p.kind)
    case Cells => OfNames(p.cells)
    case Replicas => OfNumber(p.replicas)
    case StorageSize => OfText(p.storage.size)
    case StorageClass => OfText(p.storage.storageClass)
    case AccessModes => OfNames(p.storage.accessModes)
    case PostgresResources => OfAmounts(p.postgres.resources)
    case PostgresUser => OfNumber(p.postgres.user)
    case PostgresGroup => OfNumber(p.postgres.group)
    case PoolerResources => OfAmounts(p.multipooler.resources)
    case PoolerUser => OfNumber(p.multipooler.user)
    case PoolerGroup => OfNumber(p.multipooler.group)
    case Affinity => OfObject(p.affinity)
    case Tolerations => OfObjects(p.tolerations)
    case FsGroup => OfNumber(p.fsGroup)
    case DeletionPolicy => OfPolicy(p.pvc)
  }

  function GetIn(f: PoolField, pools: Pools, k: string): Option<Value> { if k in pools then Get(f, pools[k]) else None }

  /** The cluster's cells in order, where cells are to be filled in. */
  function FilledCells(o: Opts): Option<Value>
  {
    if o.materialize then OfNames(SortCells(o.allCells)) else None
  }

  /** What is left of a setting that no layer sets; `own` are the cells the layers give the pool. */
  function Default(f: PoolField, own: seq<string>, o: Opts): Option<Value>
  {
    match f
    case Cells => FilledCells(o)
    case Replicas =>
      var cells := if own != [] then |own| else |o.allCells|;
      Some(Number(if cells == 1 && !o.lite then 2 else 1))
    case StorageSize => Some(Text("1Gi"))
    case PostgresResources => Some(Amounts(DefaultPostgres))
    case PoolerResources => Some(Amounts(DefaultPooler))
    case _ => None
  }

  lemma MergedField(f: PoolField, base: Pool, over: Pool)
    ensures Get(f, MergePool(base, over)) == if Get(f, over).Some? then Get(f, over) else Get(f, base)
  {
  }

  lemma CompletedField(f: PoolField, p: Pool, o: Opts)
    ensures Get(f, CompletePool(p, o)) == if Get(f, p).Some? then Get(f, p) else Default(f, p.cells, o)
  {
  }

  lemma MergedFieldIn(f: PoolField, base: Pools, over: Pools, k: string)
    ensures GetIn(f, MergePools(base, over), k) ==
            if GetIn(f, over, k).Some? then GetIn(f, over, k) else GetIn(f, base, k)
  {
    if k in base && k in over { MergedField(f, base[k], over[k]); }
  }

  /** The pools are those some layer names; without any, one named `default`. */
  lemma PoolsResolved(t: Template, s: Shard, o: Opts, k: string)
    ensures var inline, over := InlinePools(s), OverridePools(s);
            k in Resolve(t, s, o).spec.pools <==>
            k in inline || k in over || k in t.pools ||
            (k == "default" && inline == map[] && over == map[] && t.pools == map[])
  {
    var inline, over := InlinePools(s), OverridePools(s);
    PoolLayers(t, s);
    TwoLayers(t.pools, over, k);
    TwoLayers(MergePools(t.pools, over), inline, k);
    var m := Merged(t, s).pools;
    if m == map[] {
      AllEmpty(t.pools, over);
      AllEmpty(MergePools(t.pools, over), inline);
    }
  }

  lemma AllEmpty(base: Pools, over: Pools)
    requires MergePools(base, over) == map[]
    ensures base == map[] && over == map[]
  {
    forall k ensures k !in base && k !in over { assert k !in MergePools(base, over); }
  }

  /** Every setting of a pool some layer names. */
  lemma PoolFieldResolved(t: Template, s: Shard, o: Opts, k: string, f: PoolField)
    requires k in InlinePools(s) || k in OverridePools(s) || k in t.pools
    ensures k in Resolve(t, s, o).spec.pools
    ensures var own := OrList(CellsIn(InlinePools(s), k), OrList(CellsIn(OverridePools(s), k), CellsIn(t.pools, k)));
            Get(f, Resolve(t, s, o).spec.pools[k]) ==
            Nearest(GetIn(f, InlinePools(s), k), GetIn(f, OverridePools(s), k), GetIn(f, t.pools, k),
                    Default(f, own, o))
  {
    var inline, over := InlinePools(s), OverridePools(s);
    var m := Merged(t, s).pools;
    InlineThenOverrideThenTemplate(t, s, k);
    PoolLayers(t, s);
    MergedFieldIn(f, t.pools, over, k);
    MergedFieldIn(f, MergePools(t.pools, over), inline, k);
    CompletedField(f, m[k], o);
  }

  /** The pool a shard without any is given: the orchestrator's cells, `readWrite`, and defaults. */
  lemma InventedPoolResolved(t: Template, s: Shard, o: Opts, f: PoolField)
    requires InlinePools(s) == map[] && OverridePools(s) == map[] && t.pools == map[]
    ensures var spec := Resolve(t, s, o).spec;
            && spec.pools.Keys == {"default"} && spec.pools["default"].cells == spec.multiorch.cells
            && (f == Kind ==> Get(f, spec.pools["default"]) == Some(Text("readWrite")))
            && (f != Kind && f != Cells ==> Get(f, spec.pools["default"]) == Default(f, spec.multiorch.cells, o))
  {
    PoolLayers(t, s);
    var orch := CompleteMultiorch(Merged(t, s).multiorch, o);
    assert Merged(t, s).pools == map[];
    CompletedField(f, NewPool(orch.cells), o);
  }

  /** With `materialize` the cluster's cells, in order; without it none. */
  ghost predicate TheClustersCells(cells: seq<string>, o: Opts)
  {
    if o.materialize then multiset(cells) == multiset(o.allCells) && InOrder(cells) else cells == []
  }

  /** A pool that no layer gave cells. */
  lemma PoolCellsFilledIn(t: Template, s: Shard, o: Opts, k: string)
    requires k in InlinePools(s) || k in OverridePools(s) || k in t.pools
    requires CellsIn(InlinePools(s), k) == [] && CellsIn(OverridePools(s), k) == [] && CellsIn(t.pools, k) == []
    ensures k in Resolve(t, s, o).spec.pools && TheClustersCells(Resolve(t, s, o).spec.pools[k].cells, o)
  {
    PoolFieldResolved(t, s, o, k, Cells);
    SortedCells(o.allCells);
  }

  // ------------------------------------------------------------ the orchestrator

  datatype OrchField =
    | OrchReplicas
    | OrchResources
    | OrchAffinity
    | OrchPlacement
    | OrchCells
    | Annotation(key: string)
    | LabelOf(key: string)

  function OrchGet(f: OrchField, m: Multiorch): Option<Value>
  {
    match f
    case OrchReplicas => OfNumber(m.replicas)
    case OrchResources => OfAmounts(m.resources)
    case OrchAffinity => OfObject(m.affinity)
    case OrchPlacement => OfObject(m.placement)
    case OrchCells => OfNames(m.cells)
    case Annotation(key) => OfKey(m.annotations, key)
    case LabelOf(key) => OfKey(m.labels, key)
  }

  function OrchGetIn(f: OrchField, m: Option<Multiorch>): Option<Value>
  {
    if m.None? then None else OrchGet(f, m.value)
  }

  function OrchDefault(f: OrchField, o: Opts): Option<Value>
  {
    match f
    case OrchReplicas => if o.lite then None else Some(Number(1))
    case OrchResources => if o.lite then None else Some(Amounts(DefaultOrch))
    case OrchCells => FilledCells(o)
    case _ => None
  }

  function OverrideOrch(s: Shard): Option<Multiorch> { if s.overrides.None? then None else s.overrides.value.multiorch }

  function InlineOrch(s: Shard): Option<Multiorch> { if s.spec.None? then None else Some(s.spec.value.multiorch) }

  lemma MergedOrchField(f: OrchField, base: Multiorch, over: Multiorch)
    ensures OrchGet(f, MergeMultiorch(base, over)) ==
            if OrchGet(f, over).Some? then OrchGet(f, over) else OrchGet(f, base)
  {
  }

  lemma CompletedOrchField(f: OrchField, m: Multiorch, o: Opts)
    ensures OrchGet(f, CompleteMultiorch(m, o)) == if OrchGet(f, m).Some? then OrchGet(f, m) else OrchDefault(f, o)
  {
  }

  lemma TemplateOrchField(f: OrchField, t: Template)
    ensures OrchGet(f, FromTemplate(t).multiorch) == OrchGetIn(f, t.multiorch)
  {
  }

  lemma OverriddenOrchField(f: OrchField, base: Inline, o: Option<Overrides>)
    ensures var over := if o.None? then None else OrchGetIn(f, o.value.multiorch);
            OrchGet(f, WithOverrides(base, o).multiorch) == if over.Some? then over else OrchGet(f, base.multiorch)
  {
    if o.Some? && o.value.multiorch.Some? { MergedOrchField(f, base.multiorch, o.value.multiorch.value); }
  }

  lemma InlinedOrchField(f: OrchField, base: Inline, i: Option<Inline>)
    ensures var own := if i.None? then None else OrchGet(f, i.value.multiorch);
            OrchGet(f, WithInline(base, i).multiorch) == if own.Some? then own else OrchGet(f, base.multiorch)
  {
    if i.Some? { MergedOrchField(f, base.multiorch, i.value.multiorch); }
  }

  /** Every setting of the orchestrator. */
  lemma OrchFieldResolved(t: Template, s: Shard, o: Opts, f: OrchField)
    ensures OrchGet(f, Resolve(t, s, o).spec.multiorch) ==
            Nearest(OrchGetIn(f, InlineOrch(s)), OrchGetIn(f, OverrideOrch(s)), OrchGetIn(f, t.multiorch),
                    OrchDefault(f, o))
  {
    TemplateOrchField(f, t);
    OverriddenOrchField(f, FromTemplate(t), s.overrides);
    InlinedOrchField(f, WithOverrides(FromTemplate(t), s.overrides), s.spec);
    CompletedOrchField(f, Merged(t, s).multiorch, o);
  }

  /** An orchestrator that no layer gave cells. */
  lemma OrchCellsFilledIn(t: Template, s: Shard, o: Opts)
    requires OrchGetIn(OrchCells, InlineOrch(s)).None? && OrchGetIn(OrchCells, OverrideOrch(s)).None?
    requires OrchGetIn(OrchCells, t.multiorch).None?
    ensures TheClustersCells(Resolve(t, s, o).spec.multiorch.cells, o)
  {
    OrchFieldResolved(t, s, o, OrchCells);
    SortedCells(o.allCells);
  }

  // ------------------------------------------------------------ the shard itself

  datatype ShardField = InitdbArgs | ConfigRef | ConfigKey(key: string) | ShardPolicy

  function ShardGet(f: ShardField, i: Inline): Option<Value>
  {
    match f
    case InitdbArgs => OfText(i.initdb)
    case ConfigRef => OfObject(i.configRef)
    case ConfigKey(key) => OfKey(i.config, key)
    case ShardPolicy => OfPolicy(i.pvc)
  }

  function TemplateGet(f: ShardField, t: Template): Option<Value>
  {
    match f
    case InitdbArgs => OfText(t.initdb)
    case ConfigRef => OfObject(t.configRef)
    case ConfigKey(key) => OfKey(t.config, key)
    case ShardPolicy => OfPolicy(t.pvc)
  }

  /** Overrides have no deletion policy. */
  function OverridesGet(f: ShardField, o: Option<Overrides>): Option<Value>
  {
    if o.None? then None
    else
      match f
      case InitdbArgs => OfText(o.value.initdb)
      case ConfigRef => OfObject(o.value.configRef)
      case ConfigKey(key) => OfKey(o.value.config, key)
      case ShardPolicy => None
  }

  function InlineGet(f: ShardField, i: Option<Inline>): Option<Value> { if i.None? then None else ShardGet(f, i.value) }

  lemma OverriddenField(f: ShardField, base: Inline, o: Option<Overrides>)
    ensures ShardGet(f, WithOverrides(base, o)) ==
            if OverridesGet(f, o).Some? then OverridesGet(f, o) else ShardGet(f, base)
  {
  }

  lemma InlinedField(f: ShardField, base: Inline, i: Option<Inline>)
    ensures ShardGet(f, WithInline(base, i)) == if InlineGet(f, i).Some? then InlineGet(f, i) else ShardGet(f, base)
  {
  }

  lemma CompletionKeepsField(f: ShardField, m: Inline, o: Opts)
    ensures ShardGet(f, Complete(m, o)) == ShardGet(f, m)
  {
  }

  /** Every other setting of the shard; none has a default. */
  lemma ShardFieldResolved(t: Template, s: Shard, o: Opts, f: ShardField)
    ensures ShardGet(f, Resolve(t, s, o).spec) ==
            Nearest(InlineGet(f, s.spec), OverridesGet(f, s.overrides), TemplateGet(f, t), None)
  {
    OverriddenField(f, FromTemplate(t), s.overrides);
    InlinedField(f, WithOverrides(FromTemplate(t), s.overrides), s.spec);
    CompletionKeepsField(f, Merged(t, s), o);
  }
}
