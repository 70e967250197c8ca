/** A Lite cluster's database, table group, shard, pool and cell may never change while it lives. */
module LiteIdentity {
  import opened Options
  import opened ShardMerge
  import opened ShardResolve
  import opened ShardFields
  import opened Admission

  datatype Cluster = Cluster(lite: bool, live: bool, cells: seq<string>, defaultTemplate: string,
                             databases: seq<Database>)

  type Templates = map<string, Template>

  const FALLBACK := "default"

  // ------------------------------------------------------------ template resolution

  /** A missing fallback template is empty; any other missing template is an error. */
  function ResolveTemplate(ts: Templates, name: string): Option<Template>
  {
    var resolved := if name == "" then FALLBACK else name;
    if resolved in ts then Some(ts[resolved]) else if resolved == FALLBACK then Some(NO_TEMPLATE) else None
  }

  function Ref(c: Cluster, s: Shard): string { if s.template != "" then s.template else c.defaultTemplate }

  function Consumes(c: Cluster, s: Shard): string { if Ref(c, s) == "" then FALLBACK else Ref(c, s) }

  // ------------------------------------------------------------ identity

  datatype Identity = Identity(database: string, group: string, shard: string, pool: string, cell: string)

  function Text(id: Identity): string
  {
    id.database + "/" + (id.group + "/" + (id.shard + "/" + (id.pool + "/" + id.cell)))
  }

  predicate SingleShard(c: Cluster)
  {
    |c.databases| == 1 && |c.databases[0].groups| == 1 && |c.databases[0].groups[0].shards| == 1 && |c.cells| == 1
  }

  function TheShard(c: Cluster): Shard
    requires SingleShard(c)
  {
    c.databases[0].groups[0].shards[0]
  }

  function LitePools(c: Cluster, t: Template): Pools
    requires SingleShard(c)
  {
    Resolve(t, TheShard(c), Opts(c.cells, None, true, true)).spec.pools
  }

  ghost function IdentityUnder(c: Cluster, t: Option<Template>): Option<Identity>
    requires SingleShard(c)
  {
    if t.None? then None
    else
      var pools := LitePools(c, t.value);
      if |pools| != 1 then None
      else
        assert pools.Keys != {};
        var k :| k in pools;
        if |pools[k].cells| != 1 then None
        else Some(Identity(c.databases[0].name, c.databases[0].groups[0].name, TheShard(c).name, k, pools[k].cells[0]))
  }

  ghost function IdentityOf(c: Cluster, ts: Templates): Option<Identity>
  {
    if !SingleShard(c) then None else IdentityUnder(c, ResolveTemplate(ts, Ref(c, TheShard(c))))
  }

  method ResolvedLiteIdentity(c: Cluster, ts: Templates) returns (r: Option<Identity>)
    ensures r == IdentityOf(c, ts)
  {
    if |c.databases| != 1 || |c.databases[0].groups| != 1 || |c.databases[0].groups[0].shards| != 1 || |c.cells| != 1 {
      return None;
    }
    var d := c.databases[0];
    var g := d.groups[0];
    var s := g.shards[0];
    var t := ResolveTemplate(ts, if s.template != "" then s.template else c.defaultTemplate);
    if t.None? { return None; }
    var resolved := ResolveShard(t.value, s, Opts(c.cells, None, true, true));
    var pools := resolved.spec.pools;
    if |pools| != 1 { return None; }
    assert pools.Keys != {};
    var k :| k in pools;
    OnlyKey(pools, k);
    if |pools[k].cells| != 1 { return None; }
    return Some(Identity(d.name, g.name, s.name, k, pools[k].cells[0]));
  }

  lemma OnlyKey(pools: Pools, k: string)
    requires |pools| == 1 && k in pools
    ensures forall j | j in pools :: j == k
  {
    forall j | j in pools ensures j == k {
      if j != k { assert {j, k} <= pools.Keys; Subset({j, k}, pools.Keys); }
    }
  }

  lemma {:induction false} Subset(a: set<string>, b: set<string>)
    requires a <= b
    ensures |a| <= |b|
    decreases |a|
  {
    if a != {} {
      var x :| x in a;
      Subset(a - {x}, b - {x});
    }
  }

  /** An identity names the one database, table group and shard, the one resolved pool and that pool's one cell. */
  lemma IdentityIff(c: Cluster, t: Template, id: Identity)
    requires SingleShard(c)
    ensures IdentityUnder(c, Some(t)) == Some(id) <==>
            && id.database == c.databases[0].name && id.group == c.databases[0].groups[0].name
            && id.shard == c.databases[0].groups[0].shards[0].name
            && LitePools(c, t).Keys == {id.pool} && LitePools(c, t)[id.pool].cells == [id.cell]
  {
    var pools := LitePools(c, t);
    if pools.Keys == {id.pool} { assert |pools| == |{id.pool}|; }
    if |pools| == 1 {
      assert pools.Keys != {};
      var k :| k in pools;
      OnlyKey(pools, k);
      assert pools.Keys == {k};
      if |pools[k].cells| == 1 { assert pools[k].cells == [pools[k].cells[0]]; }
    }
  }

  /** So two clusters with the same identity agree on all five. */
  lemma EqualIdentities(a: Cluster, s: Template, b: Cluster, t: Template)
    requires SingleShard(a) && SingleShard(b)
    requires IdentityUnder(a, Some(s)).Some? && IdentityUnder(a, Some(s)) == IdentityUnder(b, Some(t))
    ensures a.databases[0].name == b.databases[0].name
    ensures a.databases[0].groups[0].name == b.databases[0].groups[0].name
    ensures a.databases[0].groups[0].shards[0].name == b.databases[0].groups[0].shards[0].name
    ensures LitePools(a, s).Keys == LitePools(b, t).Keys
    ensures forall k | k in LitePools(a, s) :: LitePools(a, s)[k].cells == LitePools(b, t)[k].cells
  {
    var id := IdentityUnder(a, Some(s)).value;
    IdentityIff(a, s, id);
    IdentityIff(b, t, id);
  }

  /** A pool that no layer gave cells is on the cluster's one cell. */
  lemma CellIsTheClusters(c: Cluster, t: Template)
    requires SingleShard(c) && IdentityUnder(c, Some(t)).Some?
    requires var k, s := IdentityUnder(c, Some(t)).value.pool, TheShard(c);
             && (k in InlinePools(s) || k in OverridePools(s) || k in t.pools)
             && CellsIn(InlinePools(s), k) == [] && CellsIn(OverridePools(s), k) == [] && CellsIn(t.pools, k) == []
    ensures IdentityUnder(c, Some(t)).value.cell == c.cells[0]
  {
    var id, o := IdentityUnder(c, Some(t)).value, Opts(c.cells, None, true, true);
    IdentityIff(c, t, id);
    PoolCellsFilledIn(t, TheShard(c), o, id.pool);
    OnlyCell(id.cell, c.cells);
  }

  lemma OnlyCell(cell: string, cells: seq<string>)
    requires |cells| == 1 && multiset([cell]) == multiset(cells)
    ensures cell == cells[0]
  {
    assert cells == [cells[0]];
    assert multiset([cell])[cells[0]] == 1;
  }

  /** A shard with no pools and no orchestrator cells anywhere is the pool `default` on the cluster's one cell. */
  lemma InventedIdentity(c: Cluster, t: Template)
    requires SingleShard(c)
    requires var s := TheShard(c);
             && InlinePools(s) == map[] && OverridePools(s) == map[] && t.pools == map[]
             && OrchGetIn(OrchCells, InlineOrch(s)).None? && OrchGetIn(OrchCells, OverrideOrch(s)).None?
             && OrchGetIn(OrchCells, t.multiorch).None?
    ensures IdentityUnder(c, Some(t)) ==
            Some(Identity(c.databases[0].name, c.databases[0].groups[0].name, TheShard(c).name, "default", c.cells[0]))
  {
    var o, d := Opts(c.cells, None, true, true), c.databases[0];
    var id := Identity(d.name, d.groups[0].name, TheShard(c).name, "default", c.cells[0]);
    InventedPoolResolved(t, TheShard(c), o, Kind);
    OrchCellsFilledIn(t, TheShard(c), o);
    var cells := LitePools(c, t)["default"].cells;
    assert |multiset(cells)| == |multiset(c.cells)|;
    OnlyCell(cells[0], c.cells) by { assert cells == [cells[0]]; }
    IdentityIff(c, t, id);
  }

  predicate SlashFree(id: Identity)
  {
    '/' !in id.database && '/' !in id.group && '/' !in id.shard && '/' !in id.pool && '/' !in id.cell
  }

  lemma CutAtSlash(a: string, b: string, x: string, y: string)
    requires '/' !in a && '/' !in b && a + "/" + x == b + "/" + y
    ensures a == b && x == y
  {
    var t := a + "/" + x;
    assert t[..|a|] == a && t[..|b|] == b && t[|a|] == '/' && t[|b|] == '/';
    assert forall i | 0 <= i < |a| :: t[i] == a[i];
    assert forall i | 0 <= i < |b| :: t[i] == b[i];
    assert t[|a| + 1..] == x && t[|b| + 1..] == y;
  }

  /** The joined text tells identities apart, since no name holds a slash. */
  lemma TextInjective(a: Identity, b: Identity)
    requires SlashFree(a) && SlashFree(b) && Text(a) == Text(b)
    ensures a == b
  {
    CutAtSlash(a.database, b.database, a.group + "/" + (a.shard + "/" + (a.pool + "/" + a.cell)),
               b.group + "/" + (b.shard + "/" + (b.pool + "/" + b.cell)));
    CutAtSlash(a.group, b.group, a.shard + "/" + (a.pool + "/" + a.cell), b.shard + "/" + (b.pool + "/" + b.cell));
    CutAtSlash(a.shard, b.shard, a.pool + "/" + a.cell, b.pool + "/" + b.cell);
    CutAtSlash(a.pool, b.pool, a.cell, b.cell);
  }

  // ------------------------------------------------------------ the consumer filter

  ghost predicate Uses(c: Cluster, name: string)
  {
    exists i, j, k | 0 <= i < |c.databases| && 0 <= j < |c.databases[i].groups| &&
      0 <= k < |c.databases[i].groups[j].shards| ::
      Consumes(c, c.databases[i].groups[j].shards[k]) == name
  }

  method UsesResolvedShardTemplate(c: Cluster, name: string) returns (r: bool)
    ensures r <==> Uses(c, name)
  {
    for i := 0 to |c.databases|
      invariant forall a, b, e | 0 <= a < i && 0 <= b < |c.databases[a].groups| &&
                  0 <= e < |c.databases[a].groups[b].shards| ::
                  Consumes(c, c.databases[a].groups[b].shards[e]) != name
    {
      var d := c.databases[i];
      for j := 0 to |d.groups|
        invariant forall b, e | 0 <= b < j && 0 <= e < |d.groups[b].shards| ::
                    Consumes(c, d.groups[b].shards[e]) != name
      {
        for k := 0 to |d.groups[j].shards|
          invariant forall e | 0 <= e < k :: Consumes(c, d.groups[j].shards[e]) != name
        {
          var ref := d.groups[j].shards[k].template;
          if ref == "" { ref := c.defaultTemplate; }
          if ref == "" { ref := FALLBACK; }
          if ref == name {
            assert Consumes(c, c.databases[i].groups[j].shards[k]) == name;
            return true;
          }
        }
      }
    }
    return false;
  }

  /** The filter names exactly the template whose presence and content the resolution reads. */
  lemma FilterIsExact(c: Cluster, ts: Templates, name: string, t: Template)
    requires SingleShard(c)
    ensures Uses(c, name) <==> Consumes(c, TheShard(c)) == name
    ensures ResolveTemplate(ts[name := t], Ref(c, TheShard(c))) ==
            if Uses(c, name) then Some(t) else ResolveTemplate(ts, Ref(c, TheShard(c)))
  {
    if Consumes(c, TheShard(c)) == name { assert Consumes(c, c.databases[0].groups[0].shards[0]) == name; }
  }

  // ------------------------------------------------------------ admission

  ghost predicate SameIdentity(a: Option<Identity>, b: Option<Identity>)
  {
    a.Some? && b.Some? && Text(a.value) == Text(b.value)
  }

  /** A living Lite cluster that resolves a shard through the template. */
  ghost predicate Consumer(c: Cluster, name: string) { c.lite && c.live && Uses(c, name) }

  ghost predicate Kept(w: World, c: Cluster, name: string, t: Template)
  {
    SameIdentity(IdentityOf(c, w.templates), IdentityOf(c, w.templates[name := t]))
  }

  /** Every consumer keeps its identity under the new templates. */
  ghost predicate ConsumersKept(w: World, name: string, t: Template)
  {
    forall n | n in w.clusters && Consumer(w.clusters[n], name) :: Kept(w, w.clusters[n], name, t)
  }

  method ValidateLiteIdentityUpdate(old_: Cluster, oldTemplates: Templates, next: Cluster, nextTemplates: Templates)
    returns (ok: bool)
    ensures ok <==> SameIdentity(IdentityOf(old_, oldTemplates), IdentityOf(next, nextTemplates))
  {
    var a := ResolvedLiteIdentity(old_, oldTemplates);
    if a.None? { return false; }
    var b := ResolvedLiteIdentity(next, nextTemplates);
    if b.None? { return false; }
    ok := Text(a.value) == Text(b.value);
  }

  /** The check a template write passes; `sound` is the cluster validation under the new templates. */
  method ValidateConsumers(w: World, listed: seq<string>, name: string, t: Template, sound: Cluster -> bool)
    returns (ok: bool)
    requires forall n :: n in listed <==> n in w.clusters
    ensures ok <==>
            && ConsumersKept(w, name, t)
            && forall n | n in w.clusters && Consumer(w.clusters[n], name) :: sound(w.clusters[n])
  {
    for i := 0 to |listed|
      invariant forall n | n in listed[..i] && Consumer(w.clusters[n], name) ::
                  Kept(w, w.clusters[n], name, t) && sound(w.clusters[n])
    {
      var c := w.clusters[listed[i]];
      assert listed[..i + 1] == listed[..i] + [listed[i]];
      if !c.lite || !c.live { continue; }
      var uses := UsesResolvedShardTemplate(c, name);
      if !uses { continue; }
      var same := ValidateLiteIdentityUpdate(c, w.templates, c, w.templates[name := t]);
      if !same || !sound(c) {
        assert Consumer(w.clusters[listed[i]], name);
        return false;
      }
    }
    assert listed[..|listed|] == listed;
    return true;
  }

  /** An explicit reference, which blocks deletion whatever the mode. */
  ghost predicate References(c: Cluster, name: string)
  {
    c.defaultTemplate == name ||
    exists i, j, k | 0 <= i < |c.databases| && 0 <= j < |c.databases[i].groups| &&
      0 <= k < |c.databases[i].groups[j].shards| ::
      c.databases[i].groups[j].shards[k].template == name
  }

  datatype World = World(templates: Templates, clusters: map<string, Cluster>)

  datatype Step =
    | CreateCluster(name: string, cluster: Cluster)
    | UpdateCluster(name: string, cluster: Cluster)
    | StartDeleting(name: string)
    | RemoveCluster(name: string)
    | WriteTemplate(name: string, template: Template)
    | DeleteTemplate(name: string)

  ghost predicate Admitted(w: World, step: Step)
  {
    match step
    case CreateCluster(n, c) => n !in w.clusters
    case UpdateCluster(n, c) =>
      n in w.clusters && c.lite == w.clusters[n].lite && c.live == w.clusters[n].live &&
      (c.lite ==> SameIdentity(IdentityOf(w.clusters[n], w.templates), IdentityOf(c, w.templates)))
    case StartDeleting(n) => n in w.clusters
    case RemoveCluster(n) => n in w.clusters
    case WriteTemplate(n, t) => (n in w.templates && w.templates[n] == t) || ConsumersKept(w, n, t)
    case DeleteTemplate(n) =>
      (forall k | k in w.clusters && w.clusters[k].live :: !References(w.clusters[k], n)) &&
      (n == FALLBACK ==> ConsumersKept(w, n, NO_TEMPLATE))
  }

  function Apply(w: World, step: Step): World
  {
    match step
    case CreateCluster(n, c) => w.(clusters := w.clusters[n := c])
    case UpdateCluster(n, c) => w.(clusters := w.clusters[n := c])
    case StartDeleting(n) =>
      if n in w.clusters then w.(clusters := w.clusters[n := w.clusters[n].(live := false)]) else w
    case RemoveCluster(n) => w.(clusters := w.clusters - {n})
    case WriteTemplate(n, t) => w.(templates := w.templates[n := t])
    case DeleteTemplate(n) => w.(templates := w.templates - {n})
  }

  /** The cluster lives, is Lite, and has this identity. */
  ghost predicate Keeps(w: World, name: string, id: Identity)
  {
    && name in w.clusters && w.clusters[name].lite && w.clusters[name].live
    && SameIdentity(IdentityOf(w.clusters[name], w.templates), Some(id))
  }

  lemma WriteKeeps(w: World, name: string, id: Identity, n: string, t: Template)
    requires Keeps(w, name, id) && ConsumersKept(w, n, t)
    ensures SameIdentity(IdentityOf(w.clusters[name], w.templates[n := t]), Some(id))
  {
    var c := w.clusters[name];
    if !Uses(c, n) { FilterIsExact(c, w.templates, n, t); }
  }

  /** Deleting the fallback template leaves its consumers as if it were empty. */
  lemma DeletedFallback(c: Cluster, ts: Templates)
    ensures IdentityOf(c, ts - {FALLBACK}) == IdentityOf(c, ts[FALLBACK := NO_TEMPLATE])
  {
  }

  /** Deleting a template nobody references by name, other than the fallback, changes no resolution. */
  lemma DeletedUnused(c: Cluster, ts: Templates, n: string)
    requires n != FALLBACK && !References(c, n)
    ensures IdentityOf(c, ts - {n}) == IdentityOf(c, ts)
  {
    if SingleShard(c) {
      assert c.databases[0].groups[0].shards[0].template != n;
      assert Consumes(c, TheShard(c)) != n;
    }
  }

  lemma StepKeeps(w: World, step: Step, name: string, id: Identity)
    requires Keeps(w, name, id) && Admitted(w, step)
    requires step != StartDeleting(name) && step != RemoveCluster(name)
    ensures Keeps(Apply(w, step), name, id)
  {
    match step
    case WriteTemplate(n, t) =>
      if n in w.templates && w.templates[n] == t { assert w.templates[n := t] == w.templates; }
      else { WriteKeeps(w, name, id, n, t); }
    case DeleteTemplate(n) =>
      if n == FALLBACK {
        WriteKeeps(w, name, id, n, NO_TEMPLATE);
        DeletedFallback(w.clusters[name], w.templates);
      } else {
        DeletedUnused(w.clusters[name], w.templates, n);
      }
    case _ =>
  }

  ghost function Run(w: World, steps: seq<Step>): Option<World>
  {
    if steps == [] then Some(w)
    else
      var before := Run(w, steps[..|steps| - 1]);
      var step := steps[|steps| - 1];
      if before.Some? && Admitted(before.value, step) then Some(Apply(before.value, step)) else None
  }

  /** Over every admitted run a Lite cluster that is not being deleted keeps its identity. */
  lemma {:induction false} IdentityNeverChanges(w: World, steps: seq<Step>, name: string, id: Identity)
    requires Keeps(w, name, id) && Run(w, steps).Some?
    requires StartDeleting(name) !in steps && RemoveCluster(name) !in steps
    ensures Keeps(Run(w, steps).value, name, id)
  {
    if steps != [] {
      var n := |steps| - 1;
      IdentityNeverChanges(w, steps[..n], name, id);
      assert steps[n] in steps;
      StepKeeps(Run(w, steps[..n]).value, steps[n], name, id);
    }
  }
}
