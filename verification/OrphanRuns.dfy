/**
  The orphan life cycle of PersistentVolumeClaims: the operator's per-shard reconciles
  mark and reclaim, any number of garbage-collector runs list and delete, and the object
  store orders their writes by resourceVersion.  One step is one read, one list or one
  committed (or refused) write; time is in nanoseconds.
 */
module OrphanRuns {
  import opened Options

  const SECOND: nat := 1_000_000_000

  /** A claim's name is derived from its shard, so one shard's reconciles own it. */
  datatype Claim = Claim(ns: string, shard: string, name: string)
  type Pod = string
  type GcRun = nat

  /** The orphan-since label: the value written, and when it was computed and committed. */
  datatype Mark = Mark(since: nat, clock: nat, committed: nat)

  datatype Pvc = Pvc(version: nat, mark: Option<Mark>, terminating: bool)

  /** What one shard's reconcile is doing. */
  datatype Operator =
    | Idle
    | Claiming(pod: Pod, want: set<Claim>, ready: set<Claim>, copy: Option<(Claim, Pvc)>)
    | Marking(claim: Claim, seen: Pvc, clock: nat)

  /** One garbage-collector run: its PVC list, its cutoff, and the claims in use per listed namespace. */
  datatype Gc = Gc(listed: map<Claim, Pvc>, cutoff: Option<int>, inUse: map<string, set<Claim>>)

  /** One committed write on a claim; `mark` is the label it leaves behind. */
  datatype Write = Write(claim: Claim, at: nat, mark: Option<Mark>)

  /** One deletion committed by a garbage-collector run. */
  datatype Deletion = Deletion(claim: Claim, at: nat, mark: Mark, used: bool, writes: nat)

  datatype World = World(
    retention: nat,
    now: nat,
    version: nat,
    claims: map<Claim, Pvc>,
    pods: map<Pod, set<Claim>>,
    operators: map<string, Operator>,
    gcs: map<GcRun, Gc>,
    writes: seq<Write>,
    deletions: seq<Deletion>)

  function Start(retention: nat): World
  {
    World(retention, 0, 0, map[], map[], map[], map[], [], [])
  }

  function OperatorOf(w: World, shard: string): Operator
  {
    if shard in w.operators then w.operators[shard] else Idle
  }

  datatype Step =
    | Tick
    | CreatePvc(c: Claim)
    | Touch(c: Claim)
    | Terminate(c: Claim)
    | Vanish(c: Claim)
    | DeletePod(pod: Pod)
    | StartPod(shard: string, pod: Pod, want: set<Claim>)
    | ReadClaim(shard: string, c: Claim, copy: Option<Pvc>)
    | Reclaim(shard: string)
    | MakePod(shard: string)
    | DecideMark(c: Claim, seen: Pvc)
    | CommitMark(shard: string, strips: bool)
    | GcList(run: GcRun, scope: Option<string>)
    | GcClock(run: GcRun)
    | GcPods(run: GcRun, ns: string)
    | GcDelete(run: GcRun, c: Claim)

  function Lookup(w: World, c: Claim): Option<Pvc> { if c in w.claims then Some(w.claims[c]) else None }

  /** The garbage collector goes on to delete `c`: expired, not terminating, not in use. */
  predicate Condemns(g: Gc, c: Claim)
  {
    c in g.listed && g.cutoff.Some? && g.listed[c].mark.Some? &&
    g.listed[c].mark.value.since <= g.cutoff.value && !g.listed[c].terminating &&
    c.ns in g.inUse && c !in g.inUse[c.ns]
  }

  /** With `uncached`, the operator's reclaim reads the store; without, any copy its cache may hold. */
  predicate Enabled(w: World, step: Step, uncached: bool)
  {
    match step
    case Tick => true
    case CreatePvc(c) => c !in w.claims
    case Touch(c) => c in w.claims
    case Terminate(c) => c in w.claims
    case Vanish(c) => c in w.claims && w.claims[c].terminating && !Used(w, c)
    case DeletePod(pod) => pod in w.pods
    case StartPod(shard, pod, want) =>
      OperatorOf(w, shard).Idle? && pod !in w.pods && forall c | c in want :: c.shard == shard
    case ReadClaim(shard, c, copy) =>
      var op := OperatorOf(w, shard);
      op.Claiming? && c in op.want && c !in op.ready && (uncached ==> copy == Lookup(w, c))
    case Reclaim(shard) => OperatorOf(w, shard).Claiming? && OperatorOf(w, shard).copy.Some?
    case MakePod(shard) =>
      var op := OperatorOf(w, shard);
      op.Claiming? && op.ready == op.want && op.pod !in w.pods
    case DecideMark(c, _) => OperatorOf(w, c.shard).Idle?
    case CommitMark(shard, _) => OperatorOf(w, shard).Marking?
    case GcList(run, _) => run !in w.gcs
    case GcClock(run) => run in w.gcs && w.gcs[run].cutoff.None?
    case GcPods(run, ns) => run in w.gcs && w.gcs[run].cutoff.Some? && ns !in w.gcs[run].inUse
    case GcDelete(run, c) => run in w.gcs && Condemns(w.gcs[run], c)
  }

  /** Commits a write: the object gets the next resourceVersion. */
  function Store(w: World, c: Claim, mark: Option<Mark>, terminating: bool): World
  {
    w.(version := w.version + 1,
       claims := w.claims[c := Pvc(w.version + 1, mark, terminating)],
       writes := w.writes + [Write(c, w.now, mark)])
  }

  function Gone(w: World, c: Claim): World
  {
    w.(claims := w.claims - {c}, writes := w.writes + [Write(c, w.now, None)])
  }

  predicate Used(w: World, c: Claim) { exists pod | pod in w.pods :: c in w.pods[pod] }

  function Become(w: World, shard: string, op: Operator): World
  {
    w.(operators := w.operators[shard := op])
  }

  /** A deletion leaves a claim a pod still mounts behind as terminating. */
  function Delete(w: World, c: Claim): World
    requires c in w.claims
  {
    if Used(w, c) then Store(w, c, w.claims[c].mark, true) else Gone(w, c)
  }

  function DoReclaim(w: World, shard: string): World
    requires OperatorOf(w, shard).Claiming? && OperatorOf(w, shard).copy.Some?
  {
    var op := OperatorOf(w, shard);
    var (c, seen) := op.copy.value;
    var done := op.(ready := op.ready + {c}, copy := None);
    if seen.terminating then Become(w, shard, Idle)
    else if seen.mark.None? then Become(w, shard, done)
    else if c in w.claims && w.claims[c].version == seen.version
    then Become(Store(w, c, None, w.claims[c].terminating), shard, done)
    else Become(w, shard, Idle)
  }

  function Stamp(clock: nat): nat { clock / SECOND * SECOND }

  /** `strips`: the patch also removes an owner reference, so it is sent even without a new label. */
  function DoCommitMark(w: World, shard: string, strips: bool): World
    requires OperatorOf(w, shard).Marking?
  {
    var Marking(c, seen, clock) := OperatorOf(w, shard);
    var idle := Become(w, shard, Idle);
    if c !in w.claims then idle
    else if seen.mark.None?
    then Store(idle, c, Some(Mark(Stamp(clock), clock, w.now)), w.claims[c].terminating)
    else if strips then Store(idle, c, w.claims[c].mark, w.claims[c].terminating)
    else idle
  }

  function Listed(w: World, ns: Option<string>): map<Claim, Pvc>
  {
    map c | c in w.claims && w.claims[c].mark.Some? && (ns.Some? ==> c.ns == ns.value) :: w.claims[c]
  }

  function InUse(w: World, ns: string): set<Claim>
  {
    set pod, c | pod in w.pods && c in w.pods[pod] && c.ns == ns :: c
  }

  function SetGc(w: World, run: GcRun, g: Gc): World { w.(gcs := w.gcs[run := g]) }

  function Timed(w: World, g: Gc): Gc { g.(cutoff := Some(w.now - w.retention)) }

  function Checked(w: World, g: Gc, ns: string): Gc { g.(inUse := g.inUse[ns := InUse(w, ns)]) }

  function DoGcDelete(w: World, run: GcRun, c: Claim): World
    requires run in w.gcs && Condemns(w.gcs[run], c)
  {
    var seen := w.gcs[run].listed[c];
    if c in w.claims && w.claims[c].version == seen.version
    then Delete(w, c).(deletions := w.deletions +
           [Deletion(c, w.now, seen.mark.value, Used(w, c), |w.writes|)])
    else w
  }

  function Apply(w: World, step: Step, uncached: bool): World
    requires Enabled(w, step, uncached)
  {
    match step
    case Tick => w.(now := w.now + 1)
    case CreatePvc(c) => Store(w, c, None, false)
    case Touch(c) => Store(w, c, w.claims[c].mark, w.claims[c].terminating)
    case Terminate(c) => Delete(w, c)
    case Vanish(c) => Gone(w, c)
    case DeletePod(pod) => w.(pods := w.pods - {pod})
    case StartPod(shard, pod, want) => Become(w, shard, Claiming(pod, want, {}, None))
    case ReadClaim(shard, c, copy) =>
      var op := OperatorOf(w, shard);
      Become(w, shard, if copy.None? then op.(ready := op.ready + {c}) else op.(copy := Some((c, copy.value))))
    case Reclaim(shard) => DoReclaim(w, shard)
    case MakePod(shard) =>
      var op := OperatorOf(w, shard);
      Become(w, shard, Idle).(pods := w.pods[op.pod := op.want])
    case DecideMark(c, seen) => Become(w, c.shard, Marking(c, seen, w.now))
    case CommitMark(shard, strips) => DoCommitMark(w, shard, strips)
    case GcList(run, scope) => SetGc(w, run, Gc(Listed(w, scope), None, map[]))
    case GcClock(run) => SetGc(w, run, Timed(w, w.gcs[run]))
    case GcPods(run, ns) => SetGc(w, run, Checked(w, w.gcs[run], ns))
    case GcDelete(run, c) => DoGcDelete(w, run, c)
  }

  function Run(retention: nat, steps: seq<Step>, uncached: bool): Option<World>
  {
    if steps == [] then Some(Start(retention))
    else
      var before := Run(retention, steps[..|steps| - 1], uncached);
      var step := steps[|steps| - 1];
      if before.Some? && Enabled(before.value, step, uncached)
      then Some(Apply(before.value, step, uncached)) else None
  }
}
