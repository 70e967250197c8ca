/**
  Pruning a Cell: the cluster controller stamps, cancels and deletes from possibly stale
  reads; the cell controller drains, reports ReadyForDeletion and serves again.  Every
  write of the Cell takes a new resourceVersion, and `history` holds each version ever
  stored, which is all a cached read can return.
 */
module CellDeletion {
  import opened Options

  datatype Cell = Cell(version: nat, stamped: bool, ready: bool, terminating: bool)

  /** Where the cell controller's current reconcile stands. */
  datatype Reconcile = Idle | Draining(v: nat) | Drained(v: nat) | Clearing | Serving

  /** A committed delete: the version it was conditioned on, and what was stored at that moment. */
  datatype Deletion = Deletion(judged: nat, stamped: bool, ready: bool, drained: bool, cancels: seq<nat>)

  datatype World = World(
    version: nat,
    cell: Option<Cell>,
    history: map<nat, Cell>,
    topo: bool,              // the managed local TopoServer exists
    lastRead: nat,           // newest version the cell controller has read
    pc: Reconcile,
    cancels: seq<nat>,       // versions written by committed cancels
    deletions: seq<Deletion>)

  const START := World(0, None, map[], false, 0, Idle, [], [])

  datatype Step =
    | Create
    | Touch
    | Vanish
    | TopoGone
    | Stamp(v: nat)
    | Cancel(v: nat)
    | Delete(v: nat, held: bool)
    | Read(v: nat)
    | SeeAbsent
    | CommitReady
    | CommitWaiting
    | CommitClear
    | Recreate
    | ApplyStatus
    | EndReconcile

  /**
    What the environment promises when `sound`: the cell controller's cache never goes
    back in versions, and it sees the TopoServer as stored when it reports it gone.
   */
  predicate Enabled(w: World, step: Step, sound: bool)
  {
    match step
    case Create => w.cell.None?
    case Touch => w.cell.Some?
    case Vanish => w.cell.Some? && w.cell.value.terminating
    case TopoGone => true
    case Stamp(v) => v in w.history && !w.history[v].stamped
    case Cancel(v) => v in w.history && w.history[v].stamped && !w.history[v].terminating
    case Delete(v, _) => v in w.history && w.history[v].stamped && w.history[v].ready
    case Read(v) => w.pc.Idle? && v in w.history && (sound ==> v >= w.lastRead)
    case SeeAbsent => w.pc.Draining? && (sound ==> !w.topo)
    case CommitReady => w.pc.Drained?
    case CommitWaiting => w.pc.Draining?
    case CommitClear => w.pc.Clearing?
    case Recreate => w.pc.Serving?
    case ApplyStatus => w.pc.Serving?
    case EndReconcile => true
  }

  function Write(w: World, stamped: bool, ready: bool, terminating: bool): World
  {
    var c := Cell(w.version + 1, stamped, ready, terminating);
    w.(version := w.version + 1, cell := Some(c), history := w.history[w.version + 1 := c])
  }

  predicate Current(w: World, v: nat) { w.cell.Some? && w.cell.value.version == v }

  function SetReady(w: World, ready: bool): World
  {
    if w.cell.None? then w else Write(w, w.cell.value.stamped, ready, w.cell.value.terminating)
  }

  function DoDelete(w: World, v: nat, held: bool): World
  {
    if !Current(w, v) then w
    else
      var c := w.cell.value;
      var w' := if held then Write(w, c.stamped, c.ready, true) else w.(cell := None);
      w'.(deletions := w.deletions + [Deletion(v, c.stamped, c.ready, !w.topo, w.cancels)])
  }

  function DoRead(w: World, v: nat): World
    requires v in w.history
  {
    var c := w.history[v];
    w.(lastRead := v,
       pc := if c.stamped then Draining(v)
             else if c.terminating then Idle
             else if c.ready then Clearing
             else Serving)
  }

  function Apply(w: World, step: Step, sound: bool): World
    requires Enabled(w, step, sound)
  {
    match step
    case Create => Write(w, false, false, false)
    case Touch => Write(w, w.cell.value.stamped, w.cell.value.ready, w.cell.value.terminating)
    case Vanish => w.(cell := None)
    case TopoGone => w.(topo := false)
    case Stamp(_) => if w.cell.None? then w else Write(w, true, w.cell.value.ready, w.cell.value.terminating)
    case Cancel(v) =>
      if !Current(w, v) then w
      else Write(w, false, w.cell.value.ready, w.cell.value.terminating).(cancels := w.cancels + [w.version + 1])
    case Delete(v, held) => DoDelete(w, v, held)
    case Read(v) => DoRead(w, v)
    case SeeAbsent => w.(pc := Drained(w.pc.v))
    case CommitReady => (if Current(w, w.pc.v) then SetReady(w, true) else w).(pc := Idle)
    case CommitWaiting => (if Current(w, w.pc.v) then SetReady(w, false) else w).(pc := Idle)
    case CommitClear => SetReady(w, false).(pc := Serving)
    case Recreate => w.(topo := true)
    case ApplyStatus => SetReady(w, false)
    case EndReconcile => w.(pc := Idle)
  }

  function Run(steps: seq<Step>, sound: bool): Option<World>
  {
    if steps == [] then Some(START)
    else
      var before := Run(steps[..|steps| - 1], sound);
      var step := steps[|steps| - 1];
      if before.Some? && Enabled(before.value, step, sound) then Some(Apply(before.value, step, sound)) else None
  }

  // ------------------------------------------------------------ versions: holds of every environment

  /** Versions are never reused and cancels only move forward. */
  ghost predicate InvVersions(w: World)
  {
    && (forall v | v in w.history :: v <= w.version && w.history[v].version == v)
    && (w.cell.Some? ==> w.version in w.history && w.cell.value == w.history[w.version])
    && (forall i | 0 <= i < |w.cancels| :: w.cancels[i] in w.history && !w.history[w.cancels[i]].stamped)
    && (forall i | 0 <= i < |w.deletions| :: Judged(w, w.deletions[i]))
  }

  /** A delete commits only on the version that carried stamp and condition, newer than every earlier cancel. */
  ghost predicate Judged(w: World, d: Deletion)
  {
    && d.stamped && d.ready && d.judged in w.history
    && w.history[d.judged].stamped && w.history[d.judged].ready
    && forall i | 0 <= i < |d.cancels| :: d.cancels[i] < d.judged
  }

  lemma WriteKept(w: World, stamped: bool, ready: bool, terminating: bool)
    requires InvVersions(w)
    ensures InvVersions(Write(w, stamped, ready, terminating))
  {
    var w' := Write(w, stamped, ready, terminating);
    forall i | 0 <= i < |w'.deletions| ensures Judged(w', w'.deletions[i]) { assert Judged(w, w.deletions[i]); }
  }

  lemma SetReadyKept(w: World, ready: bool)
    requires InvVersions(w)
    ensures InvVersions(SetReady(w, ready))
  {
    if w.cell.Some? { WriteKept(w, w.cell.value.stamped, ready, w.cell.value.terminating); }
  }

  lemma VersionsFrame(w: World, w': World)
    requires InvVersions(w) && w'.version == w.version && w'.history == w.history
    requires w'.cell == w.cell || w'.cell == None
    requires w'.cancels == w.cancels && w'.deletions == w.deletions
    ensures InvVersions(w')
  {
    forall i | 0 <= i < |w'.deletions| ensures Judged(w', w'.deletions[i]) { assert Judged(w, w.deletions[i]); }
  }

  lemma DeleteKept(w: World, v: nat, held: bool)
    requires InvVersions(w) && v in w.history && w.history[v].stamped && w.history[v].ready
    ensures InvVersions(DoDelete(w, v, held))
  {
    if Current(w, v) {
      var c := w.cell.value;
      var m := if held then Write(w, c.stamped, c.ready, true) else w.(cell := None);
      if held { WriteKept(w, c.stamped, c.ready, true); } else { VersionsFrame(w, m); }
      var w' := DoDelete(w, v, held);
      assert forall i | 0 <= i < |w.cancels| :: w.cancels[i] < v;
      forall i | 0 <= i < |w'.deletions| ensures Judged(w', w'.deletions[i]) {
        if i < |w.deletions| { assert Judged(m, m.deletions[i]); }
      }
    }
  }

  lemma VersionsKept(w: World, step: Step, sound: bool)
    requires InvVersions(w) && Enabled(w, step, sound)
    ensures InvVersions(Apply(w, step, sound))
  {
    match step
    case Create => WriteKept(w, false, false, false);
    case Touch => WriteKept(w, w.cell.value.stamped, w.cell.value.ready, w.cell.value.terminating);
    case Stamp(_) =>
      if w.cell.Some? { WriteKept(w, true, w.cell.value.ready, w.cell.value.terminating); }
    case Cancel(v) =>
      if Current(w, v) { WriteKept(w, false, w.cell.value.ready, w.cell.value.terminating); }
    case Delete(v, held) => DeleteKept(w, v, held);
    case _ => StatusKept(w, step, sound);
  }

  lemma StatusKept(w: World, step: Step, sound: bool)
    requires InvVersions(w) && Enabled(w, step, sound)
    requires !step.Create? && !step.Touch? && !step.Stamp? && !step.Cancel? && !step.Delete?
    ensures InvVersions(Apply(w, step, sound))
  {
    SetReadyKept(w, true);
    SetReadyKept(w, false);
    var w' := Apply(w, step, sound);
    if w'.version == w.version { VersionsFrame(w, w'); }
    else if step.CommitReady? { VersionsFrame(SetReady(w, true), w'); }
    else { VersionsFrame(SetReady(w, false), w'); }
  }

  // ------------------------------------------------------------ draining: needs the environment's promises

  ghost predicate InvDrained(w: World)
  {
    && (w.cell.Some? && w.cell.value.ready ==> !w.topo)
    && (w.cell.Some? && w.cell.value.ready ==>
          forall u | u in w.history && u >= w.lastRead :: w.history[u].stamped || w.history[u].ready)
    && (w.pc.Serving? && w.cell.Some? ==> !w.cell.value.ready)
    && (w.pc.Drained? ==> !w.topo)
    && (w.pc.Drained? || w.pc.Draining? ==>
          w.pc.v == w.lastRead && w.pc.v in w.history && w.history[w.pc.v].stamped)
    && (forall i | 0 <= i < |w.deletions| :: w.deletions[i].drained)
  }

  lemma DrainedKept(w: World, step: Step)
    requires InvVersions(w) && InvDrained(w) && Enabled(w, step, true)
    ensures InvDrained(Apply(w, step, true))
  {
  }

  lemma {:induction false} RunKeepsInv(steps: seq<Step>, sound: bool)
    requires Run(steps, sound).Some?
    ensures InvVersions(Run(steps, sound).value)
    ensures sound ==> InvDrained(Run(steps, sound).value)
  {
    if steps != [] {
      var before := steps[..|steps| - 1];
      RunKeepsInv(before, sound);
      VersionsKept(Run(before, sound).value, steps[|steps| - 1], sound);
      if sound { DrainedKept(Run(before, sound).value, steps[|steps| - 1]); }
    }
  }

  /** In every run, whatever the caches do, a delete judged before a committed cancel cannot commit after it. */
  lemma CancelledDeleteNeverCommits(steps: seq<Step>, sound: bool, k: nat)
    requires Run(steps, sound).Some? && k < |Run(steps, sound).value.deletions|
    ensures var w := Run(steps, sound).value; var d := w.deletions[k];
            && d.judged in w.history && w.history[d.judged].stamped && w.history[d.judged].ready
            && forall i | 0 <= i < |d.cancels| :: d.cancels[i] < d.judged
  {
    RunKeepsInv(steps, sound);
    assert Judged(Run(steps, sound).value, Run(steps, sound).value.deletions[k]);
  }

  /** Every Cell a delete commits on is stamped, ready and really drained, through any stamp, cancel and re-stamp. */
  lemma OnlyDrainedCellsAreDeleted(steps: seq<Step>, k: nat)
    requires Run(steps, true).Some? && k < |Run(steps, true).value.deletions|
    ensures var d := Run(steps, true).value.deletions[k]; d.stamped && d.ready && d.drained
  {
    RunKeepsInv(steps, true);
    assert Judged(Run(steps, true).value, Run(steps, true).value.deletions[k]);
  }

  // ------------------------------------------------------------ why the promises are needed

  lemma RunSnoc(steps: seq<Step>, step: Step, sound: bool)
    requires Run(steps, sound).Some? && Enabled(Run(steps, sound).value, step, sound)
    ensures Run(steps + [step], sound) == Some(Apply(Run(steps, sound).value, step, sound))
  {
    assert (steps + [step])[..|steps|] == steps;
  }

  /** Read once while stamped, drained and reported ready. */
  const READY: World := START.(
    version := 3, cell := Some(Cell(3, true, true, false)), lastRead := 2,
    history := map[1 := Cell(1, false, false, false), 2 := Cell(2, true, false, false),
                   3 := Cell(3, true, true, false)])

  lemma ReachReady() returns (steps: seq<Step>)
    ensures Run(steps, false) == Some(READY)
  {
    var a := [] + [Create];
    var b := a + [Stamp(1)];
    var c := b + [Read(2)];
    var d := c + [SeeAbsent];
    steps := d + [CommitReady];
    RunSnoc([], Create, false);
    RunSnoc(a, Stamp(1), false);
    RunSnoc(b, Read(2), false);
    RunSnoc(c, SeeAbsent, false);
    RunSnoc(d, CommitReady, false);
    assert Run(steps, false).value.history == READY.history;
  }

  /** A cache that goes back to the version before the stamp lets a ready Cell serve again and be deleted. */
  lemma BackwardCacheDeletesServingCell()
    ensures exists steps :: Run(steps, false).Some? && |Run(steps, false).value.deletions| == 1 &&
              !Run(steps, false).value.deletions[0].drained
  {
    var a := ReachReady();
    var b := a + [Read(1)];
    var c := b + [Recreate];
    RunSnoc(a, Read(1), false);
    RunSnoc(b, Recreate, false);
    RunSnoc(c, Delete(3, false), false);
  }

  /** A TopoServer read as absent while it is stored lets a Cell that is not drained be deleted. */
  lemma StaleAbsenceDeletesServingCell()
    ensures exists steps :: Run(steps, false).Some? && |Run(steps, false).value.deletions| == 1 &&
              !Run(steps, false).value.deletions[0].drained
  {
    var a := [] + [Create];
    var b := a + [Stamp(1)];
    RunSnoc([], Create, false);
    RunSnoc(a, Stamp(1), false);
    var c := b + [Read(1)];
    var d := c + [Recreate];
    RunSnoc(b, Read(1), false);
    RunSnoc(c, Recreate, false);
    StaleAbsence(d);
  }

  lemma StaleAbsence(d: seq<Step>)
    requires Run(d, false).Some?
    requires var w := Run(d, false).value;
             w.topo && w.deletions == [] && w.version == 2 && w.cell == Some(Cell(2, true, false, false)) &&
             2 in w.history &&
             w.history[2] == w.cell.value
    ensures exists steps :: Run(steps, false).Some? && |Run(steps, false).value.deletions| == 1 &&
              !Run(steps, false).value.deletions[0].drained
  {
    var e := d + [EndReconcile];
    var f := e + [Read(2)];
    var g := f + [SeeAbsent];
    var h := g + [CommitReady];
    RunSnoc(d, EndReconcile, false);
    RunSnoc(e, Read(2), false);
    RunSnoc(f, SeeAbsent, false);
    RunSnoc(g, CommitReady, false);
    RunSnoc(h, Delete(3, false), false);
  }
}
