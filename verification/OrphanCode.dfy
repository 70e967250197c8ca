/**
  The operator's and the collector's code takes exactly the steps of OrphanRuns: marking,
  readying the volumes of a pod, and judging a listed claim.
 */
module OrphanCode {
  import opened Options
  import opened OrphanRuns
  import opened OrphanSafety
  import opened OrphanWitnesses
  import L = OrphanLabels
  import S = OrphanSweep

  /** The copy shows this stored claim. */
  predicate Shows(copy: L.Copy, pvc: Pvc)
  {
    (L.ORPHAN_LABEL in copy.labels <==> pvc.mark.Some?) && copy.terminating == pvc.terminating
  }

  // ------------------------------------------------------------ marking

  /** MarkOrphan sends a patch exactly where the step writes, and a label exactly where the step stamps one. */
  lemma MarkingIsAStep(w: World, shard: string, copy: L.Copy, uid: string, stamp: string)
    requires OperatorOf(w, shard).Marking? && Shows(copy, OperatorOf(w, shard).seen)
    requires OperatorOf(w, shard).claim in w.claims
    ensures var Marking(c, seen, clock), patch := OperatorOf(w, shard), L.MarkPatch(copy, uid, stamp);
            var strips := uid != "" && uid in copy.owners;
            var w' := Apply(w, CommitMark(shard, strips), true);
            && (patch.Some? <==> |w'.writes| == |w.writes| + 1) && (patch.None? ==> w'.claims == w.claims)
            && (patch.Some? && patch.value.orphanSince.Some? <==> seen.mark.None?)
            && (seen.mark.None? ==> w'.claims[c].mark == Some(Mark(clock - clock % 1_000_000_000, clock, w.now)))
            && (seen.mark.Some? ==> w'.claims[c].mark == w.claims[c].mark)
  {
    L.NothingSentIff(copy, uid, stamp);
  }

  // ------------------------------------------------------------ readying the volumes of a pod

  /** A read of one claim. */
  datatype Got = Absent | ReadError | Found(copy: L.Copy)

  datatype Outcome = Ready | Terminating(i: nat) | Failed(i: nat)

  /** A pod may use this claim: it is to be made, or is alive and carries no label any more. */
  predicate Usable(got: Got, accepts: bool)
  {
    got.Absent? || (got.Found? && !got.copy.terminating && (L.ORPHAN_LABEL !in got.copy.labels || accepts))
  }

  /** Reads every claim in turn; the first that is being deleted, or cannot be read or cleared, ends it. */
  method ClaimPodVolumes(copies: seq<Got>, accepts: seq<bool>) returns (r: Outcome, sent: seq<L.MergePatch>)
    requires |copies| == |accepts|
    ensures r == Ready <==> forall i | 0 <= i < |copies| :: Usable(copies[i], accepts[i])
    ensures r != Ready ==> r.i < |copies| && !Usable(copies[r.i], accepts[r.i]) &&
                           forall i | 0 <= i < r.i :: Usable(copies[i], accepts[i])
    ensures r.Terminating? <==> r != Ready && copies[r.i].Found? && copies[r.i].copy.terminating
    ensures forall p | p in sent ::
              exists i | 0 <= i < |copies| :: copies[i].Found? && L.ClearPatch(copies[i].copy) == Some(p)
    ensures forall i | 0 <= i < |copies| && copies[i].Found? && L.ClearPatch(copies[i].copy).Some? &&
                       (r != Ready ==> i <= r.i) :: L.ClearPatch(copies[i].copy).value in sent
  {
    sent := [];
    for i := 0 to |copies|
      invariant forall k | 0 <= k < i :: Usable(copies[k], accepts[k])
      invariant forall p | p in sent ::
                  exists k | 0 <= k < i :: copies[k].Found? && L.ClearPatch(copies[k].copy) == Some(p)
      invariant forall k | 0 <= k < i && copies[k].Found? && L.ClearPatch(copies[k].copy).Some? ::
                  L.ClearPatch(copies[k].copy).value in sent
    {
      if copies[i].Absent? { continue; }
      if copies[i].ReadError? { return Failed(i), sent; }
      if copies[i].copy.terminating { return Terminating(i), sent; }
      var patch := L.ClearPatch(copies[i].copy);
      if patch.Some? {
        sent := sent + [patch.value];
        if !accepts[i] { return Failed(i), sent; }
      }
    }
    return Ready, sent;
  }

  /** A read that may ready its claim: not being deleted, and without a label or still the version stored. */
  predicate Good(w: World, c: Claim, seen: Pvc)
  {
    !seen.terminating && (seen.mark.None? || (c in w.claims && w.claims[c].version == seen.version))
  }

  /** Acting on a read readies the claim exactly where the code goes on, and then the label is gone. */
  lemma ReclaimReadiesIff(w: World, shard: string, copy: L.Copy)
    requires Enabled(w, Reclaim(shard), true)
    requires var (c, seen) := OperatorOf(w, shard).copy.value; Shows(copy, seen) && c !in OperatorOf(w, shard).ready
    ensures var (c, seen) := OperatorOf(w, shard).copy.value;
            var op' := OperatorOf(Apply(w, Reclaim(shard), true), shard);
            && (op'.Claiming? && c in op'.ready <==> Good(w, c, seen)) && (!Good(w, c, seen) ==> op' == Idle)
    ensures var (c, seen) := OperatorOf(w, shard).copy.value;
            Good(w, c, seen) <==> Usable(Found(copy), c in w.claims && w.claims[c].version == seen.version)
    ensures var (c, seen) := OperatorOf(w, shard).copy.value;
            var claims := Apply(w, Reclaim(shard), true).claims;
            if Good(w, c, seen) && seen.mark.Some?
            then c in claims && claims[c].mark == None && claims - {c} == w.claims - {c} else claims == w.claims
  {
    var (c, seen) := OperatorOf(w, shard).copy.value;
    assert L.ORPHAN_LABEL in copy.labels <==> seen.mark.Some?;
    if Good(w, c, seen) && seen.mark.Some? {
      var claims := Apply(w, Reclaim(shard), true).claims;
      assert claims == w.claims[c := claims[c]];
    }
  }

  /** The claim was readied for the pod now being made: absent when read, or acted on after a good read. */
  predicate ReadiedSince(retention: nat, steps: seq<Step>, shard: string, c: Claim)
  {
    if steps == [] then false
    else
      var before, step := Run(retention, steps[..|steps| - 1], true), steps[|steps| - 1];
      if before.None? || (step.StartPod? && step.shard == shard) then false
      else if step == ReadClaim(shard, c, None) then true
      else if step == Reclaim(shard) && Acts(before.value, shard, c) then true
      else ReadiedSince(retention, steps[..|steps| - 1], shard, c)
  }

  predicate Acts(w: World, shard: string, c: Claim)
  {
    var op := OperatorOf(w, shard);
    op.Claiming? && op.copy.Some? && op.copy.value.0 == c && Good(w, c, op.copy.value.1)
  }

  /** What a reconcile has readied is exactly that. */
  lemma {:induction false} ReadyIsHistory(retention: nat, steps: seq<Step>, shard: string, c: Claim)
    requires Run(retention, steps, true).Some? && OperatorOf(Run(retention, steps, true).value, shard).Claiming?
    ensures c in OperatorOf(Run(retention, steps, true).value, shard).ready <==>
            ReadiedSince(retention, steps, shard, c)
  {
    var before, step := steps[..|steps| - 1], steps[|steps| - 1];
    var w := Run(retention, before, true).value;
    ReadyStep(w, step, shard, c);
    if OperatorOf(w, shard).Claiming? && !(step.StartPod? && step.shard == shard) {
      ReadyIsHistory(retention, before, shard, c);
    }
  }

  lemma ReadyStep(w: World, step: Step, shard: string, c: Claim)
    requires Enabled(w, step, true) && OperatorOf(Apply(w, step, true), shard).Claiming?
    ensures OperatorOf(w, shard).Claiming? || (step.StartPod? && step.shard == shard)
    ensures step.StartPod? && step.shard == shard ==> c !in OperatorOf(Apply(w, step, true), shard).ready
    ensures OperatorOf(w, shard).Claiming? && !(step.StartPod? && step.shard == shard) ==>
              (c in OperatorOf(Apply(w, step, true), shard).ready <==>
                 step == ReadClaim(shard, c, None) || (step == Reclaim(shard) && Acts(w, shard, c)) ||
                 c in OperatorOf(w, shard).ready)
  {
  }

  /** A pod is made only on claims readied that way. */
  lemma PodsOnlyOnReadiedClaims(retention: nat, steps: seq<Step>, shard: string, c: Claim)
    requires Run(retention, steps, true).Some? && Enabled(Run(retention, steps, true).value, MakePod(shard), true)
    requires c in OperatorOf(Run(retention, steps, true).value, shard).want
    ensures ReadiedSince(retention, steps, shard, c)
  {
    ReadyIsHistory(retention, steps, shard, c);
  }

  // ------------------------------------------------------------ a reclaim in time

  /** The reclaim has read the claim, marked, while a collector holds it condemned. */
  function ReadingWorld(retention: nat): World
  {
    CondemnedWorld(retention, 0, 0).(
      operators := map["shard" := Claiming("pod", {DATA}, {}, Some((DATA, Marked(0, 0))))])
  }

  lemma ReachReading(retention: nat) returns (steps: seq<Step>)
    ensures Run(retention, steps, true) == Some(ReadingWorld(retention))
  {
    var a := ReachCondemned(retention, 0, 0, true);
    var b := a + [StartPod("shard", "pod", {DATA})];
    RunSnoc(retention, a, StartPod("shard", "pod", {DATA}), true);
    RunSnoc(retention, b, ReadClaim("shard", DATA, Some(Marked(0, 0))), true);
    steps := b + [ReadClaim("shard", DATA, Some(Marked(0, 0)))];
    assert Run(retention, steps, true).value.operators == ReadingWorld(retention).operators;
  }

  /** The label is cleared and the claim readied; the collector still holds the old version. */
  lemma ReachReadied(retention: nat) returns (steps: seq<Step>)
    ensures Run(retention, steps, true).Some? && var w := Run(retention, steps, true).value;
              && DATA in w.claims && w.claims[DATA] == Pvc(3, None, false) && w.pods == map[] && w.deletions == []
              && OperatorOf(w, "shard") == Claiming("pod", {DATA}, {DATA}, None)
              && 0 in w.gcs && Condemns(w.gcs[0], DATA) && w.gcs[0].listed[DATA].version == 2
  {
    var reading := ReachReading(retention);
    RunSnoc(retention, reading, Reclaim("shard"), true);
    steps := reading + [Reclaim("shard")];
    assert {} + {DATA} == {DATA};
  }

  /** A labelled claim, already condemned, is reclaimed and gets its pod; the collector's delete finds it changed. */
  lemma ReclaimInTimeKeepsStorage(retention: nat)
    ensures exists steps :: Run(retention, steps, true).Some? && var w := Run(retention, steps, true).value;
              DATA in w.claims && w.claims[DATA].mark == None && Used(w, DATA) && GcDelete(0, DATA) in steps &&
              w.deletions == []
  {
    var readied := ReachReadied(retention);
    RunSnoc(retention, readied, MakePod("shard"), true);
    var made := readied + [MakePod("shard")];
    RunSnoc(retention, made, GcDelete(0, DATA), true);
    var w := Run(retention, made + [GcDelete(0, DATA)], true).value;
    assert DATA in w.pods["pod"];
  }

  // ------------------------------------------------------------ judging a listed claim

  /** The item, the cutoff and the pods are what the collector run holds about the claim. */
  ghost predicate SameView(g: Gc, c: Claim, p: S.Item, cutoff: int, api: S.Api)
  {
    && c in g.listed && g.cutoff == Some(cutoff) && p.ns == c.ns && p.terminating == g.listed[c].terminating
    && (S.Unreadable(p, api) <==> g.listed[c].mark.None?)
    && (g.listed[c].mark.Some? ==> p.since.Some? && api.parse(p.since.value) == Some(g.listed[c].mark.value.since))
    && (c.ns in g.inUse <==> p.ns in api.pods) && (c.ns in g.inUse ==> (c in g.inUse[c.ns] <==> S.Taken(p, api)))
  }

  /** The code sends a delete for a listed claim exactly where the step is allowed. */
  lemma SweepIsAStep(w: World, run: GcRun, c: Claim, p: S.Item, cutoff: int, api: S.Api)
    requires run in w.gcs && SameView(w.gcs[run], c, p, cutoff, api)
    ensures S.Judge(p, cutoff, api) == S.Expired <==> Enabled(w, GcDelete(run, c), true)
  {
    S.VerdictIff(p, cutoff, api);
  }
}
