/**
  In every run, the garbage collector never deletes storage a pod uses, and only deletes
  claims that have carried the orphan label without a break for the retention period.
 */
module OrphanSafety {
  import opened Options
  import opened OrphanRuns

  // ------------------------------------------------------------ in-use safety

  /** A copy read at some point: versions are never reused, so a matching version is the same object. */
  ghost predicate Faithful(w: World, c: Claim, copy: Pvc)
  {
    copy.version <= w.version && (c in w.claims && w.claims[c].version == copy.version ==> w.claims[c] == copy)
  }

  ghost predicate Unmarked(w: World, c: Claim) { c in w.claims ==> w.claims[c].mark.None? }

  ghost predicate OperatorOk(w: World, shard: string)
  {
    match OperatorOf(w, shard)
    case Idle => true
    case Claiming(_, want, ready, copy) =>
      && ready <= want && (forall c | c in want :: c.shard == shard)
      && (forall c | c in ready :: Unmarked(w, c))
      && (copy.Some? ==>
            var (c, seen) := copy.value;
            c in want && Faithful(w, c, seen) && (seen.mark.None? ==> Unmarked(w, c)))
    case Marking(c, _, clock) =>
      c.shard == shard && clock <= w.now &&
      (c in w.claims && w.claims[c].mark.Some? ==> w.claims[c].mark.value.clock <= clock)
  }

  /** A pod the run did not see means the claim has been rewritten since the run listed it. */
  ghost predicate GcOk(w: World, g: Gc)
  {
    && (forall c | c in g.listed :: g.listed[c].mark.Some? && Faithful(w, c, g.listed[c]))
    && (forall c | c in g.listed && c.ns in g.inUse && c !in g.inUse[c.ns] && Used(w, c) ::
          c in w.claims ==> w.claims[c].version != g.listed[c].version)
    && (g.cutoff.Some? ==> g.cutoff.value + w.retention <= w.now)
  }

  ghost predicate MarkOk(w: World, m: Mark)
  {
    m.since == Stamp(m.clock) && m.clock <= m.committed <= w.now
  }

  ghost predicate Inv(w: World)
  {
    && (forall c | c in w.claims :: w.claims[c].version <= w.version)
    && (forall c | c in w.claims && w.claims[c].mark.Some? :: MarkOk(w, w.claims[c].mark.value))
    && (forall shard :: OperatorOk(w, shard))
    && (forall run | run in w.gcs :: GcOk(w, w.gcs[run]))
    && (forall i | 0 <= i < |w.deletions| :: !w.deletions[i].used)
  }

  /** A write that adds no mark keeps every reader's view consistent: it takes a new version. */
  lemma StoreKept(w: World, c: Claim, mark: Option<Mark>, terminating: bool)
    requires Inv(w)
    requires mark.Some? ==> c in w.claims && w.claims[c].mark == mark
    ensures Inv(Store(w, c, mark, terminating))
  {
    var w' := Store(w, c, mark, terminating);
    forall shard ensures OperatorOk(w', shard) { assert OperatorOk(w, shard); }
    forall run | run in w'.gcs ensures GcOk(w', w'.gcs[run]) { assert GcOk(w, w.gcs[run]); }
  }

  lemma GoneKept(w: World, c: Claim)
    requires Inv(w)
    ensures Inv(Gone(w, c))
  {
    var w' := Gone(w, c);
    forall shard ensures OperatorOk(w', shard) { assert OperatorOk(w, shard); }
    forall run | run in w'.gcs ensures GcOk(w', w'.gcs[run]) { assert GcOk(w, w.gcs[run]); }
  }

  lemma DeleteKept(w: World, c: Claim)
    requires Inv(w) && c in w.claims
    ensures Inv(Delete(w, c))
  {
    if Used(w, c) { StoreKept(w, c, w.claims[c].mark, true); } else { GoneKept(w, c); }
  }

  lemma BecomeKept(w: World, shard: string, op: Operator)
    requires Inv(w) && OperatorOk(Become(w, shard, op), shard)
    ensures Inv(Become(w, shard, op))
  {
    var w' := Become(w, shard, op);
    forall x ensures OperatorOk(w', x) { assert OperatorOk(w, x); }
    forall run | run in w'.gcs ensures GcOk(w', w'.gcs[run]) { assert GcOk(w, w.gcs[run]); }
  }

  lemma ReclaimKept(w: World, shard: string)
    requires Inv(w) && OperatorOf(w, shard).Claiming? && OperatorOf(w, shard).copy.Some?
    ensures Inv(DoReclaim(w, shard))
  {
    assert OperatorOk(w, shard);
    var op := OperatorOf(w, shard);
    var (c, seen) := op.copy.value;
    var done := op.(ready := op.ready + {c}, copy := None);
    if seen.terminating { BecomeKept(w, shard, Idle); }
    else if seen.mark.None? { BecomeKept(w, shard, done); }
    else if c in w.claims && w.claims[c].version == seen.version {
      StoreKept(w, c, None, w.claims[c].terminating);
      var w' := Store(w, c, None, w.claims[c].terminating);
      assert OperatorOk(w', shard);
      BecomeKept(w', shard, done);
    } else { BecomeKept(w, shard, Idle); }
  }

  /** The mark goes on while the shard's only reconcile holds no claim it has readied. */
  lemma MarkKept(w: World, c: Claim, clock: nat, terminating: bool)
    requires Inv(w) && c in w.claims && OperatorOf(w, c.shard).Idle? && clock <= w.now
    ensures Inv(Store(w, c, Some(Mark(Stamp(clock), clock, w.now)), terminating))
  {
    var w' := Store(w, c, Some(Mark(Stamp(clock), clock, w.now)), terminating);
    forall shard ensures OperatorOk(w', shard) { assert OperatorOk(w, shard); }
    forall run | run in w'.gcs ensures GcOk(w', w'.gcs[run]) { assert GcOk(w, w.gcs[run]); }
  }

  lemma CommitMarkKept(w: World, shard: string, strips: bool)
    requires Inv(w) && OperatorOf(w, shard).Marking?
    ensures Inv(DoCommitMark(w, shard, strips))
  {
    assert OperatorOk(w, shard);
    var Marking(c, seen, clock) := OperatorOf(w, shard);
    var idle := Become(w, shard, Idle);
    BecomeKept(w, shard, Idle);
    if c in w.claims {
      if seen.mark.None? { MarkKept(idle, c, clock, w.claims[c].terminating); }
      else if strips { StoreKept(idle, c, w.claims[c].mark, w.claims[c].terminating); }
    }
  }

  /** Every claim of a new pod is unmarked, so no run still holds its version as listed. */
  lemma MakePodKept(w: World, shard: string)
    requires Inv(w) && Enabled(w, MakePod(shard), true)
    ensures Inv(Apply(w, MakePod(shard), true))
  {
    var w' := Apply(w, MakePod(shard), true);
    var op := OperatorOf(w, shard);
    assert OperatorOk(w, shard);
    forall x ensures OperatorOk(w', x) { assert OperatorOk(w, x); }
    forall run | run in w'.gcs ensures GcOk(w', w'.gcs[run]) {
      var g := w.gcs[run];
      assert GcOk(w, g);
      forall c | c in g.listed && c.ns in g.inUse && c !in g.inUse[c.ns] && Used(w', c)
        ensures c in w'.claims ==> w'.claims[c].version != g.listed[c].version
      {
        var pod :| pod in w'.pods && c in w'.pods[pod];
        if pod in w.pods && c in w.pods[pod] { assert Used(w, c); }
      }
    }
  }

  lemma PodsGoneKept(w: World, w': World)
    requires Inv(w) && w.now <= w'.now && w'.pods.Keys <= w.pods.Keys
    requires forall pod | pod in w'.pods :: w'.pods[pod] == w.pods[pod]
    requires w' == w.(now := w'.now, pods := w'.pods)
    ensures Inv(w')
  {
    forall x ensures OperatorOk(w', x) { assert OperatorOk(w, x); }
    forall run | run in w'.gcs ensures GcOk(w', w'.gcs[run]) {
      assert GcOk(w, w.gcs[run]);
      forall c | Used(w', c) ensures Used(w, c) {
        var pod :| pod in w'.pods && c in w'.pods[pod];
        assert pod in w.pods;
      }
    }
  }

  lemma GcKept(w: World, run: GcRun, g: Gc)
    requires Inv(w) && GcOk(w, g)
    ensures Inv(SetGc(w, run, g))
  {
    var w' := SetGc(w, run, g);
    forall x ensures OperatorOk(w', x) { assert OperatorOk(w, x); }
    forall r | r in w'.gcs ensures GcOk(w', w'.gcs[r]) { if r != run { assert GcOk(w, w.gcs[r]); } }
  }

  lemma GcPodsOk(w: World, g: Gc, ns: string)
    requires Inv(w) && GcOk(w, g) && ns !in g.inUse
    ensures GcOk(w, Checked(w, g, ns))
  {
    forall c | Used(w, c) && c.ns == ns ensures c in InUse(w, ns) {
      var pod :| pod in w.pods && c in w.pods[pod];
    }
  }

  /** The conditional delete only commits on the version that was judged, which no pod uses. */
  lemma GcDeleteKept(w: World, run: GcRun, c: Claim)
    requires Inv(w) && run in w.gcs && Condemns(w.gcs[run], c)
    ensures Inv(DoGcDelete(w, run, c))
  {
    assert GcOk(w, w.gcs[run]);
    if c in w.claims && w.claims[c].version == w.gcs[run].listed[c].version {
      DeleteKept(w, c);
      var d := Delete(w, c);
      var w' := DoGcDelete(w, run, c);
      forall x ensures OperatorOk(w', x) { assert OperatorOk(d, x); }
      forall r | r in w'.gcs ensures GcOk(w', w'.gcs[r]) { assert GcOk(d, d.gcs[r]); }
    }
  }

  lemma ReadKept(w: World, shard: string, c: Claim, copy: Option<Pvc>)
    requires Inv(w) && Enabled(w, ReadClaim(shard, c, copy), true)
    ensures Inv(Apply(w, ReadClaim(shard, c, copy), true))
  {
    assert OperatorOk(w, shard);
    BecomeKept(w, shard, OperatorOf(Apply(w, ReadClaim(shard, c, copy), true), shard));
  }

  lemma GcListOk(w: World, scope: Option<string>)
    requires Inv(w)
    ensures GcOk(w, Gc(Listed(w, scope), None, map[]))
  {
  }

  lemma GcClockOk(w: World, g: Gc)
    requires GcOk(w, g)
    ensures GcOk(w, Timed(w, g))
  {
  }

  predicate GcStep(step: Step) { step.GcList? || step.GcClock? || step.GcPods? || step.GcDelete? }

  lemma GcStepKept(w: World, step: Step)
    requires Inv(w) && Enabled(w, step, true) && GcStep(step)
    ensures Inv(Apply(w, step, true))
  {
    match step
    case GcList(run, scope) =>
      GcListOk(w, scope);
      GcKept(w, run, Gc(Listed(w, scope), None, map[]));
    case GcClock(run) =>
      GcClockOk(w, w.gcs[run]);
      GcKept(w, run, Timed(w, w.gcs[run]));
    case GcPods(run, ns) =>
      GcPodsOk(w, w.gcs[run], ns);
      GcKept(w, run, Checked(w, w.gcs[run], ns));
    case GcDelete(run, c) => GcDeleteKept(w, run, c);
  }

  lemma OperatorStepKept(w: World, step: Step)
    requires Inv(w) && Enabled(w, step, true)
    requires step.StartPod? || step.ReadClaim? || step.Reclaim? || step.MakePod? || step.DecideMark? || step.CommitMark?
    ensures Inv(Apply(w, step, true))
  {
    match step
    case StartPod(shard, pod, want) => BecomeKept(w, shard, Claiming(pod, want, {}, None));
    case ReadClaim(shard, c, copy) => ReadKept(w, shard, c, copy);
    case Reclaim(shard) => ReclaimKept(w, shard);
    case MakePod(shard) => MakePodKept(w, shard);
    case DecideMark(c, seen) => BecomeKept(w, c.shard, Marking(c, seen, w.now));
    case CommitMark(shard, strips) => CommitMarkKept(w, shard, strips);
  }

  lemma InvKept(w: World, step: Step)
    requires Inv(w) && Enabled(w, step, true)
    ensures Inv(Apply(w, step, true))
  {
    match step
    case Tick => PodsGoneKept(w, Apply(w, step, true));
    case CreatePvc(c) => StoreKept(w, c, None, false);
    case Touch(c) => StoreKept(w, c, w.claims[c].mark, w.claims[c].terminating);
    case Terminate(c) => DeleteKept(w, c);
    case Vanish(c) => GoneKept(w, c);
    case DeletePod(pod) => PodsGoneKept(w, Apply(w, step, true));
    case _ => if GcStep(step) { GcStepKept(w, step); } else { OperatorStepKept(w, step); }
  }

  lemma {:induction false} RunKeepsInv(retention: nat, steps: seq<Step>)
    requires Run(retention, steps, true).Some?
    ensures Inv(Run(retention, steps, true).value) && Run(retention, steps, true).value.retention == retention
  {
    if steps != [] {
      RunKeepsInv(retention, steps[..|steps| - 1]);
      InvKept(Run(retention, steps[..|steps| - 1], true).value, steps[|steps| - 1]);
    }
  }

  /** No run of operator and garbage collector deletes a claim that some pod references. */
  lemma NeverDeletesClaimInUse(retention: nat, steps: seq<Step>, i: nat)
    requires Run(retention, steps, true).Some? && i < |Run(retention, steps, true).value.deletions|
    ensures !Run(retention, steps, true).value.deletions[i].used
  {
    RunKeepsInv(retention, steps);
  }

  // ------------------------------------------------------------ retention

  /** Since write `i`, every write on `c` has left the label in place. */
  ghost predicate LabelledFrom(writes: seq<Write>, c: Claim, i: nat)
  {
    i < |writes| && forall j | i <= j < |writes| && writes[j].claim == c :: writes[j].mark.Some?
  }

  /** The unbroken labelled stretch up to now began no later than the label's value was written. */
  ghost predicate Carried(writes: seq<Write>, c: Claim, m: Mark)
  {
    exists i: nat :: LabelledFrom(writes, c, i) && writes[i].claim == c && writes[i].at <= m.committed
  }

  /** What a deletion by the garbage collector rests on. */
  ghost predicate Deserved(w: World, d: Deletion)
  {
    d.writes <= |w.writes| && Carried(w.writes[..d.writes], d.claim, d.mark) &&
    MarkOk(w, d.mark) && d.mark.committed <= d.at && d.mark.since + w.retention <= d.at <= w.now
  }

  ghost predicate InvLabels(w: World)
  {
    && (forall c | c in w.claims && w.claims[c].mark.Some? :: Carried(w.writes, c, w.claims[c].mark.value))
    && (forall i | 0 <= i < |w.deletions| :: Deserved(w, w.deletions[i]))
  }

  lemma CarriedOn(writes: seq<Write>, last: Write, c: Claim, m: Mark)
    requires Carried(writes, c, m)
    requires last.claim == c ==> last.mark.Some?
    ensures Carried(writes + [last], c, m)
  {
    var i: nat :| LabelledFrom(writes, c, i) && writes[i].claim == c && writes[i].at <= m.committed;
    assert LabelledFrom(writes + [last], c, i);
  }

  lemma DeservedOn(w: World, w': World)
    requires InvLabels(w) && w.writes <= w'.writes && w.now <= w'.now && w'.retention == w.retention
    ensures forall i | 0 <= i < |w.deletions| :: Deserved(w', w.deletions[i])
  {
    forall i | 0 <= i < |w.deletions| ensures Deserved(w', w.deletions[i]) {
      assert Deserved(w, w.deletions[i]);
      assert w'.writes[..w.deletions[i].writes] == w.writes[..w.deletions[i].writes];
    }
  }

  /** Any committed write: `m` is the mark it leaves, kept from before or put on now. */
  lemma LabelsStore(w: World, c: Claim, mark: Option<Mark>, terminating: bool)
    requires InvLabels(w)
    requires mark.Some? ==> (c in w.claims && w.claims[c].mark == mark) || mark.value.committed == w.now
    ensures InvLabels(Store(w, c, mark, terminating))
  {
    var w' := Store(w, c, mark, terminating);
    var last := Write(c, w.now, mark);
    DeservedOn(w, w');
    forall x | x in w'.claims && w'.claims[x].mark.Some? ensures Carried(w'.writes, x, w'.claims[x].mark.value) {
      if x != c || (c in w.claims && w.claims[c].mark == mark) {
        CarriedOn(w.writes, last, x, w'.claims[x].mark.value);
      } else {
        assert LabelledFrom(w'.writes, c, |w.writes|);
      }
    }
  }

  lemma LabelsGone(w: World, c: Claim)
    requires InvLabels(w)
    ensures InvLabels(Gone(w, c))
  {
    var w' := Gone(w, c);
    DeservedOn(w, w');
    forall x | x in w'.claims && w'.claims[x].mark.Some? ensures Carried(w'.writes, x, w'.claims[x].mark.value) {
      CarriedOn(w.writes, Write(c, w.now, None), x, w'.claims[x].mark.value);
    }
  }

  lemma LabelsDelete(w: World, c: Claim)
    requires InvLabels(w) && c in w.claims
    ensures InvLabels(Delete(w, c))
  {
    if Used(w, c) { LabelsStore(w, c, w.claims[c].mark, true); } else { LabelsGone(w, c); }
  }

  lemma LabelsGcDelete(w: World, run: GcRun, c: Claim)
    requires Inv(w) && InvLabels(w) && run in w.gcs && Condemns(w.gcs[run], c)
    ensures InvLabels(DoGcDelete(w, run, c))
  {
    assert GcOk(w, w.gcs[run]);
    if c in w.claims && w.claims[c].version == w.gcs[run].listed[c].version {
      LabelsDelete(w, c);
      var w' := DoGcDelete(w, run, c);
      var d := w'.deletions[|w.deletions|];
      assert w'.writes[..|w.writes|] == w.writes;
      assert Deserved(w', d);
      DeservedOn(w, w');
    }
  }

  /** Steps that write nothing, or only on the operator's behalf. */
  lemma LabelsFrame(w: World, w': World)
    requires InvLabels(w) && w'.claims == w.claims && w'.writes == w.writes && w'.deletions == w.deletions
    requires w.now <= w'.now && w'.retention == w.retention
    ensures InvLabels(w')
  {
    DeservedOn(w, w');
  }

  lemma LabelsOperator(w: World, step: Step)
    requires Inv(w) && InvLabels(w) && Enabled(w, step, true)
    requires step.Reclaim? || step.CommitMark?
    ensures InvLabels(Apply(w, step, true))
  {
    match step
    case Reclaim(shard) =>
      var (c, seen) := OperatorOf(w, shard).copy.value;
      if c in w.claims { LabelsStore(w, c, None, w.claims[c].terminating); }
      LabelsReframe(w, DoReclaim(w, shard), c);
    case CommitMark(shard, strips) =>
      var Marking(c, seen, clock) := OperatorOf(w, shard);
      var idle := Become(w, shard, Idle);
      LabelsFrame(w, idle);
      if c in w.claims {
        if seen.mark.None? {
          LabelsStore(idle, c, Some(Mark(Stamp(clock), clock, w.now)), w.claims[c].terminating);
        } else if strips {
          LabelsStore(idle, c, w.claims[c].mark, w.claims[c].terminating);
        }
      }
  }

  lemma LabelsReframe(w: World, w': World, c: Claim)
    requires InvLabels(w) && (c in w.claims ==> InvLabels(Store(w, c, None, w.claims[c].terminating)))
    requires w'.now == w.now && w'.retention == w.retention && w'.deletions == w.deletions
    requires || (w'.claims == w.claims && w'.writes == w.writes)
             || (c in w.claims && w'.claims == Store(w, c, None, w.claims[c].terminating).claims &&
                 w'.writes == Store(w, c, None, w.claims[c].terminating).writes)
    ensures InvLabels(w')
  {
    if w'.writes == w.writes && w'.claims == w.claims { LabelsFrame(w, w'); }
    else { LabelsFrame(Store(w, c, None, w.claims[c].terminating), w'); }
  }

  lemma LabelsKept(w: World, step: Step)
    requires Inv(w) && InvLabels(w) && Enabled(w, step, true)
    ensures InvLabels(Apply(w, step, true))
  {
    match step
    case CreatePvc(c) => LabelsStore(w, c, None, false);
    case Touch(c) => LabelsStore(w, c, w.claims[c].mark, w.claims[c].terminating);
    case Terminate(c) => LabelsDelete(w, c);
    case Vanish(c) => LabelsGone(w, c);
    case GcDelete(run, c) => LabelsGcDelete(w, run, c);
    case Reclaim(_) => LabelsOperator(w, step);
    case CommitMark(_, _) => LabelsOperator(w, step);
    case _ => LabelsFrame(w, Apply(w, step, true));
  }

  lemma {:induction false} RunKeepsLabels(retention: nat, steps: seq<Step>)
    requires Run(retention, steps, true).Some?
    ensures InvLabels(Run(retention, steps, true).value)
  {
    if steps != [] {
      var before := steps[..|steps| - 1];
      RunKeepsInv(retention, before);
      RunKeepsLabels(retention, before);
      LabelsKept(Run(retention, before, true).value, steps[|steps| - 1]);
    }
  }

  /** The earliest moment a claim with this mark can go: its value has expired, and the mark is committed. */
  function Earliest(retention: nat, m: Mark): nat
  {
    if m.since + retention >= m.committed then m.since + retention else m.committed
  }

  /** Up to the deletion the claim had carried the label, unbroken, for at least `t`. */
  ghost predicate LabelledFor(w: World, d: Deletion, t: nat)
  {
    d.writes <= |w.writes| && var writes := w.writes[..d.writes];
    exists i: nat :: LabelledFrom(writes, d.claim, i) && writes[i].claim == d.claim && writes[i].at + t <= d.at
  }

  /**
    Every claim the garbage collector deletes has carried the label without a break since
    some write no later than the one that wrote the value it judged.  The value is at least
    the retention old, at most a second older than the clock it was cut from, and that
    clock may be older than the commit by any lag; the time since the commit is the
    retention less both.
   */
  lemma DeletedOnlyAfterRetention(retention: nat, steps: seq<Step>, k: nat)
    requires Run(retention, steps, true).Some? && k < |Run(retention, steps, true).value.deletions|
    ensures var w := Run(retention, steps, true).value; var d := w.deletions[k]; var m := d.mark;
            && d.writes <= |w.writes| && Carried(w.writes[..d.writes], d.claim, m)
            && m.since == Stamp(m.clock) && m.since <= m.clock < m.since + SECOND && m.clock <= m.committed <= w.now
            && Earliest(retention, m) <= d.at
            && d.at - m.committed > retention - SECOND - (m.committed - m.clock)
            && LabelledFor(w, d, Earliest(retention, m) - m.committed)
  {
    RunKeepsInv(retention, steps);
    RunKeepsLabels(retention, steps);
    var w := Run(retention, steps, true).value;
    var d := w.deletions[k];
    assert Deserved(w, d);
    StampWithinSecond(d.mark.clock);
    var writes := w.writes[..d.writes];
    var i: nat :| LabelledFrom(writes, d.claim, i) && writes[i].claim == d.claim && writes[i].at <= d.mark.committed;
    assert writes[i].at + (Earliest(retention, d.mark) - d.mark.committed) <= d.at;
  }

  lemma StampWithinSecond(t: nat)
    ensures Stamp(t) <= t < Stamp(t) + SECOND
  {
  }

  lemma StampMonotone(t: nat, u: nat)
    requires t <= u
    ensures Stamp(t) <= Stamp(u)
  {
  }

  /** Only MarkOrphan's commit ever puts a different mark on a labelled claim. */
  lemma OnlyCommitsRestamp(w: World, step: Step, c: Claim)
    requires Enabled(w, step, true) && !step.CommitMark?
    requires c in w.claims && c in Apply(w, step, true).claims
    ensures Apply(w, step, true).claims[c].mark == None || Apply(w, step, true).claims[c].mark == w.claims[c].mark
  {
  }

  /** While a claim stays labelled, no step moves the recorded timestamp back, stale reads included. */
  lemma MarkNeverMovesBack(retention: nat, steps: seq<Step>, step: Step, c: Claim)
    requires Run(retention, steps, true).Some? && Enabled(Run(retention, steps, true).value, step, true)
    requires var w := Run(retention, steps, true).value; var w' := Apply(w, step, true);
             c in w.claims && c in w'.claims && w.claims[c].mark.Some? && w'.claims[c].mark.Some?
    ensures var w := Run(retention, steps, true).value; var w' := Apply(w, step, true);
            w.claims[c].mark.value.since <= w'.claims[c].mark.value.since
  {
    RunKeepsInv(retention, steps);
    RestampMovesOn(Run(retention, steps, true).value, step, c);
  }

  lemma RestampMovesOn(w: World, step: Step, c: Claim)
    requires Inv(w) && Enabled(w, step, true)
    requires c in w.claims && w.claims[c].mark.Some?
    requires c in Apply(w, step, true).claims && Apply(w, step, true).claims[c].mark.Some?
    ensures w.claims[c].mark.value.since <= Apply(w, step, true).claims[c].mark.value.since
  {
    match step
    case CommitMark(shard, strips) =>
      assert OperatorOk(w, shard);
      if OperatorOf(w, shard).claim == c {
        StampMonotone(w.claims[c].mark.value.clock, OperatorOf(w, shard).clock);
      }
    case _ => OnlyCommitsRestamp(w, step, c);
  }
}
