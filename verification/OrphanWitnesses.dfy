/**
  Runs that mark one claim and delete it as early as possible: how long the label is
  carried at least, and why the reclaim reads uncached.
 */
module OrphanWitnesses {
  import opened Options
  import opened OrphanRuns
  import opened OrphanSafety

  lemma RunSnoc(retention: nat, steps: seq<Step>, step: Step, uncached: bool)
    requires Run(retention, steps, uncached).Some? && Enabled(Run(retention, steps, uncached).value, step, uncached)
    ensures Run(retention, steps + [step], uncached) ==
            Some(Apply(Run(retention, steps, uncached).value, step, uncached))
  {
    assert (steps + [step])[..|steps|] == steps;
  }

  function Ticks(n: nat): seq<Step> { seq(n, _ => Tick) }

  lemma TickMore(steps: seq<Step>, n: nat)
    ensures steps + Ticks(n + 1) == steps + Ticks(n) + [Tick]
  {
  }

  lemma {:induction false} LetTimePass(retention: nat, steps: seq<Step>, n: nat, uncached: bool)
    requires Run(retention, steps, uncached).Some?
    ensures var w := Run(retention, steps, uncached).value;
            Run(retention, steps + Ticks(n), uncached) == Some(w.(now := w.now + n))
  {
    if n == 0 {
      assert steps + Ticks(0) == steps;
    } else {
      LetTimePass(retention, steps, n - 1, uncached);
      TickMore(steps, n - 1);
      RunSnoc(retention, steps + Ticks(n - 1), Tick, uncached);
    }
  }

  // ------------------------------------------------------------ marked, condemned, deleted

  const DATA := Claim("ns", "shard", "data")
  const UNMARKED := Pvc(1, None, false)

  /** The mark of a reconcile that reads its clock at `clock` and commits `lag` later. */
  function MarkOf(clock: nat, lag: nat): Mark { Mark(Stamp(clock), clock, clock + lag) }

  function Marked(clock: nat, lag: nat): Pvc { Pvc(2, Some(MarkOf(clock, lag)), false) }

  function MarkedWorld(retention: nat, clock: nat, lag: nat): World
  {
    Start(retention).(now := clock + lag, version := 2, claims := map[DATA := Marked(clock, lag)],
      operators := map["shard" := Idle],
      writes := [Write(DATA, 0, None), Write(DATA, clock + lag, Some(MarkOf(clock, lag)))])
  }

  /** The reconcile has read its clock. */
  function DecidedWorld(retention: nat, clock: nat): World
  {
    Start(retention).(now := clock, version := 1, claims := map[DATA := UNMARKED],
      operators := map["shard" := Marking(DATA, UNMARKED, clock)], writes := [Write(DATA, 0, None)])
  }

  lemma ReachDecided(retention: nat, clock: nat, uncached: bool) returns (steps: seq<Step>)
    ensures Run(retention, steps, uncached) == Some(DecidedWorld(retention, clock))
  {
    var made := [] + [CreatePvc(DATA)];
    RunSnoc(retention, [], CreatePvc(DATA), uncached);
    LetTimePass(retention, made, clock, uncached);
    var late := made + Ticks(clock);
    RunSnoc(retention, late, DecideMark(DATA, UNMARKED), uncached);
    steps := late + [DecideMark(DATA, UNMARKED)];
    var w := Run(retention, steps, uncached).value;
    assert w.claims == map[DATA := UNMARKED] && w.writes == [Write(DATA, 0, None)];
    assert w.operators == map["shard" := Marking(DATA, UNMARKED, clock)];
  }

  lemma ReachMarked(retention: nat, clock: nat, lag: nat, uncached: bool) returns (steps: seq<Step>)
    ensures Run(retention, steps, uncached) == Some(MarkedWorld(retention, clock, lag))
  {
    var decided := ReachDecided(retention, clock, uncached);
    LetTimePass(retention, decided, lag, uncached);
    var late := decided + Ticks(lag);
    RunSnoc(retention, late, CommitMark("shard", false), uncached);
    steps := late + [CommitMark("shard", false)];
    var w, want := Run(retention, steps, uncached).value, MarkedWorld(retention, clock, lag);
    assert w.claims == want.claims && w.operators == want.operators && w.writes == want.writes;
  }

  /** Listed, timed and checked against the pods at the earliest moment: the claim is condemned. */
  function CondemnedWorld(retention: nat, clock: nat, lag: nat): World
  {
    var at := Earliest(retention, MarkOf(clock, lag));
    MarkedWorld(retention, clock, lag).(now := at,
      gcs := map[0 := Gc(map[DATA := Marked(clock, lag)], Some(at - retention), map["ns" := {}])])
  }

  function ExpiredWorld(retention: nat, clock: nat, lag: nat): World
  {
    MarkedWorld(retention, clock, lag).(now := Earliest(retention, MarkOf(clock, lag)))
  }

  lemma ReachExpired(retention: nat, clock: nat, lag: nat, uncached: bool) returns (steps: seq<Step>)
    ensures Run(retention, steps, uncached) == Some(ExpiredWorld(retention, clock, lag))
  {
    steps := ReachLater(retention, clock, lag, Earliest(retention, MarkOf(clock, lag)), uncached);
  }

  lemma ReachLater(retention: nat, clock: nat, lag: nat, at: nat, uncached: bool) returns (steps: seq<Step>)
    requires clock + lag <= at
    ensures Run(retention, steps, uncached) == Some(MarkedWorld(retention, clock, lag).(now := at))
  {
    var marked := ReachMarked(retention, clock, lag, uncached);
    LetTimePass(retention, marked, at - (clock + lag), uncached);
    steps := marked + Ticks(at - (clock + lag));
  }

  lemma ListsTheClaim(retention: nat, clock: nat, lag: nat)
    ensures Listed(ExpiredWorld(retention, clock, lag), None) == map[DATA := Marked(clock, lag)]
    ensures InUse(ExpiredWorld(retention, clock, lag), "ns") == {}
  {
  }

  function ListedWorld(retention: nat, clock: nat, lag: nat): World
  {
    ExpiredWorld(retention, clock, lag).(gcs := map[0 := Gc(map[DATA := Marked(clock, lag)], None, map[])])
  }

  lemma ReachListed(retention: nat, clock: nat, lag: nat, uncached: bool) returns (steps: seq<Step>)
    ensures Run(retention, steps, uncached) == Some(ListedWorld(retention, clock, lag))
  {
    var expired := ReachExpired(retention, clock, lag, uncached);
    RunSnoc(retention, expired, GcList(0, None), uncached);
    steps := expired + [GcList(0, None)];
    ListsTheClaim(retention, clock, lag);
    assert Run(retention, steps, uncached).value.gcs == ListedWorld(retention, clock, lag).gcs;
  }

  lemma ReachCondemned(retention: nat, clock: nat, lag: nat, uncached: bool) returns (steps: seq<Step>)
    ensures Run(retention, steps, uncached) == Some(CondemnedWorld(retention, clock, lag))
  {
    var listed := ReachListed(retention, clock, lag, uncached);
    var timed := listed + [GcClock(0)];
    RunSnoc(retention, listed, GcClock(0), uncached);
    RunSnoc(retention, timed, GcPods(0, "ns"), uncached);
    steps := timed + [GcPods(0, "ns")];
    assert InUse(ListedWorld(retention, clock, lag), "ns") == {};
    assert Run(retention, steps, uncached).value.gcs == CondemnedWorld(retention, clock, lag).gcs;
  }

  // ------------------------------------------------------------ how long the label is carried

  /** The one deletion of the run that wastes no time. */
  function Swift(retention: nat, clock: nat, lag: nat): Deletion
  {
    Deletion(DATA, Earliest(retention, MarkOf(clock, lag)), MarkOf(clock, lag), false, 2)
  }

  /** For every clock and every commit lag some run deletes at the earliest moment. */
  lemma EarliestIsReached(retention: nat, clock: nat, lag: nat) returns (steps: seq<Step>)
    ensures Run(retention, steps, true).Some?
    ensures Run(retention, steps, true).value.deletions == [Swift(retention, clock, lag)]
    ensures MarkedWorld(retention, clock, lag).writes <= Run(retention, steps, true).value.writes
  {
    var condemned := ReachCondemned(retention, clock, lag, true);
    var w := CondemnedWorld(retention, clock, lag);
    assert Stamp(clock) <= clock by { StampWithinSecond(clock); }
    assert Condemns(w.gcs[0], DATA);
    assert !Used(w, DATA);
    RunSnoc(retention, condemned, GcDelete(0, DATA), true);
    steps := condemned + [GcDelete(0, DATA)];
  }

  /** In that run the label is carried from its commit on, and not before. */
  lemma CarriedFromCommit(retention: nat, clock: nat, lag: nat, w: World, t: nat)
    requires MarkedWorld(retention, clock, lag).writes <= w.writes
    ensures LabelledFor(w, Swift(retention, clock, lag), t) <==>
            clock + lag + t <= Earliest(retention, MarkOf(clock, lag))
  {
    var writes := w.writes[..2];
    assert writes == MarkedWorld(retention, clock, lag).writes;
    assert LabelledFrom(writes, DATA, 1);
    assert writes[0].claim == DATA && writes[0].mark.None?;
  }

  /** Every run keeps deleted claims with this mark labelled for the whole retention. */
  ghost predicate HonoursRetention(retention: nat, m: Mark)
  {
    forall steps, k: nat | Run(retention, steps, true).Some? && k < |Run(retention, steps, true).value.deletions| &&
        Run(retention, steps, true).value.deletions[k].mark == m ::
      LabelledFor(Run(retention, steps, true).value, Run(retention, steps, true).value.deletions[k], retention)
  }

  /**
    The label is carried for the whole retention, in every run, exactly when there is no
    retention to speak of or the mark was cut at a whole second and committed at once.
   */
  lemma RetentionHonouredIff(retention: nat, clock: nat, lag: nat)
    ensures HonoursRetention(retention, MarkOf(clock, lag)) <==> retention == 0 || (clock == Stamp(clock) && lag == 0)
  {
    var m := MarkOf(clock, lag);
    StampWithinSecond(clock);
    if retention == 0 || (clock == Stamp(clock) && lag == 0) {
      forall steps, k: nat | Run(retention, steps, true).Some? && k < |Run(retention, steps, true).value.deletions| &&
          Run(retention, steps, true).value.deletions[k].mark == m
        ensures LabelledFor(Run(retention, steps, true).value, Run(retention, steps, true).value.deletions[k],
                            retention)
      {
        PromptMarkKept(retention, steps, k);
      }
    } else {
      var steps := EarliestIsReached(retention, clock, lag);
      var w := Run(retention, steps, true).value;
      CarriedFromCommit(retention, clock, lag, w, retention);
      assert w.deletions[0].mark == m && !LabelledFor(w, w.deletions[0], retention);
    }
  }

  lemma PromptMarkKept(retention: nat, steps: seq<Step>, k: nat)
    requires Run(retention, steps, true).Some? && k < |Run(retention, steps, true).value.deletions|
    requires var m := Run(retention, steps, true).value.deletions[k].mark; retention == 0 || m.since == m.committed
    ensures LabelledFor(Run(retention, steps, true).value, Run(retention, steps, true).value.deletions[k], retention)
  {
    DeletedOnlyAfterRetention(retention, steps, k);
    var w := Run(retention, steps, true).value;
    var d := w.deletions[k];
    var reached: nat := Earliest(retention, d.mark) - d.mark.committed;
    Shorter(w, d, reached, retention);
  }

  lemma Shorter(w: World, d: Deletion, long: nat, t: nat)
    requires LabelledFor(w, d, long) && t <= long
    ensures LabelledFor(w, d, t)
  {
    var writes := w.writes[..d.writes];
    var i: nat :| LabelledFrom(writes, d.claim, i) && writes[i].claim == d.claim && writes[i].at + long <= d.at;
    assert writes[i].at + t <= d.at;
  }

  /** A mark that commits a whole retention late leaves no labelled time at all. */
  lemma LateCommitLeavesNoTime(retention: nat)
    ensures exists steps :: Run(retention, steps, true).Some? && var w := Run(retention, steps, true).value;
              |w.deletions| == 1 && w.deletions[0].at == w.deletions[0].mark.committed &&
              !LabelledFor(w, w.deletions[0], 1)
  {
    var steps := EarliestIsReached(retention, 0, retention);
    CarriedFromCommit(retention, 0, retention, Run(retention, steps, true).value, 1);
  }

  /** A mark cut just before a full second and committed at once goes one second less a tick early. */
  lemma AlmostASecondEarly(retention: nat)
    ensures exists steps :: Run(retention, steps, true).Some? && var w := Run(retention, steps, true).value;
              |w.deletions| == 1 && w.deletions[0].mark.clock == w.deletions[0].mark.committed &&
              w.deletions[0].at - w.deletions[0].mark.committed ==
                if retention < SECOND then 0 else retention - (SECOND - 1)
  {
    var steps := EarliestIsReached(retention, SECOND - 1, 0);
    assert Stamp(SECOND - 1) == 0;
  }

  // ------------------------------------------------------------ why the reclaim reads uncached

  /** The reclaim trusted a copy from before the mark, so its pod runs on a claim that is still marked. */
  function UnsafeWorld(retention: nat): World { CondemnedWorld(retention, 0, 0).(pods := map["pod" := {DATA}]) }

  /** It has read that copy and not yet acted on it. */
  function TrustingWorld(retention: nat): World
  {
    CondemnedWorld(retention, 0, 0).(operators := map["shard" := Claiming("pod", {DATA}, {}, Some((DATA, UNMARKED)))])
  }

  lemma ReachTrusting(retention: nat) returns (steps: seq<Step>)
    ensures Run(retention, steps, false) == Some(TrustingWorld(retention))
  {
    var a := ReachCondemned(retention, 0, 0, false);
    var b := a + [StartPod("shard", "pod", {DATA})];
    RunSnoc(retention, a, StartPod("shard", "pod", {DATA}), false);
    RunSnoc(retention, b, ReadClaim("shard", DATA, Some(UNMARKED)), false);
    steps := b + [ReadClaim("shard", DATA, Some(UNMARKED))];
    assert Run(retention, steps, false).value.operators == TrustingWorld(retention).operators;
  }

  lemma ReachUnsafe(retention: nat) returns (steps: seq<Step>)
    ensures Run(retention, steps, false) == Some(UnsafeWorld(retention))
  {
    var a := ReachTrusting(retention);
    var b := a + [Reclaim("shard")];
    RunSnoc(retention, a, Reclaim("shard"), false);
    assert {} + {DATA} == {DATA};
    RunSnoc(retention, b, MakePod("shard"), false);
    steps := b + [MakePod("shard")];
    var w := Run(retention, steps, false).value;
    assert w.operators == UnsafeWorld(retention).operators && w.pods == map["pod" := {DATA}];
  }

  /**
    A reclaim that trusts a cached copy from before the mark skips ClearOrphan, creates
    its pod, and the garbage collector deletes the claim under it, whatever the retention.
   */
  lemma CachedReclaimLosesStorage(retention: nat)
    ensures exists steps :: Run(retention, steps, false).Some? &&
              |Run(retention, steps, false).value.deletions| == 1 &&
              Run(retention, steps, false).value.deletions[0].used
  {
    var steps := ReachUnsafe(retention);
    var w := UnsafeWorld(retention);
    assert DATA in w.pods["pod"];
    RunSnoc(retention, steps, GcDelete(0, DATA), false);
  }
}
