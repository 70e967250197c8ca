/** When exactly a promotion run goes ahead, and what stands behind every move of the branch. */
module PromotionTrace {
  import opened Options
  import opened PromotionRuns

  // ------------------------------------------------------------ the decision, spelled out

  /** Every governed default reads the record's image of its component. */
  predicate Consistent(e: Env, c: Commit, r: Record)
  {
    forall n | n in e.components ::
      n in c.defaults && e.components[n] in r.images && c.defaults[n] == r.images[e.components[n]]
  }

  /** Every governed default is pinned to a revision not ahead of the record's. */
  predicate NoDefaultIsNewer(e: Env, c: Commit, r: Record)
  {
    forall n | n in e.components ::
      n in c.defaults && e.pinned(c.defaults[n]).Some? &&
      var pin := e.pinned(c.defaults[n]).value; pin == r.upstream || e.ahead(pin, r.upstream)
  }

  predicate OtherImages(prior: Record, r: Record)
  {
    exists n | n in prior.images :: n !in r.images || prior.images[n] != r.images[n]
  }

  /** Strictly newer than the prior record. */
  predicate Supersedes(e: Env, prior: Record, r: Record)
  {
    prior.upstream != r.upstream && e.ahead(prior.upstream, r.upstream)
  }

  /** The same revision with the same images, or a newer one. */
  predicate Follows(e: Env, prior: Record, r: Record)
  {
    Supersedes(e, prior, r) || (prior.upstream == r.upstream && !OtherImages(prior, r))
  }

  /** What the run requires of main and of the branch, whatever it then does. */
  predicate Sound(e: Env, main: Commit, pending: Option<Commit>, r: Record)
  {
    && (main.record.Some? ==> Consistent(e, main, main.record.value) && Follows(e, main.record.value, r))
    && (main.record.None? ==> NoDefaultIsNewer(e, main, r))
    && (pending.Some? ==> && pending.value.record.Some?
                          && Consistent(e, pending.value, pending.value.record.value)
                          && Follows(e, pending.value.record.value, r))
  }

  /** Main, or the branch, already holds these images. */
  predicate Held(c: Option<Commit>, r: Record)
  {
    c.Some? && c.value.record.Some? && !OtherImages(c.value.record.value, r)
  }

  function Pending(w: World, head: Option<nat>): Option<Commit>
    requires head.Some? ==> head.value < |w.commits|
  {
    if head.Some? then Some(w.commits[head.value]) else None
  }

  lemma SameIff(a: Record, b: Record)
    ensures SameImages(a, b) <==> !OtherImages(a, b)
  {
  }

  /** A run fails exactly when main or the branch is not sound; else it promotes unless the images are held already. */
  lemma DecideIff(e: Env, w: World, r: Record, main: nat, head: Option<nat>)
    requires main < |w.commits| && (head.Some? ==> head.value < |w.commits|)
    ensures var m, p := w.commits[main], Pending(w, head);
            && (Decide(e, w, r, main, head) == Failed <==> !Sound(e, m, p, r))
            && (Decide(e, w, r, main, head) == Settled <==> Sound(e, m, p, r) && (Held(Some(m), r) || Held(p, r)))
            && (Decide(e, w, r, main, head) == Decided(r, main, head, |w.moves|) <==>
                  Sound(e, m, p, r) && !Held(Some(m), r) && !Held(p, r))
  {
    var m, p := w.commits[main], Pending(w, head);
    if m.record.Some? { SameIff(m.record.value, r); }
    if p.Some? && p.value.record.Some? { SameIff(p.value.record.value, r); }
  }

  /** A run that promotes is strictly newer than every record it read. */
  lemma PromotesForward(e: Env, main: Commit, pending: Option<Commit>, r: Record)
    requires Sound(e, main, pending, r) && !Held(Some(main), r) && !Held(pending, r)
    ensures main.record.Some? ==> Supersedes(e, main.record.value, r)
    ensures pending.Some? && pending.value.record.Some? ==> Supersedes(e, pending.value.record.value, r)
  {
  }

  // ------------------------------------------------------------ the steps behind a move

  /** At step `n` the run read main and the branch, both sound, neither holding the images. */
  ghost predicate DecidedAt(e: Env, root: Commit, steps: seq<Step>, n: nat, id: nat, r: Record, main: nat,
                            head: Option<nat>)
    requires root.parents == {}
  {
    && n < |steps| && steps[n] == ReadBranch(id) && Runs(e, root, steps[..n]).Some?
    && var w := Runs(e, root, steps[..n]).value;
    && w.branch == head && main < |w.commits| && (head.Some? ==> head.value < |w.commits|)
    && Sound(e, w.commits[main], Pending(w, head), r)
    && !Held(Some(w.commits[main]), r) && !Held(Pending(w, head), r)
  }

  /** At step `n` the run saw main at the tested revision still. */
  ghost predicate ReassertedAt(e: Env, root: Commit, steps: seq<Step>, n: nat, id: nat, r: Record)
    requires root.parents == {}
  {
    && n < |steps| && steps[n] == Reassert(id) && Runs(e, root, steps[..n]).Some?
    && Runs(e, root, steps[..n]).value.main == r.operator
  }

  /** The record was given to the run when it began, and its revision found on upstream main. */
  predicate Given(steps: seq<Step>, id: nat, r: Record) { Begin(id, r, true) in steps }

  ghost predicate Behind(e: Env, root: Commit, steps: seq<Step>, id: nat, r: Record, main: nat, head: Option<nat>)
    requires root.parents == {}
  {
    Given(steps, id, r) && main == r.operator && exists n: nat :: DecidedAt(e, root, steps, n, id, r, main, head)
  }

  ghost predicate Confirmation(e: Env, root: Commit, steps: seq<Step>, id: nat, r: Record)
    requires root.parents == {}
  {
    exists n: nat :: ReassertedAt(e, root, steps, n, id, r)
  }

  ghost predicate Traced(e: Env, root: Commit, steps: seq<Step>, id: nat, run: Run)
    requires root.parents == {}
  {
    match run
    case MainRead(r, m) => Given(steps, id, r) && m == r.operator
    case Decided(r, m, h, _) => Behind(e, root, steps, id, r, m, h)
    case Committed(r, m, h, _, _) => Behind(e, root, steps, id, r, m, h)
    case Confirmed(r, m, h, _, _) => Behind(e, root, steps, id, r, m, h) && Confirmation(e, root, steps, id, r)
    case _ => true
  }

  lemma DecidedStays(e: Env, root: Commit, steps: seq<Step>, s: Step, n: nat, id: nat, r: Record, main: nat,
                     head: Option<nat>)
    requires root.parents == {} && DecidedAt(e, root, steps, n, id, r, main, head)
    ensures DecidedAt(e, root, steps + [s], n, id, r, main, head)
  {
    assert (steps + [s])[..n] == steps[..n];
  }

  lemma BehindStays(e: Env, root: Commit, steps: seq<Step>, s: Step, id: nat, r: Record, main: nat, head: Option<nat>)
    requires root.parents == {} && Behind(e, root, steps, id, r, main, head)
    ensures Behind(e, root, steps + [s], id, r, main, head)
  {
    var n: nat :| DecidedAt(e, root, steps, n, id, r, main, head);
    DecidedStays(e, root, steps, s, n, id, r, main, head);
  }

  lemma ConfirmationStays(e: Env, root: Commit, steps: seq<Step>, s: Step, id: nat, r: Record)
    requires root.parents == {} && Confirmation(e, root, steps, id, r)
    ensures Confirmation(e, root, steps + [s], id, r)
  {
    var n: nat :| ReassertedAt(e, root, steps, n, id, r);
    assert (steps + [s])[..n] == steps[..n];
    assert ReassertedAt(e, root, steps + [s], n, id, r);
  }

  lemma TraceStays(e: Env, root: Commit, steps: seq<Step>, s: Step, id: nat, run: Run)
    requires root.parents == {} && Traced(e, root, steps, id, run)
    ensures Traced(e, root, steps + [s], id, run)
  {
    match run
    case Decided(r, m, h, _) => BehindStays(e, root, steps, s, id, r, m, h);
    case Committed(r, m, h, _, _) => BehindStays(e, root, steps, s, id, r, m, h);
    case Confirmed(r, m, h, _, _) =>
      BehindStays(e, root, steps, s, id, r, m, h);
      ConfirmationStays(e, root, steps, s, id, r);
    case _ =>
  }

  lemma ReadTraced(e: Env, root: Commit, steps: seq<Step>, id: nat)
    requires root.parents == {} && Runs(e, root, steps).Some?
    requires var w := Runs(e, root, steps).value;
             id in w.runs && w.runs[id].MainRead? && Traced(e, root, steps, id, w.runs[id])
    ensures var w := Runs(e, root, steps).value;
            Traced(e, root, steps + [ReadBranch(id)], id, Apply(e, w, ReadBranch(id)).runs[id])
  {
    var w := Runs(e, root, steps).value;
    var MainRead(r, main) := w.runs[id];
    assert RunOk(e, w, w.runs[id]);
    DecideIff(e, w, r, main, w.branch);
    if Decide(e, w, r, main, w.branch).Decided? {
      assert (steps + [ReadBranch(id)])[..|steps|] == steps;
      assert DecidedAt(e, root, steps + [ReadBranch(id)], |steps|, id, r, main, w.branch);
    }
  }

  lemma ReassertTraced(e: Env, root: Commit, steps: seq<Step>, id: nat)
    requires root.parents == {} && Runs(e, root, steps).Some?
    requires var w := Runs(e, root, steps).value;
             id in w.runs && w.runs[id].Committed? && Traced(e, root, steps, id, w.runs[id])
    ensures var w := Runs(e, root, steps).value;
            Traced(e, root, steps + [Reassert(id)], id, Apply(e, w, Reassert(id)).runs[id])
  {
    var w := Runs(e, root, steps).value;
    var Committed(r, m, h, seen, c) := w.runs[id];
    TraceStays(e, root, steps, Reassert(id), id, w.runs[id]);
    if w.main == r.operator {
      assert (steps + [Reassert(id)])[..|steps|] == steps;
      assert ReassertedAt(e, root, steps + [Reassert(id)], |steps|, id, r);
    }
  }

  lemma StepTraced(e: Env, root: Commit, steps: seq<Step>, s: Step, id: nat)
    requires root.parents == {} && Runs(e, root, steps).Some?
    requires var w := Runs(e, root, steps).value;
             && Enabled(e, w, s) && id in Apply(e, w, s).runs
             && (id in w.runs ==> Traced(e, root, steps, id, w.runs[id]))
    ensures var w := Runs(e, root, steps).value; Traced(e, root, steps + [s], id, Apply(e, w, s).runs[id])
  {
    var w := Runs(e, root, steps).value;
    if id in w.runs { TraceStays(e, root, steps, s, id, w.runs[id]); }
    match s
    case ReadBranch(i) => if i == id { ReadTraced(e, root, steps, id); }
    case Reassert(i) => if i == id { ReassertTraced(e, root, steps, id); }
    case _ =>
  }

  lemma {:induction false} RunsAreTraced(e: Env, root: Commit, steps: seq<Step>, id: nat)
    requires root.parents == {} && Runs(e, root, steps).Some? && id in Runs(e, root, steps).value.runs
    ensures Traced(e, root, steps, id, Runs(e, root, steps).value.runs[id])
  {
    var before, s := steps[..|steps| - 1], steps[|steps| - 1];
    assert steps == before + [s];
    var w := Runs(e, root, before).value;
    if id in w.runs { RunsAreTraced(e, root, before, id); }
    StepTraced(e, root, before, s, id);
  }

  // ------------------------------------------------------------ every move

  /** Some run was given the record, found main and the head sound, and saw main unmoved. */
  ghost predicate Earned(e: Env, root: Commit, steps: seq<Step>, r: Record, main: nat, head: Option<nat>)
    requires root.parents == {}
  {
    exists id: nat :: Behind(e, root, steps, id, r, main, head) && Confirmation(e, root, steps, id, r)
  }

  lemma EarnedStays(e: Env, root: Commit, steps: seq<Step>, s: Step, r: Record, main: nat, head: Option<nat>)
    requires root.parents == {} && Earned(e, root, steps, r, main, head)
    ensures Earned(e, root, steps + [s], r, main, head)
  {
    var id: nat :| Behind(e, root, steps, id, r, main, head) && Confirmation(e, root, steps, id, r);
    BehindStays(e, root, steps, s, id, r, main, head);
    ConfirmationStays(e, root, steps, s, id, r);
  }

  lemma PublishEarned(e: Env, root: Commit, steps: seq<Step>, id: nat)
    requires root.parents == {} && Runs(e, root, steps).Some?
    requires var w := Runs(e, root, steps).value;
             id in w.runs && w.runs[id].Confirmed? && Accepted(w, w.runs[id].head, w.runs[id].commit)
    ensures var r := Runs(e, root, steps).value.runs[id];
            Earned(e, root, steps + [Publish(id)], r.record, r.main, r.head)
  {
    var r := Runs(e, root, steps).value.runs[id];
    RunsAreTraced(e, root, steps, id);
    EarnedStays(e, root, steps, Publish(id), r.record, r.main, r.head);
  }

  lemma RecordStays(e: Env, w: World, s: Step, k: nat)
    requires Inv(e, w) && Enabled(e, w, s) && k < |w.moves|
    ensures Inv(e, Apply(e, w, s)) && k < |Apply(e, w, s).moves|
    ensures Apply(e, w, s).moves[k] == w.moves[k] && RecordAt(e, Apply(e, w, s), k) == RecordAt(e, w, k)
  {
    InvKept(e, w, s);
    assert w.moves[k].to in w.promos;
  }

  lemma NewRecord(e: Env, w: World, id: nat)
    requires Inv(e, w) && id in w.runs && w.runs[id].Confirmed? && Accepted(w, w.runs[id].head, w.runs[id].commit)
    ensures Inv(e, DoPublish(w, id)) && |DoPublish(w, id).moves| == |w.moves| + 1
    ensures RecordAt(e, DoPublish(w, id), |w.moves|) == w.runs[id].record
  {
    PublishKept(e, w, id);
    assert RunOk(e, w, w.runs[id]);
  }

  /** Every move published a record that some run was given and had the right to publish. */
  lemma {:induction false} EveryMoveIsEarned(e: Env, root: Commit, steps: seq<Step>, k: nat)
    requires root.parents == {} && Runs(e, root, steps).Some? && k < |Runs(e, root, steps).value.moves|
    ensures var w := Runs(e, root, steps).value;
            Earned(e, root, steps, RecordAt(e, w, k), w.moves[k].main, w.moves[k].read)
  {
    var before, s := steps[..|steps| - 1], steps[|steps| - 1];
    assert steps == before + [s];
    var w := Runs(e, root, before).value;
    if k < |w.moves| {
      EveryMoveIsEarned(e, root, before, k);
      EarnedStays(e, root, before, s, RecordAt(e, w, k), w.moves[k].main, w.moves[k].read);
      RecordStays(e, w, s, k);
    } else {
      NewRecord(e, w, s.id);
      PublishEarned(e, root, before, s.id);
    }
  }

  lemma CommitsStayOnce(e: Env, w: World, s: Step)
    requires Inv(e, w) && Enabled(e, w, s)
    ensures w.commits <= Apply(e, w, s).commits
  {
  }

  /** Commits keep their content over a run. */
  lemma {:induction false} CommitsStay(e: Env, root: Commit, steps: seq<Step>, n: nat)
    requires root.parents == {} && n <= |steps| && Runs(e, root, steps).Some?
    ensures Runs(e, root, steps[..n]).Some?
    ensures Runs(e, root, steps[..n]).value.commits <= Runs(e, root, steps).value.commits
  {
    if n == |steps| {
      assert steps[..n] == steps;
    } else {
      var before := steps[..|steps| - 1];
      assert before[..n] == steps[..n];
      CommitsStay(e, root, before, n);
      CommitsStayOnce(e, Runs(e, root, before).value, steps[|steps| - 1]);
    }
  }

  // ------------------------------------------------------------ a run left alone promotes

  lemma RunsSnoc(e: Env, root: Commit, steps: seq<Step>, s: Step)
    requires root.parents == {} && Runs(e, root, steps).Some? && Enabled(e, Runs(e, root, steps).value, s)
    ensures Runs(e, root, steps + [s]) == Some(Apply(e, Runs(e, root, steps).value, s))
  {
    assert (steps + [s])[..|steps|] == steps;
  }

  /** The run has decided. */
  lemma ReachDecided(e: Env, root: Commit, steps: seq<Step>, id: nat, r: Record) returns (more: seq<Step>)
    requires root.parents == {} && Runs(e, root, steps).Some?
    requires Ready(e, Runs(e, root, steps).value, id, r)
    ensures Runs(e, root, more).Some? && var w, w' := Runs(e, root, steps).value, Runs(e, root, more).value;
            && w'.main == w.main && w'.branch == w.branch && w'.commits == w.commits
            && id in w'.runs && w'.runs[id] == Decided(r, w.main, w.branch, |w.moves|)
  {
    var w := Runs(e, root, steps).value;
    RunsSnoc(e, root, steps, Begin(id, r, true));
    var began := steps + [Begin(id, r, true)];
    RunsSnoc(e, root, began, ReadBranch(id));
    more := began + [ReadBranch(id)];
    DecideIff(e, Runs(e, root, began).value, r, w.main, w.branch);
  }

  /** A complete record for this main, sound, and not held already; the run has not begun. */
  ghost predicate Ready(e: Env, w: World, id: nat, r: Record)
    requires Inv(e, w)
  {
    && id !in w.runs && Complete(e, r) && r.operator == w.main
    && (w.branch.Some? ==> w.branch.value < |w.commits|) && var p := Pending(w, w.branch);
    && Sound(e, w.commits[w.main], p, r) && !Held(Some(w.commits[w.main]), r) && !Held(p, r)
  }

  /** The run has written its commit on top of main and the head, and confirmed main. */
  lemma ReachConfirmed(e: Env, root: Commit, steps: seq<Step>, id: nat, r: Record, main: nat, head: Option<nat>,
                       seen: nat) returns (more: seq<Step>)
    requires root.parents == {} && Runs(e, root, steps).Some?
    requires var w := Runs(e, root, steps).value;
             && w.main == main == r.operator && w.branch == head
             && id in w.runs && w.runs[id] == Decided(r, main, head, seen)
    ensures Runs(e, root, more).Some? && var w := Runs(e, root, more).value;
            && w.branch == head && id in w.runs && w.runs[id].Confirmed? && w.runs[id].head == head
            && w.runs[id].record == r
  {
    RunsSnoc(e, root, steps, WriteCommit(id));
    var written := steps + [WriteCommit(id)];
    RunsSnoc(e, root, written, Reassert(id));
    more := written + [Reassert(id)];
  }

  lemma AcceptedWhenStill(e: Env, w: World, id: nat)
    requires Inv(e, w) && id in w.runs && w.runs[id].Confirmed? && w.branch == w.runs[id].head
    ensures Accepted(w, w.runs[id].head, w.runs[id].commit)
  {
    var r := w.runs[id];
    assert RunOk(e, w, r);
    if r.head.Some? {
      assert r.head.value in w.commits[r.commit].parents;
      assert GraphAt(w, r.commit);
      assert Within(w.commits, r.head.value, r.head.value);
    }
  }

  /** Left alone, a run that is ready publishes its record. */
  lemma UncontestedRunPromotes(e: Env, root: Commit, steps: seq<Step>, id: nat, r: Record)
    requires root.parents == {} && Runs(e, root, steps).Some?
    requires Ready(e, Runs(e, root, steps).value, id, r)
    ensures exists more :: Runs(e, root, more).Some? && var w := Runs(e, root, more).value;
              |w.moves| > 0 && w.branch == Some(w.moves[|w.moves| - 1].to) && RecordAt(e, w, |w.moves| - 1) == r
  {
    var w := Runs(e, root, steps).value;
    var decided := ReachDecided(e, root, steps, id, r);
    var confirmed := ReachConfirmed(e, root, decided, id, r, w.main, w.branch, |w.moves|);
    var last := Runs(e, root, confirmed).value;
    AcceptedWhenStill(e, last, id);
    NewRecord(e, last, id);
    RunsSnoc(e, root, confirmed, Publish(id));
    assert Runs(e, root, confirmed + [Publish(id)]).value == DoPublish(last, id);
  }

  // ------------------------------------------------------------ the first move

  /** A move made while main had no record is not older than any default pinned there. */
  lemma FirstMoveIsNotOlder(e: Env, root: Commit, steps: seq<Step>, k: nat)
    requires root.parents == {} && Runs(e, root, steps).Some? && k < |Runs(e, root, steps).value.moves|
    requires var w := Runs(e, root, steps).value; assert MoveOk(e, w, k); w.commits[w.moves[k].main].record.None?
    ensures var w := Runs(e, root, steps).value;
            assert MoveOk(e, w, k);
            NoDefaultIsNewer(e, w.commits[w.moves[k].main], RecordAt(e, w, k))
  {
    var w := Runs(e, root, steps).value;
    var r, main, head := RecordAt(e, w, k), w.moves[k].main, w.moves[k].read;
    EveryMoveIsEarned(e, root, steps, k);
    var id: nat :| Behind(e, root, steps, id, r, main, head) && Confirmation(e, root, steps, id, r);
    var n: nat :| DecidedAt(e, root, steps, n, id, r, main, head);
    CommitsStay(e, root, steps, n);
    assert Runs(e, root, steps[..n]).value.commits[main] == w.commits[main];
  }
}
