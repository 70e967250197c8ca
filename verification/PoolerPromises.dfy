/**
  Two promises of the client cache that hold with an exact exception: a forgotten cluster
  stays forgotten, and a live client shields its callers from errors.
 */
module PoolerPromises {
  import opened Options
  import opened PoolerCache
  import opened PoolerRuns
  import opened PoolerSafety

  /** The state after `steps` from `s`, if every one of them was enabled. */
  function RunFrom(s: Sys, steps: seq<Step>): Option<Sys>
  {
    if steps == [] then Some(s)
    else
      var before := RunFrom(s, steps[..|steps| - 1]);
      var step := steps[|steps| - 1];
      if before.Some? && Enabled(before.value, step) then Some(Apply(before.value, step)) else None
  }

  lemma {:induction false} RunContinues(steps: seq<Step>, more: seq<Step>)
    requires Run(steps).Some?
    ensures Run(steps + more) == RunFrom(Run(steps).value, more)
  {
    if more == [] {
      assert steps + more == steps;
    } else {
      var n := |more| - 1;
      RunContinues(steps, more[..n]);
      assert (steps + more)[..|steps + more| - 1] == steps + more[..n];
    }
  }

  lemma RunOne(s: Sys, step: Step)
    requires Enabled(s, step)
    ensures RunFrom(s, [step]) == Some(Apply(s, step))
  {
    assert [step][..0] == [];
  }

  // ------------------------------------------------------------ when a forget sticks

  /** The cluster is known nowhere. */
  predicate Forgotten(s: Sys, key: Key) { key !in s.registry.states && key !in s.registry.active }

  /** A call has passed the active check for the cluster and has not attached yet. */
  ghost predicate SomeAttaching(s: Sys, key: Key) { exists c | c in s.calls :: s.calls[c] == Attaching(key) }

  /** Known nowhere, and nothing under way will change that. */
  ghost predicate Settled(s: Sys, key: Key) { Forgotten(s, key) && (s.registry.closed || !SomeAttaching(s, key)) }

  /** The cluster is taken in again: activated, or confirmed to exist by a call's own uncached read. */
  predicate Readmits(s: Sys, step: Step, key: Key)
  {
    !s.registry.closed &&
    (step == ActivateKey(key) ||
     (step.Validated? && step.outcome.None? && step.c in s.calls && s.calls[step.c] == Validating(key)))
  }

  /** Right after the forget, everything is settled exactly when no call stood between check and attach. */
  lemma ForgetSettlesIff(s: Sys, key: Key)
    ensures Settled(Apply(s, ForgetKey(key)), key) <==> s.registry.closed || !SomeAttaching(s, key)
  {
    var s' := Apply(s, ForgetKey(key));
    assert s'.calls == s.calls && s'.registry.closed == s.registry.closed;
  }

  /** From a settled state the one way back is a readmission. */
  lemma OnlyReadmissionUnsettles(s: Sys, step: Step, key: Key)
    requires Settled(s, key) && Enabled(s, step)
    ensures Settled(Apply(s, step), key) <==> !Readmits(s, step, key)
  {
    var s' := Apply(s, step);
    if Readmits(s, step, key) {
      assert key in s'.registry.active;
    } else {
      assert Forgotten(s', key) by { StaysOut(s, step, key); }
      if !s'.registry.closed {
        forall c | c in s'.calls ensures s'.calls[c] != Attaching(key) {
          if c in s.calls && s.calls[c] == s'.calls[c] { assert s.calls[c] != Attaching(key); }
        }
      }
    }
  }

  lemma StaysOut(s: Sys, step: Step, key: Key)
    requires Settled(s, key) && Enabled(s, step) && !Readmits(s, step, key)
    ensures Forgotten(Apply(s, step), key)
  {
    if step.Lookup? {
      assert s.calls[step.c].key == key ==> s.calls[step.c] == Attaching(key);
    }
  }

  /** No step of the continuation readmits the cluster. */
  ghost predicate Unreadmitted(s: Sys, more: seq<Step>, key: Key)
  {
    forall i | 0 <= i < |more| :: RunFrom(s, more[..i]).Some? ==> !Readmits(RunFrom(s, more[..i]).value, more[i], key)
  }

  lemma {:induction false} SettledStays(s: Sys, more: seq<Step>, key: Key)
    requires Settled(s, key) && RunFrom(s, more).Some? && Unreadmitted(s, more, key)
    ensures Settled(RunFrom(s, more).value, key)
  {
    if more != [] {
      var n := |more| - 1;
      var most := more[..n];
      forall i | 0 <= i < |most| && RunFrom(s, most[..i]).Some?
        ensures !Readmits(RunFrom(s, most[..i]).value, most[i], key)
      {
        assert most[..i] == more[..i];
      }
      SettledStays(s, most, key);
      OnlyReadmissionUnsettles(RunFrom(s, most).value, more[n], key);
    }
  }

  /** Whatever follows, short of a readmission, the cluster stays out of both maps. */
  ghost predicate Sticks(s: Sys, key: Key)
  {
    forall more | RunFrom(s, more).Some? && Unreadmitted(s, more, key) :: Forgotten(RunFrom(s, more).value, key)
  }

  /**
    ClientFor checks `active` and attaches under separate locks.  After any run, and with
    every readmission set aside, a forget sticks exactly when no call that found the
    cluster active has yet to attach, or the resolver is closed.
   */
  lemma ForgetSticksIff(steps: seq<Step>, key: Key)
    requires Run(steps).Some?
    ensures var s := Run(steps).value;
            Sticks(Apply(s, ForgetKey(key)), key) <==> s.registry.closed || !SomeAttaching(s, key)
  {
    var s := Run(steps).value;
    var s' := Apply(s, ForgetKey(key));
    ForgetSettlesIff(s, key);
    if s.registry.closed || !SomeAttaching(s, key) {
      forall more | RunFrom(s', more).Some? && Unreadmitted(s', more, key)
        ensures Forgotten(RunFrom(s', more).value, key)
      {
        SettledStays(s', more, key);
      }
    } else {
      var c :| c in s.calls && s.calls[c] == Attaching(key);
      LookupRegains(s', c, key);
      assert Unreadmitted(s', [Lookup(c)], key);
    }
  }

  /** A call past the check brings the state of an open resolver back. */
  lemma LookupRegains(s: Sys, c: Caller, key: Key)
    requires c in s.calls && s.calls[c] == Attaching(key) && !s.registry.closed
    ensures Enabled(s, Lookup(c)) && RunFrom(s, [Lookup(c)]) == Some(Apply(s, Lookup(c)))
    ensures key in Apply(s, Lookup(c)).registry.states
  {
    RunOne(s, Lookup(c));
  }

  // ------------------------------------------------------------ when a stale call cannot undo it

  /** A call found the cluster inactive and its own uncached read is under way. */
  ghost predicate SomeValidating(s: Sys, key: Key) { exists c | c in s.calls :: s.calls[c] == Validating(key) }

  /** Whatever readmits the cluster in the continuation is a confirmation already under way at its start. */
  ghost predicate OnlyStaleReadmissions(s: Sys, more: seq<Step>, key: Key)
  {
    forall i | 0 <= i < |more| :: RunFrom(s, more[..i]).Some? && Readmits(RunFrom(s, more[..i]).value, more[i], key) ==>
      more[i].Validated? && more[i].c in s.calls && s.calls[more[i].c] == Validating(key)
  }

  /** No call from before can bring the cluster back: what follows leaves it in neither map. */
  ghost predicate HoldsAgainstStaleCalls(s: Sys, key: Key)
  {
    forall more | RunFrom(s, more).Some? && OnlyStaleReadmissions(s, more, key) ::
      Forgotten(RunFrom(s, more).value, key)
  }

  lemma {:induction false} ClosedStays(s: Sys, more: seq<Step>)
    requires s.registry.closed && RunFrom(s, more).Some?
    ensures RunFrom(s, more).value.registry.closed
  {
    if more != [] { ClosedStays(s, more[..|more| - 1]); }
  }

  /** With nothing under way, or the resolver closed, such a continuation readmits nothing. */
  lemma NothingStale(s: Sys, more: seq<Step>, key: Key)
    requires s.registry.closed || !SomeValidating(s, key)
    requires OnlyStaleReadmissions(s, more, key)
    ensures Unreadmitted(s, more, key)
  {
    forall i | 0 <= i < |more| && RunFrom(s, more[..i]).Some?
      ensures !Readmits(RunFrom(s, more[..i]).value, more[i], key)
    {
      if s.registry.closed { ClosedStays(s, more[..i]); }
    }
  }

  /** A confirmation under way takes the cluster in again. */
  lemma ValidationRegains(s: Sys, c: Caller, key: Key)
    requires c in s.calls && s.calls[c] == Validating(key) && !s.registry.closed
    ensures RunFrom(s, [Validated(c, None)]).Some? && OnlyStaleReadmissions(s, [Validated(c, None)], key)
    ensures key in RunFrom(s, [Validated(c, None)]).value.registry.active
  {
    RunOne(s, Validated(c, None));
    assert [Validated(c, None)][..0] == [];
  }

  /**
    After any run, no call from before a forget can undo it exactly when none of them has
    the cluster confirmed or is confirming it: no call stands at Attaching or Validating.
    A closed resolver takes nothing in again.
   */
  lemma StaleCallsCannotUndoIff(steps: seq<Step>, key: Key)
    requires Run(steps).Some?
    ensures var s := Run(steps).value;
            HoldsAgainstStaleCalls(Apply(s, ForgetKey(key)), key) <==>
            s.registry.closed || (!SomeAttaching(s, key) && !SomeValidating(s, key))
  {
    var s := Run(steps).value;
    var s' := Apply(s, ForgetKey(key));
    assert s'.calls == s.calls && s'.registry.closed == s.registry.closed;
    if s.registry.closed || (!SomeAttaching(s, key) && !SomeValidating(s, key)) {
      ForgetSettlesIff(s, key);
      forall more | RunFrom(s', more).Some? && OnlyStaleReadmissions(s', more, key)
        ensures Forgotten(RunFrom(s', more).value, key)
      {
        NothingStale(s', more, key);
        SettledStays(s', more, key);
      }
    } else if SomeAttaching(s, key) {
      var c :| c in s.calls && s.calls[c] == Attaching(key);
      LookupRegains(s', c, key);
      assert OnlyStaleReadmissions(s', [Lookup(c)], key);
    } else {
      var c :| c in s.calls && s.calls[c] == Validating(key);
      ValidationRegains(s', c, key);
    }
  }

  const CONFIRMING: seq<Step> := [Call(0, CLUSTER)] + [CheckActive(0)]

  lemma ReachConfirming()
    ensures Run(CONFIRMING) == Some(INIT.(calls := map[0 := Validating(CLUSTER)]))
  {
    RunSnoc([], Call(0, CLUSTER));
    assert [] + [Call(0, CLUSTER)] == [Call(0, CLUSTER)];
    RunSnoc([Call(0, CLUSTER)], CheckActive(0));
    assert Run(CONFIRMING).value.calls == map[0 := Validating(CLUSTER)];
  }

  lemma ReachForgotten()
    ensures Run(CONFIRMING + [ForgetKey(CLUSTER)]) == Some(INIT.(calls := map[0 := Validating(CLUSTER)]))
  {
    ReachConfirming();
    RunSnoc(CONFIRMING, ForgetKey(CLUSTER));
    assert Run(CONFIRMING + [ForgetKey(CLUSTER)]).value.registry == INIT.registry;
  }

  /** Such a run: the confirmation was under way at the forget, and both maps have the cluster again. */
  lemma StaleConfirmationRegainsState()
    ensures Run(CONFIRMING).Some? && !SomeAttaching(Run(CONFIRMING).value, CLUSTER)
    ensures var steps := CONFIRMING + [ForgetKey(CLUSTER)] + [Validated(0, None)] + [Lookup(0)];
            Run(steps).Some? && CLUSTER in Run(steps).value.registry.states &&
            CLUSTER in Run(steps).value.registry.active
  {
    ReachConfirming();
    ReachForgotten();
    var forgot := CONFIRMING + [ForgetKey(CLUSTER)];
    RunSnoc(forgot, Validated(0, None));
    RunSnoc(forgot + [Validated(0, None)], Lookup(0));
  }

  /** Another: a forget between check and attach is followed by a fresh state for a cluster not active. */
  lemma ForgottenClusterCanRegainState()
    ensures exists steps :: Run(steps).Some? && ForgetKey(CLUSTER) in steps &&
              CLUSTER in Run(steps).value.registry.states && CLUSTER !in Run(steps).value.registry.active
  {
    var checked := [ActivateKey(CLUSTER)] + [Call(0, CLUSTER)] + [CheckActive(0)];
    RunSnoc([], ActivateKey(CLUSTER));
    assert [] + [ActivateKey(CLUSTER)] == [ActivateKey(CLUSTER)];
    RunSnoc([ActivateKey(CLUSTER)], Call(0, CLUSTER));
    RunSnoc([ActivateKey(CLUSTER)] + [Call(0, CLUSTER)], CheckActive(0));
    RunSnoc(checked, ForgetKey(CLUSTER));
    RunSnoc(checked + [ForgetKey(CLUSTER)], Lookup(0));
    var steps := checked + [ForgetKey(CLUSTER)] + [Lookup(0)];
    assert steps[3] == ForgetKey(CLUSTER);
  }

  // ------------------------------------------------------------ callers beside a live client

  /** The state object a call is working on. */
  function Target(pc: Pc): Option<Sid>
  {
    match pc
    case Looping(sid) => Some(sid) case Waiting(sid, _) => Some(sid) case Woken(sid) => Some(sid)
    case Reading(sid, _) => Some(sid) case _ => None
  }

  predicate Live(s: Sys, sid: Sid) { sid < |s.states| && !s.states[sid].closed && s.states[sid].tlsClient.Some? }

  predicate Fails(s: Sys, c: Caller) { Verdict(s, c).Some? && Verdict(s, c).value.Error? }

  /** A next step of this call. */
  predicate Moves(s: Sys, step: Step, c: Caller) { Enabled(s, step) && CallStep(step) && !step.Call? && step.c == c }

  lemma FailingStep(steps: seq<Step>, step: Step, c: Caller)
    requires Run(steps).Some? && c in Run(steps).value.calls && Target(Run(steps).value.calls[c]).Some?
    requires Live(Run(steps).value, Target(Run(steps).value.calls[c]).value) && Moves(Run(steps).value, step, c)
    ensures Fails(Apply(Run(steps).value, step), c) <==> step.GiveUp?
  {
    RunKeepsInv(steps);
    assert FlightCall(Run(steps).value, c);
  }

  /** Beside a live client a call can fail at its next step exactly when it waits and its own context has ended. */
  lemma LiveClientShieldsCallers(steps: seq<Step>, c: Caller)
    requires Run(steps).Some? && c in Run(steps).value.calls && Target(Run(steps).value.calls[c]).Some?
    requires Live(Run(steps).value, Target(Run(steps).value.calls[c]).value)
    ensures var s := Run(steps).value;
            (exists step | Moves(s, step, c) :: Fails(Apply(s, step), c)) <==> s.calls[c].Waiting? && c in s.cancelled
  {
    var s := Run(steps).value;
    forall step | Moves(s, step, c) ensures Fails(Apply(s, step), c) <==> step.GiveUp? { FailingStep(steps, step, c); }
    if s.calls[c].Waiting? && c in s.cancelled { assert Moves(s, GiveUp(c), c); }
  }

  /** The state stays open and keeps a client at every point of the continuation. */
  ghost predicate StaysLive(s: Sys, more: seq<Step>, sid: Sid)
  {
    forall i | 0 <= i <= |more| :: RunFrom(s, more[..i]).Some? ==> Live(RunFrom(s, more[..i]).value, sid)
  }

  /** Still at work on the state, or answered with a client. */
  predicate Shielded(s: Sys, c: Caller, sid: Sid)
  {
    c in s.calls && (Target(s.calls[c]) == Some(sid) || (Verdict(s, c).Some? && Verdict(s, c).value.Client?))
  }

  /** A call that is never cancelled, on a state that stays open with a client, never ends in an error. */
  lemma {:induction false} UncancelledCallNeverFails(steps: seq<Step>, more: seq<Step>, c: Caller, sid: Sid)
    requires Run(steps).Some? && RunFrom(Run(steps).value, more).Some? && StaysLive(Run(steps).value, more, sid)
    requires c in Run(steps).value.calls && Target(Run(steps).value.calls[c]) == Some(sid)
    requires c !in RunFrom(Run(steps).value, more).value.cancelled
    ensures Shielded(RunFrom(Run(steps).value, more).value, c, sid) && !Fails(RunFrom(Run(steps).value, more).value, c)
  {
    var s := Run(steps).value;
    if more != [] {
      var n := |more| - 1;
      var most := more[..n];
      var mid := RunFrom(s, most).value;
      forall i | 0 <= i <= |most| && RunFrom(s, most[..i]).Some? ensures Live(RunFrom(s, most[..i]).value, sid) {
        assert most[..i] == more[..i];
      }
      assert mid.cancelled <= RunFrom(s, more).value.cancelled;
      UncancelledCallNeverFails(steps, most, c, sid);
      RunContinues(steps, most);
      assert more[..n] == most && Live(mid, sid);
      ShieldedStep(steps + most, more[n], c, sid);
    }
  }

  lemma CallUntouched(s: Sys, step: Step, c: Caller)
    requires Enabled(s, step) && c in s.calls && !Moves(s, step, c)
    ensures c in Apply(s, step).calls && Apply(s, step).calls[c] == s.calls[c]
  {
  }

  lemma ShieldedMove(s: Sys, step: Step, c: Caller, sid: Sid)
    requires Moves(s, step, c) && c in s.calls && FlightCall(s, c)
    requires Live(s, sid) && Shielded(s, c, sid) && c !in s.cancelled
    ensures Shielded(Apply(s, step), c, sid)
  {
  }

  lemma ShieldedStep(steps: seq<Step>, step: Step, c: Caller, sid: Sid)
    requires Run(steps).Some? && Enabled(Run(steps).value, step)
    requires Live(Run(steps).value, sid) && Shielded(Run(steps).value, c, sid) && c !in Run(steps).value.cancelled
    ensures Shielded(Apply(Run(steps).value, step), c, sid)
  {
    RunKeepsInv(steps);
    var s := Run(steps).value;
    assert FlightCall(s, c);
    if Moves(s, step, c) { ShieldedMove(s, step, c, sid); } else { CallUntouched(s, step, c); }
  }
}
