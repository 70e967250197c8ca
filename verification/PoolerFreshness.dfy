/**
  What the client cache answers, said of the steps of a run: which Secret read of a state
  counted last, when the next one is due, what a call is handed until then, and what a
  read does to the client.  Times are in seconds.
 */
module PoolerFreshness {
  import opened Options
  import opened PoolerCache
  import opened PoolerRuns
  import opened PoolerSafety
  import opened PoolerPromises

  /** A read that counted: when it completed, and how it failed if it did. */
  datatype Outcome = Outcome(at: nat, failure: Option<Failure>)

  /** The last read of a state that counted, and the version of the last Secret accepted. */
  datatype History = History(last: Option<Outcome>, version: Option<string>)

  const NO_READ := History(None, None)

  /** A Secret of the version in use is not looked at again; a failure of a cancelled caller does not count. */
  function Recorded(h: History, readAt: nat, cancelled: bool, read: Read): History
  {
    var failure :=
      match read
      case Failed(cause) => Some(cause)
      case Secret(version, wellFormed) => if h.version == Some(version) || wellFormed then None else Some(BadSecret);
    if failure.None? then History(Some(Outcome(readAt, None)), Some(read.version))
    else if cancelled then h
    else h.(last := Some(Outcome(readAt, failure)))
  }

  predicate Reads(s: Sys, step: Step, sid: Sid)
  {
    step.FinishRead? && step.c in s.calls && s.calls[step.c].Reading? && s.calls[step.c].sid == sid &&
    sid < |s.states| && !s.states[sid].closed
  }

  function Next(s: Sys, step: Step, sid: Sid, h: History): History
  {
    if Reads(s, step, sid) then Recorded(h, step.readAt, step.c in s.cancelled, step.read) else h
  }

  function HistoryOf(steps: seq<Step>, sid: Sid): History
  {
    if steps == [] then NO_READ
    else
      var before := Run(steps[..|steps| - 1]);
      var h := HistoryOf(steps[..|steps| - 1], sid);
      if before.None? then h else Next(before.value, steps[|steps| - 1], sid, h)
  }

  // ------------------------------------------------------------ the state is the history

  /** An open state shows its history: the client, its version, and when and how the last read ended. */
  predicate Shows(st: CredentialState, h: History)
  {
    && (st.tlsClient.Some? <==> h.version.Some?)
    && (h.version.Some? ==> h.last.Some? && st.resourceVersion == h.version.value)
    && (h.last.Some? ==> st.fetchedAt == h.last.value.at && st.lastErr == h.last.value.failure)
    && (h.last.None? ==> st.lastErr == None)
    && (h.last.Some? && h.last.value.failure.None? ==> h.version.Some?)
  }

  lemma ShowsFinish(s: Sys, c: Caller, readAt: nat, read: Read, h: History)
    requires Enabled(s, FinishRead(c, readAt, read))
    requires var st := s.states[s.calls[c].sid]; !st.closed && Shows(st, h)
    ensures Shows(DoFinish(s, c, readAt, read).states[s.calls[c].sid], Recorded(h, readAt, c in s.cancelled, read))
  {
  }

  /** Every other step leaves what a state shows alone, or closes it. */
  lemma ShowsElsewhere(s: Sys, step: Step, sid: Sid, h: History)
    requires Enabled(s, step) && sid < |s.states| && !s.states[sid].closed && Shows(s.states[sid], h)
    requires !(step.FinishRead? && s.calls[step.c].sid == sid)
    ensures sid < |Apply(s, step).states|
    ensures !Apply(s, step).states[sid].closed ==> Shows(Apply(s, step).states[sid], h)
  {
    var s' := Apply(s, step);
    if step.EnterLoop? || step.FinishRead? || step.ForgetState? || step.CloseState? || step.Timer? {
    } else {
      assert s'.states == s.states || s'.states == s.states + [FRESH_STATE];
    }
  }

  lemma StatesGrow(s: Sys, step: Step)
    requires Enabled(s, step)
    ensures |s.states| <= |Apply(s, step).states| <= |s.states| + 1
    ensures |Apply(s, step).states| == |s.states| + 1 ==> Apply(s, step).states[|s.states|] == FRESH_STATE
    ensures forall sid | 0 <= sid < |s.states| && s.states[sid].closed :: Apply(s, step).states[sid].closed
  {
  }

  ghost predicate AllShow(s: Sys, steps: seq<Step>)
  {
    && (forall sid: nat | sid < |s.states| && !s.states[sid].closed :: Shows(s.states[sid], HistoryOf(steps, sid)))
    && (forall sid: nat | sid >= |s.states| :: HistoryOf(steps, sid) == NO_READ)
  }

  lemma {:induction false} StatesShowHistory(steps: seq<Step>)
    requires Run(steps).Some?
    ensures AllShow(Run(steps).value, steps)
  {
    if steps != [] {
      var before, step := steps[..|steps| - 1], steps[|steps| - 1];
      StatesShowHistory(before);
      var s, s' := Run(before).value, Run(steps).value;
      StatesGrow(s, step);
      forall sid: nat | sid < |s'.states| && !s'.states[sid].closed
        ensures Shows(s'.states[sid], HistoryOf(steps, sid))
      {
        StateShows(s, step, sid, HistoryOf(before, sid));
      }
    }
  }

  lemma StateShows(s: Sys, step: Step, sid: Sid, h: History)
    requires Enabled(s, step) && sid < |Apply(s, step).states| && !Apply(s, step).states[sid].closed
    requires sid < |s.states| && !s.states[sid].closed ==> Shows(s.states[sid], h)
    requires sid >= |s.states| ==> h == NO_READ
    ensures Shows(Apply(s, step).states[sid], Next(s, step, sid, h))
  {
    StatesGrow(s, step);
    if sid < |s.states| {
      if step.FinishRead? && s.calls[step.c].sid == sid { ShowsFinish(s, step.c, step.readAt, step.read, h); }
      else { ShowsElsewhere(s, step, sid, h); }
    }
  }

  // ------------------------------------------------------------ what a call is answered

  /** The next read is due: there was none, ten seconds after a failure, five minutes after a success. */
  predicate Due(h: History, now: nat)
  {
    h.last.None? || now >= h.last.value.at + if h.last.value.failure.Some? then 10 else 300
  }

  /** A call at the top of the refresh loop on this state. */
  predicate Entering(s: Sys, c: Caller, sid: Sid) { c in s.calls && s.calls[c] == Looping(sid) && sid < |s.states| }

  /**
    A call leads a read exactly when none is outstanding and one is due; waits exactly
    for an outstanding first one; and is otherwise answered at once: with the current
    client where a Secret was ever accepted, else with the failure of the last read.
   */
  lemma EnterAnswers(steps: seq<Step>, c: Caller, sid: Sid)
    requires Run(steps).Some? && Entering(Run(steps).value, c, sid) && !Run(steps).value.states[sid].closed
    ensures var s, h := Run(steps).value, HistoryOf(steps, sid);
            var st, s' := s.states[sid], Apply(s, EnterLoop(c));
            && (s'.calls[c].Reading? <==> !st.refreshing && Due(h, s.now))
            && (s'.calls[c].Reading? ==> s'.calls[c] == Reading(sid, |s.leaders|) && s'.states[sid].refreshing)
            && (s'.calls[c].Waiting? <==> st.refreshing && h.version.None?)
            && (s'.calls[c].Waiting? ==> s'.calls[c] == Waiting(sid, st.refreshDone))
            && ((st.refreshing || !Due(h, s.now)) && h.version.Some? ==>
                  st.tlsClient.Some? && s'.calls[c] == Done(Client(st.tlsClient.value)))
            && (!st.refreshing && !Due(h, s.now) && h.version.None? ==>
                  h.last.value.failure.Some? && s'.calls[c] == Done(Error(h.last.value.failure.value)))
  {
    StatesShowHistory(steps);
    assert Shows(Run(steps).value.states[sid], HistoryOf(steps, sid));
  }

  /** A closed state answers every call with an error. */
  lemma ClosedAnswers(s: Sys, c: Caller, sid: Sid)
    requires Entering(s, c, sid) && s.states[sid].closed
    ensures Apply(s, EnterLoop(c)).calls[c] == Done(Error(ResolverClosed))
  {
  }

  /**
    A client handed out while no read is outstanding rests on a read that completed less
    than five minutes ago, or less than ten seconds ago if it failed.
   */
  lemma HandedOutFresh(steps: seq<Step>, c: Caller, sid: Sid, k: ClientId)
    requires Run(steps).Some? && Entering(Run(steps).value, c, sid) && !Run(steps).value.states[sid].refreshing
    requires Apply(Run(steps).value, EnterLoop(c)).calls[c] == Done(Client(k))
    ensures var h := HistoryOf(steps, sid);
            && h.last.Some? && h.version.Some?
            && Run(steps).value.now < h.last.value.at + if h.last.value.failure.Some? then 10 else 300
  {
    if !Run(steps).value.states[sid].closed { EnterAnswers(steps, c, sid); }
  }

  /** A joined call that is woken gets the client, else the failure that counted, else competes to lead. */
  lemma WakeAnswers(steps: seq<Step>, c: Caller)
    requires Run(steps).Some? && Enabled(Run(steps).value, AfterWake(c))
    requires !Run(steps).value.states[Run(steps).value.calls[c].sid].closed
    ensures var s := Run(steps).value;
            var sid := s.calls[c].sid;
            var h, pc := HistoryOf(steps, sid), Apply(s, AfterWake(c)).calls[c];
            && (h.version.Some? ==> s.states[sid].tlsClient.Some? && pc == Done(Client(s.states[sid].tlsClient.value)))
            && (h.version.None? && h.last.Some? ==>
                  h.last.value.failure.Some? && pc == Done(Error(h.last.value.failure.value)))
            && (h.last.None? ==> pc == Looping(sid))
  {
    StatesShowHistory(steps);
    var s := Run(steps).value;
    var sid := s.calls[c].sid;
    assert Shows(s.states[sid], HistoryOf(steps, sid));
  }

  // ------------------------------------------------------------ what a read does

  /** The read of this call on an open state is about to be taken in. */
  predicate Finishing(s: Sys, c: Caller, readAt: nat, read: Read)
  {
    Enabled(s, FinishRead(c, readAt, read)) && !s.states[s.calls[c].sid].closed
  }

  /** A new client is current and handed out, and the old one is retired for a minute. */
  predicate Rotated(s: Sys, s': Sys, c: Caller, version: string)
    requires c in s.calls && s.calls[c].Reading? && s.calls[c].sid < |s.states| && |s'.states| == |s.states|
  {
    var Reading(sid, ch) := s.calls[c];
    var st, st' := s.states[sid], s'.states[sid];
    && s'.home == s.home + [sid] && st'.tlsClient == Some(|s.home|)
    && c in s'.calls && s'.calls[c] == Signalling(sid, ch, Client(|s.home|))
    && st'.retired == st.retired + (if st.tlsClient.Some? then [Retired(st.tlsClient.value, s.now + 60)] else [])
    && st'.resourceVersion == version && !st'.refreshing
  }

  /** A well-formed Secret of another version than the one in use rotates the client. */
  lemma NewVersionRotates(steps: seq<Step>, c: Caller, readAt: nat, read: Read)
    requires Run(steps).Some? && Finishing(Run(steps).value, c, readAt, read) && read.Secret? && read.wellFormed
    requires HistoryOf(steps, Run(steps).value.calls[c].sid).version != Some(read.version)
    ensures Rotated(Run(steps).value, Apply(Run(steps).value, FinishRead(c, readAt, read)), c, read.version)
  {
    StatesShowHistory(steps);
    var s := Run(steps).value;
    assert Shows(s.states[s.calls[c].sid], HistoryOf(steps, s.calls[c].sid));
    ReadRotates(s, c, readAt, read);
  }

  lemma ReadRotates(s: Sys, c: Caller, readAt: nat, read: Read)
    requires Finishing(s, c, readAt, read) && read.Secret? && read.wellFormed
    requires var st := s.states[s.calls[c].sid]; !(st.tlsClient.Some? && st.resourceVersion == read.version)
    ensures Rotated(s, Apply(s, FinishRead(c, readAt, read)), c, read.version)
  {
    Rotates(s.states[s.calls[c].sid], s.now, readAt, c in s.cancelled, read, |s.home|);
  }

  lemma Rotates(st: CredentialState, now: nat, readAt: nat, cancelled: bool, read: Read, spare: ClientId)
    requires !st.closed && read.Secret? && read.wellFormed
    requires !(st.tlsClient.Some? && st.resourceVersion == read.version)
    ensures var (out, st') := Finish(st, now, readAt, cancelled, read, spare);
            && Builds(st, read) && out == Client(spare) && st'.tlsClient == Some(spare)
            && st'.retired == st.retired + (if st.tlsClient.Some? then [Retired(st.tlsClient.value, now + 60)] else [])
            && st'.resourceVersion == read.version && !st'.refreshing
  {
  }

  /** A Secret of the version in use, whatever its content, and a failed read keep the client as it is. */
  lemma OtherReadsKeepClient(steps: seq<Step>, c: Caller, readAt: nat, read: Read)
    requires Run(steps).Some? && Finishing(Run(steps).value, c, readAt, read)
    requires HistoryOf(steps, Run(steps).value.calls[c].sid).version.Some?
    requires read.Secret? && read.wellFormed ==>
               HistoryOf(steps, Run(steps).value.calls[c].sid).version == Some(read.version)
    ensures var s := Run(steps).value;
            var Reading(sid, ch), s' := s.calls[c], Apply(s, FinishRead(c, readAt, read));
            var st, st' := s.states[sid], s'.states[sid];
            && st.tlsClient.Some? && st'.tlsClient == st.tlsClient && st'.retired == st.retired && s'.home == s.home
            && s'.calls[c] == Signalling(sid, ch, Client(st.tlsClient.value)) && !st'.refreshing
  {
    StatesShowHistory(steps);
    var s := Run(steps).value;
    assert Shows(s.states[s.calls[c].sid], HistoryOf(steps, s.calls[c].sid));
  }

  /** Without a client a failed read is the leader's own answer. */
  lemma ColdFailureIsAnswered(steps: seq<Step>, c: Caller, readAt: nat, read: Read)
    requires Run(steps).Some? && Finishing(Run(steps).value, c, readAt, read)
    requires HistoryOf(steps, Run(steps).value.calls[c].sid).version.None? && !(read.Secret? && read.wellFormed)
    ensures var s := Run(steps).value;
            var Reading(sid, ch), s' := s.calls[c], Apply(s, FinishRead(c, readAt, read));
            && s'.states[sid].tlsClient == None && s'.home == s.home
            && s'.calls[c] == Signalling(sid, ch, Error(if read.Failed? then read.cause else BadSecret))
  {
    StatesShowHistory(steps);
    var s := Run(steps).value;
    assert Shows(s.states[s.calls[c].sid], HistoryOf(steps, s.calls[c].sid));
  }

  /** The timer of a retired client, a minute after its retirement, closes it. */
  lemma TimerClosesRetired(steps: seq<Step>, sid: Sid, r: Retired)
    requires Run(steps).Some? && Enabled(Run(steps).value, Timer(sid, r)) && r in Run(steps).value.states[sid].retired
    ensures var s, s' := Run(steps).value, Apply(Run(steps).value, Timer(sid, r));
            && r.client in s.retiredAt && r.due == s.retiredAt[r.client] + 60
            && !IsClosed(s, r.client) && IsClosed(s', r.client) && !InRetired(s'.states[sid], r.client)
  {
    RunKeepsInv(steps);
    var s := Run(steps).value;
    var s' := Apply(s, Timer(sid, r));
    assert HeldOnce(s, sid);
    var i :| 0 <= i < |s.states[sid].retired| && s.states[sid].retired[i] == r;
    assert InRetired(s.states[sid], r.client);
    assert Placed(s, r.client);
    ClientsKept(s, Timer(sid, r));
    assert s'.closings[|s.closings|].client == r.client;
    assert Placed(s', r.client);
  }

  // ------------------------------------------------------------ which clusters are active

  /** The cluster was taken in, and neither forgotten nor closed since. */
  predicate ActiveSince(steps: seq<Step>, key: Key)
  {
    if steps == [] then false
    else
      var before, step := Run(steps[..|steps| - 1]), steps[|steps| - 1];
      if before.Some? && Readmits(before.value, step, key) then true
      else if step == ForgetKey(key) || step.CloseAll? then false
      else ActiveSince(steps[..|steps| - 1], key)
  }

  lemma {:induction false} ActiveIsHistory(steps: seq<Step>, key: Key)
    requires Run(steps).Some?
    ensures key in Run(steps).value.registry.active <==> ActiveSince(steps, key)
    ensures Run(steps).value.registry.closed ==> Run(steps).value.registry.active == {}
  {
    if steps != [] {
      var before, step := steps[..|steps| - 1], steps[|steps| - 1];
      ActiveIsHistory(before, key);
      ActiveStep(Run(before).value, step, key);
    }
  }

  lemma ActiveStep(s: Sys, step: Step, key: Key)
    requires Enabled(s, step) && (s.registry.closed ==> s.registry.active == {})
    ensures var s' := Apply(s, step);
            && (s'.registry.closed ==> s'.registry.active == {})
            && (key in s'.registry.active <==>
                  Readmits(s, step, key) || (step != ForgetKey(key) && !step.CloseAll? && key in s.registry.active))
  {
  }

  /** A call passes the check exactly for a cluster taken in; otherwise it confirms it with a read of its own. */
  lemma CheckPassesIff(steps: seq<Step>, c: Caller, key: Key)
    requires Run(steps).Some? && c in Run(steps).value.calls && Run(steps).value.calls[c] == Checking(key)
    ensures var s := Run(steps).value;
            Apply(s, CheckActive(c)).calls[c] ==
              if s.registry.closed then Done(Error(ResolverClosed))
              else if ActiveSince(steps, key) then Attaching(key) else Validating(key)
  {
    ActiveIsHistory(steps, key);
  }
}
