/**
  Every interleaving of ClientFor calls, retirement timers, ActivateCluster,
  ForgetCluster and Close.  One step is one critical section, one channel close,
  one wake-up, one clock tick or one context cancellation.
 */
module PoolerRuns {
  import opened Options
  import opened PoolerCache

  type Caller = nat   // one ClientFor call

  /** Where a ClientFor call stands between two critical sections. */
  datatype Pc =
    | Checking(key: Key)                          // before ensureClusterActive's lock
    | Validating(key: Key)                        // its uncached cluster read is in flight
    | Attaching(key: Key)                         // before the state lookup
    | Looping(sid: Sid)                           // before the refresh loop's lock
    | Waiting(sid: Sid, done: Option<Chan>)       // in the select
    | Woken(sid: Sid)                             // the channel was closed, before the lock
    | Reading(sid: Sid, ch: Chan)                 // leader: Secret read in flight
    | Signalling(sid: Sid, ch: Chan, out: Result) // leader: lock released, channel still open
    | Done(out: Result)

  /** One Close call on a client. */
  datatype Closing = Closing(client: ClientId, at: nat, byClose: bool)

  datatype Sys = Sys(
    now: nat,
    registry: Registry,
    states: seq<CredentialState>,   // every clusterState ever allocated
    calls: map<Caller, Pc>,
    cancelled: set<Caller>,
    leaders: seq<Caller>,           // the call that created each channel
    closedChans: seq<Chan>,         // every close(done), in order
    home: seq<Sid>,                 // the state each client was built for
    retiredAt: map<ClientId, nat>,  // when each client was rotated out or forgotten
    closings: seq<Closing>,         // every client.Close(), in order
    forgotten: set<Sid>,            // detached by ForgetCluster
    forgetting: set<Sid>,           // ... whose critical section has not run yet
    captured: set<Sid>,             // taken over by Close
    closing: set<Sid>)              // ... not reached by its loop yet

  const INIT := Sys(0, Registry(false, map[], {}), [], map[], {}, [], [], [], map[], [], {}, {}, {}, {})

  datatype Step =
    | Tick
    | Call(c: Caller, key: Key)
    | CheckActive(c: Caller)
    | Validated(c: Caller, outcome: Option<Failure>)
    | Lookup(c: Caller)
    | EnterLoop(c: Caller)
    | WakeUp(c: Caller)
    | GiveUp(c: Caller)
    | AfterWake(c: Caller)
    | FinishRead(c: Caller, readAt: nat, read: Read)
    | Signal(c: Caller)
    | Cancel(c: Caller)
    | ActivateKey(key: Key)
    | ForgetKey(key: Key)
    | ForgetState(sid: Sid)
    | CloseAll
    | CloseState(sid: Sid)
    | Timer(sid: Sid, r: Retired)

  predicate At(s: Sys, c: Caller) { c in s.calls }

  /** A read error is a context error only once the reader's own context is done. */
  predicate Enabled(s: Sys, step: Step)
  {
    match step
    case Tick => true
    case Call(c, _) => c !in s.calls
    case CheckActive(c) => At(s, c) && s.calls[c].Checking?
    case Validated(c, outcome) => At(s, c) && s.calls[c].Validating? &&
      (outcome == Some(Cancelled) ==> c in s.cancelled)
    case Lookup(c) => At(s, c) && s.calls[c].Attaching?
    case EnterLoop(c) => At(s, c) && s.calls[c].Looping? && s.calls[c].sid < |s.states|
    case WakeUp(c) => At(s, c) && s.calls[c].Waiting? && s.calls[c].done.Some? &&
      s.calls[c].done.value in s.closedChans
    case GiveUp(c) => At(s, c) && s.calls[c].Waiting? && c in s.cancelled
    case AfterWake(c) => At(s, c) && s.calls[c].Woken? && s.calls[c].sid < |s.states|
    case FinishRead(c, readAt, read) => At(s, c) && s.calls[c].Reading? && s.calls[c].sid < |s.states| &&
      readAt <= s.now && (read == Failed(Cancelled) ==> c in s.cancelled)
    case Signal(c) => At(s, c) && s.calls[c].Signalling?
    case Cancel(_) => true
    case ActivateKey(_) => true
    case ForgetKey(_) => true
    case ForgetState(sid) => sid in s.forgetting && sid < |s.states|
    case CloseAll => true
    case CloseState(sid) => sid in s.closing && sid < |s.states|
    case Timer(sid, r) => sid < |s.states| && r.due <= s.now
  }

  function Resume(s: Sys, c: Caller, pc: Pc): Sys { s.(calls := s.calls[c := pc]) }

  function After(sid: Sid, d: Decision): Pc
  {
    match d
    case Return(r) => Done(r)
    case Join(done) => Waiting(sid, done)
    case Lead(ch) => Reading(sid, ch)
    case Retry => Looping(sid)
  }

  /** `retiredAt` after a section that retires the current client of `st`. */
  function Retires(s: Sys, st: CredentialState): map<ClientId, nat>
  {
    if st.tlsClient.Some? then s.retiredAt[st.tlsClient.value := s.now] else s.retiredAt
  }

  function Closings(cs: seq<ClientId>, now: nat): seq<Closing>
  {
    seq(|cs|, i requires 0 <= i < |cs| => Closing(cs[i], now, true))
  }

  function DoLookup(s: Sys, c: Caller): Sys
    requires Enabled(s, Lookup(c))
  {
    var (found, registry) := Attach(s.registry, s.calls[c].key, |s.states|);
    if found.None? then Resume(s, c, Done(Error(ResolverClosed)))
    else
      var s' := Resume(s, c, Looping(found.value)).(registry := registry);
      if found.value == |s.states| then s'.(states := s.states + [FRESH_STATE]) else s'
  }

  function DoEnter(s: Sys, c: Caller): Sys
    requires Enabled(s, EnterLoop(c))
  {
    var sid := s.calls[c].sid;
    var (d, st) := Enter(s.states[sid], s.now, |s.leaders|);
    var s' := Resume(s, c, After(sid, d)).(states := s.states[sid := st]);
    if d.Lead? then s'.(leaders := s.leaders + [c]) else s'
  }

  function DoFinish(s: Sys, c: Caller, readAt: nat, read: Read): Sys
    requires Enabled(s, FinishRead(c, readAt, read))
  {
    var Reading(sid, ch) := s.calls[c];
    var st := s.states[sid];
    var (out, st') := Finish(st, s.now, readAt, c in s.cancelled, read, |s.home|);
    var s' := Resume(s, c, Signalling(sid, ch, out)).(states := s.states[sid := st']);
    if Builds(st, read)
    then s'.(home := s.home + [sid], retiredAt := Retires(s, st))
    else s'
  }

  function DoForgetKey(s: Sys, key: Key): Sys
  {
    var (found, registry) := Detach(s.registry, key);
    var s' := s.(registry := registry);
    if found.None? then s'
    else s'.(forgotten := s.forgotten + {found.value}, forgetting := s.forgetting + {found.value})
  }

  function DoForgetState(s: Sys, sid: Sid): Sys
    requires Enabled(s, ForgetState(sid))
  {
    var st := s.states[sid];
    s.(states := s.states[sid := Forget(st, s.now)],
       retiredAt := if st.closed then s.retiredAt else Retires(s, st),
       forgetting := s.forgetting - {sid})
  }

  function DoCloseAll(s: Sys): Sys
  {
    var (taken, registry) := BeginClose(s.registry);
    s.(registry := registry, captured := s.captured + taken, closing := s.closing + taken)
  }

  function DoCloseState(s: Sys, sid: Sid): Sys
    requires Enabled(s, CloseState(sid))
  {
    s.(states := s.states[sid := Close(s.states[sid])],
       closings := s.closings + Closings(CloseCloses(s.states[sid]), s.now),
       closing := s.closing - {sid})
  }

  function DoTimer(s: Sys, sid: Sid, r: Retired): Sys
    requires Enabled(s, Timer(sid, r))
  {
    s.(states := s.states[sid := Fire(s.states[sid], r)],
       closings := if r in s.states[sid].retired
                   then s.closings + [Closing(r.client, s.now, false)] else s.closings)
  }

  function Apply(s: Sys, step: Step): Sys
    requires Enabled(s, step)
  {
    match step
    case Tick => s.(now := s.now + 1)
    case Call(c, key) => Resume(s, c, Checking(key))
    case CheckActive(c) =>
      var key := s.calls[c].key;
      Resume(s, c, if s.registry.closed then Done(Error(ResolverClosed))
                   else if key in s.registry.active then Attaching(key) else Validating(key))
    case Validated(c, outcome) =>
      var key := s.calls[c].key;
      if outcome.Some? then Resume(s, c, Done(Error(outcome.value)))
      else if s.registry.closed then Resume(s, c, Done(Error(ResolverClosed)))
      else Resume(s, c, Attaching(key)).(registry := Activate(s.registry, key))
    case Lookup(c) => DoLookup(s, c)
    case EnterLoop(c) => DoEnter(s, c)
    case WakeUp(c) => Resume(s, c, Woken(s.calls[c].sid))
    case GiveUp(c) => Resume(s, c, Done(Error(Cancelled)))
    case AfterWake(c) => Resume(s, c, After(s.calls[c].sid, Wake(s.states[s.calls[c].sid])))
    case FinishRead(c, readAt, read) => DoFinish(s, c, readAt, read)
    case Signal(c) => Resume(s, c, Done(s.calls[c].out)).(closedChans := s.closedChans + [s.calls[c].ch])
    case Cancel(c) => s.(cancelled := s.cancelled + {c})
    case ActivateKey(key) => s.(registry := Activate(s.registry, key))
    case ForgetKey(key) => DoForgetKey(s, key)
    case ForgetState(sid) => DoForgetState(s, sid)
    case CloseAll => DoCloseAll(s)
    case CloseState(sid) => DoCloseState(s, sid)
    case Timer(sid, r) => DoTimer(s, sid, r)
  }

  /** The state after `steps` from the start, if every one of them was enabled. */
  function Run(steps: seq<Step>): Option<Sys>
  {
    if steps == [] then Some(INIT)
    else
      var before := Run(steps[..|steps| - 1]);
      var step := steps[|steps| - 1];
      if before.Some? && Enabled(before.value, step) then Some(Apply(before.value, step)) else None
  }

  // ------------------------------------------------------------ single flight

  ghost predicate FlightState(s: Sys, sid: Sid)
    requires sid < |s.states|
  {
    var st := s.states[sid];
    && (st.refreshing <==> st.refreshDone.Some?)
    && (st.refreshDone.Some? ==>
          var ch := st.refreshDone.value;
          ch < |s.leaders| && s.leaders[ch] in s.calls && s.calls[s.leaders[ch]] == Reading(sid, ch))
  }

  ghost predicate FlightCall(s: Sys, c: Caller)
    requires c in s.calls
  {
    match s.calls[c]
    case Looping(sid) => sid < |s.states|
    case Woken(sid) => sid < |s.states|
    case Waiting(sid, done) => sid < |s.states| && done.Some? && done.value < |s.leaders|
    case Reading(sid, ch) => sid < |s.states| && s.states[sid].refreshDone == Some(ch) &&
      ch < |s.leaders| && s.leaders[ch] == c && ch !in s.closedChans
    case Signalling(sid, ch, _) => sid < |s.states| && ch < |s.leaders| && s.leaders[ch] == c &&
      ch !in s.closedChans
    case _ => true
  }

  /** The call that created `ch` will close it, or has. */
  ghost predicate WillSignal(s: Sys, ch: Chan)
    requires ch < |s.leaders|
  {
    ch in s.closedChans ||
    (s.leaders[ch] in s.calls && 
     var pc := s.calls[s.leaders[ch]];
     (pc.Reading? && pc.ch == ch) || (pc.Signalling? && pc.ch == ch))
  }

  ghost predicate InvFlight(s: Sys)
  {
    && (forall key | key in s.registry.states :: s.registry.states[key] < |s.states|)
    && (forall sid | 0 <= sid < |s.states| :: FlightState(s, sid))
    && (forall c | c in s.calls :: FlightCall(s, c))
    && (forall ch | 0 <= ch < |s.leaders| :: WillSignal(s, ch))
    && (forall i | 0 <= i < |s.closedChans| :: s.closedChans[i] < |s.leaders|)
    && (forall i, j | 0 <= i < j < |s.closedChans| :: s.closedChans[i] != s.closedChans[j])
  }

  predicate Leads(pc: Pc) { pc.Reading? || pc.Signalling? }

  /** No refresh starts, ends or is signalled between `s` and `s'`. */
  ghost predicate SameFlights(s: Sys, s': Sys)
  {
    && s'.leaders == s.leaders && s'.closedChans == s.closedChans
    && |s.states| <= |s'.states|
    && (forall sid | 0 <= sid < |s'.states| ::
          if sid < |s.states|
          then s'.states[sid].refreshing == s.states[sid].refreshing &&
               s'.states[sid].refreshDone == s.states[sid].refreshDone
          else s'.states[sid] == FRESH_STATE)
    && s.calls.Keys <= s'.calls.Keys
    && (forall c | c in s'.calls ::
          || (c in s.calls && s'.calls[c] == s.calls[c])
          || (!Leads(s'.calls[c]) && (c in s.calls ==> !Leads(s.calls[c]))))
  }

  lemma FlightFrame(s: Sys, s': Sys)
    requires InvFlight(s) && SameFlights(s, s')
    requires forall key | key in s'.registry.states :: s'.registry.states[key] < |s'.states|
    requires forall c | c in s'.calls && !(c in s.calls && s'.calls[c] == s.calls[c]) :: FlightCall(s', c)
    ensures InvFlight(s')
  {
    forall sid | 0 <= sid < |s'.states| ensures FlightState(s', sid) {
      if sid < |s.states| { assert FlightState(s, sid); }
    }
    forall c | c in s'.calls ensures FlightCall(s', c) {
      if c in s.calls { assert FlightCall(s, c); }
    }
    forall ch | 0 <= ch < |s'.leaders| ensures WillSignal(s', ch) { assert WillSignal(s, ch); }
  }

  lemma FlightEnter(s: Sys, c: Caller)
    requires Enabled(s, EnterLoop(c)) && InvFlight(s)
    ensures InvFlight(DoEnter(s, c))
  {
    var s' := DoEnter(s, c);
    assert FlightState(s, s.calls[c].sid);
    if !s'.calls[c].Reading? {
      FlightFrame(s, s');
      return;
    }
    forall sid | 0 <= sid < |s'.states| ensures FlightState(s', sid) { assert FlightState(s, sid); }
    forall x | x in s'.calls ensures FlightCall(s', x) { assert FlightCall(s, x); }
    forall ch | 0 <= ch < |s'.leaders| ensures WillSignal(s', ch) {
      if ch < |s.leaders| { assert WillSignal(s, ch); }
    }
  }

  lemma FlightFinish(s: Sys, c: Caller, readAt: nat, read: Read)
    requires Enabled(s, FinishRead(c, readAt, read)) && InvFlight(s)
    ensures InvFlight(DoFinish(s, c, readAt, read))
  {
    var s' := DoFinish(s, c, readAt, read);
    assert FlightCall(s, c);
    forall sid | 0 <= sid < |s'.states| ensures FlightState(s', sid) { assert FlightState(s, sid); }
    forall x | x in s'.calls ensures FlightCall(s', x) { assert FlightCall(s, x); }
    forall ch | 0 <= ch < |s'.leaders| ensures WillSignal(s', ch) { assert WillSignal(s, ch); }
  }

  lemma FlightSignal(s: Sys, c: Caller)
    requires Enabled(s, Signal(c)) && InvFlight(s)
    ensures InvFlight(Apply(s, Signal(c)))
  {
    var s' := Apply(s, Signal(c));
    assert FlightCall(s, c);
    forall sid | 0 <= sid < |s'.states| ensures FlightState(s', sid) { assert FlightState(s, sid); }
    forall x | x in s'.calls ensures FlightCall(s', x) { assert FlightCall(s, x); }
    forall ch | 0 <= ch < |s'.leaders| ensures WillSignal(s', ch) { assert WillSignal(s, ch); }
  }

  /** Steps of one call; the others act on the resolver, a state or the clock. */
  predicate CallStep(step: Step)
  {
    Arriving(step) || Joined(step) || step.Lookup? || step.EnterLoop? || step.FinishRead? || step.Signal?
  }

  /** Steps of a call before it has a state. */
  predicate Arriving(step: Step)
  {
    step.Call? || step.CheckActive? || step.Validated?
  }

  /** Steps of a call that joined another call's refresh. */
  predicate Joined(step: Step) { step.WakeUp? || step.GiveUp? || step.AfterWake? }

  lemma FlightArriving(s: Sys, step: Step)
    requires Enabled(s, step) && InvFlight(s) && Arriving(step)
    ensures InvFlight(Apply(s, step))
  {
    FlightFrame(s, Apply(s, step));
  }

  lemma FlightLookup(s: Sys, c: Caller)
    requires Enabled(s, Lookup(c)) && InvFlight(s)
    ensures InvFlight(DoLookup(s, c))
  {
    FlightFrame(s, DoLookup(s, c));
  }

  lemma FlightJoined(s: Sys, step: Step)
    requires Enabled(s, step) && InvFlight(s) && Joined(step)
    ensures InvFlight(Apply(s, step))
  {
    assert FlightCall(s, step.c);
    FlightFrame(s, Apply(s, step));
  }

  lemma FlightElsewhere(s: Sys, step: Step)
    requires Enabled(s, step) && InvFlight(s) && !CallStep(step)
    ensures InvFlight(Apply(s, step))
  {
    FlightFrame(s, Apply(s, step));
  }

  lemma FlightKept(s: Sys, step: Step)
    requires Enabled(s, step) && InvFlight(s)
    ensures InvFlight(Apply(s, step))
  {
    if !CallStep(step) { FlightElsewhere(s, step); }
    else if Arriving(step) { FlightArriving(s, step); }
    else if Joined(step) { FlightJoined(s, step); }
    else {
      match step
      case Lookup(c) => FlightLookup(s, c);
      case EnterLoop(c) => FlightEnter(s, c);
      case FinishRead(c, readAt, read) => FlightFinish(s, c, readAt, read);
      case Signal(c) => FlightSignal(s, c);
    }
  }

  // ------------------------------------------------------------ lifecycle

  ghost predicate LiveState(s: Sys, sid: Sid)
    requires sid < |s.states|
  {
    var st := s.states[sid];
    && (sid in s.registry.states.Values || sid in s.forgotten || sid in s.captured)
    && (st.closed <==> (sid in s.forgotten && sid !in s.forgetting) || (sid in s.captured && sid !in s.closing))
    && (st.closed ==> st.tlsClient == None)
    && (sid in s.captured && sid !in s.closing ==> st.retired == [])
  }

  /** Who is responsible for each state: the registry, one ForgetCluster, or Close. */
  ghost predicate InvLife(s: Sys)
  {
    && (forall key | key in s.registry.states ::
          var sid := s.registry.states[key];
          sid < |s.states| && sid !in s.forgotten && sid !in s.captured)
    && (forall k, l | k in s.registry.states && l in s.registry.states && k != l ::
          s.registry.states[k] != s.registry.states[l])
    && (s.registry.closed ==> s.registry.states == map[])
    && (!s.registry.closed ==> s.captured == {})
    && s.forgetting <= s.forgotten && s.closing <= s.captured && s.forgotten !! s.captured
    && (forall sid | sid in s.forgotten || sid in s.captured :: sid < |s.states|)
    && (forall sid | 0 <= sid < |s.states| :: LiveState(s, sid))
  }

  lemma LifeKept(s: Sys, step: Step)
    requires Enabled(s, step) && InvLife(s)
    ensures InvLife(Apply(s, step))
  {
    match step
    case Lookup(c) => LifeLookup(s, c);
    case EnterLoop(c) => LifeSection(s, DoEnter(s, c), s.calls[c].sid);
    case FinishRead(c, readAt, read) => LifeSection(s, DoFinish(s, c, readAt, read), s.calls[c].sid);
    case ForgetKey(key) => LifeForgetKey(s, key);
    case ForgetState(sid) => LifeForgetState(s, sid);
    case CloseAll => LifeCloseAll(s);
    case CloseState(sid) => LifeCloseState(s, sid);
    case Timer(sid, r) => LifeSection(s, DoTimer(s, sid, r), sid);
    case _ => LifeElsewhere(s, step);
  }

  /** A critical section on one state that neither closes it nor moves responsibility for it. */
  lemma LifeSection(s: Sys, s': Sys, sid: Sid)
    requires InvLife(s) && sid < |s.states|
    requires s'.registry == s.registry && s'.forgotten == s.forgotten && s'.forgetting == s.forgetting
    requires s'.captured == s.captured && s'.closing == s.closing
    requires |s'.states| == |s.states|
    requires forall x | 0 <= x < |s.states| && x != sid :: s'.states[x] == s.states[x]
    requires s'.states[sid].closed == s.states[sid].closed
    requires s.states[sid].closed && s.states[sid].tlsClient == None ==> s'.states[sid].tlsClient == None
    requires s.states[sid].closed && s.states[sid].retired == [] ==> s'.states[sid].retired == []
    ensures InvLife(s')
  {
    forall x | 0 <= x < |s'.states| ensures LiveState(s', x) { assert LiveState(s, x); }
  }

  lemma LifeElsewhere(s: Sys, step: Step)
    requires Enabled(s, step) && InvLife(s)
    requires step.Tick? || step.Cancel? || step.ActivateKey? || Arriving(step) || Joined(step) || step.Signal?
    ensures InvLife(Apply(s, step))
  {
    var s' := Apply(s, step);
    forall x | 0 <= x < |s'.states| ensures LiveState(s', x) { assert LiveState(s, x); }
  }

  lemma LifeLookup(s: Sys, c: Caller)
    requires Enabled(s, Lookup(c)) && InvLife(s)
    ensures InvLife(DoLookup(s, c))
  {
    var s' := DoLookup(s, c);
    var key := s.calls[c].key;
    assert s'.states != s.states ==> key in s'.registry.states && s'.registry.states[key] == |s.states|;
    forall x | 0 <= x < |s'.states| ensures LiveState(s', x) {
      if x < |s.states| {
        assert LiveState(s, x);
        if x in s.registry.states.Values {
          var k :| k in s.registry.states && s.registry.states[k] == x;
          assert k in s'.registry.states && s'.registry.states[k] == x;
        }
      }
    }
  }

  lemma LifeForgetKey(s: Sys, key: Key)
    requires InvLife(s)
    ensures InvLife(DoForgetKey(s, key))
  {
    var s' := DoForgetKey(s, key);
    forall x | 0 <= x < |s'.states| ensures LiveState(s', x) {
      assert LiveState(s, x);
      if x in s.registry.states.Values {
        var k :| k in s.registry.states && s.registry.states[k] == x;
        assert k != key ==> k in s'.registry.states && s'.registry.states[k] == x;
      }
    }
  }

  lemma LifeForgetState(s: Sys, sid: Sid)
    requires Enabled(s, ForgetState(sid)) && InvLife(s)
    ensures InvLife(DoForgetState(s, sid))
  {
    var s' := DoForgetState(s, sid);
    forall x | 0 <= x < |s'.states| ensures LiveState(s', x) { assert LiveState(s, x); }
  }

  lemma LifeCloseAll(s: Sys)
    requires InvLife(s)
    ensures InvLife(DoCloseAll(s))
  {
    var s' := DoCloseAll(s);
    forall x | 0 <= x < |s'.states| ensures LiveState(s', x) { assert LiveState(s, x); }
  }

  lemma LifeCloseState(s: Sys, sid: Sid)
    requires Enabled(s, CloseState(sid)) && InvLife(s)
    ensures InvLife(DoCloseState(s, sid))
  {
    var s' := DoCloseState(s, sid);
    forall x | 0 <= x < |s'.states| ensures LiveState(s', x) { assert LiveState(s, x); }
  }
}
