/**
  What the cache guarantees in every run: no client is lost, leaked or closed twice,
  a retired client outlives its grace period unless Close runs, refreshes are single
  flight with no lost wake-up, and a live client shields callers from failures.
 */
module PoolerSafety {
  import opened Options
  import opened PoolerCache
  import opened PoolerRuns

  // ------------------------------------------------------------ client accounting

  ghost predicate InRetired(st: CredentialState, k: ClientId)
  {
    exists i | 0 <= i < |st.retired| :: st.retired[i].client == k
  }

  ghost predicate IsClosed(s: Sys, k: ClientId)
  {
    exists i | 0 <= i < |s.closings| :: s.closings[i].client == k
  }

  /** The clients a state holds were built for it, and none is held twice. */
  ghost predicate HeldOnce(s: Sys, sid: Sid)
    requires sid < |s.states|
  {
    var st := s.states[sid];
    && (st.tlsClient.Some? ==>
          var k := st.tlsClient.value;
          k < |s.home| && s.home[k] == sid && k !in s.retiredAt && !InRetired(st, k))
    && (forall i | 0 <= i < |st.retired| ::
          var r := st.retired[i];
          r.client < |s.home| && s.home[r.client] == sid &&
          r.client in s.retiredAt && r.due == s.retiredAt[r.client] + RETIREMENT_GRACE)
    && (forall i, j | 0 <= i < j < |st.retired| :: st.retired[i].client != st.retired[j].client)
  }

  ghost predicate Held(st: CredentialState, k: ClientId) { st.tlsClient == Some(k) || InRetired(st, k) }

  /** A client that was built is held by its state or closed, not both. */
  ghost predicate Placed(s: Sys, k: ClientId)
    requires k < |s.home|
  {
    s.home[k] < |s.states| && (Held(s.states[s.home[k]], k) <==> !IsClosed(s, k))
  }

  /** A client is closed by Close, or by its timer after the full grace period. */
  ghost predicate ClosedRightly(s: Sys, e: Closing)
  {
    e.client < |s.home| && e.at <= s.now &&
    if e.byClose then s.home[e.client] in s.captured
    else e.client in s.retiredAt && s.retiredAt[e.client] + RETIREMENT_GRACE <= e.at
  }

  ghost predicate InvClients(s: Sys)
  {
    && (forall k | k in s.retiredAt :: k < |s.home|)
    && (forall sid | 0 <= sid < |s.states| :: HeldOnce(s, sid))
    && (forall k | 0 <= k < |s.home| :: Placed(s, k))
    && (forall i | 0 <= i < |s.closings| :: ClosedRightly(s, s.closings[i]))
    && (forall i, j | 0 <= i < j < |s.closings| :: s.closings[i].client != s.closings[j].client)
  }

  /** Steps and sections that leave every client where it is. */
  ghost predicate SameClients(s: Sys, s': Sys)
  {
    && s'.home == s.home && s'.retiredAt == s.retiredAt && s'.closings == s.closings
    && s.now <= s'.now && s.captured <= s'.captured && |s.states| <= |s'.states|
    && (forall sid | 0 <= sid < |s'.states| ::
          if sid < |s.states|
          then s'.states[sid].tlsClient == s.states[sid].tlsClient && s'.states[sid].retired == s.states[sid].retired
          else s'.states[sid] == FRESH_STATE)
  }

  lemma ClientsFrame(s: Sys, s': Sys)
    requires InvClients(s) && SameClients(s, s')
    ensures InvClients(s')
  {
    forall sid | 0 <= sid < |s'.states| ensures HeldOnce(s', sid) {
      if sid < |s.states| { assert HeldOnce(s, sid); }
    }
    forall k | 0 <= k < |s'.home| ensures Placed(s', k) { assert Placed(s, k); }
  }

  /** A section that rotates the current client of `sid` out, for `next` if there is one. */
  lemma ClientsRotate(s: Sys, s': Sys, sid: Sid, next: Option<ClientId>)
    requires InvClients(s) && sid < |s.states|
    requires s'.closings == s.closings && s'.now == s.now && s'.captured == s.captured
    requires |s'.states| == |s.states|
    requires forall x | 0 <= x < |s.states| && x != sid :: s'.states[x] == s.states[x]
    requires s'.states[sid].retired == Retire(s.states[sid], s.now).retired
    requires s'.states[sid].tlsClient == next
    requires s'.retiredAt == Retires(s, s.states[sid])
    requires match next case None => s'.home == s.home
             case Some(k) => k == |s.home| && s'.home == s.home + [sid]
    ensures InvClients(s')
  {
    var st, st' := s.states[sid], s'.states[sid];
    assert HeldOnce(s, sid);
    forall x | 0 <= x < |s'.states| ensures HeldOnce(s', x) { assert HeldOnce(s, x); }
    forall k | 0 <= k < |s'.home| ensures Placed(s', k) {
      if k < |s.home| {
        assert Placed(s, k);
        if s.home[k] == sid { RetiredAfterRotate(st, st', s.now, k); }
      }
    }
  }

  lemma RetiredAfterRotate(st: CredentialState, st': CredentialState, now: nat, k: ClientId)
    requires st'.retired == Retire(st, now).retired
    ensures InRetired(st', k) <==> InRetired(st, k) || st.tlsClient == Some(k)
  {
    if st.tlsClient == Some(k) { assert st'.retired[|st.retired|].client == k; }
    if InRetired(st, k) {
      var i :| 0 <= i < |st.retired| && st.retired[i].client == k;
      assert st'.retired[i].client == k;
    }
  }

  lemma ClientsTimer(s: Sys, sid: Sid, r: Retired)
    requires InvClients(s) && Enabled(s, Timer(sid, r))
    ensures InvClients(DoTimer(s, sid, r))
  {
    if r in s.states[sid].retired {
      TimerHeld(s, sid, r);
    TimerRight(s, sid, r);
      TimerPlaces(s, sid, r);
    } else {
      ClientsFrame(s, DoTimer(s, sid, r));
    }
  }

  lemma TimerHeld(s: Sys, sid: Sid, r: Retired)
    requires InvClients(s) && sid < |s.states| && r.due <= s.now && r in s.states[sid].retired
    ensures var s' := DoTimer(s, sid, r); forall x | 0 <= x < |s'.states| :: HeldOnce(s', x)
  {
    var s' := DoTimer(s, sid, r);
    HeldAfterFire(s, s', sid, IndexOf(s.states[sid].retired, r));
    forall x | 0 <= x < |s'.states| ensures HeldOnce(s', x) { assert HeldOnce(s, x); }
  }

  lemma TimerRight(s: Sys, sid: Sid, r: Retired)
    requires InvClients(s) && sid < |s.states| && r.due <= s.now && r in s.states[sid].retired
    ensures ClosedRightly(DoTimer(s, sid, r), Closing(r.client, s.now, false)) && !IsClosed(s, r.client)
  {
    assert HeldOnce(s, sid) && InRetired(s.states[sid], r.client);
    assert Placed(s, r.client);
  }

  lemma TimerPlaces(s: Sys, sid: Sid, r: Retired)
    requires InvClients(s) && sid < |s.states| && r.due <= s.now && r in s.states[sid].retired
    ensures var s' := DoTimer(s, sid, r); forall k | 0 <= k < |s'.home| :: Placed(s', k)
  {
    var s' := DoTimer(s, sid, r);
    assert HeldOnce(s, sid);
    assert s'.closings[|s.closings|].client == r.client;
    forall k | 0 <= k < |s'.home| ensures Placed(s', k) {
      assert Placed(s, k);
      RetiredAfterFire(s.states[sid], IndexOf(s.states[sid].retired, r), k);
      ClosedAfter(s, s', k);
    }
  }

  lemma HeldAfterFire(s: Sys, s': Sys, sid: Sid, i: nat)
    requires sid < |s.states| == |s'.states| && HeldOnce(s, sid) && i < |s.states[sid].retired|
    requires s'.home == s.home && s'.retiredAt == s.retiredAt
    requires s'.states[sid].tlsClient == s.states[sid].tlsClient
    requires s'.states[sid].retired == s.states[sid].retired[..i] + s.states[sid].retired[i + 1..]
    ensures HeldOnce(s', sid)
  {
    var rs, rs' := s.states[sid].retired, s'.states[sid].retired;
    forall j | 0 <= j < |rs'| ensures rs'[j] == rs[if j < i then j else j + 1] {}
  }

  lemma RetiredAfterFire(st: CredentialState, i: nat, k: ClientId)
    requires i < |st.retired|
    requires forall a, b | 0 <= a < b < |st.retired| :: st.retired[a].client != st.retired[b].client
    ensures var st' := st.(retired := st.retired[..i] + st.retired[i + 1..]);
            InRetired(st', k) <==> InRetired(st, k) && k != st.retired[i].client
  {
    var st' := st.(retired := st.retired[..i] + st.retired[i + 1..]);
    if InRetired(st, k) && k != st.retired[i].client {
      var a :| 0 <= a < |st.retired| && st.retired[a].client == k;
      assert st'.retired[if a < i then a else a - 1].client == k;
    }
  }

  /** Closing more clients closes exactly those, on top of the ones closed before. */
  lemma ClosedAfter(s: Sys, s': Sys, k: ClientId)
    requires s.closings <= s'.closings
    ensures IsClosed(s', k) <==>
              IsClosed(s, k) || exists i | |s.closings| <= i < |s'.closings| :: s'.closings[i].client == k
  {
    if IsClosed(s, k) {
      var i :| 0 <= i < |s.closings| && s.closings[i].client == k;
      assert s'.closings[i].client == k;
    }
  }

  lemma CloseClosesHeld(s: Sys, sid: Sid)
    requires sid < |s.states| && HeldOnce(s, sid)
    ensures var cs := CloseCloses(s.states[sid]);
            && (forall i, j | 0 <= i < j < |cs| :: cs[i] != cs[j])
            && (forall i | 0 <= i < |cs| :: cs[i] < |s.home| && s.home[cs[i]] == sid && Held(s.states[sid], cs[i]))
            && (forall k | Held(s.states[sid], k) :: k in cs)
  {
    var st := s.states[sid];
    var cs := CloseCloses(st);
    forall k | InRetired(st, k) ensures k in cs {
      var i :| 0 <= i < |st.retired| && st.retired[i].client == k;
      assert cs[if st.tlsClient.Some? then i + 1 else i] == k;
    }
    if st.tlsClient.Some? { assert cs[0] == st.tlsClient.value; }
  }

  lemma ClientsClose(s: Sys, sid: Sid)
    requires InvClients(s) && Enabled(s, CloseState(sid)) && sid in s.captured
    ensures InvClients(DoCloseState(s, sid))
  {
    var s' := DoCloseState(s, sid);
    var cs := CloseCloses(s.states[sid]);
    assert HeldOnce(s, sid);
    CloseClosesHeld(s, sid);
    forall i | 0 <= i < |cs| ensures !IsClosed(s, cs[i]) { assert Placed(s, cs[i]); }
    forall x | 0 <= x < |s'.states| ensures HeldOnce(s', x) { assert HeldOnce(s, x); }
    forall k | 0 <= k < |s'.home| ensures Placed(s', k) { ClosePlaces(s, sid, k); }
    CloseLog(s, sid);
    forall i: nat | i < |s'.closings| ensures ClosedRightly(s', s'.closings[i]) { CloseRight(s, sid, i); }
  }

  /** What Close appends to the log: each held client once, none closed before. */
  lemma CloseLog(s: Sys, sid: Sid)
    requires InvClients(s) && Enabled(s, CloseState(sid)) && sid in s.captured
    requires forall c | c in CloseCloses(s.states[sid]) :: !IsClosed(s, c)
    ensures var s' := DoCloseState(s, sid);
            forall i, j | 0 <= i < j < |s'.closings| :: s'.closings[i].client != s'.closings[j].client
  {
    var s' := DoCloseState(s, sid);
    var cs := CloseCloses(s.states[sid]);
    assert HeldOnce(s, sid);
    CloseClosesHeld(s, sid);
    assert forall i | |s.closings| <= i < |s'.closings| :: s'.closings[i].client == cs[i - |s.closings|];
  }

  lemma CloseRight(s: Sys, sid: Sid, i: nat)
    requires InvClients(s) && Enabled(s, CloseState(sid)) && sid in s.captured
    requires i < |DoCloseState(s, sid).closings|
    ensures ClosedRightly(DoCloseState(s, sid), DoCloseState(s, sid).closings[i])
  {
    assert HeldOnce(s, sid);
    CloseClosesHeld(s, sid);
    if i < |s.closings| { assert ClosedRightly(s, s.closings[i]); }
  }

  lemma ClosePlaces(s: Sys, sid: Sid, k: nat)
    requires InvClients(s) && Enabled(s, CloseState(sid)) && sid in s.captured && k < |s.home|
    requires forall c | c in CloseCloses(s.states[sid]) :: !IsClosed(s, c)
    ensures Placed(DoCloseState(s, sid), k)
  {
    var s' := DoCloseState(s, sid);
    var cs := CloseCloses(s.states[sid]);
    assert HeldOnce(s, sid);
    CloseClosesHeld(s, sid);
    assert Placed(s, k);
    ClosedAfter(s, s', k);
    if k in cs { ClosedByClose(s, sid, k); }
  }

  lemma ClosedByClose(s: Sys, sid: Sid, k: nat)
    requires Enabled(s, CloseState(sid)) && k in CloseCloses(s.states[sid])
    ensures IsClosed(DoCloseState(s, sid), k)
  {
    var cs := CloseCloses(s.states[sid]);
    var i :| 0 <= i < |cs| && cs[i] == k;
    assert DoCloseState(s, sid).closings[|s.closings| + i].client == k;
  }

  lemma ClientsFinish(s: Sys, c: Caller, readAt: nat, read: Read)
    requires InvClients(s) && Enabled(s, FinishRead(c, readAt, read))
    ensures InvClients(DoFinish(s, c, readAt, read))
  {
    var s' := DoFinish(s, c, readAt, read);
    var sid := s.calls[c].sid;
    if Builds(s.states[sid], read) {
      ClientsRotate(s, s', sid, Some(|s.home|));
    } else {
      ClientsFrame(s, s');
    }
  }

  lemma ClientsKept(s: Sys, step: Step)
    requires Enabled(s, step) && InvClients(s) && InvLife(s)
    ensures InvClients(Apply(s, step))
  {
    match step
    case Lookup(c) => ClientsFrame(s, DoLookup(s, c));
    case EnterLoop(c) => ClientsFrame(s, DoEnter(s, c));
    case FinishRead(c, readAt, read) => ClientsFinish(s, c, readAt, read);
    case ForgetKey(key) => ClientsFrame(s, DoForgetKey(s, key));
    case ForgetState(sid) =>
      assert LiveState(s, sid);
      ClientsRotate(s, DoForgetState(s, sid), sid, None);
    case CloseAll => ClientsFrame(s, DoCloseAll(s));
    case CloseState(sid) => ClientsClose(s, sid);
    case Timer(sid, r) => ClientsTimer(s, sid, r);
    case _ => ClientsElsewhere(s, step);
  }

  lemma ClientsElsewhere(s: Sys, step: Step)
    requires Enabled(s, step) && InvClients(s)
    requires step.Tick? || step.Cancel? || step.ActivateKey? || Arriving(step) || Joined(step) || step.Signal?
    ensures InvClients(Apply(s, step))
  {
    ClientsFrame(s, Apply(s, step));
  }

  // ------------------------------------------------------------ cached failures

  /** A cached failure is the Secret's, never the leader's own cancellation. */
  ghost predicate InvErrors(s: Sys)
  {
    forall sid | 0 <= sid < |s.states| :: s.states[sid].lastErr != Some(Cancelled)
  }

  lemma ErrorsKept(s: Sys, step: Step)
    requires Enabled(s, step) && InvErrors(s)
    ensures InvErrors(Apply(s, step))
  {
  }

  // ------------------------------------------------------------ every run

  ghost predicate Inv(s: Sys) { InvFlight(s) && InvLife(s) && InvClients(s) && InvErrors(s) }

  lemma {:induction false} RunKeepsInv(steps: seq<Step>)
    requires Run(steps).Some?
    ensures Inv(Run(steps).value)
  {
    if steps != [] {
      var before, step := steps[..|steps| - 1], steps[|steps| - 1];
      RunKeepsInv(before);
      var s := Run(before).value;
      FlightKept(s, step);
      LifeKept(s, step);
      ClientsKept(s, step);
      ErrorsKept(s, step);
    }
  }

  /** The outcome a call has settled on, if it has. */
  function Verdict(s: Sys, c: Caller): Option<Result>
  {
    if c !in s.calls then None
    else match s.calls[c] case Signalling(_, _, out) => Some(out) case Done(out) => Some(out) case _ => None
  }

  ghost predicate IsCurrent(s: Sys, k: ClientId)
  {
    exists sid | 0 <= sid < |s.states| :: s.states[sid].tlsClient == Some(k)
  }

  ghost predicate IsRetired(s: Sys, k: ClientId)
  {
    exists sid | 0 <= sid < |s.states| :: InRetired(s.states[sid], k)
  }

  /** In every run, each client is current, retired or closed, in exactly one place and closed once. */
  lemma EveryClientInOnePlace(steps: seq<Step>, k: ClientId)
    requires Run(steps).Some? && k < |Run(steps).value.home|
    ensures var s := Run(steps).value;
            && (IsCurrent(s, k) || IsRetired(s, k) || IsClosed(s, k))
            && !(IsCurrent(s, k) && IsRetired(s, k))
            && !(IsCurrent(s, k) && IsClosed(s, k))
            && !(IsRetired(s, k) && IsClosed(s, k))
            && (forall i, j | 0 <= i < |s.closings| && 0 <= j < |s.closings| &&
                              s.closings[i].client == k == s.closings[j].client :: i == j)
            && (forall a, b | 0 <= a < |s.states| && 0 <= b < |s.states| &&
                              Held(s.states[a], k) && Held(s.states[b], k) :: a == b)
  {
    RunKeepsInv(steps);
    var s := Run(steps).value;
    assert Placed(s, k);
    forall sid | 0 <= sid < |s.states| && Held(s.states[sid], k) ensures s.home[k] == sid {
      assert HeldOnce(s, sid);
    }
    if Held(s.states[s.home[k]], k) { assert HeldOnce(s, s.home[k]); }
  }

  /** A client is only ever built for a state that is open at that moment. */
  lemma NoClientOnClosedState(s: Sys, step: Step)
    requires Enabled(s, step) && Apply(s, step).home != s.home
    ensures step.FinishRead?
    ensures var s' := Apply(s, step); var sid := s.calls[step.c].sid;
            s'.home == s.home + [sid] && !s.states[sid].closed && !s'.states[sid].closed
  {
  }

  /** Once Close has finished, every client of a cluster that was not forgotten is closed, for good. */
  lemma CloseClosesEverything(steps: seq<Step>, k: ClientId)
    requires Run(steps).Some? && k < |Run(steps).value.home|
    requires Run(steps).value.registry.closed && Run(steps).value.closing == {}
    ensures IsClosed(Run(steps).value, k) || Run(steps).value.home[k] in Run(steps).value.forgotten
  {
    RunKeepsInv(steps);
    var s := Run(steps).value;
    assert Placed(s, k) && LiveState(s, s.home[k]);
  }

  /**
    A client is closed early only by Close, which never touches a forgotten cluster's
    clients; otherwise it was retired first and the whole grace period has passed.
   */
  lemma GraceHonoured(steps: seq<Step>, i: nat)
    requires Run(steps).Some? && i < |Run(steps).value.closings|
    ensures var s := Run(steps).value; var e := s.closings[i];
            && e.client < |s.home|
            && (e.byClose ==> s.registry.closed && s.home[e.client] !in s.forgotten)
            && (!e.byClose ==> e.client in s.retiredAt && s.retiredAt[e.client] + 60 <= e.at)
  {
    RunKeepsInv(steps);
    var s := Run(steps).value;
    assert ClosedRightly(s, s.closings[i]);
  }

  /** Per state: refreshing, a pending channel, and one single outstanding Secret read are the same thing. */
  lemma SingleFlight(steps: seq<Step>, sid: Sid)
    requires Run(steps).Some? && sid < |Run(steps).value.states|
    ensures var s := Run(steps).value; var st := s.states[sid];
            && (st.refreshing <==> st.refreshDone.Some?)
            && (st.refreshing <==> exists c | c in s.calls :: s.calls[c].Reading? && s.calls[c].sid == sid)
            && (forall c, d | c in s.calls && d in s.calls && s.calls[c].Reading? && s.calls[d].Reading? &&
                              s.calls[c].sid == sid == s.calls[d].sid :: c == d)
  {
    RunKeepsInv(steps);
    var s := Run(steps).value;
    assert FlightState(s, sid);
    if s.states[sid].refreshing {
      var c := s.leaders[s.states[sid].refreshDone.value];
      assert c in s.calls && s.calls[c].Reading?;
    }
    forall c | c in s.calls && s.calls[c].Reading? && s.calls[c].sid == sid
      ensures s.states[sid].refreshing && c == s.leaders[s.states[sid].refreshDone.value]
    {
      assert FlightCall(s, c);
    }
  }

  /**
    No wake-up is lost: a joined call waits on a real channel that is closed already or
    whose leader still has the close ahead of it; and no channel is closed twice.
   */
  lemma NoLostWakeUp(steps: seq<Step>, c: Caller)
    requires Run(steps).Some?
    requires c in Run(steps).value.calls && Run(steps).value.calls[c].Waiting?
    ensures var s := Run(steps).value; var done := s.calls[c].done;
            && done.Some?
            && (done.value in s.closedChans ||
                exists l | l in s.calls :: Leads(s.calls[l]) && s.calls[l].ch == done.value)
            && (forall i, j | 0 <= i < j < |s.closedChans| :: s.closedChans[i] != s.closedChans[j])
  {
    RunKeepsInv(steps);
    var s := Run(steps).value;
    assert FlightCall(s, c);
    assert WillSignal(s, s.calls[c].done.value);
  }

  /** A cancelled leader never poisons the cache for anyone else. */
  lemma CancellationNeverCached(steps: seq<Step>, sid: Sid)
    requires Run(steps).Some? && sid < |Run(steps).value.states|
    ensures Run(steps).value.states[sid].lastErr != Some(Cancelled)
  {
    RunKeepsInv(steps);
  }

  /** A call is handed a client only while that client is the current one of an open state. */
  lemma HandedOutOpen(steps: seq<Step>, step: Step, k: ClientId)
    requires Run(steps).Some? && Enabled(Run(steps).value, step) && CallStep(step)
    requires Verdict(Run(steps).value, step.c).None?
    requires Verdict(Apply(Run(steps).value, step), step.c) == Some(Client(k))
    ensures var s' := Apply(Run(steps).value, step);
            && k < |s'.home| && s'.home[k] < |s'.states| && !IsClosed(s', k)
            && s'.states[s'.home[k]].tlsClient == Some(k) && !s'.states[s'.home[k]].closed
  {
    RunKeepsInv(steps);
    var s := Run(steps).value;
    var s' := Apply(s, step);
    ClientsKept(s, step);
    LifeKept(s, step);
    var sid := s.calls[step.c].sid;
    assert FlightCall(s, step.c);
    assert s'.states[sid].tlsClient == Some(k);
    assert HeldOnce(s', sid) && LiveState(s', sid);
    assert Placed(s', k);
  }

  lemma RunSnoc(steps: seq<Step>, step: Step)
    requires Run(steps).Some? && Enabled(Run(steps).value, step)
    ensures Run(steps + [step]) == Some(Apply(Run(steps).value, step))
  {
    assert (steps + [step])[..|steps|] == steps;
  }

  const CLUSTER: Key := "ns/cluster"

  function Arrival(steps: seq<Step>, c: Caller): seq<Step>
  {
    steps + [Call(c, CLUSTER)] + [CheckActive(c)] + [Lookup(c)]
  }

  /** One call leads a cold initialisation; a second one has joined it. */
  const COLD_START := Arrival(Arrival([ActivateKey(CLUSTER)], 0) + [EnterLoop(0)], 1) + [EnterLoop(1)]

  const JOINED: Sys := LED.(calls := map[0 := Reading(0, 0), 1 := Waiting(0, Some(0))])

  lemma Arrive(steps: seq<Step>, c: Caller)
    requires Run(steps).Some? && c !in Run(steps).value.calls
    requires !Run(steps).value.registry.closed && CLUSTER in Run(steps).value.registry.active
    ensures Run(Arrival(steps, c)) == Some(DoLookup(Resume(Run(steps).value, c, Attaching(CLUSTER)), c))
  {
    var s := Run(steps).value;
    RunSnoc(steps, Call(c, CLUSTER));
    RunSnoc(steps + [Call(c, CLUSTER)], CheckActive(c));
    assert s.calls[c := Checking(CLUSTER)][c := Attaching(CLUSTER)] == s.calls[c := Attaching(CLUSTER)];
    RunSnoc(steps + [Call(c, CLUSTER)] + [CheckActive(c)], Lookup(c));
  }

  const LED: Sys := INIT.(
    registry := Registry(false, map[CLUSTER := 0], {CLUSTER}),
    states := [FRESH_STATE.(refreshing := true, refreshDone := Some(0))],
    calls := map[0 := Reading(0, 0)],
    leaders := [0])

  lemma FirstLeads()
    ensures Run(Arrival([ActivateKey(CLUSTER)], 0) + [EnterLoop(0)]) == Some(LED)
  {
    RunSnoc([], ActivateKey(CLUSTER));
    assert [] + [ActivateKey(CLUSTER)] == [ActivateKey(CLUSTER)];
    Arrive([ActivateKey(CLUSTER)], 0);
    RunSnoc(Arrival([ActivateKey(CLUSTER)], 0), EnterLoop(0));
    var s := Run(Arrival([ActivateKey(CLUSTER)], 0) + [EnterLoop(0)]).value;
    assert s.calls == LED.calls && s.states == LED.states && s.registry == LED.registry && s.leaders == LED.leaders;
  }

  lemma ColdStart()
    ensures Run(COLD_START) == Some(JOINED)
  {
    FirstLeads();
    var first := Arrival([ActivateKey(CLUSTER)], 0) + [EnterLoop(0)];
    Arrive(first, 1);
    RunSnoc(Arrival(first, 1), EnterLoop(1));
    var s := Run(COLD_START).value;
    assert s.calls == JOINED.calls && s.states == JOINED.states;
  }

  /** That cancellation does happen: here the leader has built the client but not signalled yet. */
  lemma JoinedCallerCanFailBesideLiveClient()
    ensures exists steps :: Run(steps).Some? &&
              var s := Run(steps).value;
              |s.states| == 1 && !s.states[0].closed && s.states[0].tlsClient == Some(0) &&
              1 in s.calls && s.calls[1] == Done(Error(Cancelled))
  {
    ColdStart();
    var built := COLD_START + [FinishRead(0, 0, Secret("1", true))];
    RunSnoc(COLD_START, FinishRead(0, 0, Secret("1", true)));
    RunSnoc(built, Cancel(1));
    RunSnoc(built + [Cancel(1)], GiveUp(1));
  }
}
