/**
  The preflight before a pooler is removed: one look at every registered pooler, then a
  decision that refuses whatever the look does not prove.  A nil protobuf message is a
  missing option; the getters of a nil Status answer as NIL_STATUS does.
 */
module Disruption {
  import opened Options

  datatype ID = ID(component: nat, cell: string, name: string)

  datatype RuleNumber = RuleNumber(coordinatorTerm: nat, subterm: nat)

  datatype Rule = Rule(number: Option<RuleNumber>, leader: Option<ID>, cohort: seq<ID>, policy: nat)

  datatype Position = Position(decision: Option<Rule>, proposal: Option<Rule>)

  datatype Posture = Unknown | Starting | Promoting | Standby | Primary

  datatype Status = Status(
    id: Option<ID>,
    position: Position,
    selfRevoked: bool,
    recruitBlocked: bool,
    initialized: bool,
    postgresReady: bool,
    posture: Posture,
    eligible: bool,
    requestsDemotion: bool,
    leaderTerm: nat,
    primaryReady: bool,
    followers: seq<ID>)

  const NIL_STATUS :=
    Status(None, Position(None, None), false, false, false, false, Unknown, false, false, 0, false, [])

  /** The consensus library: the map key of an identity, the order of positions, and the policies. */
  datatype Lib = Lib(
    key: Option<ID> -> string,
    compare: (Position, Position) -> int,
    policyValid: nat -> bool,
    satisfied: (nat, seq<ID>) -> bool,
    recruits: (nat, seq<ID>, seq<ID>) -> bool)

  /** A registered pooler and its answer; no answer when the RPC failed. */
  datatype Probe = Probe(name: string, id: ID, routed: bool, answer: Option<Status>)

  datatype Observation = Observation(
    registered: map<string, ID>,
    observed: map<string, Status>,
    unobserved: set<string>,
    stale: set<string>,
    leader: Option<ID>,
    rule: Option<Rule>)

  datatype Target = Target(name: string, unscheduled: bool, mayBeUnregistered: bool)

  // ------------------------------------------------------------ readiness

  ghost predicate InCohort(lib: Lib, cohort: seq<ID>, id: ID)
  {
    exists i | 0 <= i < |cohort| :: lib.key(Some(cohort[i])) == lib.key(Some(id))
  }

  ghost predicate Committed(lib: Lib, s: Status, id: Option<ID>)
  {
    s.position.decision.Some? && id.Some? && InCohort(lib, s.position.decision.value.cohort, id.value)
  }

  method CommittedCohortContains(lib: Lib, s: Status, id: Option<ID>) returns (r: bool)
    ensures r <==> Committed(lib, s, id)
  {
    if s.position.decision.None? || id.None? { return false; }
    var cohort := s.position.decision.value.cohort;
    for i := 0 to |cohort|
      invariant forall k | 0 <= k < i :: lib.key(Some(cohort[k])) != lib.key(id)
    {
      if lib.key(Some(cohort[i])) == lib.key(id) { return true; }
    }
    return false;
  }

  datatype Reason = NotInitialized | PostgresNotReady | CohortIneligible | NotCohortMember | DataPlaneReady

  ghost predicate Ready(lib: Lib, s: Status, id: Option<ID>)
  {
    s.initialized && s.postgresReady && s.eligible && Committed(lib, s, id)
  }

  method PoolerReadiness(lib: Lib, s: Status, id: Option<ID>) returns (r: Reason)
    ensures r.DataPlaneReady? <==> Ready(lib, s, id)
    ensures r.NotInitialized? <==> !s.initialized
    ensures r.PostgresNotReady? <==> s.initialized && !s.postgresReady
    ensures r.CohortIneligible? <==> s.initialized && s.postgresReady && !s.eligible
    ensures r.NotCohortMember? <==> s.initialized && s.postgresReady && s.eligible && !Committed(lib, s, id)
  {
    if !s.initialized { return NotInitialized; }
    if !s.postgresReady { return PostgresNotReady; }
    if !s.eligible { return CohortIneligible; }
    var member := CommittedCohortContains(lib, s, id);
    return if member then DataPlaneReady else NotCohortMember;
  }

  // ------------------------------------------------------------ observing

  function KeyOf(lib: Lib, p: Probe): string { lib.key(Some(p.id)) }

  /** The pooler answered under another identity than the registered one. */
  predicate Imposter(p: Probe) { p.answer.Some? && p.answer.value.id.Some? && p.answer.value.id.value != p.id }

  predicate Answered(p: Probe) { p.answer.Some? && p.answer.value.id == Some(p.id) }

  predicate RunsPrimary(p: Probe) { Answered(p) && p.answer.value.posture == Primary }

  /** The running primary's committed rule is strictly older than the leader's, with nothing proposed. */
  predicate Behind(lib: Lib, p: Probe, rule: Option<Rule>)
    requires p.answer.Some?
  {
    p.answer.value.position.proposal.None? && lib.compare(p.answer.value.position, Position(rule, None)) < 0
  }

  function Decision(p: Probe): Option<Rule>
    requires p.answer.Some?
  {
    p.answer.value.position.decision
  }

  ghost predicate Leads(lib: Lib, ps: seq<Probe>, i: nat)
  {
    && i < |ps| && RunsPrimary(ps[i]) && ps[i].routed
    && (forall j | 0 <= j < |ps| && j != i && RunsPrimary(ps[j]) ::
          !ps[j].routed && Behind(lib, ps[j], Decision(ps[i])))
  }

  /** Evidence that contradicts itself: an imposter, a shared identity, or primaries that cannot be ordered. */
  ghost predicate Contradictory(lib: Lib, ps: seq<Probe>)
  {
    || (exists i | 0 <= i < |ps| :: Imposter(ps[i]))
    || (exists i, j | 0 <= i < j < |ps| && Answered(ps[i]) && Answered(ps[j]) :: KeyOf(lib, ps[i]) == KeyOf(lib, ps[j]))
    || ((exists i | 0 <= i < |ps| :: RunsPrimary(ps[i])) && !exists i: nat :: Leads(lib, ps, i))
  }

  function Registered(ps: seq<Probe>): map<string, ID>
  {
    if ps == [] then map[] else Registered(ps[..|ps| - 1])[ps[|ps| - 1].name := ps[|ps| - 1].id]
  }

  /** A pod is registered when some probe has its name, under the identity of the last one that does. */
  lemma {:induction false} RegisteredLast(ps: seq<Probe>, name: string)
    ensures name in Registered(ps) <==> exists i | 0 <= i < |ps| :: ps[i].name == name
    ensures name in Registered(ps) ==>
              exists i | 0 <= i < |ps| :: ps[i].name == name && ps[i].id == Registered(ps)[name] &&
                forall j | i < j < |ps| :: ps[j].name != name
  {
    if ps != [] {
      var n := |ps| - 1;
      RegisteredLast(ps[..n], name);
      if ps[n].name == name {
        assert Registered(ps)[name] == ps[n].id;
      } else {
        assert forall i | 0 <= i < n :: ps[..n][i] == ps[i];
        if name in Registered(ps) {
          var i :| 0 <= i < n && ps[..n][i].name == name && ps[..n][i].id == Registered(ps[..n])[name] &&
                   forall j | i < j < n :: ps[..n][j].name != name;
          assert ps[i].name == name && forall j | i < j < |ps| :: ps[j].name != name;
        }
      }
    }
  }

  /** The observed map holds exactly the answers of the first `n` probes, by identity. */
  ghost predicate Holds(lib: Lib, ps: seq<Probe>, n: nat, m: map<string, Status>)
    requires n <= |ps|
  {
    && (forall i | 0 <= i < n && Answered(ps[i]) ::
          KeyOf(lib, ps[i]) in m && m[KeyOf(lib, ps[i])] == ps[i].answer.value)
    && (forall k | k in m :: exists i | 0 <= i < n && Answered(ps[i]) :: KeyOf(lib, ps[i]) == k)
  }

  ghost predicate Silent(ps: seq<Probe>, n: nat, names: set<string>)
    requires n <= |ps|
  {
    forall m :: m in names <==> exists i | 0 <= i < n :: ps[i].name == m && !Answered(ps[i])
  }

  ghost predicate Stale(ps: seq<Probe>, names: set<string>)
  {
    forall m :: m in names <==> exists i | 0 <= i < |ps| :: ps[i].name == m && RunsPrimary(ps[i]) && !ps[i].routed
  }

  ghost predicate Observes(lib: Lib, ps: seq<Probe>, o: Observation)
  {
    && o.registered == Registered(ps)
    && Holds(lib, ps, |ps|, o.observed) && Silent(ps, |ps|, o.unobserved) && Stale(ps, o.stale)
    && (o.leader.None? ==> o.rule.None? && forall i | 0 <= i < |ps| :: !RunsPrimary(ps[i]))
    && (o.leader.Some? ==>
          exists i: nat :: Leads(lib, ps, i) && o.leader == Some(ps[i].id) && o.rule == Decision(ps[i]))
  }

  /** No imposter and no shared identity among the first `n` probes. */
  ghost predicate Consistent(lib: Lib, ps: seq<Probe>, n: nat)
    requires n <= |ps|
  {
    && (forall i | 0 <= i < n :: !Imposter(ps[i]))
    && (forall i, j | 0 <= i < j < n && Answered(ps[i]) && Answered(ps[j]) :: KeyOf(lib, ps[i]) != KeyOf(lib, ps[j]))
  }

  /** The running primaries among the first `n` probes, by whether topology routes to them. */
  ghost predicate Sorted(ps: seq<Probe>, n: nat, routed: seq<nat>, others: seq<nat>)
    requires n <= |ps|
  {
    && (forall k | 0 <= k < |routed| :: routed[k] < n && RunsPrimary(ps[routed[k]]) && ps[routed[k]].routed)
    && (forall k | 0 <= k < |others| :: others[k] < n && RunsPrimary(ps[others[k]]) && !ps[others[k]].routed)
    && (forall i: nat | i < n && RunsPrimary(ps[i]) :: if ps[i].routed then i in routed else i in others)
    && (forall j, k | 0 <= j < k < |routed| :: routed[j] < routed[k])
  }

  lemma HoldsOne(lib: Lib, ps: seq<Probe>, n: nat, m: map<string, Status>)
    requires n < |ps| && Holds(lib, ps, n, m)
    requires Answered(ps[n]) && KeyOf(lib, ps[n]) !in m
    ensures Holds(lib, ps, n + 1, m[KeyOf(lib, ps[n]) := ps[n].answer.value])
  {
    var m' := m[KeyOf(lib, ps[n]) := ps[n].answer.value];
    forall k | k in m' ensures exists i | 0 <= i < n + 1 && Answered(ps[i]) :: KeyOf(lib, ps[i]) == k {
      if k in m {
        var i :| 0 <= i < n && Answered(ps[i]) && KeyOf(lib, ps[i]) == k;
      } else { assert KeyOf(lib, ps[n]) == k; }
    }
  }

  lemma HoldsNone(lib: Lib, ps: seq<Probe>, n: nat, m: map<string, Status>)
    requires n < |ps| && Holds(lib, ps, n, m) && !Answered(ps[n])
    ensures Holds(lib, ps, n + 1, m)
  {
    forall k | k in m ensures exists i | 0 <= i < n + 1 && Answered(ps[i]) :: KeyOf(lib, ps[i]) == k {
      var i :| 0 <= i < n && Answered(ps[i]) && KeyOf(lib, ps[i]) == k;
    }
  }

  lemma SilentOne(ps: seq<Probe>, n: nat, names: set<string>)
    requires n < |ps| && Silent(ps, n, names)
    ensures Silent(ps, n + 1, if Answered(ps[n]) then names else names + {ps[n].name})
  {
    var names' := if Answered(ps[n]) then names else names + {ps[n].name};
    forall m ensures m in names' <==> exists i | 0 <= i < n + 1 :: ps[i].name == m && !Answered(ps[i]) {
      if m in names { var i :| 0 <= i < n && ps[i].name == m && !Answered(ps[i]); }
    }
  }

  lemma ConsistentNone(lib: Lib, ps: seq<Probe>, n: nat)
    requires n < |ps| && Consistent(lib, ps, n) && !Answered(ps[n]) && !Imposter(ps[n])
    ensures Consistent(lib, ps, n + 1)
  {
  }

  lemma ImposterBreaks(lib: Lib, ps: seq<Probe>, n: nat)
    requires n < |ps| && Imposter(ps[n])
    ensures !Consistent(lib, ps, |ps|)
  {
  }

  /** The next answer keeps the probes consistent exactly when its identity has not been seen. */
  lemma ConsistentOne(lib: Lib, ps: seq<Probe>, n: nat, m: map<string, Status>)
    requires n < |ps| && Holds(lib, ps, n, m) && Consistent(lib, ps, n) && Answered(ps[n])
    ensures KeyOf(lib, ps[n]) !in m ==> Consistent(lib, ps, n + 1)
    ensures KeyOf(lib, ps[n]) in m ==> !Consistent(lib, ps, |ps|)
  {
    if KeyOf(lib, ps[n]) in m {
      var i :| 0 <= i < n && Answered(ps[i]) && KeyOf(lib, ps[i]) == KeyOf(lib, ps[n]);
    }
  }

  method Gather(lib: Lib, ps: seq<Probe>) returns (ok: bool, observed: map<string, Status>, unobserved: set<string>)
    ensures ok ==> Consistent(lib, ps, |ps|) && Holds(lib, ps, |ps|, observed) && Silent(ps, |ps|, unobserved)
    ensures !ok ==> !Consistent(lib, ps, |ps|)
  {
    ok, observed, unobserved := true, map[], {};
    for n := 0 to |ps|
      invariant ok && Consistent(lib, ps, n) && Holds(lib, ps, n, observed) && Silent(ps, n, unobserved)
    {
      var p := ps[n];
      if p.answer.None? || p.answer.value.id.None? {
        ConsistentNone(lib, ps, n);
        HoldsNone(lib, ps, n, observed);
        SilentOne(ps, n, unobserved);
        unobserved := unobserved + {p.name};
        continue;
      }
      if p.answer.value.id != Some(p.id) {
        ImposterBreaks(lib, ps, n);
        return false, observed, unobserved;
      }
      var key := KeyOf(lib, p);
      ConsistentOne(lib, ps, n, observed);
      if key in observed { return false, observed, unobserved; }
      SilentOne(ps, n, unobserved);
      HoldsOne(lib, ps, n, observed);
      observed := observed[key := p.answer.value];
    }
  }

  /** Running primaries by routing, in probe order. */
  method SortPrimaries(ps: seq<Probe>) returns (routed: seq<nat>, others: seq<nat>)
    ensures Sorted(ps, |ps|, routed, others)
  {
    routed, others := [], [];
    for n := 0 to |ps|
      invariant Sorted(ps, n, routed, others)
    {
      if RunsPrimary(ps[n]) {
        if ps[n].routed { routed := routed + [n]; } else { others := others + [n]; }
      }
    }
  }

  method Register(ps: seq<Probe>) returns (registered: map<string, ID>)
    ensures registered == Registered(ps)
  {
    registered := map[];
    for n := 0 to |ps|
      invariant registered == Registered(ps[..n])
    {
      assert ps[..n + 1][..n] == ps[..n];
      registered := registered[ps[n].name := ps[n].id];
    }
    assert ps[..|ps|] == ps;
  }

  /** The one routed primary leads when the others are all behind it; their names are stale. */
  method Order(lib: Lib, ps: seq<Probe>, routed: seq<nat>, others: seq<nat>) returns (stale: Option<set<string>>)
    requires Sorted(ps, |ps|, routed, others) && |routed| == 1
    ensures stale.Some? <==> Leads(lib, ps, routed[0])
    ensures stale.Some? ==> Stale(ps, stale.value)
  {
    var lead := routed[0];
    var rule := Decision(ps[lead]);
    var names := {};
    for k := 0 to |others|
      invariant forall j | 0 <= j < k :: Behind(lib, ps[others[j]], rule)
      invariant forall m :: m in names <==> exists j | 0 <= j < k :: ps[others[j]].name == m
    {
      if !Behind(lib, ps[others[k]], rule) { return None; }
      names := names + {ps[others[k]].name};
    }
    StaleNames(ps, routed, others, names);
    return Some(names);
  }

  lemma StaleNames(ps: seq<Probe>, routed: seq<nat>, others: seq<nat>, names: set<string>)
    requires Sorted(ps, |ps|, routed, others)
    requires forall m :: m in names <==> exists j | 0 <= j < |others| :: ps[others[j]].name == m
    ensures Stale(ps, names)
  {
    forall i: nat | i < |ps| && RunsPrimary(ps[i]) && !ps[i].routed ensures ps[i].name in names { assert i in others; }
  }

  /**
    Nothing is decided on contradictory evidence; otherwise every answer is kept and the leader is
    the one that leads.
   */
  method Observe(lib: Lib, ps: seq<Probe>) returns (r: Option<Observation>)
    ensures r.None? <==> Contradictory(lib, ps)
    ensures r.Some? ==> Observes(lib, ps, r.value)
  {
    var registered := Register(ps);
    var ok, observed, unobserved := Gather(lib, ps);
    if !ok { return None; }
    var routed, others := SortPrimaries(ps);
    if |routed| + |others| == 0 {
      return Some(Observation(registered, observed, unobserved, {}, None, None));
    }
    SomeRunsPrimary(ps, routed, others);
    OnlyRoutedLeads(lib, ps, routed, others);
    if |routed| != 1 { return None; }
    var stale := Order(lib, ps, routed, others);
    if stale.None? { return None; }
    return Some(Observation(registered, observed, unobserved, stale.value, Some(ps[routed[0]].id),
                            Decision(ps[routed[0]])));
  }

  lemma SomeRunsPrimary(ps: seq<Probe>, routed: seq<nat>, others: seq<nat>)
    requires Sorted(ps, |ps|, routed, others) && |routed| + |others| > 0
    ensures exists i | 0 <= i < |ps| :: RunsPrimary(ps[i])
  {
    if |routed| > 0 { assert RunsPrimary(ps[routed[0]]); } else { assert RunsPrimary(ps[others[0]]); }
  }

  lemma OnlyRoutedLeads(lib: Lib, ps: seq<Probe>, routed: seq<nat>, others: seq<nat>)
    requires Sorted(ps, |ps|, routed, others)
    ensures forall i: nat | Leads(lib, ps, i) :: |routed| == 1 && routed[0] == i
  {
    assert |routed| > 1 ==> routed[0] < routed[1];
    forall i: nat | Leads(lib, ps, i) ensures |routed| == 1 && routed[0] == i {
      assert i in routed;
    }
  }
}
