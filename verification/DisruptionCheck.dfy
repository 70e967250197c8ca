/** Deciding on an observation, and what an acceptance proves about the poolers that were asked. */
module DisruptionCheck {
  import opened Options
  import opened Disruption

  function At(o: Observation, key: string): Status { if key in o.observed then o.observed[key] else NIL_STATUS }

  function TargetId(o: Observation, t: Target): Option<ID>
  {
    if t.name in o.registered then Some(o.registered[t.name]) else None
  }

  // ------------------------------------------------------------ the conditions

  /** A target to judge, and a primary that leads the rule it has committed. */
  predicate Grounded(o: Observation, t: Target)
  {
    && (TargetId(o, t).Some? || t.unscheduled || t.mayBeUnregistered)
    && o.leader.Some? && o.rule.Some? && o.rule.value.number.Some? && o.rule.value.leader == o.leader
  }

  /** The target is not ahead of the leader's rule, in conflict with it, or proposing. */
  predicate TargetSettled(lib: Lib, o: Observation, t: Target)
  {
    var key := lib.key(TargetId(o, t));
    key in o.observed ==>
      var p := o.observed[key].position;
      var c := lib.compare(p, Position(o.rule, None));
      p.proposal.None? && c <= 0 && (c == 0 ==> p.decision == o.rule)
  }

  predicate Resigning(s: Status, rule: Rule)
    requires rule.number.Some?
  {
    s.requestsDemotion && s.leaderTerm != 0 && s.leaderTerm == rule.number.value.coordinatorTerm
  }

  ghost predicate LeaderServes(lib: Lib, o: Observation)
    requires o.rule.Some? && o.rule.value.number.Some?
  {
    var s := At(o, lib.key(o.leader));
    Ready(lib, s, o.leader) && !Resigning(s, o.rule.value) && s.primaryReady
  }

  /** Ready, and settled on exactly the leader's rule, and electable. */
  ghost predicate Recovered(lib: Lib, s: Status, m: ID, rule: Option<Rule>)
  {
    Ready(lib, s, Some(m)) && s.position == Position(rule, None) && !s.selfRevoked && !s.recruitBlocked
  }

  predicate Excused(o: Observation, t: Target, m: ID) { Some(m) == TargetId(o, t) && Some(m) != o.leader }

  predicate Survivor(o: Observation, t: Target, m: ID) { Some(m) != TargetId(o, t) }

  ghost predicate MemberOk(lib: Lib, o: Observation, t: Target, m: ID)
  {
    var s := At(o, lib.key(Some(m)));
    Excused(o, t, m) ||
    (Recovered(lib, s, m, o.rule) && (Survivor(o, t, m) && Some(m) != o.leader ==> s.posture == Standby))
  }

  ghost predicate MembersOk(lib: Lib, o: Observation, t: Target)
    requires o.rule.Some?
  {
    OkUpTo(lib, o, t, o.rule.value.cohort, |o.rule.value.cohort|)
  }

  ghost predicate OkUpTo(lib: Lib, o: Observation, t: Target, cohort: seq<ID>, n: nat)
    requires n <= |cohort|
  {
    forall i | 0 <= i < n :: MemberOk(lib, o, t, cohort[i])
  }

  lemma OkOneMore(lib: Lib, o: Observation, t: Target, cohort: seq<ID>, n: nat)
    requires n < |cohort| && OkUpTo(lib, o, t, cohort, n) && MemberOk(lib, o, t, cohort[n])
    ensures OkUpTo(lib, o, t, cohort, n + 1)
  {
  }

  /** The cohort without the target. */
  function Remaining(cohort: seq<ID>, target: Option<ID>): seq<ID>
  {
    if cohort == [] then []
    else
      var rest := Remaining(cohort[..|cohort| - 1], target);
      if Some(cohort[|cohort| - 1]) == target then rest else rest + [cohort[|cohort| - 1]]
  }

  lemma {:induction false} RemainingIs(cohort: seq<ID>, target: Option<ID>)
    ensures forall m :: m in Remaining(cohort, target) <==> m in cohort && Some(m) != target
  {
    if cohort != [] {
      var n := |cohort| - 1;
      RemainingIs(cohort[..n], target);
      assert cohort == cohort[..n] + [cohort[n]];
    }
  }

  predicate Suffices(lib: Lib, o: Observation, t: Target)
    requires o.rule.Some?
  {
    var rule := o.rule.value;
    var rest := Remaining(rule.cohort, TargetId(o, t));
    lib.satisfied(rule.policy, rest) && lib.recruits(rule.policy, rule.cohort, rest)
  }

  ghost predicate Linked(lib: Lib, o: Observation, m: ID)
  {
    lib.key(Some(m)) == lib.key(o.leader) ||
    exists f | f in At(o, lib.key(o.leader)).followers :: lib.key(Some(f)) == lib.key(Some(m))
  }

  ghost predicate AllLinked(lib: Lib, o: Observation, t: Target)
    requires o.rule.Some?
  {
    forall m | m in Remaining(o.rule.value.cohort, TargetId(o, t)) :: Linked(lib, o, m)
  }

  /** Everything but the size and the connections of what remains. */
  ghost predicate Sound(lib: Lib, o: Observation, roles: map<string, string>, t: Target)
  {
    && Grounded(o, t)
    && (forall n | n in o.stale :: n == t.name)
    && (TargetId(o, t) == o.leader ==> t.name in roles && roles[t.name] == "PRIMARY")
    && TargetSettled(lib, o, t) && LeaderServes(lib, o) && MembersOk(lib, o, t)
    && lib.policyValid(o.rule.value.policy)
  }

  ghost predicate Accepts(lib: Lib, o: Observation, roles: map<string, string>, t: Target)
  {
    Sound(lib, o, roles, t) && Suffices(lib, o, t) && AllLinked(lib, o, t)
  }

  // ------------------------------------------------------------ the code

  datatype Verdict =
    | Awaiting | StalePrimary | BecamePrimary | TargetUnsettled | PrimaryIneligible | PrimaryNotServing
    | NotRecovered(member: ID) | NotStandby(member: ID) | InvalidPolicy | InsufficientRemainder
    | Disconnected(member: ID) | Safe

  lemma RemainingStep(cohort: seq<ID>, i: nat, target: Option<ID>)
    requires i < |cohort|
    ensures Remaining(cohort[..i + 1], target) ==
            Remaining(cohort[..i], target) + if Some(cohort[i]) == target then [] else [cohort[i]]
  {
    assert cohort[..i + 1][..i] == cohort[..i];
  }

  lemma OneBadMember(lib: Lib, o: Observation, t: Target, i: nat)
    requires o.rule.Some? && i < |o.rule.value.cohort| && !MemberOk(lib, o, t, o.rule.value.cohort[i])
    ensures !MembersOk(lib, o, t)
  {
  }

  /** Safe when the member is excused, or recovered and fit to survive. */
  method JudgeMember(lib: Lib, o: Observation, t: Target, member: ID) returns (v: Verdict)
    ensures v == Safe <==> MemberOk(lib, o, t, member)
    ensures v != Safe ==> v == NotRecovered(member) || v == NotStandby(member)
  {
    var target := TargetId(o, t);
    if Some(member) == target && Some(member) != o.leader { return Safe; }
    var s := At(o, lib.key(Some(member)));
    var reason := PoolerReadiness(lib, s, Some(member));
    var settled := s.position.decision == o.rule && s.position.proposal == None;
    var eligible := !s.selfRevoked && !s.recruitBlocked;
    if !reason.DataPlaneReady? || !settled || !eligible { return NotRecovered(member); }
    if Some(member) != target && Some(member) != o.leader && s.posture != Standby { return NotStandby(member); }
    return Safe;
  }

  /** Judge the cohort in order; collect what remains. */
  method Survivors(lib: Lib, o: Observation, t: Target) returns (v: Verdict, remaining: seq<ID>)
    requires o.rule.Some?
    ensures v == Safe <==> MembersOk(lib, o, t)
    ensures v == Safe ==> remaining == Remaining(o.rule.value.cohort, TargetId(o, t))
    ensures v != Safe ==> v.NotRecovered? || v.NotStandby?
  {
    var target := TargetId(o, t);
    var cohort := o.rule.value.cohort;
    v, remaining := Safe, [];
    for i := 0 to |cohort|
      invariant v == Safe
      invariant OkUpTo(lib, o, t, cohort, i)
      invariant remaining == Remaining(cohort[..i], target)
    {
      var member := cohort[i];
      RemainingStep(cohort, i, target);
      var judged := JudgeMember(lib, o, t, member);
      if judged != Safe {
        OneBadMember(lib, o, t, i);
        return judged, [];
      }
      OkOneMore(lib, o, t, cohort, i);
      if Some(member) != target { remaining := remaining + [member]; }
    }
    assert cohort[..|cohort|] == cohort;
  }

  /** The first remaining member the primary is not connected to. */
  method FindUnlinked(lib: Lib, o: Observation, remaining: seq<ID>) returns (r: Option<ID>)
    ensures r.None? <==> forall m | m in remaining :: Linked(lib, o, m)
    ensures r.Some? ==> r.value in remaining && !Linked(lib, o, r.value)
  {
    var connected := {lib.key(o.leader)};
    var followers := At(o, lib.key(o.leader)).followers;
    for i := 0 to |followers|
      invariant forall k :: k in connected <==>
                  k == lib.key(o.leader) || exists f | f in followers[..i] :: lib.key(Some(f)) == k
    {
      assert followers[..i + 1] == followers[..i] + [followers[i]];
      connected := connected + {lib.key(Some(followers[i]))};
    }
    assert followers[..|followers|] == followers;
    for i := 0 to |remaining|
      invariant forall j | 0 <= j < i :: Linked(lib, o, remaining[j])
    {
      if lib.key(Some(remaining[i])) !in connected {
        assert !Linked(lib, o, remaining[i]);
        return Some(remaining[i]);
      }
    }
    return None;
  }

  /** Safe exactly when every condition holds; InsufficientRemainder only when size alone is what is missing. */
  method Check(lib: Lib, o: Observation, roles: map<string, string>, t: Target) returns (v: Verdict)
    ensures v == Safe <==> Accepts(lib, o, roles, t)
    ensures v == InsufficientRemainder <==> Sound(lib, o, roles, t) && !Suffices(lib, o, t)
  {
    var target := TargetId(o, t);
    if (target.None? && !t.unscheduled && !t.mayBeUnregistered) || o.leader.None? ||
       o.rule.None? || o.rule.value.number.None? || o.rule.value.leader != o.leader {
      return Awaiting;
    }
    if !(o.stale <= {t.name}) { return StalePrimary; }
    if target == o.leader && (t.name !in roles || roles[t.name] != "PRIMARY") { return BecamePrimary; }
    if !TargetSettled(lib, o, t) { return TargetUnsettled; }
    var primary := At(o, lib.key(o.leader));
    var reason := PoolerReadiness(lib, primary, o.leader);
    if !reason.DataPlaneReady? { return PrimaryIneligible; }
    if Resigning(primary, o.rule.value) || !primary.primaryReady { return PrimaryNotServing; }
    var judged, remaining := Survivors(lib, o, t);
    if judged != Safe { return judged; }
    if !lib.policyValid(o.rule.value.policy) { return InvalidPolicy; }
    if !lib.satisfied(o.rule.value.policy, remaining) { return InsufficientRemainder; }
    if !lib.recruits(o.rule.value.policy, o.rule.value.cohort, remaining) { return InsufficientRemainder; }
    var unlinked := FindUnlinked(lib, o, remaining);
    return if unlinked.Some? then Disconnected(unlinked.value) else Safe;
  }

  // ------------------------------------------------------------ what an acceptance rests on

  /** A probe that answered, under an identity with this key. */
  ghost predicate AnsweredAs(lib: Lib, p: Probe, m: ID) { Answered(p) && KeyOf(lib, p) == lib.key(Some(m)) }

  /** The answer found under an identity is some probe's own answer. */
  lemma FoundMeansAnswered(lib: Lib, ps: seq<Probe>, o: Observation, m: ID)
    requires Observes(lib, ps, o) && Ready(lib, At(o, lib.key(Some(m))), Some(m))
    ensures exists j | 0 <= j < |ps| :: AnsweredAs(lib, ps[j], m) && ps[j].answer == Some(At(o, lib.key(Some(m))))
  {
    assert lib.key(Some(m)) in o.observed;
    var j :| 0 <= j < |ps| && Answered(ps[j]) && KeyOf(lib, ps[j]) == lib.key(Some(m));
    assert AnsweredAs(lib, ps[j], m);
  }

  /** A pod serves exactly when its registered pooler answered ready, as a member of its own committed cohort. */
  method Serving(lib: Lib, ps: seq<Probe>, o: Observation, name: string) returns (r: bool)
    requires Observes(lib, ps, o)
    ensures r <==> name in Registered(ps) &&
                   exists j | 0 <= j < |ps| :: AnsweredAs(lib, ps[j], Registered(ps)[name]) &&
                     Ready(lib, ps[j].answer.value, Some(Registered(ps)[name])) &&
                     ps[j].answer.value == At(o, lib.key(Some(Registered(ps)[name])))
  {
    if name !in o.registered { return false; }
    var id := o.registered[name];
    var reason := PoolerReadiness(lib, At(o, lib.key(Some(id))), Some(id));
    r := reason.DataPlaneReady?;
    if r { FoundMeansAnswered(lib, ps, o, id); }
  }

  /** A running primary other than the leader is the target itself, strictly behind the leader's rule. */
  lemma OnlyTargetRunsBeside(lib: Lib, ps: seq<Probe>, o: Observation, roles: map<string, string>, t: Target, lead: nat,
                             j: nat)
    requires Observes(lib, ps, o) && Accepts(lib, o, roles, t)
    requires Leads(lib, ps, lead) && o.leader == Some(ps[lead].id) && o.rule == Decision(ps[lead])
    requires j < |ps| && j != lead && RunsPrimary(ps[j])
    ensures ps[j].name == t.name && !ps[j].routed && Behind(lib, ps[j], o.rule)
  {
    assert ps[j].name in o.stale;
  }

  /** Every committed member but a non-leader target answered, recovered, and is electable. */
  lemma MembersRecovered(lib: Lib, ps: seq<Probe>, o: Observation, roles: map<string, string>, t: Target, m: ID)
    requires Observes(lib, ps, o) && Accepts(lib, o, roles, t) && m in o.rule.value.cohort && !Excused(o, t, m)
    ensures exists j | 0 <= j < |ps| :: AnsweredAs(lib, ps[j], m) && Recovered(lib, ps[j].answer.value, m, o.rule)
  {
    var i :| 0 <= i < |o.rule.value.cohort| && o.rule.value.cohort[i] == m;
    assert MemberOk(lib, o, t, o.rule.value.cohort[i]);
    FoundMeansAnswered(lib, ps, o, m);
    var j :| 0 <= j < |ps| && AnsweredAs(lib, ps[j], m) && ps[j].answer == Some(At(o, lib.key(Some(m))));
    assert Recovered(lib, ps[j].answer.value, m, o.rule);
  }

  // ------------------------------------------------------------ said of the probes alone

  function TargetOf(ps: seq<Probe>, t: Target): Option<ID>
  {
    if t.name in Registered(ps) then Some(Registered(ps)[t.name]) else None
  }

  /** Initialised, accepting connections, eligible, and in the cohort of its own committed rule. */
  ghost predicate InService(lib: Lib, s: Status, id: ID)
  {
    && s.initialized && s.postgresReady && s.eligible && s.position.decision.Some?
    && exists c | c in s.position.decision.value.cohort :: lib.key(Some(c)) == lib.key(Some(id))
  }

  lemma ReadyIff(lib: Lib, s: Status, id: ID)
    ensures Ready(lib, s, Some(id)) <==> InService(lib, s, id)
  {
    if s.position.decision.Some? {
      var cohort := s.position.decision.value.cohort;
      if InCohort(lib, cohort, id) {
        var i :| 0 <= i < |cohort| && lib.key(Some(cohort[i])) == lib.key(Some(id));
        assert cohort[i] in cohort;
      }
    }
  }

  /** Leads the rule it has committed, is ready, has not asked to resign in its term, and serves. */
  ghost predicate Serves(lib: Lib, s: Status, id: ID)
  {
    && s.position.decision.Some? && s.position.decision.value.number.Some?
    && s.position.decision.value.leader == Some(id)
    && InService(lib, s, id) && s.primaryReady
    && !(s.requestsDemotion && s.leaderTerm > 0 &&
         s.leaderTerm == s.position.decision.value.number.value.coordinatorTerm)
  }

  /** The one routed running primary: it serves, and any other primary is the target, strictly behind it. */
  ghost predicate LeaderStands(lib: Lib, ps: seq<Probe>, t: Target, lead: nat)
  {
    && lead < |ps| && RunsPrimary(ps[lead]) && ps[lead].routed && Serves(lib, ps[lead].answer.value, ps[lead].id)
    && forall j | 0 <= j < |ps| && j != lead && RunsPrimary(ps[j]) ::
         ps[j].name == t.name && !ps[j].routed && Behind(lib, ps[j], Decision(ps[lead]))
  }

  /** The member's own probe: in service and electable on the leader's rule, a standby unless it leads or goes. */
  ghost predicate StandsAs(lib: Lib, p: Probe, rule: Option<Rule>, target: Option<ID>, leader: ID, m: ID)
  {
    && AnsweredAs(lib, p, m) && InService(lib, p.answer.value, m)
    && p.answer.value.position.decision == rule && p.answer.value.position.proposal.None?
    && !p.answer.value.selfRevoked && !p.answer.value.recruitBlocked
    && (Some(m) != target && m != leader ==> p.answer.value.posture == Standby)
  }

  ghost predicate MemberStands(lib: Lib, ps: seq<Probe>, rule: Option<Rule>, target: Option<ID>, leader: ID, m: ID)
  {
    exists j | 0 <= j < |ps| :: StandsAs(lib, ps[j], rule, target, leader, m)
  }

  predicate Stands(lib: Lib, s: Status, rule: Option<Rule>)
  {
    var c := lib.compare(s.position, Position(rule, None));
    s.position.proposal.None? && c <= 0 && (c == 0 ==> s.position.decision == rule)
  }

  /** The leader itself reports a connection to the member. */
  ghost predicate Follows(lib: Lib, leader: Probe, m: ID)
    requires leader.answer.Some?
  {
    lib.key(Some(m)) == KeyOf(lib, leader) ||
    exists f | f in leader.answer.value.followers :: lib.key(Some(f)) == lib.key(Some(m))
  }

  /** What a removal must rest on. */
  ghost predicate Justified(lib: Lib, ps: seq<Probe>, roles: map<string, string>, t: Target, lead: nat)
  {
    && LeaderStands(lib, ps, t, lead)
    && var rule, target := Decision(ps[lead]), TargetOf(ps, t);
       && (target.Some? || t.unscheduled || t.mayBeUnregistered)
       && (target == Some(ps[lead].id) ==> t.name in roles && roles[t.name] == "PRIMARY")
       && (forall j | 0 <= j < |ps| && Answered(ps[j]) && KeyOf(lib, ps[j]) == lib.key(target) ::
             Stands(lib, ps[j].answer.value, rule))
       && (forall m | m in rule.value.cohort && (Some(m) != target || m == ps[lead].id) ::
             MemberStands(lib, ps, rule, target, ps[lead].id, m))
       && (forall m | m in rule.value.cohort && Some(m) != target :: Follows(lib, ps[lead], m))
       && lib.policyValid(rule.value.policy)
       && lib.satisfied(rule.value.policy, Remaining(rule.value.cohort, target))
       && lib.recruits(rule.value.policy, rule.value.cohort, Remaining(rule.value.cohort, target))
  }

  lemma LeaderStatus(lib: Lib, ps: seq<Probe>, o: Observation, lead: nat)
    requires Observes(lib, ps, o) && Leads(lib, ps, lead) && o.leader == Some(ps[lead].id)
    ensures At(o, lib.key(o.leader)) == ps[lead].answer.value
  {
    assert KeyOf(lib, ps[lead]) in o.observed;
  }

  /** What is observed under a key is what the probe of that key answered. */
  lemma AnswerAt(lib: Lib, ps: seq<Probe>, o: Observation, j: nat)
    requires Observes(lib, ps, o) && j < |ps| && Answered(ps[j])
    ensures KeyOf(lib, ps[j]) in o.observed && At(o, KeyOf(lib, ps[j])) == ps[j].answer.value
  {
  }

  lemma MemberOkIffStands(lib: Lib, ps: seq<Probe>, o: Observation, t: Target, m: ID)
    requires Observes(lib, ps, o) && o.leader.Some? && !Excused(o, t, m)
    ensures MemberOk(lib, o, t, m) <==> MemberStands(lib, ps, o.rule, TargetId(o, t), o.leader.value, m)
  {
    if MemberOk(lib, o, t, m) {
      FoundMeansAnswered(lib, ps, o, m);
      var j :| 0 <= j < |ps| && AnsweredAs(lib, ps[j], m) && ps[j].answer == Some(At(o, lib.key(Some(m))));
      ReadyIff(lib, ps[j].answer.value, m);
      assert StandsAs(lib, ps[j], o.rule, TargetId(o, t), o.leader.value, m);
    }
    if j :| 0 <= j < |ps| && StandsAs(lib, ps[j], o.rule, TargetId(o, t), o.leader.value, m) {
      ReadyIff(lib, ps[j].answer.value, m);
      AnswerAt(lib, ps, o, j);
    }
  }

  lemma SettledIffStands(lib: Lib, ps: seq<Probe>, o: Observation, t: Target)
    requires Observes(lib, ps, o)
    ensures TargetSettled(lib, o, t) <==>
            forall j | 0 <= j < |ps| && Answered(ps[j]) && KeyOf(lib, ps[j]) == lib.key(TargetOf(ps, t)) ::
              Stands(lib, ps[j].answer.value, o.rule)
  {
    forall j: nat | j < |ps| && Answered(ps[j]) ensures At(o, KeyOf(lib, ps[j])) == ps[j].answer.value {
      AnswerAt(lib, ps, o, j);
    }
    var key := lib.key(TargetId(o, t));
    if key in o.observed {
      var j: nat :| j < |ps| && Answered(ps[j]) && KeyOf(lib, ps[j]) == key;
      AnswerAt(lib, ps, o, j);
    }
  }

  lemma StaleIffBehind(lib: Lib, ps: seq<Probe>, o: Observation, t: Target, lead: nat)
    requires Observes(lib, ps, o) && Leads(lib, ps, lead)
    ensures (forall n | n in o.stale :: n == t.name) <==>
            forall j | 0 <= j < |ps| && j != lead && RunsPrimary(ps[j]) ::
              ps[j].name == t.name && !ps[j].routed && Behind(lib, ps[j], Decision(ps[lead]))
  {
    forall j | 0 <= j < |ps| && j != lead && RunsPrimary(ps[j]) ensures ps[j].name in o.stale {}
    forall n | n in o.stale ensures exists j | 0 <= j < |ps| && j != lead && RunsPrimary(ps[j]) :: ps[j].name == n {
      var j :| 0 <= j < |ps| && ps[j].name == n && RunsPrimary(ps[j]) && !ps[j].routed;
    }
  }

  lemma LeaderOkIffStands(lib: Lib, ps: seq<Probe>, o: Observation, t: Target, lead: nat)
    requires Observes(lib, ps, o) && Leads(lib, ps, lead) && o.leader == Some(ps[lead].id) &&
             o.rule == Decision(ps[lead])
    ensures LeaderStands(lib, ps, t, lead) <==>
            o.rule.Some? && o.rule.value.number.Some? && o.rule.value.leader == o.leader && LeaderServes(lib, o) &&
            forall n | n in o.stale :: n == t.name
  {
    LeaderStatus(lib, ps, o, lead);
    ReadyIff(lib, ps[lead].answer.value, ps[lead].id);
    StaleIffBehind(lib, ps, o, t, lead);
  }

  lemma MembersOkIffStand(lib: Lib, ps: seq<Probe>, o: Observation, t: Target)
    requires Observes(lib, ps, o) && o.leader.Some? && o.rule.Some?
    ensures MembersOk(lib, o, t) <==>
            forall m | m in o.rule.value.cohort && (Some(m) != TargetOf(ps, t) || m == o.leader.value) ::
              MemberStands(lib, ps, o.rule, TargetOf(ps, t), o.leader.value, m)
  {
    var cohort := o.rule.value.cohort;
    forall m | m in cohort && !Excused(o, t, m)
      ensures MemberOk(lib, o, t, m) <==> MemberStands(lib, ps, o.rule, TargetOf(ps, t), o.leader.value, m)
    { MemberOkIffStands(lib, ps, o, t, m); }
    if MembersOk(lib, o, t) {
      forall m | m in cohort ensures MemberOk(lib, o, t, m) {
        var i :| 0 <= i < |cohort| && cohort[i] == m;
      }
    } else {
      var i :| 0 <= i < |cohort| && !MemberOk(lib, o, t, cohort[i]);
      assert !Excused(o, t, cohort[i]);
    }
  }

  lemma LinkedIffFollows(lib: Lib, ps: seq<Probe>, o: Observation, t: Target, lead: nat)
    requires Observes(lib, ps, o) && Leads(lib, ps, lead) && o.leader == Some(ps[lead].id) && o.rule.Some?
    ensures AllLinked(lib, o, t) <==>
            forall m | m in o.rule.value.cohort && Some(m) != TargetOf(ps, t) :: Follows(lib, ps[lead], m)
  {
    LeaderStatus(lib, ps, o, lead);
    RemainingIs(o.rule.value.cohort, TargetId(o, t));
    forall m: ID ensures Linked(lib, o, m) <==> Follows(lib, ps[lead], m) {}
  }

  /** Under a leader that stands, the other conditions are the same one by one. */
  lemma AcceptsUnderLeader(lib: Lib, ps: seq<Probe>, o: Observation, roles: map<string, string>, t: Target, lead: nat)
    requires Observes(lib, ps, o) && Leads(lib, ps, lead) && o.leader == Some(ps[lead].id)
    requires o.rule == Decision(ps[lead]) && LeaderStands(lib, ps, t, lead)
    requires o.rule.Some? && o.rule.value.number.Some? && o.rule.value.leader == o.leader && LeaderServes(lib, o)
    requires forall n | n in o.stale :: n == t.name
    ensures Accepts(lib, o, roles, t) <==> Justified(lib, ps, roles, t, lead)
  {
    SettledIffStands(lib, ps, o, t);
    MembersOkIffStand(lib, ps, o, t);
    LinkedIffFollows(lib, ps, o, t, lead);
  }

  /** With the leader known, the decision is the justification. */
  lemma AcceptsIffJustifiedBy(lib: Lib, ps: seq<Probe>, o: Observation, roles: map<string, string>, t: Target,
                              lead: nat)
    requires Observes(lib, ps, o) && Leads(lib, ps, lead) && o.leader == Some(ps[lead].id) &&
             o.rule == Decision(ps[lead])
    ensures Accepts(lib, o, roles, t) <==> Justified(lib, ps, roles, t, lead)
  {
    LeaderOkIffStands(lib, ps, o, t, lead);
    if LeaderStands(lib, ps, t, lead) { AcceptsUnderLeader(lib, ps, o, roles, t, lead); }
  }

  /** A removal is accepted exactly when it is justified by what the poolers answered. */
  lemma AcceptedIffJustified(lib: Lib, ps: seq<Probe>, o: Observation, roles: map<string, string>, t: Target)
    requires Observes(lib, ps, o)
    ensures Accepts(lib, o, roles, t) <==> exists lead: nat :: Justified(lib, ps, roles, t, lead)
  {
    if o.leader.Some? {
      var lead: nat :| Leads(lib, ps, lead) && o.leader == Some(ps[lead].id) && o.rule == Decision(ps[lead]);
      AcceptsIffJustifiedBy(lib, ps, o, roles, t, lead);
      forall other: nat | LeaderStands(lib, ps, t, other) ensures other == lead {}
    }
  }

  /** The whole preflight: observe, then decide. */
  ghost predicate Cleared(lib: Lib, ps: seq<Probe>, roles: map<string, string>, t: Target)
  {
    !Contradictory(lib, ps) && exists lead: nat :: Justified(lib, ps, roles, t, lead)
  }

  method CheckDisruption(lib: Lib, ps: seq<Probe>, roles: map<string, string>, t: Target) returns (safe: bool)
    ensures safe <==> Cleared(lib, ps, roles, t)
  {
    var o := Observe(lib, ps);
    if o.None? { return false; }
    var v := Check(lib, o.value, roles, t);
    AcceptedIffJustified(lib, ps, o.value, roles, t);
    return v == Safe;
  }

  /** With no registration to excuse, every committed member must have recovered, and all of them remain. */
  lemma UnregisteredExcusesNobody(lib: Lib, ps: seq<Probe>, o: Observation, roles: map<string, string>, t: Target)
    requires Observes(lib, ps, o) && Accepts(lib, o, roles, t) && t.name !in o.registered
    ensures forall m | m in o.rule.value.cohort ::
              exists j | 0 <= j < |ps| :: AnsweredAs(lib, ps[j], m) && Recovered(lib, ps[j].answer.value, m, o.rule)
    ensures Remaining(o.rule.value.cohort, TargetId(o, t)) == o.rule.value.cohort
  {
    forall m | m in o.rule.value.cohort
      ensures exists j | 0 <= j < |ps| :: AnsweredAs(lib, ps[j], m) && Recovered(lib, ps[j].answer.value, m, o.rule)
    { MembersRecovered(lib, ps, o, roles, t, m); }
    RemainingAll(o.rule.value.cohort);
  }

  lemma {:induction false} RemainingAll(cohort: seq<ID>)
    ensures Remaining(cohort, None) == cohort
  {
    if cohort != [] { RemainingAll(cohort[..|cohort| - 1]); }
  }
}
