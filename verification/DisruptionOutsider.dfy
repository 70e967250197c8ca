/** A pooler outside the cohort, broken or not, holds back nobody else's removal, unless its identity is another's. */
module DisruptionOutsider {
  import opened Options
  import opened Disruption
  import opened DisruptionCheck

  /** The RPC failed, no identity was reported, or the pooler answered as itself and is not a running primary. */
  predicate Harmless(p: Probe) { !Imposter(p) && !RunsPrimary(p) }

  /** The same probes with another answer from the i-th. */
  function Instead(ps: seq<Probe>, i: nat, answer: Option<Status>): seq<Probe>
    requires i < |ps|
  {
    ps[i := ps[i].(answer := answer)]
  }

  /** Another probe with the same identity key answered. */
  ghost predicate HasTwin(lib: Lib, ps: seq<Probe>, i: nat)
    requires i < |ps|
  {
    exists j | 0 <= j < |ps| && j != i :: Answered(ps[j]) && KeyOf(lib, ps[j]) == KeyOf(lib, ps[i])
  }

  /** Its identity is neither the target's nor a member's of the rule the leader committed. */
  ghost predicate Outside(lib: Lib, ps: seq<Probe>, i: nat, t: Target)
    requires i < |ps|
  {
    && lib.key(TargetOf(ps, t)) != KeyOf(lib, ps[i])
    && forall lead: nat, m | LeaderStands(lib, ps, t, lead) && m in Decision(ps[lead]).value.cohort ::
         lib.key(Some(m)) != KeyOf(lib, ps[i])
  }

  // ------------------------------------------------------------ contradictions

  lemma SameLeader(lib: Lib, ps: seq<Probe>, i: nat, answer: Option<Status>, lead: nat)
    requires i < |ps| && Harmless(ps[i]) && Harmless(ps[i].(answer := answer)) && Leads(lib, ps, lead)
    ensures Leads(lib, Instead(ps, i, answer), lead)
  {
    var qs := Instead(ps, i, answer);
    forall j | 0 <= j < |qs| && j != lead && RunsPrimary(qs[j])
      ensures !qs[j].routed && Behind(lib, qs[j], Decision(qs[lead]))
    {
      assert qs[j] == ps[j];
    }
  }

  lemma Restored(ps: seq<Probe>, i: nat, answer: Option<Status>)
    requires i < |ps|
    ensures Instead(Instead(ps, i, answer), i, ps[i].answer) == ps
  {
  }

  /** A contradiction without the pooler's answer is there with it. */
  lemma SilenceHidesOnlyATwin(lib: Lib, ps: seq<Probe>, i: nat)
    requires i < |ps| && Harmless(ps[i]) && Contradictory(lib, ps) && !(Answered(ps[i]) && HasTwin(lib, ps, i))
    ensures Contradictory(lib, Instead(ps, i, None))
  {
    var qs := Instead(ps, i, None);
    Restored(ps, i, None);
    forall lead: nat | Leads(lib, qs, lead) ensures Leads(lib, ps, lead) { SameLeader(lib, qs, i, ps[i].answer, lead); }
    if k :| 0 <= k < |ps| && Imposter(ps[k]) {
      assert Imposter(qs[k]);
    } else if j, k :| 0 <= j < k < |ps| && Answered(ps[j]) && Answered(ps[k]) &&
                      KeyOf(lib, ps[j]) == KeyOf(lib, ps[k]) {
      assert qs[j] == ps[j] && qs[k] == ps[k];
    } else {
      var k :| 0 <= k < |ps| && RunsPrimary(ps[k]);
      assert RunsPrimary(qs[k]);
    }
  }

  lemma AnswerAddsOnlyContradictions(lib: Lib, ps: seq<Probe>, i: nat)
    requires i < |ps| && Harmless(ps[i]) && Contradictory(lib, Instead(ps, i, None))
    ensures Contradictory(lib, ps)
  {
    var qs := Instead(ps, i, None);
    forall lead: nat | Leads(lib, ps, lead) ensures Leads(lib, qs, lead) { SameLeader(lib, ps, i, None, lead); }
    if k :| 0 <= k < |qs| && Imposter(qs[k]) {
      assert Imposter(ps[k]);
    } else if j, k :| 0 <= j < k < |qs| && Answered(qs[j]) && Answered(qs[k]) &&
                      KeyOf(lib, qs[j]) == KeyOf(lib, qs[k]) {
      assert qs[j] == ps[j] && qs[k] == ps[k];
    } else {
      var k :| 0 <= k < |qs| && RunsPrimary(qs[k]);
      assert RunsPrimary(ps[k]);
    }
  }

  lemma TwinContradicts(lib: Lib, ps: seq<Probe>, i: nat)
    requires i < |ps| && Answered(ps[i]) && HasTwin(lib, ps, i)
    ensures Contradictory(lib, ps)
  {
    var j :| 0 <= j < |ps| && j != i && Answered(ps[j]) && KeyOf(lib, ps[j]) == KeyOf(lib, ps[i]);
    if j < i { assert KeyOf(lib, ps[j]) == KeyOf(lib, ps[i]); } else { assert KeyOf(lib, ps[i]) == KeyOf(lib, ps[j]); }
  }

  /** A harmless answer adds a contradiction exactly when it shares its identity with another answer. */
  lemma ContradictionIff(lib: Lib, ps: seq<Probe>, i: nat)
    requires i < |ps| && Harmless(ps[i])
    ensures Contradictory(lib, ps) <==>
            Contradictory(lib, Instead(ps, i, None)) || (Answered(ps[i]) && HasTwin(lib, ps, i))
  {
    if Answered(ps[i]) && HasTwin(lib, ps, i) { TwinContradicts(lib, ps, i); }
    else if Contradictory(lib, ps) { SilenceHidesOnlyATwin(lib, ps, i); }
    if Contradictory(lib, Instead(ps, i, None)) { AnswerAddsOnlyContradictions(lib, ps, i); }
  }

  // ------------------------------------------------------------ justification

  lemma {:induction false} SameRegistered(ps: seq<Probe>, i: nat, answer: Option<Status>)
    requires i < |ps|
    ensures Registered(Instead(ps, i, answer)) == Registered(ps)
  {
    var qs := Instead(ps, i, answer);
    var n := |ps| - 1;
    if i < n {
      assert qs[..n] == Instead(ps[..n], i, answer);
      SameRegistered(ps[..n], i, answer);
    } else {
      assert qs[..n] == ps[..n];
    }
  }

  lemma SameLeaderStands(lib: Lib, ps: seq<Probe>, i: nat, answer: Option<Status>, t: Target, lead: nat)
    requires i < |ps| && Harmless(ps[i]) && Harmless(ps[i].(answer := answer)) && LeaderStands(lib, ps, t, lead)
    ensures lead != i && LeaderStands(lib, Instead(ps, i, answer), t, lead)
  {
    var qs := Instead(ps, i, answer);
    forall j | 0 <= j < |qs| && j != lead && RunsPrimary(qs[j])
      ensures qs[j].name == t.name && !qs[j].routed && Behind(lib, qs[j], Decision(qs[lead]))
    {
      assert qs[j] == ps[j];
    }
  }

  lemma SameMember(lib: Lib, ps: seq<Probe>, i: nat, answer: Option<Status>, rule: Option<Rule>, target: Option<ID>,
                   leader: ID, m: ID)
    requires i < |ps| && lib.key(Some(m)) != KeyOf(lib, ps[i]) && MemberStands(lib, ps, rule, target, leader, m)
    ensures MemberStands(lib, Instead(ps, i, answer), rule, target, leader, m)
  {
    var j :| 0 <= j < |ps| && StandsAs(lib, ps[j], rule, target, leader, m);
    assert Instead(ps, i, answer)[j] == ps[j];
  }

  /** The justification does not depend on a harmless answer from outside, and the outside stays outside. */
  lemma CarryJustification(lib: Lib, ps: seq<Probe>, i: nat, answer: Option<Status>, roles: map<string, string>,
                           t: Target, lead: nat)
    requires i < |ps| && Harmless(ps[i]) && Harmless(ps[i].(answer := answer)) && Outside(lib, ps, i, t)
    requires Justified(lib, ps, roles, t, lead)
    ensures Justified(lib, Instead(ps, i, answer), roles, t, lead)
  {
    var qs := Instead(ps, i, answer);
    SameLeaderStands(lib, ps, i, answer, t, lead);
    SameRegistered(ps, i, answer);
    var rule, target := Decision(ps[lead]), TargetOf(ps, t);
    forall j | 0 <= j < |qs| && Answered(qs[j]) && KeyOf(lib, qs[j]) == lib.key(target)
      ensures Stands(lib, qs[j].answer.value, rule)
    { assert qs[j] == ps[j]; }
    forall m | m in rule.value.cohort && (Some(m) != target || m == qs[lead].id)
      ensures MemberStands(lib, qs, rule, target, qs[lead].id, m)
    { SameMember(lib, ps, i, answer, rule, target, ps[lead].id, m); }
    forall m | m in rule.value.cohort && Some(m) != target ensures Follows(lib, qs[lead], m) {
      assert Follows(lib, ps[lead], m);
    }
  }

  lemma OutsideStays(lib: Lib, ps: seq<Probe>, i: nat, answer: Option<Status>, t: Target)
    requires i < |ps| && Harmless(ps[i]) && Harmless(ps[i].(answer := answer)) && Outside(lib, ps, i, t)
    ensures Outside(lib, Instead(ps, i, answer), i, t)
  {
    var qs := Instead(ps, i, answer);
    SameRegistered(ps, i, answer);
    Restored(ps, i, answer);
    forall lead: nat, m | LeaderStands(lib, qs, t, lead) && m in Decision(qs[lead]).value.cohort
      ensures lib.key(Some(m)) != KeyOf(lib, qs[i])
    {
      SameLeaderStands(lib, qs, i, ps[i].answer, t, lead);
    }
  }

  lemma SameJustification(lib: Lib, ps: seq<Probe>, i: nat, answer: Option<Status>, roles: map<string, string>,
                          t: Target)
    requires i < |ps| && Harmless(ps[i]) && Harmless(ps[i].(answer := answer)) && Outside(lib, ps, i, t)
    ensures (exists lead: nat :: Justified(lib, ps, roles, t, lead)) <==>
            (exists lead: nat :: Justified(lib, Instead(ps, i, answer), roles, t, lead))
  {
    var qs := Instead(ps, i, answer);
    OutsideStays(lib, ps, i, answer, t);
    Restored(ps, i, answer);
    if lead: nat :| Justified(lib, ps, roles, t, lead) { CarryJustification(lib, ps, i, answer, roles, t, lead); }
    if lead: nat :| Justified(lib, qs, roles, t, lead) { CarryJustification(lib, qs, i, ps[i].answer, roles, t, lead); }
  }

  // ------------------------------------------------------------ end to end

  /**
    With a harmless pooler outside the cohort, a removal is cleared exactly when it is
    cleared without that pooler's answer and the answer is not a second one under the
    same identity.
   */
  lemma OutsiderMattersOnlyAsTwin(lib: Lib, ps: seq<Probe>, i: nat, roles: map<string, string>, t: Target)
    requires i < |ps| && Harmless(ps[i]) && Outside(lib, ps, i, t)
    ensures Cleared(lib, ps, roles, t) <==>
            Cleared(lib, Instead(ps, i, None), roles, t) && !(Answered(ps[i]) && HasTwin(lib, ps, i))
  {
    ContradictionIff(lib, ps, i);
    SameJustification(lib, ps, i, None, roles, t);
  }

  /** Without an answering twin, any two harmless answers give the same verdict. */
  lemma OutsiderDoesNotMatter(lib: Lib, ps: seq<Probe>, i: nat, answer: Option<Status>, roles: map<string, string>,
                              t: Target)
    requires i < |ps| && Harmless(ps[i]) && Harmless(ps[i].(answer := answer)) && Outside(lib, ps, i, t)
    requires !HasTwin(lib, ps, i)
    ensures Cleared(lib, ps, roles, t) <==> Cleared(lib, Instead(ps, i, answer), roles, t)
  {
    var qs := Instead(ps, i, answer);
    OutsiderMattersOnlyAsTwin(lib, ps, i, roles, t);
    OutsideStays(lib, ps, i, answer, t);
    OutsiderMattersOnlyAsTwin(lib, qs, i, roles, t);
    assert Instead(qs, i, None) == Instead(ps, i, None);
    assert !HasTwin(lib, qs, i) by {
      forall j | 0 <= j < |qs| && j != i ensures !(Answered(qs[j]) && KeyOf(lib, qs[j]) == KeyOf(lib, qs[i])) {
        assert qs[j] == ps[j];
      }
    }
  }

  // ------------------------------------------------------------ a twin that matters

  const NAMED_LIB := Lib(
    (o: Option<ID>) => if o.Some? then "k" + o.value.name else "",
    (_: Position, _: Position) => 0,
    (_: nat) => true,
    (_: nat, _: seq<ID>) => true,
    (_: nat, _: seq<ID>, _: seq<ID>) => true)

  const LEADER := ID(0, "c", "l")
  const EXTRA := ID(0, "c", "x")
  const RULE := Rule(Some(RuleNumber(1, 0)), Some(LEADER), [LEADER], 0)
  const SERVING :=
    Status(Some(LEADER), Position(Some(RULE), None), false, false, true, true, Primary, true, false, 0, true, [])
  const IDLE := NIL_STATUS.(id := Some(EXTRA))
  const TWINS := [
    Probe("l", LEADER, true, Some(SERVING)),
    Probe("x", EXTRA, false, Some(IDLE)),
    Probe("y", EXTRA, false, Some(IDLE))]
  const STUCK := Target("stuck", false, true)

  lemma StuckUnregistered(ps: seq<Probe>)
    requires |ps| == 3 && ps[0].name == "l" && ps[1].name == "x" && ps[2].name == "y"
    ensures TargetOf(ps, STUCK) == None
  {
    assert Registered(ps[..0]) == map[];
    assert ps[..1][..0] == ps[..0] && ps[..2][..1] == ps[..1] && ps[..3] == ps;
    assert Registered(ps[..1]) == map["l" := ps[0].id];
    assert Registered(ps[..2]).Keys == {"l", "x"};
    assert Registered(ps).Keys == {"l", "x", "y"};
  }

  lemma LeaderServes()
    ensures Serves(NAMED_LIB, SERVING, LEADER)
  {
    assert RULE.cohort[0] == LEADER;
  }

  lemma ClearedWithoutTwin()
    ensures Cleared(NAMED_LIB, Instead(TWINS, 2, None), map[], STUCK)
  {
    var qs := Instead(TWINS, 2, None);
    LeaderServes();
    StuckUnregistered(qs);
    assert LeaderStands(NAMED_LIB, qs, STUCK, 0);
    assert Leads(NAMED_LIB, qs, 0);
    assert KeyOf(NAMED_LIB, qs[0]) == "kl" && KeyOf(NAMED_LIB, qs[1]) == "kx";
    assert !Contradictory(NAMED_LIB, qs);
    assert StandsAs(NAMED_LIB, qs[0], Some(RULE), None, LEADER, LEADER);
    assert Justified(NAMED_LIB, qs, map[], STUCK, 0);
  }

  lemma TwinIsOutside()
    ensures Outside(NAMED_LIB, TWINS, 2, STUCK) && HasTwin(NAMED_LIB, TWINS, 2)
  {
    StuckUnregistered(TWINS);
    assert KeyOf(NAMED_LIB, TWINS[2]) == "kx" && NAMED_LIB.key(Some(LEADER)) == "kl";
    assert Answered(TWINS[1]) && KeyOf(NAMED_LIB, TWINS[1]) == "kx";
  }

  /** A removal cleared while one of two registrations of an identity is silent, and refused once both answer. */
  lemma SharedIdentityMatters()
    ensures exists lib, ps: seq<Probe>, i: nat, roles, t | i < |ps| ::
              Harmless(ps[i]) && Outside(lib, ps, i, t) &&
              Cleared(lib, Instead(ps, i, None), roles, t) && !Cleared(lib, ps, roles, t)
  {
    ClearedWithoutTwin();
    TwinIsOutside();
    OutsiderMattersOnlyAsTwin(NAMED_LIB, TWINS, 2, map[], STUCK);
    assert Harmless(TWINS[2]);
  }
}
