/**
  Removing leftover status entries from managedFields with one JSON patch of `test` and
  `remove` operations (sections 4.6 and 4.2 of RFC 6902), applied all or nothing
  (section 5) to a list that may have changed since the decision read it.
 */
module LegacyTidy {
  import opened Options
  import opened FieldPaths

  const CHILD_WRITER := "multigres-operator"
  const RESOURCE_HANDLER := "multigres-resource-handler"
  const RETIRED_FACETS := {"multigres-resource-handler-guard", "multigres-resource-handler-readiness",
                           "multigres-operator-guard"}
  const STATUS_MANAGERS := {"multigres-cluster", "multigres-tablegroup", "multigres-cell", "multigres-toposerver",
                            "multigres-shard", "multigres-shard-guard", "multigres-shard-readiness",
                            "multigres-toposerver-guard", "multigres-etcd-maintenance"}

  /** The raw fieldsV1 of an entry: absent, a set, or JSON that does not decode. */
  datatype Fields = Absent | Raw(claims: FieldSet) | Garbage(raw: string)

  /** `subresource` is "" when the key is absent; `rest` is apiVersion and time. */
  datatype Entry = Entry(manager: string, operation: string, subresource: string, fields: Fields, rest: string)

  predicate IsLegacy(e: Entry)
  {
    e.manager in RETIRED_FACETS ||
    ((e.manager == CHILD_WRITER || e.manager == RESOURCE_HANDLER) && e.subresource == "status")
  }

  predicate IsStatusRoot(p: Path) { p == [FieldName("status")] }

  predicate Decodable(entries: seq<Entry>) { forall i | 0 <= i < |entries| :: !entries[i].fields.Garbage? }

  function Claimed(e: Entry): FieldSet { if e.fields.Raw? then e.fields.claims else EMPTY_SET }

  // ------------------------------------------------------------ the decision

  /** Indices below `n` that `pick` selects, ascending. */
  function Select(entries: seq<Entry>, pick: Entry -> bool, n: nat): (r: seq<nat>)
    requires n <= |entries|
    ensures forall i :: i in r <==> 0 <= i < n && pick(entries[i])
  {
    if n == 0 then [] else Select(entries, pick, n - 1) + if pick(entries[n - 1]) then [n - 1] else []
  }

  predicate IsOwn(e: Entry) { !IsLegacy(e) && e.manager in STATUS_MANAGERS }
  predicate IsForeign(e: Entry) { !IsLegacy(e) && e.manager !in STATUS_MANAGERS }

  /** The current entries, this operator's status managers first, otherwise in list order. */
  function Preference(entries: seq<Entry>): (r: seq<nat>)
    ensures forall i :: i in r <==> 0 <= i < |entries| && !IsLegacy(entries[i])
    ensures InRange(entries, r)
  {
    assert forall k | 0 <= k < |Order(entries)| :: Order(entries)[k] in Order(entries);
    Order(entries)
  }

  function Order(entries: seq<Entry>): seq<nat>
  {
    Select(entries, IsOwn, |entries|) + Select(entries, IsForeign, |entries|)
  }

  predicate InRange(entries: seq<Entry>, order: seq<nat>) { forall k | 0 <= k < |order| :: order[k] < |entries| }

  /** `order[k]` is the first entry of the order to cover `p`. */
  ghost predicate FirstCover(entries: seq<Entry>, order: seq<nat>, p: Path, k: nat)
    requires InRange(entries, order)
  {
    k < |order| && Claims(Claimed(entries[order[k]]), p) &&
    forall l | 0 <= l < k :: !Claims(Claimed(entries[order[l]]), p)
  }

  ghost predicate Guards(entries: seq<Entry>, p: Path, j: nat)
  {
    var order := Preference(entries);
    exists k: nat :: FirstCover(entries, order, p, k) && order[k] == j
  }

  /** A path whose owner matters. */
  ghost predicate NeedsOwner(e: Entry, p: Path) { Has(Claimed(e), p) && !IsStatusRoot(p) }

  ghost predicate Removable(entries: seq<Entry>, i: nat)
  {
    i < |entries| && IsLegacy(entries[i]) && Preference(entries) != [] &&
    forall p | NeedsOwner(entries[i], p) :: exists j :: Guards(entries, p, j)
  }

  /** Entry `j` is the chosen cover of some path of an entry that goes away. */
  ghost predicate IsGuard(entries: seq<Entry>, j: nat)
  {
    exists i: nat, p :: Removable(entries, i) && NeedsOwner(entries[i], p) && Guards(entries, p, j)
  }

  lemma GuardCovers(entries: seq<Entry>, p: Path, j: nat)
    requires Guards(entries, p, j)
    ensures j < |entries| && !IsLegacy(entries[j]) && Claims(Claimed(entries[j]), p)
  {
    var order := Preference(entries);
    var k: nat :| FirstCover(entries, order, p, k) && order[k] == j;
    assert order[k] in order;
  }

  lemma GuardUnique(entries: seq<Entry>, p: Path, j: nat, j': nat)
    requires Guards(entries, p, j) && Guards(entries, p, j')
    ensures j == j'
  {
  }

  /** A path has a guard exactly when some current entry covers it. */
  lemma {:induction false} GuardExists(entries: seq<Entry>, p: Path, i: nat)
    requires i < |entries| && !IsLegacy(entries[i]) && Claims(Claimed(entries[i]), p)
    ensures exists j :: Guards(entries, p, j)
  {
    var order := Preference(entries);
    assert i in order;
    var k :| 0 <= k < |order| && order[k] == i;
    var m := LeastCover(entries, order, p, k);
    assert Guards(entries, p, order[m]);
  }

  lemma {:induction false} LeastCover(entries: seq<Entry>, order: seq<nat>, p: Path, k: nat) returns (m: nat)
    requires InRange(entries, order)
    requires k < |order| && Claims(Claimed(entries[order[k]]), p)
    ensures FirstCover(entries, order, p, m)
  {
    if l :| 0 <= l < k && Claims(Claimed(entries[order[l]]), p) {
      m := LeastCover(entries, order, p, l);
    } else {
      m := k;
    }
  }

  // ------------------------------------------------------------ the patch

  datatype Op =
    | TestEntry(i: nat, e: Entry)
    | TestManager(i: nat, manager: string)
    | TestOperation(i: nat, operation: string)
    | TestFields(i: nat, fields: Fields)
    | TestSubresource(i: nat, subresource: string)
    | Remove(i: nat)

  predicate Holds(list: seq<Entry>, op: Op)
  {
    op.i < |list| &&
    var e := list[op.i];
    match op
    case TestEntry(_, v) => e == v
    case TestManager(_, v) => e.manager == v
    case TestOperation(_, v) => e.operation == v
    case TestFields(_, v) => e.fields == v
    case TestSubresource(_, v) => e.subresource == v
    case Remove(_) => true
  }

  /** The patched list, or None as soon as one operation fails. */
  function ApplyPatch(list: seq<Entry>, ops: seq<Op>): Option<seq<Entry>>
    decreases |ops|
  {
    if ops == [] then Some(list)
    else if !Holds(list, ops[0]) then None
    else if ops[0].Remove? then ApplyPatch(list[..ops[0].i] + list[ops[0].i + 1..], ops[1..])
    else ApplyPatch(list, ops[1..])
  }

  function OpsAt(e: Entry, i: nat, remove: set<nat>, guard: set<nat>): seq<Op>
  {
    if i in remove then [TestEntry(i, e), Remove(i)]
    else if i in guard then
      [TestManager(i, e.manager), TestOperation(i, e.operation), TestFields(i, e.fields)] +
      if e.subresource != "" then [TestSubresource(i, e.subresource)] else []
    else []
  }

  /** The operations for the entries below `n`, highest index first. */
  function PatchOps(entries: seq<Entry>, remove: set<nat>, guard: set<nat>, n: nat): seq<Op>
    requires n <= |entries|
  {
    if n == 0 then []
    else OpsAt(entries[n - 1], n - 1, remove, guard) + PatchOps(entries, remove, guard, n - 1)
  }

  /** What the tests of a guard pin down of the stored entry. */
  predicate SameWriter(stored: Entry, read: Entry)
  {
    stored.manager == read.manager && stored.operation == read.operation && stored.fields == read.fields &&
    (read.subresource != "" ==> stored.subresource == read.subresource)
  }

  /** The entries of `list` from index `n` on whose index is not in `drop`, in order. */
  function Surviving(list: seq<Entry>, drop: set<nat>, n: nat): (r: seq<Entry>)
    requires n <= |list|
    decreases |list| - n
  {
    if n == |list| then []
    else (if n in drop then [] else [list[n]]) + Surviving(list, drop, n + 1)
  }

  lemma {:induction false} ApplyTest(list: seq<Entry>, op: Op, rest: seq<Op>)
    requires !op.Remove?
    ensures ApplyPatch(list, [op] + rest) == if Holds(list, op) then ApplyPatch(list, rest) else None
  {
    assert ([op] + rest)[1..] == rest;
  }

  predicate Matches(list: seq<Entry>, e: Entry, i: nat, remove: set<nat>, guard: set<nat>)
  {
    (i in remove ==> i < |list| && list[i] == e) &&
    (i in guard && i !in remove ==> i < |list| && SameWriter(list[i], e))
  }

  lemma {:induction false} ApplyGuard(list: seq<Entry>, e: Entry, i: nat, rest: seq<Op>)
    ensures ApplyPatch(list, OpsAt(e, i, {}, {i}) + rest) ==
            if i < |list| && SameWriter(list[i], e) then ApplyPatch(list, rest) else None
  {
    var last := if e.subresource != "" then [TestSubresource(i, e.subresource)] + rest else rest;
    if e.subresource != "" { ApplyTest(list, TestSubresource(i, e.subresource), rest); }
    ApplyTest(list, TestFields(i, e.fields), last);
    ApplyTest(list, TestOperation(i, e.operation), [TestFields(i, e.fields)] + last);
    ApplyTest(list, TestManager(i, e.manager), [TestOperation(i, e.operation)] + ([TestFields(i, e.fields)] + last));
    assert OpsAt(e, i, {}, {i}) + rest ==
           [TestManager(i, e.manager)] + ([TestOperation(i, e.operation)] + ([TestFields(i, e.fields)] + last));
  }

  lemma {:induction false} ApplyBlock(list: seq<Entry>, e: Entry, i: nat, remove: set<nat>, guard: set<nat>,
                                      rest: seq<Op>)
    ensures ApplyPatch(list, OpsAt(e, i, remove, guard) + rest) ==
            if !Matches(list, e, i, remove, guard) then None
            else if i in remove then ApplyPatch(list[..i] + list[i + 1..], rest)
            else ApplyPatch(list, rest)
  {
    if i in remove {
      ApplyTest(list, TestEntry(i, e), [Remove(i)] + rest);
      assert ([Remove(i)] + rest)[1..] == rest;
      assert OpsAt(e, i, remove, guard) + rest == [TestEntry(i, e)] + ([Remove(i)] + rest);
    } else if i in guard {
      ApplyGuard(list, e, i, rest);
    } else {
      assert [] + rest == rest;
    }
  }

  predicate Unchanged(read: seq<Entry>, stored: seq<Entry>, remove: set<nat>, guard: set<nat>, n: nat)
    requires n <= |read|
  {
    forall i | 0 <= i < n :: Matches(stored, read[i], i, remove, guard)
  }

  /** The list once the operations for the indices from `n` up have been applied. */
  function Patched(stored: seq<Entry>, remove: set<nat>, n: nat): seq<Entry>
  {
    if n <= |stored| then stored[..n] + Surviving(stored, remove, n) else stored
  }

  lemma CutMiddle<T>(a: seq<T>, x: T, b: seq<T>)
    ensures (a + [x] + b)[|a|] == x && (a + [x] + b)[..|a|] == a && (a + [x] + b)[|a| + 1..] == b
    ensures a + [x] + b == a + ([x] + b)
  {
  }

  lemma TakeOneMore<T>(s: seq<T>, i: nat)
    requires i < |s|
    ensures s[..i + 1] == s[..i] + [s[i]]
  {
  }

  lemma {:induction false} PatchedStep(stored: seq<Entry>, remove: set<nat>, i: nat)
    requires i < |stored|
    ensures var list := Patched(stored, remove, i + 1);
            && i < |list| && list[i] == stored[i]
            && Patched(stored, remove, i) == if i in remove then list[..i] + list[i + 1..] else list
  {
    TakeOneMore(stored, i);
    CutMiddle(stored[..i], stored[i], Surviving(stored, remove, i + 1));
  }

  lemma {:induction false} PatchStep(e: Entry, stored: seq<Entry>, i: nat, remove: set<nat>, guard: set<nat>,
                                     rest: seq<Op>)
    ensures ApplyPatch(Patched(stored, remove, i + 1), OpsAt(e, i, remove, guard) + rest) ==
            if Matches(stored, e, i, remove, guard) then ApplyPatch(Patched(stored, remove, i), rest) else None
  {
    ApplyBlock(Patched(stored, remove, i + 1), e, i, remove, guard, rest);
    if i < |stored| {
      PatchedStep(stored, remove, i);
    } else if i == |stored| {
      assert Patched(stored, remove, i) == stored;
    }
  }

  /** The outcome of the operations below `n`, one tested index after the other. */
  function TestedDown(read: seq<Entry>, stored: seq<Entry>, remove: set<nat>, guard: set<nat>,
                      n: nat): Option<seq<Entry>>
    requires n <= |read|
  {
    if n == 0 then Some(Surviving(stored, remove, 0))
    else if Matches(stored, read[n - 1], n - 1, remove, guard) then TestedDown(read, stored, remove, guard, n - 1)
    else None
  }

  lemma {:induction false} PatchFrom(read: seq<Entry>, stored: seq<Entry>, remove: set<nat>, guard: set<nat>, n: nat)
    requires n <= |read|
    ensures ApplyPatch(Patched(stored, remove, n), PatchOps(read, remove, guard, n)) ==
            TestedDown(read, stored, remove, guard, n)
    decreases n
  {
    if n == 0 {
      assert Patched(stored, remove, 0) == Surviving(stored, remove, 0);
    } else {
      var i := n - 1;
      var e := read[i];
      var rest := PatchOps(read, remove, guard, i);
      assert PatchOps(read, remove, guard, n) == OpsAt(e, i, remove, guard) + rest;
      PatchStep(e, stored, i, remove, guard, rest);
      PatchFrom(read, stored, remove, guard, i);
    }
  }

  lemma {:induction false} TestedDownEnds(read: seq<Entry>, stored: seq<Entry>, remove: set<nat>, guard: set<nat>,
                                          n: nat)
    requires n <= |read|
    ensures TestedDown(read, stored, remove, guard, n) ==
            if Unchanged(read, stored, remove, guard, n) then Some(Surviving(stored, remove, 0)) else None
    decreases n
  {
    if n > 0 { TestedDownEnds(read, stored, remove, guard, n - 1); }
  }

  lemma {:induction false} NothingAbove(stored: seq<Entry>, remove: set<nat>, n: nat)
    requires n <= |stored| && forall i | i in remove :: i < n
    ensures Surviving(stored, remove, n) == stored[n..]
    decreases |stored| - n
  {
    if n < |stored| { NothingAbove(stored, remove, n + 1); }
  }

  /**
    The descending order makes every index in the patch mean its index in the stored
    list: the patch applies exactly when nothing it tests has changed, and then it drops
    exactly the chosen entries and keeps the order of all others.
   */
  lemma {:induction false} PatchEffect(read: seq<Entry>, stored: seq<Entry>, remove: set<nat>, guard: set<nat>)
    requires forall i | i in remove :: i < |read|
    ensures ApplyPatch(stored, PatchOps(read, remove, guard, |read|)) ==
            if Unchanged(read, stored, remove, guard, |read|) then Some(Surviving(stored, remove, 0)) else None
  {
    if |read| <= |stored| { NothingAbove(stored, remove, |read|); }
    assert Patched(stored, remove, |read|) == stored;
    PatchFrom(read, stored, remove, guard, |read|);
    TestedDownEnds(read, stored, remove, guard, |read|);
  }

  // ------------------------------------------------------------ safety

  ghost predicate Decided(entries: seq<Entry>, remove: set<nat>, guard: set<nat>)
  {
    (forall i :: i in remove <==> Removable(entries, i)) && (forall j :: j in guard <==> IsGuard(entries, j))
  }

  lemma {:induction false} Survives(list: seq<Entry>, drop: set<nat>, n: nat, i: nat)
    requires n <= i < |list| && i !in drop
    ensures list[i] in Surviving(list, drop, n)
    decreases |list| - n
  {
    if n < i { Survives(list, drop, n + 1, i); }
  }

  /**
    Whatever happened to the list in between: if the patch is accepted it removes exactly
    the chosen entries, all of them leftovers, and every field that had an owner still has one.
   */
  lemma NoFieldLosesItsOwner(read: seq<Entry>, stored: seq<Entry>, remove: set<nat>, guard: set<nat>,
                             result: seq<Entry>)
    requires Decided(read, remove, guard)
    requires ApplyPatch(stored, PatchOps(read, remove, guard, |read|)) == Some(result)
    ensures result == Surviving(stored, remove, 0)
    ensures forall i | i in remove :: i < |stored| && IsLegacy(stored[i])
    ensures forall k, p | 0 <= k < |stored| && NeedsOwner(stored[k], p) ::
              exists e | e in result :: Claims(Claimed(e), p)
  {
    Accepted(read, stored, remove, guard, result);
    forall i | i in remove ensures i < |stored| && IsLegacy(stored[i]) {
      assert Matches(stored, read[i], i, remove, guard);
    }
    forall k, p | 0 <= k < |stored| && NeedsOwner(stored[k], p)
      ensures exists e | e in result :: Claims(Claimed(e), p)
    {
      OwnerSurvives(read, stored, remove, guard, k, p);
    }
  }

  lemma Accepted(read: seq<Entry>, stored: seq<Entry>, remove: set<nat>, guard: set<nat>, result: seq<Entry>)
    requires Decided(read, remove, guard)
    requires ApplyPatch(stored, PatchOps(read, remove, guard, |read|)) == Some(result)
    ensures Unchanged(read, stored, remove, guard, |read|) && result == Surviving(stored, remove, 0)
  {
    PatchEffect(read, stored, remove, guard);
  }

  lemma OwnerSurvives(read: seq<Entry>, stored: seq<Entry>, remove: set<nat>, guard: set<nat>, k: nat, p: Path)
    requires Decided(read, remove, guard) && Unchanged(read, stored, remove, guard, |read|)
    requires k < |stored| && NeedsOwner(stored[k], p)
    ensures exists e | e in Surviving(stored, remove, 0) :: Claims(Claimed(e), p)
  {
    if k !in remove {
      assert Claims(Claimed(stored[k]), p);
      Survives(stored, remove, 0, k);
    } else {
      assert Removable(read, k) && Matches(stored, read[k], k, remove, guard);
      var j: nat :| Guards(read, p, j);
      GuardCovers(read, p, j);
      assert IsGuard(read, j) && j !in remove;
      assert Matches(stored, read[j], j, remove, guard);
      Survives(stored, remove, 0, j);
    }
  }

  /** An unchanged list accepts the patch. */
  lemma FreshReadAccepted(read: seq<Entry>, remove: set<nat>, guard: set<nat>)
    requires Decided(read, remove, guard)
    ensures ApplyPatch(read, PatchOps(read, remove, guard, |read|)) == Some(Surviving(read, remove, 0))
  {
    PatchEffect(read, read, remove, guard);
    forall i | 0 <= i < |read| ensures Matches(read, read[i], i, remove, guard) {}
  }

  /**
    The tests of a guard do not pin an absent subresource: the stored guard has itself
    become a leftover exactly when a main-resource entry of one of the two shared names
    moved to the status subresource.
   */
  lemma GuardTurnsLegacyIff(read: Entry, stored: Entry)
    requires !IsLegacy(read) && SameWriter(stored, read)
    ensures IsLegacy(stored) <==> TurnedLegacy(read, stored)
  {
  }

  /** The stored entry has become a leftover although every test of the guard passes. */
  predicate TurnedLegacy(read: Entry, stored: Entry)
  {
    read.subresource == "" && stored.subresource == "status" &&
    (read.manager == CHILD_WRITER || read.manager == RESOURCE_HANDLER)
  }

  /**
    Each path of a removed entry keeps the very cover that was chosen for it, and that
    cover is a current entry exactly unless it turned legacy in between.
   */
  lemma GuardSurvives(read: seq<Entry>, stored: seq<Entry>, remove: set<nat>, guard: set<nat>, i: nat, p: Path)
    returns (j: nat)
    requires Decided(read, remove, guard) && Unchanged(read, stored, remove, guard, |read|)
    requires i in remove && NeedsOwner(read[i], p)
    ensures Guards(read, p, j) && j < |read| && j < |stored|
    ensures stored[j] in Surviving(stored, remove, 0) && Claims(Claimed(stored[j]), p)
    ensures IsLegacy(stored[j]) <==> TurnedLegacy(read[j], stored[j])
  {
    assert Removable(read, i);
    j :| Guards(read, p, j);
    GuardCovers(read, p, j);
    assert IsGuard(read, j) && j !in remove;
    assert Matches(stored, read[j], j, remove, guard);
    Survives(stored, remove, 0, j);
    GuardTurnsLegacyIff(read[j], stored[j]);
  }

  lemma {:induction false} SurvivorWasThere(list: seq<Entry>, drop: set<nat>, n: nat, e: Entry) returns (k: nat)
    requires n <= |list| && e in Surviving(list, drop, n)
    ensures n <= k < |list| && k !in drop && list[k] == e
    decreases |list| - n
  {
    if n !in drop && list[n] == e { k := n; } else { k := SurvivorWasThere(list, drop, n + 1, e); }
  }

  /** Tidying once leaves nothing to tidy. */
  lemma NothingLeftToTidy(read: seq<Entry>, remove: set<nat>, guard: set<nat>, i: nat)
    requires Decided(read, remove, guard)
    ensures !Removable(Surviving(read, remove, 0), i)
  {
    var rest := Surviving(read, remove, 0);
    if i < |rest| && IsLegacy(rest[i]) && Preference(rest) != [] {
      var k := SurvivorWasThere(read, remove, 0, rest[i]);
      var c := Preference(rest)[0];
      assert c in Preference(rest);
      var c' := SurvivorWasThere(read, remove, 0, rest[c]);
      assert c' in Preference(read);
      assert !Removable(read, k);
      var p :| NeedsOwner(read[k], p) && !exists j :: Guards(read, p, j);
      forall j: nat ensures !Guards(rest, p, j) {
        if Guards(rest, p, j) { GuardWasThere(read, remove, p, j); }
      }
    }
  }

  lemma GuardWasThere(read: seq<Entry>, remove: set<nat>, p: Path, j: nat)
    requires Guards(Surviving(read, remove, 0), p, j)
    ensures exists k :: Guards(read, p, k)
  {
    var rest := Surviving(read, remove, 0);
    GuardCovers(rest, p, j);
    var k := SurvivorWasThere(read, remove, 0, rest[j]);
    GuardExists(read, p, k);
  }

  // ------------------------------------------------------------ a guard that turned legacy

  const READY_PATH: Path := [FieldName("status"), FieldName("ready")]
  const READY_SET := FieldSet({}, map[FieldName("status") := FieldSet({FieldName("ready")}, map[])])
  const LEFTOVER := Entry("multigres-operator-guard", "Apply", "status", Raw(READY_SET), "")
  const SHARED := Entry(CHILD_WRITER, "Apply", "", Raw(READY_SET), "")

  /** Only the one path is claimed. */
  lemma OneClaim(p: Path)
    ensures Has(READY_SET, p) <==> p == READY_PATH
  {
    if |p| >= 2 && p[0] == FieldName("status") {
      var sub := READY_SET.children[p[0]];
      assert Has(READY_SET, p) <==> Has(sub, p[1..]);
      if |p| == 2 { assert p[1..] == [p[1]]; }
    }
  }

  lemma SharedGuards()
    ensures Guards([LEFTOVER, SHARED], READY_PATH, 1)
    ensures forall p, j | NeedsOwner(LEFTOVER, p) && Guards([LEFTOVER, SHARED], p, j) :: j == 1
    ensures Removable([LEFTOVER, SHARED], 0)
  {
    var read := [LEFTOVER, SHARED];
    OneClaim(READY_PATH);
    assert Claims(Claimed(SHARED), READY_PATH);
    assert 1 in Preference(read);
    GuardExists(read, READY_PATH, 1);
    var j :| Guards(read, READY_PATH, j);
    GuardCovers(read, READY_PATH, j);
    forall p | NeedsOwner(LEFTOVER, p) ensures p == READY_PATH { OneClaim(p); }
    forall p, k | NeedsOwner(LEFTOVER, p) && Guards(read, p, k) ensures k == 1 { GuardCovers(read, p, k); }
  }

  lemma SharedDecided()
    ensures Decided([LEFTOVER, SHARED], {0}, {1})
  {
    var read := [LEFTOVER, SHARED];
    SharedGuards();
    OneClaim(READY_PATH);
    assert NeedsOwner(read[0], READY_PATH);
    forall i: nat ensures i in {0} <==> Removable(read, i) {}
    forall j: nat ensures j in {1} <==> IsGuard(read, j) {}
  }

  lemma MovedAccepted(moved: Entry)
    requires moved == SHARED.(subresource := "status")
    ensures ApplyPatch([LEFTOVER, moved], PatchOps([LEFTOVER, SHARED], {0}, {1}, 2)) == Some([moved])
  {
    var read, stored := [LEFTOVER, SHARED], [LEFTOVER, moved];
    PatchEffect(read, stored, {0}, {1});
    forall i | 0 <= i < 2 ensures Matches(stored, read[i], i, {0}, {1}) {}
    assert Surviving(stored, {0}, 2) == [];
    assert Surviving(stored, {0}, 1) == [moved];
    assert Surviving(stored, {0}, 0) == [moved];
  }

  /** A stored list where it happens: the patch is accepted and the only cover left is a leftover. */
  lemma GuardCanTurnLegacy()
    ensures exists read, stored, e: Entry :: Decided(read, {0}, {1}) &&
              ApplyPatch(stored, PatchOps(read, {0}, {1}, |read|)) == Some([e]) && IsLegacy(e)
  {
    var moved := SHARED.(subresource := "status");
    SharedDecided();
    MovedAccepted(moved);
    assert IsLegacy(moved) && |[LEFTOVER, SHARED]| == 2;
  }

  // ------------------------------------------------------------ DropLegacy

  datatype Outcome = DecodeError | NothingToDo | Patch(ops: seq<Op>)

  method FirstCovering(entries: seq<Entry>, order: seq<nat>, p: Path) returns (k: nat)
    requires InRange(entries, order)
    ensures k <= |order|
    ensures k < |order| ==> FirstCover(entries, order, p, k)
    ensures k == |order| ==> forall l | 0 <= l < |order| :: !Claims(Claimed(entries[order[l]]), p)
  {
    k := 0;
    while k < |order|
      invariant k <= |order|
      invariant forall l | 0 <= l < k :: !Claims(Claimed(entries[order[l]]), p)
    {
      var c := Covers(Claimed(entries[order[k]]), p);
      if c { return; }
      k := k + 1;
    }
  }

  ghost predicate CoveredUpTo(entries: seq<Entry>, ps: seq<Path>, n: nat)
    requires n <= |ps|
  {
    forall t | 0 <= t < n && !IsStatusRoot(ps[t]) :: exists j :: Guards(entries, ps[t], j)
  }

  ghost predicate UsedUpTo(entries: seq<Entry>, ps: seq<Path>, n: nat, j: nat)
    requires n <= |ps|
  {
    exists t | 0 <= t < n :: !IsStatusRoot(ps[t]) && Guards(entries, ps[t], j)
  }

  /** Whether entry `i` may go, and which current entries stand in for it. */
  method Judge(entries: seq<Entry>, order: seq<nat>, i: nat) returns (covered: bool, used: set<nat>)
    requires i < |entries| && order == Preference(entries) != [] && IsLegacy(entries[i])
    ensures covered <==> Removable(entries, i)
    ensures covered ==> forall j :: j in used <==> exists p :: NeedsOwner(entries[i], p) && Guards(entries, p, j)
  {
    var ps := Iterate(Claimed(entries[i]));
    covered, used := true, {};
    for t := 0 to |ps|
      invariant covered <==> CoveredUpTo(entries, ps, t)
      invariant covered ==> forall j :: j in used <==> UsedUpTo(entries, ps, t, j)
    {
      if covered && !IsStatusRoot(ps[t]) {
        var k := FirstCovering(entries, order, ps[t]);
        if k == |order| {
          covered := false;
        } else {
          assert Guards(entries, ps[t], order[k]);
          forall j | Guards(entries, ps[t], j) ensures j == order[k] { GuardUnique(entries, ps[t], j, order[k]); }
          ghost var before := used;
          used := used + {order[k]};
          forall j ensures j in used <==> UsedUpTo(entries, ps, t + 1, j) {
            assert j in before <==> UsedUpTo(entries, ps, t, j);
          }
        }
      }
    }
    forall t | 0 <= t < |ps| ensures Has(Claimed(entries[i]), ps[t]) { assert ps[t] in ps; }
    if covered {
      forall p | NeedsOwner(entries[i], p) ensures exists j :: Guards(entries, p, j) { assert p in ps; }
      forall j, p | NeedsOwner(entries[i], p) && Guards(entries, p, j) ensures UsedUpTo(entries, ps, |ps|, j) {
        assert p in ps;
      }
    } else {
      ghost var t :| 0 <= t < |ps| && !IsStatusRoot(ps[t]) && !exists j :: Guards(entries, ps[t], j);
      assert NeedsOwner(entries[i], ps[t]);
    }
  }

  ghost predicate GuardUpTo(entries: seq<Entry>, n: nat, j: nat)
  {
    exists i: nat, p :: i < n && Removable(entries, i) && NeedsOwner(entries[i], p) && Guards(entries, p, j)
  }

  method Decide(entries: seq<Entry>, order: seq<nat>) returns (remove: set<nat>, guard: set<nat>)
    requires order == Preference(entries) != []
    ensures Decided(entries, remove, guard)
  {
    remove, guard := {}, {};
    for i := 0 to |entries|
      invariant forall l: nat :: l in remove <==> l < i && Removable(entries, l)
      invariant forall j: nat :: j in guard <==> GuardUpTo(entries, i, j)
    {
      if IsLegacy(entries[i]) {
        var covered, used := Judge(entries, order, i);
        if covered {
          remove := remove + {i};
          guard := guard + used;
        }
      }
      forall j: nat ensures j in guard <==> GuardUpTo(entries, i + 1, j) { GuardOneMore(entries, i, j); }
    }
    forall j: nat ensures GuardUpTo(entries, |entries|, j) <==> IsGuard(entries, j) {}
  }

  lemma Regroup<T>(a: seq<T>, b: seq<T>, c: seq<T>)
    ensures a + (b + c) == (a + b) + c
  {
  }

  method BuildPatch(entries: seq<Entry>, remove: set<nat>, guard: set<nat>) returns (ops: seq<Op>)
    ensures ops == PatchOps(entries, remove, guard, |entries|)
  {
    ops := [];
    var i := |entries|;
    while i > 0
      invariant 0 <= i <= |entries|
      invariant PatchOps(entries, remove, guard, |entries|) == ops + PatchOps(entries, remove, guard, i)
    {
      i := i - 1;
      var block := OpsAt(entries[i], i, remove, guard);
      ghost var rest := PatchOps(entries, remove, guard, i);
      assert PatchOps(entries, remove, guard, i + 1) == block + rest;
      Regroup(ops, block, rest);
      ops := ops + block;
    }
  }

  method DropLegacy(entries: seq<Entry>) returns (r: Outcome, remove: set<nat>, guard: set<nat>)
    ensures r == DecodeError <==> !Decodable(entries)
    ensures Decodable(entries) ==> Decided(entries, remove, guard)
    ensures Decodable(entries) ==>
              r == if remove == {} then NothingToDo else Patch(PatchOps(entries, remove, guard, |entries|))
  {
    for i := 0 to |entries|
      invariant forall l | 0 <= l < i :: !entries[l].fields.Garbage?
    {
      if entries[i].fields.Garbage? { return DecodeError, {}, {}; }
    }
    var order := Preference(entries);
    if order == [] { return NothingToDo, {}, {}; }
    remove, guard := Decide(entries, order);
    if remove == {} { return NothingToDo, remove, guard; }
    var ops := BuildPatch(entries, remove, guard);
    return Patch(ops), remove, guard;
  }

  lemma GuardOneMore(entries: seq<Entry>, i: nat, j: nat)
    requires i < |entries|
    ensures GuardUpTo(entries, i + 1, j) <==>
            GuardUpTo(entries, i, j) ||
            (Removable(entries, i) && exists p :: NeedsOwner(entries[i], p) && Guards(entries, p, j))
  {
  }
}
