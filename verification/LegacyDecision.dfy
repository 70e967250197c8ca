/** Which leftover entries go, which entries stand in for them, and when the patch is accepted, spelled out. */
module LegacyDecision {
  import opened Options
  import opened FieldPaths
  import opened LegacyTidy

  // ------------------------------------------------------------ the entries

  /** An entry this operator no longer writes. */
  predicate Leftover(e: Entry)
  {
    e.manager == "multigres-resource-handler-guard" || e.manager == "multigres-resource-handler-readiness" ||
    e.manager == "multigres-operator-guard" ||
    ((e.manager == "multigres-operator" || e.manager == "multigres-resource-handler") && e.subresource == "status")
  }

  lemma LegacyIff(e: Entry)
    ensures IsLegacy(e) <==> Leftover(e)
  {
  }

  predicate Own(e: Entry) { e.manager in STATUS_MANAGERS }

  /** A current entry that claims the path or something below it. */
  ghost predicate Covering(entries: seq<Entry>, j: nat, p: Path)
  {
    j < |entries| && !IsLegacy(entries[j]) && Claims(Claimed(entries[j]), p)
  }

  // ------------------------------------------------------------ the order of preference

  lemma {:induction false} SelectAscending(entries: seq<Entry>, pick: Entry -> bool, n: nat, k: nat, l: nat)
    requires n <= |entries| && k < l < |Select(entries, pick, n)|
    ensures Select(entries, pick, n)[k] < Select(entries, pick, n)[l]
  {
    var before := Select(entries, pick, n - 1);
    if l < |before| { SelectAscending(entries, pick, n - 1, k, l); } else { assert before[k] in before; }
  }

  /** Every entry of this operator stands before every foreign one, and each half is in list order. */
  lemma PreferenceIsOrdered(entries: seq<Entry>, k: nat, l: nat)
    requires k < l < |Preference(entries)|
    ensures var a, b := Preference(entries)[k], Preference(entries)[l];
            && a < |entries| && b < |entries| && (Own(entries[b]) ==> Own(entries[a]))
            && (Own(entries[a]) == Own(entries[b]) ==> a < b)
  {
    var own, foreign := Select(entries, IsOwn, |entries|), Select(entries, IsForeign, |entries|);
    var order := Preference(entries);
    assert order == own + foreign;
    assert order[k] in order && order[l] in order;
    if l < |own| {
      assert own[k] in own && own[l] in own;
      SelectAscending(entries, IsOwn, |entries|, k, l);
    } else if k >= |own| {
      assert foreign[k - |own|] in foreign && foreign[l - |own|] in foreign;
      SelectAscending(entries, IsForeign, |entries|, k - |own|, l - |own|);
    } else {
      assert own[k] in own && foreign[l - |own|] in foreign;
    }
  }

  /** The first of this operator's entries that covers the path; without one, the first foreign entry that does. */
  ghost predicate Preferred(entries: seq<Entry>, p: Path, j: nat)
  {
    && Covering(entries, j, p)
    && (forall i: nat | i < |entries| && Own(entries[i]) && Covering(entries, i, p) :: Own(entries[j]) && j <= i)
    && (forall i: nat | Covering(entries, i, p) && Own(entries[i]) == Own(entries[j]) :: j <= i)
  }

  lemma GuardIsPreferred(entries: seq<Entry>, p: Path, j: nat)
    requires Guards(entries, p, j)
    ensures Preferred(entries, p, j)
  {
    var order := Preference(entries);
    GuardCovers(entries, p, j);
    var k: nat :| FirstCover(entries, order, p, k) && order[k] == j;
    forall i: nat | Covering(entries, i, p)
      ensures (Own(entries[i]) ==> Own(entries[j])) && (Own(entries[i]) == Own(entries[j]) ==> j <= i)
    {
      assert i in order;
      var l :| 0 <= l < |order| && order[l] == i;
      assert k <= l;
      if k < l { PreferenceIsOrdered(entries, k, l); }
    }
  }

  lemma OnePreferred(entries: seq<Entry>, p: Path, j: nat, k: nat)
    requires Preferred(entries, p, j) && Preferred(entries, p, k)
    ensures j == k
  {
    assert Own(entries[j]) == Own(entries[k]);
  }

  /** The guard of a path is that entry and no other: foreign only when no own entry covers the path. */
  lemma GuardIff(entries: seq<Entry>, p: Path, j: nat)
    ensures Guards(entries, p, j) <==> Preferred(entries, p, j)
  {
    if Guards(entries, p, j) {
      GuardIsPreferred(entries, p, j);
    } else if Preferred(entries, p, j) {
      GuardExists(entries, p, j);
      var k: nat :| Guards(entries, p, k);
      GuardIsPreferred(entries, p, k);
      OnePreferred(entries, p, j, k);
    }
  }

  // ------------------------------------------------------------ the decision

  ghost predicate Covered(entries: seq<Entry>, p: Path) { exists j: nat :: Covering(entries, j, p) }

  lemma CoveredIff(entries: seq<Entry>, p: Path)
    ensures (exists j: nat :: Guards(entries, p, j)) <==> Covered(entries, p)
  {
    if j: nat :| Guards(entries, p, j) { GuardCovers(entries, p, j); assert Covering(entries, j, p); }
    if j: nat :| Covering(entries, j, p) { GuardExists(entries, p, j); }
  }

  ghost predicate SomeCurrent(entries: seq<Entry>) { exists c: nat :: c < |entries| && !Leftover(entries[c]) }

  lemma CurrentIff(entries: seq<Entry>)
    ensures Preference(entries) != [] <==> SomeCurrent(entries)
  {
    var order := Preference(entries);
    if order != [] { assert order[0] in order && !Leftover(entries[order[0]]); }
    if c: nat :| c < |entries| && !Leftover(entries[c]) { assert c in order; }
  }

  /** An entry goes exactly when it is left over and current entries cover all it claims but `.status` itself. */
  lemma RemovableIff(entries: seq<Entry>, i: nat)
    ensures Removable(entries, i) <==>
            && i < |entries| && Leftover(entries[i]) && SomeCurrent(entries)
            && (forall p | Has(Claimed(entries[i]), p) && p != [FieldName("status")] :: Covered(entries, p))
  {
    CurrentIff(entries);
    if i < |entries| && IsLegacy(entries[i]) && Preference(entries) != [] {
      if Removable(entries, i) {
        forall p | Has(Claimed(entries[i]), p) && p != [FieldName("status")] ensures Covered(entries, p) {
          assert NeedsOwner(entries[i], p);
          CoveredIff(entries, p);
        }
      } else {
        var p :| NeedsOwner(entries[i], p) && !exists j :: Guards(entries, p, j);
        CoveredIff(entries, p);
      }
    }
  }

  // ------------------------------------------------------------ acceptance

  /** A removed entry is identical; a guard has its manager, operation and fields, and its subresource if it had one. */
  ghost predicate StillTrue(read: seq<Entry>, stored: seq<Entry>, remove: set<nat>, guard: set<nat>)
  {
    && (forall i | i in remove :: i < |read| && i < |stored| && stored[i] == read[i])
    && (forall j | j in guard :: j < |read| && j < |stored| && SameGuard(stored[j], read[j]))
  }

  predicate SameGuard(stored: Entry, read: Entry)
  {
    && stored.manager == read.manager && stored.operation == read.operation && stored.fields == read.fields
    && (read.subresource == "" || stored.subresource == read.subresource)
  }

  lemma GuardsStandApart(read: seq<Entry>, remove: set<nat>, guard: set<nat>, j: nat)
    requires Decided(read, remove, guard) && j in guard
    ensures j < |read| && j !in remove
  {
    var i: nat, p :| Removable(read, i) && NeedsOwner(read[i], p) && Guards(read, p, j);
    GuardCovers(read, p, j);
  }

  lemma UnchangedIff(read: seq<Entry>, stored: seq<Entry>, remove: set<nat>, guard: set<nat>)
    requires (forall i | i in remove :: i < |read|) && (forall j | j in guard :: j < |read| && j !in remove)
    ensures Unchanged(read, stored, remove, guard, |read|) <==> StillTrue(read, stored, remove, guard)
  {
    if Unchanged(read, stored, remove, guard, |read|) {
      assert forall i | i in remove :: Matches(stored, read[i], i, remove, guard);
      assert forall j | j in guard :: Matches(stored, read[j], j, remove, guard);
    }
  }

  /** The patch is accepted exactly when everything the decision rests on is as it was read. */
  lemma AcceptedIff(read: seq<Entry>, stored: seq<Entry>, remove: set<nat>, guard: set<nat>)
    requires Decided(read, remove, guard)
    ensures ApplyPatch(stored, PatchOps(read, remove, guard, |read|)).Some? <==> StillTrue(read, stored, remove, guard)
  {
    forall j | j in guard ensures j < |read| && j !in remove { GuardsStandApart(read, remove, guard, j); }
    PatchEffect(read, stored, remove, guard);
    UnchangedIff(read, stored, remove, guard);
  }
}
