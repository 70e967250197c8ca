/** MarkOrphan and ClearOrphan on the caller's copy of a PersistentVolumeClaim. */
module OrphanLabels {
  import opened Options

  const ORPHAN_LABEL := "multigres.com/orphan-since"

  datatype Copy = Copy(labels: map<string, string>, owners: seq<string>, terminating: bool, version: string)

  /** A JSON merge patch; `onlyVersion` is its resourceVersion precondition, if any. */
  datatype MergePatch = MergePatch(
    onlyVersion: Option<string>, orphanSince: Option<string>, clearsOrphan: bool, owners: Option<seq<string>>)

  datatype ClearError = Terminating | Refused

  function Disown(owners: seq<string>, uid: string): seq<string>
  {
    if owners == [] then []
    else (if owners[0] == uid then [] else [owners[0]]) + Disown(owners[1..], uid)
  }

  function Marked(c: Copy, uid: string, stamp: string): Copy
  {
    c.(labels := if ORPHAN_LABEL in c.labels then c.labels else c.labels[ORPHAN_LABEL := stamp],
       owners := if uid == "" then c.owners else Disown(c.owners, uid))
  }

  function MarkPatch(c: Copy, uid: string, stamp: string): Option<MergePatch>
  {
    var m := Marked(c, uid, stamp);
    if m == c then None
    else Some(MergePatch(None, if ORPHAN_LABEL in c.labels then None else Some(stamp), false,
                         if m.owners == c.owners then None else Some(m.owners)))
  }

  lemma {:induction false} DisownDrops(owners: seq<string>, uid: string)
    ensures uid !in Disown(owners, uid)
    ensures |Disown(owners, uid)| == |owners| <==> uid !in owners
    ensures |Disown(owners, uid)| <= |owners|
    ensures uid !in owners ==> Disown(owners, uid) == owners
  {
    if owners != [] { DisownDrops(owners[1..], uid); }
  }

  /** The filter decides reference by reference, in order. */
  lemma {:induction false} DisownIsFilter(a: seq<string>, b: seq<string>, uid: string)
    ensures Disown(a + b, uid) == Disown(a, uid) + Disown(b, uid)
  {
    if a == [] {
      assert a + b == b;
    } else {
      var kept := if a[0] == uid then [] else [a[0]];
      calc {
        Disown(a + b, uid);
      == { assert (a + b)[1..] == a[1..] + b; DisownFirst(a + b, uid); }
        kept + Disown(a[1..] + b, uid);
      == { DisownIsFilter(a[1..], b, uid); }
        kept + (Disown(a[1..], uid) + Disown(b, uid));
      == { Regroup(kept, Disown(a[1..], uid), Disown(b, uid)); }
        (kept + Disown(a[1..], uid)) + Disown(b, uid);
      == { DisownFirst(a, uid); }
        Disown(a, uid) + Disown(b, uid);
      }
    }
  }

  lemma DisownFirst(owners: seq<string>, uid: string)
    requires owners != []
    ensures Disown(owners, uid) == (if owners[0] == uid then [] else [owners[0]]) + Disown(owners[1..], uid)
  {
  }

  lemma Regroup(a: seq<string>, b: seq<string>, c: seq<string>)
    ensures a + (b + c) == (a + b) + c
  {
  }

  // ------------------------------------------------------------ what the server does with a patch

  /** The stored claim after a merge patch; no answer when its version precondition fails. */
  function Patched(stored: Copy, p: MergePatch): Option<Copy>
  {
    if p.onlyVersion.Some? && p.onlyVersion.value != stored.version then None
    else
      var labels := if p.orphanSince.Some? then stored.labels[ORPHAN_LABEL := p.orphanSince.value]
                    else if p.clearsOrphan then stored.labels - {ORPHAN_LABEL} else stored.labels;
      Some(stored.(labels := labels, owners := if p.owners.Some? then p.owners.value else stored.owners))
  }

  /** On the claim as it was read, MarkOrphan's patch makes exactly the copy the caller is left with. */
  lemma MarkPatchMakesTheCopy(c: Copy, uid: string, stamp: string)
    ensures MarkPatch(c, uid, stamp).Some? ==> Patched(c, MarkPatch(c, uid, stamp).value) == Some(Marked(c, uid, stamp))
    ensures MarkPatch(c, uid, stamp).None? ==> Marked(c, uid, stamp) == c
  {
    DisownDrops(c.owners, uid);
  }

  /** On a claim that changed since, it is still taken, and leaves every other label alone. */
  lemma MarkPatchIsUnconditional(c: Copy, uid: string, stamp: string, stored: Copy)
    requires MarkPatch(c, uid, stamp).Some?
    ensures var after := Patched(stored, MarkPatch(c, uid, stamp).value);
            && after.Some? && after.value.labels - {ORPHAN_LABEL} == stored.labels - {ORPHAN_LABEL}
            && (ORPHAN_LABEL !in c.labels ==>
                  ORPHAN_LABEL in after.value.labels && after.value.labels[ORPHAN_LABEL] == stamp)
            && (ORPHAN_LABEL in c.labels ==> after.value.labels == stored.labels)
  {
  }

  /** ClearOrphan's patch. */
  function ClearPatch(c: Copy): Option<MergePatch>
  {
    if c.terminating || ORPHAN_LABEL !in c.labels then None else Some(MergePatch(Some(c.version), None, true, None))
  }

  /** It is taken only on the very version that was read, and then only the label goes. */
  lemma ClearPatchIsConditional(c: Copy, stored: Copy)
    requires ClearPatch(c).Some?
    ensures Patched(stored, ClearPatch(c).value) ==
            if stored.version == c.version then Some(stored.(labels := stored.labels - {ORPHAN_LABEL})) else None
  {
  }

  /** Marking again, at any later time, sends nothing and keeps the first timestamp. */
  lemma MarkIsIdempotent(c: Copy, uid: string, first: string, later: string)
    ensures MarkPatch(Marked(c, uid, first), uid, later) == None
    ensures Marked(Marked(c, uid, first), uid, later) == Marked(c, uid, first)
    ensures ORPHAN_LABEL in c.labels ==> Marked(c, uid, first).labels == c.labels
  {
    DisownDrops(c.owners, uid);
    DisownDrops(Disown(c.owners, uid), uid);
  }

  /** Nothing is sent exactly when the label is there and no owner reference is to go. */
  lemma NothingSentIff(c: Copy, uid: string, stamp: string)
    ensures MarkPatch(c, uid, stamp) == None <==> ORPHAN_LABEL in c.labels && (uid == "" || uid !in c.owners)
  {
    DisownDrops(c.owners, uid);
    if ORPHAN_LABEL !in c.labels { assert ORPHAN_LABEL in Marked(c, uid, stamp).labels; }
  }

  /**
    The caller's copy is what it was exactly when there was nothing to send; so whenever
    a patch is refused the copy shows changes that the server does not have.
   */
  lemma CopyKeptIff(c: Copy, uid: string, stamp: string)
    ensures Marked(c, uid, stamp) == c <==> ORPHAN_LABEL in c.labels && (uid == "" || uid !in c.owners)
    ensures MarkPatch(c, uid, stamp).Some? ==> Marked(c, uid, stamp) != c
  {
    NothingSentIff(c, uid, stamp);
  }

  /** Such a copy: not labelled yet, with no owner to strip. */
  lemma RefusedMarkShows()
    ensures var c := Copy(map[], [], false, "1");
            MarkPatch(c, "", "0").Some? && Marked(c, "", "0").labels == map[ORPHAN_LABEL := "0"]
  {
    NothingSentIff(Copy(map[], [], false, "1"), "", "0");
  }

  method FilterOwners(owners: seq<string>, uid: string) returns (filtered: seq<string>)
    ensures filtered == Disown(owners, uid)
  {
    filtered := [];
    for i := 0 to |owners|
      invariant filtered + Disown(owners[i..], uid) == Disown(owners, uid)
    {
      assert owners[i..][1..] == owners[i + 1..];
      if owners[i] == uid { continue; }
      filtered := filtered + [owners[i]];
    }
  }

  class PersistentVolumeClaim {
    var labels: map<string, string>
    var owners: seq<string>
    var terminating: bool
    var version: string

    function View(): Copy
      reads this
    {
      Copy(labels, owners, terminating, version)
    }

    /**
      The copy is changed before the patch is sent and stays changed when the server
      refuses it, although the source's comment says otherwise.
     */
    method MarkOrphan(uid: string, stamp: string, accepts: bool) returns (sent: Option<MergePatch>, ok: bool)
      modifies this`labels, this`owners
      ensures View() == Marked(old(View()), uid, stamp)
      ensures sent == MarkPatch(old(View()), uid, stamp)
      ensures ok <==> sent.None? || accepts
      ensures !ok ==> View() != old(View())
    {
      var mutated := false;
      var since := None;
      if ORPHAN_LABEL !in labels {
        labels := labels[ORPHAN_LABEL := stamp];
        since := Some(stamp);
        mutated := true;
        assert ORPHAN_LABEL in labels;
      }
      var kept := None;
      if uid != "" {
        var filtered := FilterOwners(owners, uid);
        DisownDrops(owners, uid);
        if |filtered| != |owners| {
          owners := filtered;
          kept := Some(filtered);
          mutated := true;
        }
      }
      if !mutated { return None, true; }
      return Some(MergePatch(None, since, false, kept)), accepts;
    }

    /** On any refusal the copy is what it was; otherwise the label is gone under this very version. */
    method ClearOrphan(accepts: bool) returns (sent: Option<MergePatch>, error: Option<ClearError>)
      modifies this`labels
      ensures error == Some(Terminating) <==> old(terminating)
      ensures error.Some? ==> View() == old(View())
      ensures error.None? ==> View() == old(View()).(labels := old(labels) - {ORPHAN_LABEL})
      ensures sent == ClearPatch(old(View()))
      ensures error == Some(Refused) <==> sent.Some? && !accepts
    {
      if terminating { return None, Some(Terminating); }
      if ORPHAN_LABEL !in labels {
        assert labels - {ORPHAN_LABEL} == labels;
        return None, None;
      }
      var since := labels[ORPHAN_LABEL];
      sent := Some(MergePatch(Some(version), None, true, None));
      labels := labels - {ORPHAN_LABEL};
      if !accepts {
        labels := labels[ORPHAN_LABEL := since];
        return sent, Some(Refused);
      }
      return sent, None;
    }
  }
}
