/** One garbage-collector pass over the orphan-labelled claims it listed. */
module OrphanSweep {
  import opened Options

  datatype Item = Item(ns: string, name: string, since: Option<string>, terminating: bool)
  datatype Pod = Pod(name: string, claims: seq<string>)

  /** What the API answers: the pods of each namespace whose List succeeds, and how labels parse. */
  datatype Api = Api(pods: map<string, seq<Pod>>, parse: string -> Option<int>)

  /** How a conditional Delete of a listed claim ends. */
  datatype Reply = Deleted | NotFound | Refused

  datatype Verdict = Malformed | Kept | InUse | Expired | Unknown

  predicate Uses(pods: seq<Pod>, claim: string)
  {
    exists i | 0 <= i < |pods| :: claim in pods[i].claims
  }

  /** Pod names are never empty. */
  predicate Named(api: Api)
  {
    forall ns | ns in api.pods :: forall i | 0 <= i < |api.pods[ns]| :: api.pods[ns][i].name != ""
  }

  function Judge(p: Item, cutoff: int, api: Api): Verdict
  {
    if p.since.None? || api.parse(p.since.value).None? then Malformed
    else if api.parse(p.since.value).value > cutoff || p.terminating then Kept
    else if p.ns !in api.pods then Unknown
    else if Uses(api.pods[p.ns], p.name) then InUse
    else Expired
  }

  datatype Counts = Counts(
    deleted: nat, wouldDelete: nat, skipped: nat, inUse: nat, malformed: nat, errors: nat, gone: nat)

  function Add(t: Counts, v: Verdict, dryRun: bool, reply: Reply): Counts
  {
    match v
    case Malformed => t.(malformed := t.malformed + 1)
    case Kept => t.(skipped := t.skipped + 1)
    case InUse => t.(inUse := t.inUse + 1)
    case Unknown => t
    case Expired =>
      if dryRun then t.(wouldDelete := t.wouldDelete + 1)
      else match reply
        case Deleted => t.(deleted := t.deleted + 1)
        case NotFound => t.(gone := t.gone + 1)
        case Refused => t.(errors := t.errors + 1)
  }

  /** The counters after the first `n` claims. */
  function Tally(items: seq<Item>, cutoff: int, dryRun: bool, api: Api, replies: seq<Reply>, n: nat): Counts
    requires n <= |items| == |replies|
  {
    if n == 0 then Counts(0, 0, 0, 0, 0, 0, 0)
    else Add(Tally(items, cutoff, dryRun, api, replies, n - 1), Judge(items[n - 1], cutoff, api), dryRun,
             replies[n - 1])
  }

  /** The claims a Delete is sent for among the first `n`. */
  function Sent(items: seq<Item>, cutoff: int, dryRun: bool, api: Api, n: nat): seq<Item>
    requires n <= |items|
  {
    if n == 0 then []
    else Sent(items, cutoff, dryRun, api, n - 1) +
         if !dryRun && Judge(items[n - 1], cutoff, api).Expired? then [items[n - 1]] else []
  }

  function Total(t: Counts): nat
  {
    t.deleted + t.wouldDelete + t.skipped + t.inUse + t.malformed + t.errors + t.gone
  }

  function Decided(t: Counts): nat { t.deleted + t.errors + t.gone }

  lemma AddCounts(t: Counts, v: Verdict, dryRun: bool, reply: Reply)
    requires !v.Unknown?
    ensures var u := Add(t, v, dryRun, reply);
            Total(u) == Total(t) + 1 &&
            Decided(u) == Decided(t) + (if !dryRun && v.Expired? then 1 else 0)
  {
  }

  lemma {:induction false} TallyTotal(items: seq<Item>, cutoff: int, dryRun: bool, api: Api, replies: seq<Reply>,
                                      n: nat)
    requires n <= |items| == |replies|
    requires forall i | 0 <= i < n :: !Judge(items[i], cutoff, api).Unknown?
    ensures Total(Tally(items, cutoff, dryRun, api, replies, n)) == n
  {
    if n > 0 {
      TallyTotal(items, cutoff, dryRun, api, replies, n - 1);
      AddCounts(Tally(items, cutoff, dryRun, api, replies, n - 1), Judge(items[n - 1], cutoff, api), dryRun,
                replies[n - 1]);
    }
  }

  lemma {:induction false} TallySent(items: seq<Item>, cutoff: int, dryRun: bool, api: Api, replies: seq<Reply>, n: nat)
    requires n <= |items| == |replies|
    requires forall i | 0 <= i < n :: !Judge(items[i], cutoff, api).Unknown?
    ensures |Sent(items, cutoff, dryRun, api, n)| == Decided(Tally(items, cutoff, dryRun, api, replies, n))
  {
    if n > 0 {
      TallySent(items, cutoff, dryRun, api, replies, n - 1);
      AddCounts(Tally(items, cutoff, dryRun, api, replies, n - 1), Judge(items[n - 1], cutoff, api), dryRun,
                replies[n - 1]);
    }
  }

  lemma {:induction false} DryRunSendsNothing(items: seq<Item>, cutoff: int, api: Api, n: nat)
    requires n <= |items|
    ensures Sent(items, cutoff, true, api, n) == []
  {
    if n > 0 { DryRunSendsNothing(items, cutoff, api, n - 1); }
  }

  /** Every claim handled before an undecidable one is counted once; a vanished one in no counter of the source. */
  lemma EveryClaimCountedOnce(items: seq<Item>, cutoff: int, dryRun: bool, api: Api, replies: seq<Reply>, n: nat)
    requires n <= |items| == |replies|
    requires forall i | 0 <= i < n :: !Judge(items[i], cutoff, api).Unknown?
    ensures var t := Tally(items, cutoff, dryRun, api, replies, n);
            && Total(t) == n
            && |Sent(items, cutoff, dryRun, api, n)| == t.deleted + t.errors + t.gone
            && (dryRun ==> Sent(items, cutoff, dryRun, api, n) == [])
  {
    TallyTotal(items, cutoff, dryRun, api, replies, n);
    TallySent(items, cutoff, dryRun, api, replies, n);
    if dryRun { DryRunSendsNothing(items, cutoff, api, n); }
  }

  // ------------------------------------------------------------ which claim is counted where

  /** The label is missing or does not parse. */
  predicate Unreadable(p: Item, api: Api) { p.since.None? || api.parse(p.since.value).None? }

  /** The label parses to a time that is not after the cutoff. */
  predicate Old(p: Item, cutoff: int, api: Api) { !Unreadable(p, api) && api.parse(p.since.value).value <= cutoff }

  /** Old enough to go and not on its way out already. */
  predicate Candidate(p: Item, cutoff: int, api: Api) { Old(p, cutoff, api) && !p.terminating }

  /** The pods of the claim's namespace were listed, and one of them uses it. */
  predicate Taken(p: Item, api: Api)
  {
    p.ns in api.pods && exists i | 0 <= i < |api.pods[p.ns]| :: p.name in api.pods[p.ns][i].claims
  }

  /** The pods of the claim's namespace were listed, and none of them uses it. */
  predicate Free(p: Item, api: Api)
  {
    p.ns in api.pods && forall i | 0 <= i < |api.pods[p.ns]| :: p.name !in api.pods[p.ns][i].claims
  }

  /** Old enough to go, in a namespace whose pods could not be listed. */
  predicate Undecided(p: Item, cutoff: int, api: Api) { Candidate(p, cutoff, api) && p.ns !in api.pods }

  lemma VerdictIff(p: Item, cutoff: int, api: Api)
    ensures Judge(p, cutoff, api) == Malformed <==> Unreadable(p, api)
    ensures Judge(p, cutoff, api) == Kept <==> !Unreadable(p, api) && !Candidate(p, cutoff, api)
    ensures Judge(p, cutoff, api) == Unknown <==> Undecided(p, cutoff, api)
    ensures Judge(p, cutoff, api) == InUse <==> Candidate(p, cutoff, api) && Taken(p, api)
    ensures Judge(p, cutoff, api) == Expired <==> Candidate(p, cutoff, api) && Free(p, api)
  {
  }

  /** How many of the first `n` claims meet a condition on claim and reply. */
  function Number(items: seq<Item>, replies: seq<Reply>, n: nat, meets: (Item, Reply) -> bool): nat
    requires n <= |items| == |replies|
  {
    |set i | 0 <= i < n && meets(items[i], replies[i])|
  }

  lemma NumberStep(items: seq<Item>, replies: seq<Reply>, n: nat, meets: (Item, Reply) -> bool)
    requires n < |items| == |replies|
    ensures Number(items, replies, n + 1, meets) ==
            Number(items, replies, n, meets) + if meets(items[n], replies[n]) then 1 else 0
  {
    var before := set i | 0 <= i < n && meets(items[i], replies[i]);
    var after := set i | 0 <= i < n + 1 && meets(items[i], replies[i]);
    assert after == if meets(items[n], replies[n]) then before + {n} else before;
  }

  /** The claims a delete is sent for when it is not a dry run. */
  predicate Goes(p: Item, cutoff: int, api: Api) { Candidate(p, cutoff, api) && Free(p, api) }

  /** A counter's own condition on label, cutoff, pods and reply. */
  function Condition(counter: Counter, cutoff: int, dryRun: bool, api: Api): (Item, Reply) -> bool
  {
    match counter
    case MalformedCount => (p, _) => Unreadable(p, api)
    case SkippedCount => (p, _) => !Unreadable(p, api) && !Candidate(p, cutoff, api)
    case InUseCount => (p, _) => Candidate(p, cutoff, api) && Taken(p, api)
    case WouldDeleteCount => (p, _) => dryRun && Goes(p, cutoff, api)
    case DeletedCount => (p, r) => !dryRun && Goes(p, cutoff, api) && r == Deleted
    case ErrorCount => (p, r) => !dryRun && Goes(p, cutoff, api) && r == Refused
    case GoneCount => (p, r) => !dryRun && Goes(p, cutoff, api) && r == NotFound
  }

  /** The counters; `GoneCount` is the one the source does not keep. */
  datatype Counter =
    | MalformedCount | SkippedCount | InUseCount | WouldDeleteCount | DeletedCount | ErrorCount | GoneCount

  function Read(t: Counts, counter: Counter): nat
  {
    match counter
    case MalformedCount => t.malformed case SkippedCount => t.skipped case InUseCount => t.inUse
    case WouldDeleteCount => t.wouldDelete case DeletedCount => t.deleted case ErrorCount => t.errors
    case GoneCount => t.gone
  }

  /** Each counter is the number of claims that meet its own condition. */
  lemma {:induction false} CountersCount(items: seq<Item>, cutoff: int, dryRun: bool, api: Api, replies: seq<Reply>,
                                         n: nat, counter: Counter)
    requires n <= |items| == |replies|
    ensures Read(Tally(items, cutoff, dryRun, api, replies, n), counter) ==
            Number(items, replies, n, Condition(counter, cutoff, dryRun, api))
  {
    if n > 0 {
      CountersCount(items, cutoff, dryRun, api, replies, n - 1, counter);
      NumberStep(items, replies, n - 1, Condition(counter, cutoff, dryRun, api));
      CountOne(Tally(items, cutoff, dryRun, api, replies, n - 1), items[n - 1], cutoff, dryRun, api, replies[n - 1],
               counter);
    }
  }

  lemma CountOne(t: Counts, p: Item, cutoff: int, dryRun: bool, api: Api, reply: Reply, counter: Counter)
    ensures Read(Add(t, Judge(p, cutoff, api), dryRun, reply), counter) ==
            Read(t, counter) + if Condition(counter, cutoff, dryRun, api)(p, reply) then 1 else 0
  {
    VerdictIff(p, cutoff, api);
  }

  /** A delete is sent for exactly the claims that are old enough, not terminating, and used by no listed pod. */
  lemma {:induction false} SentIff(items: seq<Item>, cutoff: int, dryRun: bool, api: Api, n: nat)
    requires n <= |items|
    ensures forall p :: p in Sent(items, cutoff, dryRun, api, n) <==>
              !dryRun && exists i | 0 <= i < n :: items[i] == p && Goes(p, cutoff, api)
  {
    if n > 0 {
      SentIff(items, cutoff, dryRun, api, n - 1);
      VerdictIff(items[n - 1], cutoff, api);
    }
  }

  /** Claim name to one pod using it, as podUsing caches it per namespace. */
  ghost predicate Indexes(claims: map<string, string>, pods: seq<Pod>)
  {
    && (forall c :: c in claims <==> Uses(pods, c))
    && (forall c | c in claims :: exists i | 0 <= i < |pods| :: pods[i].name == claims[c])
  }

  method IndexPods(pods: seq<Pod>) returns (claims: map<string, string>)
    ensures Indexes(claims, pods)
  {
    claims := map[];
    for i := 0 to |pods|
      invariant Indexes(claims, pods[..i])
    {
      ghost var before := claims;
      for j := 0 to |pods[i].claims|
        invariant forall c :: c in claims <==> c in before || c in pods[i].claims[..j]
        invariant forall c | c in claims :: claims[c] == pods[i].name || (c in before && claims[c] == before[c])
      {
        claims := claims[pods[i].claims[j] := pods[i].name];
      }
      assert pods[..i + 1] == pods[..i] + [pods[i]];
      IndexMore(before, claims, pods[..i], pods[i]);
    }
    assert pods[..|pods|] == pods;
  }

  lemma IndexMore(before: map<string, string>, claims: map<string, string>, pods: seq<Pod>, pod: Pod)
    requires Indexes(before, pods)
    requires forall c :: c in claims <==> c in before || c in pod.claims
    requires forall c | c in claims :: claims[c] == pod.name || (c in before && claims[c] == before[c])
    ensures Indexes(claims, pods + [pod])
  {
    var more := pods + [pod];
    assert more[|pods|] == pod && forall i | 0 <= i < |pods| :: more[i] == pods[i];
    forall c ensures Uses(more, c) <==> Uses(pods, c) || c in pod.claims {
      if Uses(pods, c) {
        var i :| 0 <= i < |pods| && c in pods[i].claims;
        assert c in more[i].claims;
      }
    }
    forall c | c in claims ensures exists i | 0 <= i < |more| :: more[i].name == claims[c] {
      if claims[c] != pod.name {
        var i :| 0 <= i < |pods| && pods[i].name == before[c];
        assert more[i].name == claims[c];
      } else {
        assert more[|pods|].name == claims[c];
      }
    }
  }

  class ClaimUsers {
    var byNamespace: map<string, map<string, string>>
    ghost var lists: nat   // List calls that answered

    /** The cache is what the List calls gave, one call for each namespace in it. */
    ghost predicate Valid(api: Api)
      reads this
    {
      && (forall ns | ns in byNamespace :: ns in api.pods && Indexes(byNamespace[ns], api.pods[ns]))
      && lists == |byNamespace|
    }

    constructor (ghost api: Api)
      ensures Valid(api) && lists == 0
    {
      byNamespace, lists := map[], 0;
    }

    /** The name of a pod using the claim, "" for none, or no answer when the List fails. */
    method PodUsing(api: Api, ns: string, claim: string) returns (pod: Option<string>)
      requires Valid(api) && Named(api)
      modifies this
      ensures Valid(api)
      ensures lists == old(lists) + if ns in old(byNamespace) || ns !in api.pods then 0 else 1
      ensures pod.None? <==> ns !in api.pods
      ensures pod.Some? ==> (pod.value != "" <==> Uses(api.pods[ns], claim))
    {
      if ns !in byNamespace {
        if ns !in api.pods { return None; }
        var claims := IndexPods(api.pods[ns]);
        byNamespace := byNamespace[ns := claims];
        lists := lists + 1;
      }
      assert Indexes(byNamespace[ns], api.pods[ns]);
      if claim in byNamespace[ns] {
        ghost var i :| 0 <= i < |api.pods[ns]| && api.pods[ns][i].name == byNamespace[ns][claim];
        return Some(byNamespace[ns][claim]);
      }
      return Some("");
    }
  }

  class Results {
    var deleted: nat
    var wouldDelete: nat
    var skipped: nat
    var inUse: nat
    var malformed: nat
    var errors: nat
    ghost var gone: nat

    ghost function View(): Counts
      reads this
    {
      Counts(deleted, wouldDelete, skipped, inUse, malformed, errors, gone)
    }

    constructor ()
      ensures View() == Counts(0, 0, 0, 0, 0, 0, 0)
    {
      deleted, wouldDelete, skipped, inUse, malformed, errors, gone := 0, 0, 0, 0, 0, 0, 0;
    }
  }

  /** False only when it cannot tell whether the claim is in use. */
  method ProcessPvc(p: Item, cutoff: int, dryRun: bool, api: Api, reply: Reply, users: ClaimUsers, res: Results)
    returns (ok: bool, sent: bool)
    requires users.Valid(api) && Named(api)
    modifies users, res
    ensures users.Valid(api)
    ensures ok <==> !Undecided(p, cutoff, api)
    ensures sent <==> !dryRun && Judge(p, cutoff, api).Expired?
    ensures res.View() == Add(old(res.View()), Judge(p, cutoff, api), dryRun, reply)
  {
    if p.since.None? {
      res.malformed := res.malformed + 1;
      return true, false;
    }
    var orphanedAt := api.parse(p.since.value);
    if orphanedAt.None? {
      res.malformed := res.malformed + 1;
      return true, false;
    }
    if orphanedAt.value > cutoff {
      res.skipped := res.skipped + 1;
      return true, false;
    }
    if p.terminating {
      res.skipped := res.skipped + 1;
      return true, false;
    }
    var pod := users.PodUsing(api, p.ns, p.name);
    if pod.None? { return false, false; }
    if pod.value != "" {
      res.inUse := res.inUse + 1;
      return true, false;
    }
    sent := SendDelete(dryRun, reply, res);
    return true, sent;
  }

  /** The claim has expired and nobody uses it. */
  method SendDelete(dryRun: bool, reply: Reply, res: Results) returns (sent: bool)
    modifies res
    ensures sent <==> !dryRun
    ensures res.View() == Add(old(res.View()), Expired, dryRun, reply)
  {
    if dryRun {
      res.wouldDelete := res.wouldDelete + 1;
      return false;
    }
    match reply {
      case NotFound => res.gone := res.gone + 1;
      case Refused => res.errors := res.errors + 1;
      case Deleted => res.deleted := res.deleted + 1;
    }
    return true;
  }

  /** Stops at the first claim whose use it cannot decide; `done` claims were handled before it. */
  method Clean(items: seq<Item>, cutoff: int, dryRun: bool, api: Api, replies: seq<Reply>)
    returns (res: Results, done: nat, sent: seq<Item>)
    requires |items| == |replies| && Named(api)
    ensures fresh(res) && done <= |items|
    ensures forall i | 0 <= i < done :: !Undecided(items[i], cutoff, api)
    ensures done < |items| ==> Undecided(items[done], cutoff, api)
    ensures res.View() == Tally(items, cutoff, dryRun, api, replies, done)
    ensures sent == Sent(items, cutoff, dryRun, api, done)
  {
    res := new Results();
    var users := new ClaimUsers(api);
    sent, done := [], 0;
    while done < |items|
      invariant fresh(res) && fresh(users) && users.Valid(api)
      invariant 0 <= done <= |items|
      invariant forall i | 0 <= i < done :: !Undecided(items[i], cutoff, api)
      invariant res.View() == Tally(items, cutoff, dryRun, api, replies, done)
      invariant sent == Sent(items, cutoff, dryRun, api, done)
    {
      var ok, s := ProcessPvc(items[done], cutoff, dryRun, api, replies[done], users, res);
      if !ok { return; }
      if s { sent := sent + [items[done]]; }
      done := done + 1;
    }
  }
}
