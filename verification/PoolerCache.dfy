/**
  The critical sections of the per-cluster multipooler client cache, as functions
  on the state each of them locks.  `CredentialState` is what `state.mu` guards,
  `Registry` what `r.mu` guards.  PoolerResolver.dfy proves the imperative code
  equal to these functions; PoolerRuns.dfy interleaves them.
 */
module PoolerCache {
  import opened Options

  type Key = string       // namespace/name of a cluster
  type ClientId = nat     // one mTLS client, numbered in creation order
  type Sid = nat          // one clusterState object, numbered in allocation order
  type Chan = nat         // one done channel, numbered in creation order

  // Durations in seconds.
  const REFRESH_INTERVAL: nat := 300
  const FAILURE_RETRY: nat := 10
  const RETIREMENT_GRACE: nat := 60

  /** Why a credential is unavailable.  `Cancelled` is the caller's own context. */
  datatype Failure = ReadFailed | BadSecret | Cancelled | ResolverClosed | ClusterGone

  /** What the uncached Secret read produced. */
  datatype Read = Secret(version: string, wellFormed: bool) | Failed(cause: Failure)

  datatype Retired = Retired(client: ClientId, due: nat)

  datatype CredentialState = CredentialState(
    closed: bool,
    refreshing: bool,
    refreshDone: Option<Chan>,
    tlsClient: Option<ClientId>,
    retired: seq<Retired>,
    resourceVersion: string,
    fetchedAt: nat,
    lastErr: Option<Failure>)

  const FRESH_STATE := CredentialState(false, false, None, None, [], "", 0, None)

  datatype Result = Client(id: ClientId) | Error(why: Failure)

  /** How a pass through a locked section ends for the caller. */
  datatype Decision = Return(result: Result) | Join(done: Option<Chan>) | Lead(created: Chan) | Retry

  // ------------------------------------------------------------ clusterState

  /** The top of the refresh loop: use the cached client, join, or become the leader. */
  function Enter(st: CredentialState, now: nat, ch: Chan): (Decision, CredentialState)
  {
    var lead := (Lead(ch), st.(refreshing := true, refreshDone := Some(ch)));
    if st.closed then (Return(Error(ResolverClosed)), st)
    else if st.tlsClient.Some? then
      var next := if st.lastErr.Some? then FAILURE_RETRY else REFRESH_INTERVAL;
      if st.refreshing || now - st.fetchedAt < next
      then (Return(Client(st.tlsClient.value)), st)
      else lead
    else if st.refreshing then (Join(st.refreshDone), st)
    else if st.lastErr.Some? && now - st.fetchedAt < FAILURE_RETRY
    then (Return(Error(st.lastErr.value)), st)
    else lead
  }

  /** What a joined caller does once the leader has closed the done channel. */
  function Wake(st: CredentialState): Decision
  {
    if st.closed then Return(Error(ResolverClosed))
    else if st.tlsClient.Some? then Return(Client(st.tlsClient.value))
    else if st.lastErr.Some? then Return(Error(st.lastErr.value))
    else Retry
  }

  function KeepExistingOrError(st: CredentialState, cancelled: bool, now: nat, err: Failure)
    : (Result, CredentialState)
  {
    var result := if st.tlsClient.Some? then Client(st.tlsClient.value) else Error(err);
    if cancelled then (result, st)
    else (result, st.(fetchedAt := now, lastErr := Some(err)))
  }

  function Retire(st: CredentialState, now: nat): CredentialState
  {
    if st.tlsClient.Some?
    then st.(retired := st.retired + [Retired(st.tlsClient.value, now + RETIREMENT_GRACE)])
    else st
  }

  /** Whether the leader's critical section builds a new mTLS client. */
  predicate Builds(st: CredentialState, read: Read)
  {
    !st.closed && read.Secret? && read.wellFormed &&
    !(st.tlsClient.Some? && read.version == st.resourceVersion)
  }

  /** The leader's second critical section, after its Secret read at `readAt`. */
  function Finish(st: CredentialState, now: nat, readAt: nat, cancelled: bool, read: Read, spare: ClientId)
    : (Result, CredentialState)
  {
    var st0 := st.(refreshing := false, refreshDone := None);
    if st.closed then (Error(ResolverClosed), st0)
    else if read.Failed? then KeepExistingOrError(st0, cancelled, readAt, read.cause)
    else if st.tlsClient.Some? && read.version == st.resourceVersion
    then (Client(st.tlsClient.value), st0.(fetchedAt := readAt, lastErr := None))
    else if !read.wellFormed then KeepExistingOrError(st0, cancelled, readAt, BadSecret)
    else
      (Client(spare),
       Retire(st0, now).(tlsClient := Some(spare), resourceVersion := read.version,
                         fetchedAt := readAt, lastErr := None))
  }

  /** ForgetCluster's critical section on the detached state. */
  function Forget(st: CredentialState, now: nat): CredentialState
  {
    if st.closed then st else Retire(st, now).(closed := true, tlsClient := None)
  }

  function RetiredClients(rs: seq<Retired>): seq<ClientId>
  {
    seq(|rs|, i requires 0 <= i < |rs| => rs[i].client)
  }

  /** Close's critical section on one captured state. */
  function Close(st: CredentialState): CredentialState
  {
    st.(closed := true, tlsClient := None, retired := [])
  }

  /** The clients that section closes, in order. */
  function CloseCloses(st: CredentialState): seq<ClientId>
  {
    (if st.tlsClient.Some? then [st.tlsClient.value] else []) + RetiredClients(st.retired)
  }

  function IndexOf(rs: seq<Retired>, r: Retired): (i: nat)
    ensures i <= |rs|
    ensures i < |rs| ==> rs[i] == r
    ensures r !in rs[..i]
    ensures r in rs <==> i < |rs|
  {
    if rs == [] then 0
    else if rs[0] == r then 0
    else 1 + IndexOf(rs[1..], r)
  }

  /** The retirement timer of `r`: drops `r` from the list, if it is still there. */
  function Fire(st: CredentialState, r: Retired): CredentialState
  {
    var i := IndexOf(st.retired, r);
    if i == |st.retired| then st
    else st.(retired := st.retired[..i] + st.retired[i + 1..])
  }

  // ------------------------------------------------------------ resolver maps

  datatype Registry = Registry(closed: bool, states: map<Key, Sid>, active: set<Key>)

  function Activate(r: Registry, key: Key): Registry
  {
    if r.closed then r else r.(active := r.active + {key})
  }

  /** Looks up the cluster's state, inserting the new object `spare` if there is none. */
  function Attach(r: Registry, key: Key, spare: Sid): (Option<Sid>, Registry)
  {
    if r.closed then (None, r)
    else if key in r.states then (Some(r.states[key]), r)
    else (Some(spare), r.(states := r.states[key := spare]))
  }

  function Detach(r: Registry, key: Key): (Option<Sid>, Registry)
  {
    (if key in r.states then Some(r.states[key]) else None,
     r.(states := r.states - {key}, active := r.active - {key}))
  }

  function BeginClose(r: Registry): (set<Sid>, Registry)
  {
    if r.closed then ({}, r) else (r.states.Values, Registry(true, map[], {}))
  }
}
