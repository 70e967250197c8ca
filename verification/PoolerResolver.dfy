/**
  The client cache as the operator writes it: objects whose fields change under a lock.
  Each method is one critical section, proved equal to its function in PoolerCache.
 */
module PoolerResolver {
  import opened Options
  import C = PoolerCache

  class ClusterState {
    var closed: bool
    var refreshing: bool
    var refreshDone: Option<C.Chan>
    var tlsClient: Option<C.ClientId>
    var retiredClients: seq<C.Retired>
    var resourceVersion: string
    var fetchedAt: nat
    var lastErr: Option<C.Failure>

    function View(): C.CredentialState
      reads this
    {
      C.CredentialState(closed, refreshing, refreshDone, tlsClient, retiredClients,
                        resourceVersion, fetchedAt, lastErr)
    }

    constructor ()
      ensures View() == C.FRESH_STATE
    {
      closed, refreshing, refreshDone, tlsClient := false, false, None, None;
      retiredClients, resourceVersion, fetchedAt, lastErr := [], "", 0, None;
    }

    method EnterLoop(now: nat, done: C.Chan) returns (d: C.Decision)
      modifies this
      ensures (d, View()) == C.Enter(old(View()), now, done)
    {
      if closed { return C.Return(C.Error(C.ResolverClosed)); }
      if tlsClient.Some? {
        var nextRefresh := C.REFRESH_INTERVAL;
        if lastErr.Some? { nextRefresh := C.FAILURE_RETRY; }
        if refreshing || now - fetchedAt < nextRefresh {
          return C.Return(C.Client(tlsClient.value));
        }
      } else {
        if refreshing { return C.Join(refreshDone); }
        if lastErr.Some? && now - fetchedAt < C.FAILURE_RETRY {
          return C.Return(C.Error(lastErr.value));
        }
      }
      refreshing := true;
      refreshDone := Some(done);
      return C.Lead(done);
    }

    method AfterWake() returns (d: C.Decision)
      ensures d == C.Wake(View())
    {
      if closed { return C.Return(C.Error(C.ResolverClosed)); }
      if tlsClient.Some? { return C.Return(C.Client(tlsClient.value)); }
      if lastErr.Some? { return C.Return(C.Error(lastErr.value)); }
      return C.Retry;
    }

    method KeepExistingOrError(cancelled: bool, now: nat, err: C.Failure) returns (r: C.Result)
      modifies this
      ensures (r, View()) == C.KeepExistingOrError(old(View()), cancelled, now, err)
    {
      if cancelled {
        if tlsClient.Some? { return C.Client(tlsClient.value); }
        return C.Error(err);
      }
      if tlsClient.None? {
        fetchedAt := now;
        lastErr := Some(err);
        return C.Error(err);
      }
      fetchedAt := now;
      lastErr := Some(err);
      return C.Client(tlsClient.value);
    }

    method RetireClient(client: C.ClientId, now: nat)
      requires tlsClient == Some(client)
      modifies this`retiredClients
      ensures View() == C.Retire(old(View()), now)
    {
      retiredClients := retiredClients + [C.Retired(client, now + C.RETIREMENT_GRACE)];
    }

    /** `next` is the client built from the Secret, if this section builds one. */
    method FinishRead(now: nat, readAt: nat, cancelled: bool, read: C.Read, next: C.ClientId) returns (r: C.Result)
      modifies this
      ensures (r, View()) == C.Finish(old(View()), now, readAt, cancelled, read, next)
    {
      refreshing := false;
      refreshDone := None;
      if closed { return C.Error(C.ResolverClosed); }
      if read.Failed? {
        r := KeepExistingOrError(cancelled, readAt, read.cause);
        return;
      }
      if tlsClient.Some? && read.version == resourceVersion {
        fetchedAt := readAt;
        lastErr := None;
        return C.Client(tlsClient.value);
      }
      if !read.wellFormed {
        r := KeepExistingOrError(cancelled, readAt, C.BadSecret);
        return;
      }
      if tlsClient.Some? { RetireClient(tlsClient.value, now); }
      tlsClient := Some(next);
      resourceVersion := read.version;
      fetchedAt := readAt;
      lastErr := None;
      return C.Client(next);
    }

    method Forget(now: nat)
      modifies this
      ensures View() == C.Forget(old(View()), now)
    {
      if closed { return; }
      closed := true;
      if tlsClient.Some? {
        RetireClient(tlsClient.value, now);
        tlsClient := None;
      }
    }

    /** `closes` lists the clients closed, in the order they are closed. */
    method Close() returns (closes: seq<C.ClientId>)
      modifies this
      ensures View() == C.Close(old(View())) && closes == C.CloseCloses(old(View()))
    {
      closed := true;
      closes := [];
      if tlsClient.Some? {
        closes := [tlsClient.value];
        tlsClient := None;
      }
      ghost var current := closes;
      for i := 0 to |retiredClients|
        invariant View() == old(View()).(closed := true, tlsClient := None)
        invariant closes == current + C.RetiredClients(retiredClients)[..i]
      {
        closes := closes + [retiredClients[i].client];
      }
      retiredClients := [];
    }

    /** Runs when the timer of `r` fires; reports whether it closed the client. */
    method FireTimer(r: C.Retired) returns (closes: bool)
      modifies this`retiredClients
      ensures View() == C.Fire(old(View()), r) && (closes <==> r in old(retiredClients))
    {
      for i := 0 to |retiredClients|
        invariant View() == old(View())
        invariant r !in retiredClients[..i]
      {
        if retiredClients[i] != r { continue; }
        assert C.IndexOf(retiredClients, r) == i;
        retiredClients := retiredClients[..i] + retiredClients[i + 1..];
        return true;
      }
      return false;
    }
  }

  class OperatorCertResolver {
    var closed: bool
    var states: map<C.Key, C.Sid>
    var active: set<C.Key>

    function View(): C.Registry
      reads this
    {
      C.Registry(closed, states, active)
    }

    method ActivateCluster(key: C.Key)
      modifies this`active
      ensures View() == C.Activate(old(View()), key)
    {
      if !closed { active := active + {key}; }
    }

    method AttachState(key: C.Key, next: C.Sid) returns (state: Option<C.Sid>)
      modifies this`states
      ensures (state, View()) == C.Attach(old(View()), key, next)
    {
      if closed { return None; }
      if key !in states { states := states[key := next]; }
      return Some(states[key]);
    }

    method DetachState(key: C.Key) returns (state: Option<C.Sid>)
      modifies this`states, this`active
      ensures (state, View()) == C.Detach(old(View()), key)
    {
      state := if key in states then Some(states[key]) else None;
      states := states - {key};
      active := active - {key};
    }

    /** The states Close must go on to close one by one. */
    method BeginClose() returns (captured: set<C.Sid>)
      modifies this
      ensures (captured, View()) == C.BeginClose(old(View()))
    {
      if closed { return {}; }
      closed := true;
      captured := states.Values;
      states := map[];
      active := {};
    }
  }
}
