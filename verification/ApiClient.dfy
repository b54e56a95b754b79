/**
 The client as the source writes it: a module variable, a store and a queue that the interceptors overwrite. The object
 remembers the events it has seen, so what is proved of every run of the machine holds of it after every call.
 */
module ApiClient {
  import opened Schema
  import opened Client
  import opened ClientRuns
  import opened Flight
  import opened Logouts

  class Api {
    var store: Store
    var refreshPromise: Option<nat>
    var promises: seq<Promise>
    var calls: seq<Call>
    var queue: seq<Job>
    var timers: nat
    var now: int
    ghost var start: State
    ghost var events: seq<Event>

    ghost function Value(): State
      reads this
    {
      State(store, refreshPromise, promises, calls, queue, timers, now)
    }

    ghost predicate Valid()
      reads this
    {
      Fresh(start) && Runs(start, events, Value())
    }

    constructor (persisted: Store, time: int)
      ensures Valid() && events == [] && store == persisted && now == time
    {
      store, refreshPromise, promises, calls, queue, timers, now := persisted, None, [], [], [], 0, time;
      events := [];
      start := State(persisted, None, [], [], [], 0, time);
    }

    // ---- what holds of the object after any sequence of calls ----

    /** No call is dispatched more than twice, and refresh and logout calls neither wait for a refresh nor are retried. */
    ghost predicate Bounded()
      reads this
    {
      forall r :: 0 <= r < |calls| ==>
        && calls[r].dispatches <= 2 && (calls[r].dispatches == 2 ==> calls[r].retried && calls[r].kind.PrivateCall?)
        && (calls[r].kind.RefreshCall? || calls[r].kind.LogoutCall? ==>
              calls[r].dispatches <= 1 && !calls[r].status.Waiting? && !calls[r].status.Woken?)
    }

    /** At most one refresh call is outstanding, and `refreshPromise` holds its promise. */
    ghost predicate OneFlight()
      reads this
    {
      forall q: nat, r: nat :: Outstanding(Value(), q) && Outstanding(Value(), r) ==>
        q == r && refreshPromise == Some(calls[r].kind.p)
    }

    lemma KeptByAllCalls()
      requires Valid()
      ensures Inv(Value()) && Bounded() && (GuardedRuns(start, events, Value()) ==> OneFlight())
    {
      hide Runs, GuardedRuns, Inv, Linked;
      FreshFlies(start);
      RunsKeep(start, events, Value());
      forall r | 0 <= r < |calls|
        ensures calls[r].dispatches <= 2 && (calls[r].dispatches == 2 ==> calls[r].retried && calls[r].kind.PrivateCall?)
        ensures calls[r].kind.RefreshCall? || calls[r].kind.LogoutCall? ==>
          calls[r].dispatches <= 1 && !calls[r].status.Waiting? && !calls[r].status.Woken?
      {
        RetriesEndAndNoRefreshWaitsForItself(start, events, Value(), r);
      }
      if GuardedRuns(start, events, Value()) {
        forall q: nat, r: nat | Outstanding(Value(), q) && Outstanding(Value(), r)
          ensures q == r && refreshPromise == Some(calls[r].kind.p)
        {
          GuardedMeansSingleFlight(start, events, Value(), q, r);
        }
      }
    }

    /** The event has happened, and everything that holds of all runs still holds. */
    twostate predicate Did(e: Event)
      reads this
    {
      && Valid() && start == old(start) && events == old(events) + [e]
      && Enabled(old(Value()), e) && Value() == Apply(old(Value()), e)
      && Bounded() && (GuardedRuns(start, events, Value()) ==> OneFlight())
    }

    ghost method Record(e: Event, before: State)
      requires Fresh(start) && Runs(start, events, before) && Enabled(before, e) && Value() == Apply(before, e)
      modifies this`events
      ensures Valid() && events == old(events) + [e] && Bounded() && (GuardedRuns(start, events, Value()) ==> OneFlight())
    {
      hide Enabled, Apply, Runs;
      OneMore(start, events, before, e);
      events := events + [e];
      KeptByAllCalls();
    }

    // ---- the events ----

    /** The app makes a request; a private one is marked with the leading tilde. */
    method Request(private: bool)
      requires Valid()
      modifies this
      ensures Did(Issue(private))
    {
      hide Runs, GuardedRuns;
      ghost var before := Value();
      queue := queue + [Send(|calls|)];
      calls := calls + [Call(if private then PrivateCall else PublicCall, private, false, 0, NoHeader, Queued)];
      Record(Issue(private), before);
    }

    /** A response arrives for a call that is on the wire. */
    method Arrive(r: nat, response: Response)
      requires Valid() && Enabled(Value(), Deliver(r, response))
      modifies this
      ensures Did(Deliver(r, response))
    {
      hide Runs, GuardedRuns;
      ghost var before := Value();
      calls := calls[r := calls[r].(status := Answered)];
      queue := queue + [Reply(r, response)];
      Record(Deliver(r, response), before);
    }

    /** A `setTimeout(logOut, 1)` comes due. */
    method TimerFires()
      requires Valid() && timers > 0
      modifies this
      ensures Did(Fire)
    {
      hide Runs, GuardedRuns;
      ghost var before := Value();
      timers := timers - 1;
      queue := queue + [LogOut];
      Record(Fire, before);
    }

    /** The user logs out. */
    method UserLeaves()
      requires Valid()
      modifies this
      ensures Did(Leave)
    {
      hide Runs, GuardedRuns;
      ghost var before := Value();
      queue := queue + [LogOut];
      Record(Leave, before);
    }

    method TimePasses(later: int)
      requires Valid() && now <= later
      modifies this
      ensures Did(Tick(later))
    {
      hide Runs, GuardedRuns;
      ghost var before := Value();
      now := later;
      Record(Tick(later), before);
    }

    /** A sign-in or signup has succeeded. */
    method SignedIn(access: Jwt, refresh: string)
      requires Valid() && store.access.None?
      modifies this
      ensures Did(SignIn(access, refresh))
    {
      hide Runs, GuardedRuns;
      ghost var before := Value();
      store := Store(Some(access), Some(refresh), true, false, false);
      Record(SignIn(access, refresh), before);
    }

    /** One turn of the event loop; any queued job can be run. */
    method Turn()
      requires Valid() && queue != []
      modifies this
      ensures Did(Run)
    {
      hide Runs, GuardedRuns, WaitersOk;
      ghost var before := Value();
      KeptByAllCalls();
      var job := queue[0];
      assert JobOk(before, job);
      if job.LogOut? {
        PopLogOut(before);
        queue := queue[1..];
        StartLogOut();
      } else {
        assert CallOk(before.calls[job.r]);
        PopHead(before);
        queue := queue[1..];
        match job
        case Send(r) => RequestInterceptor(r);
        case Reply(r, response) => ResponseInterceptor(r, response);
        case Wake(r, _, ok) => ResumeWaiter(r, ok);
      }
      Record(Run, before);
    }

    // ---- the jobs ----

    /** The request goes out; its call was loose and is in order again. */
    method SendRequest(r: nat)
      requires InvBut(Value(), r) && calls[r].dispatches == Credit(calls[r]) && !calls[r].tilde
      requires !calls[r].kind.PrivateCall? ==> !calls[r].retried
      modifies this`calls
      ensures Value() == Dispatch(old(Value()), r) && Inv(Value())
    {
      DispatchKeeps(Value(), r);
      calls := calls[r := calls[r].(status := Sent, dispatches := calls[r].dispatches + 1)];
    }

    /** refreshTokens, up to the answer of its HTTP call: one new promise, and one call exactly if there is a token to present. */
    method BeginRefresh(ghost r: nat)
      requires InvBut(Value(), r) && refreshPromise.None?
      modifies this`store, this`refreshPromise, this`promises, this`calls, this`queue, this`timers
      ensures Value() == StartRefresh(old(Value())) && InvBut(Value(), r) && calls[r] == old(calls[r])
      ensures refreshPromise == Some(|old(promises)|) && |promises| == |old(promises)| + 1
      ensures store.refresh.Some? <==> |calls| == |old(calls)| + 1
      ensures store.refresh.Some? ==> Serves(Value(), |old(calls)|, |old(promises)|) && calls[|old(calls)|].kind.token == store.refresh.value
      ensures store.refresh.None? ==> calls == old(calls) && promises[|old(promises)|].Rejected? && timers == old(timers) + 1
      ensures store == old(store).(isLoading := store.refresh.Some?, failed := store.refresh.None?)
    {
      StartRefreshKeeps(Value(), r);
      refreshPromise := Some(|promises|);
      if store.refresh.None? {
        timers := timers + 1;
        store := store.(isLoading := false, failed := true);
        promises := promises + [Rejected];
      } else {
        store := store.(isLoading := true, failed := false);
        queue := queue + [Send(|calls|)];
        calls := calls + [Call(RefreshCall(|promises|, store.refresh.value), false, false, 0, NoHeader, Queued)];
        promises := promises + [Pending([])];
      }
    }

    /** A private call waits for the one guarded promise; a second refresh is not started while there is one. */
    method AwaitRefresh(r: nat)
      requires InvBut(Value(), r) && calls[r].kind.PrivateCall? && !calls[r].tilde && calls[r].dispatches == Credit(calls[r])
      modifies this`store, this`refreshPromise, this`promises, this`calls, this`queue, this`timers
      ensures Value() == Join(old(Value()), r) && Inv(Value())
      ensures refreshPromise.Some? && (old(refreshPromise).Some? ==> refreshPromise == old(refreshPromise) && |calls| == |old(calls)|)
      ensures calls[r].status == Waiting(refreshPromise.value) || calls[r].status == Woken
      ensures calls[r].status.Waiting? ==> promises[refreshPromise.value].Pending? && r in promises[refreshPromise.value].waiters
      ensures calls[r].status.Woken? ==>
        Wake(r, refreshPromise.value, promises[refreshPromise.value].Fulfilled?) in queue
    {
      JoinKeeps(Value(), r);
      if refreshPromise.None? {
        BeginRefresh(r);
      }
      var p := refreshPromise.value;
      match promises[p]
      case Pending(ws) =>
        promises := promises[p := Pending(ws + [r])];
        calls := calls[r := calls[r].(status := Waiting(p))];
      case Fulfilled(_) =>
        queue := queue + [Wake(r, p, true)];
        calls := calls[r := calls[r].(status := Woken)];
      case Rejected =>
        queue := queue + [Wake(r, p, false)];
        calls := calls[r := calls[r].(status := Woken)];
    }

    /** The request interceptor: a private request leaves with the stored token only if that token is not due. */
    method RequestInterceptor(r: nat)
      requires InvBut(Value(), r) && CallOk(calls[r]) && calls[r].status.Queued?
      modifies this`store, this`refreshPromise, this`promises, this`calls, this`queue, this`timers
      ensures Value() == RunSend(old(Value()), r) && Inv(Value())
      ensures !calls[r].tilde && store.access == old(store).access
      ensures !old(calls[r]).tilde ==>
        calls[r].status.Sent? && calls[r].header == old(calls[r]).header && timers == old(timers) && queue == old(queue)
      ensures old(calls[r]).tilde && store.access == None ==>
        calls[r].status.Sent? && calls[r].header == old(calls[r]).header && timers == old(timers) + 1 && queue == old(queue)
      ensures old(calls[r]).tilde && store.access.Some? && !NeedsRefresh(store.access.value, now) ==>
        calls[r].status.Sent? && calls[r].header == Bearer(store.access) && timers == old(timers) && queue == old(queue)
      ensures old(calls[r]).tilde && store.access.Some? && NeedsRefresh(store.access.value, now) ==>
        (calls[r].status.Waiting? || calls[r].status.Woken?)
        && timers == old(timers) + if old(refreshPromise).None? && store.refresh.None? then 1 else 0
    {
      hide QueueOk, WaitersOk;
      SendKeeps(Value(), r);
      if calls[r].tilde {
        Rewrite(Value(), r, calls[r].(tilde := false));
        calls := calls[r := calls[r].(tilde := false)];
        if store.access.Some? {
          if NeedsRefresh(store.access.value, now) {
            AwaitRefresh(r);
            return;
          }
          Rewrite(Value(), r, calls[r].(header := Bearer(store.access)));
          calls := calls[r := calls[r].(header := Bearer(store.access))];
        } else {
          Elsewhere(Value(), Value().(timers := timers + 1), r);
          timers := timers + 1;
        }
      }
      SendRequest(r);
    }

    /** Resolve or reject a promise: its reactions are queued in the order in which they were registered. */
    method SettlePromise(p: nat, outcome: Promise)
      requires p < |promises| && !outcome.Pending?
      modifies this`promises, this`calls, this`queue
      ensures Value() == Settle(old(Value()), p, outcome)
    {
      match promises[p]
      case Pending(ws) =>
        promises := promises[p := outcome];
        ghost var queued, before := queue, calls;
        for i := 0 to |ws|
          invariant promises == old(promises)[p := outcome]
          invariant queue == queued + Wakes(ws[..i], p, outcome.Fulfilled?)
          invariant |calls| == |before|
          invariant forall r :: 0 <= r < |calls| ==>
            calls[r] == if r in ws[..i] then before[r].(status := Woken) else before[r]
        {
          queue := queue + [Wake(ws[i], p, outcome.Fulfilled?)];
          if ws[i] < |calls| {
            calls := calls[ws[i] := calls[ws[i]].(status := Woken)];
          }
          assert ws[..i + 1] == ws[..i] + [ws[i]];
          assert Wakes(ws[..i + 1], p, outcome.Fulfilled?) == Wakes(ws[..i], p, outcome.Fulfilled?) + [Wake(ws[i], p, outcome.Fulfilled?)];
        }
        assert ws[..|ws|] == ws;
        assert calls == Woke(before, ws);
      case _ =>
    }

    /** A call fails for good: it is settled, a refresh call rejects its promise, and a logout clears the store all the same. */
    method Fails(r: nat)
      requires InvBut(Value(), r) && CallOk(calls[r]) && calls[r].status.Answered?
      modifies this`store, this`promises, this`calls, this`queue
      ensures Value() == FinishFailed(old(Value()), r) && Inv(Value())
      ensures calls[r].kind == old(calls[r]).kind && (calls[r].kind.LogoutCall? ==> SignedOut(store))
      ensures calls[r].kind.RefreshCall? && calls[r].kind.p < |promises| && old(promises)[calls[r].kind.p].Pending? ==>
        promises[calls[r].kind.p].Rejected?
    {
      FinishFailedKeeps(Value(), r);
      var kind := calls[r].kind;
      calls := calls[r := calls[r].(status := Settled(false))];
      if kind.RefreshCall? {
        store := store.(isLoading := false, failed := true);
        if kind.p < |promises| {
          SettlePromise(kind.p, Rejected);
        }
      } else if kind.LogoutCall? {
        store := CLEARED;
      }
    }

    /** handleError and the success path: only the first EXPIRED_TOKEN keeps a call alive, and only two codes log out. */
    method ResponseInterceptor(r: nat, response: Response)
      requires InvBut(Value(), r) && CallOk(calls[r]) && calls[r].status.Answered? && Answerable(calls[r].kind, response)
      modifies this`store, this`refreshPromise, this`promises, this`calls, this`queue, this`timers
      ensures Value() == RunReply(old(Value()), r, response) && Inv(Value())
      ensures response == Fault(ExpiredToken) && !old(calls[r]).retried ==> calls[r].retried && !calls[r].status.Settled?
      ensures !old(calls[r]).kind.RefreshCall? && (response != Fault(ExpiredToken) || old(calls[r]).retried) ==>
        calls[r].status == Settled(!response.Fault?)
      ensures response == Fault(InvalidToken) || response == Fault(InvalidRefreshToken) ==> timers == old(timers) + 1
      ensures response == Fault(OtherError) || !response.Fault? ==> timers == old(timers)
      ensures response.NewTokens? && old(calls[r]).kind.p < |old(promises)| ==>
        store.access == Some(response.access) && store.refresh == Some(response.refresh)
      ensures old(calls[r]).kind.LogoutCall? ==> SignedOut(store)
    {
      hide QueueOk, WaitersOk, Woke, Wakes;
      ReplyKeeps(Value(), r, response);
      ReplyOutcome(Value(), r, response);
      match response
      case Fault(code) =>
        if code.ExpiredToken? && !calls[r].retried {
          Rewrite(Value(), r, calls[r].(retried := true));
          calls := calls[r := calls[r].(retried := true)];
          AwaitRefresh(r);
        } else {
          if code.InvalidToken? || code.InvalidRefreshToken? {
            Elsewhere(Value(), Value().(timers := timers + 1), r);
            timers := timers + 1;
          }
          Fails(r);
        }
      case NewTokens(access, refresh) =>
        var kind := calls[r].kind;
        calls := calls[r := calls[r].(status := Settled(true))];
        if kind.RefreshCall? && kind.p < |promises| {
          store := store.(access := Some(access), refresh := Some(refresh));
          SettlePromise(kind.p, Fulfilled(access));
        }
      case Success =>
        if calls[r].kind.LogoutCall? {
          store := CLEARED;
        }
        calls := calls[r := calls[r].(status := Settled(true))];
    }

    /** What follows the await: the variable is reset only on success, and the request goes on with the stored token. */
    method ResumeWaiter(r: nat, ok: bool)
      requires InvBut(Value(), r) && CallOk(calls[r]) && calls[r].status.Woken?
      modifies this`refreshPromise, this`calls, this`queue
      ensures Value() == RunWake(old(Value()), r, ok) && Inv(Value())
      ensures ok ==> refreshPromise.None? && calls[r].header == Bearer(store.access) && !calls[r].status.Settled?
      ensures !ok ==> refreshPromise == old(refreshPromise) && calls[r].status == Settled(false)
    {
      WakeKeeps(Value(), r, ok);
      if !ok {
        calls := calls[r := calls[r].(status := Settled(false))];
        return;
      }
      Elsewhere(Value(), Value().(refreshPromise := None), r);
      refreshPromise := None;
      Rewrite(Value(), r, calls[r].(header := Bearer(store.access)));
      calls := calls[r := calls[r].(header := Bearer(store.access))];
      if calls[r].retried {
        calls := calls[r := calls[r].(status := Queued)];
        queue := queue + [Send(r)];
      } else {
        SendRequest(r);
      }
    }

    /** logOut: a call to the server exactly if there is a token to revoke; no timer is set. */
    method StartLogOut()
      requires Inv(Value())
      modifies this`store, this`calls, this`queue
      ensures Value() == RunLogOut(old(Value())) && Inv(Value())
      ensures old(store).refresh.None? ==> SignedOut(store) && calls == old(calls)
      ensures old(store).refresh.Some? ==>
        |calls| == |old(calls)| + 1 && calls[|old(calls)|].kind.LogoutCall? && store == old(store).(isLoading := true, failed := false)
    {
      if store.refresh.None? {
        ElsewhereInv(Value(), Value().(store := CLEARED));
        store := CLEARED;
      } else {
        ElsewhereInv(Value(), Value().(store := store.(isLoading := true, failed := false)));
        store := store.(isLoading := true, failed := false);
        SpawnKeeps(Value(), Call(LogoutCall, false, false, 0, NoHeader, Queued));
        queue := queue + [Send(|calls|)];
        calls := calls + [Call(LogoutCall, false, false, 0, NoHeader, Queued)];
      }
    }
  }
}
