/**
 Scheduled logouts. A private request that finds no access token goes out all the same and schedules a logout, and so do
 two answers and a refresh without a token; from then on a logout is pending, in one form or another, until the store is
 cleared.
 */
module Logouts {
  import opened Schema
  import opened Client
  import opened ClientRuns

  /** Nobody is signed in. */
  predicate SignedOut(store: Store) {
    store.access == None && store.refresh == None && !store.isAuthenticated && !store.isLoading
  }

  predicate Unsettled(c: Call) {
    c.kind.LogoutCall? && !c.status.Settled?
  }

  /** A timer, a queued logout, or a logout call that is not settled yet. */
  ghost predicate LogoutPending(s: State) {
    || s.timers > 0
    || (exists i :: 0 <= i < |s.queue| && s.queue[i].LogOut?)
    || (exists r :: 0 <= r < |s.calls| && Unsettled(s.calls[r]))
  }

  /** Some state on the way, the start not counted, is signed out. */
  ghost predicate SignsOut(s: State, events: seq<Event>, t: State)
    requires Runs(s, events, t)
    decreases |events|
  {
    events != [] && (SignedOut(Apply(s, events[0]).store) || SignsOut(Apply(s, events[0]), events[1..], t))
  }

  /** What jobs leave of pending logouts: timers are only set, queued jobs stay, and logout calls go on. */
  ghost predicate LeavesLogouts(s: State, t: State) {
    && s.timers <= t.timers && s.queue <= t.queue && |s.calls| <= |t.calls|
    && forall r :: 0 <= r < |s.calls| && Unsettled(s.calls[r]) ==> Unsettled(t.calls[r])
  }

  lemma JoinLeaves(s: State, r: nat)
    requires PromiseInRange(s) && r < |s.calls| && !s.calls[r].kind.LogoutCall?
    ensures LeavesLogouts(s, Join(s, r))
  {
  }

  lemma SettleLeaves(s: State, p: nat, outcome: Promise)
    requires p < |s.promises| && !outcome.Pending?
    ensures LeavesLogouts(s, Settle(s, p, outcome))
  {
  }

  lemma SendLeaves(s: State, r: nat)
    requires PromiseInRange(s) && r < |s.calls| && CallOk(s.calls[r])
    ensures LeavesLogouts(s, RunSend(s, r))
  {
    hide Join;
    if s.calls[r].tilde {
      JoinLeaves(s.(calls := s.calls[r := s.calls[r].(tilde := false)]), r);
    }
  }

  lemma ReplyLeaves(s: State, r: nat, response: Response)
    requires PromiseInRange(s) && r < |s.calls| && Answerable(s.calls[r].kind, response)
    ensures
      var t := RunReply(s, r, response);
      if s.calls[r].kind.LogoutCall? then SignedOut(t.store) else LeavesLogouts(s, t)
  {
    hide Join, Settle, Woke, Wakes;
    if !s.calls[r].kind.LogoutCall? {
      JoinLeaves(s.(calls := s.calls[r := s.calls[r].(retried := true)]), r);
    }
    forall t: State, p: nat, outcome: Promise | p < |t.promises| && !outcome.Pending?
      ensures LeavesLogouts(t, Settle(t, p, outcome))
    {
      SettleLeaves(t, p, outcome);
    }
  }

  lemma JoinOutcome(s: State, r: nat)
    requires PromiseInRange(s) && r < |s.calls|
    ensures var t := Join(s, r); r < |t.calls| && t.calls[r].retried == s.calls[r].retried && !t.calls[r].status.Settled?
  {
  }

  lemma SettleOutcome()
    ensures forall s: State, p: nat, outcome: Promise :: p < |s.promises| && !outcome.Pending? ==>
      var t := Settle(s, p, outcome);
      && t.store == s.store && t.timers == s.timers && |t.calls| == |s.calls|
  {
  }

  /** What an answer does to the store, the timers and its own call. */
  lemma ReplyOutcome(s: State, r: nat, response: Response)
    requires PromiseInRange(s) && r < |s.calls| && Answerable(s.calls[r].kind, response)
    ensures
      var c, t := s.calls[r], RunReply(s, r, response);
      && r < |t.calls|
      && (response == Fault(ExpiredToken) && !c.retried ==> t.calls[r].retried && !t.calls[r].status.Settled?)
      && (!c.kind.RefreshCall? && (response != Fault(ExpiredToken) || c.retried) ==> t.calls[r].status == Settled(!response.Fault?))
      && (response == Fault(InvalidToken) || response == Fault(InvalidRefreshToken) ==> t.timers == s.timers + 1)
      && (response == Fault(OtherError) || !response.Fault? ==> t.timers == s.timers)
      && (response.NewTokens? && c.kind.p < |s.promises| ==>
            t.store.access == Some(response.access) && t.store.refresh == Some(response.refresh))
      && (c.kind.LogoutCall? ==> SignedOut(t.store))
  {
    hide Join, Settle;
    JoinOutcome(s.(calls := s.calls[r := s.calls[r].(retried := true)]), r);
    SettleOutcome();
  }

  lemma WakeLeaves(s: State, r: nat, ok: bool)
    requires r < |s.calls| && !s.calls[r].kind.LogoutCall?
    ensures LeavesLogouts(s, RunWake(s, r, ok))
  {
  }

  /** The logout job itself signs out at once or makes the call. */
  lemma LogOutGoesOn(s: State)
    ensures SignedOut(RunLogOut(s).store) || exists r :: 0 <= r < |RunLogOut(s).calls| && Unsettled(RunLogOut(s).calls[r])
  {
    if s.store.refresh.Some? {
      assert Unsettled(RunLogOut(s).calls[|s.calls|]);
    }
  }

  lemma PendingLeft(s: State, t: State)
    requires LogoutPending(s) && s.queue != [] && !s.queue[0].LogOut? && LeavesLogouts(s.(queue := s.queue[1..]), t)
    ensures LogoutPending(t)
  {
    if i :| 0 <= i < |s.queue| && s.queue[i].LogOut? {
      assert t.queue[i - 1] == s.queue[1..][i - 1];
    } else if r :| 0 <= r < |s.calls| && Unsettled(s.calls[r]) {
      assert Unsettled(t.calls[r]);
    }
  }

  lemma RunPending(s: State)
    requires Inv(s) && LogoutPending(s) && Enabled(s, Run)
    ensures LogoutPending(Apply(s, Run)) || SignedOut(Apply(s, Run).store)
  {
    hide WaitersOk, RunSend, RunReply, RunWake, RunLogOut, LeavesLogouts;
    var job, u := s.queue[0], s.(queue := s.queue[1..]);
    assert JobOk(s, job);
    match job
    case LogOut => LogOutGoesOn(u);
    case Send(r) =>
      SendLeaves(u, r);
      PendingLeft(s, RunSend(u, r));
    case Reply(r, response) =>
      ReplyLeaves(u, r, response);
      if !s.calls[r].kind.LogoutCall? {
        PendingLeft(s, RunReply(u, r, response));
      }
    case Wake(r, _, ok) =>
      assert CallOk(s.calls[r]);
      WakeLeaves(u, r, ok);
      PendingLeft(s, RunWake(u, r, ok));
  }

  lemma EventPending(s: State, e: Event)
    requires LogoutPending(s) && Enabled(s, e) && !e.Run?
    ensures LogoutPending(Apply(s, e))
  {
    var t := Apply(s, e);
    if e.Fire? || e.Leave? {
      assert t.queue[|s.queue|].LogOut?;
    } else if i :| 0 <= i < |s.queue| && s.queue[i].LogOut? {
      assert t.queue[i].LogOut?;
    } else if r :| 0 <= r < |s.calls| && Unsettled(s.calls[r]) {
      assert Unsettled(t.calls[r]);
    }
  }

  /** A pending logout stays pending in every run until the store is signed out; no sign-in takes it back. */
  lemma {:induction false} PendingUntilSignedOut(s: State, events: seq<Event>, t: State)
    requires Inv(s) && LogoutPending(s) && Runs(s, events, t)
    ensures LogoutPending(t) || SignsOut(s, events, t)
    decreases |events|
  {
    hide Inv, LogoutPending, Enabled, Apply;
    if events != [] {
      StepKeeps(s, events[0]);
      if events[0].Run? {
        RunPending(s);
      } else {
        EventPending(s, events[0]);
      }
      if LogoutPending(Apply(s, events[0])) {
        PendingUntilSignedOut(Apply(s, events[0]), events[1..], t);
      }
    }
  }

  /**
   A private request without an access token goes out unchanged and schedules a logout; after it, in every run, a logout
   is pending until the store is signed out. With a token that is not due nothing is scheduled.
   */
  lemma TokenlessRequestLogsOut(s: State, before: seq<Event>, t: State, events: seq<Event>, u: State)
    requires Fresh(s) && Runs(s, before, t) && Enabled(t, Run) && t.queue[0].Send? && t.calls[t.queue[0].r].tilde
    requires Runs(Apply(t, Run), events, u)
    ensures
      var r, after := t.queue[0].r, Apply(t, Run);
      && (t.store.access == None ==>
            && after.calls[r].status.Sent? && after.calls[r].header == t.calls[r].header
            && after.timers == t.timers + 1 && after.store == t.store
            && (LogoutPending(u) || SignsOut(after, events, u)))
      && (t.store.access.Some? && !NeedsRefresh(t.store.access.value, t.now) ==>
            && after.calls[r].status.Sent? && after.calls[r].header == Bearer(t.store.access)
            && after.timers == t.timers && after.store == t.store && after.refreshPromise == t.refreshPromise)
  {
    hide Inv, Linked, LogoutPending, Join, NeedsRefresh;
    FreshInv(s);
    RunsKeep(s, before, t);
    StepKeeps(t, Run);
    if t.store.access == None {
      assert LogoutPending(Apply(t, Run)) by { TimerIsPending(Apply(t, Run)); }
      PendingUntilSignedOut(Apply(t, Run), events, u);
    }
  }

  lemma TimerIsPending(s: State)
    requires s.timers > 0
    ensures LogoutPending(s)
  {
  }

  lemma FreshInv(s: State)
    requires Fresh(s)
    ensures Inv(s) && Linked(s)
  {
  }
}
