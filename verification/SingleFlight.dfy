/**
 Calm runs: refreshes succeed and no request joins a promise that has already been fulfilled. They are guarded, so
 single flight holds of them; beyond that, everyone who waited for a refresh sends the token it brought, and
 `refreshPromise` is null once they have resumed.
 */
module SingleFlight {
  import opened Schema
  import opened Client
  import opened ClientRuns
  import opened Flight

  /** The job would enter the guarded refresh. */
  predicate Joins(s: State, job: Job) {
    match job
    case Send(r) =>
      r < |s.calls| && s.calls[r].tilde && s.store.access.Some? && NeedsRefresh(s.store.access.value, s.now)
    case Reply(r, response) => r < |s.calls| && response == Fault(ExpiredToken) && !s.calls[r].retried
    case _ => false
  }

  predicate PromiseFulfilled(s: State) {
    s.refreshPromise.Some? && s.refreshPromise.value < |s.promises| && s.promises[s.refreshPromise.value].Fulfilled?
  }

  /** Refreshes succeed, neither an answer nor the user logs the client out, and nobody joins a fulfilled promise. */
  predicate Calm(s: State, e: Event) {
    match e
    case Deliver(r, response) =>
      && r < |s.calls|
      && (s.calls[r].kind.RefreshCall? ==> response.NewTokens?)
      && response != Fault(InvalidToken) && response != Fault(InvalidRefreshToken)
    case Leave => false
    case Run => s.queue != [] && (Joins(s, s.queue[0]) ==> !PromiseFulfilled(s))
    case _ => true
  }

  ghost predicate CalmRuns(s: State, events: seq<Event>, t: State)
    decreases |events|
  {
    if events == [] then s == t
    else Enabled(s, events[0]) && Calm(s, events[0]) && CalmRuns(Apply(s, events[0]), events[1..], t)
  }

  ghost predicate SignedIn(s: State) {
    Fresh(s) && s.store.access.Some? && s.store.refresh.Some?
  }

  // ---- the invariant ----

  ghost predicate AnyWake(s: State) {
    exists i :: 0 <= i < |s.queue| && s.queue[i].Wake?
  }

  predicate LastIs(s: State, access: Jwt) {
    s.promises != [] && s.promises[|s.promises| - 1] == Fulfilled(access)
  }

  ghost predicate JobCalm(s: State, job: Job) {
    match job
    case Send(_) => true
    case Reply(r, response) =>
      && r < |s.calls| && (s.calls[r].kind.RefreshCall? ==> response.NewTokens?)
      && response != Fault(InvalidToken) && response != Fault(InvalidRefreshToken)
    case Wake(_, p, ok) => ok && p + 1 == |s.promises| && s.store.access.Some? && LastIs(s, s.store.access.value)
    case LogOut => false
  }

  ghost predicate Convex(queue: seq<Job>) {
    forall i, j, k :: 0 <= i < j < k < |queue| && queue[i].Wake? && queue[k].Wake? ==> queue[j].Wake?
  }

  ghost predicate QueueCalm(s: State) {
    && (forall i :: 0 <= i < |s.queue| ==> JobCalm(s, s.queue[i]))
    && Convex(s.queue)
    && (AnyWake(s) && s.refreshPromise.None? ==> s.queue[0].Wake?)
    && (PromiseFulfilled(s) ==> AnyWake(s))
  }

  ghost predicate PromisesCalm(s: State) {
    && (forall p :: 0 <= p < |s.promises| ==> !s.promises[p].Rejected? && (p + 1 < |s.promises| ==> s.promises[p].Fulfilled?))
    && (s.refreshPromise.Some? ==> s.refreshPromise.value + 1 == |s.promises|)
    && (s.promises != [] && s.promises[|s.promises| - 1].Pending? ==>
          s.refreshPromise.Some? && s.promises[|s.promises| - 1].waiters != [])
  }

  ghost predicate NoLogouts(s: State) {
    forall r :: 0 <= r < |s.calls| ==> !s.calls[r].kind.LogoutCall?
  }

  ghost predicate Smooth(s: State) {
    && s.store.access.Some? && s.store.refresh.Some? && s.timers == 0
    && PromisesCalm(s) && QueueCalm(s) && NoLogouts(s)
  }

  // ---- jobs that neither join nor wake ----

  ghost predicate SameKinds(s: State, t: State) {
    |t.calls| == |s.calls| && forall x :: 0 <= x < |s.calls| ==> t.calls[x].kind == s.calls[x].kind
  }

  lemma PopCalm(s: State)
    requires Smooth(s) && s.queue != [] && !s.queue[0].Wake?
    ensures Smooth(s.(queue := s.queue[1..]))
  {
    var t := s.(queue := s.queue[1..]);
    forall i | 0 <= i < |t.queue|
      ensures JobCalm(t, t.queue[i])
    {
      assert t.queue[i] == s.queue[i + 1] && JobCalm(s, s.queue[i + 1]);
    }
    assert Convex(t.queue) by {
      forall i, j, k | 0 <= i < j < k < |t.queue| && t.queue[i].Wake? && t.queue[k].Wake?
        ensures t.queue[j].Wake?
      {
        assert s.queue[i + 1].Wake? && s.queue[k + 1].Wake? && t.queue[j] == s.queue[j + 1];
      }
    }
    if AnyWake(t) {
      var i :| 0 <= i < |t.queue| && t.queue[i].Wake?;
      assert s.queue[i + 1].Wake?;
    }
    if AnyWake(s) {
      var i :| 0 <= i < |s.queue| && s.queue[i].Wake?;
      assert t.queue[i - 1].Wake?;
    }
  }

  /** Rewriting calls of the same kinds, queueing at most one job that is no Wake. */
  lemma CallsMoved(s: State, t: State)
    requires Smooth(s) && SameKinds(s, t)
    requires t.store == s.store && t.refreshPromise == s.refreshPromise && t.promises == s.promises && t.timers == s.timers
    requires t.queue == s.queue || exists job: Job :: t.queue == s.queue + [job] && !job.Wake? && JobCalm(t, job)
    ensures Smooth(t)
  {
    forall i | 0 <= i < |t.queue|
      ensures JobCalm(t, t.queue[i])
    {
      if i < |s.queue| {
        assert t.queue[i] == s.queue[i] && JobCalm(s, s.queue[i]);
      }
    }
    assert Convex(t.queue) by {
      forall i, j, k | 0 <= i < j < k < |t.queue| && t.queue[i].Wake? && t.queue[k].Wake?
        ensures t.queue[j].Wake?
      {
        assert s.queue[i].Wake? && s.queue[k].Wake?;
      }
    }
    if AnyWake(s) {
      var i :| 0 <= i < |s.queue| && s.queue[i].Wake?;
      assert t.queue[i].Wake?;
    }
    if AnyWake(t) {
      var i :| 0 <= i < |t.queue| && t.queue[i].Wake?;
      assert s.queue[i].Wake?;
    }
  }

  /** A fresh call of the app. */
  lemma IssueSmooth(s: State, c: Call)
    requires Smooth(s) && (c.kind.PrivateCall? || c.kind.PublicCall?)
    ensures Smooth(Spawned(s, c))
  {
    var t := Spawned(s, c);
    forall i | 0 <= i < |t.queue|
      ensures JobCalm(t, t.queue[i])
    {
      if i < |s.queue| {
        assert JobCalm(s, s.queue[i]);
      }
    }
    NoWakeAdded(s, t, Send(|s.calls|));
  }

  lemma NoWakeAdded(s: State, t: State, job: Job)
    requires t.queue == s.queue + [job] && !job.Wake? && Convex(s.queue)
    ensures Convex(t.queue) && AnyWake(t) == AnyWake(s) && (s.queue != [] ==> t.queue[0] == s.queue[0])
  {
    assert Convex(t.queue) by {
      forall i, j, k | 0 <= i < j < k < |t.queue| && t.queue[i].Wake? && t.queue[k].Wake?
        ensures t.queue[j].Wake?
      {
        assert s.queue[i].Wake? && s.queue[k].Wake?;
      }
    }
    if AnyWake(s) {
      var i :| 0 <= i < |s.queue| && s.queue[i].Wake?;
      assert t.queue[i].Wake?;
    }
    if AnyWake(t) {
      var i :| 0 <= i < |t.queue| && t.queue[i].Wake?;
      assert s.queue[i].Wake?;
    }
  }

  // ---- joining ----

  /** With no promise, a join starts the only refresh. */
  lemma JoinStarts(s: State, r: nat)
    requires Smooth(s) && s.refreshPromise.None? && !AnyWake(s) && r < |s.calls| && s.calls[r].kind.PrivateCall?
    ensures Smooth(Join(s, r))
  {
    var u := StartRefresh(s);
    var t := Join(s, r);
    var p := |s.promises|;
    assert u.promises[p] == Pending([]) && [] + [r] == [r];
    assert t.promises == s.promises + [Pending([r])];
    assert t.calls == u.calls[r := u.calls[r].(status := Waiting(p))];
    NoWakeAdded(s, t, Send(|s.calls|));
    forall i | 0 <= i < |t.queue|
      ensures JobCalm(t, t.queue[i])
    {
      if i < |s.queue| {
        assert JobCalm(s, s.queue[i]) && !s.queue[i].Wake?;
      }
    }
  }

  /** With a pending promise, a join adds a waiter to it. */
  lemma JoinWaits(s: State, r: nat)
    requires Smooth(s) && s.refreshPromise.Some? && !PromiseFulfilled(s) && r < |s.calls| && s.calls[r].kind.PrivateCall?
    ensures Smooth(Join(s, r))
  {
    var t, p := Join(s, r), s.refreshPromise.value;
    assert s.promises[p].Pending? && p + 1 == |s.promises|;
    assert t.promises == s.promises[p := Pending(s.promises[p].waiters + [r])];
    forall i | 0 <= i < |t.queue|
      ensures JobCalm(t, t.queue[i])
    {
      assert JobCalm(s, s.queue[i]);
    }
    assert AnyWake(t) == AnyWake(s);
  }

  lemma JoinSmooth(s: State, r: nat)
    requires Smooth(s) && !PromiseFulfilled(s) && r < |s.calls| && s.calls[r].kind.PrivateCall?
    requires s.refreshPromise.None? ==> !AnyWake(s)
    ensures Smooth(Join(s, r))
  {
    hide Smooth;
    if s.refreshPromise.None? {
      JoinStarts(s, r);
    } else {
      JoinWaits(s, r);
    }
  }

  // ---- the answer of the refresh call, and the waiters ----

  /** What the answer does: it stores the tokens, fulfils the last promise and queues its waiters in one block. */
  lemma AnswerShape(s: State, r: nat, access: Jwt, refresh: string)
    requires Inv(s) && Linked(s) && Smooth(s) && r < |s.calls| && s.calls[r].kind.RefreshCall? && s.calls[r].status.Answered?
    ensures PromiseInRange(s)
    ensures
      var p, t := s.calls[r].kind.p, RunReply(s, r, NewTokens(access, refresh));
      && p + 1 == |s.promises| && s.promises[p].Pending? && WaitersAt(s, p, s.promises[p].waiters)
      && t == s.(store := s.store.(access := Some(access), refresh := Some(refresh)),
                 promises := s.promises[p := Fulfilled(access)],
                 queue := s.queue + Wakes(s.promises[p].waiters, p, true),
                 calls := Woke(Finish(s, r, true).calls, s.promises[p].waiters))
  {
    hide QueueOk, QueueCalm;
    assert LinkOk(s, r);
  }

  lemma AnswerSmooth(s: State, r: nat, access: Jwt, refresh: string)
    requires Inv(s) && Linked(s) && Smooth(s) && r < |s.calls| && s.calls[r].kind.RefreshCall? && s.calls[r].status.Answered?
    ensures Smooth(RunReply(s, r, NewTokens(access, refresh)))
  {
    hide RunReply, Inv, Linked, Convex, WaitersAt, JobCalm, QueueCalm, PromisesCalm, Finish, AnyWake;
    AnswerShape(s, r, access, refresh);
    var p, t := s.calls[r].kind.p, RunReply(s, r, NewTokens(access, refresh));
    var ws := s.promises[p].waiters;
    AnswerPromises(s, t, p, access);
    PendingMeansNoWake(s, p);
    KindsKept(s, t, r, ws);
    WakesQueued(s, t, ws, p);
    AnswerQueue(s, t, p, ws, access);
  }

  lemma AnswerPromises(s: State, t: State, p: nat, access: Jwt)
    requires PromisesCalm(s) && p + 1 == |s.promises| && s.promises[p].Pending?
    requires t.promises == s.promises[p := Fulfilled(access)] && t.refreshPromise == s.refreshPromise
    ensures PromisesCalm(t) && s.promises[p].waiters != [] && s.refreshPromise.Some?
  {
  }

  lemma PendingMeansNoWake(s: State, p: nat)
    requires QueueCalm(s) && p + 1 == |s.promises| && s.promises[p].Pending?
    ensures !AnyWake(s)
  {
    assert forall i :: 0 <= i < |s.queue| ==> JobCalm(s, s.queue[i]);
  }

  lemma KindsKept(s: State, t: State, r: nat, ws: seq<nat>)
    requires r < |s.calls| && t.calls == Woke(Finish(s, r, true).calls, ws)
    ensures |t.calls| == |s.calls| && forall x :: 0 <= x < |s.calls| ==> t.calls[x].kind == s.calls[x].kind
  {
  }

  lemma AnswerQueue(s: State, t: State, p: nat, ws: seq<nat>, access: Jwt)
    requires QueueCalm(s) && !AnyWake(s) && Convex(t.queue) && AnyWake(t) && t.refreshPromise.Some?
    requires t.queue == s.queue + Wakes(ws, p, true) && p + 1 == |s.promises| == |t.promises|
    requires t.store.access == Some(access) && t.promises[p] == Fulfilled(access) && |t.calls| == |s.calls|
    requires forall x :: 0 <= x < |s.calls| ==> t.calls[x].kind == s.calls[x].kind
    ensures QueueCalm(t)
  {
    hide Convex;
    forall i | 0 <= i < |t.queue|
      ensures JobCalm(t, t.queue[i])
    {
      if i < |s.queue| {
        assert JobCalm(s, s.queue[i]) && t.queue[i] == s.queue[i] && !s.queue[i].Wake?;
      }
    }
  }

  lemma WakesQueued(s: State, t: State, ws: seq<nat>, p: nat)
    requires t.queue == s.queue + Wakes(ws, p, true) && !AnyWake(s) && ws != []
    ensures Convex(t.queue) && AnyWake(t)
  {
    assert t.queue[|s.queue|].Wake?;
    assert forall i :: 0 <= i < |t.queue| ==> (t.queue[i].Wake? <==> |s.queue| <= i);
  }

  /** What a resumed waiter does. */
  lemma WakeShape(s: State)
    requires Inv(s) && Smooth(s) && s.queue != [] && s.queue[0].Wake?
    ensures
      var job, u := s.queue[0], s.(queue := s.queue[1..]);
      && job.r < |s.calls| && JobInRange(u, job) && PromiseInRange(u)
      && var t := RunJob(u, job);
      && t.store == s.store && t.promises == s.promises && t.refreshPromise.None? && t.timers == s.timers
      && SameKinds(s, t) && t.calls[job.r].header == Bearer(s.store.access)
      && s.queue[1..] <= t.queue && forall i :: |s.queue| - 1 <= i < |t.queue| ==> t.queue[i].Send?
  {
    hide QueueCalm;
    assert JobOk(s, s.queue[0]) && CallOk(s.calls[s.queue[0].r]);
    assert JobCalm(s, s.queue[0]) by { SmoothJob(s); }
  }

  lemma SmoothJob(s: State)
    requires Smooth(s) && s.queue != []
    ensures JobCalm(s, s.queue[0])
  {
  }

  /** A waiter resumes: the promise variable is cleared, the rest of the block still heads the queue. */
  lemma WakeSmooth(s: State)
    requires Inv(s) && Smooth(s) && s.queue != [] && s.queue[0].Wake?
    ensures
      var job, u := s.queue[0], s.(queue := s.queue[1..]);
      && JobInRange(u, job) && PromiseInRange(u) && Smooth(RunJob(u, job))
  {
    hide RunJob, Inv, Convex;
    WakeShape(s);
    var t := RunJob(s.(queue := s.queue[1..]), s.queue[0]);
    WakesLeft(s, t);
    forall i | 0 <= i < |t.queue|
      ensures JobCalm(t, t.queue[i])
    {
      if i < |s.queue| - 1 {
        assert s.queue[1..][i] == s.queue[i + 1] && JobCalm(s, s.queue[i + 1]);
      }
    }
    assert s.promises != [] ==> !s.promises[|s.promises| - 1].Pending? by { SmoothJob(s); }
  }

  lemma WakesLeft(s: State, t: State)
    requires Convex(s.queue) && s.queue != [] && s.queue[0].Wake?
    requires s.queue[1..] <= t.queue && forall i :: |s.queue| - 1 <= i < |t.queue| ==> t.queue[i].Send?
    ensures Convex(t.queue) && (AnyWake(t) ==> t.queue[0].Wake?)
  {
    forall i | 0 <= i < |t.queue| && t.queue[i].Wake?
      ensures i + 1 < |s.queue| && s.queue[i + 1].Wake? && t.queue[0].Wake?
    {
      assert s.queue[1..][i] == s.queue[i + 1];
      if i > 0 {
        assert s.queue[1].Wake? && s.queue[1..][0] == s.queue[1];
      }
    }
    forall i, j, k | 0 <= i < j < k < |t.queue| && t.queue[i].Wake? && t.queue[k].Wake?
      ensures t.queue[j].Wake?
    {
      assert s.queue[1..][j] == s.queue[j + 1];
    }
  }

  // ---- steps and runs ----

  lemma MovedCall(s: State, r: nat, c: Call)
    requires Smooth(s) && r < |s.calls| && c.kind == s.calls[r].kind
    ensures Smooth(s.(calls := s.calls[r := c]))
  {
    hide Smooth;
    CallsMoved(s, s.(calls := s.calls[r := c]));
  }

  lemma SendSmooth(s: State, r: nat)
    requires Smooth(s) && r < |s.calls| && s.calls[r].status.Queued? && CallOk(s.calls[r]) && PromiseInRange(s)
    requires Joins(s, Send(r)) ==> !PromiseFulfilled(s)
    requires s.refreshPromise.None? ==> !AnyWake(s)
    ensures Smooth(RunSend(s, r))
  {
    hide PromisesCalm, QueueCalm, NoLogouts, Join;
    var c := s.calls[r];
    if !c.tilde {
      MovedCall(s, r, Dispatch(s, r).calls[r]);
    } else {
      var plain := c.(tilde := false);
      var t := s.(calls := s.calls[r := plain]);
      MovedCall(s, r, plain);
      if NeedsRefresh(s.store.access.value, s.now) {
        assert AnyWake(t) == AnyWake(s);
        JoinSmooth(t, r);
      } else {
        var held := plain.(header := Bearer(s.store.access));
        MovedCall(t, r, held);
        MovedCall(t.(calls := t.calls[r := held]), r, held.(status := Sent, dispatches := held.dispatches + 1));
      }
    }
  }

  lemma ReplySmooth(s: State, r: nat, response: Response)
    requires Smooth(s) && r < |s.calls| && s.calls[r].status.Answered? && PromiseInRange(s)
    requires Answerable(s.calls[r].kind, response) && !response.NewTokens? && JobCalm(s, Reply(r, response))
    requires Joins(s, Reply(r, response)) ==> !PromiseFulfilled(s)
    requires s.refreshPromise.None? ==> !AnyWake(s)
    ensures Smooth(RunReply(s, r, response))
  {
    hide PromisesCalm, QueueCalm, Join;
    if response == Fault(ExpiredToken) && !s.calls[r].retried {
      var c := s.calls[r].(retried := true);
      MovedCall(s, r, c);
      assert AnyWake(s.(calls := s.calls[r := c])) == AnyWake(s);
      JoinSmooth(s.(calls := s.calls[r := c]), r);
    } else {
      MovedCall(s, r, s.calls[r].(status := Settled(response.Success?)));
    }
  }

  lemma RunSmooth(s: State)
    requires Inv(s) && Linked(s) && Smooth(s) && Enabled(s, Run) && Calm(s, Run)
    ensures Smooth(Apply(s, Run))
  {
    hide PromisesCalm, NoLogouts, Convex, WaitersOk, RunSend, RunReply, RunWake;
    var job := s.queue[0];
    assert JobOk(s, job) && JobCalm(s, job);
    if job.Wake? {
      WakeSmooth(s);
    } else {
      PopCalm(s);
      var t := s.(queue := s.queue[1..]);
      PopHead(s);
      assert AnyWake(t) ==> AnyWake(s) by {
        if AnyWake(t) {
          var i :| 0 <= i < |t.queue| && t.queue[i].Wake?;
          assert s.queue[i + 1].Wake?;
        }
      }
      if job.Send? {
        SendSmooth(t, job.r);
      } else if job.response.NewTokens? {
        AnswerPopped(s);
      } else {
        ReplySmooth(t, job.r, job.response);
      }
    }
  }

  lemma AnswerPopped(s: State)
    requires Inv(s) && Linked(s) && Smooth(s) && s.queue != [] && s.queue[0].Reply? && s.queue[0].response.NewTokens?
    ensures
      var job, u := s.queue[0], s.(queue := s.queue[1..]);
      && job.r < |u.calls| && PromiseInRange(u) && Smooth(RunReply(u, job.r, job.response))
  {
    hide Smooth, Linked, CallOk, QueueOk, WaitersOk, RunReply;
    var job, u := s.queue[0], s.(queue := s.queue[1..]);
    PopCalmHead(s);
    LinkedSame(s, u);
    AnswerSmooth(u, job.r, job.response.access, job.response.refresh);
  }

  lemma PopCalmHead(s: State)
    requires Inv(s) && Smooth(s) && s.queue != [] && s.queue[0].Reply? && s.queue[0].response.NewTokens?
    ensures
      var r, u := s.queue[0].r, s.(queue := s.queue[1..]);
      && Inv(u) && Smooth(u) && r < |u.calls| && u.calls[r].kind.RefreshCall? && u.calls[r].status.Answered?
  {
    hide Smooth, WaitersOk;
    assert JobOk(s, s.queue[0]);
    PopCalm(s);
    PopHead(s);
    Whole(s.(queue := s.queue[1..]), s.queue[0].r);
  }

  lemma StepSmooth(s: State, e: Event)
    requires Inv(s) && Linked(s) && Smooth(s) && Enabled(s, e) && Calm(s, e)
    ensures Smooth(Apply(s, e))
  {
    hide Inv, Linked, PromisesCalm, QueueCalm, NoLogouts, RunJob;
    match e
    case Tick(now) => LaterSmooth(s, now);
    case SignIn(_, _) =>
    case Issue(private) =>
      IssueSmooth(s, Call(if private then PrivateCall else PublicCall, private, false, 0, NoHeader, Queued));
    case Deliver(r, response) =>
      var t := Apply(s, e);
      assert JobCalm(t, Reply(r, response)) && t.queue == s.queue + [Reply(r, response)];
      CallsMoved(s, t);
    case Fire =>
    case Leave =>
    case Run => RunSmooth(s);
  }

  lemma LaterSmooth(s: State, now: int)
    requires Smooth(s)
    ensures Smooth(s.(now := now))
  {
    var t := s.(now := now);
    forall i | 0 <= i < |t.queue|
      ensures JobCalm(t, t.queue[i])
    {
      assert JobCalm(s, s.queue[i]);
    }
    assert AnyWake(t) == AnyWake(s);
  }

  lemma {:induction false} CalmRunKeeps(s: State, events: seq<Event>, t: State)
    requires Inv(s) && Linked(s) && Smooth(s) && CalmRuns(s, events, t)
    ensures Inv(t) && Linked(t) && Smooth(t) && GuardedRuns(s, events, t)
    decreases |events|
  {
    hide Inv, Linked, Smooth, Enabled, Apply, Calm, Guarded;
    if events != [] {
      StepKeeps(s, events[0]);
      LinkedStep(s, events[0]);
      StepSmooth(s, events[0]);
      SmoothGuarded(s, events[0]);
      CalmRunKeeps(Apply(s, events[0]), events[1..], t);
    }
  }

  /** Waiters of a fulfilled promise resume before a newer one is made. */
  lemma SmoothGuarded(s: State, e: Event)
    requires Smooth(s)
    ensures Guarded(s, e)
  {
    if s.queue != [] {
      SmoothJob(s);
    }
  }

  lemma StartSmooth(s: State)
    requires SignedIn(s)
    ensures Inv(s) && Linked(s) && Smooth(s)
  {
  }

  /**
   Single flight. In every calm run: at most one refresh call is outstanding and `refreshPromise` holds its promise;
   a waiter that resumes sends the access token its own refresh brought; and once no waiter is left to resume and no
   refresh is outstanding, `refreshPromise` is null.
   */
  lemma AtMostOneRefreshInFlight(s: State, events: seq<Event>, t: State, q: nat, r: nat)
    requires SignedIn(s) && CalmRuns(s, events, t)
    ensures Outstanding(t, q) && Outstanding(t, r) ==> q == r
    ensures forall p :: 0 <= p < |t.promises| && t.promises[p].Pending? ==> t.refreshPromise == Some(p)
    ensures t.queue != [] && t.queue[0].Wake? ==>
      && Enabled(t, Run) && t.queue[0].p < |t.promises| && t.promises[t.queue[0].p].Fulfilled?
      && Apply(t, Run).calls[t.queue[0].r].header == Bearer(Some(t.promises[t.queue[0].p].access))
    ensures !AnyWake(t) && (forall p :: 0 <= p < |t.promises| ==> !t.promises[p].Pending?) ==> t.refreshPromise.None?
  {
    hide Convex, QueueOk, WaitersOk, RunJob, Linked;
    StartSmooth(s);
    CalmRunKeeps(s, events, t);
    GuardedMeansSingleFlight(s, events, t, q, r);
    if t.queue != [] && t.queue[0].Wake? {
      WakeShape(t);
      SmoothJob(t);
    }
  }

  // ---- runs of proactive requests ----

  /** The user does not log out, nothing is answered EXPIRED_TOKEN, and a token just brought is not itself due while its waiters resume. */
  predicate Proactive(s: State, e: Event) {
    match e
    case Deliver(r, response) =>
      && r < |s.calls|
      && (if s.calls[r].kind.RefreshCall? then response.NewTokens? else response == Success || response == Fault(OtherError))
    case Leave => false
    case Run => PromiseFulfilled(s) && s.store.access.Some? ==> !NeedsRefresh(s.store.access.value, s.now)
    case _ => true
  }

  ghost predicate ProactiveRuns(s: State, events: seq<Event>, t: State)
    decreases |events|
  {
    if events == [] then s == t
    else Enabled(s, events[0]) && Proactive(s, events[0]) && ProactiveRuns(Apply(s, events[0]), events[1..], t)
  }

  ghost predicate NoneExpired(s: State) {
    forall i :: 0 <= i < |s.queue| && s.queue[i].Reply? ==> s.queue[i].response != Fault(ExpiredToken)
  }

  lemma NoneExpiredStep(s: State, e: Event)
    requires NoneExpired(s) && Enabled(s, e) && Proactive(s, e)
    ensures NoneExpired(Apply(s, e))
  {
    if e.Run? {
      NoneExpiredJob(s.(queue := s.queue[1..]), s.queue[0]);
    }
  }

  /** A job queues sends and wake-ups, never a response. */
  lemma NoneExpiredJob(s: State, job: Job)
    requires NoneExpired(s) && JobInRange(s, job) && PromiseInRange(s)
    requires job.Reply? ==> job.response != Fault(ExpiredToken)
    ensures NoneExpired(RunJob(s, job))
  {
    hide Woke, NeedsRefresh;
  }

  /** Such runs are calm, so single flight holds of them. */
  lemma {:induction false} ProactiveRunsAreCalm(s: State, events: seq<Event>, t: State)
    requires NoneExpired(s) && ProactiveRuns(s, events, t)
    ensures CalmRuns(s, events, t)
    decreases |events|
  {
    if events != [] {
      hide Apply, Enabled;
      NoneExpiredStep(s, events[0]);
      assert Calm(s, events[0]) by { ProactiveIsCalm(s, events[0]); }
      ProactiveRunsAreCalm(Apply(s, events[0]), events[1..], t);
    }
  }

  lemma ProactiveIsCalm(s: State, e: Event)
    requires NoneExpired(s) && Enabled(s, e) && Proactive(s, e)
    ensures Calm(s, e)
  {
  }

  lemma SingleFlightOfProactiveRequests(s: State, events: seq<Event>, t: State, q: nat, r: nat)
    requires SignedIn(s) && ProactiveRuns(s, events, t)
    ensures Outstanding(t, q) && Outstanding(t, r) ==> q == r
    ensures t.queue != [] && t.queue[0].Wake? ==>
      && Enabled(t, Run) && t.queue[0].p < |t.promises| && t.promises[t.queue[0].p].Fulfilled?
      && Apply(t, Run).calls[t.queue[0].r].header == Bearer(Some(t.promises[t.queue[0].p].access))
    ensures !AnyWake(t) && (forall p :: 0 <= p < |t.promises| ==> !t.promises[p].Pending?) ==> t.refreshPromise.None?
  {
    hide RunJob;
    ProactiveRunsAreCalm(s, events, t);
    AtMostOneRefreshInFlight(s, events, t, q, r);
  }
}
