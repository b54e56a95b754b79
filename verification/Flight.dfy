/**
 Single flight and its exact guard. `refreshPromise` protects a refresh that is under way unless a waiter of an older
 refresh resumes and clears it. In every run where that does not happen, failed refreshes, logouts and sign-ins
 included, at most one refresh call is outstanding; and the first time it happens, a second refresh can be started.
 */
module Flight {
  import opened Schema
  import opened Client
  import opened ClientRuns

  predicate Outstanding(s: State, r: nat) {
    r < |s.calls| && s.calls[r].kind.RefreshCall? && !s.calls[r].status.Settled?
  }

  predicate PromisePending(s: State) {
    s.refreshPromise.Some? && s.refreshPromise.value < |s.promises| && s.promises[s.refreshPromise.value].Pending?
  }

  predicate OkWake(job: Job) {
    job.Wake? && job.ok
  }

  /** No waiter resumes from a fulfilled promise while `refreshPromise` holds a pending one. */
  predicate Guarded(s: State, e: Event) {
    e.Run? && s.queue != [] && OkWake(s.queue[0]) ==> !PromisePending(s)
  }

  ghost predicate GuardedRuns(s: State, events: seq<Event>, t: State)
    decreases |events|
  {
    if events == [] then s == t
    else Enabled(s, events[0]) && Guarded(s, events[0]) && GuardedRuns(Apply(s, events[0]), events[1..], t)
  }

  // ---- the invariant of guarded runs ----

  /** A pending promise is the one in `refreshPromise`. */
  ghost predicate Protected(s: State) {
    forall p :: 0 <= p < |s.promises| && s.promises[p].Pending? ==> s.refreshPromise == Some(p)
  }

  ghost predicate NonePending(s: State) {
    forall p :: 0 <= p < |s.promises| ==> !s.promises[p].Pending?
  }

  /** While a refresh is outstanding, waiters of older ones resume only before its request is sent. */
  ghost predicate Ordered(s: State) {
    forall i, j, r: nat :: 0 <= j <= i < |s.queue| && OkWake(s.queue[i]) && Outstanding(s, r) ==>
      s.calls[r].status.Queued? && s.queue[j] != Send(r)
  }

  lemma NoneOutstanding(s: State)
    requires Linked(s) && NonePending(s)
    ensures forall r: nat :: !Outstanding(s, r)
  {
    forall r: nat
      ensures !Outstanding(s, r)
    {
      assert r < |s.calls| ==> LinkOk(s, r);
    }
  }

  lemma JoinProtected(s: State, r: nat)
    requires Protected(s) && PromiseInRange(s) && r < |s.calls|
    ensures Protected(Join(s, r))
  {
  }

  lemma SendProtected(s: State, r: nat)
    requires Protected(s) && PromiseInRange(s) && r < |s.calls|
    ensures Protected(RunSend(s, r))
  {
    hide Join;
    var t := s.(calls := s.calls[r := s.calls[r].(tilde := false)]);
    JoinProtected(t, r);
  }

  lemma ReplyProtected(s: State, r: nat, response: Response)
    requires Protected(s) && PromiseInRange(s) && r < |s.calls|
    ensures Protected(RunReply(s, r, response))
  {
    hide Join;
    JoinProtected(s.(calls := s.calls[r := s.calls[r].(retried := true)]), r);
  }

  lemma StepProtected(s: State, e: Event)
    requires Protected(s) && Enabled(s, e) && Guarded(s, e)
    ensures Protected(Apply(s, e))
  {
    hide RunSend, RunReply;
    if e.Run? {
      var job, t := s.queue[0], s.(queue := s.queue[1..]);
      if job.Send? {
        SendProtected(t, job.r);
      } else if job.Reply? {
        ReplyProtected(t, job.r, job.response);
      }
    }
  }

  // ---- the order of the queue ----

  /** A step pops at most the head, adds jobs none of which is a successful wake-up, and disturbs no refresh call. */
  ghost predicate Tame(s: State, t: State, popped: nat) {
    && popped <= 1 && popped <= |s.queue| && s.queue[popped..] <= t.queue && |s.calls| <= |t.calls|
    && (forall i :: |s.queue| - popped <= i < |t.queue| ==> !OkWake(t.queue[i]))
    && (forall r: nat :: Outstanding(t, r) && r < |s.calls| ==>
          Outstanding(s, r) && (t.calls[r].status == s.calls[r].status || !s.calls[r].status.Queued? || s.queue[..popped] == [Send(r)]))
    && (forall r: nat :: Outstanding(t, r) && |s.calls| <= r ==> t.calls[r].status.Queued?)
  }

  lemma TameOrdered(s: State, t: State, popped: nat)
    requires Inv(s) && Ordered(s) && Tame(s, t, popped)
    ensures Ordered(t)
  {
    forall i, j, r: nat | 0 <= j <= i < |t.queue| && OkWake(t.queue[i]) && Outstanding(t, r)
      ensures t.calls[r].status.Queued? && t.queue[j] != Send(r)
    {
      var k, h := i + popped, j + popped;
      assert t.queue[i] == s.queue[popped..][i] == s.queue[k] && t.queue[j] == s.queue[popped..][j] == s.queue[h];
      assert JobOk(s, s.queue[h]);
      if r < |s.calls| {
        assert s.calls[r].status.Queued? && s.queue[h] != Send(r);
        assert popped == 1 ==> s.queue[..popped][0] == s.queue[0] != Send(r);
      }
    }
  }

  lemma JoinTame(s: State, r: nat)
    requires PromiseInRange(s) && r < |s.calls| && !s.calls[r].kind.RefreshCall?
    requires s.refreshPromise.Some? ==> !s.promises[s.refreshPromise.value].Fulfilled?
    ensures Tame(s, Join(s, r), 0)
  {
    assert s.queue[0..] == s.queue;
  }

  lemma TamePopped(s: State, t: State)
    requires s.queue != [] && Tame(s.(queue := s.queue[1..]), t, 0)
    ensures Tame(s, t, 1)
  {
    assert s.queue[1..][0..] == s.queue[1..];
  }

  lemma FailureTame(s: State, r: nat, response: Response)
    requires Inv(s) && Linked(s) && r < |s.calls| && s.calls[r].kind.RefreshCall? && s.calls[r].status.Answered?
    requires Answerable(s.calls[r].kind, response) && !response.NewTokens?
    ensures Tame(s, RunReply(s, r, response), 0)
  {
    hide QueueOk, RunReply;
    assert LinkOk(s, r);
    RefreshAnswered(s, r, response);
    var ws := s.promises[s.calls[r].kind.p].waiters;
    assert WaitersAt(s, s.calls[r].kind.p, ws);
    assert s.queue[0..] == s.queue;
    forall x | 0 <= x < |s.calls| && x in ws
      ensures !s.calls[x].kind.RefreshCall?
    {
      assert CallOk(s.calls[x]);
    }
  }

  lemma SendTame(s: State, r: nat)
    requires PromiseInRange(s) && Protected(s) && r < |s.calls| && CallOk(s.calls[r]) && s.calls[r].status.Queued?
    requires !s.calls[r].kind.RefreshCall?
    ensures Tame(s, RunSend(s, r), 0) || NonePending(RunSend(s, r))
  {
    hide Join;
    var c := s.calls[r].(tilde := false);
    var t := s.(calls := s.calls[r := c]);
    if !s.calls[r].tilde || s.store.access.None? || !NeedsRefresh(s.store.access.value, s.now) {
      assert s.queue[0..] == s.queue;
    } else {
      JoinQuietOrTame(t, r);
      if !NonePending(Join(t, r)) {
        TameAfter(s, t, Join(t, r));
      }
    }
  }

  /** A join puts a successful wake-up into the queue only when no refresh is under way. */
  lemma JoinQuietOrTame(s: State, r: nat)
    requires PromiseInRange(s) && Protected(s) && r < |s.calls| && !s.calls[r].kind.RefreshCall?
    ensures Tame(s, Join(s, r), 0) || NonePending(Join(s, r))
  {
    if s.refreshPromise.None? || !s.promises[s.refreshPromise.value].Fulfilled? {
      JoinTame(s, r);
    }
  }

  /** Rewriting calls other than refresh calls first. */
  lemma TameAfter(s: State, t: State, u: State)
    requires t.queue == s.queue && |t.calls| == |s.calls| && Tame(t, u, 0)
    requires forall x :: 0 <= x < |s.calls| && t.calls[x].kind.RefreshCall? ==> t.calls[x] == s.calls[x]
    ensures Tame(s, u, 0)
  {
  }

  lemma ReplyTame(s: State, r: nat, response: Response)
    requires Inv(s) && Linked(s) && Protected(s) && r < |s.calls| && s.calls[r].status.Answered?
    requires Answerable(s.calls[r].kind, response)
    ensures Tame(s, RunReply(s, r, response), 0) || NonePending(RunReply(s, r, response))
  {
    hide Join, QueueOk, WaitersOk, Settle;
    if s.calls[r].kind.RefreshCall? {
      if response.NewTokens? {
        SuccessSettles(s, r, response);
      } else {
        FailureTame(s, r, response);
      }
    } else if response == Fault(ExpiredToken) && !s.calls[r].retried {
      var t := s.(calls := s.calls[r := s.calls[r].(retried := true)]);
      JoinQuietOrTame(t, r);
      if !NonePending(Join(t, r)) {
        TameAfter(s, t, Join(t, r));
      }
    } else {
      assert s.queue[0..] == s.queue;
    }
  }

  lemma SuccessSettles(s: State, r: nat, response: Response)
    requires Inv(s) && Linked(s) && Protected(s) && r < |s.calls| && s.calls[r].kind.RefreshCall? && s.calls[r].status.Answered?
    requires response.NewTokens?
    ensures NonePending(RunReply(s, r, response))
  {
    assert LinkOk(s, r);
  }

  lemma WakeTame(s: State, r: nat, ok: bool)
    requires r < |s.calls| && CallOk(s.calls[r]) && s.calls[r].status.Woken?
    ensures Tame(s, RunWake(s, r, ok), 0)
  {
    assert s.queue[0..] == s.queue;
  }

  lemma DispatchTame(s: State)
    requires PromiseInRange(s) && s.queue != [] && s.queue[0].Send? && JobOk(s, s.queue[0]) && !s.calls[s.queue[0].r].tilde
    ensures Tame(s, RunSend(s.(queue := s.queue[1..]), s.queue[0].r), 1)
  {
    assert s.queue[..1] == [Send(s.queue[0].r)];
  }

  lemma RunTame(s: State)
    requires Inv(s) && Linked(s) && Protected(s) && Enabled(s, Run)
    ensures Tame(s, Apply(s, Run), 1) || NonePending(Apply(s, Run))
  {
    hide Linked, WaitersOk, RunSend, RunReply, RunWake, Tame, NonePending;
    var job, t := s.queue[0], s.(queue := s.queue[1..]);
    assert JobOk(s, job);
    if job.LogOut? {
      assert Tame(s, RunLogOut(t), 1) by { LogOutTame(s); }
    } else if job.Send? && !s.calls[job.r].tilde {
      DispatchTame(s);
    } else {
      PopHead(s);
      LinkedSame(s, t);
      if job.Send? {
        SendTame(t, job.r);
      } else if job.Reply? {
        Whole(t, job.r);
        ReplyTame(t, job.r, job.response);
      } else {
        WakeTame(t, job.r, job.ok);
      }
      if Tame(t, Apply(s, Run), 0) {
        TamePopped(s, Apply(s, Run));
      }
    }
  }

  lemma LogOutTame(s: State)
    requires s.queue != []
    ensures Tame(s, RunLogOut(s.(queue := s.queue[1..])), 1)
  {
  }

  lemma StepOrdered(s: State, e: Event)
    requires Inv(s) && Linked(s) && Protected(s) && Ordered(s) && Enabled(s, e)
    ensures Ordered(Apply(s, e))
  {
    hide Inv, Linked, Protected, RunJob, NonePending;
    if e.Run? {
      RunTame(s);
      if NonePending(Apply(s, e)) {
        LinkedStep(s, e);
        NoneOutstanding(Apply(s, e));
      } else {
        TameOrdered(s, Apply(s, e), 1);
      }
    } else {
      assert s.queue[0..] == s.queue;
      TameOrdered(s, Apply(s, e), 0);
    }
  }

  // ---- guarded runs ----

  ghost predicate Flying(s: State) {
    Inv(s) && Linked(s) && Protected(s) && Ordered(s)
  }

  lemma {:induction false} GuardedRunKeeps(s: State, events: seq<Event>, t: State)
    requires Flying(s) && GuardedRuns(s, events, t)
    ensures Flying(t)
    decreases |events|
  {
    hide Inv, Linked, Protected, Ordered, Enabled, Apply, Guarded;
    if events != [] {
      StepKeeps(s, events[0]);
      LinkedStep(s, events[0]);
      StepProtected(s, events[0]);
      StepOrdered(s, events[0]);
      GuardedRunKeeps(Apply(s, events[0]), events[1..], t);
    }
  }

  lemma FreshFlies(s: State)
    requires Fresh(s)
    ensures Flying(s)
  {
  }

  /**
   Single flight over every guarded run, failures included: at most one refresh call is outstanding, and while one is,
   `refreshPromise` holds its promise, so every further request joins it.
   */
  lemma GuardedMeansSingleFlight(s: State, events: seq<Event>, t: State, q: nat, r: nat)
    requires Fresh(s) && GuardedRuns(s, events, t)
    ensures Outstanding(t, q) && Outstanding(t, r) ==> q == r
    ensures Outstanding(t, r) ==> t.refreshPromise == Some(t.calls[r].kind.p)
    ensures forall p :: 0 <= p < |t.promises| && t.promises[p].Pending? ==> t.refreshPromise == Some(p)
  {
    hide Inv, GuardedRuns;
    FreshFlies(s);
    GuardedRunKeeps(s, events, t);
    if Outstanding(t, r) {
      assert LinkOk(t, r);
      OnlyOne(t, r);
    }
  }

  // ---- the converse: what a broken guard leads to ----

  /** Both tokens or none, as every write of the store leaves it. */
  predicate Paired(store: Store) {
    store.access.Some? <==> store.refresh.Some?
  }

  /** A reply at the head of the queue is one its endpoint can give. */
  predicate HeadFits(s: State) {
    s.queue != [] && s.queue[0].Reply? ==>
      s.queue[0].r < |s.calls| && Answerable(s.calls[s.queue[0].r].kind, s.queue[0].response)
  }

  lemma RepliesFit(s: State)
    requires Inv(s)
    ensures HeadFits(s)
  {
    assert s.queue != [] ==> JobOk(s, s.queue[0]);
  }

  lemma JoinPaired(s: State, r: nat)
    requires Paired(s.store) && PromiseInRange(s) && r < |s.calls|
    ensures Paired(Join(s, r).store)
  {
  }

  lemma SettleStore(s: State, p: nat, outcome: Promise)
    requires p < |s.promises| && !outcome.Pending?
    ensures Settle(s, p, outcome).store == s.store
  {
  }

  lemma ReplyPaired(s: State, r: nat, response: Response)
    requires Paired(s.store) && PromiseInRange(s) && r < |s.calls| && Answerable(s.calls[r].kind, response)
    ensures Paired(RunReply(s, r, response).store)
  {
    hide Join, Settle, Woke, Wakes;
    JoinPaired(s.(calls := s.calls[r := s.calls[r].(retried := true)]), r);
    forall t: State, p: nat, outcome: Promise | p < |t.promises| && !outcome.Pending?
      ensures Settle(t, p, outcome).store == t.store
    {
      SettleStore(t, p, outcome);
    }
  }

  lemma PairedStep(s: State, e: Event)
    requires Paired(s.store) && Enabled(s, e) && HeadFits(s)
    ensures Paired(Apply(s, e).store)
  {
    hide Join, RunReply, NeedsRefresh;
    if e.Run? {
      var job, t := s.queue[0], s.(queue := s.queue[1..]);
      if job.Send? {
        JoinPaired(t.(calls := t.calls[job.r := t.calls[job.r].(tilde := false)]), job.r);
      } else if job.Reply? {
        ReplyPaired(t, job.r, job.response);
      }
    }
  }

  function Abs(x: int): nat {
    if x < 0 then -x else x
  }

  /** A time by which a token is due. */
  function DueBy(access: Jwt, now: int): (later: int)
    ensures now <= later && NeedsRefresh(access, later)
  {
    var x := if access.Jwt? then 1000 * (Abs(access.exp) + Abs(access.iat)) else now;
    if x < now then now else x
  }

  /** The store holds a due access token and a refresh token; nothing else has changed. */
  ghost predicate Armed(s: State, t: State) {
    && t == s.(store := t.store, now := t.now) && Paired(t.store)
    && t.store.access.Some? && NeedsRefresh(t.store.access.value, t.now)
  }

  lemma {:induction false} RunsConcat(s: State, xs: seq<Event>, t: State, ys: seq<Event>, u: State)
    requires Runs(s, xs, t) && Runs(t, ys, u)
    ensures Runs(s, xs + ys, u)
    decreases |xs|
  {
    hide Enabled, Apply;
    if xs == [] {
      assert xs + ys == ys;
    } else {
      RunsConcat(Apply(s, xs[0]), xs[1..], t, ys, u);
      assert (xs + ys)[1..] == xs[1..] + ys;
    }
  }

  lemma OneMore(s: State, events: seq<Event>, t: State, e: Event)
    requires Runs(s, events, t) && Enabled(t, e)
    ensures Runs(s, events + [e], Apply(t, e))
  {
    hide Enabled, Apply;
    assert [e][1..] == [];
    assert Runs(t, [e], Apply(t, e));
    RunsConcat(s, events, t, [e], Apply(t, e));
  }

  const RENEWED := "0123456789abcdefghijklmn"

  /** The user signs in if need be, and waits until the token is due. */
  lemma Arm(s: State) returns (events: seq<Event>, t: State)
    requires Paired(s.store) && Inv(s) && Linked(s)
    ensures Runs(s, events, t) && Armed(s, t) && Inv(t) && Linked(t)
  {
    hide Inv, Linked;
    events, t := [], s;
    if s.store.access.None? {
      var e := SignIn(Jwt(s.now / 1000, s.now / 1000 + 1800), RENEWED);
      OneMore(s, events, t, e);
      StepKeeps(t, e);
      LinkedStep(t, e);
      events, t := events + [e], Apply(t, e);
    }
    var e := Tick(DueBy(t.store.access.value, t.now));
    OneMore(s, events, t, e);
    StepKeeps(t, e);
    LinkedStep(t, e);
    events, t := events + [e], Apply(t, e);
  }

  /** c is the only refresh under way, unanswered, and nothing protects it; request n will look at its token. */
  ghost predicate Exposed(s: State, c: nat, n: nat, k: nat) {
    && Inv(s) && Linked(s) && Paired(s.store) && s.refreshPromise.None?
    && Outstanding(s, c) && !s.calls[c].status.Answered? && (forall r: nat :: Outstanding(s, r) ==> r == c)
    && k < |s.queue| && s.queue[k] == Send(n) && n < |s.calls| && s.calls[n].tilde
  }

  /** Whoever joins now starts a second refresh. */
  lemma SecondRefresh(s: State, r: nat, c: nat)
    requires s.refreshPromise.None? && s.store.refresh.Some? && Outstanding(s, c) && r < |s.calls| && !s.calls[r].kind.RefreshCall?
    ensures Outstanding(Join(s, r), c) && Outstanding(Join(s, r), |s.calls|)
  {
  }

  /** The head job has changed nothing that matters to c and n. */
  ghost predicate Undisturbed(s: State, t: State, c: nat, n: nat) {
    && t.refreshPromise.None? && s.queue != [] && s.queue[1..] <= t.queue && n < |s.calls| <= |t.calls|
    && t.calls[n] == s.calls[n] && Outstanding(t, c) && !t.calls[c].status.Answered?
    && forall r: nat :: Outstanding(t, r) ==> Outstanding(s, r)
  }

  ghost predicate Doubled(s: State, t: State, c: nat) {
    Outstanding(t, c) && Outstanding(t, |s.calls|) && c < |s.calls|
  }

  lemma ExposedSend(s: State, c: nat, n: nat, k: nat)
    requires Exposed(s, c, n, k) && s.store.access.Some? && NeedsRefresh(s.store.access.value, s.now)
    requires s.queue[0].Send?
    ensures s.queue[0].r < |s.calls|
    ensures
      var t := RunSend(s.(queue := s.queue[1..]), s.queue[0].r);
      Doubled(s, t, c) || (k > 0 && Undisturbed(s, t, c, n))
  {
    hide Linked, WaitersOk, Join;
    var r, u := s.queue[0].r, s.(queue := s.queue[1..]);
    assert JobOk(s, s.queue[0]) && CallOk(s.calls[r]);
    if s.calls[r].tilde {
      var v := u.(calls := u.calls[r := u.calls[r].(tilde := false)]);
      SecondRefresh(v, r, c);
    }
  }

  lemma ExposedReply(s: State, c: nat, n: nat, k: nat)
    requires Exposed(s, c, n, k) && s.queue[0].Reply? && s.store.refresh.Some?
    ensures s.queue[0].r < |s.calls| && !s.calls[s.queue[0].r].kind.RefreshCall?
    ensures Answerable(s.calls[s.queue[0].r].kind, s.queue[0].response)
    ensures
      var t := RunReply(s.(queue := s.queue[1..]), s.queue[0].r, s.queue[0].response);
      Doubled(s, t, c) || Undisturbed(s, t, c, n)
  {
    hide Linked, WaitersOk, Join, Settle;
    var r, u := s.queue[0].r, s.(queue := s.queue[1..]);
    assert JobOk(s, s.queue[0]) && CallOk(s.calls[r]) && JobOk(s, s.queue[k]);
    assert !Outstanding(s, r);
    if s.queue[0].response == Fault(ExpiredToken) && !s.calls[r].retried {
      SecondRefresh(u.(calls := u.calls[r := u.calls[r].(retried := true)]), r, c);
    }
  }

  lemma ExposedWake(s: State, c: nat, n: nat, k: nat)
    requires Exposed(s, c, n, k) && s.queue[0].Wake?
    ensures s.queue[0].r < |s.calls| && Undisturbed(s, RunWake(s.(queue := s.queue[1..]), s.queue[0].r, s.queue[0].ok), c, n)
  {
    hide Linked, WaitersOk;
    assert JobOk(s, s.queue[0]) && CallOk(s.calls[s.queue[0].r]) && JobOk(s, s.queue[k]);
  }

  lemma ExposedHead(s: State, c: nat, n: nat, k: nat)
    requires Exposed(s, c, n, k)
    ensures Enabled(s, Run) && HeadFits(s)
  {
    hide Linked, WaitersOk;
    assert JobOk(s, s.queue[0]);
  }

  /** The head job either starts a second refresh or leaves everything exposed. */
  lemma ExposedRun(s: State, c: nat, n: nat, k: nat)
    requires Exposed(s, c, n, k) && s.store.access.Some? && NeedsRefresh(s.store.access.value, s.now)
    ensures Enabled(s, Run)
    ensures var t := Apply(s, Run); Doubled(s, t, c) || (k > 0 && Exposed(t, c, n, k - 1))
  {
    hide Linked, Inv, RunSend, RunReply, RunWake;
    ExposedHead(s, c, n, k);
    StepKeeps(s, Run);
    LinkedStep(s, Run);
    PairedStep(s, Run);
    var t := Apply(s, Run);
    match s.queue[0]
    case LogOut => assert Undisturbed(s, t, c, n);
    case Wake(_, _, _) => ExposedWake(s, c, n, k);
    case Send(_) => ExposedSend(s, c, n, k);
    case Reply(_, _) => ExposedReply(s, c, n, k);
    if !Doubled(s, t, c) {
      assert t.queue[k - 1] == s.queue[1..][k - 1] == s.queue[k];
    }
  }

  lemma {:induction false} ExposedDoubles(s: State, c: nat, n: nat, k: nat) returns (events: seq<Event>, t: State, d: nat)
    requires Exposed(s, c, n, k)
    ensures Runs(s, events, t) && Outstanding(t, c) && Outstanding(t, d) && c != d
    decreases k
  {
    hide Inv, Linked, Apply, Enabled;
    var u: State;
    events, u := Arm(s);
    assert u.calls == s.calls && u.queue == s.queue;
    assert forall r: nat :: Outstanding(u, r) ==> Outstanding(s, r);
    ExposedRun(u, c, n, k);
    OneMore(s, events, u, Run);
    events, t := events + [Run], Apply(u, Run);
    if Doubled(u, t, c) {
      d := |u.calls|;
    } else {
      var more: seq<Event>;
      var v := t;
      more, t, d := ExposedDoubles(v, c, n, k - 1);
      RunsConcat(s, events, v, more, t);
      events := events + more;
    }
  }

  lemma {:induction false} GuardedRunsPaired(s: State, events: seq<Event>, t: State)
    requires Flying(s) && Paired(s.store) && GuardedRuns(s, events, t)
    ensures Paired(t.store)
    decreases |events|
  {
    hide Inv, Linked, Protected, Ordered, Apply, Enabled, Guarded;
    if events != [] {
      var e := events[0];
      StepKeeps(s, e);
      LinkedStep(s, e);
      StepProtected(s, e);
      StepOrdered(s, e);
      RepliesFit(s);
      PairedStep(s, e);
      GuardedRunsPaired(Apply(s, e), events[1..], t);
    }
  }

  /** Right after the break: the refresh is unprotected and not yet sent. */
  lemma BrokenGuardExposes(s: State) returns (c: nat, t: State)
    requires Flying(s) && Paired(s.store) && Enabled(s, Run) && !Guarded(s, Run)
    ensures t == Apply(Apply(s, Run), Issue(true)) && |t.calls| > 0 && |t.queue| > 0
    ensures Exposed(t, c, |t.calls| - 1, |t.queue| - 1)
  {
    hide Protected, WaitersOk;
    var p := s.refreshPromise.value;
    c :| Serves(s, c, p);
    assert LinkOk(s, c) && JobOk(s, s.queue[0]) && CallOk(s.calls[s.queue[0].r]);
    assert Outstanding(s, c) && OkWake(s.queue[0]);
    assert s.calls[c].status.Queued?;
    OnlyOne(s, c);
    var u := Apply(s, Run);
    StepKeeps(s, Run);
    LinkedStep(s, Run);
    StepKeeps(u, Issue(true));
    LinkedStep(u, Issue(true));
    t := Apply(u, Issue(true));
    assert forall r: nat :: Outstanding(t, r) ==> Outstanding(s, r);
    assert Outstanding(t, c) && t.calls[c] == s.calls[c];
    assert t.queue[|t.queue| - 1] == Send(|t.calls| - 1) && t.calls[|t.calls| - 1].tilde;
  }

  lemma OnlyOne(s: State, c: nat)
    requires Linked(s) && Protected(s) && Outstanding(s, c)
    ensures forall r: nat :: Outstanding(s, r) ==> r == c
  {
    forall r: nat | Outstanding(s, r)
      ensures r == c
    {
      assert LinkOk(s, r) && LinkOk(s, c);
      assert Serves(s, r, s.calls[r].kind.p) && Serves(s, c, s.calls[c].kind.p);
    }
  }

  /**
   The guard is exact: a run that has kept it so far and is about to break it can be continued to a state with two
   refresh calls outstanding.
   */
  lemma BrokenGuardBreaksSingleFlight(s: State, events: seq<Event>, t: State)
    returns (more: seq<Event>, u: State, c: nat, d: nat)
    requires Fresh(s) && Paired(s.store) && GuardedRuns(s, events, t) && Enabled(t, Run) && !Guarded(t, Run)
    ensures Runs(t, [Run] + more, u) && Outstanding(u, c) && Outstanding(u, d) && c != d
  {
    hide Flying, GuardedRuns, Exposed, Guarded;
    FreshFlies(s);
    GuardedRunKeeps(s, events, t);
    GuardedRunsPaired(s, events, t);
    var v: State;
    c, v := BrokenGuardExposes(t);
    var rest: seq<Event>;
    rest, u, d := ExposedDoubles(v, c, |v.calls| - 1, |v.queue| - 1);
    RunNone(t);
    OneMore(t, [], t, Run);
    OneMore(t, [] + [Run], Apply(t, Run), Issue(true));
    RunsConcat(t, [] + [Run] + [Issue(true)], v, rest, u);
    more := [Issue(true)] + rest;
    assert [] + [Run] + [Issue(true)] + rest == [Run] + more;
  }

  lemma RunNone(s: State)
    ensures Runs(s, [], s)
  {
  }
}
