/**
 When no refresh call will ever be made again. `refreshPromise` is reset only by a waiter that resumes from a fulfilled
 promise, so a rejected one can stay for good, through logouts and new sign-ins. The condition is exact in every
 reachable state, and so are its consequences for a refresh that fails on the wire or for want of a token.
 */
module FailedRefresh {
  import opened Schema
  import opened Client
  import opened ClientRuns
  import opened Attended
  import opened Flight

  ghost predicate NewRefreshCall(s: State, t: State, r: nat) {
    |s.calls| <= r < |t.calls| && t.calls[r].kind.RefreshCall?
  }

  /** No run from here makes a refresh call, whatever the user and the server do. */
  ghost predicate NeverAgain(s: State) {
    forall events, t, r: nat :: Runs(s, events, t) ==> !NewRefreshCall(s, t, r)
  }

  predicate FaultFor(job: Job, r: nat) {
    job.Reply? && job.r == r && job.response.Fault?
  }

  /** The call is outstanding, but its error answer is already queued. */
  ghost predicate Doomed(queue: seq<Job>, r: nat) {
    exists i :: 0 <= i < |queue| && FaultFor(queue[i], r)
  }

  ghost predicate AllDoomed(s: State) {
    forall r: nat :: Outstanding(s, r) ==> Doomed(s.queue, r)
  }

  ghost predicate NoOkWake(queue: seq<Job>) {
    forall i :: 0 <= i < |queue| ==> !OkWake(queue[i])
  }

  /** `refreshPromise` holds a promise that is not fulfilled, and nothing that is under way can change that. */
  ghost predicate Lost(s: State) {
    && s.refreshPromise.Some? && s.refreshPromise.value < |s.promises| && !s.promises[s.refreshPromise.value].Fulfilled?
    && NoOkWake(s.queue) && AllDoomed(s)
  }

  // ---- a lost client stays lost ----

  ghost predicate SameKinds(s: State, t: State) {
    |s.calls| <= |t.calls| && forall r :: 0 <= r < |s.calls| ==> t.calls[r].kind == s.calls[r].kind
  }

  /** What a step of a lost client leaves alone. */
  ghost predicate StaysLost(s: State, t: State) {
    Lost(t) && SameKinds(s, t) && forall r: nat :: !NewRefreshCall(s, t, r)
  }

  lemma DoomedKept(s: State, t: State)
    requires s.queue != [] && s.queue[1..] <= t.queue
    ensures forall r: nat :: Doomed(s.queue, r) && !FaultFor(s.queue[0], r) ==> Doomed(t.queue, r)
  {
    forall r: nat | Doomed(s.queue, r) && !FaultFor(s.queue[0], r)
      ensures Doomed(t.queue, r)
    {
      var i :| 0 <= i < |s.queue| && FaultFor(s.queue[i], r);
      assert t.queue[i - 1] == s.queue[1..][i - 1];
    }
  }

  lemma NoOkWakeKept(s: State, t: State)
    requires NoOkWake(s.queue) && s.queue != [] && s.queue[1..] <= t.queue
    requires forall i :: |s.queue| - 1 <= i < |t.queue| ==> !OkWake(t.queue[i])
    ensures NoOkWake(t.queue)
  {
    assert forall i :: 0 <= i < |s.queue| - 1 ==> t.queue[i] == s.queue[1..][i] == s.queue[i + 1];
  }

  /** What a job does while `refreshPromise` holds an unfulfilled promise and no successful wake-up is at hand. */
  ghost predicate Harmless(s: State, t: State) {
    && t.refreshPromise == s.refreshPromise && |t.promises| == |s.promises| && SameKinds(s, t)
    && (forall p :: 0 <= p < |s.promises| && t.promises[p].Fulfilled? ==> s.promises[p].Fulfilled?)
    && s.queue <= t.queue && (forall i :: |s.queue| <= i < |t.queue| ==> !OkWake(t.queue[i]))
    && (forall r: nat :: Outstanding(t, r) ==> Outstanding(s, r)) && forall r: nat :: !NewRefreshCall(s, t, r)
  }

  ghost predicate Blocked(s: State) {
    s.refreshPromise.Some? && s.refreshPromise.value < |s.promises| && !s.promises[s.refreshPromise.value].Fulfilled?
  }

  lemma SendHarmless(s: State, r: nat)
    requires Blocked(s) && r < |s.calls| && !s.calls[r].status.Settled?
    ensures Harmless(s, RunSend(s, r))
  {
  }

  lemma FailedHarmless(s: State, r: nat, response: Response)
    requires Inv(s) && Linked(s) && Blocked(s) && r < |s.calls| && s.calls[r].status.Answered? && Answerable(s.calls[r].kind, response)
    requires s.calls[r].kind.RefreshCall? && response.Fault?
    ensures Harmless(s, RunReply(s, r, response)) && !Outstanding(RunReply(s, r, response), r)
  {
    hide QueueOk, RunReply;
    assert LinkOk(s, r);
    RefreshAnswered(s, r, response);
    var ws := s.promises[s.calls[r].kind.p].waiters;
    assert WaitersAt(s, s.calls[r].kind.p, ws);
    forall x | 0 <= x < |s.calls| && x in ws
      ensures !s.calls[x].kind.RefreshCall?
    {
      assert CallOk(s.calls[x]);
    }
  }

  lemma ReplyHarmless(s: State, r: nat, response: Response)
    requires Blocked(s) && r < |s.calls| && !s.calls[r].kind.RefreshCall? && Answerable(s.calls[r].kind, response)
    ensures Harmless(s, RunReply(s, r, response))
  {
  }

  lemma WakeHarmless(s: State, r: nat)
    requires r < |s.calls| && !s.calls[r].kind.RefreshCall?
    ensures Harmless(s, RunWake(s, r, false))
  {
  }

  lemma HarmlessLost(s: State, t: State)
    requires Lost(s) && s.queue != [] && Harmless(s.(queue := s.queue[1..]), t)
    requires forall r: nat :: FaultFor(s.queue[0], r) ==> !Outstanding(t, r)
    ensures StaysLost(s, t)
  {
    hide Doomed;
    DoomedKept(s, t);
    NoOkWakeKept(s, t);
    forall r: nat | Outstanding(t, r)
      ensures Doomed(t.queue, r)
    {
      assert Outstanding(s, r) && !FaultFor(s.queue[0], r);
    }
    assert forall r: nat :: !NewRefreshCall(s.(queue := s.queue[1..]), t, r) ==> !NewRefreshCall(s, t, r);
  }

  /** The only reply a doomed call will get is its error. */
  lemma DoomedHead(s: State, r: nat)
    requires QueueOk(s) && Doomed(s.queue, r) && s.queue[0].Reply? && s.queue[0].r == r
    ensures s.queue[0].response.Fault?
  {
    var i :| 0 <= i < |s.queue| && FaultFor(s.queue[i], r);
    assert i == 0 || !SameCall(s.queue[0], s.queue[i]);
  }

  lemma LostJob(s: State)
    requires Inv(s) && Linked(s) && Lost(s) && Enabled(s, Run)
    ensures StaysLost(s, Apply(s, Run))
  {
    hide Harmless, RunSend, RunReply, RunWake, WaitersOk, Linked, Doomed;
    var job, u := s.queue[0], s.(queue := s.queue[1..]);
    assert JobOk(s, job) && !OkWake(job);
    match job {
      case LogOut =>
        assert Harmless(u, RunLogOut(u)) by { LogOutHarmless(u); }
      case Send(r) => SendHarmless(u, r);
      case Wake(r, _, _) =>
        assert CallOk(s.calls[r]);
        WakeHarmless(u, r);
      case Reply(r, response) =>
        PopHead(s);
        Whole(u, r);
        LinkedSame(s, u);
        if s.calls[r].kind.RefreshCall? {
          assert Outstanding(s, r);
          DoomedHead(s, r);
          FailedHarmless(u, r, response);
        } else {
          ReplyHarmless(u, r, response);
          HeadNotRefresh(s, r);
        }
    }
    HarmlessLost(s, Apply(s, Run));
  }

  lemma LogOutHarmless(s: State)
    ensures Harmless(s, RunLogOut(s))
  {
  }

  lemma HeadNotRefresh(s: State, r: nat)
    requires Inv(s) && Enabled(s, Run) && s.queue[0].Reply? && s.queue[0].r == r && !s.calls[r].kind.RefreshCall?
    ensures !Outstanding(Apply(s, Run), r)
  {
    assert JobOk(s, s.queue[0]);
    SameKind(s.(queue := s.queue[1..]), r, s.queue[0].response);
  }

  lemma SameKind(s: State, r: nat, response: Response)
    requires PromiseInRange(s) && r < |s.calls| && !s.calls[r].kind.RefreshCall? && Answerable(s.calls[r].kind, response)
    ensures !Outstanding(RunReply(s, r, response), r)
  {
  }

  /** Between two jobs nothing but replies, logouts and new calls arrives, and no doomed call is answered again. */
  lemma LostArrival(s: State, e: Event)
    requires Inv(s) && Lost(s) && Enabled(s, e) && !e.Run?
    ensures StaysLost(s, Apply(s, e))
  {
    hide WaitersOk;
    var t := Apply(s, e);
    forall r: nat | Outstanding(t, r)
      ensures Doomed(t.queue, r)
    {
      assert Outstanding(s, r);
      var i :| 0 <= i < |s.queue| && FaultFor(s.queue[i], r);
      assert t.queue[i] == s.queue[i];
    }
  }

  lemma LostStep(s: State, e: Event)
    requires Inv(s) && Linked(s) && Lost(s) && Enabled(s, e)
    ensures StaysLost(s, Apply(s, e))
  {
    hide Inv, Linked, Lost, StaysLost, Apply;
    if e.Run? {
      LostJob(s);
    } else {
      LostArrival(s, e);
    }
  }

  /** From a lost state no run makes a refresh call again: logouts and sign-ins included. */
  lemma {:induction false} LostForever(s: State, events: seq<Event>, t: State)
    requires Inv(s) && Linked(s) && Lost(s) && Runs(s, events, t)
    ensures StaysLost(s, t)
    decreases |events|
  {
    hide Inv, Linked, Lost, Enabled, Apply;
    if events != [] {
      var u := Apply(s, events[0]);
      LostStep(s, events[0]);
      StepKeeps(s, events[0]);
      LinkedStep(s, events[0]);
      LostForever(u, events[1..], t);
      assert forall r: nat :: NewRefreshCall(s, t, r) ==> NewRefreshCall(s, u, r) || NewRefreshCall(u, t, r);
    }
  }

  // ---- a client that is not lost can refresh again ----

  /** Everything known of a reachable state whose store was written by the app. */
  ghost predicate Sound(s: State) {
    Inv(s) && Linked(s) && AllAttended(s) && Paired(s.store)
  }

  lemma KindsStep(s: State, e: Event)
    requires Enabled(s, e)
    ensures SameKinds(s, Apply(s, e))
  {
    hide Join, RunReply;
    if e.Run? {
      var job, t := s.queue[0], s.(queue := s.queue[1..]);
      if job.Send? {
        JoinKinds(t.(calls := t.calls[job.r := t.calls[job.r].(tilde := false)]), job.r);
      } else if job.Reply? {
        ReplyKinds(t, job.r, job.response);
      }
    }
  }

  lemma ReplyKinds(s: State, r: nat, response: Response)
    requires PromiseInRange(s) && r < |s.calls|
    ensures SameKinds(s, RunReply(s, r, response))
  {
    hide Join, Settle;
    JoinKinds(s.(calls := s.calls[r := s.calls[r].(retried := true)]), r);
    forall t: State, p: nat, outcome: Promise | p < |t.promises| && !outcome.Pending?
      ensures SameKinds(t, Settle(t, p, outcome))
    {
      SettleKinds(t, p, outcome);
    }
  }

  lemma JoinKinds(s: State, r: nat)
    requires PromiseInRange(s) && r < |s.calls|
    ensures SameKinds(s, Join(s, r))
  {
  }

  lemma SettleKinds(s: State, p: nat, outcome: Promise)
    requires p < |s.promises| && !outcome.Pending?
    ensures SameKinds(s, Settle(s, p, outcome))
  {
  }

  lemma SoundStep(s: State, e: Event)
    requires Sound(s) && Enabled(s, e)
    ensures Sound(Apply(s, e)) && SameKinds(s, Apply(s, e))
    ensures if e.Run? then s.queue[1..] <= Apply(s, e).queue else s.queue <= Apply(s, e).queue
  {
    hide Inv, Linked, AllAttended, Apply, Enabled;
    KindsStep(s, e);
    StepKeeps(s, e);
    LinkedStep(s, e);
    AttendedStep(s, e);
    RepliesFit(s);
    PairedStep(s, e);
  }

  lemma {:induction false} SoundRuns(s: State, events: seq<Event>, t: State)
    requires Sound(s) && Runs(s, events, t)
    ensures Sound(t) && |s.calls| <= |t.calls|
    decreases |events|
  {
    hide Sound, Enabled, Apply;
    if events != [] {
      SoundStep(s, events[0]);
      SoundRuns(Apply(s, events[0]), events[1..], t);
    }
  }

  lemma ArmSound(s: State) returns (events: seq<Event>, t: State)
    requires Sound(s)
    ensures Runs(s, events, t) && Armed(s, t) && Sound(t) && t.store.refresh.Some?
  {
    hide Inv, Linked;
    events, t := Arm(s);
    assert t.calls == s.calls && t.queue == s.queue;
    assert AllAttended(t) by {
      forall r | 0 <= r < |t.calls|
        ensures AttendedCall(t, r)
      {
        assert AttendedCall(s, r);
      }
    }
  }

  lemma HeadRuns(s: State)
    requires Sound(s) && s.queue != []
    ensures Enabled(s, Run) && JobOk(s, s.queue[0])
  {
    hide Linked, AllAttended, WaitersOk;
  }

  /** The queue is worked off up to a job. */
  lemma {:induction false} Drain(s: State, k: nat) returns (events: seq<Event>, t: State)
    requires Sound(s) && k < |s.queue|
    ensures Runs(s, events, t) && Sound(t) && SameKinds(s, t) && t.queue != [] && t.queue[0] == s.queue[k]
    decreases k
  {
    hide Sound, Apply, Enabled;
    if k == 0 {
      events, t := [], s;
      RunNone(s);
    } else {
      HeadRuns(s);
      SoundStep(s, Run);
      var u := Apply(s, Run);
      assert u.queue[k - 1] == s.queue[1..][k - 1] == s.queue[k];
      events, t := Drain(u, k - 1);
      RunNone(s);
      OneMore(s, [], s, Run);
      RunsConcat(s, [] + [Run], u, events, t);
      events := [] + [Run] + events;
    }
  }

  /** The request n will look at its token, and finds no promise. */
  ghost predicate Asking(s: State, n: nat, k: nat) {
    k < |s.queue| && s.queue[k] == Send(n) && n < |s.calls| && s.calls[n].tilde && s.calls[n].status.Queued?
  }

  /** A job of another call leaves a queued call alone. */
  lemma AskingKept(s: State, n: nat, k: nat)
    requires Sound(s) && Asking(s, n, k) && k > 0
    ensures Enabled(s, Run) && Asking(Apply(s, Run), n, k - 1)
  {
    hide RunJob, Linked, AllAttended, Paired;
    HeadRuns(s);
    SoundStep(s, Run);
    var t := Apply(s, Run);
    assert t.queue[k - 1] == s.queue[1..][k - 1] == s.queue[k];
    QueuedUntouched(s, n, k);
  }

  lemma QueuedUntouched(s: State, n: nat, k: nat)
    requires Inv(s) && Asking(s, n, k) && k > 0 && Enabled(s, Run)
    ensures n < |Apply(s, Run).calls| && Apply(s, Run).calls[n] == s.calls[n]
  {
    hide Join, Settle, CallOk;
    var job, u := s.queue[0], s.(queue := s.queue[1..]);
    assert JobOk(s, job) && !SameCall(job, s.queue[k]);
    JoinUntouched(n);
    if job.Reply? {
      SettleUntouched(s, n);
    }
  }

  lemma JoinUntouched(n: nat)
    ensures forall t: State, r: nat :: PromiseInRange(t) && r < |t.calls| && n < |t.calls| && r != n ==>
      n < |Join(t, r).calls| && Join(t, r).calls[n] == t.calls[n]
  {
  }

  lemma SettleUntouched(s: State, n: nat)
    requires Inv(s) && n < |s.calls| && s.calls[n].status.Queued?
    ensures forall t: State, p: nat, outcome: Promise ::
      p < |t.promises| && !outcome.Pending? && t.promises == s.promises && |t.calls| == |s.calls| && t.calls[n] == s.calls[n] ==>
        n < |Settle(t, p, outcome).calls| && Settle(t, p, outcome).calls[n] == s.calls[n]
  {
    forall p | 0 <= p < |s.promises| && s.promises[p].Pending?
      ensures n !in s.promises[p].waiters
    {
      assert WaitersAt(s, p, s.promises[p].waiters);
    }
  }

  /** Without a promise, an armed client that joins makes a refresh call; any other job leaves it without a promise. */
  lemma OpenRun(s: State)
    requires Sound(s) && s.refreshPromise.None? && s.queue != []
    requires s.store.refresh.Some? && s.store.access.Some? && NeedsRefresh(s.store.access.value, s.now)
    ensures Enabled(s, Run)
    ensures NewRefreshCall(s, Apply(s, Run), |s.calls|) || Apply(s, Run).refreshPromise.None?
    ensures s.queue[0].Send? && s.calls[s.queue[0].r].tilde ==> NewRefreshCall(s, Apply(s, Run), |s.calls|)
  {
    hide Linked, AllAttended, WaitersOk, Settle;
    HeadRuns(s);
    SettleKeepsPromise();
  }

  lemma SettleKeepsPromise()
    ensures forall t: State, p: nat, outcome: Promise :: p < |t.promises| && !outcome.Pending? ==>
      Settle(t, p, outcome).refreshPromise == t.refreshPromise
  {
  }

  /** A new refresh call of a later state is one of an earlier state too. */
  lemma Later(s: State, before: seq<Event>, t: State, after: seq<Event>, u: State, r: nat) returns (events: seq<Event>)
    requires Runs(s, before, t) && |s.calls| <= |t.calls| && Runs(t, after, u) && NewRefreshCall(t, u, r)
    ensures Runs(s, events, u) && NewRefreshCall(s, u, r)
  {
    events := before + after;
    RunsConcat(s, before, t, after, u);
  }

  /** One job of an armed client without a promise. */
  lemma OpenStep(s: State, n: nat, k: nat) returns (events: seq<Event>, u: State, t: State)
    requires Sound(s) && s.refreshPromise.None? && Asking(s, n, k)
    ensures Runs(s, events, t) && Sound(t) && |s.calls| == |u.calls| <= |t.calls|
    ensures NewRefreshCall(s, t, |s.calls|) || (k > 0 && t.refreshPromise.None? && Asking(t, n, k - 1))
  {
    hide Sound, Apply, Enabled;
    events, u := ArmSound(s);
    assert Asking(u, n, k);
    OpenRun(u);
    SoundStep(u, Run);
    OneMore(s, events, u, Run);
    events, t := events + [Run], Apply(u, Run);
    if k > 0 {
      AskingKept(u, n, k);
    }
  }

  lemma {:induction false} OpenRefreshes(s: State, n: nat, k: nat) returns (events: seq<Event>, t: State, r: nat)
    requires Sound(s) && s.refreshPromise.None? && Asking(s, n, k)
    ensures Runs(s, events, t) && NewRefreshCall(s, t, r)
    decreases k
  {
    hide Sound, Asking;
    var u: State;
    var v: State;
    events, u, v := OpenStep(s, n, k);
    if NewRefreshCall(s, v, |s.calls|) {
      t, r := v, |s.calls|;
    } else {
      var more: seq<Event>;
      more, t, r := OpenRefreshes(v, n, k - 1);
      events := Later(s, events, v, more, t, r);
    }
  }

  /** A private request joins the queue. */
  lemma Issued(s: State) returns (t: State)
    requires Sound(s)
    ensures Enabled(s, Issue(true)) && t == Apply(s, Issue(true)) && Sound(t) && |s.calls| <= |t.calls|
    ensures Asking(t, |s.calls|, |s.queue|) && t.refreshPromise == s.refreshPromise && t.promises == s.promises
    ensures s.queue <= t.queue && t.store == s.store
  {
    t := Apply(s, Issue(true));
    SoundStep(s, Issue(true));
  }

  lemma NoPromiseRefreshes(s: State) returns (events: seq<Event>, t: State, r: nat)
    requires Sound(s) && s.refreshPromise.None?
    ensures Runs(s, events, t) && NewRefreshCall(s, t, r)
  {
    hide Sound, Asking, Apply, Enabled;
    var u := Issued(s);
    RunNone(s);
    OneMore(s, [], s, Issue(true));
    var more: seq<Event>;
    more, t, r := OpenRefreshes(u, |s.calls|, |s.queue|);
    events := Later(s, [] + [Issue(true)], u, more, t, r);
  }

  /** A successful wake-up clears the promise when its turn comes. */
  lemma OkWakeRefreshes(s: State, k: nat) returns (events: seq<Event>, t: State, r: nat)
    requires Sound(s) && k < |s.queue| && OkWake(s.queue[k])
    ensures Runs(s, events, t) && NewRefreshCall(s, t, r)
  {
    hide Sound, Runs, Enabled;
    var u: State;
    events, u := Drain(s, k);
    HeadRuns(u);
    SoundStep(u, Run);
    var v := Apply(u, Run);
    OneMore(s, events, u, Run);
    var more: seq<Event>;
    more, t, r := NoPromiseRefreshes(v);
    events := Later(s, events + [Run], v, more, t, r);
  }

  /** A job of an armed client that waits for nothing: somebody wakes up with success, or the promise stays. */
  lemma FulfilledRun(s: State)
    requires Sound(s) && Blockless(s) && NoOkWake(s.queue) && s.queue != []
    requires s.store.refresh.Some? && s.store.access.Some? && NeedsRefresh(s.store.access.value, s.now)
    ensures Enabled(s, Run)
    ensures !NoOkWake(Apply(s, Run).queue) || Blockless(Apply(s, Run))
    ensures s.queue[0].Send? && s.calls[s.queue[0].r].tilde ==> !NoOkWake(Apply(s, Run).queue)
  {
    hide Linked, AllAttended, WaitersOk, Settle, NoOkWake;
    HeadRuns(s);
    assert !OkWake(s.queue[0]) by { FirstNotOk(s); }
    var t := Apply(s, Run);
    SettleFulfilled(s);
    if s.queue[0].Send? && s.calls[s.queue[0].r].tilde {
      assert OkWake(t.queue[|t.queue| - 1]);
      SomeOk(t.queue, |t.queue| - 1);
    } else if s.queue[0].Reply? && s.queue[0].response == Fault(ExpiredToken) && !s.calls[s.queue[0].r].retried {
      assert OkWake(t.queue[|t.queue| - 1]);
      SomeOk(t.queue, |t.queue| - 1);
    }
  }

  /** `refreshPromise` holds a fulfilled promise. */
  ghost predicate Blockless(s: State) {
    s.refreshPromise.Some? && s.refreshPromise.value < |s.promises| && s.promises[s.refreshPromise.value].Fulfilled?
  }

  lemma FirstNotOk(s: State)
    requires NoOkWake(s.queue) && s.queue != []
    ensures !OkWake(s.queue[0])
  {
  }

  lemma SomeOk(queue: seq<Job>, i: nat)
    requires i < |queue| && OkWake(queue[i])
    ensures !NoOkWake(queue)
  {
  }

  lemma SettleFulfilled(s: State)
    ensures forall t: State, p: nat, outcome: Promise :: p < |t.promises| && !outcome.Pending? && Blockless(t) ==>
      Blockless(Settle(t, p, outcome))
  {
  }

  lemma FulfilledStep(s: State, n: nat, k: nat) returns (events: seq<Event>, t: State)
    requires Sound(s) && Blockless(s) && NoOkWake(s.queue) && Asking(s, n, k)
    ensures Runs(s, events, t) && Sound(t) && |s.calls| <= |t.calls|
    ensures !NoOkWake(t.queue) || (k > 0 && Blockless(t) && Asking(t, n, k - 1))
  {
    hide Sound, Apply, Enabled, NoOkWake;
    var u: State;
    events, u := ArmSound(s);
    assert Asking(u, n, k) && Blockless(u) && u.queue == s.queue;
    FulfilledRun(u);
    SoundStep(u, Run);
    OneMore(s, events, u, Run);
    events, t := events + [Run], Apply(u, Run);
    if k > 0 {
      AskingKept(u, n, k);
    }
  }

  lemma {:induction false} FulfilledRefreshes(s: State, n: nat, k: nat) returns (events: seq<Event>, t: State, r: nat)
    requires Sound(s) && Blockless(s) && Asking(s, n, k)
    ensures Runs(s, events, t) && NewRefreshCall(s, t, r)
    decreases k
  {
    hide Sound, Asking, Blockless;
    if i :| 0 <= i < |s.queue| && OkWake(s.queue[i]) {
      events, t, r := OkWakeRefreshes(s, i);
    } else {
      var u: State;
      var more: seq<Event>;
      events, u := FulfilledStep(s, n, k);
      if i :| 0 <= i < |u.queue| && OkWake(u.queue[i]) {
        more, t, r := OkWakeRefreshes(u, i);
      } else {
        more, t, r := FulfilledRefreshes(u, n, k - 1);
      }
      events := Later(s, events, u, more, t, r);
    }
  }

  lemma FulfilledPromiseRefreshes(s: State) returns (events: seq<Event>, t: State, r: nat)
    requires Sound(s) && Blockless(s)
    ensures Runs(s, events, t) && NewRefreshCall(s, t, r)
  {
    hide Sound, Asking, Apply, Enabled;
    var u := Issued(s);
    RunNone(s);
    OneMore(s, [], s, Issue(true));
    var more: seq<Event>;
    more, t, r := FulfilledRefreshes(u, |s.calls|, |s.queue|);
    events := Later(s, [] + [Issue(true)], u, more, t, r);
  }

  // ---- an outstanding call that is not doomed can be answered with tokens ----

  lemma NewTokensQueued(s: State, r: nat, k: nat) returns (events: seq<Event>, t: State, x: nat)
    requires Sound(s) && Outstanding(s, r) && k < |s.queue| && IsReply(s.queue[k], r) && s.queue[k].response.NewTokens?
    ensures Runs(s, events, t) && NewRefreshCall(s, t, x)
  {
    hide Sound, Runs, Enabled, Apply;
    var u: State;
    events, u := Drain(s, k);
    HeadRuns(u);
    assert u.calls[r].kind.RefreshCall? by { HeadIsRefresh(u); }
    var i := SuccessWakes(u);
    SoundStep(u, Run);
    OneMore(s, events, u, Run);
    var more: seq<Event>;
    more, t, x := OkWakeRefreshes(Apply(u, Run), i);
    events := Later(s, events + [Run], Apply(u, Run), more, t, x);
  }

  lemma HeadIsRefresh(s: State)
    requires Sound(s) && s.queue != [] && s.queue[0].Reply? && s.queue[0].response.NewTokens?
    ensures s.queue[0].r < |s.calls| && s.calls[s.queue[0].r].kind.RefreshCall? && s.calls[s.queue[0].r].status.Answered?
  {
    hide Linked, AllAttended, WaitersOk;
    assert JobOk(s, s.queue[0]);
  }

  lemma SuccessWakes(s: State) returns (i: nat)
    requires Sound(s) && Enabled(s, Run) && s.queue[0].Reply? && s.queue[0].response.NewTokens?
    ensures i < |Apply(s, Run).queue| && OkWake(Apply(s, Run).queue[i])
  {
    hide QueueOk, WaitersOk, AllAttended, RunReply;
    var r, u := s.queue[0].r, s.(queue := s.queue[1..]);
    HeadIsRefresh(s);
    assert LinkOk(s, r);
    var p := s.calls[r].kind.p;
    assert s.promises[p].Pending? && s.promises[p].waiters != [];
    RefreshAnswered(u, r, s.queue[0].response);
    i := |s.queue| - 1;
    assert Apply(s, Run).queue[i] == Wake(s.promises[p].waiters[0], p, true);
  }

  lemma SentRefreshes(s: State, r: nat) returns (events: seq<Event>, t: State, x: nat)
    requires Sound(s) && Outstanding(s, r) && s.calls[r].status.Sent?
    ensures Runs(s, events, t) && NewRefreshCall(s, t, x)
  {
    hide Sound, Runs;
    var e := Deliver(r, NewTokens(Jwt(0, 1800), RENEWED));
    SoundStep(s, e);
    var u := Apply(s, e);
    assert IsReply(u.queue[|s.queue|], r) && Outstanding(u, r);
    RunNone(s);
    OneMore(s, [], s, e);
    var more: seq<Event>;
    more, t, x := NewTokensQueued(u, r, |s.queue|);
    events := Later(s, [] + [e], u, more, t, x);
  }

  lemma QueuedRefreshes(s: State, r: nat, k: nat) returns (events: seq<Event>, t: State, x: nat)
    requires Sound(s) && Outstanding(s, r) && k < |s.queue| && s.queue[k] == Send(r)
    ensures Runs(s, events, t) && NewRefreshCall(s, t, x)
  {
    hide Sound, Runs, Enabled, Apply;
    var u: State;
    events, u := Drain(s, k);
    HeadRuns(u);
    HeadGoesOut(u);
    SoundStep(u, Run);
    OneMore(s, events, u, Run);
    var more: seq<Event>;
    more, t, x := SentRefreshes(Apply(u, Run), r);
    events := Later(s, events + [Run], Apply(u, Run), more, t, x);
  }

  lemma HeadGoesOut(s: State)
    requires Sound(s) && Enabled(s, Run) && s.queue[0].Send? && s.queue[0].r < |s.calls| && s.calls[s.queue[0].r].kind.RefreshCall?
    ensures var r, t := s.queue[0].r, Apply(s, Run); Outstanding(t, r) && t.calls[r].status.Sent?
  {
    hide Linked, AllAttended, WaitersOk;
    assert JobOk(s, s.queue[0]) && CallOk(s.calls[s.queue[0].r]);
  }

  /** Any outstanding call that is not doomed can still succeed. */
  lemma UndoomedRefreshes(s: State, r: nat) returns (events: seq<Event>, t: State, x: nat)
    requires Sound(s) && Outstanding(s, r) && !Doomed(s.queue, r)
    ensures Runs(s, events, t) && NewRefreshCall(s, t, x)
  {
    hide Linked, WaitersOk, Runs;
    assert AttendedCall(s, r) && CallOk(s.calls[r]);
    match s.calls[r].status {
      case Queued =>
        var k :| 0 <= k < |s.queue| && s.queue[k] == Send(r);
        events, t, x := QueuedRefreshes(s, r, k);
      case Sent => events, t, x := SentRefreshes(s, r);
      case Answered =>
        var k :| 0 <= k < |s.queue| && IsReply(s.queue[k], r);
        assert JobOk(s, s.queue[k]) && !FaultFor(s.queue[k], r);
        events, t, x := NewTokensQueued(s, r, k);
    }
  }

  lemma UnlostRefreshes(s: State) returns (events: seq<Event>, t: State, r: nat)
    requires Sound(s) && !Lost(s)
    ensures Runs(s, events, t) && NewRefreshCall(s, t, r)
  {
    hide Inv, Linked, AllAttended, Runs, Doomed;
    assert PromiseInRange(s) by { SoundRange(s); }
    if s.refreshPromise.None? {
      events, t, r := NoPromiseRefreshes(s);
    } else if i :| 0 <= i < |s.queue| && OkWake(s.queue[i]) {
      events, t, r := OkWakeRefreshes(s, i);
    } else if s.promises[s.refreshPromise.value].Fulfilled? {
      events, t, r := FulfilledPromiseRefreshes(s);
    } else {
      var c: nat :| Outstanding(s, c) && !Doomed(s.queue, c);
      events, t, r := UndoomedRefreshes(s, c);
    }
  }

  lemma SoundRange(s: State)
    requires Sound(s)
    ensures PromiseInRange(s)
  {
  }

  // ---- the exact condition ----

  lemma LostExactly(s: State)
    requires Sound(s)
    ensures NeverAgain(s) <==> Lost(s)
  {
    hide Inv, Linked, AllAttended, Runs;
    if Lost(s) {
      LostMeansNever(s);
    } else {
      var events, t, r := UnlostRefreshes(s);
    }
  }

  lemma LostMeansNever(s: State)
    requires Inv(s) && Linked(s) && Lost(s)
    ensures NeverAgain(s)
  {
    hide Inv, Linked, Lost, Runs;
    forall events, t, r: nat | Runs(s, events, t)
      ensures !NewRefreshCall(s, t, r)
    {
      LostForever(s, events, t);
    }
  }

  lemma ReachedSound(s: State, events: seq<Event>, t: State)
    requires Fresh(s) && Paired(s.store) && Runs(s, events, t)
    ensures Sound(t)
  {
    FreshFlies(s);
    SoundRuns(s, events, t);
  }

  /**
   In every reachable state: no refresh call will ever be made again if and only if `refreshPromise` holds a promise
   that is not fulfilled, no waiter of a fulfilled one is queued, and every outstanding refresh call has its error
   answer in the queue already.
   */
  lemma NeverAgainExactly(s: State, events: seq<Event>, t: State)
    requires Fresh(s) && Paired(s.store) && Runs(s, events, t)
    ensures NeverAgain(t) <==> Lost(t)
  {
    hide Sound, Runs, NeverAgain, Lost;
    ReachedSound(s, events, t);
    LostExactly(t);
  }

  /** The next job is the error answer of a refresh call. */
  ghost predicate Failing(s: State) {
    Enabled(s, Run) && s.queue[0].Reply? && s.queue[0].response.Fault? && s.calls[s.queue[0].r].kind.RefreshCall?
  }

  lemma FailureShape(s: State)
    requires Inv(s) && Linked(s) && Failing(s)
    ensures
      var r, t := s.queue[0].r, Apply(s, Run);
      && t.refreshPromise == s.refreshPromise && |t.promises| == |s.promises| && s.queue[1..] <= t.queue
      && (forall p :: 0 <= p < |s.promises| ==> (t.promises[p].Fulfilled? <==> s.promises[p].Fulfilled?))
      && (forall i :: |s.queue| - 1 <= i < |t.queue| ==> !OkWake(t.queue[i]) && !t.queue[i].Reply?)
      && Outstanding(s, r) && (forall x: nat :: Outstanding(t, x) <==> Outstanding(s, x) && x != r)
  {
    hide QueueOk, RunReply, CallOk, WaitersOk, RefreshDone;
    var r, u := s.queue[0].r, s.(queue := s.queue[1..]);
    assert JobOk(s, s.queue[0]) by { HeadOk(s); }
    assert LinkOk(s, r);
    RefreshAnswered(u, r, s.queue[0].response);
    RejectedQueue(u, r, s.queue[0].response);
    RejectedCalls(s, r, u, s.queue[0].response);
  }

  lemma RejectedQueue(s: State, r: nat, response: Response)
    requires r < |s.calls| && s.calls[r].kind.RefreshCall? && s.calls[r].kind.p < |s.promises| && s.promises[s.calls[r].kind.p].Pending?
    requires response.Fault?
    ensures
      var t := RefreshDone(s, r, response);
      && t.refreshPromise == s.refreshPromise && t.promises == s.promises[s.calls[r].kind.p := Rejected] && s.queue <= t.queue
      && forall i :: |s.queue| <= i < |t.queue| ==> !OkWake(t.queue[i]) && !t.queue[i].Reply?
  {
  }

  lemma RejectedCalls(s: State, r: nat, u: State, response: Response)
    requires Inv(s) && Linked(s) && Outstanding(s, r) && u.calls == s.calls && u.promises == s.promises && response.Fault?
    ensures s.calls[r].kind.p < |s.promises|
    ensures forall x: nat :: Outstanding(RefreshDone(u, r, response), x) <==> Outstanding(s, x) && x != r
  {
    hide QueueOk;
    assert LinkOk(s, r);
    var ws := s.promises[s.calls[r].kind.p].waiters;
    assert WaitersAt(s, s.calls[r].kind.p, ws);
    forall x | 0 <= x < |s.calls| && x in ws
      ensures !s.calls[x].kind.RefreshCall?
    {
      assert CallOk(s.calls[x]);
    }
  }

  lemma HeadOk(s: State)
    requires QueueOk(s) && s.queue != []
    ensures JobOk(s, s.queue[0])
  {
  }

  /** The error answer itself changes nothing: the client is lost after it exactly if it was lost before. */
  lemma FailureLoses(s: State)
    requires Inv(s) && Linked(s) && Failing(s)
    ensures Lost(Apply(s, Run)) <==> Lost(s)
  {
    hide WaitersOk, Linked, RunJob;
    FailureShape(s);
    var r, t := s.queue[0].r, Apply(s, Run);
    if Lost(s) {
      LostStep(s, Run);
    } else if Lost(t) {
      assert FaultFor(s.queue[0], r);
      forall i | 0 <= i < |s.queue|
        ensures !OkWake(s.queue[i])
      {
        assert i > 0 ==> t.queue[i - 1] == s.queue[1..][i - 1] == s.queue[i];
      }
      forall x: nat | Outstanding(s, x)
        ensures Doomed(s.queue, x)
      {
        if x != r {
          var i :| 0 <= i < |t.queue| && FaultFor(t.queue[i], x);
          assert t.queue[i] == s.queue[1..][i] == s.queue[i + 1];
        }
      }
    }
  }

  /**
   A refresh that fails on the wire, in every run: it is followed by no refresh call ever again if and only if, when it
   fails, `refreshPromise` holds an unfulfilled promise, no waiter of a fulfilled one is queued, and every other
   outstanding refresh call has its error answer in the queue already.
   */
  lemma FailureIsFinalExactly(s: State, events: seq<Event>, t: State)
    requires Fresh(s) && Paired(s.store) && Runs(s, events, t) && Failing(t)
    ensures NeverAgain(Apply(t, Run)) <==> Lost(t)
  {
    hide Inv, Linked, AllAttended, Runs, NeverAgain, Lost, Apply, Failing;
    ReachedSound(s, events, t);
    FailureLoses(t);
    assert Enabled(t, Run) by { FailingRuns(t); }
    SoundStep(t, Run);
    LostExactly(Apply(t, Run));
  }

  lemma FailingRuns(s: State)
    requires Failing(s)
    ensures Enabled(s, Run)
  {
  }

  /** The next job starts a refresh, and there is no refresh token. */
  ghost predicate Tokenless(s: State) {
    Enabled(s, Run) && s.queue[0].Reply? && s.queue[0].response == Fault(ExpiredToken) && !s.calls[s.queue[0].r].retried
    && s.refreshPromise.None? && s.store.refresh.None?
  }

  lemma TokenlessLoses(s: State)
    requires Inv(s) && Tokenless(s)
    ensures Lost(Apply(s, Run)) <==> NoOkWake(s.queue) && AllDoomed(s)
  {
    hide WaitersOk;
    var r, t := s.queue[0].r, Apply(s, Run);
    assert JobOk(s, s.queue[0]) && CallOk(s.calls[r]);
    TokenlessShape(s);
    assert forall i :: 0 <= i < |s.queue| - 1 ==> t.queue[i] == s.queue[1..][i] == s.queue[i + 1];
    forall x: nat | Outstanding(s, x)
      ensures Doomed(s.queue, x) <==> Doomed(t.queue, x)
    {
      assert x != r;
      if i :| 0 <= i < |s.queue| && FaultFor(s.queue[i], x) {
        assert i > 0 ==> t.queue[i - 1] == s.queue[i];
      }
    }
  }

  lemma TokenlessShape(s: State)
    requires PromiseInRange(s) && Tokenless(s) && JobOk(s, s.queue[0])
    ensures
      var t := Apply(s, Run);
      && t.refreshPromise == Some(|s.promises|) && t.promises == s.promises + [Rejected]
      && t.queue == s.queue[1..] + [Wake(s.queue[0].r, |s.promises|, false)]
      && |t.calls| == |s.calls| && (forall x: nat :: Outstanding(t, x) <==> Outstanding(s, x))
  {
  }

  /**
   A refresh that fails for want of a token, in every run: no refresh call is ever made again if and only if no waiter
   of a fulfilled promise is queued and every outstanding refresh call has its error answer in the queue already.
   */
  lemma TokenlessIsFinalExactly(s: State, events: seq<Event>, t: State)
    requires Fresh(s) && Paired(s.store) && Runs(s, events, t) && Tokenless(t)
    ensures NeverAgain(Apply(t, Run)) <==> NoOkWake(t.queue) && AllDoomed(t)
  {
    hide Inv, Linked, AllAttended, Runs, NeverAgain, Lost, Apply, AllDoomed, NoOkWake;
    ReachedSound(s, events, t);
    TokenlessLoses(t);
    SoundStep(t, Run);
    LostExactly(Apply(t, Run));
  }

  /** From a paired store a private request that looks at its token has a refresh token: only a late answer has none. */
  lemma OnlyLateAnswersAreTokenless(s: State, events: seq<Event>, t: State)
    requires Fresh(s) && Paired(s.store) && Runs(s, events, t) && t.store.refresh.None?
    ensures t.store.access.None?
  {
    hide Inv, Linked, AllAttended, Runs;
    ReachedSound(s, events, t);
  }

  // ---- guarded runs ----

  lemma {:induction false} GuardedAreRuns(s: State, events: seq<Event>, t: State)
    requires GuardedRuns(s, events, t)
    ensures Runs(s, events, t)
    decreases |events|
  {
    hide Enabled, Apply, Guarded;
    if events != [] {
      GuardedAreRuns(Apply(s, events[0]), events[1..], t);
    }
  }

  lemma GuardedFailureLost(s: State)
    requires Flying(s) && Failing(s)
    ensures Lost(s)
  {
    hide WaitersOk;
    var r := s.queue[0].r;
    assert JobOk(s, s.queue[0]) && LinkOk(s, r) && Outstanding(s, r);
    OnlyOne(s, r);
    assert FaultFor(s.queue[0], r);
  }

  lemma GuardedNoneDoomed(s: State)
    requires Flying(s) && s.refreshPromise.None?
    ensures AllDoomed(s)
  {
    hide Inv;
    NoneOutstanding(s);
  }

  /**
   Under the guard of single flight a refresh that fails on the wire is always the last refresh call ever made; one that
   fails for want of a token is followed by none if and only if no waiter of a fulfilled promise is queued.
   */
  lemma GuardedFailureIsTheLastRefresh(s: State, events: seq<Event>, t: State)
    requires Fresh(s) && GuardedRuns(s, events, t)
    ensures Failing(t) ==> NeverAgain(Apply(t, Run))
    ensures Tokenless(t) && Paired(s.store) ==> (NeverAgain(Apply(t, Run)) <==> NoOkWake(t.queue))
  {
    hide Inv, Linked, Protected, Ordered, Runs, GuardedRuns, NeverAgain, Lost, Apply, AllDoomed, NoOkWake, Failing;
    GuardedAreRuns(s, events, t);
    FreshFlies(s);
    GuardedRunKeeps(s, events, t);
    if Failing(t) {
      GuardedFailureLost(t);
      FailureLoses(t);
      assert Enabled(t, Run) by { FailingRuns(t); }
      StepKeeps(t, Run);
      LinkedStep(t, Run);
      LostMeansNever(Apply(t, Run));
    }
    if Tokenless(t) && Paired(s.store) {
      GuardedNoneDoomed(t);
      TokenlessIsFinalExactly(s, events, t);
    }
  }
}
