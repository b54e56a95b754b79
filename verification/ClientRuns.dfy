/** What every run of the client keeps, and what single flight needs. */
module ClientRuns {
  import opened Schema
  import opened Client

  // ---- bookkeeping: every queued job and every waiter belongs to exactly one call in the right status ----

  function Credit(c: Call): nat {
    if c.retried then 1 else 0
  }

  /** A request is dispatched at most once before and once after its retry. */
  predicate CallOk(c: Call) {
    && (match c.status
        case Queued => c.dispatches == Credit(c)
        case Waiting(_) => c.dispatches == Credit(c)
        case Woken => c.dispatches == Credit(c)
        case Sent => c.dispatches == 1 + Credit(c)
        case Answered => c.dispatches == 1 + Credit(c)
        case Settled(_) => c.dispatches <= 1 + Credit(c))
    && (c.tilde ==> c.kind.PrivateCall? && c.status.Queued? && !c.retried)
    && (!c.kind.PrivateCall? ==> !c.retried && !c.status.Waiting? && !c.status.Woken?)
  }

  /** The status a call has while its job is queued. */
  predicate JobOk(s: State, job: Job) {
    JobInRange(s, job) &&
    match job
    case Send(r) => s.calls[r].status.Queued?
    case Reply(r, response) => s.calls[r].status.Answered? && Answerable(s.calls[r].kind, response)
    case Wake(r, _, _) => s.calls[r].status.Woken?
    case LogOut => true
  }

  predicate SameCall(a: Job, b: Job) {
    !a.LogOut? && !b.LogOut? && a.r == b.r
  }

  ghost predicate QueueOk(s: State) {
    && (forall i :: 0 <= i < |s.queue| ==> JobOk(s, s.queue[i]))
    && (forall i, j :: 0 <= i < j < |s.queue| ==> !SameCall(s.queue[i], s.queue[j]))
  }

  ghost predicate WaitersOk(s: State) {
    forall p :: 0 <= p < |s.promises| && s.promises[p].Pending? ==> WaitersAt(s, p, s.promises[p].waiters)
  }

  ghost predicate WaitersAt(s: State, p: nat, ws: seq<nat>) {
    && (forall i :: 0 <= i < |ws| ==> ws[i] < |s.calls| && s.calls[ws[i]].status == Waiting(p))
    && (forall i, j :: 0 <= i < j < |ws| ==> ws[i] != ws[j])
  }

  ghost predicate Inv(s: State) {
    && PromiseInRange(s)
    && (forall r :: 0 <= r < |s.calls| ==> CallOk(s.calls[r]))
    && QueueOk(s)
    && WaitersOk(s)
  }

  // ---- steps ----

  /** One call r, with no job queued and not waiting, takes a new status. */
  ghost predicate Loose(s: State, r: nat) {
    && r < |s.calls|
    && (forall i :: 0 <= i < |s.queue| && !s.queue[i].LogOut? ==> s.queue[i].r != r)
    && !s.calls[r].status.Waiting?
  }

  /** Everything but call r is in order. */
  ghost predicate InvBut(s: State, r: nat) {
    && PromiseInRange(s) && Loose(s, r)
    && (forall x :: 0 <= x < |s.calls| && x != r ==> CallOk(s.calls[x]))
    && QueueOk(s)
    && WaitersOk(s)
  }

  lemma PopHead(s: State)
    requires Inv(s) && s.queue != [] && !s.queue[0].LogOut?
    ensures InvBut(s.(queue := s.queue[1..]), s.queue[0].r)
  {
    var t := s.(queue := s.queue[1..]);
    forall i | 0 <= i < |t.queue|
      ensures JobOk(t, t.queue[i]) && (!t.queue[i].LogOut? ==> t.queue[i].r != s.queue[0].r)
    {
      assert t.queue[i] == s.queue[i + 1];
      assert JobOk(s, s.queue[i + 1]) && !SameCall(s.queue[0], s.queue[i + 1]);
    }
    assert JobOk(s, s.queue[0]);
    forall i, j | 0 <= i < j < |t.queue|
      ensures !SameCall(t.queue[i], t.queue[j])
    {
      assert t.queue[i] == s.queue[i + 1] && t.queue[j] == s.queue[j + 1];
    }
    forall p | 0 <= p < |t.promises| && t.promises[p].Pending?
      ensures WaitersAt(t, p, t.promises[p].waiters)
    {
      assert WaitersAt(s, p, s.promises[p].waiters);
    }
  }

  /** Rewriting a loose call does not disturb the others. */
  lemma Rewrite(s: State, r: nat, c: Call)
    requires InvBut(s, r) && !c.status.Waiting?
    ensures InvBut(s.(calls := s.calls[r := c]), r)
  {
    var t := s.(calls := s.calls[r := c]);
    forall i | 0 <= i < |t.queue|
      ensures JobOk(t, t.queue[i])
    {
      assert JobOk(s, s.queue[i]);
    }
    forall p | 0 <= p < |t.promises| && t.promises[p].Pending?
      ensures WaitersAt(t, p, t.promises[p].waiters)
    {
      assert WaitersAt(s, p, s.promises[p].waiters);
    }
  }

  lemma Whole(s: State, r: nat)
    requires InvBut(s, r) && CallOk(s.calls[r])
    ensures Inv(s)
  {
  }

  /** Queue one more job for a loose call in the right status. */
  lemma Push(s: State, r: nat, job: Job)
    requires InvBut(s, r) && CallOk(s.calls[r]) && JobOk(s, job) && !job.LogOut? && job.r == r
    ensures Inv(s.(queue := s.queue + [job]))
  {
    var t := s.(queue := s.queue + [job]);
    forall i | 0 <= i < |t.queue|
      ensures JobOk(t, t.queue[i])
    {
      if i < |s.queue| {
        assert JobOk(s, s.queue[i]);
      }
    }
    forall p | 0 <= p < |t.promises| && t.promises[p].Pending?
      ensures WaitersAt(t, p, t.promises[p].waiters)
    {
      assert WaitersAt(s, p, s.promises[p].waiters);
    }
  }

  function Spawned(s: State, c: Call): State {
    s.(calls := s.calls + [c], queue := s.queue + [Send(|s.calls|)])
  }

  /** A new call with its interceptor queued. */
  lemma Spawn(s: State, c: Call)
    requires QueueOk(s) && WaitersOk(s) && c.status.Queued?
    ensures QueueOk(Spawned(s, c)) && WaitersOk(Spawned(s, c))
  {
    var t := Spawned(s, c);
    forall i | 0 <= i < |t.queue|
      ensures JobOk(t, t.queue[i])
    {
      if i < |s.queue| {
        assert JobOk(s, s.queue[i]);
      }
    }
    forall i, j | 0 <= i < j < |t.queue|
      ensures !SameCall(t.queue[i], t.queue[j])
    {
      assert JobOk(s, s.queue[i]);
    }
    forall p | 0 <= p < |t.promises| && t.promises[p].Pending?
      ensures WaitersAt(t, p, t.promises[p].waiters)
    {
      assert WaitersAt(s, p, s.promises[p].waiters);
    }
  }

  /** A refresh started while call r is being handled. */
  lemma StartRefreshKeeps(s: State, r: nat)
    requires InvBut(s, r)
    ensures InvBut(StartRefresh(s), r) && StartRefresh(s).calls[r] == s.calls[r]
  {
    var t := StartRefresh(s);
    if s.store.refresh.Some? {
      var c := Call(RefreshCall(|s.promises|, s.store.refresh.value), false, false, 0, NoHeader, Queued);
      Spawn(s, c);
      assert CallOk(c);
      forall p | 0 <= p < |t.promises| && t.promises[p].Pending?
        ensures WaitersAt(t, p, t.promises[p].waiters)
      {
        if p < |s.promises| {
          assert WaitersAt(Spawned(s, c), p, s.promises[p].waiters);
        }
      }
      forall i | 0 <= i < |t.queue|
        ensures JobOk(t, t.queue[i])
      {
        assert JobOk(Spawned(s, c), t.queue[i]);
      }
    } else {
      forall p | 0 <= p < |t.promises| && t.promises[p].Pending?
        ensures WaitersAt(t, p, t.promises[p].waiters)
      {
        assert WaitersAt(s, p, s.promises[p].waiters);
      }
      forall i | 0 <= i < |t.queue|
        ensures JobOk(t, t.queue[i])
      {
        assert JobOk(s, s.queue[i]);
      }
    }
  }

  lemma AwaitKeeps(s: State, r: nat, p: nat)
    requires InvBut(s, r) && p < |s.promises| && s.calls[r].kind.PrivateCall? && !s.calls[r].tilde
    requires s.calls[r].dispatches == Credit(s.calls[r])
    ensures Inv(AwaitPromise(s, r, p))
  {
    var c := s.calls[r];
    if s.promises[p].Pending? {
      AwaitPending(s, r, p);
    } else {
      var t := s.(calls := s.calls[r := c.(status := Woken)]);
      Rewrite(s, r, c.(status := Woken));
      Push(t, r, Wake(r, p, s.promises[p].Fulfilled?));
    }
  }

  lemma AwaitPending(s: State, r: nat, p: nat)
    requires InvBut(s, r) && p < |s.promises| && s.promises[p].Pending?
    requires s.calls[r].kind.PrivateCall? && !s.calls[r].tilde && s.calls[r].dispatches == Credit(s.calls[r])
    ensures Inv(AwaitPromise(s, r, p))
  {
    var t := AwaitPromise(s, r, p);
    assert t.calls[r] == s.calls[r].(status := Waiting(p));
    forall i | 0 <= i < |t.queue|
      ensures JobOk(t, t.queue[i])
    {
      assert JobOk(s, s.queue[i]);
    }
    forall q | 0 <= q < |t.promises| && t.promises[q].Pending?
      ensures WaitersAt(t, q, t.promises[q].waiters)
    {
      assert WaitersAt(s, q, s.promises[q].waiters);
    }
  }

  lemma JoinKeeps(s: State, r: nat)
    requires InvBut(s, r) && s.calls[r].kind.PrivateCall? && !s.calls[r].tilde
    requires s.calls[r].dispatches == Credit(s.calls[r])
    ensures Inv(Join(s, r))
  {
    if s.refreshPromise.None? {
      StartRefreshKeeps(s, r);
      AwaitKeeps(StartRefresh(s), r, |s.promises|);
    } else {
      AwaitKeeps(s, r, s.refreshPromise.value);
    }
  }

  /** Settling a promise moves its waiters into the queue, one job each. */
  lemma SettleKeeps(s: State, p: nat, outcome: Promise)
    requires Inv(s) && p < |s.promises| && !outcome.Pending?
    ensures Inv(Settle(s, p, outcome))
  {
    if s.promises[p].Pending? {
      var ws, t := s.promises[p].waiters, Settle(s, p, outcome);
      assert WaitersAt(s, p, ws);
      SettledQueue(s, p, outcome);
      forall q | 0 <= q < |t.promises| && t.promises[q].Pending?
        ensures WaitersAt(t, q, t.promises[q].waiters)
      {
        assert WaitersAt(s, q, s.promises[q].waiters);
      }
      forall r | 0 <= r < |t.calls|
        ensures CallOk(t.calls[r])
      {
        assert CallOk(s.calls[r]);
        if r in ws {
          var i :| 0 <= i < |ws| && ws[i] == r;
        }
      }
    }
  }

  lemma SettledQueue(s: State, p: nat, outcome: Promise)
    requires QueueOk(s) && WaitersOk(s) && p < |s.promises| && s.promises[p].Pending? && !outcome.Pending?
    ensures QueueOk(Settle(s, p, outcome))
  {
    var ws, t := s.promises[p].waiters, Settle(s, p, outcome);
    assert WaitersAt(s, p, ws);
    var n := |s.queue|;
    forall i | 0 <= i < |t.queue|
      ensures JobOk(t, t.queue[i]) && (i < n && !t.queue[i].LogOut? ==> t.queue[i].r !in ws)
    {
      if i < n {
        assert JobOk(s, s.queue[i]) && t.queue[i] == s.queue[i];
      } else {
        assert t.queue[i] == Wake(ws[i - n], p, outcome.Fulfilled?) && ws[i - n] in ws;
      }
    }
    forall i, j | 0 <= i < j < |t.queue|
      ensures !SameCall(t.queue[i], t.queue[j])
    {
      if j < n {
        assert !SameCall(s.queue[i], s.queue[j]);
      } else {
        assert t.queue[j].r == ws[j - n] && ws[j - n] in ws;
      }
    }
  }

  lemma DispatchKeeps(s: State, r: nat)
    requires InvBut(s, r) && s.calls[r].dispatches == Credit(s.calls[r]) && !s.calls[r].tilde
    requires !s.calls[r].kind.PrivateCall? ==> !s.calls[r].retried
    ensures Inv(Dispatch(s, r))
  {
    Rewrite(s, r, Dispatch(s, r).calls[r]);
    Whole(Dispatch(s, r), r);
  }

  /** Fields that the bookkeeping does not look at. */
  lemma Elsewhere(s: State, t: State, r: nat)
    requires InvBut(s, r) && t.calls == s.calls && t.queue == s.queue && t.promises == s.promises
    requires t.refreshPromise == s.refreshPromise || t.refreshPromise.None?
    ensures InvBut(t, r)
  {
    forall i | 0 <= i < |t.queue|
      ensures JobOk(t, t.queue[i])
    {
      assert JobOk(s, s.queue[i]);
    }
    forall p | 0 <= p < |t.promises| && t.promises[p].Pending?
      ensures WaitersAt(t, p, t.promises[p].waiters)
    {
      assert WaitersAt(s, p, s.promises[p].waiters);
    }
  }

  lemma ElsewhereInv(s: State, t: State)
    requires Inv(s) && t.calls == s.calls && t.queue == s.queue && t.promises == s.promises
    requires t.refreshPromise == s.refreshPromise || t.refreshPromise.None?
    ensures Inv(t)
  {
    forall i | 0 <= i < |t.queue|
      ensures JobOk(t, t.queue[i])
    {
      assert JobOk(s, s.queue[i]);
    }
    forall p | 0 <= p < |t.promises| && t.promises[p].Pending?
      ensures WaitersAt(t, p, t.promises[p].waiters)
    {
      assert WaitersAt(s, p, s.promises[p].waiters);
    }
  }

  lemma SendKeeps(s: State, r: nat)
    requires InvBut(s, r) && CallOk(s.calls[r]) && s.calls[r].status.Queued?
    ensures Inv(RunSend(s, r))
  {
    hide QueueOk, WaitersOk;
    var c := s.calls[r];
    if !c.tilde {
      DispatchKeeps(s, r);
    } else {
      var plain := c.(tilde := false);
      Rewrite(s, r, plain);
      var t := s.(calls := s.calls[r := plain]);
      if s.store.access.None? {
        Elsewhere(t, t.(timers := t.timers + 1), r);
        DispatchKeeps(t.(timers := t.timers + 1), r);
      } else if NeedsRefresh(s.store.access.value, s.now) {
        JoinKeeps(t, r);
      } else {
        Rewrite(t, r, plain.(header := Bearer(s.store.access)));
        DispatchKeeps(t.(calls := t.calls[r := plain.(header := Bearer(s.store.access))]), r);
      }
    }
  }

  lemma FinishKeeps(s: State, r: nat, ok: bool)
    requires InvBut(s, r) && !s.calls[r].tilde && s.calls[r].dispatches <= 1 + Credit(s.calls[r])
    requires !s.calls[r].kind.PrivateCall? ==> !s.calls[r].retried
    ensures Inv(Finish(s, r, ok))
  {
    Rewrite(s, r, Finish(s, r, ok).calls[r]);
    Whole(Finish(s, r, ok), r);
  }

  lemma FinishFailedKeeps(s: State, r: nat)
    requires InvBut(s, r) && CallOk(s.calls[r]) && s.calls[r].status.Answered?
    ensures Inv(FinishFailed(s, r))
  {
    hide QueueOk, WaitersOk;
    var t := Finish(s, r, false);
    FinishKeeps(s, r, false);
    match s.calls[r].kind
    case RefreshCall(p, _) =>
      var u := t.(store := t.store.(isLoading := false, failed := true));
      ElsewhereInv(t, u);
      if p < |u.promises| {
        SettleKeeps(u, p, Rejected);
      }
    case LogoutCall => ElsewhereInv(t, t.(store := CLEARED));
    case _ =>
  }

  lemma ReplyKeeps(s: State, r: nat, response: Response)
    requires InvBut(s, r) && CallOk(s.calls[r]) && s.calls[r].status.Answered? && Answerable(s.calls[r].kind, response)
    ensures Inv(RunReply(s, r, response))
  {
    hide QueueOk, WaitersOk, FinishFailed, Settle;
    match response
    case Fault(code) =>
      if code.ExpiredToken? && !s.calls[r].retried {
        Rewrite(s, r, s.calls[r].(retried := true));
        JoinKeeps(s.(calls := s.calls[r := s.calls[r].(retried := true)]), r);
      } else if code.InvalidToken? || code.InvalidRefreshToken? {
        Elsewhere(s, s.(timers := s.timers + 1), r);
        FinishFailedKeeps(s.(timers := s.timers + 1), r);
      } else {
        FinishFailedKeeps(s, r);
      }
    case NewTokens(access, refresh) =>
      var t := Finish(s, r, true);
      FinishKeeps(s, r, true);
      var u := t.(store := t.store.(access := Some(access), refresh := Some(refresh)));
      ElsewhereInv(t, u);
      if s.calls[r].kind.p < |s.promises| {
        SettleKeeps(u, s.calls[r].kind.p, Fulfilled(access));
      }
    case Success =>
      FinishKeeps(s, r, true);
      ElsewhereInv(Finish(s, r, true), Finish(s, r, true).(store := CLEARED));
  }

  lemma WakeKeeps(s: State, r: nat, ok: bool)
    requires InvBut(s, r) && CallOk(s.calls[r]) && s.calls[r].status.Woken?
    ensures Inv(RunWake(s, r, ok))
  {
    hide QueueOk, WaitersOk;
    if !ok {
      FinishKeeps(s, r, false);
    } else {
      var c := s.calls[r].(header := Bearer(s.store.access));
      Elsewhere(s, s.(refreshPromise := None), r);
      Rewrite(s.(refreshPromise := None), r, c);
      var t := s.(refreshPromise := None, calls := s.calls[r := c]);
      if c.retried {
        Rewrite(t, r, c.(status := Queued));
        Push(t.(calls := t.calls[r := c.(status := Queued)]), r, Send(r));
      } else {
        DispatchKeeps(t, r);
      }
    }
  }

  lemma SpawnKeeps(s: State, c: Call)
    requires Inv(s) && CallOk(c) && c.status.Queued?
    ensures Inv(Spawned(s, c))
  {
    Spawn(s, c);
  }

  lemma PopLogOut(s: State)
    requires Inv(s) && s.queue != [] && s.queue[0].LogOut?
    ensures Inv(s.(queue := s.queue[1..]))
  {
    var t := s.(queue := s.queue[1..]);
    forall i | 0 <= i < |t.queue|
      ensures JobOk(t, t.queue[i])
    {
      assert JobOk(s, s.queue[i + 1]);
    }
    forall i, j | 0 <= i < j < |t.queue|
      ensures !SameCall(t.queue[i], t.queue[j])
    {
      assert !SameCall(s.queue[i + 1], s.queue[j + 1]);
    }
    forall p | 0 <= p < |t.promises| && t.promises[p].Pending?
      ensures WaitersAt(t, p, t.promises[p].waiters)
    {
      assert WaitersAt(s, p, s.promises[p].waiters);
    }
  }

  lemma RunKeepsInv(s: State)
    requires Inv(s) && Enabled(s, Run)
    ensures Inv(Apply(s, Run))
  {
    hide WaitersOk, RunSend, RunReply, RunWake;
    var job, t := s.queue[0], s.(queue := s.queue[1..]);
    assert JobOk(s, job);
    if job.LogOut? {
      PopLogOut(s);
      ElsewhereInv(t, t.(store := CLEARED));
      var u := t.(store := t.store.(isLoading := true, failed := false));
      ElsewhereInv(t, u);
      SpawnKeeps(u, Call(LogoutCall, false, false, 0, NoHeader, Queued));
    } else {
      PopHead(s);
      match job
      case Send(r) => SendKeeps(t, r);
      case Reply(r, response) => ReplyKeeps(t, r, response);
      case Wake(r, _, ok) => WakeKeeps(t, r, ok);
    }
  }

  lemma DeliverKeeps(s: State, r: nat, response: Response)
    requires Inv(s) && Enabled(s, Deliver(r, response))
    ensures Inv(Apply(s, Deliver(r, response)))
  {
    forall i | 0 <= i < |s.queue| && !s.queue[i].LogOut?
      ensures s.queue[i].r != r
    {
      assert JobOk(s, s.queue[i]);
    }
    var c := s.calls[r].(status := Answered);
    Rewrite(s, r, c);
    Push(s.(calls := s.calls[r := c]), r, Reply(r, response));
  }

  /** A logout is queued, by a timer or by the user. */
  lemma LogOutKeeps(s: State, e: Event)
    requires Inv(s) && Enabled(s, e) && (e.Fire? || e.Leave?)
    ensures Inv(Apply(s, e))
  {
    var t := Apply(s, e);
    forall i | 0 <= i < |t.queue|
      ensures JobOk(t, t.queue[i])
    {
      if i < |s.queue| {
        assert JobOk(s, s.queue[i]);
      }
    }
    forall p | 0 <= p < |t.promises| && t.promises[p].Pending?
      ensures WaitersAt(t, p, t.promises[p].waiters)
    {
      assert WaitersAt(s, p, s.promises[p].waiters);
    }
  }

  lemma StepKeeps(s: State, e: Event)
    requires Inv(s) && Enabled(s, e)
    ensures Inv(Apply(s, e))
  {
    hide QueueOk, WaitersOk, RunJob;
    match e
    case Tick(now) => ElsewhereInv(s, s.(now := now));
    case SignIn(_, _) => ElsewhereInv(s, Apply(s, e));
    case Issue(private) =>
      SpawnKeeps(s, Call(if private then PrivateCall else PublicCall, private, false, 0, NoHeader, Queued));
    case Deliver(r, response) => DeliverKeeps(s, r, response);
    case Fire => LogOutKeeps(s, e);
    case Leave => LogOutKeeps(s, e);
    case Run => RunKeepsInv(s);
  }

  // ---- refresh calls and their promises ----

  /** A refresh call is unsettled exactly while its promise is pending. */
  ghost predicate LinkOk(s: State, r: nat)
    requires r < |s.calls|
  {
    s.calls[r].kind.RefreshCall? ==>
      s.calls[r].kind.p < |s.promises| && (s.promises[s.calls[r].kind.p].Pending? <==> !s.calls[r].status.Settled?)
  }

  ghost predicate Serves(s: State, r: nat, p: nat) {
    r < |s.calls| && s.calls[r].kind.RefreshCall? && s.calls[r].kind.p == p
  }

  /** Every refresh call has its own promise, and every pending promise a refresh call and a waiter. */
  ghost predicate Linked(s: State) {
    && (forall r :: 0 <= r < |s.calls| ==> LinkOk(s, r))
    && (forall q, r, p :: Serves(s, q, p) && Serves(s, r, p) ==> q == r)
    && (forall p :: 0 <= p < |s.promises| && s.promises[p].Pending? ==> s.promises[p].waiters != [] && exists r :: Serves(s, r, p))
  }

  /** Calls change, but neither their kinds nor which refresh calls are done; no refresh call is added. */
  ghost predicate SameShape(s: State, t: State) {
    && |s.calls| <= |t.calls|
    && (forall x :: 0 <= x < |s.calls| ==> t.calls[x].kind == s.calls[x].kind)
    && (forall x :: 0 <= x < |s.calls| && s.calls[x].kind.RefreshCall? ==>
          t.calls[x].status.Settled? == s.calls[x].status.Settled?)
    && (forall x :: |s.calls| <= x < |t.calls| ==> !t.calls[x].kind.RefreshCall?)
  }

  lemma LinkedSame(s: State, t: State)
    requires Linked(s) && SameShape(s, t) && |t.promises| == |s.promises|
    requires forall p :: 0 <= p < |s.promises| ==> t.promises[p].Pending? == s.promises[p].Pending?
    requires forall p :: 0 <= p < |s.promises| && t.promises[p].Pending? && s.promises[p].waiters != [] ==> t.promises[p].waiters != []
    ensures Linked(t)
  {
    forall r | 0 <= r < |t.calls|
      ensures LinkOk(t, r)
    {
      if r < |s.calls| {
        assert LinkOk(s, r);
      }
    }
    forall p | 0 <= p < |t.promises| && t.promises[p].Pending?
      ensures t.promises[p].waiters != [] && exists r :: Serves(t, r, p)
    {
      var r :| Serves(s, r, p);
      assert Serves(t, r, p);
    }
    assert forall r, p :: Serves(t, r, p) ==> Serves(s, r, p);
  }

  /** A refresh that starts gets a promise of its own, with the starter as its first waiter. */
  lemma JoinLinked(s: State, r: nat)
    requires Linked(s) && PromiseInRange(s) && r < |s.calls| && !s.calls[r].kind.RefreshCall?
    ensures Linked(Join(s, r))
  {
    var t := Join(s, r);
    if s.refreshPromise.None? && s.store.refresh.Some? {
      var p, c := |s.promises|, |s.calls|;
      assert t.promises == s.promises + [Pending([] + [r])];
      assert t.calls[c].kind == RefreshCall(p, s.store.refresh.value);
      forall x | 0 <= x < |t.calls|
        ensures LinkOk(t, x) && (x < c ==> t.calls[x].kind == s.calls[x].kind)
      {
        if x < c {
          assert LinkOk(s, x);
        }
      }
      forall x: nat, q: nat | Serves(t, x, q)
        ensures if x == c then q == p else Serves(s, x, q) && q < p
      {
        if x < c {
          assert LinkOk(s, x);
        }
      }
      forall q | 0 <= q < |t.promises| && t.promises[q].Pending?
        ensures t.promises[q].waiters != [] && exists x :: Serves(t, x, q)
      {
        if q < p {
          var x :| Serves(s, x, q);
          assert Serves(t, x, q);
        } else {
          assert Serves(t, c, q);
        }
      }
    } else if s.refreshPromise.None? {
      var u := StartRefresh(s);
      forall q | 0 <= q < |u.promises| && u.promises[q].Pending?
        ensures u.promises[q].waiters != [] && exists x :: Serves(u, x, q)
      {
        var x :| Serves(s, x, q);
        assert Serves(u, x, q);
      }
      forall x | 0 <= x < |u.calls|
        ensures LinkOk(u, x)
      {
        assert LinkOk(s, x);
      }
      assert forall x, q :: Serves(u, x, q) ==> Serves(s, x, q);
      LinkedSame(u, t);
    } else {
      LinkedSame(s, t);
    }
  }

  /** Settling the promise of a refresh call that is just done. */
  lemma SettleLinked(s: State, r: nat, outcome: Promise)
    requires Inv(s) && Linked(s) && r < |s.calls| && s.calls[r].kind.RefreshCall? && !s.calls[r].status.Settled? && !outcome.Pending?
    ensures s.calls[r].kind.p < |s.promises| && s.promises[s.calls[r].kind.p].Pending?
    ensures Linked(Settle(Finish(s, r, outcome.Fulfilled?), s.calls[r].kind.p, outcome))
  {
    assert LinkOk(s, r);
    var p := s.calls[r].kind.p;
    var ws := s.promises[p].waiters;
    var t := Settle(Finish(s, r, outcome.Fulfilled?), p, outcome);
    assert WaitersAt(s, p, ws);
    forall x | 0 <= x < |t.calls|
      ensures LinkOk(t, x) && t.calls[x].kind == s.calls[x].kind
    {
      assert LinkOk(s, x) && CallOk(s.calls[x]);
      if x != r && s.calls[x].kind.RefreshCall? {
        assert Serves(s, x, s.calls[x].kind.p) && Serves(s, r, p);
        assert forall i :: 0 <= i < |ws| ==> ws[i] != x;
      }
    }
    forall q | 0 <= q < |t.promises| && t.promises[q].Pending?
      ensures t.promises[q].waiters != [] && exists x :: Serves(t, x, q)
    {
      var x :| Serves(s, x, q);
      assert Serves(t, x, q);
    }
    assert forall x, q :: Serves(t, x, q) ==> Serves(s, x, q);
  }

  lemma SendLinked(s: State, r: nat)
    requires Linked(s) && PromiseInRange(s) && r < |s.calls| && CallOk(s.calls[r]) && s.calls[r].status.Queued?
    ensures Linked(RunSend(s, r))
  {
    hide Linked, Join;
    var t := s.(calls := s.calls[r := s.calls[r].(tilde := false)]);
    LinkedSame(s, t);
    if s.calls[r].tilde && s.store.access.Some? && NeedsRefresh(s.store.access.value, s.now) {
      JoinLinked(t, r);
    } else {
      LinkedSame(s, RunSend(s, r));
    }
  }

  lemma ReplyLinked(s: State, r: nat, response: Response)
    requires InvBut(s, r) && CallOk(s.calls[r]) && Linked(s)
    requires s.calls[r].status.Answered? && Answerable(s.calls[r].kind, response)
    ensures Linked(RunReply(s, r, response))
  {
    hide Linked, Join, Settle, QueueOk, WaitersOk;
    Whole(s, r);
    if s.calls[r].kind.RefreshCall? {
      SettleLinked(s, r, Outcome(response));
      RefreshAnswered(s, r, response);
      LinkedSame(RefreshDone(s, r, response), RunReply(s, r, response));
    } else if response == Fault(ExpiredToken) && !s.calls[r].retried {
      var t := s.(calls := s.calls[r := s.calls[r].(retried := true)]);
      LinkedSame(s, t);
      JoinLinked(t, r);
    } else {
      LinkedSame(s, RunReply(s, r, response));
    }
  }

  function Outcome(response: Response): (outcome: Promise)
    ensures !outcome.Pending?
  {
    if response.NewTokens? then Fulfilled(response.access) else Rejected
  }

  function StoreAfter(store: Store, response: Response): Store {
    if response.NewTokens? then store.(access := Some(response.access), refresh := Some(response.refresh))
    else store.(isLoading := false, failed := true)
  }

  /** The call done, its promise settled, and nothing else that promises, calls or the queue would notice. */
  function RefreshDone(s: State, r: nat, response: Response): State
    requires r < |s.calls| && s.calls[r].kind.RefreshCall? && s.calls[r].kind.p < |s.promises|
  {
    Settle(Finish(s, r, response.NewTokens?), s.calls[r].kind.p, Outcome(response))
  }

  /** The reply of a refresh call settles its promise, whatever it says. */
  lemma RefreshAnswered(s: State, r: nat, response: Response)
    requires PromiseInRange(s) && r < |s.calls| && s.calls[r].kind.RefreshCall? && s.calls[r].kind.p < |s.promises|
    requires Answerable(s.calls[r].kind, response)
    ensures
      var t := RunReply(s, r, response);
      t == RefreshDone(s, r, response).(store := StoreAfter(s.store, response), timers := t.timers)
  {
  }

  lemma WakeLinked(s: State, r: nat, ok: bool)
    requires Linked(s) && r < |s.calls| && CallOk(s.calls[r]) && s.calls[r].status.Woken?
    ensures Linked(RunWake(s, r, ok))
  {
    hide Linked;
    LinkedSame(s, RunWake(s, r, ok));
  }

  lemma LinkedStep(s: State, e: Event)
    requires Inv(s) && Linked(s) && Enabled(s, e)
    ensures Linked(Apply(s, e))
  {
    hide WaitersOk, Linked, RunSend, RunReply, RunWake;
    if e.Run? {
      var job, t := s.queue[0], s.(queue := s.queue[1..]);
      assert JobOk(s, job);
      LinkedSame(s, t);
      match job
      case LogOut => LinkedSame(t, RunLogOut(t));
      case Send(r) => SendLinked(t, r);
      case Reply(r, response) =>
        PopHead(s);
        ReplyLinked(t, r, response);
      case Wake(r, _, ok) => WakeLinked(t, r, ok);
    } else {
      LinkedSame(s, Apply(s, e));
    }
  }

  lemma {:induction false} RunsKeep(s: State, events: seq<Event>, t: State)
    requires Inv(s) && Linked(s) && Runs(s, events, t)
    ensures Inv(t) && Linked(t)
    decreases |events|
  {
    hide Inv, Linked, Enabled, Apply;
    if events != [] {
      StepKeeps(s, events[0]);
      LinkedStep(s, events[0]);
      RunsKeep(Apply(s, events[0]), events[1..], t);
    }
  }

  // ---- theorems over every run ----

  /**
   In every run, failed refreshes and concurrent ones included: no request is dispatched more than twice, and only a
   private request that was answered EXPIRED_TOKEN is dispatched a second time. The refresh call and the logout call
   never wait for a refresh, so no refresh waits for itself.
   */
  lemma RetriesEndAndNoRefreshWaitsForItself(s: State, events: seq<Event>, t: State, r: nat)
    requires Fresh(s) && Runs(s, events, t) && r < |t.calls|
    ensures t.calls[r].dispatches <= 2
    ensures t.calls[r].dispatches == 2 ==> t.calls[r].retried && t.calls[r].kind.PrivateCall?
    ensures t.calls[r].kind.RefreshCall? || t.calls[r].kind.LogoutCall? ==>
      !t.calls[r].status.Waiting? && !t.calls[r].status.Woken? && t.calls[r].dispatches <= 1
    ensures forall p, w :: 0 <= p < |t.promises| && t.promises[p].Pending? && w in t.promises[p].waiters ==>
      w < |t.calls| && t.calls[w].kind.PrivateCall?
  {
    RunsKeep(s, events, t);
    assert CallOk(t.calls[r]);
    forall p, w | 0 <= p < |t.promises| && t.promises[p].Pending? && w in t.promises[p].waiters
      ensures w < |t.calls| && t.calls[w].kind.PrivateCall?
    {
      assert WaitersAt(t, p, t.promises[p].waiters);
      var i :| 0 <= i < |t.promises[p].waiters| && t.promises[p].waiters[i] == w;
      assert CallOk(t.calls[w]);
    }
  }

  /** A logout, answered or failed, clears the store and schedules no further logout. */
  lemma LogoutSchedulesNoLogout(s: State, events: seq<Event>, t: State)
    requires Fresh(s) && Runs(s, events, t) && Enabled(t, Run)
    requires t.queue[0].Reply? && t.queue[0].r < |t.calls| && t.calls[t.queue[0].r].kind.LogoutCall?
    ensures Apply(t, Run).timers == t.timers
    ensures Apply(t, Run).store == Store(None, None, false, false, false)
  {
    RunsKeep(s, events, t);
    assert JobOk(t, t.queue[0]);
  }
}
