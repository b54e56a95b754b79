/** Nothing is forgotten: every call that has to be sent or answered has its job in the queue. */
module Attended {
  import opened Schema
  import opened Client
  import opened ClientRuns

  predicate IsReply(job: Job, r: nat) {
    job.Reply? && job.r == r
  }

  ghost predicate SendQueued(queue: seq<Job>, r: nat) {
    exists i :: 0 <= i < |queue| && queue[i] == Send(r)
  }

  ghost predicate ReplyQueued(queue: seq<Job>, r: nat) {
    exists i :: 0 <= i < |queue| && IsReply(queue[i], r)
  }

  ghost predicate AttendedCall(s: State, r: nat)
    requires r < |s.calls|
  {
    && (s.calls[r].status.Queued? ==> SendQueued(s.queue, r))
    && (s.calls[r].status.Answered? ==> ReplyQueued(s.queue, r))
  }

  ghost predicate AllAttended(s: State) {
    forall r :: 0 <= r < |s.calls| ==> AttendedCall(s, r)
  }

  /** A step pops at most the head and serves it; what it newly makes wait for a job gets one. */
  ghost predicate ServedCall(s: State, t: State, popped: nat, r: nat)
    requires r < |t.calls| && popped <= |s.queue|
  {
    && (t.calls[r].status.Queued? ==>
          || SendQueued(t.queue, r)
          || (r < |s.calls| && s.calls[r].status.Queued? && (popped > 0 ==> s.queue[0] != Send(r))))
    && (t.calls[r].status.Answered? ==>
          || ReplyQueued(t.queue, r)
          || (r < |s.calls| && s.calls[r].status.Answered? && (popped > 0 ==> !IsReply(s.queue[0], r))))
  }

  ghost predicate Served(s: State, t: State, popped: nat) {
    && popped <= 1 && popped <= |s.queue| && s.queue[popped..] <= t.queue && |s.calls| <= |t.calls|
    && forall r :: 0 <= r < |t.calls| ==> ServedCall(s, t, popped, r)
  }

  lemma ServedAttended(s: State, t: State, popped: nat)
    requires AllAttended(s) && Served(s, t, popped)
    ensures AllAttended(t)
  {
    forall r | 0 <= r < |t.calls|
      ensures AttendedCall(t, r)
    {
      assert ServedCall(s, t, popped, r);
      if r < |s.calls| {
        assert AttendedCall(s, r);
        if SendQueued(s.queue, r) {
          var i :| 0 <= i < |s.queue| && s.queue[i] == Send(r);
          Shifted(s, t, popped, i);
        }
        if ReplyQueued(s.queue, r) {
          var i :| 0 <= i < |s.queue| && IsReply(s.queue[i], r);
          Shifted(s, t, popped, i);
        }
      }
    }
  }

  lemma Shifted(s: State, t: State, popped: nat, i: nat)
    requires popped <= |s.queue| && s.queue[popped..] <= t.queue && i < |s.queue|
    ensures popped <= i ==> i - popped < |t.queue| && t.queue[i - popped] == s.queue[i]
  {
    assert popped <= i ==> s.queue[popped..][i - popped] == s.queue[i];
  }

  /** A refresh call that starts is queued; the joining call waits or is woken. */
  lemma JoinServed(s: State, r: nat)
    requires PromiseInRange(s) && r < |s.calls|
    ensures
      var t := Join(s, r);
      && s.queue <= t.queue && |s.calls| <= |t.calls| && !t.calls[r].status.Queued? && !t.calls[r].status.Answered?
      && (forall x :: 0 <= x < |s.calls| && x != r ==> t.calls[x] == s.calls[x])
      && forall x :: |s.calls| <= x < |t.calls| ==> t.calls[x].status.Queued? && SendQueued(t.queue, x)
  {
    var t := Join(s, r);
    if |t.calls| > |s.calls| {
      assert t.queue[|s.queue|] == Send(|s.calls|);
    }
  }

  lemma SettleServed(s: State, p: nat, outcome: Promise)
    requires p < |s.promises| && !outcome.Pending?
    ensures
      var t := Settle(s, p, outcome);
      && s.queue <= t.queue && |t.calls| == |s.calls|
      && forall x :: 0 <= x < |s.calls| ==> t.calls[x].status == s.calls[x].status || t.calls[x].status.Woken?
  {
  }

  /** After the head job its own call needs no job, or has a new one. */
  ghost predicate Handled(s: State, t: State, r: nat) {
    && s.queue <= t.queue && r < |s.calls| <= |t.calls|
    && (t.calls[r].status.Queued? ==> SendQueued(t.queue, r)) && !t.calls[r].status.Answered?
    && (forall x :: 0 <= x < |s.calls| && x != r ==> t.calls[x].status == s.calls[x].status || t.calls[x].status.Woken?)
    && forall x :: |s.calls| <= x < |t.calls| ==> t.calls[x].status.Queued? && SendQueued(t.queue, x)
  }

  lemma SendHandled(s: State, r: nat)
    requires PromiseInRange(s) && r < |s.calls|
    ensures Handled(s, RunSend(s, r), r)
  {
    hide Join, SendQueued;
    JoinServed(s.(calls := s.calls[r := s.calls[r].(tilde := false)]), r);
  }

  lemma ReplyHandled(s: State, r: nat, response: Response)
    requires PromiseInRange(s) && r < |s.calls| && Answerable(s.calls[r].kind, response)
    ensures Handled(s, RunReply(s, r, response), r)
  {
    hide Join, Settle, SendQueued;
    JoinServed(s.(calls := s.calls[r := s.calls[r].(retried := true)]), r);
    forall t: State, p: nat, outcome: Promise | p < |t.promises| && !outcome.Pending?
      ensures
        var u := Settle(t, p, outcome);
        && t.queue <= u.queue && |u.calls| == |t.calls|
        && forall x :: 0 <= x < |t.calls| ==> u.calls[x].status == t.calls[x].status || u.calls[x].status.Woken?
    {
      SettleServed(t, p, outcome);
    }
  }

  lemma WakeHandled(s: State, r: nat, ok: bool)
    requires r < |s.calls|
    ensures Handled(s, RunWake(s, r, ok), r)
  {
    var t := RunWake(s, r, ok);
    if t.calls[r].status.Queued? {
      assert t.queue[|t.queue| - 1] == Send(r);
    }
  }

  lemma HandledServed(s: State, t: State)
    requires s.queue != [] && !s.queue[0].LogOut? && Handled(s.(queue := s.queue[1..]), t, s.queue[0].r)
    ensures Served(s, t, 1)
  {
    hide SendQueued, ReplyQueued;
  }

  lemma LogOutServed(s: State)
    requires s.queue != [] && s.queue[0].LogOut?
    ensures Served(s, RunLogOut(s.(queue := s.queue[1..])), 1)
  {
    var t := RunLogOut(s.(queue := s.queue[1..]));
    if |t.calls| > |s.calls| {
      assert t.queue[|t.queue| - 1] == Send(|s.calls|);
    }
  }

  lemma RunServed(s: State)
    requires Inv(s) && Enabled(s, Run)
    ensures Served(s, Apply(s, Run), 1)
  {
    hide WaitersOk, RunSend, RunReply, RunWake, Handled, Served;
    var job, t := s.queue[0], s.(queue := s.queue[1..]);
    assert JobOk(s, job);
    match job
    case LogOut => LogOutServed(s);
    case Send(r) =>
      SendHandled(t, r);
      HandledServed(s, RunSend(t, r));
    case Reply(r, response) =>
      ReplyHandled(t, r, response);
      HandledServed(s, RunReply(t, r, response));
    case Wake(r, _, ok) =>
      WakeHandled(t, r, ok);
      HandledServed(s, RunWake(t, r, ok));
  }

  lemma OtherServed(s: State, e: Event)
    requires Enabled(s, e) && !e.Run?
    ensures Served(s, Apply(s, e), 0)
  {
    var t := Apply(s, e);
    assert s.queue[0..] == s.queue;
    if e.Issue? {
      assert t.queue[|s.queue|] == Send(|s.calls|);
    } else if e.Deliver? {
      assert IsReply(t.queue[|s.queue|], e.r);
    }
  }

  lemma AttendedStep(s: State, e: Event)
    requires Inv(s) && AllAttended(s) && Enabled(s, e)
    ensures AllAttended(Apply(s, e)) && |s.calls| <= |Apply(s, e).calls|
    ensures if e.Run? then s.queue[1..] <= Apply(s, e).queue else s.queue <= Apply(s, e).queue
  {
    hide Inv, AllAttended, RunJob, ServedCall;
    if e.Run? {
      RunServed(s);
      ServedAttended(s, Apply(s, e), 1);
    } else {
      OtherServed(s, e);
      ServedAttended(s, Apply(s, e), 0);
      assert s.queue[0..] == s.queue;
    }
  }

  lemma {:induction false} AttendedRuns(s: State, events: seq<Event>, t: State)
    requires Inv(s) && AllAttended(s) && Runs(s, events, t)
    ensures AllAttended(t) && |s.calls| <= |t.calls|
    decreases |events|
  {
    hide Inv, AllAttended, Enabled, Apply;
    if events != [] {
      StepKeeps(s, events[0]);
      AttendedStep(s, events[0]);
      AttendedRuns(Apply(s, events[0]), events[1..], t);
    }
  }
}
