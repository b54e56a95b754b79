/**
 Concrete runs. The client's clock is 27 minutes ahead of the server's, so every token is due as soon as it arrives:
 a late join breaks single flight, a failed refresh is final, and after a late join it need not be.
 */
module LateJoin {
  import opened Schema
  import opened Client
  import opened Flight
  import opened FailedRefresh

  const TOKEN := Jwt(0, 1800)
  const NOW := 1620 * 1000
  const DUE := Store(Some(TOKEN), Some("r"), true, false, false)
  const BUSY := DUE.(isLoading := true)
  const DONE := BUSY.(refresh := Some("s"))

  const START := State(DUE, None, [], [], [], 0, NOW)

  const ASKED := Call(PrivateCall, true, false, 0, NoHeader, Queued)
  const SENT := Plain(Sent, 1, Bearer(Some(TOKEN)))

  function Plain(status: Status, dispatches: nat, header: Header): Call {
    Call(PrivateCall, false, false, dispatches, header, status)
  }

  function Waiter(p: nat): Call {
    Plain(Waiting(p), 0, NoHeader)
  }

  function Refreshing(p: nat, token: string, status: Status, dispatches: nat): Call {
    Call(RefreshCall(p, token), false, false, dispatches, NoHeader, status)
  }

  /** The run so far, one event longer. */
  lemma Then(events: seq<Event>, s: State, e: Event, t: State) returns (more: seq<Event>)
    requires Runs(START, events, s) && Enabled(s, e) && Apply(s, e) == t
    ensures Runs(START, more, t)
  {
    hide Enabled, Apply;
    OneMore(START, events, s, e);
    more := events + [e];
  }

  lemma Asks(events: seq<Event>, s: State) returns (more: seq<Event>, t: State)
    requires Runs(START, events, s)
    ensures Runs(START, more, t) && t == s.(calls := s.calls + [ASKED], queue := s.queue + [Send(|s.calls|)])
  {
    hide Runs;
    t := Apply(s, Issue(true));
    more := Then(events, s, Issue(true), t);
  }

  /** A request finds its token due and starts a refresh, which goes out. */
  lemma FirstRefresh() returns (events: seq<Event>, t: State)
    ensures Runs(START, events, t)
    ensures t == State(BUSY, Some(0), [Pending([0])], [Waiter(0), Refreshing(0, "r", Sent, 1)], [], 0, NOW)
  {
    hide Runs;
    RunNone(START);
    events, t := Asks([], START);
    assert [] + [0] == [0];
    var u := State(BUSY, Some(0), [Pending([0])], [Waiter(0), Refreshing(0, "r", Queued, 0)], [Send(1)], 0, NOW);
    events := Then(events, t, Run, u);
    t := State(BUSY, Some(0), [Pending([0])], [Waiter(0), Refreshing(0, "r", Sent, 1)], [], 0, NOW);
    events := Then(events, u, Run, t);
  }

  lemma Answers(events: seq<Event>, s: State, r: nat, response: Response) returns (more: seq<Event>, t: State)
    requires Runs(START, events, s) && r < |s.calls| && s.calls[r].status.Sent? && Answerable(s.calls[r].kind, response)
    ensures Runs(START, more, t)
    ensures t == s.(calls := s.calls[r := s.calls[r].(status := Answered)], queue := s.queue + [Reply(r, response)])
  {
    hide Runs;
    t := Apply(s, Deliver(r, response));
    more := Then(events, s, Deliver(r, response), t);
  }

  /** A client that will never refresh again, within five events of the start. */
  lemma LostIsReachable() returns (events: seq<Event>, t: State)
    ensures Fresh(START) && Runs(START, events, t) && Lost(t) && NeverAgain(t)
  {
    hide Runs, NeverAgain;
    events, t := FirstRefresh();
    events, t := Answers(events, t, 1, Fault(OtherError));
    assert t.queue[1..] == [];
    var u := Apply(t, Run);
    events := Then(events, t, Run, u);
    assert u.promises == [Rejected];
    t := u;
    NeverAgainExactly(START, events, t);
  }

  /** Two more requests arrive; the refresh is fulfilled between them. */
  lemma TwoMoreRequests() returns (events: seq<Event>, t: State)
    ensures Runs(START, events, t)
    ensures t == State(DONE, Some(0), [Fulfilled(TOKEN)],
                       [Plain(Woken, 0, NoHeader), Refreshing(0, "r", Settled(true), 1), ASKED, ASKED],
                       [Send(2), Wake(0, 0, true), Send(3)], 0, NOW)
  {
    hide Runs;
    events, t := FirstRefresh();
    events, t := Answers(events, t, 1, NewTokens(TOKEN, "s"));
    events, t := Asks(events, t);
    assert t.queue[1..] == [Send(2)];
    var u := State(DONE, Some(0), [Fulfilled(TOKEN)],
                   [Plain(Woken, 0, NoHeader), Refreshing(0, "r", Settled(true), 1), ASKED], [Send(2), Wake(0, 0, true)], 0, NOW);
    events := Then(events, t, Run, u);
    events, t := Asks(events, u);
  }

  /** The second request joins the fulfilled promise, behind the third; the first resumes and clears the variable. */
  lemma LateJoins() returns (events: seq<Event>, t: State)
    ensures Runs(START, events, t)
    ensures t == State(DONE, None, [Fulfilled(TOKEN)],
                       [SENT, Refreshing(0, "r", Settled(true), 1), Plain(Woken, 0, NoHeader), ASKED],
                       [Send(3), Wake(2, 0, true)], 0, NOW)
  {
    hide Runs;
    events, t := TwoMoreRequests();
    assert t.queue[1..] == [Wake(0, 0, true), Send(3)];
    var u := State(DONE, Some(0), [Fulfilled(TOKEN)],
                   [Plain(Woken, 0, NoHeader), Refreshing(0, "r", Settled(true), 1), Plain(Woken, 0, NoHeader), ASKED],
                   [Wake(0, 0, true), Send(3), Wake(2, 0, true)], 0, NOW);
    events := Then(events, t, Run, u);
    assert u.queue[1..] == [Send(3), Wake(2, 0, true)];
    t := State(DONE, None, [Fulfilled(TOKEN)],
               [SENT, Refreshing(0, "r", Settled(true), 1), Plain(Woken, 0, NoHeader), ASKED], [Send(3), Wake(2, 0, true)], 0, NOW);
    events := Then(events, u, Run, t);
  }

  /** The third request starts a second refresh; the late waiter is about to clear the variable that guards it. */
  lemma GuardBreaks() returns (events: seq<Event>, t: State)
    ensures Runs(START, events, t) && Enabled(t, Run) && !Guarded(t, Run)
    ensures t == State(DONE, Some(1), [Fulfilled(TOKEN), Pending([3])],
                       [SENT, Refreshing(0, "r", Settled(true), 1), Plain(Woken, 0, NoHeader), Waiter(1), Refreshing(1, "s", Queued, 0)],
                       [Wake(2, 0, true), Send(4)], 0, NOW)
  {
    hide Runs;
    events, t := LateJoins();
    assert t.queue[1..] == [Wake(2, 0, true)];
    assert [] + [3] == [3];
    var u := State(DONE, Some(1), [Fulfilled(TOKEN), Pending([3])],
                   [SENT, Refreshing(0, "r", Settled(true), 1), Plain(Woken, 0, NoHeader), Waiter(1), Refreshing(1, "s", Queued, 0)],
                   [Wake(2, 0, true), Send(4)], 0, NOW);
    events := Then(events, t, Run, u);
    t := u;
  }

  /** The guard is gone, and a fourth request starts a third refresh while the second is outstanding. */
  lemma TwoInFlight() returns (events: seq<Event>, t: State)
    ensures Runs(START, events, t)
    ensures t == State(DONE, Some(2), [Fulfilled(TOKEN), Pending([3]), Pending([5])],
                       [SENT, Refreshing(0, "r", Settled(true), 1), SENT, Waiter(1), Refreshing(1, "s", Sent, 1),
                        Waiter(2), Refreshing(2, "s", Queued, 0)],
                       [Send(6)], 0, NOW)
  {
    hide Runs;
    events, t := GuardBreaks();
    assert t.queue[1..] == [Send(4)];
    var u := State(DONE, None, [Fulfilled(TOKEN), Pending([3])],
                   [SENT, Refreshing(0, "r", Settled(true), 1), SENT, Waiter(1), Refreshing(1, "s", Queued, 0)], [Send(4)], 0, NOW);
    events := Then(events, t, Run, u);
    events, t := Asks(events, u);
    assert t.queue[1..] == [Send(5)];
    u := State(DONE, None, [Fulfilled(TOKEN), Pending([3])],
               [SENT, Refreshing(0, "r", Settled(true), 1), SENT, Waiter(1), Refreshing(1, "s", Sent, 1), ASKED], [Send(5)], 0, NOW);
    events := Then(events, t, Run, u);
    assert u.queue[1..] == [] && [] + [5] == [5];
    t := State(DONE, Some(2), [Fulfilled(TOKEN), Pending([3]), Pending([5])],
               [SENT, Refreshing(0, "r", Settled(true), 1), SENT, Waiter(1), Refreshing(1, "s", Sent, 1),
                Waiter(2), Refreshing(2, "s", Queued, 0)],
               [Send(6)], 0, NOW);
    events := Then(events, u, Run, t);
  }

  /** A late join breaks single flight, with tokens of the form the refresh endpoint signs. */
  lemma LateJoinBreaksSingleFlight() returns (events: seq<Event>, t: State)
    ensures Fresh(START) && Paired(START.store) && Runs(START, events, t)
    ensures Outstanding(t, 4) && Outstanding(t, 6)
  {
    events, t := TwoInFlight();
  }

  /** The second refresh fails while the third is under way. */
  lemma SecondFails() returns (events: seq<Event>, t: State)
    ensures Runs(START, events, t) && !Lost(t)
    ensures t == State(DONE.(isLoading := false, failed := true), Some(2), [Fulfilled(TOKEN), Rejected, Pending([5])],
                       [SENT, Refreshing(0, "r", Settled(true), 1), SENT, Plain(Woken, 0, NoHeader), Refreshing(1, "s", Settled(false), 1),
                        Waiter(2), Refreshing(2, "s", Sent, 1)],
                       [Wake(3, 1, false)], 0, NOW)
  {
    hide Runs;
    events, t := TwoInFlight();
    assert t.queue[1..] == [];
    var u := t.(calls := t.calls[6 := Refreshing(2, "s", Sent, 1)], queue := []);
    events := Then(events, t, Run, u);
    events, t := Answers(events, u, 4, Fault(OtherError));
    assert t.queue[1..] == [];
    u := State(DONE.(isLoading := false, failed := true), Some(2), [Fulfilled(TOKEN), Rejected, Pending([5])],
               [SENT, Refreshing(0, "r", Settled(true), 1), SENT, Plain(Woken, 0, NoHeader), Refreshing(1, "s", Settled(false), 1),
                Waiter(2), Refreshing(2, "s", Sent, 1)],
               [Wake(3, 1, false)], 0, NOW);
    events := Then(events, t, Run, u);
    t := u;
    assert Outstanding(t, 6) && !t.queue[0].Reply?;
  }

  const RENEWED := DONE.(isLoading := false, failed := true, refresh := Some("u"))

  /** The third refresh succeeds; its waiter is about to resume. */
  lemma ThirdSucceeds(before: seq<Event>, s: State) returns (events: seq<Event>, t: State)
    requires Runs(START, before, s)
    requires s == State(DONE.(isLoading := false, failed := true), Some(2), [Fulfilled(TOKEN), Rejected, Pending([5])],
                        [SENT, Refreshing(0, "r", Settled(true), 1), SENT, Plain(Woken, 0, NoHeader), Refreshing(1, "s", Settled(false), 1),
                         Waiter(2), Refreshing(2, "s", Sent, 1)],
                        [Wake(3, 1, false)], 0, NOW)
    ensures Runs(START, events, t)
    ensures t == State(RENEWED, Some(2), [Fulfilled(TOKEN), Rejected, Fulfilled(TOKEN)],
                       [SENT, Refreshing(0, "r", Settled(true), 1), SENT, Plain(Settled(false), 0, NoHeader),
                        Refreshing(1, "s", Settled(false), 1), Plain(Woken, 0, NoHeader), Refreshing(2, "s", Settled(true), 1)],
                       [Wake(5, 2, true)], 0, NOW)
  {
    hide Runs;
    assert s.queue[1..] == [];
    var u := s.(calls := s.calls[3 := Plain(Settled(false), 0, NoHeader)], queue := []);
    events := Then(before, s, Run, u);
    events, t := Answers(events, u, 6, NewTokens(TOKEN, "u"));
    assert t.queue[1..] == [];
    u := State(RENEWED, Some(2), [Fulfilled(TOKEN), Rejected, Fulfilled(TOKEN)],
               [SENT, Refreshing(0, "r", Settled(true), 1), SENT, Plain(Settled(false), 0, NoHeader),
                Refreshing(1, "s", Settled(false), 1), Plain(Woken, 0, NoHeader), Refreshing(2, "s", Settled(true), 1)],
               [Wake(5, 2, true)], 0, NOW);
    events := Then(events, t, Run, u);
    t := u;
  }

  /** A failed refresh that does not stick: a later request makes a fourth refresh call. */
  lemma FailedRefreshNeedNotStick() returns (s: State, t: State, before: seq<Event>, events: seq<Event>)
    ensures Runs(START, before, s) && |s.calls| == 7 && s.calls[4].kind.RefreshCall? && s.calls[4].status == Settled(false)
    ensures Runs(START, events, t) && |t.calls| == 9 && t.calls[8].kind.RefreshCall? && t.calls[4] == s.calls[4]
  {
    hide Runs;
    before, s := SecondFails();
    events, t := ThirdSucceeds(before, s);
    assert t.queue[1..] == [];
    var u := t.(refreshPromise := None, calls := t.calls[5 := SENT], queue := []);
    events := Then(events, t, Run, u);
    events, t := Asks(events, u);
    assert t.queue[1..] == [];
    u := Apply(t, Run);
    events := Then(events, t, Run, u);
    t := u;
  }

  /** The other way round: the protected refresh fails first, the unprotected one later, and that is final. */
  lemma OlderFailureIsFinalToo() returns (events: seq<Event>, t: State)
    ensures Runs(START, events, t) && Failing(t) && NeverAgain(Apply(t, Run))
    ensures t.refreshPromise == Some(2) && t.calls[t.queue[0].r].kind.p == 1
  {
    hide Runs, NeverAgain;
    events, t := TwoInFlight();
    assert t.queue[1..] == [];
    var u := t.(calls := t.calls[6 := Refreshing(2, "s", Sent, 1)], queue := []);
    events := Then(events, t, Run, u);
    events, t := Answers(events, u, 6, Fault(OtherError));
    assert t.queue[1..] == [];
    u := State(DONE.(isLoading := false, failed := true), Some(2), [Fulfilled(TOKEN), Pending([3]), Rejected],
               [SENT, Refreshing(0, "r", Settled(true), 1), SENT, Waiter(1), Refreshing(1, "s", Sent, 1),
                Plain(Woken, 0, NoHeader), Refreshing(2, "s", Settled(false), 1)],
               [Wake(5, 2, false)], 0, NOW);
    events := Then(events, t, Run, u);
    assert u.queue[1..] == [];
    t := u.(calls := u.calls[5 := Plain(Settled(false), 0, NoHeader)], queue := []);
    events := Then(events, u, Run, t);
    events, t := Answers(events, t, 4, Fault(OtherError));
    assert FaultFor(t.queue[0], 4) && t.promises == [Fulfilled(TOKEN), Pending([3]), Rejected];
    assert Lost(t);
    FailureIsFinalExactly(START, events, t);
  }

  /** Both errors are queued before the first is processed: the first failure is final with a refresh still outstanding. */
  lemma QueuedFailuresAreFinal() returns (events: seq<Event>, t: State)
    ensures Runs(START, events, t) && Failing(t) && NeverAgain(Apply(t, Run))
    ensures t.queue[0].r == 4 && Outstanding(Apply(t, Run), 6)
  {
    hide Runs, NeverAgain;
    events, t := TwoInFlight();
    assert t.queue[1..] == [];
    var u := t.(calls := t.calls[6 := Refreshing(2, "s", Sent, 1)], queue := []);
    events := Then(events, t, Run, u);
    events, t := Answers(events, u, 4, Fault(OtherError));
    events, t := Answers(events, t, 6, Fault(OtherError));
    assert FaultFor(t.queue[0], 4) && FaultFor(t.queue[1], 6);
    assert Lost(t);
    FailureIsFinalExactly(START, events, t);
    StillOutstanding(t);
  }

  lemma StillOutstanding(t: State)
    requires t.queue == [Reply(4, Fault(OtherError)), Reply(6, Fault(OtherError))] && PromiseInRange(t)
    requires |t.calls| == 7 && Outstanding(t, 6) && t.calls[4].kind == RefreshCall(1, "s") && !t.calls[4].retried
    requires t.promises == [Fulfilled(TOKEN), Pending([3]), Pending([5])]
    ensures Outstanding(Apply(t, Run), 6)
  {
  }

  // ---- a refresh that fails before any call ----

  const FRESH_TOKEN := Store(Some(TOKEN), Some("r"), true, false, false)
  const EARLY := State(FRESH_TOKEN, None, [], [], [], 0, 0)

  /** The run so far, one event longer, from the earlier start. */
  lemma ThenEarly(events: seq<Event>, s: State, e: Event, t: State) returns (more: seq<Event>)
    requires Runs(EARLY, events, s) && Enabled(s, e) && Apply(s, e) == t
    ensures Runs(EARLY, more, t)
  {
    hide Enabled, Apply;
    OneMore(EARLY, events, s, e);
    more := events + [e];
  }

  /** Two requests are under way with a token that is not due. */
  lemma TwoRequests() returns (events: seq<Event>, t: State)
    ensures Runs(EARLY, events, t) && t == State(FRESH_TOKEN, None, [], [SENT, SENT], [], 0, 0)
  {
    hide Runs;
    RunNone(EARLY);
    var u := EARLY.(calls := [ASKED], queue := [Send(0)]);
    events := ThenEarly([], EARLY, Issue(true), u);
    t := u.(calls := [ASKED, ASKED], queue := [Send(0), Send(1)]);
    events := ThenEarly(events, u, Issue(true), t);
    assert t.queue[1..] == [Send(1)];
    u := t.(calls := [SENT, ASKED], queue := [Send(1)]);
    events := ThenEarly(events, t, Run, u);
    assert u.queue[1..] == [];
    t := u.(calls := [SENT, SENT], queue := []);
    events := ThenEarly(events, u, Run, t);
  }

  const REFUSED := SENT.(status := Settled(false))
  const LEAVING := Call(LogoutCall, false, false, 1, NoHeader, Sent)

  /** One is answered INVALID_TOKEN; the logout this schedules is under way. */
  lemma LogoutUnderWay() returns (events: seq<Event>, t: State)
    ensures Runs(EARLY, events, t)
    ensures t == State(FRESH_TOKEN.(isLoading := true), None, [], [REFUSED, SENT, LEAVING], [], 0, 0)
  {
    hide Runs;
    events, t := TwoRequests();
    var u := t.(calls := [SENT.(status := Answered), SENT], queue := [Reply(0, Fault(InvalidToken))]);
    events := ThenEarly(events, t, Deliver(0, Fault(InvalidToken)), u);
    assert u.queue[1..] == [];
    t := u.(calls := [REFUSED, SENT], queue := [], timers := 1);
    events := ThenEarly(events, u, Run, t);
    u := t.(timers := 0, queue := [LogOut]);
    events := ThenEarly(events, t, Fire, u);
    assert u.queue[1..] == [];
    t := State(FRESH_TOKEN.(isLoading := true), None, [], [REFUSED, SENT, LEAVING.(status := Queued, dispatches := 0)], [Send(2)], 0, 0);
    events := ThenEarly(events, u, Run, t);
    assert t.queue[1..] == [];
    u := t.(calls := [REFUSED, SENT, LEAVING], queue := []);
    events := ThenEarly(events, t, Run, u);
    t := u;
  }

  /** The logout is answered; then EXPIRED_TOKEN arrives for the other: its refresh has no token and fails for good. */
  lemma TokenlessFailureIsFinal() returns (events: seq<Event>, t: State)
    ensures Fresh(EARLY) && Paired(EARLY.store) && Runs(EARLY, events, t) && Tokenless(t) && NeverAgain(Apply(t, Run))
    ensures forall r :: 0 <= r < |t.calls| ==> !t.calls[r].kind.RefreshCall?
  {
    hide Runs, NeverAgain;
    events, t := LogoutUnderWay();
    var u := t.(calls := [REFUSED, SENT, LEAVING.(status := Answered)], queue := [Reply(2, Success)]);
    events := ThenEarly(events, t, Deliver(2, Success), u);
    assert u.queue[1..] == [];
    t := State(CLEARED, None, [], [REFUSED, SENT, LEAVING.(status := Settled(true))], [], 0, 0);
    events := ThenEarly(events, u, Run, t);
    u := t.(calls := [REFUSED, SENT.(status := Answered), LEAVING.(status := Settled(true))], queue := [Reply(1, Fault(ExpiredToken))]);
    events := ThenEarly(events, t, Deliver(1, Fault(ExpiredToken)), u);
    t := u;
    TokenlessIsFinalExactly(EARLY, events, t);
  }
}
