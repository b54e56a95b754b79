/**
 The reference behaviour of one-time codes for one phone: a lock that opens with a stored code, takes three misses
 at most, and closes for good on success, exhaustion or expiry. It knows nothing of tables or statements.
 */
module OtpLock {
  import opened Schema
  import opened Config
  import opened Handlers
  import opened Server

  datatype Lock =
    | Never
    | Open(code: string, createdAt: Time, misses: nat, jammed: bool)
    | Closed(createdAt: Time, why: Verdict)

  predicate Concerns(e: Event, phone: string) {
    (e.Stored? || e.Verified? || e.Jammed?) && e.phone == phone
  }

  function Turn(lock: Lock, e: Event): Lock {
    match e
    case Stored(_, code, createdAt, _) => Open(code, createdAt, 0, false)
    case Verified(_, _, verdict, _) =>
      if !lock.Open? || verdict.NotFound? then lock
      else if verdict.Invalid? then lock.(misses := lock.misses + 1)
      else Closed(lock.createdAt, verdict)
    case Jammed(_) => if lock.Open? then lock.(jammed := true) else lock
    case _ => lock
  }

  /** What the lock lets happen next. `jammed` records that the DELETE after the third miss has failed. */
  predicate Allows(lock: Lock, e: Event) {
    match e
    case Stored(_, _, createdAt, expiresAt) =>
      && expiresAt == createdAt + OTP_EXPIRY_MS
      && (lock.Open? ==> lock.createdAt + OTP_COOLDOWN_MS <= createdAt)
      && (lock.Closed? && lock.why.Expired? ==> lock.createdAt + OTP_COOLDOWN_MS <= createdAt)
    case Verified(_, code, verdict, at) =>
      if !lock.Open? then verdict.NotFound?
      else
        && (if verdict.Expired? then lock.createdAt + OTP_EXPIRY_MS < at else at <= lock.createdAt + OTP_EXPIRY_MS)
        && !verdict.NotFound?
        && (verdict.Invalid? ==> code != lock.code && lock.misses < OTP_MAX_ATTEMPTS - 1 && !lock.jammed)
        && (verdict.MaxAttempts? ==> lock.misses == OTP_MAX_ATTEMPTS - 1 && (lock.jammed || code != lock.code))
        && (verdict.Success? ==> code == lock.code && !lock.jammed)
    case Jammed(_) => lock.Open? && lock.misses == OTP_MAX_ATTEMPTS - 1
    case _ => true
  }

  /** The lock after a history, seen from one phone. */
  function After(log: seq<Event>, phone: string): Lock {
    if log == [] then Never
    else
      var before := After(log[..|log| - 1], phone);
      if Concerns(log[|log| - 1], phone) then Turn(before, log[|log| - 1]) else before
  }

  /** Every event of the phone was allowed when it happened. */
  predicate Legal(log: seq<Event>, phone: string) {
    forall k :: 0 <= k < |log| && Concerns(log[k], phone) ==> Allows(After(log[..k], phone), log[k])
  }

  lemma LegalAppend(log: seq<Event>, e: Event, phone: string)
    requires Legal(log, phone) && (Concerns(e, phone) ==> Allows(After(log, phone), e))
    ensures Legal(log + [e], phone)
    ensures After(log + [e], phone) == if Concerns(e, phone) then Turn(After(log, phone), e) else After(log, phone)
  {
    assert (log + [e])[..|log|] == log;
    forall k | 0 <= k < |log + [e]| && Concerns((log + [e])[k], phone)
      ensures Allows(After((log + [e])[..k], phone), (log + [e])[k])
    {
      if k < |log| {
        assert (log + [e])[..k] == log[..k];
      }
    }
  }

  lemma {:induction false} LegalSkip(log: seq<Event>, added: seq<Event>, phone: string)
    requires Legal(log, phone) && forall e :: e in added ==> !Concerns(e, phone)
    ensures Legal(log + added, phone) && After(log + added, phone) == After(log, phone)
  {
    if added == [] {
      assert log + added == log;
    } else {
      var front := added[..|added| - 1];
      LegalSkip(log, front, phone);
      assert log + added == (log + front) + [added[|added| - 1]];
      LegalAppend(log + front, added[|added| - 1], phone);
    }
  }

  // ---- consequences of legality, read off the history ----

  ghost predicate NoStore(log: seq<Event>, phone: string, i: nat, j: nat)
    requires i <= j <= |log|
  {
    forall k :: i <= k < j && Concerns(log[k], phone) ==> !log[k].Stored?
  }

  predicate Ends(e: Event, phone: string) {
    Concerns(e, phone) && e.Verified? && (e.verdict.Success? || e.verdict.MaxAttempts?)
  }

  function Misses(log: seq<Event>, phone: string): nat {
    if log == [] then 0
    else Misses(log[..|log| - 1], phone)
         + if Concerns(log[|log| - 1], phone) && log[|log| - 1].Verified? && log[|log| - 1].verdict.Invalid? then 1 else 0
  }

  lemma {:induction false} LegalPrefix(log: seq<Event>, phone: string, j: nat)
    requires Legal(log, phone) && j <= |log|
    ensures Legal(log[..j], phone)
  {
    forall k | 0 <= k < j && Concerns(log[..j][k], phone)
      ensures Allows(After(log[..j][..k], phone), log[..j][k])
    {
      assert log[..j][..k] == log[..k];
    }
  }

  lemma {:induction false} LockCountsMisses(log: seq<Event>, phone: string, i: nat, j: nat)
    requires Legal(log, phone) && i <= j <= |log| && NoStore(log, phone, i, j)
    ensures
      var before, after := After(log[..i], phone), After(log[..j], phone);
      && (!before.Open? ==> after == before && Misses(log[i..j], phone) == 0)
      && (before.Open? && after.Open? ==>
            after.createdAt == before.createdAt && after.misses == before.misses + Misses(log[i..j], phone))
      && (before.Open? && before.misses <= 2 && !after.Open? ==>
            after.Closed? && after.createdAt == before.createdAt && before.misses + Misses(log[i..j], phone) <= 2)
      && (before.Open? && before.misses <= 2 && after.Open? ==> after.misses <= 2)
    decreases j - i
  {
    if i == j {
      assert log[i..j] == [];
    } else {
      LockCountsMisses(log, phone, i, j - 1);
      assert log[..j][..j - 1] == log[..j - 1] && log[..j][j - 1] == log[j - 1];
      assert log[i..j][..j - 1 - i] == log[i..j - 1] && log[i..j][j - 1 - i] == log[j - 1];
    }
  }

  lemma {:induction false} LockWithinThree(log: seq<Event>, phone: string)
    requires Legal(log, phone)
    ensures After(log, phone).Open? ==> After(log, phone).misses <= 2
  {
    if log != [] {
      LegalPrefix(log, phone, |log| - 1);
      LockWithinThree(log[..|log| - 1], phone);
    }
  }

  /** A stored code gives at most two OTP_INVALID answers. */
  lemma AtMostTwoMisses(log: seq<Event>, phone: string, i: nat, j: nat)
    requires Legal(log, phone) && i <= j <= |log| && NoStore(log, phone, i, j)
    ensures Misses(log[i..j], phone) <= 2
  {
    LegalPrefix(log, phone, i);
    LockWithinThree(log[..i], phone);
    LockCountsMisses(log, phone, i, j);
  }

  /** After a success or an exhausted budget every verification answers OTP_NOT_FOUND until the next store. */
  lemma OnlyNotFoundAfterTheEnd(log: seq<Event>, phone: string, i: nat, j: nat)
    requires Legal(log, phone) && i < j < |log| && Ends(log[i], phone) && NoStore(log, phone, i, j)
    requires Concerns(log[j], phone) && log[j].Verified?
    ensures log[j].verdict.NotFound?
  {
    assert log[..i + 1][..i] == log[..i] && log[..i + 1][i] == log[i];
    LockCountsMisses(log, phone, i + 1, j);
  }

  /** Two codes stored less than a minute apart have a success or an exhausted budget between them. */
  lemma {:induction false} StoresKeepTheirDistance(log: seq<Event>, phone: string, i: nat, j: nat)
    requires Legal(log, phone) && i < j < |log|
    requires Concerns(log[i], phone) && log[i].Stored? && Concerns(log[j], phone) && log[j].Stored?
    requires forall k :: i < k < j ==> !Ends(log[k], phone)
    ensures log[i].createdAt + OTP_COOLDOWN_MS <= log[j].createdAt
    decreases j - i
  {
    LastStore(log, phone, i, j);
  }

  /** Without an end in between, the lock still remembers a store at least as late. */
  lemma {:induction false} LastStore(log: seq<Event>, phone: string, i: nat, j: nat)
    requires Legal(log, phone) && i < j <= |log| && Concerns(log[i], phone) && log[i].Stored?
    requires forall k :: i < k < j ==> !Ends(log[k], phone)
    ensures
      var lock := After(log[..j], phone);
      !lock.Never? && log[i].createdAt <= lock.createdAt && (lock.Closed? ==> lock.why.Expired?)
    decreases j - i
  {
    assert log[..j][..j - 1] == log[..j - 1] && log[..j][j - 1] == log[j - 1];
    if i + 1 < j {
      LastStore(log, phone, i, j - 1);
    }
  }

  function StoreTimes(log: seq<Event>, phone: string): seq<Time> {
    if log == [] then []
    else StoreTimes(log[..|log| - 1], phone)
         + if StoreOf(log[|log| - 1], phone) then [log[|log| - 1].createdAt] else []
  }

  predicate StoreOf(e: Event, phone: string) {
    Concerns(e, phone) && e.Stored?
  }

  /** At least a cooldown between the first and the last time for each time after the first. */
  predicate Spread(times: seq<Time>) {
    times != [] ==> times[0] + (|times| - 1) * OTP_COOLDOWN_MS <= times[|times| - 1]
  }

  lemma SpreadAppend(times: seq<Time>, at: Time)
    requires Spread(times) && (times != [] ==> times[|times| - 1] + OTP_COOLDOWN_MS <= at)
    ensures Spread(times + [at])
  {
  }

  lemma StoreTimesStep(log: seq<Event>, phone: string, i: nat, j: nat)
    requires i < j <= |log|
    ensures
      var before, after := StoreTimes(log[i..j - 1], phone), StoreTimes(log[i..j], phone);
      after == if StoreOf(log[j - 1], phone) then before + [log[j - 1].createdAt] else before
  {
    var part := log[i..j];
    assert part[..|part| - 1] == log[i..j - 1] && part[|part| - 1] == log[j - 1];
  }

  /** The stored times spread out; `last` is the position of the latest. */
  lemma {:induction false} StoreTimesSpread(log: seq<Event>, phone: string, i: nat, j: nat) returns (last: nat)
    requires Legal(log, phone) && i <= j <= |log|
    requires forall k :: i <= k < j ==> !Ends(log[k], phone)
    ensures
      var times := StoreTimes(log[i..j], phone);
      Spread(times) && (times != [] ==> i <= last < j && StoreOf(log[last], phone) && log[last].createdAt == times[|times| - 1])
    decreases j - i
  {
    hide Legal, Ends, Spread, StoreTimes, After;
    if i == j {
      NothingStored(log, phone, i);
      last := 0;
    } else {
      last := StoreTimesSpread(log, phone, i, j - 1);
      StoreTimesStep(log, phone, i, j);
      if StoreOf(log[j - 1], phone) {
        if StoreTimes(log[i..j - 1], phone) != [] {
          StoresKeepTheirDistance(log, phone, last, j - 1);
        }
        SpreadAppend(StoreTimes(log[i..j - 1], phone), log[j - 1].createdAt);
        last := j - 1;
      }
    }
  }

  lemma NothingStored(log: seq<Event>, phone: string, i: nat)
    requires i <= |log|
    ensures StoreTimes(log[i..i], phone) == [] && Spread([])
  {
  }

  /** Without a verification that ends a code, a span of T ms holds at most T / 60000 + 1 stored codes. */
  lemma StoresInWindow(log: seq<Event>, phone: string, i: nat, j: nat)
    requires Legal(log, phone) && i <= j <= |log|
    requires forall k :: i <= k < j ==> !Ends(log[k], phone)
    ensures
      var times := StoreTimes(log[i..j], phone);
      times != [] ==> |times| <= (times[|times| - 1] - times[0]) / OTP_COOLDOWN_MS + 1
  {
    var last := StoreTimesSpread(log, phone, i, j);
  }
}
