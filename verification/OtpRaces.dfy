/**
 Without the serial order the attempt budget fails: SELECT and UPDATE of the counter are two statements, so every
 verification that has read the same row writes the same new count. The runs here show it for any number of requests.
 */
module OtpRaces {
  import opened Schema
  import opened Config
  import opened Handlers
  import opened Server
  import opened OtpLock

  datatype Setting = Setting(phone: string, code: string, guess: string)

  function Stock(c: Setting): Fresh {
    Fresh("", "", "", c.code)
  }

  function Row(c: Setting, attempts: nat): OtpRow {
    OtpRow(c.code, attempts, OTP_EXPIRY_MS, 0)
  }

  function Guess(c: Setting): Request {
    PhoneSignIn(c.phone, c.guess, None)
  }

  /** A verification that has read the row before any miss was counted. */
  function Reader(c: Setting): Proc {
    Proc(Guess(c), VerifyFind, Some(OtpAnswer(Some(Row(c, 0)))))
  }

  ghost predicate Stage(s: State, c: Setting, attempts: nat) {
    && s.clock == 0 && s.accounts == map[] && s.generated == map[]
    && c.phone in s.db.otps && s.db.otps[c.phone] == Row(c, attempts)
  }

  ghost predicate Readers(s: State, c: Setting, n: nat) {
    forall pid :: 0 <= pid < n ==> pid in s.procs && s.procs[pid] == Reader(c)
  }

  function Miss(c: Setting): Event {
    Verified(c.phone, c.guess, Invalid, 0)
  }

  /** A request for a code, served to the end of its upsert. */
  lemma StoreRun(c: Setting, pid: Pid) returns (acts: seq<Action>, t: State)
    ensures Runs(Init(), acts, t) && Stage(t, c, 0) && t.procs.Keys == {pid}
    ensures t.log == [Stored(c.phone, c.code, 0, OTP_EXPIRY_MS)]
  {
    hide Runs;
    var req := RequestOtp(c.phone, Signup);
    var s0 := Init();
    var s1 := Apply(s0, Begin(pid, req));
    var s2 := Apply(s1, Exec(pid, false));
    assert s2.procs[pid] == Proc(req, CooldownCheck, Some(OtpAnswer(None)));
    var s3 := Apply(s2, Resume(pid, Stock(c)));
    assert s3.procs[pid] == Proc(req, PurposeAuth, None);
    var s4 := Apply(s3, Exec(pid, false));
    assert s4.procs[pid] == Proc(req, PurposeAuth, Some(AuthAnswer(None)));
    var s5 := Apply(s4, Resume(pid, Stock(c)));
    assert s5.procs[pid] == Proc(req, StoreOtp(false, c.code, 0), None);
    t := Apply(s5, Exec(pid, false));
    RunsNone(s0);
    RunsSnoc(s0, [], s0, Begin(pid, req));
    acts := [] + [Begin(pid, req)];
    RunsSnoc(s0, acts, s1, Exec(pid, false));
    acts := acts + [Exec(pid, false)];
    RunsSnoc(s0, acts, s2, Resume(pid, Stock(c)));
    acts := acts + [Resume(pid, Stock(c))];
    RunsSnoc(s0, acts, s3, Exec(pid, false));
    acts := acts + [Exec(pid, false)];
    RunsSnoc(s0, acts, s4, Resume(pid, Stock(c)));
    acts := acts + [Resume(pid, Stock(c))];
    RunsSnoc(s0, acts, s5, Exec(pid, false));
    acts := acts + [Exec(pid, false)];
  }

  /** One more verification reads the row. */
  lemma ReadStep(s: State, c: Setting, n: nat)
    requires Stage(s, c, 0) && Readers(s, c, n) && n !in s.procs
    ensures Enabled(s, Begin(n, Guess(c)))
    ensures
      var u := Apply(s, Begin(n, Guess(c)));
      Enabled(u, Exec(n, false)) && var t := Apply(u, Exec(n, false));
      Stage(t, c, 0) && Readers(t, c, n + 1) && t.procs.Keys == s.procs.Keys + {n} && t.log == s.log
  {
    var u := Apply(s, Begin(n, Guess(c)));
    assert u.procs[n] == Proc(Guess(c), VerifyFind, None);
  }

  lemma {:induction false} ReadersRun(c: Setting, n: nat, total: nat) returns (acts: seq<Action>, t: State)
    requires n <= total
    ensures Runs(Init(), acts, t) && Stage(t, c, 0) && Readers(t, c, n)
    ensures forall pid :: pid in t.procs ==> pid < n || pid == total
    ensures t.log == [Stored(c.phone, c.code, 0, OTP_EXPIRY_MS)]
  {
    hide Runs, Apply, Enabled, Stage;
    if n == 0 {
      acts, t := StoreRun(c, total);
    } else {
      var s: State;
      acts, s := ReadersRun(c, n - 1, total);
      ReadStep(s, c, n - 1);
      var u := Apply(s, Begin(n - 1, Guess(c)));
      RunsSnoc(Init(), acts, s, Begin(n - 1, Guess(c)));
      acts := acts + [Begin(n - 1, Guess(c))];
      RunsSnoc(Init(), acts, u, Exec(n - 1, false));
      acts := acts + [Exec(n - 1, false)];
      t := Apply(u, Exec(n - 1, false));
    }
  }

  /** A reader counts its miss: the count it writes does not depend on the row. */
  lemma MissStep(s: State, c: Setting, pid: Pid, attempts: nat)
    requires Stage(s, c, attempts) && pid in s.procs && s.procs[pid] == Reader(c) && c.code != c.guess
    ensures Enabled(s, Resume(pid, Stock(c)))
    ensures
      var u := Apply(s, Resume(pid, Stock(c)));
      Enabled(u, Exec(pid, false)) && var v := Apply(u, Exec(pid, false));
      Enabled(v, Resume(pid, Stock(c))) && var t := Apply(v, Resume(pid, Stock(c)));
      && Stage(t, c, 1) && t.log == s.log + [Miss(c)]
      && t.procs == s.procs[pid := Proc(Guess(c), Fail(OtpInvalid), None)]
  {
    var u := Apply(s, Resume(pid, Stock(c)));
    assert u.procs[pid] == Proc(Guess(c), VerifyBump(1, 0), None);
    var v := Apply(u, Exec(pid, false));
    assert v.procs[pid] == Proc(Guess(c), VerifyBump(1, 0), Some(Acknowledged));
  }

  lemma {:induction false} MissesRun(s: State, c: Setting, n: nat, attempts: nat) returns (acts: seq<Action>, t: State)
    requires Stage(s, c, attempts) && Readers(s, c, n) && c.code != c.guess
    ensures Runs(s, acts, t) && Stage(t, c, if n == 0 then attempts else 1)
    ensures t.log == s.log + seq(n, i => Miss(c))
    decreases n
  {
    hide Runs, Apply, Enabled, Stage;
    if n == 0 {
      acts, t := [], s;
      RunsNone(s);
    } else {
      var a, e := Resume(n - 1, Stock(c)), Exec(n - 1, false);
      MissStep(s, c, n - 1, attempts);
      var u := Apply(s, a);
      var v := Apply(u, e);
      RunsNone(s);
      RunsSnoc(s, [], s, a);
      RunsSnoc(s, [] + [a], u, e);
      var first := [] + [a] + [e];
      RunsSnoc(s, first, v, a);
      first := first + [a];
      var s' := Apply(v, a);
      acts, t := MissesRun(s', c, n - 1, 1);
      RunsConcat(s, first, s', acts, t);
      acts := first + acts;
      assert [Miss(c)] + seq(n - 1, i => Miss(c)) == seq(n, i => Miss(c));
    }
  }

  /**
   However large n: one stored code can answer n verifications with OTP_INVALID and end with one attempt counted,
   when all of them read the row before the first writes it back.
   */
  lemma ConcurrentMissesShareOneCount(c: Setting, n: nat) returns (t: State)
    requires c.code != c.guess && n > 0
    ensures Reachable(t) && c.phone in t.db.otps && t.db.otps[c.phone].attempts == 1
    ensures t.log == [Stored(c.phone, c.code, 0, OTP_EXPIRY_MS)] + seq(n, i => Miss(c))
    ensures Misses(t.log, c.phone) == n
  {
    hide Runs, Misses;
    var acts, s := ReadersRun(c, n, n);
    var more: seq<Action>;
    more, t := MissesRun(s, c, n, 0);
    RunsConcat(Init(), acts, s, more, t);
    CountMisses(c, n);
  }

  lemma {:induction false} CountMisses(c: Setting, n: nat)
    ensures Misses([Stored(c.phone, c.code, 0, OTP_EXPIRY_MS)] + seq(n, i => Miss(c)), c.phone) == n
  {
    var store := Stored(c.phone, c.code, 0, OTP_EXPIRY_MS);
    var log := [store] + seq(n, i => Miss(c));
    if n == 0 {
      assert log == [store] && log[..0] == [];
    } else {
      CountMisses(c, n - 1);
      assert log[..n] == [store] + seq(n - 1, i => Miss(c));
    }
  }
}
