/**
 The persistent second-factor budget of one account: five free failures, then a lock that
 doubles from one minute up to a day. Times are in seconds and never run backwards.
 */
module SecondFactor {
  import opened PeriodKeys

  const FREE := 5
  const MINUTE := 60
  const MAX_LOCK_MINUTES := 1440

  function Pow2(n: nat): (r: nat)
    ensures r > 0
  {
    if n == 0 then 1 else 2 * Pow2(n - 1)
  }

  /** Minutes the `k`-th consecutive failure locks for. */
  function LockMinutes(k: nat): nat
    requires k >= FREE
  {
    var doubled := Pow2(if k - FREE < 20 then k - FREE else 20);
    if doubled < MAX_LOCK_MINUTES then doubled else MAX_LOCK_MINUTES
  }

  /** `secret` is the encrypted credential; None while no second factor is enrolled. */
  datatype Account = Account(secret: Option<string>, failures: nat, lockedUntil: Option<nat>)

  datatype Reservation = Counted(failures: nat) | Locked(failures: nat, seconds: nat) | CredentialChanged

  predicate IsLocked(a: Account, now: nat) {
    a.lockedUntil.Some? && now < a.lockedUntil.value
  }

  function Reserved(a: Account, now: nat): Account {
    var f := a.failures + 1;
    a.(failures := f, lockedUntil := if f >= FREE then Some(now + MINUTE * LockMinutes(f)) else None)
  }

  datatype Event =
    | Reserve(at: nat, secret: string)
    | Release(at: nat, secret: string)

  /** A reservation counts unless the credential changed or is locked; a release takes one back but keeps the lock. */
  function Step(a: Account, e: Event): Account {
    if a.secret != Some(e.secret) then a
    else
      match e
      case Reserve(now, _) => if IsLocked(a, now) then a else Reserved(a, now)
      case Release(_, _) => a.(failures := if a.failures == 0 then 0 else a.failures - 1)
  }

  function Run(a: Account, events: seq<Event>): Account {
    if events == [] then a else Step(Run(a, events[..|events| - 1]), events[|events| - 1])
  }

  // ---------- the bound ----------

  /** Seconds that must pass before the count can reach `n`: all earlier locks, end to end. */
  function Wait(n: nat): nat {
    if n <= FREE then 0 else Wait(n - 1) + MINUTE * LockMinutes(n - 1)
  }

  lemma {:induction false} WaitGrows(m: nat, n: nat)
    requires m <= n
    ensures Wait(m) <= Wait(n)
  {
    if m < n { WaitGrows(m, n - 1); }
  }

  predicate InOrder(events: seq<Event>, begin: nat) {
    && (forall i :: 0 <= i < |events| ==> begin <= events[i].at)
    && (forall i, j :: 0 <= i < j < |events| ==> events[i].at <= events[j].at)
  }

  /** The earliest time another failure can be counted. */
  function NextChance(a: Account, now: nat): nat {
    if a.lockedUntil.Some? && a.lockedUntil.value > now then a.lockedUntil.value else now
  }

  predicate Paid(a: Account, begin: nat, now: nat) {
    begin <= now && begin + Wait(a.failures) <= now && begin + Wait(a.failures + 1) <= NextChance(a, now)
  }

  lemma StepKeepsPaid(a: Account, begin: nat, now: nat, e: Event)
    requires Paid(a, begin, now) && now <= e.at
    ensures Paid(Step(a, e), begin, e.at)
  {
    hide LockMinutes;
    if a.failures > 0 {
      WaitGrows(a.failures - 1, a.failures);
      WaitGrows(a.failures, a.failures + 1);
    }
  }

  lemma {:induction false} RunKeepsPaid(a: Account, events: seq<Event>, begin: nat)
    requires a.failures == 0 && a.lockedUntil.None? && InOrder(events, begin)
    ensures Paid(Run(a, events), begin, if events == [] then begin else events[|events| - 1].at)
  {
    hide LockMinutes, Step;
    if events == [] {
      assert Wait(0) == 0 && Wait(1) == 0;
    } else {
      var n := |events| - 1;
      assert InOrder(events[..n], begin);
      RunKeepsPaid(a, events[..n], begin);
      hide Paid;
      StepKeepsPaid(Run(a, events[..n]), begin, if n == 0 then begin else events[n - 1].at, events[n]);
    }
  }

  /**
   Without a reset the count does not reach `n` before the locks of all earlier failures have
   run, whatever releases are mixed in.
   */
  lemma FailuresTakeTheirTime(a: Account, events: seq<Event>, begin: nat)
    requires a.failures == 0 && a.lockedUntil.None? && InOrder(events, begin) && events != []
    ensures begin + Wait(Run(a, events).failures) <= events[|events| - 1].at
  {
    RunKeepsPaid(a, events, begin);
  }

  /** Guessing as soon as each lock ends: `n` failures in exactly the bound. */
  function Guesses(secret: string, begin: nat, n: nat): seq<Event> {
    if n == 0 then [] else Guesses(secret, begin, n - 1) + [Reserve(begin + Wait(n), secret)]
  }

  /** The bound is reached: it cannot be stated any larger. */
  lemma {:induction false} BoundIsTight(a: Account, secret: string, begin: nat, n: nat)
    requires a.secret == Some(secret) && a.failures == 0 && a.lockedUntil.None?
    ensures var b := Run(a, Guesses(secret, begin, n));
      && b.secret == Some(secret) && b.failures == n
      && (b.lockedUntil == if n >= FREE then Some(begin + Wait(n + 1)) else None)
    ensures |Guesses(secret, begin, n)| == n && (n > 0 ==> Guesses(secret, begin, n)[n - 1].at == begin + Wait(n))
  {
    hide LockMinutes;
    if n > 0 {
      BoundIsTight(a, secret, begin, n - 1);
      var before := Guesses(secret, begin, n - 1);
      assert Guesses(secret, begin, n)[..n - 1] == before;
    }
  }

  /** The sixteenth failure comes no earlier than minute 2047, and each later one a day after the one before. */
  lemma SixteenthFailure()
    ensures Wait(16) == 2047 * MINUTE
    ensures forall n :: n >= 16 ==> Wait(n + 1) == Wait(n) + MAX_LOCK_MINUTES * MINUTE
  {
    Powers();
    assert Wait(6) == 60 && Wait(7) == 180 && Wait(8) == 420 && Wait(9) == 900 && Wait(10) == 1860;
    assert Wait(11) == 3780 && Wait(12) == 7620 && Wait(13) == 15300 && Wait(14) == 30660 && Wait(15) == 61380;
    forall n: nat | n >= 16 ensures Wait(n + 1) == Wait(n) + MAX_LOCK_MINUTES * MINUTE {
      Pow2Grows(11, if n - FREE < 20 then n - FREE else 20);
    }
  }

  lemma Powers()
    ensures Pow2(0) == 1 && Pow2(1) == 2 && Pow2(2) == 4 && Pow2(3) == 8 && Pow2(4) == 16 && Pow2(5) == 32
    ensures Pow2(6) == 64 && Pow2(7) == 128 && Pow2(8) == 256 && Pow2(9) == 512 && Pow2(10) == 1024 && Pow2(11) == 2048
  {
    assert Pow2(3) == 8;
    assert Pow2(6) == 64;
    assert Pow2(9) == 512;
  }

  lemma {:induction false} Pow2Grows(m: nat, n: nat)
    requires m <= n
    ensures Pow2(m) <= Pow2(n)
  {
    if m < n { Pow2Grows(m, n - 1); }
  }

  // ---------- what is counted ----------

  /** Failures the events add: one per attempt on the credential that is not locked, less one per release. */
  function Net(a: Account, events: seq<Event>): int {
    if events == [] then 0
    else
      var n := |events| - 1;
      var before := Run(a, events[..n]);
      Net(a, events[..n]) +
        (if before.secret != Some(events[n].secret) then 0
         else match events[n]
              case Reserve(now, _) =>
                if before.lockedUntil.Some? && now < before.lockedUntil.value then 0 else 1
              case Release(_, _) => -1)
  }

  /** As long as nothing is released that was not counted, the count is attempts less releases. */
  lemma {:induction false} CountIsAttemptsLessReleases(a: Account, events: seq<Event>)
    requires forall k :: 0 <= k <= |events| ==> a.failures + Net(a, events[..k]) >= 0
    ensures Run(a, events).failures == a.failures + Net(a, events) && Run(a, events).secret == a.secret
  {
    hide LockMinutes;
    if events != [] {
      var n := |events| - 1;
      forall k | 0 <= k <= n ensures a.failures + Net(a, events[..n][..k]) >= 0 { assert events[..n][..k] == events[..k]; }
      CountIsAttemptsLessReleases(a, events[..n]);
      assert events[..|events|] == events;
    }
  }

  /** Releasing an attempt takes it back from the count and nothing else: the lock it caused stays. */
  lemma ReleaseTakesOneBack(a: Account, secret: string, now: nat, later: nat)
    requires a.secret == Some(secret) && !IsLocked(a, now)
    ensures var b := Step(a, Reserve(now, secret));
      var c := Step(b, Release(later, secret));
      b.failures == a.failures + 1 && c.failures == a.failures && c.lockedUntil == b.lockedUntil && c.secret == a.secret
  {
    hide LockMinutes;
  }

  // ---------- the stored counter ----------

  class UserRow {
    var account: Account

    constructor (secret: Option<string>)
      ensures account == Account(secret, 0, None)
    {
      account := Account(secret, 0, None);
    }

    method ReserveSecondFactorAttempt(now: nat, expected: string) returns (r: Reservation)
      modifies this
      ensures account == Step(old(account), Reserve(now, expected))
      ensures r.Counted? ==> r.failures == account.failures == old(account).failures + 1
      ensures r.Locked? <==> old(account).secret == Some(expected) && IsLocked(old(account), now)
      ensures r.Locked? ==> r.seconds == old(account).lockedUntil.value - now > 0 && r.failures == account.failures
      ensures r.CredentialChanged? <==> old(account).secret != Some(expected)
    {
      if account.secret == Some(expected) && !IsLocked(account, now) {
        var failures := account.failures + 1;
        var until := None;
        if failures >= FREE { until := Some(now + MINUTE * LockMinutes(failures)); }
        account := account.(failures := failures, lockedUntil := until);
        return Counted(failures);
      }
      if account.secret != Some(expected) { return CredentialChanged; }
      var seconds := 1;
      if account.lockedUntil.Some? && account.lockedUntil.value - now > seconds { seconds := account.lockedUntil.value - now; }
      return Locked(account.failures, seconds);
    }

    method ReleaseSecondFactorAttempt(now: nat, expected: string) returns (changed: bool)
      modifies this
      ensures account == Step(old(account), Release(now, expected))
      ensures !changed && old(account).failures > 0 ==> account.failures == old(account).failures - 1
      ensures account.lockedUntil == old(account).lockedUntil && account.secret == old(account).secret
      ensures changed <==> old(account).secret != Some(expected)
    {
      if account.secret != Some(expected) { return true; }
      if account.failures > 0 { account := account.(failures := account.failures - 1); }
      return false;
    }

    /** A successful second factor clears the count and the lock of the credential that was checked. */
    method ResetSecondFactorFailures(expected: string) returns (changed: bool)
      modifies this
      ensures changed <==> old(account).secret != Some(expected)
      ensures account == if changed then old(account) else Account(Some(expected), 0, None)
    {
      if account.secret != Some(expected) { return true; }
      account := account.(failures := 0, lockedUntil := None);
      return false;
    }
  }
}
