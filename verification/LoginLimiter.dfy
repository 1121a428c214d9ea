/**
 The in-memory login throttle. A key may fail `maxFails` times per window before it is locked;
 a plain limiter starts a fresh budget with each lock, a sticky one keeps counting until the
 window ends. Attempts are reserved before the check and refunded when they should not count.
 */
module LoginLimiter {
  import opened PeriodKeys

  datatype Config = Config(maxFails: int, failWindow: int, lockFor: int, sticky: bool)

  predicate Sane(c: Config) {
    c.maxFails >= 1 && c.failWindow >= 0 && c.lockFor > 0
  }

  /** `reset` marks an entry whose budget the last attempt has just cleared; `prior*` is what it cleared. */
  datatype Entry = Entry(fails: int, firstFail: int, lockedTill: Option<int>, reset: bool, priorFails: int, priorFirst: int)

  predicate LockedAt(e: Option<Entry>, now: int) {
    e.Some? && e.value.lockedTill.Some? && now < e.value.lockedTill.value
  }

  predicate Expired(c: Config, e: Entry, now: int) {
    now - e.firstFail > c.failWindow
  }

  function Recorded(c: Config, e: Option<Entry>, now: int): Entry {
    var st := if e.None? || Expired(c, e.value, now) then Entry(0, now, None, false, 0, 0) else e.value;
    var fails := st.fails + 1;
    if fails < c.maxFails then st.(reset := false, fails := fails)
    else if c.sticky then st.(reset := false, fails := fails, lockedTill := Some(now + c.lockFor))
    else Entry(0, now, Some(now + c.lockFor), true, fails - 1, st.firstFail)
  }

  /** A locked key is refused without counting. */
  function Consumed(c: Config, e: Option<Entry>, now: int): Option<Entry> {
    if LockedAt(e, now) then e else Some(Recorded(c, e, now))
  }

  function Refunded(c: Config, e: Option<Entry>): Option<Entry> {
    if e.None? then None
    else
      var st := e.value;
      var back := if st.reset then st.(fails := st.priorFails, firstFail := st.priorFirst, reset := false)
                  else if st.fails > 0 then st.(fails := st.fails - 1) else st;
      var open := if back.fails < c.maxFails then back.(lockedTill := None) else back;
      if open.fails == 0 then None else Some(open)
  }

  predicate Removable(c: Config, e: Entry, now: int) {
    (e.lockedTill.None? || now > e.lockedTill.value) && Expired(c, e, now)
  }

  // ---------- counting ----------

  /** Reservations on record, adding back those a threshold reset cleared. */
  function Count(e: Option<Entry>): int {
    if e.None? then 0 else if e.value.reset then e.value.priorFails + 1 else e.value.fails
  }

  datatype Event = Consume(now: int) | Refund

  /** Within the window and before a cooldown has run out. */
  predicate InTime(c: Config, e: Option<Entry>, now: int) {
    e.Some? ==> !Expired(c, e.value, now) && (e.value.lockedTill.Some? ==> now < e.value.lockedTill.value)
  }

  /** An entry as Consume and Refund leave it. */
  predicate Proper(c: Config, e: Option<Entry>) {
    e.Some? ==>
      && (e.value.reset ==>
            !c.sticky && e.value.fails == 0 && e.value.priorFails == c.maxFails - 1
            && e.value.lockedTill == Some(e.value.firstFail + c.lockFor))
      && (!e.value.reset ==> e.value.fails > 0)
      && (!e.value.reset && !c.sticky ==> e.value.fails < c.maxFails && e.value.lockedTill.None?)
      && (c.sticky ==> (e.value.lockedTill.Some? <==> e.value.fails >= c.maxFails))
  }

  function Tally(n: int, c: Config, e: Option<Entry>, ev: Event): int {
    match ev
    case Consume(now) => if LockedAt(e, now) then n else n + 1
    case Refund => n - 1
  }

  function StepEntry(c: Config, e: Option<Entry>, ev: Event): Option<Entry> {
    match ev
    case Consume(now) => Consumed(c, e, now)
    case Refund => Refunded(c, e)
  }

  lemma StepKeepsCount(c: Config, e: Option<Entry>, ev: Event)
    requires Sane(c) && Proper(c, e)
    requires ev.Consume? ==> InTime(c, e, ev.now)
    requires ev.Refund? ==> Count(e) > 0
    ensures Proper(c, StepEntry(c, e, ev)) && Count(StepEntry(c, e, ev)) == Tally(Count(e), c, e, ev)
  {
  }

  /** Every event in time, every refund for an attempt that was let in. */
  ghost predicate Orderly(c: Config, e: Option<Entry>, events: seq<Event>)
    decreases |events|
  {
    events == []
    || ((events[0].Consume? ==> InTime(c, e, events[0].now)) && (events[0].Refund? ==> Count(e) > 0)
        && Orderly(c, StepEntry(c, e, events[0]), events[1..]))
  }

  function RunEntry(c: Config, e: Option<Entry>, events: seq<Event>): Option<Entry>
    decreases |events|
  {
    if events == [] then e else RunEntry(c, StepEntry(c, e, events[0]), events[1..])
  }

  /** Attempts admitted less attempts refunded. */
  function Net(c: Config, e: Option<Entry>, events: seq<Event>): int
    decreases |events|
  {
    if events == [] then 0 else Tally(0, c, e, events[0]) + Net(c, StepEntry(c, e, events[0]), events[1..])
  }

  /** In any interleaving the recorded count is what was admitted and not refunded. */
  lemma {:induction false} CountIsAdmittedMinusRefunded(c: Config, e: Option<Entry>, events: seq<Event>)
    requires Sane(c) && Proper(c, e) && Orderly(c, e, events)
    ensures Proper(c, RunEntry(c, e, events)) && Count(RunEntry(c, e, events)) == Count(e) + Net(c, e, events)
    decreases |events|
  {
    hide StepEntry, Proper;
    if events != [] {
      StepKeepsCount(c, e, events[0]);
      CountIsAdmittedMinusRefunded(c, StepEntry(c, e, events[0]), events[1..]);
    }
  }

  // ---------- the sticky bound ----------

  function Admitted(c: Config, e: Option<Entry>, times: seq<int>): nat
    decreases |times|
  {
    if times == [] then 0
    else (if LockedAt(e, times[0]) then 0 else 1) + Admitted(c, Consumed(c, e, times[0]), times[1..])
  }

  predicate Ascending(times: seq<int>) {
    forall i, j :: 0 <= i < j < |times| ==> times[i] <= times[j]
  }

  /** `k` cooldowns, end to end. */
  function Cooldowns(k: int, lockFor: int): int {
    k * lockFor
  }

  /** Every attempt past the budget paid one full cooldown. */
  predicate Paced(c: Config, st: Entry, now: int) {
    && st.firstFail <= now && 0 < st.fails && (st.fails >= c.maxFails <==> st.lockedTill.Some?)
    && (st.lockedTill.Some? ==> st.lockedTill.value >= st.firstFail + Cooldowns(st.fails - c.maxFails + 1, c.lockFor))
    && (st.fails > c.maxFails ==> Cooldowns(st.fails - c.maxFails, c.lockFor) <= c.failWindow)
  }

  lemma {:induction false} StickyPace(c: Config, st: Entry, now: int, times: seq<int>)
    requires Sane(c) && c.sticky && Paced(c, st, now) && Ascending(times)
    requires forall i :: 0 <= i < |times| ==> now <= times[i] <= st.firstFail + c.failWindow
    ensures st.fails + Admitted(c, Some(st), times) <= c.maxFails + c.failWindow / c.lockFor
    decreases |times|
  {
    if times == [] {
      if st.fails > c.maxFails { QuotientBound(st.fails - c.maxFails, c.failWindow, c.lockFor); }
    } else {
      var t := times[0];
      var next := Consumed(c, Some(st), t).value;
      if !LockedAt(Some(st), t) {
        assert next.fails == st.fails + 1;
        PaceStep(c, st, t);
      }
      StickyPace(c, next, t, times[1..]);
    }
  }

  lemma PaceStep(c: Config, st: Entry, t: int)
    requires Sane(c) && c.sticky && Paced(c, st, t) && t <= st.firstFail + c.failWindow && !LockedAt(Some(st), t)
    ensures Paced(c, Consumed(c, Some(st), t).value, t)
  {
    hide Cooldowns;
    OneMoreCooldown(st.fails - c.maxFails + 1, c.lockFor);
  }

  lemma OneMoreCooldown(k: int, lockFor: int)
    ensures Cooldowns(k + 1, lockFor) == Cooldowns(k, lockFor) + lockFor && Cooldowns(0, lockFor) == 0
  {
  }

  lemma Scale(a: int, b: int, d: int)
    requires a <= b && d > 0
    ensures a * d <= b * d
  {
    assert (b - a) * d >= 0;
  }

  lemma QuotientBound(k: int, w: int, d: int)
    requires d > 0 && w >= 0 && k * d <= w
    ensures k <= w / d
  {
    var q := w / d;
    assert w == q * d + w % d;
    assert (q + 1) * d == q * d + d;
    if k > q { Scale(q + 1, k, d); }
  }

  /** Without refunds a sticky limiter lets at most maxFails + failWindow / lockFor attempts through per window. */
  lemma StickyBound(c: Config, first: int, times: seq<int>)
    requires Sane(c) && c.sticky && Ascending([first] + times)
    requires forall i :: 0 <= i < |times| ==> times[i] <= first + c.failWindow
    ensures Admitted(c, None, [first] + times) <= c.maxFails + c.failWindow / c.lockFor
  {
    var st := Consumed(c, None, first).value;
    assert ([first] + times)[1..] == times && ([first] + times)[0] == first;
    forall i | 0 <= i < |times| ensures first <= times[i] { assert ([first] + times)[i + 1] == times[i]; }
    assert Ascending(times) by {
      forall i, j | 0 <= i < j < |times| ensures times[i] <= times[j] {
        assert ([first] + times)[i + 1] == times[i] && ([first] + times)[j + 1] == times[j];
      }
    }
    StickyPace(c, st, first, times);
  }

  /** The configured username limiter: 20 per quarter of an hour with one-minute cooldowns gives 35. */
  lemma UsernameBudget(first: int, times: seq<int>)
    requires Ascending([first] + times) && forall i :: 0 <= i < |times| ==> times[i] <= first + 900
    ensures Admitted(Config(20, 900, 60, true), None, [first] + times) <= 35
  {
    StickyBound(Config(20, 900, 60, true), first, times);
  }

  // ---------- the budget ----------

  function AfterTakes(c: Config, e: Option<Entry>, times: seq<int>): Option<Entry> {
    if times == [] then e else Consumed(c, AfterTakes(c, e, times[..|times| - 1]), times[|times| - 1])
  }

  /**
   A fresh key may fail `maxFails` times in its window, plain or sticky: each attempt is let in, the
   key is open until the last of them, and then locked for exactly `lockFor`.
   */
  lemma {:induction false} BudgetIsExact(c: Config, times: seq<int>, now: int)
    requires Sane(c) && Ascending(times) && 0 < |times| <= c.maxFails
    requires forall i :: 0 <= i < |times| ==> times[i] <= times[0] + c.failWindow
    ensures var n := |times|;
      var before, after := AfterTakes(c, None, times[..n - 1]), AfterTakes(c, None, times);
      && !LockedAt(before, times[n - 1])
      && (LockedAt(after, now) <==> n == c.maxFails && now < times[n - 1] + c.lockFor)
      && after.Some? && (n < c.maxFails ==> after.value.fails == n && after.value.firstFail == times[0] && after.value.lockedTill.None?)
  {
    var n := |times| - 1;
    if n == 0 {
      assert times[..0] == [];
    } else {
      assert Ascending(times[..n]);
      BudgetIsExact(c, times[..n], times[n]);
    }
  }

  // ---------- cleanup ----------

  /** Neither locked nor within its window: the next attempt starts afresh. */
  predicate Over(c: Config, e: Option<Entry>, now: int) {
    e.None? || (!LockedAt(e, now) && Expired(c, e.value, now))
  }

  /** What a pending threshold reset cleared matters only while it is pending. */
  function Core(e: Option<Entry>): Option<Entry> {
    if e.Some? && !e.value.reset then Some(e.value.(priorFails := 0, priorFirst := 0)) else e
  }

  /** The same entry, or two entries that are both over at `now`. */
  predicate Alike(c: Config, a: Option<Entry>, b: Option<Entry>, now: int) {
    Core(a) == Core(b) || (Over(c, a, now) && Over(c, b, now))
  }

  datatype Call = Ask(now: int) | Take(now: int) | Fail(now: int) | GiveBack | Clear

  function Answer(e: Option<Entry>, call: Call): bool {
    match call
    case Ask(now) => !LockedAt(e, now)
    case Take(now) => !LockedAt(e, now)
    case _ => true
  }

  function AfterCall(c: Config, e: Option<Entry>, call: Call): Option<Entry> {
    match call
    case Ask(_) => e
    case Take(now) => Consumed(c, e, now)
    case Fail(now) => Some(Recorded(c, e, now))
    case GiveBack => Refunded(c, e)
    case Clear => None
  }

  predicate Later(call: Call, now: int) {
    (call.Ask? || call.Take? || call.Fail?) ==> call.now >= now
  }

  /** Entries as the limiter builds them: a reset remembers an older window. */
  predicate Ordered(e: Option<Entry>) {
    e.Some? && e.value.reset ==> e.value.priorFirst <= e.value.firstFail
  }

  lemma AlikeStep(c: Config, a: Option<Entry>, b: Option<Entry>, now: int, call: Call)
    requires Alike(c, a, b, now) && Ordered(a) && Ordered(b) && Later(call, now)
    ensures Answer(a, call) == Answer(b, call)
    ensures Alike(c, AfterCall(c, a, call), AfterCall(c, b, call), if call.GiveBack? || call.Clear? then now else call.now)
  {
  }

  lemma OrderedStep(c: Config, e: Option<Entry>, now: int, call: Call)
    requires Sane(c) && Ordered(e) && (e.Some? ==> e.value.firstFail <= now) && Later(call, now)
    ensures Ordered(AfterCall(c, e, call))
    ensures var t := if call.GiveBack? || call.Clear? then now else call.now;
      AfterCall(c, e, call).Some? ==> AfterCall(c, e, call).value.firstFail <= t
  {
  }

  function Answers(c: Config, e: Option<Entry>, calls: seq<Call>): seq<bool>
    decreases |calls|
  {
    if calls == [] then [] else [Answer(e, calls[0])] + Answers(c, AfterCall(c, e, calls[0]), calls[1..])
  }

  function ClockOf(call: Call, now: int): int {
    if call.GiveBack? || call.Clear? then now else call.now
  }

  ghost predicate Onward(calls: seq<Call>, now: int)
    decreases |calls|
  {
    calls == [] || (Later(calls[0], now) && Onward(calls[1..], ClockOf(calls[0], now)))
  }

  lemma {:induction false} AlikeAnswers(c: Config, a: Option<Entry>, b: Option<Entry>, now: int, calls: seq<Call>)
    requires Sane(c) && Alike(c, a, b, now) && Ordered(a) && Ordered(b) && Onward(calls, now)
    requires (a.Some? ==> a.value.firstFail <= now) && (b.Some? ==> b.value.firstFail <= now)
    ensures Answers(c, a, calls) == Answers(c, b, calls)
    decreases |calls|
  {
    hide Alike, AfterCall, Ordered, Answer;
    if calls != [] {
      AlikeStep(c, a, b, now, calls[0]);
      OrderedStep(c, a, now, calls[0]);
      OrderedStep(c, b, now, calls[0]);
      AlikeAnswers(c, AfterCall(c, a, calls[0]), AfterCall(c, b, calls[0]), ClockOf(calls[0], now), calls[1..]);
    }
  }

  /** Removing an entry that is over never changes any later answer. */
  lemma CleanupIsInvisible(c: Config, e: Entry, now: int, calls: seq<Call>)
    requires Sane(c) && Removable(c, e, now) && Ordered(Some(e)) && e.firstFail <= now && Onward(calls, now)
    ensures Answers(c, None, calls) == Answers(c, Some(e), calls)
  {
    AlikeAnswers(c, None, Some(e), now, calls);
  }

  // ---------- a refused login ----------

  /** On a plain limiter whose lock outlasts its window, reserving and refunding is as if nothing had happened. */
  lemma ConsumeThenRefundIsNeutral(c: Config, e: Option<Entry>, now: int)
    requires Sane(c) && !c.sticky && c.lockFor > c.failWindow && Proper(c, e) && !LockedAt(e, now)
    ensures Alike(c, Refunded(c, Consumed(c, e, now)), e, now)
    ensures e.Some? && !Expired(c, e.value, now) ==> Core(Refunded(c, Consumed(c, e, now))) == Core(e)
  {
  }

  /** On a sticky limiter it is not: past its budget the lock of a refunded attempt stays. */
  lemma StickyRefundKeepsTheLock(c: Config, e: Entry, now: int)
    requires Sane(c) && c.sticky && Proper(c, Some(e)) && !LockedAt(Some(e), now) && !Expired(c, e, now)
    ensures LockedAt(Refunded(c, Consumed(c, Some(e), now)), now) <==> e.fails >= c.maxFails
  {
  }

  // ---------- the limiter and the login ----------

  class Limiter {
    const config: Config
    var attempts: map<string, Entry>

    constructor (config: Config)
      ensures this.config == config && attempts == map[]
    {
      this.config, attempts := config, map[];
    }

    function Get(key: string): Option<Entry>
      reads this
    {
      if key in attempts then Some(attempts[key]) else None
    }

    /** Only `key` changed, to `e`. */
    twostate predicate Only(key: string, e: Option<Entry>)
      reads this
    {
      Get(key) == e && forall k :: k != key ==> Get(k) == old(Get(k))
    }

    method Consume(key: string, now: int) returns (ok: bool, wait: int)
      modifies this
      ensures ok <==> !LockedAt(old(Get(key)), now)
      ensures !ok ==> wait == old(Get(key)).value.lockedTill.value - now > 0
      ensures Only(key, Consumed(config, old(Get(key)), now))
    {
      if key in attempts && attempts[key].lockedTill.Some? && now < attempts[key].lockedTill.value {
        return false, attempts[key].lockedTill.value - now;
      }
      RecordLocked(key, now);
      return true, 0;
    }

    method RecordLocked(key: string, now: int)
      modifies this
      ensures Only(key, Some(Recorded(config, old(Get(key)), now)))
    {
      var st := Entry(0, now, None, false, 0, 0);
      if key in attempts && now - attempts[key].firstFail <= config.failWindow { st := attempts[key]; }
      st := st.(reset := false, fails := st.fails + 1);
      if st.fails >= config.maxFails {
        st := st.(lockedTill := Some(now + config.lockFor));
        if !config.sticky {
          st := st.(reset := true, priorFails := st.fails - 1, priorFirst := st.firstFail, fails := 0, firstFail := now);
        }
      }
      attempts := attempts[key := st];
    }

    method Refund(key: string)
      modifies this
      ensures Only(key, Refunded(config, old(Get(key))))
    {
      if key !in attempts { return; }
      var st := attempts[key];
      if st.reset {
        st := st.(fails := st.priorFails, firstFail := st.priorFirst, reset := false);
      } else if st.fails > 0 {
        st := st.(fails := st.fails - 1);
      }
      if st.fails < config.maxFails { st := st.(lockedTill := None); }
      if st.fails == 0 {
        attempts := attempts - {key};
      } else {
        attempts := attempts[key := st];
      }
    }

    method Cleanup(now: int)
      modifies this
      ensures forall k :: Get(k) == if old(Get(k)).Some? && Removable(config, old(Get(k)).value, now) then None else old(Get(k))
    {
      var left := attempts.Keys;
      while left != {}
        invariant left <= old(attempts).Keys && attempts.Keys <= old(attempts).Keys
        invariant forall k :: k in left ==> k in attempts
        invariant forall k :: k in attempts ==> attempts[k] == old(attempts)[k]
        invariant forall k :: k in old(attempts) && k !in left ==>
          (k in attempts <==> !Removable(config, old(attempts)[k], now))
        decreases |left|
      {
        var k :| k in left;
        left := left - {k};
        var st := attempts[k];
        if (st.lockedTill.None? || now > st.lockedTill.value) && now - st.firstFail > config.failWindow {
          attempts := attempts - {k};
        }
      }
    }

    method Reset(key: string)
      modifies this
      ensures Only(key, None)
    {
      attempts := attempts - {key};
    }
  }

  /** The three throttles of a login; the sticky one comes last, so a refusal never refunds it. */
  method ThrottleLogin(ipLimiter: Limiter, limiter: Limiter, userLimiter: Limiter, ip: string, key: string, user: string, now: int)
    returns (ok: bool)
    requires ipLimiter != limiter && limiter != userLimiter && ipLimiter != userLimiter
    requires Sane(ipLimiter.config) && !ipLimiter.config.sticky && ipLimiter.config.lockFor > ipLimiter.config.failWindow
    requires Sane(limiter.config) && !limiter.config.sticky && limiter.config.lockFor > limiter.config.failWindow
    requires Proper(ipLimiter.config, ipLimiter.Get(ip)) && Proper(limiter.config, limiter.Get(key))
    modifies ipLimiter, limiter, userLimiter
    ensures ok <==> !LockedAt(old(ipLimiter.Get(ip)), now) && !LockedAt(old(limiter.Get(key)), now)
                    && !LockedAt(old(userLimiter.Get(user)), now)
    ensures ok ==> ipLimiter.Get(ip) == Consumed(ipLimiter.config, old(ipLimiter.Get(ip)), now)
    ensures ok ==> limiter.Get(key) == Consumed(limiter.config, old(limiter.Get(key)), now)
    ensures ok ==> userLimiter.Get(user) == Consumed(userLimiter.config, old(userLimiter.Get(user)), now)
    ensures !ok ==> userLimiter.Get(user) == old(userLimiter.Get(user))
    ensures !ok ==> Alike(ipLimiter.config, ipLimiter.Get(ip), old(ipLimiter.Get(ip)), now)
    ensures !ok ==> Alike(limiter.config, limiter.Get(key), old(limiter.Get(key)), now)
    ensures forall k :: k != ip ==> ipLimiter.Get(k) == old(ipLimiter.Get(k))
    ensures forall k :: k != key ==> limiter.Get(k) == old(limiter.Get(k))
    ensures forall k :: k != user ==> userLimiter.Get(k) == old(userLimiter.Get(k))
  {
    hide Consumed, Refunded, Alike, Proper;
    Untouched(ipLimiter.config, ipLimiter.Get(ip), now);
    Untouched(limiter.config, limiter.Get(key), now);
    Untouched(userLimiter.config, userLimiter.Get(user), now);
    var wait;
    ok, wait := ipLimiter.Consume(ip, now);
    if !ok { return; }
    ok, wait := limiter.Consume(key, now);
    if !ok {
      ipLimiter.Refund(ip);
      ConsumeThenRefundIsNeutral(ipLimiter.config, old(ipLimiter.Get(ip)), now);
      return;
    }
    ok, wait := userLimiter.Consume(user, now);
    if !ok {
      limiter.Refund(key);
      ConsumeThenRefundIsNeutral(limiter.config, old(limiter.Get(key)), now);
      ipLimiter.Refund(ip);
      ConsumeThenRefundIsNeutral(ipLimiter.config, old(ipLimiter.Get(ip)), now);
    }
  }

  lemma Untouched(c: Config, e: Option<Entry>, now: int)
    ensures Alike(c, e, e, now) && (LockedAt(e, now) ==> Consumed(c, e, now) == e)
  {
  }
}
