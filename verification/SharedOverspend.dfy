/**
 How much the workers can overspend (src/upgradepilot/queue/rate_limit.py:45-77): a denied call that is not calm,
 because it read across a write or writes over a grant it has not seen, can put back at most one bucketful.
 */
module SharedOverspend {
  import opened RateLimit
  import S = SharedRateLimit

  // ---- The account ------------------------------------------------------------------------------------

  /** One bucketful to begin with, and one for every uncalm write. */
  function Capital(l: Limits, n: nat): real {
    l.max as real + (n * l.max) as real
  }

  lemma OneMore(l: Limits, n: nat)
    ensures l.max as real <= Capital(l, n) && Capital(l, n + 1) == Capital(l, n) + l.max as real
  {
    assert (n + 1) * l.max == n * l.max + l.max;
  }

  /** Up to time `t`, what was spent since `from` and what is left are paid for. */
  ghost predicate Paid(l: Limits, capital: real, from: real, t: real, spent: nat, left: real) {
    spent as real + left <= capital + Refill(l, from, t)
  }

  /** A worker that has read undisturbed would leave the account in order. */
  ghost predicate PaidReading(l: Limits, capital: real, from: real, to: real, s: S.System, pc: S.Pc) {
    var spent := S.GrantedIn(s.granted, from, to);
    match pc
    case Timed(_, version, _, now) =>
      version == s.version && now <= to ==> Paid(l, capital, from, now, spent, Level(l, s.bucket, now))
    case HalfRead(_, version, _, now, _) =>
      version == s.version && now <= to ==> Paid(l, capital, from, now, spent, Level(l, s.bucket, now))
    case Ready(_, version, grants, now, level, seen) =>
      && level <= l.max as real
      && (seen == version && grants == S.Grants(s.granted) && now <= to ==> Paid(l, capital, from, now, spent, level))
    case _ => true
  }

  /** What is in order while the clock is within the interval, and what stays in order after it. */
  ghost predicate PaidSoFar(l: Limits, capital: real, from: real, to: real, s: S.System) {
    var spent := S.GrantedIn(s.granted, from, to);
    && Paid(l, capital, from, to, spent, 0.0)
    && (s.clock <= to ==> Paid(l, capital, from, s.clock, spent, 0.0)
                          && Paid(l, capital, from, s.clock, spent, Level(l, s.bucket, s.clock)))
  }

  ghost predicate Account(l: Limits, capital: real, from: real, to: real, s: S.System) {
    PaidSoFar(l, capital, from, to, s) && forall w :: PaidReading(l, capital, from, to, s, s.Pc(w))
  }

  // ---- Arithmetic -------------------------------------------------------------------------------------

  /** Time only adds to the account. */
  lemma PaidLater(l: Limits, capital: real, from: real, t: real, later: real, spent: nat, left: real)
    requires l.rate >= 0.0 && from <= t <= later && Paid(l, capital, from, t, spent, left)
    ensures Paid(l, capital, from, later, spent, left + Refill(l, t, later)) && Paid(l, capital, from, later, spent, left)
  {
    RefillAdds(l, from, t, later);
  }

  lemma NothingSpent(l: Limits, capital: real, from: real, t: real, left: real)
    requires l.rate >= 0.0 && left <= l.max as real <= capital
    ensures Paid(l, capital, from, t, 0, left)
  {
    if from <= t {
      RefillAdds(l, from, from, t);
    }
  }

  lemma {:induction false} NoneYet(run: Run, clock: real, from: real, to: real)
    requires S.Ordered(run, clock) && clock < from
    ensures S.GrantedIn(run, from, to) == 0
  {
    if run.Call? {
      NoneYet(run.past, run.now, from, to);
    }
  }

  /** The clock moves on. */
  lemma PaidAsTimePasses(l: Limits, capital: real, from: real, to: real, s: S.System, now: real)
    requires l.rate >= 0.0 && from <= to && S.Locked(l, s) && PaidSoFar(l, capital, from, to, s) && l.max as real <= capital
    requires s.clock <= now <= to
    ensures var spent := S.GrantedIn(s.granted, from, to);
            Paid(l, capital, from, now, spent, 0.0) && Paid(l, capital, from, now, spent, Level(l, s.bucket, now))
  {
    var spent := S.GrantedIn(s.granted, from, to);
    if s.clock < from {
      NoneYet(s.granted, s.clock, from, to);
      NothingSpent(l, capital, from, now, Level(l, s.bucket, now));
      NothingSpent(l, capital, from, now, 0.0);
    } else {
      RefillComposes(l, s.bucket, s.clock, now);
      PaidLater(l, capital, from, s.clock, now, spent, Level(l, s.bucket, s.clock));
      PaidLater(l, capital, from, s.clock, now, spent, 0.0);
    }
  }

  // ---- Writes -----------------------------------------------------------------------------------------

  /** A write of `level` as of `now`, made when no grant later than `now` is counted. */
  lemma PaidWrite(l: Limits, capital: real, from: real, to: real, now: real, clock: real, spent: nat, level: real)
    requires l.rate >= 0.0 && from <= to && now <= clock && l.max as real <= capital
    requires now < from ==> spent == 0
    requires now <= to ==> Paid(l, capital, from, now, spent, level)
    requires clock <= to
    ensures Paid(l, capital, from, clock, spent, Level(l, Bucket(level, now), clock))
  {
    if now < from {
      NothingSpent(l, capital, from, clock, Level(l, Bucket(level, now), clock));
    } else {
      PaidLater(l, capital, from, now, clock, spent, level);
    }
  }

  lemma CalmDenial(l: Limits, capital: real, from: real, to: real, s: S.System, step: S.Step)
    requires l.rate >= 0.0 && from <= to && l.max as real <= capital
    requires S.Locked(l, s) && Account(l, capital, from, to, s) && S.DeniedWrite(s, step) && S.Calm(s, step)
    ensures PaidSoFar(l, capital, from, to, S.Next(l, s, step))
  {
    var pc := s.Pc(step.worker);
    assert S.WellTimed(s, pc) && PaidReading(l, capital, from, to, s, pc);
    var spent := S.GrantedIn(s.granted, from, to);
    if s.clock <= to {
      if pc.now < from {
        NoneYet(s.granted, pc.now, from, to);
      }
      PaidWrite(l, capital, from, to, pc.now, s.clock, spent, pc.level);
    }
  }

  /** Whatever an uncalm denial writes, the bucket then shows at most one bucketful. */
  lemma UncalmDenial(l: Limits, n: nat, from: real, to: real, s: S.System, step: S.Step)
    requires PaidSoFar(l, Capital(l, n), from, to, s) && S.DeniedWrite(s, step)
    ensures PaidSoFar(l, Capital(l, n + 1), from, to, S.Next(l, s, step))
  {
    OneMore(l, n);
  }

  /** A grant is paid for by the token it takes. */
  lemma Granted(l: Limits, capital: real, from: real, to: real, s: S.System, step: S.Step)
    requires l.rate >= 0.0 && from <= to && l.max as real <= capital
    requires S.Locked(l, s) && Account(l, capital, from, to, s) && S.Commits(s, step)
    ensures PaidSoFar(l, capital, from, to, S.Next(l, s, step))
  {
    var pc := s.Pc(step.worker);
    assert S.Undisturbed(l, s, pc) && S.WellTimed(s, pc) && PaidReading(l, capital, from, to, s, pc);
    var t := S.Next(l, s, step);
    var spent := S.GrantedIn(t.granted, from, to);
    if pc.now < from {
      NoneYet(s.granted, pc.now, from, to);
      NothingSpent(l, capital, from, to, 0.0);
      NothingSpent(l, capital, from, s.clock, 0.0);
    } else if pc.now <= to {
      PaidLater(l, capital, from, pc.now, to, spent, 0.0);
      PaidLater(l, capital, from, pc.now, s.clock, spent, 0.0);
    }
    if s.clock <= to {
      PaidWrite(l, capital, from, to, pc.now, s.clock, spent, pc.level - 1.0);
    }
  }

  // ---- Every step -------------------------------------------------------------------------------------

  lemma BystanderStaysPaid(
      l: Limits, capital: real, more: real, from: real, to: real, s: S.System, step: S.Step, pc: S.Pc)
    requires capital <= more && S.WellTimed(s, pc) && PaidReading(l, capital, from, to, s, pc)
    ensures PaidReading(l, more, from, to, S.Next(l, s, step), pc)
  {
  }

  lemma ActorStaysPaid(l: Limits, capital: real, more: real, from: real, to: real, s: S.System, step: S.Step)
    requires l.rate >= 0.0 && from <= to && l.max as real <= capital <= more
    requires S.Locked(l, s) && Account(l, capital, from, to, s) && S.Enabled(s, step)
    ensures PaidReading(l, more, from, to, S.Next(l, s, step), S.Next(l, s, step).Pc(step.worker))
  {
    var pc := s.Pc(step.worker);
    assert S.Undisturbed(l, s, pc) && PaidReading(l, capital, from, to, s, pc);
    if pc.Watched? && step.now <= to {
      PaidAsTimePasses(l, capital, from, to, s, step.now);
    }
  }

  lemma ReadingsStayPaid(l: Limits, capital: real, more: real, from: real, to: real, s: S.System, step: S.Step, t: S.System)
    requires l.rate >= 0.0 && from <= to && l.max as real <= capital <= more && t == S.Next(l, s, step)
    requires S.Locked(l, s) && Account(l, capital, from, to, s) && S.Enabled(s, step)
    ensures forall w :: PaidReading(l, more, from, to, t, t.Pc(w))
  {
    forall w
      ensures PaidReading(l, more, from, to, t, t.Pc(w))
    {
      if w == step.worker {
        ActorStaysPaid(l, capital, more, from, to, s, step);
      } else {
        assert t.Pc(w) == s.Pc(w);
        assert S.WellTimed(s, s.Pc(w)) && PaidReading(l, capital, from, to, s, s.Pc(w));
        BystanderStaysPaid(l, capital, more, from, to, s, step, s.Pc(w));
      }
    }
  }

  lemma QuietStep(l: Limits, capital: real, from: real, to: real, s: S.System, step: S.Step)
    requires l.rate >= 0.0 && from <= to && l.max as real <= capital
    requires S.Locked(l, s) && Account(l, capital, from, to, s) && S.Enabled(s, step)
    requires !S.Commits(s, step) && !S.DeniedWrite(s, step)
    ensures PaidSoFar(l, capital, from, to, S.Next(l, s, step))
  {
    if s.Pc(step.worker).Watched? && step.now <= to {
      PaidAsTimePasses(l, capital, from, to, s, step.now);
    }
  }

  lemma AccountStep(l: Limits, n: nat, m: nat, from: real, to: real, s: S.System, step: S.Step)
    requires l.rate >= 0.0 && from <= to && S.Locked(l, s) && Account(l, Capital(l, n), from, to, s) && S.Enabled(s, step)
    requires m == n + if S.Calm(s, step) then 0 else 1
    ensures Account(l, Capital(l, m), from, to, S.Next(l, s, step))
  {
    OneMore(l, n);
    ReadingsStayPaid(l, Capital(l, n), Capital(l, m), from, to, s, step, S.Next(l, s, step));
    if !S.Calm(s, step) {
      UncalmDenial(l, n, from, to, s, step);
    } else if S.DeniedWrite(s, step) {
      CalmDenial(l, Capital(l, n), from, to, s, step);
    } else if S.Commits(s, step) {
      Granted(l, Capital(l, n), from, to, s, step);
    } else {
      QuietStep(l, Capital(l, n), from, to, s, step);
    }
  }

  lemma FirstAccount(l: Limits, from: real, to: real)
    requires l.rate >= 0.0 && from <= to
    ensures Account(l, Capital(l, 0), from, to, S.INITIAL)
  {
    OneMore(l, 0);
    NothingSpent(l, Capital(l, 0), from, to, 0.0);
    NothingSpent(l, Capital(l, 0), from, 0.0, 0.0);
    NothingSpent(l, Capital(l, 0), from, 0.0, l.max as real);
  }

  lemma {:induction false} AccountAlways(l: Limits, trace: S.Trace, from: real, to: real)
    requires l.rate >= 0.0 && from <= to && S.Legal(l, trace)
    ensures Account(l, Capital(l, S.UncalmWrites(l, trace)), from, to, S.End(l, trace))
  {
    match trace
    case Begin => FirstAccount(l, from, to);
    case Go(past, step) =>
      AccountAlways(l, past, from, to);
      S.LockedAlways(l, past);
      AccountStep(l, S.UncalmWrites(l, past), S.UncalmWrites(l, trace), from, to, S.End(l, past), step);
  }

  /**
   The window bound for every interleaving: the workers together are granted at most what one bucket allows,
   and one more bucketful for every uncalm write of a denied call.
   */
  lemma OverspendBound(l: Limits, trace: S.Trace, from: real, to: real)
    requires l.rate >= 0.0 && S.Legal(l, trace) && from <= to
    ensures S.GrantedIn(S.End(l, trace).granted, from, to) as real
            <= Allowance(l, from, to) + (S.UncalmWrites(l, trace) * l.max) as real
  {
    AccountAlways(l, trace, from, to);
  }

  // ---- That it is exact -------------------------------------------------------------------------------

  /** `n` calls of worker `w` have been granted one after the other at `now`, and nobody else has moved. */
  ghost predicate Bursted(l: Limits, s: S.System, t: S.System, w: S.WorkerId, now: real, n: nat)
    requires n <= l.max
  {
    && (if n == 0 then t == s else t.bucket == Bucket((l.max - n) as real, now) && t.clock == now)
    && t.Pc(w) == S.Idle && (forall v :: v != w ==> t.Pc(v) == s.Pc(v))
    && S.Grants(t.granted) == S.Grants(s.granted) + n
    && forall from :: from <= now ==> S.GrantedIn(t.granted, from, now) == S.GrantedIn(s.granted, from, now) + n
  }

  ghost predicate Full(l: Limits, s: S.System, now: real) {
    NotBefore(s.bucket, now) && Level(l, s.bucket, now) == l.max as real && s.clock <= now
  }

  lemma {:induction false} Burst(l: Limits, before: S.Trace, w: S.WorkerId, now: real, n: nat) returns (trace: S.Trace)
    requires l.rate >= 0.0 && n <= l.max && S.Legal(l, before)
    requires S.End(l, before).Pc(w) == S.Idle && Full(l, S.End(l, before), now)
    ensures S.Legal(l, trace) && S.UncalmWrites(l, trace) == S.UncalmWrites(l, before)
    ensures Bursted(l, S.End(l, before), S.End(l, trace), w, now, n)
  {
    if n == 0 {
      trace := before;
    } else {
      var past := Burst(l, before, w, now, n - 1);
      trace := S.CallAlone(l, past, w, now);
    }
  }

  lemma FullAgain(l: Limits) returns (whole: real)
    requires l.max >= 1 && l.rate > 0.0
    ensures whole > 0.0 && Refill(l, 0.0, whole) == l.max as real
  {
    whole := l.max as real / l.rate;
    S.Part(l.rate, l.max as real);
  }

  /** Worker `w` read an empty bucket at time 0, was denied, and has not written. */
  ghost predicate Stalled(s: S.System, w: S.WorkerId) {
    var pc := s.Pc(w);
    pc.Ready? && pc.level == 0.0 && pc.now == 0.0 && pc.grants <= S.Grants(s.granted)
  }

  /** The bucket was emptied at time 0, and since then workers 1 to `n` have stalled. */
  ghost predicate AllStalled(l: Limits, s: S.System, n: nat) {
    && s.bucket == Bucket(0.0, 0.0) && s.clock == 0.0
    && (forall w :: w == 0 || w > n ==> s.Pc(w) == S.Idle) && (forall w :: 0 < w <= n ==> Stalled(s, w))
    && forall to :: to >= 0.0 ==> S.GrantedIn(s.granted, 0.0, to) == l.max
  }

  lemma {:induction false} Stall(l: Limits, n: nat) returns (trace: S.Trace)
    requires l.max >= 1 && l.rate > 0.0
    ensures S.Legal(l, trace) && S.UncalmWrites(l, trace) == 0 && AllStalled(l, S.End(l, trace), n)
  {
    if n == 0 {
      trace := S.Drain(l, l.max);
      S.CalmIsBothHalves(l, trace);
      S.CalmIffNone(l, trace);
    } else {
      var past := Stall(l, n - 1);
      trace := S.ReadAlone(l, past, n, 0.0);
      var s, t := S.End(l, past), S.End(l, trace);
      forall w | 0 < w <= n
        ensures Stalled(t, w)
      {
        if w < n {
          assert Stalled(s, w) && t.Pc(w) == s.Pc(w);
        }
      }
    }
  }

  /** At `whole`, workers 1 to `n` are still stalled, and were overtaken by grants; so many have been counted. */
  ghost predicate Overtaken(l: Limits, s: S.System, n: nat, whole: real, granted: nat) {
    && s.clock == whole && s.Pc(0) == S.Idle && S.GrantedIn(s.granted, 0.0, whole) == granted
    && forall w :: 0 < w <= n ==> Stalled(s, w) && s.Pc(w).grants < S.Grants(s.granted)
  }

  /** Worker `n` writes what it read; the bucket is full again, and is emptied once more. */
  lemma Release(l: Limits, before: S.Trace, n: nat, whole: real, granted: nat) returns (trace: S.Trace)
    requires l.max >= 1 && l.rate > 0.0 && whole > 0.0 && Refill(l, 0.0, whole) == l.max as real
    requires n > 0 && S.Legal(l, before) && Overtaken(l, S.End(l, before), n, whole, granted)
    ensures S.Legal(l, trace) && S.UncalmWrites(l, trace) == S.UncalmWrites(l, before) + 1
    ensures Overtaken(l, S.End(l, trace), n - 1, whole, granted + l.max)
  {
    var stale := S.Go(before, S.Step(n, whole));
    assert Stalled(S.End(l, before), n);
    assert forall w :: w != n ==> S.End(l, stale).Pc(w) == S.End(l, before).Pc(w);
    trace := Burst(l, stale, 0, whole, l.max);
    var s, t := S.End(l, before), S.End(l, trace);
    forall w | 0 < w <= n - 1
      ensures Stalled(t, w) && t.Pc(w).grants < S.Grants(t.granted)
    {
      assert Stalled(s, w) && t.Pc(w) == s.Pc(w);
    }
  }

  lemma {:induction false} ReleaseAll(l: Limits, before: S.Trace, n: nat, whole: real, granted: nat) returns (trace: S.Trace)
    requires l.max >= 1 && l.rate > 0.0 && whole > 0.0 && Refill(l, 0.0, whole) == l.max as real
    requires S.Legal(l, before) && Overtaken(l, S.End(l, before), n, whole, granted)
    ensures S.Legal(l, trace) && S.UncalmWrites(l, trace) == S.UncalmWrites(l, before) + n
    ensures Overtaken(l, S.End(l, trace), 0, whole, granted + n * l.max)
    decreases n
  {
    if n == 0 {
      trace := before;
    } else {
      var next := Release(l, before, n, whole, granted);
      trace := ReleaseAll(l, next, n - 1, whole, granted + l.max);
      assert n * l.max == (n - 1) * l.max + l.max;
    }
  }

  /** The bound is reached for any number of uncalm writes, and for all limits with a token and a refill. */
  lemma OverspendReached(l: Limits, n: nat) returns (trace: S.Trace, to: real)
    requires l.max >= 1 && l.rate > 0.0
    ensures S.Legal(l, trace) && S.UncalmWrites(l, trace) == n && to > 0.0
    ensures S.GrantedIn(S.End(l, trace).granted, 0.0, to) as real == Allowance(l, 0.0, to) + (n * l.max) as real
  {
    to := FullAgain(l);
    var stalled := Stall(l, n);
    var emptied := Burst(l, stalled, 0, to, l.max);
    var s, t := S.End(l, stalled), S.End(l, emptied);
    forall w | 0 < w <= n
      ensures Stalled(t, w) && t.Pc(w).grants < S.Grants(t.granted)
    {
      assert Stalled(s, w) && t.Pc(w) == s.Pc(w);
    }
    trace := ReleaseAll(l, emptied, n, to, 2 * l.max);
  }
}
