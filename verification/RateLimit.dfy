/**
 The token bucket of one user (src/upgradepilot/queue/rate_limit.py), with calls one after another.

 Tokens, seconds and the refill rate are reals; the clock does not run backwards between calls.
 The concurrent use of the same bucket is in SharedRateLimit.
 */
module RateLimit {
  import opened Outcomes

  // A missing key reads as a full bucket.
  datatype Bucket = Absent | Bucket(tokens: real, last: real)

  datatype Limits = Limits(max: nat, rate: real)

  const DEFAULTS: Limits := Limits(10, 10.0 / 60.0)
  const MAX_RETRIES: nat := 3

  function Least(a: real, b: real): real {
    if a <= b then a else b
  }

  /** What refills between two clock readings; nothing when the clock has not advanced. */
  function Refill(l: Limits, since: real, now: real): real {
    if now <= since then 0.0 else (now - since) * l.rate
  }

  /** The tokens available at `now`. */
  function Level(l: Limits, b: Bucket, now: real): real {
    match b
    case Absent => l.max as real
    case Bucket(tokens, last) => Least(l.max as real, tokens + Refill(l, last, now))
  }

  predicate Allows(l: Limits, b: Bucket, now: real) {
    Level(l, b, now) >= 1.0
  }

  /** What a call leaves in the bucket: the refilled level, less one token when it is allowed. */
  function Consumed(l: Limits, b: Bucket, now: real): Bucket {
    Bucket(if Allows(l, b, now) then Level(l, b, now) - 1.0 else Level(l, b, now), now)
  }

  /** No call before the bucket's last refill. */
  predicate NotBefore(b: Bucket, now: real) {
    b.Bucket? ==> b.last <= now
  }

  // ---- Refill -------------------------------------------------------------------------------------

  lemma RefillAdds(l: Limits, a: real, b: real, c: real)
    requires l.rate >= 0.0 && a <= b <= c
    ensures Refill(l, a, c) == Refill(l, a, b) + Refill(l, b, c)
    ensures Refill(l, a, b) >= 0.0 && Refill(l, b, c) >= 0.0
  {
    Distributes(b - a, c - b, l.rate);
    assert (b - a) + (c - b) == c - a;
  }

  lemma Distributes(x: real, y: real, rate: real)
    ensures (x + y) * rate == x * rate + y * rate
    ensures x >= 0.0 && rate >= 0.0 ==> x * rate >= 0.0
    ensures y >= 0.0 && rate >= 0.0 ==> y * rate >= 0.0
  {
  }

  /** Refilling to `now` and then to `later` is refilling to `later`. */
  lemma RefillComposes(l: Limits, b: Bucket, now: real, later: real)
    requires l.rate >= 0.0 && NotBefore(b, now) && now <= later
    ensures Level(l, b, later) == Least(l.max as real, Level(l, b, now) + Refill(l, now, later))
  {
    RefillAdds(l, now, now, later);
    if b.Bucket? {
      RefillAdds(l, b.last, now, later);
    }
  }

  /** A denied call changes nothing any later call can see. */
  lemma DenialIsTransparent(l: Limits, b: Bucket, now: real, later: real)
    requires l.rate >= 0.0 && NotBefore(b, now) && now <= later
    ensures !Allows(l, b, now) ==> Level(l, Consumed(l, b, now), later) == Level(l, b, later)
    ensures Allows(l, b, now) ==>
              Level(l, Consumed(l, b, now), later) == Least(l.max as real, Level(l, b, now) - 1.0 + Refill(l, now, later))
  {
    RefillComposes(l, b, now, later);
  }

  // ---- Runs of calls ------------------------------------------------------------------------------

  /** A run: a bucket and the times of the calls made on it since. */
  datatype Run = Start(bucket: Bucket) | Call(past: Run, now: real)

  function End(l: Limits, run: Run): Bucket {
    match run
    case Start(b) => b
    case Call(past, now) => Consumed(l, End(l, past), now)
  }

  /** The last call of the run is allowed. */
  predicate LastAllowed(l: Limits, run: Run)
    requires run.Call?
  {
    Allows(l, End(l, run.past), run.now)
  }

  /** The clock never runs backwards, and the run starts from a bucket that is not overdrawn. */
  predicate Proper(l: Limits, run: Run) {
    match run
    case Start(b) => b.Bucket? ==> b.tokens >= 0.0
    case Call(past, now) => Proper(l, past) && NotBefore(End(l, past), now)
  }

  /** How many of the calls made between `from` and `to`, both included, are allowed. */
  function AllowedIn(l: Limits, run: Run, from: real, to: real): nat {
    match run
    case Start(_) => 0
    case Call(past, now) =>
      AllowedIn(l, past, from, to) + (if from <= now <= to && LastAllowed(l, run) then 1 else 0)
  }

  /** The decisions of the run, oldest first. */
  function Decisions(l: Limits, run: Run): seq<bool> {
    match run
    case Start(_) => []
    case Call(past, now) => Decisions(l, past) + [LastAllowed(l, run)]
  }

  lemma {:induction false} NeverOverdrawn(l: Limits, run: Run)
    requires l.rate >= 0.0 && Proper(l, run)
    ensures End(l, run).Bucket? ==> 0.0 <= End(l, run).tokens
    ensures run.Call? ==> End(l, run).last == run.now
  {
    match run
    case Start(_) =>
    case Call(past, now) =>
      NeverOverdrawn(l, past);
      if End(l, past).Bucket? {
        RefillAdds(l, End(l, past).last, now, now);
      }
  }

  /** The tokens a window of the clock can give out: the burst and the refill. */
  function Allowance(l: Limits, from: real, to: real): real {
    l.max as real + Refill(l, from, to)
  }

  /**
   Window bound. Over any interval, at most the burst plus what refills in it is allowed: for every run
   of calls and every window of the clock.
   */
  lemma {:induction false} WindowBound(l: Limits, run: Run, from: real, to: real)
    requires l.rate >= 0.0 && Proper(l, run) && from <= to
    ensures AllowedIn(l, run, from, to) as real <= Allowance(l, from, to)
  {
    match run
    case Start(_) => RefillAdds(l, from, to, to);
    case Call(past, now) =>
      if LastWithin(run, from, to) {
        Spending(l, run, from, to);
        NeverOverdrawn(l, run);
        WithinWindow(l, from, now, to, AllowedIn(l, run, from, to) as real, End(l, run).tokens);
      } else {
        WindowBound(l, past, from, to);
      }
  }

  predicate LastWithin(run: Run, from: real, to: real) {
    run.Call? && from <= run.now <= to
  }

  /** Inside the window, allowed calls plus the tokens left never exceed burst plus refill so far. */
  lemma {:induction false} Spending(l: Limits, run: Run, from: real, to: real)
    requires l.rate >= 0.0 && Proper(l, run) && LastWithin(run, from, to)
    ensures AllowedIn(l, run, from, to) as real + End(l, run).tokens <= Allowance(l, from, run.now)
  {
    match run
    case Call(past, now) =>
      var b := End(l, past);
      NeverOverdrawn(l, past);
      if LastWithin(past, from, to) {
        Spending(l, past, from, to);
        SpendingStep(l, b, AllowedIn(l, past, from, to) as real, from, now);
      } else {
        NoneBefore(l, past, from, to);
        SpendingFirst(l, b, from, now);
      }
  }

  function Taken(l: Limits, b: Bucket, now: real): real {
    if Allows(l, b, now) then 1.0 else 0.0
  }

  lemma SpendingFirst(l: Limits, b: Bucket, from: real, now: real)
    requires l.rate >= 0.0 && from <= now
    ensures Taken(l, b, now) + Consumed(l, b, now).tokens <= Allowance(l, from, now)
  {
    RefillAdds(l, from, now, now);
  }

  lemma {:induction false} NoneBefore(l: Limits, run: Run, from: real, to: real)
    requires l.rate >= 0.0 && Proper(l, run) && (run.Call? ==> run.now < from)
    ensures AllowedIn(l, run, from, to) == 0
  {
    if run.Call? {
      NeverOverdrawn(l, run.past);
      NoneBefore(l, run.past, from, to);
    }
  }

  lemma WithinWindow(l: Limits, from: real, now: real, to: real, spent: real, tokens: real)
    requires l.rate >= 0.0 && from <= now <= to && tokens >= 0.0
    requires spent + tokens <= Allowance(l, from, now)
    ensures spent <= Allowance(l, from, to)
  {
    RefillAdds(l, from, now, to);
  }

  lemma SpendingStep(l: Limits, b: Bucket, spent: real, from: real, now: real)
    requires l.rate >= 0.0 && b.Bucket? && from <= b.last <= now
    requires spent + b.tokens <= Allowance(l, from, b.last)
    ensures spent + Taken(l, b, now) + Consumed(l, b, now).tokens <= Allowance(l, from, now)
  {
    RefillAdds(l, from, b.last, now);
  }

  // ---- A reference limiter that only records allowed calls ----------------------------------------

  function Reference(l: Limits, run: Run): Bucket {
    match run
    case Start(b) => b
    case Call(past, now) =>
      var b := Reference(l, past);
      if Allows(l, b, now) then Consumed(l, b, now) else b
  }

  function ReferenceDecisions(l: Limits, run: Run): seq<bool> {
    match run
    case Start(_) => []
    case Call(past, now) => ReferenceDecisions(l, past) + [Allows(l, Reference(l, past), now)]
  }

  /** At every later moment the stored bucket and the reference show the same level. */
  lemma {:induction false} SameLevels(l: Limits, run: Run, later: real)
    requires l.rate >= 0.0 && Proper(l, run) && NotBefore(End(l, run), later)
    ensures NotBefore(Reference(l, run), later)
    ensures Level(l, End(l, run), later) == Level(l, Reference(l, run), later)
  {
    match run
    case Start(_) =>
    case Call(past, now) =>
      SameLevels(l, past, now);
      SameLevels(l, past, later);
      DenialIsTransparent(l, End(l, past), now, later);
      DenialIsTransparent(l, Reference(l, past), now, later);
  }

  /** Writing the bucket on denials as well decides every run exactly as the reference does. */
  lemma {:induction false} DenialsLeaveNoTrace(l: Limits, run: Run)
    requires l.rate >= 0.0 && Proper(l, run)
    ensures Decisions(l, run) == ReferenceDecisions(l, run)
  {
    match run
    case Start(_) =>
    case Call(past, now) =>
      DenialsLeaveNoTrace(l, past);
      SameLevels(l, past, now);
  }

  // ---- Expiry of the key --------------------------------------------------------------------------

  /** What a call finds when the key vanishes `ttl` seconds after its last write. */
  function Unexpired(b: Bucket, ttl: real, now: real): Bucket {
    if b.Bucket? && now >= b.last + ttl then Absent else b
  }

  function ExpiringEnd(l: Limits, ttl: real, run: Run): Bucket {
    match run
    case Start(b) => b
    case Call(past, now) => Consumed(l, Unexpired(ExpiringEnd(l, ttl, past), ttl, now), now)
  }

  function ExpiringDecisions(l: Limits, ttl: real, run: Run): seq<bool> {
    match run
    case Start(_) => []
    case Call(past, now) =>
      ExpiringDecisions(l, ttl, past) + [Allows(l, Unexpired(ExpiringEnd(l, ttl, past), ttl, now), now)]
  }

  /** No run can tell whether keys expire. */
  ghost predicate ExpiryUnobservable(l: Limits, ttl: real) {
    forall run :: Proper(l, run) ==> ExpiringDecisions(l, ttl, run) == Decisions(l, run)
  }

  /** Expiry is unobservable exactly when an empty bucket refills completely within the time to live. */
  lemma ExpiryUnobservableIff(l: Limits, ttl: real)
    requires l.rate >= 0.0 && ttl > 0.0
    ensures ExpiryUnobservable(l, ttl) <==> ttl * l.rate >= l.max as real
  {
    if ttl * l.rate >= l.max as real {
      forall run | Proper(l, run)
        ensures ExpiringDecisions(l, ttl, run) == Decisions(l, run)
      {
        ExpiryHidden(l, ttl, run);
      }
    } else {
      ExpiryShows(l, ttl);
    }
  }

  /** The default limits: ten calls at once, and one more every six seconds. */
  lemma DefaultsAllow(b: Bucket, from: real, n: nat)
    ensures Level(DEFAULTS, Absent, from) == 10.0
    ensures Refill(DEFAULTS, from, from + (6 * n) as real) == n as real
    ensures b == Bucket(0.0, from) && n <= 10 ==> Level(DEFAULTS, b, from + (6 * n) as real) == n as real
  {
  }

  /** So a user is let through at most twenty times in any minute. */
  lemma TwentyAMinute(run: Run, from: real)
    requires Proper(DEFAULTS, run)
    ensures AllowedIn(DEFAULTS, run, from, from + 60.0) <= 20
  {
    WindowBound(DEFAULTS, run, from, from + 60.0);
    DefaultsAllow(Absent, from, 10);
  }

  /** The default limits hide expiry: 3600 seconds refill 600 tokens and the bucket holds 10. */
  lemma DefaultsHideExpiry(run: Run)
    requires Proper(DEFAULTS, run)
    ensures ExpiringDecisions(DEFAULTS, 3600.0, run) == Decisions(DEFAULTS, run)
  {
    ExpiryUnobservableIff(DEFAULTS, 3600.0);
  }

  lemma {:induction false} ExpiryHidden(l: Limits, ttl: real, run: Run)
    requires l.rate >= 0.0 && ttl > 0.0 && ttl * l.rate >= l.max as real && Proper(l, run)
    ensures ExpiringEnd(l, ttl, run) == End(l, run)
    ensures ExpiringDecisions(l, ttl, run) == Decisions(l, run)
  {
    match run
    case Start(_) =>
    case Call(past, now) =>
      ExpiryHidden(l, ttl, past);
      NeverOverdrawn(l, past);
      var b := End(l, past);
      if b.Bucket? && now >= b.last + ttl {
        FullAfter(l, b, ttl, now);
      }
  }

  lemma FullAfter(l: Limits, b: Bucket, ttl: real, now: real)
    requires l.rate >= 0.0 && ttl > 0.0 && ttl * l.rate >= l.max as real
    requires b.Bucket? && b.tokens >= 0.0 && now >= b.last + ttl
    ensures Level(l, b, now) == l.max as real
  {
    RefillAdds(l, b.last, b.last + ttl, now);
    assert Refill(l, b.last, b.last + ttl) == ttl * l.rate;
  }

  /** `n` calls at the same moment. */
  function Burst(past: Run, now: real, n: nat): Run {
    if n == 0 then past else Call(Burst(past, now, n - 1), now)
  }

  /** A bucket of at least `n` tokens serves a burst of `n`. */
  lemma {:induction false} BurstIsServed(l: Limits, ttl: real, past: Run, now: real, n: nat)
    requires ttl > 0.0 && n <= l.max && (n == 0 || Unexpired(ExpiringEnd(l, ttl, past), ttl, now) == Absent)
    ensures n > 0 ==> ExpiringEnd(l, ttl, Burst(past, now, n)) == Bucket((l.max - n) as real, now)
    ensures ExpiringDecisions(l, ttl, Burst(past, now, n)) == ExpiringDecisions(l, ttl, past) + Yes(n)
  {
    if n > 0 {
      BurstIsServed(l, ttl, past, now, n - 1);
      assert Yes(n) == Yes(n - 1) + [true];
    }
  }

  function Yes(n: nat): seq<bool> {
    seq(n, _ => true)
  }

  /** A run of calls inside a window, all allowed, counts all its calls. */
  lemma {:induction false} AllYes(l: Limits, run: Run, from: real, to: real)
    requires CallsWithin(run, from, to) && forall i :: 0 <= i < |Decisions(l, run)| ==> Decisions(l, run)[i]
    ensures AllowedIn(l, run, from, to) == |Decisions(l, run)|
  {
    match run
    case Start(_) =>
    case Call(past, now) =>
      var all := Decisions(l, run);
      assert all[|all| - 1] == LastAllowed(l, run);
      assert forall i :: 0 <= i < |Decisions(l, past)| ==> Decisions(l, past)[i] == all[i];
      AllYes(l, past, from, to);
  }

  ghost predicate CallsWithin(run: Run, from: real, to: real) {
    run.Call? ==> from <= run.now <= to && CallsWithin(run.past, from, to)
  }

  lemma {:induction false} BurstTimes(l: Limits, past: Run, now: real, n: nat, from: real)
    requires Proper(l, past) && NotBefore(End(l, past), now) && from <= now && CallsWithin(past, from, now)
    ensures Proper(l, Burst(past, now, n)) && CallsWithin(Burst(past, now, n), from, now)
    ensures NotBefore(End(l, Burst(past, now, n)), now)
    ensures n > 0 ==> End(l, Burst(past, now, n)).last == now
  {
    if n > 0 {
      BurstTimes(l, past, now, n - 1, from);
    }
  }

  lemma {:induction false} WidenWindow(run: Run, from: real, to: real, later: real)
    requires CallsWithin(run, from, to) && to <= later
    ensures CallsWithin(run, from, later)
  {
    if run.Call? {
      WidenWindow(run.past, from, to, later);
    }
  }

  /** Otherwise two full bursts, one time to live apart, are both served only because the key expired. */
  lemma ExpiryShows(l: Limits, ttl: real)
    requires l.rate >= 0.0 && ttl > 0.0 && ttl * l.rate < l.max as real
    ensures !ExpiryUnobservable(l, ttl)
  {
    var n := l.max;
    var first := Burst(Start(Absent), 0.0, n);
    var run := Burst(first, ttl, n);
    BurstTimes(l, Start(Absent), 0.0, n, 0.0);
    WidenWindow(first, 0.0, 0.0, ttl);
    BurstTimes(l, first, ttl, n, 0.0);
    BurstIsServed(l, ttl, Start(Absent), 0.0, n);
    BurstIsServed(l, ttl, first, ttl, n);
    assert ExpiringDecisions(l, ttl, run) == Yes(n + n);
    TwoBurstsExceed(l, ttl, run);
  }

  lemma TwoBurstsExceed(l: Limits, ttl: real, run: Run)
    requires l.rate >= 0.0 && ttl > 0.0 && ttl * l.rate < l.max as real
    requires Proper(l, run) && CallsWithin(run, 0.0, ttl)
    ensures Decisions(l, run) != Yes(l.max + l.max)
  {
    WindowBound(l, run, 0.0, ttl);
    assert Refill(l, 0.0, ttl) == ttl * l.rate;
    if Decisions(l, run) == Yes(l.max + l.max) {
      AllYes(l, run, 0.0, ttl);
    }
  }

  // ---- The call itself, with other clients in between ----------------------------------------------

  class RateLimiter {
    const limits: Limits
    var bucket: Bucket

    constructor (limits: Limits)
      ensures this.limits == limits && bucket == Absent
    {
      this.limits := limits;
      bucket := Absent;
    }

    /** What the i-th attempt finds: the stored bucket, or what the client that beat attempt i-1 left. */
    function Found(stored: Bucket, others: seq<Option<Bucket>>, i: nat): Bucket
      requires i <= |others| && forall k :: 0 <= k < i ==> others[k].Some?
    {
      if i == 0 then stored else others[i - 1].value
    }

    /**
     One call. `clock[i]` is the time attempt i reads and `others[i]` what another client writes between
     that attempt's WATCH and its EXEC, if anything. The call is the atomic call on what its deciding
     attempt found; only an attempt that would allow can be beaten, and a third beaten attempt gives up.
     */
    method Consume(clock: seq<real>, others: seq<Option<Bucket>>) returns (allowed: bool, beaten: nat)
      requires |clock| == |others| == 3
      modifies this
      ensures beaten <= 3
      ensures forall k :: 0 <= k < beaten ==> others[k].Some?
      ensures forall k :: 0 <= k < beaten ==> Allows(limits, Found(old(bucket), others, k), clock[k])
      ensures beaten == 3 ==> !allowed && bucket == Found(old(bucket), others, beaten)
      ensures beaten < 3 ==>
                var found := Found(old(bucket), others, beaten);
                && allowed == Allows(limits, found, clock[beaten])
                && (allowed ==> others[beaten].None?)
                && bucket == Consumed(limits, found, clock[beaten])
    {
      beaten := 0;
      while beaten < MAX_RETRIES
        invariant beaten <= MAX_RETRIES
        invariant forall k :: 0 <= k < beaten ==> others[k].Some?
        invariant forall k :: 0 <= k < beaten ==> Allows(limits, Found(old(bucket), others, k), clock[k])
        invariant bucket == Found(old(bucket), others, beaten)
      {
        var now := clock[beaten];
        var tokens := if bucket.Bucket? then bucket.tokens else limits.max as real;
        var last := if bucket.Bucket? then bucket.last else now;
        tokens := Least(limits.max as real, tokens + Refill(limits, last, now));
        if tokens < 1.0 {
          // The watch is dropped first, so this write also overwrites what others wrote meanwhile.
          bucket := Bucket(tokens, now);
          return false, beaten;
        }
        if others[beaten].None? {
          bucket := Bucket(tokens - 1.0, now);
          return true, beaten;
        }
        bucket := others[beaten].value;
        beaten := beaten + 1;
      }
      allowed := false;
    }
  }
}
