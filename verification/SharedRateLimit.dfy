/**
 One bucket shared by any number of workers (src/upgradepilot/queue/rate_limit.py:45-77), one step per
 Redis command: WATCH, the clock reading, the two HGETs, and then either the EXEC of an allowed call
 or the write of a denied one, which is made after UNWATCH and so is not protected.

 `granted` and the fields `seen` and `grants` of `Ready` are history variables; no step reads them.
 */
module SharedRateLimit {
  import opened Outcomes
  import opened RateLimit

  type WorkerId = nat

  datatype Pc =
    | Idle
    | Retrying(tries: nat)
    | Watched(tries: nat, version: nat, grants: nat)
    | Timed(tries: nat, version: nat, grants: nat, now: real)
    | HalfRead(tries: nat, version: nat, grants: nat, now: real, tokens: Option<real>)
    | Ready(tries: nat, version: nat, grants: nat, now: real, level: real, seen: nat)

  // Every write of the key raises its version; `granted` is the run of the calls allowed so far.
  datatype System = System(bucket: Bucket, version: nat, clock: real, workers: map<WorkerId, Pc>, granted: Run) {
    function Pc(w: WorkerId): Pc {
      if w in workers then workers[w] else Idle
    }

    function Goto(w: WorkerId, pc: Pc): System {
      this.(workers := workers[w := pc])
    }

    function Write(b: Bucket): System {
      this.(bucket := b, version := version + 1)
    }
  }

  const INITIAL: System := System(Absent, 0, 0.0, map[], Start(Absent))

  function Grants(run: Run): nat {
    match run
    case Start(_) => 0
    case Call(past, _) => Grants(past) + 1
  }

  function FieldTokens(b: Bucket): Option<real> {
    if b.Bucket? then Some(b.tokens) else None
  }

  function FieldLast(b: Bucket): Option<real> {
    if b.Bucket? then Some(b.last) else None
  }

  /** The level computed from the two fields as read, each with its own default. */
  function ReadLevel(l: Limits, tokens: Option<real>, last: Option<real>, now: real): real {
    var had := if tokens.Some? then tokens.value else l.max as real;
    var since := if last.Some? then last.value else now;
    Least(l.max as real, had + Refill(l, since, now))
  }

  // A worker's next command; `now` is the time it reads when the command is the clock reading.
  datatype Step = Step(worker: WorkerId, now: real)

  ghost predicate Enabled(s: System, step: Step) {
    s.Pc(step.worker).Watched? ==> s.clock <= step.now
  }

  function Next(l: Limits, s: System, step: Step): System {
    var w := step.worker;
    match s.Pc(w)
    case Idle => s.Goto(w, Watched(MAX_RETRIES, s.version, Grants(s.granted)))
    case Retrying(tries) => s.Goto(w, Watched(tries, s.version, Grants(s.granted)))
    case Watched(tries, version, grants) =>
      s.(clock := step.now).Goto(w, Timed(tries, version, grants, step.now))
    case Timed(tries, version, grants, now) =>
      s.Goto(w, HalfRead(tries, version, grants, now, FieldTokens(s.bucket)))
    case HalfRead(tries, version, grants, now, tokens) =>
      var level := ReadLevel(l, tokens, FieldLast(s.bucket), now);
      s.Goto(w, Ready(tries, version, grants, now, level, s.version))
    case Ready(tries, version, grants, now, level, _) =>
      if level < 1.0 then
        s.Write(Bucket(level, now)).Goto(w, Idle)
      else if version == s.version then
        s.Write(Bucket(level - 1.0, now)).Goto(w, Idle).(granted := Call(s.granted, now))
      else
        s.Goto(w, if tries <= 1 then Idle else Retrying(tries - 1))
  }

  /** The step is an EXEC that goes through. */
  predicate Commits(s: System, step: Step) {
    var pc := s.Pc(step.worker);
    pc.Ready? && pc.level >= 1.0 && pc.version == s.version
  }

  /** The step is the unprotected write of a denied call. */
  predicate DeniedWrite(s: System, step: Step) {
    s.Pc(step.worker).Ready? && s.Pc(step.worker).level < 1.0
  }

  /** Nothing was written while the denied call read, and nothing has been granted since it began. */
  predicate Calm(s: System, step: Step) {
    var pc := s.Pc(step.worker);
    DeniedWrite(s, step) ==> pc.seen == pc.version && pc.grants == Grants(s.granted)
  }

  datatype Trace = Begin | Go(past: Trace, step: Step)

  ghost function End(l: Limits, trace: Trace): System {
    match trace
    case Begin => INITIAL
    case Go(past, step) => Next(l, End(l, past), step)
  }

  ghost predicate Legal(l: Limits, trace: Trace) {
    trace.Go? ==> Legal(l, trace.past) && Enabled(End(l, trace.past), trace.step)
  }

  ghost predicate AlwaysCalm(l: Limits, trace: Trace) {
    trace.Go? ==> AlwaysCalm(l, trace.past) && Calm(End(l, trace.past), trace.step)
  }

  /** No denied call writes after a grant made since it began: half of what being calm asks. */
  ghost predicate NoUnseenGrant(l: Limits, trace: Trace) {
    trace.Go? ==>
      && NoUnseenGrant(l, trace.past)
      && (DeniedWrite(End(l, trace.past), trace.step) ==>
            End(l, trace.past).Pc(trace.step.worker).grants == Grants(End(l, trace.past).granted))
  }

  /** No denied call has read across a write: the other half. */
  ghost predicate NoTornRead(l: Limits, trace: Trace) {
    trace.Go? ==>
      && NoTornRead(l, trace.past)
      && var pc := End(l, trace.past).Pc(trace.step.worker);
      (DeniedWrite(End(l, trace.past), trace.step) ==> pc.seen == pc.version)
  }

  /** The two halves together are the calm that the window bound needs. */
  lemma {:induction false} CalmIsBothHalves(l: Limits, trace: Trace)
    ensures AlwaysCalm(l, trace) <==> NoUnseenGrant(l, trace) && NoTornRead(l, trace)
  {
    if trace.Go? {
      CalmIsBothHalves(l, trace.past);
    }
  }

  /** The writes of denied calls that are not calm. */
  ghost function UncalmWrites(l: Limits, trace: Trace): nat {
    match trace
    case Begin => 0
    case Go(past, step) => UncalmWrites(l, past) + if Calm(End(l, past), step) then 0 else 1
  }

  /** A run without them is the calm run of the window bound. */
  lemma {:induction false} CalmIffNone(l: Limits, trace: Trace)
    ensures AlwaysCalm(l, trace) <==> UncalmWrites(l, trace) == 0
  {
    if trace.Go? {
      CalmIffNone(l, trace.past);
    }
  }

  // ---- Three tries --------------------------------------------------------------------------------

  /** The worker's EXEC is about to be refused: it would be allowed, but the key has been written. */
  predicate Loses(s: System, w: WorkerId) {
    s.Pc(w).Ready? && s.Pc(w).level >= 1.0 && s.Pc(w).version != s.version
  }

  /** How often the call the worker is in has been refused. */
  ghost function Losses(l: Limits, trace: Trace, w: WorkerId): nat {
    match trace
    case Begin => 0
    case Go(past, step) =>
      var s := End(l, past);
      if step.worker != w then Losses(l, past, w)
      else if s.Pc(w).Idle? then 0
      else Losses(l, past, w) + if Loses(s, w) then 1 else 0
  }

  lemma {:induction false} TriesLeft(l: Limits, trace: Trace, w: WorkerId)
    ensures var pc := End(l, trace).Pc(w); !pc.Idle? ==> pc.tries >= 1 && pc.tries + Losses(l, trace, w) == 3
  {
    if trace.Go? {
      TriesLeft(l, trace.past, w);
    }
  }

  /** A refused call is tried again until it has been refused three times, and then given up. */
  lemma ThreeTries(l: Limits, trace: Trace, step: Step)
    requires Loses(End(l, trace), step.worker)
    ensures Losses(l, Go(trace, step), step.worker) <= 3
    ensures Next(l, End(l, trace), step).Pc(step.worker).Idle? <==> Losses(l, Go(trace, step), step.worker) == 3
    ensures var s, t := End(l, trace), Next(l, End(l, trace), step);
            t.bucket == s.bucket && t.version == s.version && t.granted == s.granted
  {
    TriesLeft(l, trace, step.worker);
  }

  // ---- Optimistic locking -------------------------------------------------------------------------

  /** The times of the granted calls never decrease and none is in the future. */
  ghost predicate Ordered(run: Run, clock: real) {
    run.Call? ==> run.now <= clock && Ordered(run.past, run.now)
  }

  /** What a worker knows as long as the key has not been written since its WATCH. */
  ghost predicate Undisturbed(l: Limits, s: System, pc: Pc) {
    match pc
    case Idle | Retrying(_) => true
    case Watched(_, version, grants) => version == s.version ==> grants == Grants(s.granted)
    case Timed(_, version, grants, now) =>
      version == s.version ==> grants == Grants(s.granted) && NotBefore(s.bucket, now)
    case HalfRead(_, version, grants, now, tokens) =>
      version == s.version ==>
        grants == Grants(s.granted) && NotBefore(s.bucket, now) && tokens == FieldTokens(s.bucket)
    case Ready(_, version, grants, now, level, seen) =>
      version == s.version ==>
        && grants == Grants(s.granted) && NotBefore(s.bucket, now)
        && seen == version && level == Level(l, s.bucket, now)
  }

  /** The worker's clock reading is not in the future, and not before any grant made before its WATCH. */
  ghost predicate WellTimed(s: System, pc: Pc) {
    match pc
    case Idle | Retrying(_) => true
    case Watched(_, version, grants) => version <= s.version && grants <= Grants(s.granted)
    case _ =>
      && pc.version <= s.version && pc.grants <= Grants(s.granted) && pc.now <= s.clock
      && (pc.grants == Grants(s.granted) ==> Ordered(s.granted, pc.now))
      && (pc.Ready? ==> pc.version <= pc.seen <= s.version)
  }

  ghost predicate Locked(l: Limits, s: System) {
    && NotBefore(s.bucket, s.clock) && Ordered(s.granted, s.clock)
    && forall w :: Undisturbed(l, s, s.Pc(w)) && WellTimed(s, s.Pc(w))
  }

  lemma {:induction false} OrderedLater(run: Run, a: real, b: real)
    requires Ordered(run, a) && a <= b
    ensures Ordered(run, b)
  {
  }

  lemma BystanderStaysLocked(l: Limits, s: System, step: Step, w: WorkerId)
    requires Locked(l, s) && Enabled(s, step) && w != step.worker
    ensures Undisturbed(l, Next(l, s, step), s.Pc(w)) && WellTimed(Next(l, s, step), s.Pc(w))
  {
    assert Undisturbed(l, s, s.Pc(w)) && WellTimed(s, s.Pc(w));
    assert WellTimed(s, s.Pc(step.worker));
  }

  lemma ActorStaysLocked(l: Limits, s: System, step: Step)
    requires Locked(l, s) && Enabled(s, step)
    ensures var t := Next(l, s, step);
            && Undisturbed(l, t, t.Pc(step.worker)) && WellTimed(t, t.Pc(step.worker))
            && NotBefore(t.bucket, t.clock) && Ordered(t.granted, t.clock)
  {
    var pc := s.Pc(step.worker);
    assert Undisturbed(l, s, pc) && WellTimed(s, pc);
    if pc.Watched? {
      OrderedLater(s.granted, s.clock, step.now);
    }
  }

  lemma LockedStep(l: Limits, s: System, step: Step)
    requires Locked(l, s) && Enabled(s, step)
    ensures Locked(l, Next(l, s, step))
  {
    var t := Next(l, s, step);
    ActorStaysLocked(l, s, step);
    forall w
      ensures Undisturbed(l, t, t.Pc(w)) && WellTimed(t, t.Pc(w))
    {
      if w != step.worker {
        BystanderStaysLocked(l, s, step, w);
        assert t.Pc(w) == s.Pc(w);
      }
    }
  }

  lemma {:induction false} LockedAlways(l: Limits, trace: Trace)
    requires Legal(l, trace)
    ensures Locked(l, End(l, trace))
  {
    match trace
    case Begin =>
    case Go(past, step) =>
      LockedAlways(l, past);
      LockedStep(l, End(l, past), step);
  }

  /**
   Optimistic locking linearises: in any interleaving, an EXEC that goes through does exactly what one
   atomic call on the stored bucket would do, and the granted times never decrease.
   */
  lemma CommitIsAtomic(l: Limits, trace: Trace, step: Step)
    requires Legal(l, Go(trace, step)) && Commits(End(l, trace), step)
    ensures var s := End(l, trace);
            var now := s.Pc(step.worker).now;
            && Allows(l, s.bucket, now) && NotBefore(s.bucket, now)
            && Next(l, s, step).bucket == Consumed(l, s.bucket, now)
            && Next(l, s, step).granted == Call(s.granted, now)
            && (s.granted.Call? ==> s.granted.now <= now)
  {
    LockedAlways(l, trace);
    var s := End(l, trace);
    assert Undisturbed(l, s, s.Pc(step.worker)) && WellTimed(s, s.Pc(step.worker));
  }

  // ---- The window bound across workers ------------------------------------------------------------

  /** The stored bucket never shows more than the atomic limiter that made the same grants. */
  ghost predicate Covered(l: Limits, b: Bucket, granted: Run) {
    var atomic := RateLimit.End(l, granted);
    match b
    case Absent => atomic.Absent?
    case Bucket(tokens, last) => NotBefore(atomic, last) && tokens <= Level(l, atomic, last)
  }

  /** A denied call that read undisturbed will write no more than the atomic limiter would show. */
  ghost predicate CoveredReading(l: Limits, s: System, pc: Pc) {
    pc.Ready? && pc.seen == pc.version && pc.grants == Grants(s.granted) ==>
      var atomic := RateLimit.End(l, s.granted);
      NotBefore(atomic, pc.now) && pc.level <= Level(l, atomic, pc.now)
  }

  /** Every grant of the run is one the atomic limiter allows. */
  ghost predicate AllAllowed(l: Limits, run: Run) {
    run.Call? ==> AllAllowed(l, run.past) && LastAllowed(l, run)
  }

  ghost predicate Bounded(l: Limits, s: System) {
    && Covered(l, s.bucket, s.granted)
    && Proper(l, s.granted) && AllAllowed(l, s.granted)
    && forall w :: CoveredReading(l, s, s.Pc(w))
  }

  lemma CoveredLevels(l: Limits, b: Bucket, granted: Run, now: real)
    requires l.rate >= 0.0 && Covered(l, b, granted) && NotBefore(b, now)
    ensures NotBefore(RateLimit.End(l, granted), now)
    ensures Level(l, b, now) <= Level(l, RateLimit.End(l, granted), now)
  {
    if b.Bucket? {
      RefillComposes(l, RateLimit.End(l, granted), b.last, now);
    }
  }

  lemma BoundedStep(l: Limits, s: System, step: Step)
    requires l.rate >= 0.0 && Locked(l, s) && Bounded(l, s) && Enabled(s, step) && Calm(s, step)
    ensures Bounded(l, Next(l, s, step))
  {
    var t := Next(l, s, step);
    var pc := s.Pc(step.worker);
    assert Undisturbed(l, s, pc) && WellTimed(s, pc) && CoveredReading(l, s, pc);
    if Commits(s, step) {
      CoveredLevels(l, s.bucket, s.granted, pc.now);
    }
    forall w
      ensures CoveredReading(l, t, t.Pc(w))
    {
      assert CoveredReading(l, s, s.Pc(w)) && WellTimed(s, s.Pc(w));
      if w == step.worker && t.Pc(w).Ready? && t.Pc(w).seen == t.Pc(w).version {
        CoveredLevels(l, s.bucket, s.granted, pc.now);
      }
    }
  }

  lemma {:induction false} BoundedAlways(l: Limits, trace: Trace)
    requires l.rate >= 0.0 && Legal(l, trace) && AlwaysCalm(l, trace)
    ensures Bounded(l, End(l, trace))
  {
    match trace
    case Begin =>
    case Go(past, step) =>
      BoundedAlways(l, past);
      LockedAlways(l, past);
      BoundedStep(l, End(l, past), step);
  }

  /** How many calls were granted between `from` and `to`. */
  function GrantedIn(run: Run, from: real, to: real): nat {
    match run
    case Start(_) => 0
    case Call(past, now) => GrantedIn(past, from, to) + (if from <= now <= to then 1 else 0)
  }

  lemma {:induction false} GrantsAreAllowed(l: Limits, run: Run, from: real, to: real)
    requires AllAllowed(l, run)
    ensures GrantedIn(run, from, to) == AllowedIn(l, run, from, to)
  {
    match run
    case Start(_) =>
    case Call(past, _) => GrantsAreAllowed(l, past, from, to);
  }

  /**
   The grants of all workers together are a run of the atomic limiter, so the window bound holds across
   workers, in every interleaving where, whenever a denied call writes, nobody wrote between its WATCH and
   its last read and nobody has been granted since its WATCH. Neither half can be dropped
   (TornReadOverspends, StaleDenialOverspends).
   */
  lemma SharedWindowBound(l: Limits, trace: Trace, from: real, to: real)
    requires l.rate >= 0.0 && Legal(l, trace) && AlwaysCalm(l, trace) && from <= to
    ensures AllAllowed(l, End(l, trace).granted) && Proper(l, End(l, trace).granted)
    ensures GrantedIn(End(l, trace).granted, from, to) as real <= Allowance(l, from, to)
  {
    BoundedAlways(l, trace);
    GrantsAreAllowed(l, End(l, trace).granted, from, to);
    WindowBound(l, End(l, trace).granted, from, to);
  }

  // ---- Calls nobody interrupts --------------------------------------------------------------------

  /** What a call made at `now` has read after its first `n` steps, with nobody in between. */
  ghost function Reading(l: Limits, s: System, now: real, n: nat): Pc {
    var v, g := s.version, Grants(s.granted);
    if n == 1 then Watched(MAX_RETRIES, v, g)
    else if n == 2 then Timed(MAX_RETRIES, v, g, now)
    else if n == 3 then HalfRead(MAX_RETRIES, v, g, now, FieldTokens(s.bucket))
    else Ready(MAX_RETRIES, v, g, now, Level(l, s.bucket, now), s.version)
  }

  ghost predicate SameCalm(l: Limits, t: Trace, trace: Trace) {
    && (NoTornRead(l, t) <==> NoTornRead(l, trace)) && (NoUnseenGrant(l, t) <==> NoUnseenGrant(l, trace))
    && UncalmWrites(l, t) == UncalmWrites(l, trace)
  }

  /** One reading step. */
  lemma ReadStep(l: Limits, trace: Trace, w: WorkerId, now: real) returns (t: Trace)
    requires Legal(l, trace) && !End(l, trace).Pc(w).Ready? && End(l, trace).clock <= now
    ensures Legal(l, t) && SameCalm(l, t, trace) && End(l, t) == Next(l, End(l, trace), Step(w, now))
  {
    t := Go(trace, Step(w, now));
  }

  lemma WatchAndTime(l: Limits, trace: Trace, w: WorkerId, now: real) returns (t: Trace)
    requires Legal(l, trace) && End(l, trace).Pc(w) == Idle && End(l, trace).clock <= now
    ensures Legal(l, t) && SameCalm(l, t, trace)
    ensures End(l, t).Pc(w) == Reading(l, End(l, trace), now, 2) && SameBut(End(l, t), End(l, trace), w, now)
  {
    t := ReadStep(l, trace, w, now);
    t := ReadStep(l, t, w, now);
  }

  /** Only worker `w` has moved, and the clock. */
  ghost predicate SameBut(t: System, s: System, w: WorkerId, now: real) {
    && t.bucket == s.bucket && t.version == s.version && t.granted == s.granted && t.clock == now
    && forall v :: v != w ==> t.Pc(v) == s.Pc(v)
  }

  /** The four reading steps of a call made at `now`. */
  lemma ReadAlone(l: Limits, trace: Trace, w: WorkerId, now: real) returns (t: Trace)
    requires Legal(l, trace) && End(l, trace).Pc(w) == Idle && End(l, trace).clock <= now
    ensures Legal(l, t) && SameCalm(l, t, trace)
    ensures End(l, t).Pc(w) == Reading(l, End(l, trace), now, 4) && SameBut(End(l, t), End(l, trace), w, now)
  {
    var s := End(l, trace);
    t := WatchAndTime(l, trace, w, now);
    t := ReadStep(l, t, w, now);
    t := ReadStep(l, t, w, now);
    assert ReadLevel(l, FieldTokens(s.bucket), FieldLast(s.bucket), now) == Level(l, s.bucket, now);
  }

  /** Worker `w` has made one atomic call at `now`, and nobody else has moved. */
  ghost predicate Called(l: Limits, s: System, t: System, w: WorkerId, now: real) {
    && t.bucket == Consumed(l, s.bucket, now)
    && t.granted == (if Allows(l, s.bucket, now) then Call(s.granted, now) else s.granted)
    && t.clock == now && t.Pc(w) == Idle
    && forall v :: v != w ==> t.Pc(v) == s.Pc(v)
  }

  /** A call nobody interrupts is the atomic call of RateLimit. */
  lemma CallAlone(l: Limits, trace: Trace, w: WorkerId, now: real) returns (t: Trace)
    requires Legal(l, trace) && End(l, trace).Pc(w) == Idle && End(l, trace).clock <= now
    ensures Legal(l, t) && SameCalm(l, t, trace) && Called(l, End(l, trace), End(l, t), w, now)
  {
    var read := ReadAlone(l, trace, w, now);
    t := Go(read, Step(w, now));
  }

  // ---- Which limits can be overspent ----------------------------------------------------------------

  ghost predicate Overspends(l: Limits, trace: Trace, from: real, to: real) {
    Legal(l, trace) && from <= to && GrantedIn(End(l, trace).granted, from, to) as real > Allowance(l, from, to)
  }

  /** Some interleaving of workers grants more in some interval than the window bound allows. */
  ghost predicate CanOverspend(l: Limits) {
    exists trace, from, to :: Overspends(l, trace, from, to)
  }

  /**
   Workers do double-spend: whatever the limits, some interleaving breaks the window bound, unless the
   bucket holds nothing or never refills.
   */
  lemma OverspendIff(l: Limits)
    requires l.rate >= 0.0
    ensures CanOverspend(l) <==> l.max >= 1 && l.rate > 0.0
  {
    if l.max >= 1 && l.rate > 0.0 {
      var trace := StaleDenialOverspends(l);
      assert Overspends(l, trace, 0.0, 1.0 / l.rate);
    } else if CanOverspend(l) {
      var trace, from, to :| Overspends(l, trace, from, to);
      FrugalAlways(l, trace);
      NoMoreThanAll(End(l, trace).granted, from, to);
      RefillAdds(l, from, from, to);
    }
  }

  /** The shipped limits are among them. */
  lemma DefaultsCanOverspend()
    ensures CanOverspend(DEFAULTS)
  {
    OverspendIff(DEFAULTS);
  }

  lemma PartsOfASecond(l: Limits)
    requires l.rate > 0.0
    ensures 0.0 < 0.1 / l.rate < 0.5 / l.rate < 0.9 / l.rate < 1.0 / l.rate
    ensures Refill(l, 0.0, 0.5 / l.rate) == 0.5 && Refill(l, 0.0, 1.0 / l.rate) == 1.0
    ensures Refill(l, 0.5 / l.rate, 1.0 / l.rate) == 0.5
    ensures Refill(l, 0.0, 0.9 / l.rate) == 0.9 && Refill(l, 0.1 / l.rate, 0.9 / l.rate) == 0.8
  {
    Part(l.rate, 0.1);
    Part(l.rate, 0.5);
    Part(l.rate, 0.9);
    Part(l.rate, 1.0);
    Smaller(l.rate, 0.1, 0.5);
    Smaller(l.rate, 0.5, 0.9);
    Smaller(l.rate, 0.9, 1.0);
    RefillAdds(l, 0.0, 0.5 / l.rate, 1.0 / l.rate);
    RefillAdds(l, 0.0, 0.1 / l.rate, 0.9 / l.rate);
  }

  lemma Part(rate: real, part: real)
    requires rate > 0.0 && part > 0.0
    ensures part / rate > 0.0 && (part / rate) * rate == part
  {
  }

  lemma Smaller(rate: real, a: real, b: real)
    requires rate > 0.0 && a < b
    ensures a / rate < b / rate
  {
    assert b / rate - a / rate == (b - a) / rate;
    Part(rate, b - a);
  }

  /** `n` calls have been granted at time 0, and nobody is under way. */
  ghost predicate Drained(l: Limits, s: System, n: nat)
    requires n <= l.max
  {
    && s.bucket == (if n == 0 then Absent else Bucket((l.max - n) as real, 0.0))
    && s.clock == 0.0 && (forall w :: s.Pc(w) == Idle) && Grants(s.granted) == n
    && forall to :: to >= 0.0 ==> GrantedIn(s.granted, 0.0, to) == n
  }

  lemma {:induction false} Drain(l: Limits, n: nat) returns (trace: Trace)
    requires n <= l.max && l.rate >= 0.0
    ensures Legal(l, trace) && NoTornRead(l, trace) && NoUnseenGrant(l, trace) && Drained(l, End(l, trace), n)
  {
    if n == 0 {
      trace := Begin;
    } else {
      var past := Drain(l, n - 1);
      trace := CallAlone(l, past, 0, 0.0);
    }
  }

  /**
   The stale denial. From an empty bucket a call is denied when half a token is there, but writes only after
   the next token has been granted; its write puts the half back, and one call too many is granted.
   */
  lemma StaleDenialOverspends(l: Limits) returns (trace: Trace)
    requires l.max >= 1 && l.rate > 0.0
    ensures NoTornRead(l, trace) && Overspends(l, trace, 0.0, 1.0 / l.rate)
    ensures GrantedIn(End(l, trace).granted, 0.0, 1.0 / l.rate) == l.max + 2
  {
    PartsOfASecond(l);
    trace := StaleDenialAt(l, 0.5 / l.rate, 1.0 / l.rate);
  }

  lemma StaleDenialAt(l: Limits, half: real, whole: real) returns (trace: Trace)
    requires l.max >= 1 && l.rate >= 0.0 && 0.0 < half < whole
    requires Refill(l, 0.0, half) == 0.5 && Refill(l, 0.0, whole) == 1.0 && Refill(l, half, whole) == 0.5
    ensures Legal(l, trace) && NoTornRead(l, trace) && GrantedIn(End(l, trace).granted, 0.0, whole) == l.max + 2
  {
    var drained := Drain(l, l.max);
    var granted := DeniedThenGranted(l, drained, half, whole);
    var stale := StaleWrite(l, granted, half, whole);
    trace := CallAlone(l, stale, 2, whole);
    CountTwoMore(End(l, drained).granted, 0.0, whole);
  }

  /** The bucket has been written as of an earlier time; worker 2 is free, and nothing was granted. */
  ghost predicate Restored(s: System, granted: Run, b: Bucket, clock: real) {
    s.bucket == b && s.granted == granted && s.clock == clock && s.Pc(2) == Idle
  }

  lemma StaleWrite(l: Limits, granted: Trace, half: real, whole: real) returns (stale: Trace)
    requires Legal(l, granted) && NoTornRead(l, granted) && DeniedAt(End(l, granted), half, whole)
    ensures Legal(l, stale) && NoTornRead(l, stale)
    ensures Restored(End(l, stale), End(l, granted).granted, Bucket(0.5, half), whole)
  {
    stale := Go(granted, Step(1, whole));
  }

  /** Worker 1 was denied at `half`, with half a token, and has not written at `whole`. */
  ghost predicate DeniedAt(s: System, half: real, whole: real) {
    var pc := s.Pc(1);
    && pc.Ready? && pc.level == 0.5 && pc.now == half && pc.seen == pc.version
    && s.clock == whole && s.Pc(2) == Idle
  }

  /** A call denied at `half` has not written yet when another is granted at `whole`. */
  lemma DeniedThenGranted(l: Limits, drained: Trace, half: real, whole: real) returns (later: Trace)
    requires l.max >= 1 && Legal(l, drained) && NoTornRead(l, drained) && Drained(l, End(l, drained), l.max)
    requires 0.0 < half < whole && Refill(l, 0.0, half) == 0.5 && Refill(l, 0.0, whole) == 1.0
    ensures Legal(l, later) && NoTornRead(l, later) && DeniedAt(End(l, later), half, whole)
    ensures End(l, later).granted == Call(End(l, drained).granted, whole)
  {
    var read := ReadAlone(l, drained, 1, half);
    assert End(l, read).Pc(1).level == 0.5;
    later := CallAlone(l, read, 2, whole);
  }

  lemma CountTwoMore(run: Run, from: real, to: real)
    requires from <= to
    ensures GrantedIn(Call(Call(run, to), to), from, to) == GrantedIn(run, from, to) + 2
  {
  }

  /**
   The torn read. No denied call ever writes over a grant it has not seen, and still one call too many is
   granted: a denied call takes the time early and reads tokens that another denied call wrote later, so
   its own write dates those tokens back and they refill a second time.
   */
  lemma TornReadOverspends(l: Limits) returns (trace: Trace)
    requires l.max >= 1 && l.rate > 0.0
    ensures NoUnseenGrant(l, trace) && Overspends(l, trace, 0.0, 0.9 / l.rate)
  {
    PartsOfASecond(l);
    var early, late := 0.1 / l.rate, 0.9 / l.rate;
    var drained := Drain(l, l.max);
    var denied := DeniedWhileReading(l, drained, early, late);
    var torn := TornWrite(l, denied, early, late);
    trace := CallAlone(l, torn, 2, late);
    assert End(l, trace).granted == Call(End(l, drained).granted, late);
  }

  /** Worker 1 has read the time, and nothing has been granted since its WATCH. */
  ghost predicate StillReading(s: System, early: real) {
    s.Pc(1).Timed? && s.Pc(1).now == early && s.Pc(1).grants == Grants(s.granted)
  }

  /** A call has read the time at `early` when another is denied at `late` and writes what it saw. */
  lemma DeniedWhileReading(l: Limits, drained: Trace, early: real, late: real) returns (denied: Trace)
    requires l.max >= 1 && Legal(l, drained) && NoUnseenGrant(l, drained) && Drained(l, End(l, drained), l.max)
    requires 0.0 < early < late && Refill(l, 0.0, late) == 0.9
    ensures Legal(l, denied) && NoUnseenGrant(l, denied) && StillReading(End(l, denied), early)
    ensures Restored(End(l, denied), End(l, drained).granted, Bucket(0.9, late), late)
  {
    var timed := WatchAndTime(l, drained, 1, early);
    denied := CallAlone(l, timed, 2, late);
  }

  lemma TornWrite(l: Limits, trace: Trace, early: real, late: real) returns (torn: Trace)
    requires l.max >= 1 && early < late && Legal(l, trace) && NoUnseenGrant(l, trace) && StillReading(End(l, trace), early)
    requires Restored(End(l, trace), End(l, trace).granted, Bucket(0.9, late), late)
    ensures Legal(l, torn) && NoUnseenGrant(l, torn)
    ensures Restored(End(l, torn), End(l, trace).granted, Bucket(0.9, early), late)
  {
    var half := ReadStep(l, trace, 1, late);
    var read := ReadStep(l, half, 1, late);
    assert End(l, read).Pc(1).level == 0.9 && End(l, read).bucket == Bucket(0.9, late);
    torn := Go(read, Step(1, late));
  }

  // ---- Limits that cannot be overspent ----------------------------------------------------------------

  /** The tokens as read, with the default of a missing field. */
  function Had(l: Limits, tokens: Option<real>): real {
    if tokens.Some? then tokens.value else l.max as real
  }

  /** A reading is at least what is left, and below one token only when nothing is left. */
  ghost predicate Plausible(l: Limits, grants: nat, tokens: real) {
    && (l.max - grants) as real <= tokens <= l.max as real
    && (tokens < 1.0 ==> tokens == 0.0 && grants == l.max)
  }

  ghost predicate Frugal(l: Limits, s: System) {
    var g := Grants(s.granted);
    && g <= l.max && Had(l, FieldTokens(s.bucket)) == (l.max - g) as real
    && (forall w :: s.Pc(w).HalfRead? ==> Plausible(l, g, Had(l, s.Pc(w).tokens)))
    && (forall w :: s.Pc(w).Ready? ==> Plausible(l, g, s.Pc(w).level))
  }

  /** With nothing to hold or nothing to refill, a reading stays what was read. */
  lemma NothingRefills(l: Limits, had: real, since: real, now: real)
    requires l.rate >= 0.0 && (l.max == 0 || l.rate == 0.0) && 0.0 <= had <= l.max as real
    ensures Least(l.max as real, had + Refill(l, since, now)) == had
  {
    if since <= now {
      RefillAdds(l, since, since, now);
    }
    assert l.rate == 0.0 ==> Refill(l, since, now) == 0.0;
  }

  lemma FrugalActor(l: Limits, s: System, step: Step)
    requires l.rate >= 0.0 && (l.max == 0 || l.rate == 0.0) && Locked(l, s) && Frugal(l, s) && Enabled(s, step)
    ensures var t, pc := Next(l, s, step), Next(l, s, step).Pc(step.worker);
            && Grants(t.granted) <= l.max && Had(l, FieldTokens(t.bucket)) == (l.max - Grants(t.granted)) as real
            && (pc.HalfRead? ==> Plausible(l, Grants(t.granted), Had(l, pc.tokens)))
            && (pc.Ready? ==> Plausible(l, Grants(t.granted), pc.level))
  {
    var pc := s.Pc(step.worker);
    assert Undisturbed(l, s, pc);
    match pc {
      case HalfRead(_, _, _, now, tokens) =>
        NothingRefills(l, Had(l, tokens), if s.bucket.Bucket? then s.bucket.last else now, now);
      case Ready(_, _, _, now, _, _) =>
        NothingRefills(l, Had(l, FieldTokens(s.bucket)), if s.bucket.Bucket? then s.bucket.last else now, now);
      case _ =>
    }
  }

  lemma FrugalStep(l: Limits, s: System, step: Step)
    requires l.rate >= 0.0 && (l.max == 0 || l.rate == 0.0) && Locked(l, s) && Frugal(l, s) && Enabled(s, step)
    ensures Frugal(l, Next(l, s, step))
  {
    FrugalActor(l, s, step);
    var t := Next(l, s, step);
    assert Undisturbed(l, s, s.Pc(step.worker));
    if Commits(s, step) {
      CommitLeavesTokens(l, s, step);
    }
    assert forall w :: w != step.worker ==> t.Pc(w) == s.Pc(w);
  }

  lemma CommitLeavesTokens(l: Limits, s: System, step: Step)
    requires l.rate >= 0.0 && (l.max == 0 || l.rate == 0.0) && Locked(l, s) && Frugal(l, s) && Commits(s, step)
    ensures Grants(s.granted) < l.max
  {
    var pc := s.Pc(step.worker);
    assert Undisturbed(l, s, pc);
    NothingRefills(l, Had(l, FieldTokens(s.bucket)), if s.bucket.Bucket? then s.bucket.last else pc.now, pc.now);
  }

  lemma {:induction false} FrugalAlways(l: Limits, trace: Trace)
    requires l.rate >= 0.0 && (l.max == 0 || l.rate == 0.0) && Legal(l, trace)
    ensures Frugal(l, End(l, trace))
  {
    match trace
    case Begin =>
    case Go(past, step) =>
      FrugalAlways(l, past);
      LockedAlways(l, past);
      FrugalStep(l, End(l, past), step);
  }

  lemma {:induction false} NoMoreThanAll(run: Run, from: real, to: real)
    ensures GrantedIn(run, from, to) <= Grants(run)
  {
    if run.Call? {
      NoMoreThanAll(run.past, from, to);
    }
  }
}
