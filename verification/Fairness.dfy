/**
 Fairness of the job queue over whole runs of function calls: how long a waiting user can be kept
 waiting, how evenly backlogged users are served, and exactly when a single user can starve another.
 */
module Fairness {
  import opened Outcomes
  import opened RedisStore
  import opened Jobs
  import opened Sums

  /** A run: a start state and the calls made since. */
  datatype Run = Start(store: Store) | Then(past: Run, call: Call)

  ghost function End(run: Run): Store {
    match run
    case Start(s) => s
    case Then(past, c) => After(End(past), c)
  }

  ghost function First(run: Run): Store {
    match run
    case Start(s) => s
    case Then(past, _) => First(past)
  }

  /** The user a call serves, if any. */
  ghost function ServedBy(s: Store, c: Call): Option<UserId> {
    if c.ClaimCall? && Claimed(s).1.Some? then Some(Claimed(s).1.value.user) else None
  }

  /** How many calls of the run served somebody. */
  ghost function Services(run: Run): nat {
    match run
    case Start(_) => 0
    case Then(past, c) => Services(past) + (if ServedBy(End(past), c).Some? then 1 else 0)
  }

  /** How many calls of the run served `u`. */
  ghost function ServicesOf(run: Run, u: UserId): nat {
    match run
    case Start(_) => 0
    case Then(past, c) => ServicesOf(past, u) + (if ServedBy(End(past), c) == Some(u) then 1 else 0)
  }

  /** The user a call moves from idle to active, if any. */
  ghost function ActivatedBy(s: Store, c: Call): Option<UserId> {
    match c
    case EnqueueCall(job) => if job.user in s.active then None else Some(job.user)
    case FailCall(job, _) => if job.user in s.active || !WillRetry(s, job) then None else Some(job.user)
    case _ => None
  }

  ghost function Activations(run: Run): nat {
    match run
    case Start(_) => 0
    case Then(past, c) => Activations(past) + (if ActivatedBy(End(past), c).Some? then 1 else 0)
  }

  /** Every state reached from a state in step, in particular from the empty queue, is in step. */
  lemma {:induction false} ReachableIsSynced(run: Run)
    requires Synced(First(run))
    ensures Synced(End(run))
  {
    match run
    case Start(_) =>
    case Then(past, c) =>
      ReachableIsSynced(past);
      SyncedIsKept(End(past), c);
  }

  // ---- Bounded waiting ----------------------------------------------------------------------------

  /** How often `v` can still be served before `u`, the two scores being what they are. */
  function Lead(active: Scores, u: UserId, v: UserId): nat
    requires u in active && v in active
  {
    var lead: int := active[u] as int - active[v] as int + (if v < u then 1 else 0);
    if lead > 0 then lead else 0
  }

  ghost function Leads(active: Scores, u: UserId): map<UserId, nat>
    requires u in active
  {
    map v | v in active && v != u :: Lead(active, u, v)
  }

  /** The services that stand between `u` and its turn if nobody becomes active. */
  ghost function Wait(active: Scores, u: UserId): nat
    requires u in active
  {
    Sum(Leads(active, u))
  }

  /** What the activation of idle user `v` costs the waiting user `u`: `v` re-enters at score 0. */
  function Cost(active: Scores, u: UserId, v: UserId): nat
    requires u in active
  {
    active[u] + (if v < u then 1 else 0)
  }

  /** `u` is active from the start and no call of the run serves it. */
  ghost predicate Waiting(run: Run, u: UserId) {
    u in First(run).active && ServicesOf(run, u) == 0
  }

  /** The summed cost, to the waiting user, of all activations of the run. */
  ghost function Delay(run: Run, u: UserId): nat
    requires u in First(run).active
  {
    match run
    case Start(_) => 0
    case Then(past, c) =>
      var v := ActivatedBy(End(past), c);
      Delay(past, u) + (if v.Some? then Cost(First(past).active, u, v.value) else 0)
  }

  /** What one call does to the active set. */
  lemma ActiveStep(s: Store, c: Call)
    requires Synced(s)
    ensures match ServedBy(s, c)
            case Some(v) =>
              && v in s.active && (forall w :: w in s.active && w != v ==> Before(s.active, v, w))
              && (After(s, c).active == s.active[v := s.active[v] + 1] || After(s, c).active == s.active - {v})
            case None =>
              match ActivatedBy(s, c)
              case Some(v) => v !in s.active && After(s, c).active == s.active[v := 0]
              case None => After(s, c).active == s.active
  {
    if c.ClaimCall? {
      ActiveClaim(s);
    }
  }

  lemma ActiveClaim(s: Store)
    requires Synced(s)
    ensures match ServedBy(s, ClaimCall)
            case Some(v) =>
              && v in s.active && (forall w :: w in s.active && w != v ==> Before(s.active, v, w))
              && (After(s, ClaimCall).active == s.active[v := s.active[v] + 1]
                  || After(s, ClaimCall).active == s.active - {v})
            case None => After(s, ClaimCall).active == s.active
  {
    ClaimServesTheMinimum(s);
  }

  lemma WaitWhenServed(active: Scores, next: Scores, u: UserId, v: UserId)
    requires u in active && v in active && v != u && Before(active, v, u)
    requires next == active[v := active[v] + 1] || next == active - {v}
    ensures Wait(next, u) < Wait(active, u)
  {
    SumAt(Leads(active, u), v);
    if v in next {
      assert Leads(next, u) == Leads(active, u)[v := Lead(next, u, v)];
      SumPut(Leads(active, u), v, Lead(next, u, v));
    } else {
      assert Leads(next, u) == Leads(active, u) - {v};
    }
  }

  lemma WaitWhenActivated(active: Scores, u: UserId, v: UserId)
    requires u in active && v !in active
    ensures Wait(active[v := 0], u) == Wait(active, u) + Cost(active, u, v)
  {
    assert Leads(active[v := 0], u) == Leads(active, u)[v := Cost(active, u, v)];
    SumPut(Leads(active, u), v, Cost(active, u, v));
  }

  /** A waiting user stays active at an unchanged score; each service costs it at least one unit of wait. */
  lemma WaitStep(s: Store, c: Call, u: UserId)
    requires Synced(s) && u in s.active && ServedBy(s, c) != Some(u)
    ensures u in After(s, c).active && After(s, c).active[u] == s.active[u]
    ensures ServedBy(s, c).Some? ==> Wait(After(s, c).active, u) < Wait(s.active, u)
    ensures ServedBy(s, c).None? ==>
              Wait(After(s, c).active, u)
              == Wait(s.active, u) + if ActivatedBy(s, c).Some? then Cost(s.active, u, ActivatedBy(s, c).value) else 0
  {
    ActiveStep(s, c);
    match ServedBy(s, c)
    case Some(v) => WaitWhenServed(s.active, After(s, c).active, u, v);
    case None =>
      match ActivatedBy(s, c)
      case Some(v) => WaitWhenActivated(s.active, u, v);
      case None =>
  }

  /**
   Bounded waiting. While `u` waits, every service is paid for by the wait it started with or by an
   activation: services so far plus the wait still ahead never exceed the two together.
   */
  lemma {:induction false} BoundedWaiting(run: Run, u: UserId)
    requires Synced(First(run)) && Waiting(run, u)
    ensures u in End(run).active && End(run).active[u] == First(run).active[u]
    ensures Services(run) + Wait(End(run).active, u) <= Wait(First(run).active, u) + Delay(run, u)
  {
    match run
    case Start(_) =>
    case Then(past, c) =>
      BoundedWaiting(past, u);
      ReachableIsSynced(past);
      WaitStep(End(past), c, u);
  }

  /** An activation costs the waiting user at most its score plus one. */
  lemma {:induction false} DelayIsBounded(run: Run, u: UserId)
    requires u in First(run).active
    ensures Delay(run, u) <= (First(run).active[u] + 1) * Activations(run)
  {
    match run
    case Start(_) =>
    case Then(past, c) =>
      DelayIsBounded(past, u);
      var each, n := First(past).active[u] + 1, Activations(past);
      assert each * (n + 1) == each * n + each;
  }

  /** Hence an active user is served before this many services have gone by. */
  lemma ServedWithin(run: Run, u: UserId)
    requires Synced(First(run)) && u in First(run).active
    requires Services(run) > Wait(First(run).active, u) + (First(run).active[u] + 1) * Activations(run)
    ensures ServicesOf(run, u) > 0
  {
    if ServicesOf(run, u) == 0 {
      BoundedWaiting(run, u);
      DelayIsBounded(run, u);
    }
  }

  // ---- Round robin --------------------------------------------------------------------------------

  /** `u` has a queued job before and after every call of the run. */
  ghost predicate AlwaysActive(run: Run, u: UserId)
    ensures AlwaysActive(run, u) ==> u in First(run).active && u in End(run).active
  {
    match run
    case Start(s) => u in s.active
    case Then(past, c) => AlwaysActive(past, u) && u in End(run).active
  }

  ghost function Distance(a: nat, b: nat): nat {
    if a <= b then b - a else a - b
  }

  ghost function Max(a: nat, b: nat): nat {
    if a <= b then b else a
  }

  /** While a user stays backlogged its score counts its services. */
  lemma ScoreStep(s: Store, c: Call, u: UserId)
    requires Synced(s) && u in s.active && u in After(s, c).active
    ensures After(s, c).active[u] == s.active[u] + if ServedBy(s, c) == Some(u) then 1 else 0
  {
    ActiveStep(s, c);
  }

  /**
   Round robin. For two users that stay backlogged, whatever the other users do, scores count
   services and the gap between the two scores never exceeds the larger of the initial gap and one.
   */
  lemma {:induction false} RoundRobin(run: Run, a: UserId, b: UserId)
    requires Synced(First(run)) && AlwaysActive(run, a) && AlwaysActive(run, b)
    ensures a in First(run).active && b in First(run).active && a in End(run).active && b in End(run).active
    ensures End(run).active[a] == First(run).active[a] + ServicesOf(run, a)
    ensures End(run).active[b] == First(run).active[b] + ServicesOf(run, b)
    ensures Distance(End(run).active[a], End(run).active[b])
            <= Max(Distance(First(run).active[a], First(run).active[b]), 1)
  {
    match run
    case Start(_) =>
    case Then(past, c) =>
      RoundRobin(past, a, b);
      ReachableIsSynced(past);
      ScoreStep(End(past), c, a);
      ScoreStep(End(past), c, b);
      ActiveStep(End(past), c);
  }

  /** From equal scores, two backlogged users have been served equally often, give or take one. */
  lemma EqualShares(run: Run, a: UserId, b: UserId)
    requires Synced(First(run)) && AlwaysActive(run, a) && AlwaysActive(run, b)
    requires First(run).active[a] == First(run).active[b]
    ensures Distance(ServicesOf(run, a), ServicesOf(run, b)) <= 1
  {
    RoundRobin(run, a, b);
  }

  // ---- When one user starves another ------------------------------------------------------------

  /** Every call of the run is a claim or an enqueue by `x`. */
  ghost predicate OnlyEnqueuesBy(run: Run, x: UserId) {
    match run
    case Start(_) => true
    case Then(past, c) => OnlyEnqueuesBy(past, x) && (c.ClaimCall? || (c.EnqueueCall? && c.job.user == x))
  }

  /** A run from `s` with `n` services in which `u` waits all along and only `x` adds work. */
  ghost predicate Starving(run: Run, s: Store, n: nat, x: UserId, u: UserId) {
    First(run) == s && Services(run) == n && Waiting(run, u) && OnlyEnqueuesBy(run, x)
  }

  ghost predicate CanDelay(s: Store, n: nat, x: UserId, u: UserId) {
    exists run: Run :: Starving(run, s, n, x, u)
  }

  /** `x` alone can keep `u` waiting for any number of services. */
  ghost predicate CanStarve(s: Store, x: UserId, u: UserId) {
    forall n: nat :: CanDelay(s, n, x, u)
  }

  /**
   `x` is before `u` even at the turn of the last job it has queued. An idle user counts as one with a
   single job at score 0, because that is how its next job enters.
   */
  predicate CutsAhead(s: Store, x: UserId, u: UserId)
    requires u in s.active && (x in s.active ==> s.Backlogged(x))
  {
    var last := if x in s.active then s.active[x] + |s.List(x)| - 1 else 0;
    last < s.active[u] || (last == s.active[u] && x < u)
  }

  /**
   The queue is meant to let no single user starve others, and it falls short. In any state of the queue,
   whoever else is waiting, `x` can keep `u` from ever being served exactly when it can work off what it has
   queued before `u`'s turn: from then on each further job of `x` re-enters at score 0, ahead of `u`.
   */
  lemma StarvationIff(s: Store, x: UserId, u: UserId)
    requires Synced(s) && u in s.active && x != u
    ensures CanStarve(s, x, u) <==> CutsAhead(s, x, u)
  {
    if CutsAhead(s, x, u) {
      forall n: nat
        ensures CanDelay(s, n, x, u)
      {
        var run := Overtaking(s, x, u, n);
        assert Starving(run, s, n, x, u);
      }
    } else if CanStarve(s, x, u) {
      var n := Wait(s.active, u) + 1;
      assert CanDelay(s, n, x, u);
      var run: Run :| Starving(run, s, n, x, u);
      BoundedWaiting(run, u);
      NoDelay(run, x, u);
    }
  }

  /** For a user that has nothing queued the condition is that `u` has been served before, or sorts later. */
  lemma IdleStarvationIff(s: Store, x: UserId, u: UserId)
    requires Synced(s) && u in s.active && x !in s.active
    ensures CanStarve(s, x, u) <==> s.active[u] > 0 || x < u
  {
    StarvationIff(s, x, u);
  }

  ghost predicate Ahead(s: Store, x: UserId, u: UserId) {
    Synced(s) && u in s.active && CutsAhead(s, x, u)
  }

  /** So far `u` waits, only `x` adds work, and `x` is still ahead. */
  ghost predicate Passing(run: Run, x: UserId, u: UserId) {
    Waiting(run, u) && OnlyEnqueuesBy(run, x) && Ahead(End(run), x, u)
  }

  /** `x` enqueues whenever it is idle, and claims go on: `n` services without `u`. */
  lemma {:induction false} Overtaking(s: Store, x: UserId, u: UserId, n: nat) returns (run: Run)
    requires Ahead(s, x, u) && x != u
    ensures First(run) == s && Services(run) == n && Passing(run, x, u)
  {
    if n == 0 {
      run := Start(s);
    } else {
      run := Overtaking(s, x, u, n - 1);
      run := Refilled(run, x, u);
      run := ClaimPast(run, x, u);
    }
  }

  /** An idle `x` enqueues one job. */
  lemma Refilled(past: Run, x: UserId, u: UserId) returns (run: Run)
    requires Passing(past, x, u) && x != u
    ensures First(run) == First(past) && Services(run) == Services(past)
    ensures Passing(run, x, u) && x in End(run).active
  {
    run := past;
    if x !in End(past).active {
      var job := Job(0, x, "");
      IdleEnqueues(End(past), x, u, job);
      run := Then(past, EnqueueCall(job));
    }
  }

  lemma ClaimPast(past: Run, x: UserId, u: UserId) returns (run: Run)
    requires Passing(past, x, u) && x in End(past).active && x != u
    ensures First(run) == First(past) && Services(run) == Services(past) + 1 && Passing(run, x, u)
  {
    ServedBeforeU(End(past), x, u);
    run := Then(past, ClaimCall);
  }

  lemma IdleEnqueues(s: Store, x: UserId, u: UserId, job: Job)
    requires Synced(s) && u in s.active && x !in s.active && job.user == x && CutsAhead(s, x, u)
    ensures var t := After(s, EnqueueCall(job));
            Synced(t) && u in t.active && x in t.active && CutsAhead(t, x, u)
  {
    SyncedIsKept(s, EnqueueCall(job));
    assert s.List(x) == [];
    assert After(s, EnqueueCall(job)).List(x) == [job];
  }

  /** With `x` ahead a claim serves `x` or a user before it, and leaves `x` ahead. */
  lemma ServedBeforeU(s: Store, x: UserId, u: UserId)
    requires Synced(s) && u in s.active && x in s.active && x != u && CutsAhead(s, x, u)
    ensures ServedBy(s, ClaimCall).Some? && ServedBy(s, ClaimCall) != Some(u)
    ensures var t := After(s, ClaimCall); Synced(t) && u in t.active && CutsAhead(t, x, u)
  {
    ClaimServesTheMinimum(s);
    SyncedIsKept(s, ClaimCall);
    assert s.Backlogged(x) && Before(s.active, x, u);
    var v := Claimed(s).1.value.user;
    ServedChanges(s, v, x);
    ServedChanges(s, v, u);
  }

  /** What serving `v` does to `w`: nothing to another user; the sum of score and queued jobs stays. */
  lemma ServedChanges(s: Store, v: UserId, w: UserId)
    requires s.Backlogged(v) && v in s.active && w in s.active
    ensures var t := Served(s, v);
            && (v != w ==> w in t.active && t.active[w] == s.active[w] && t.List(w) == s.List(w))
            && (v == w ==> |t.List(w)| == |s.List(w)| - 1)
            && (v == w && |s.List(w)| > 1 ==> w in t.active && t.active[w] == s.active[w] + 1)
            && (v == w && |s.List(w)| == 1 ==> w !in t.active)
  {
  }

  /** A user that is not ahead either pays for nothing when it activates, or never gets to activate. */
  lemma NoDelay(run: Run, x: UserId, u: UserId)
    requires Synced(First(run)) && Waiting(run, u) && OnlyEnqueuesBy(run, x) && x != u
    requires !CutsAhead(First(run), x, u)
    ensures Delay(run, u) == 0
  {
    if First(run).active[u] == 0 && u < x {
      FreeActivations(run, x, u);
    } else {
      StaysBehind(run, x, u);
    }
  }

  /** Behind at its last job, `x` is served only while it has another: it stays active, and behind. */
  lemma {:induction false} StaysBehind(run: Run, x: UserId, u: UserId)
    requires Synced(First(run)) && Waiting(run, u) && OnlyEnqueuesBy(run, x) && x != u
    requires x in First(run).active && !CutsAhead(First(run), x, u)
    ensures Delay(run, u) == 0 && Synced(End(run))
    ensures u in End(run).active && x in End(run).active && !CutsAhead(End(run), x, u)
  {
    match run
    case Start(_) =>
    case Then(past, c) =>
      StaysBehind(past, x, u);
      BehindStep(End(past), c, x, u);
  }

  lemma BehindStep(s: Store, c: Call, x: UserId, u: UserId)
    requires Synced(s) && u in s.active && x in s.active && x != u && !CutsAhead(s, x, u)
    requires ServedBy(s, c) != Some(u) && (c.ClaimCall? || (c.EnqueueCall? && c.job.user == x))
    ensures ActivatedBy(s, c) == None
    ensures var t := After(s, c); Synced(t) && u in t.active && x in t.active && !CutsAhead(t, x, u)
  {
    SyncedIsKept(s, c);
    if c.ClaimCall? {
      ClaimServesTheMinimum(s);
      assert s.Backlogged(u) && s.Backlogged(x);
      var v := Claimed(s).1.value.user;
      assert v == x ==> Before(s.active, x, u);
      ServedChanges(s, v, x);
      ServedChanges(s, v, u);
    }
  }

  /** Without a score and with `x` sorting after `u`, activations of `x` cost `u` nothing. */
  lemma {:induction false} FreeActivations(run: Run, x: UserId, u: UserId)
    requires u in First(run).active && First(run).active[u] == 0 && u < x && OnlyEnqueuesBy(run, x)
    ensures Delay(run, u) == 0
  {
    match run
    case Start(_) =>
    case Then(past, c) => FreeActivations(past, x, u);
  }
}
