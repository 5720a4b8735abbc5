/**
 How the interleaved queue comes to rest (src/upgradepilot/queue/jobs.py, src/upgradepilot/worker.py:168-183): how
 often the workers claim altogether, and what is left when no worker has a job and none finds one.
 */
module QueueDrain {
  import opened Outcomes
  import opened RedisStore
  import opened QueueProtocol
  import opened QueueGuarantees
  import Jobs

  // ---- Claims in all ----------------------------------------------------------------------------------

  ghost function Pops(h: History): nat {
    match h
    case Empty => 0
    case Then(past, e) => Pops(past) + (if e.Pop? then 1 else 0)
  }

  ghost function Enqueues(h: History): nat {
    match h
    case Empty => 0
    case Then(past, e) => Enqueues(past) + (if e.Enqueue? then 1 else 0)
  }

  /** How often the jobs that were enqueued so far had been claimed by the end. */
  ghost function ClaimSum(end: History, sofar: History): nat {
    match sofar
    case Empty => 0
    case Then(past, e) => ClaimSum(end, past) + (if e.Enqueue? then Claims(end, e.job.id) else 0)
  }

  lemma {:induction false} SumGrows(h: History, e: Event, sofar: History)
    ensures ClaimSum(QueueProtocol.Then(h, e), sofar) >= ClaimSum(h, sofar) + (if e.Pop? && Known(sofar, e.job) then 1 else 0)
  {
    if sofar.Then? {
      SumGrows(h, e, sofar.past);
    }
  }

  lemma {:induction false} PopsAreCounted(h: History)
    requires EventsKnown(h)
    ensures Pops(h) <= ClaimSum(h, h)
  {
    match h
    case Empty =>
    case Then(past, e) =>
      PopsAreCounted(past);
      SumGrows(past, e, past);
  }

  lemma {:induction false} SumIsBounded(end: History, sofar: History)
    requires forall job :: Known(sofar, job) ==> Claims(end, job.id) <= MAX_ATTEMPTS
    ensures ClaimSum(end, sofar) <= MAX_ATTEMPTS * Enqueues(sofar)
  {
    if sofar.Then? {
      assert forall job :: Known(sofar.past, job) ==> Known(sofar, job);
      assert sofar.event.Enqueue? ==> Known(sofar, sofar.event.job);
      SumIsBounded(end, sofar.past);
    }
  }

  /** In every interleaving all workers together claim at most twice per submission. */
  lemma TwoClaimsEach(run: Run)
    requires Legal(run)
    ensures Pops(End(run).history) <= 2 * Enqueues(End(run).history)
  {
    var h := End(run).history;
    InvariantAlways(run);
    forall job | Known(h, job)
      ensures Claims(h, job.id) <= MAX_ATTEMPTS
    {
      AttemptsCountClaims(run, job);
    }
    PopsAreCounted(h);
    SumIsBounded(h, h);
  }

  // ---- At rest ----------------------------------------------------------------------------------------

  /** No worker has a job in its hand, and a claim would find nobody. */
  ghost predicate AtRest(s: System) {
    (forall w :: Hand(s.Pc(w)) == None) && Jobs.Claimed(s.store).1 == None
  }

  ghost predicate IsSettled(s: System, job: Job) {
    job.id in s.store.hashes && s.store.hashes[job.id].state in {Completed, Failed}
  }

  /** The job waits in its list, but its user is not in the active set. */
  ghost predicate Hidden(s: System, job: Job) {
    job in s.store.List(job.user) && job.user !in s.store.active
  }

  lemma AtRestNothingWaits(s: System, job: Job)
    requires Invariant(s) && AtRest(s) && Known(s.history, job)
    ensures IsSettled(s, job) || Hidden(s, job)
  {
    assert HashAgrees(s, job);
    assert LastPlace(s.history, job.id).InQueue? ==> s.store.Backlogged(job.user);
    assert LastPlace(s.history, job.id).InHand? ==> Hand(s.Pc(LastPlace(s.history, job.id).w)) == Some(job);
  }

  /** A job that waits in a list or is in a worker's hand is not settled, and the latter is in no list. */
  lemma StillWaiting(s: System, job: Job)
    requires Invariant(s) && Known(s.history, job)
    ensures (exists w :: Hand(s.Pc(w)) == Some(job)) ==> !IsSettled(s, job) && !Hidden(s, job)
    ensures job in s.store.List(job.user) ==> !IsSettled(s, job)
  {
    assert HashAgrees(s, job);
  }

  lemma NothingWaitsAtRest(s: System)
    requires Invariant(s) && forall job :: Known(s.history, job) ==> IsSettled(s, job) || Hidden(s, job)
    ensures AtRest(s)
  {
    forall w
      ensures Hand(s.Pc(w)) == None
    {
      if Hand(s.Pc(w)).Some? {
        StillWaiting(s, Hand(s.Pc(w)).value);
      }
    }
    forall u | u in s.store.active
      ensures !s.store.Backlogged(u)
    {
      if s.store.Backlogged(u) {
        var job := s.store.List(u)[0];
        assert job in s.store.List(u);
        StillWaiting(s, job);
      }
    }
  }

  /**
   In every interleaving the queue is at rest exactly when every submitted job is completed, failed, or hidden
   from the claims in the list of a user that has dropped out of the active set.
   */
  lemma AtRestIff(run: Run)
    requires Legal(run)
    ensures AtRest(End(run)) <==>
              forall job :: Known(End(run).history, job) ==> IsSettled(End(run), job) || Hidden(End(run), job)
  {
    var s := End(run);
    InvariantAlways(run);
    if AtRest(s) {
      forall job | Known(s.history, job)
        ensures IsSettled(s, job) || Hidden(s, job)
      {
        AtRestNothingWaits(s, job);
      }
    } else if forall job :: Known(s.history, job) ==> IsSettled(s, job) || Hidden(s, job) {
      NothingWaitsAtRest(s);
    }
  }

  /** No step of the run has removed a user whose list had been refilled. */
  ghost predicate NeverHides(run: Run) {
    run.Go? ==> NeverHides(run.past) && !RemovesBacklogged(End(run.past), run.step)
  }

  lemma {:induction false} CoveredAlways(run: Run)
    requires NeverHides(run)
    ensures Covered(End(run))
  {
    if run.Go? {
      CoveredAlways(run.past);
      CoverageLostIff(End(run.past), run.step);
    }
  }

  /** Then the queue is at rest exactly when every submitted job is completed or failed. */
  lemma DrainedIff(run: Run)
    requires Legal(run) && NeverHides(run)
    ensures AtRest(End(run)) <==> forall job :: Known(End(run).history, job) ==> IsSettled(End(run), job)
  {
    var s := End(run);
    AtRestIff(run);
    CoveredAlways(run);
    forall job | Known(s.history, job)
      ensures !Hidden(s, job)
    {
      assert Covered(s) && (job in s.store.List(job.user) ==> s.store.Backlogged(job.user));
    }
  }
}
