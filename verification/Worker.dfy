/**
 The worker loop (src/upgradepilot/worker.py): each poll claims one job and settles it by completing,
 retrying or failing it. How each analysis ends is an input; a run of the endless loop is cut off after
 the polls that input describes.
 */
module Worker {
  import opened Outcomes
  import opened RedisStore
  import opened Jobs
  import opened Sums

  /** What the worker does with a claimed job once its analysis has ended. */
  function Settled(s: Store, outcome: Outcome, job: Job): Store {
    match outcome
    case Succeeds => Finished(s, job.id)
    case Raises(code) => Failing(s, job, code)
  }

  /** One poll: claim, run, settle. */
  ghost function Processed(s: Store, outcome: Outcome): Store {
    var (t, claimed) := Claimed(s);
    if claimed.None? then t else Settled(t, outcome, claimed.value)
  }

  /** The store after the first `k` polls. */
  ghost function Worked(s: Store, outcomes: seq<Outcome>, k: nat): Store
    requires k <= |outcomes|
  {
    if k == 0 then s else Processed(Worked(s, outcomes, k - 1), outcomes[k - 1])
  }

  /** How many of the first `k` polls found a job. */
  ghost function Handled(s: Store, outcomes: seq<Outcome>, k: nat): nat
    requires k <= |outcomes|
  {
    if k == 0 then 0
    else Handled(s, outcomes, k - 1) + (if Claimed(Worked(s, outcomes, k - 1)).1.Some? then 1 else 0)
  }

  method ProcessOne(queue: JobQueue, outcome: Outcome) returns (didWork: bool)
    modifies queue
    ensures queue.State() == Processed(old(queue.State()), outcome)
    ensures didWork == Claimed(old(queue.State())).1.Some?
  {
    var claimed := queue.ClaimNextJob();
    if claimed.None? {
      return false;
    }
    match outcome {
      case Succeeds =>
        queue.CompleteJob(claimed.value.id);
      case Raises(code) =>
        var retried := queue.FailJob(claimed.value, code);
    }
    return true;
  }

  method RunWorker(queue: JobQueue, outcomes: seq<Outcome>, maxJobs: Option<int>)
    returns (processed: nat, polls: nat)
    modifies queue
    ensures polls <= |outcomes| && queue.State() == Worked(old(queue.State()), outcomes, polls)
    ensures processed == Handled(old(queue.State()), outcomes, polls)
    ensures polls < |outcomes| ==> maxJobs.Some? && processed >= maxJobs.value
    ensures maxJobs.Some? ==> processed <= 1 || processed <= maxJobs.value
  {
    processed, polls := 0, 0;
    while polls < |outcomes|
      invariant polls <= |outcomes| && queue.State() == Worked(old(queue.State()), outcomes, polls)
      invariant processed == Handled(old(queue.State()), outcomes, polls)
      invariant maxJobs.Some? ==> processed == 0 || processed < maxJobs.value
    {
      var didWork := ProcessOne(queue, outcomes[polls]);
      polls := polls + 1;
      if didWork {
        processed := processed + 1;
        if maxJobs.Some? && processed >= maxJobs.value {
          return;
        }
      }
    }
  }

  // ---- Draining -----------------------------------------------------------------------------------

  ghost predicate Waits(s: Store, job: Job) {
    job in s.List(job.user)
  }

  ghost predicate Listed(s: Store, id: JobId) {
    exists job :: Waits(s, job) && job.id == id
  }

  type Hashes = map<JobId, JobHash>

  predicate IsQueued(hashes: Hashes, id: JobId) {
    id in hashes && hashes[id].state == Queued
  }

  /** Nothing is running, and a queued job has an attempt left. */
  ghost predicate HashesAtRest(hashes: Hashes) {
    && (forall id :: id in hashes ==> hashes[id].state != Running && hashes[id].attempts.Some?)
    && (forall id :: IsQueued(hashes, id) ==> hashes[id].attempts.value < MAX_ATTEMPTS)
  }

  /** The queued jobs are exactly the jobs whose hash says so, each queued once. */
  ghost predicate ListsAtRest(s: Store) {
    && (forall u :: Distinct(s.List(u)))
    && (forall j, k :: Waits(s, j) && Waits(s, k) && j.id == k.id ==> j == k)
    && (forall id :: Listed(s, id) <==> IsQueued(s.hashes, id))
  }

  ghost predicate AtRest(s: Store) {
    Synced(s) && HashesAtRest(s.hashes) && ListsAtRest(s)
  }

  /** The claims each queued job can still have. */
  ghost function Chances(hashes: Hashes): map<JobId, nat>
    requires HashesAtRest(hashes)
  {
    map id | id in hashes && IsQueued(hashes, id) :: MAX_ATTEMPTS - hashes[id].attempts.value
  }

  ghost function Budget(s: Store): nat
    requires HashesAtRest(s.hashes)
  {
    Sum(Chances(s.hashes))
  }

  /** Only the hash of `id` differs. */
  ghost predicate OnlyDiffer(a: Hashes, b: Hashes, id: JobId) {
    id in b && b.Keys == a.Keys + {id} && forall other :: other in a && other != id ==> b[other] == a[other]
  }

  lemma BudgetAfter(a: Hashes, b: Hashes, id: JobId)
    requires HashesAtRest(a) && HashesAtRest(b) && OnlyDiffer(a, b, id)
    ensures Sum(Chances(b)) + (if IsQueued(a, id) then Chances(a)[id] else 0)
            == Sum(Chances(a)) + (if IsQueued(b, id) then Chances(b)[id] else 0)
  {
    assert Chances(b) - {id} == Chances(a) - {id};
    if IsQueued(a, id) {
      SumAt(Chances(a), id);
    } else {
      assert Chances(a) - {id} == Chances(a);
    }
    if IsQueued(b, id) {
      SumAt(Chances(b), id);
    } else {
      assert Chances(b) - {id} == Chances(b);
    }
  }

  /** A fresh job enqueued at rest leaves the queue at rest, with two more claims to give. */
  lemma EnqueueAtRest(s: Store, job: Job)
    requires AtRest(s) && job.id !in s.hashes
    ensures AtRest(Enqueued(s, job)) && Budget(Enqueued(s, job)) == Budget(s) + 2
  {
    var t := Enqueued(s, job);
    SyncedIsKept(s, EnqueueCall(job));
    BudgetAfter(s.hashes, t.hashes, job.id);
    assert job !in s.List(job.user) by {
      assert !IsQueued(s.hashes, job.id);
      assert Waits(s, job) ==> Listed(s, job.id);
    }
    assert t.List(job.user) == s.List(job.user) + [job];
    ListedAfterPush(s, t, job);
  }

  lemma ListedAfterPush(s: Store, t: Store, job: Job)
    requires ListsAtRest(s) && !IsQueued(s.hashes, job.id) && job !in s.List(job.user)
    requires t.List(job.user) == s.List(job.user) + [job] && forall u :: u != job.user ==> t.List(u) == s.List(u)
    requires OnlyDiffer(s.hashes, t.hashes, job.id) && IsQueued(t.hashes, job.id)
    ensures ListsAtRest(t)
  {
    forall j
      ensures Waits(t, j) <==> Waits(s, j) || j == job
    {
    }
    forall id
      ensures Listed(t, id) <==> IsQueued(t.hashes, id)
    {
      if id == job.id {
        assert Waits(t, job);
      } else {
        assert Listed(s, id) <==> IsQueued(s.hashes, id);
        if Listed(s, id) {
          var j :| Waits(s, j) && j.id == id;
          assert Waits(t, j);
        }
      }
    }
    forall j, k | Waits(t, j) && Waits(t, k) && j.id == k.id
      ensures j == k
    {
      assert Waits(s, j) ==> Listed(s, j.id);
      assert Waits(s, k) ==> Listed(s, k.id);
    }
    forall u
      ensures Distinct(t.List(u))
    {
      assert Distinct(s.List(u));
      assert forall i :: 0 <= i < |s.List(job.user)| ==> s.List(job.user)[i] in s.List(job.user);
    }
  }

  lemma ListedAfterPop(s: Store, t: Store, job: Job)
    requires ListsAtRest(s) && s.List(job.user) == [job] + t.List(job.user)
    requires forall u :: u != job.user ==> t.List(u) == s.List(u)
    requires OnlyDiffer(s.hashes, t.hashes, job.id) && !IsQueued(t.hashes, job.id)
    ensures ListsAtRest(t)
  {
    var was, now := s.List(job.user), t.List(job.user);
    assert was[0] == job && job in was && Waits(s, job) && Distinct(was);
    TailIsDistinct(was, now, job);
    forall j
      ensures Waits(t, j) <==> Waits(s, j) && j != job
    {
      if j.user == job.user {
        assert j in was <==> j == job || j in now;
      }
    }
    forall id
      ensures Listed(t, id) <==> IsQueued(t.hashes, id)
    {
      assert Listed(s, id) <==> IsQueued(s.hashes, id);
      if Listed(s, id) && id != job.id {
        var j :| Waits(s, j) && j.id == id;
        assert Waits(t, j);
      }
    }
    forall u
      ensures Distinct(t.List(u))
    {
      assert u != job.user ==> Distinct(s.List(u));
    }
  }

  lemma TailIsDistinct(was: seq<Job>, now: seq<Job>, job: Job)
    requires Distinct(was) && was == [job] + now
    ensures Distinct(now) && job !in now
  {
    assert was[0] == job && forall i :: 0 <= i < |now| ==> now[i] == was[i + 1];
  }

  lemma ListedAfterRetry(s: Store, t: Store, job: Job)
    requires ListsAtRest(s) && Waits(s, job) && forall u :: t.List(u) == s.List(u)
    requires OnlyDiffer(s.hashes, t.hashes, job.id) && IsQueued(t.hashes, job.id)
    ensures ListsAtRest(t)
  {
    assert Listed(s, job.id);
    assert forall j :: Waits(t, j) <==> Waits(s, j);
    forall id
      ensures Listed(t, id) <==> IsQueued(t.hashes, id)
    {
      assert Listed(s, id) <==> IsQueued(s.hashes, id);
    }
    assert forall u :: Distinct(s.List(u));
  }

  /** A poll that finds a job uses up at least one claim; a poll that finds none means nothing is queued. */
  lemma ProcessedAtRest(s: Store, outcome: Outcome)
    requires AtRest(s)
    ensures AtRest(Processed(s, outcome))
    ensures Claimed(s).1.Some? ==> Budget(Processed(s, outcome)) < Budget(s)
    ensures Claimed(s).1.None? ==> Processed(s, outcome) == s && Budget(s) == 0
  {
    ClaimServesTheMinimum(s);
    if Claimed(s).1.None? {
      assert forall job :: !Waits(s, job);
      forall id
        ensures !IsQueued(s.hashes, id)
      {
        assert !Listed(s, id);
      }
      assert Chances(s.hashes) == map[];
    } else {
      ServedAtRest(s, outcome, Claimed(s).1.value);
    }
  }

  /**
   What a poll means for the job it finds: completed and gone if the analysis succeeds; otherwise back in its place
   with the error noted if this was the first of its two attempts, and failed if it was the last.
   */
  lemma PollMeans(s: Store, outcome: Outcome, job: Job)
    requires Synced(s) && Claimed(s).1 == Some(job)
    ensures var t, attempts := Processed(s, outcome), s.Attempts(job.id, 0) + 1;
            && job.id in t.hashes && t.hashes[job.id].attempts == Some(attempts)
            && (forall u :: u != job.user ==> t.List(u) == s.List(u))
            && match outcome
               case Succeeds => t.hashes[job.id].state == Completed && s.List(job.user) == [job] + t.List(job.user)
               case Raises(code) =>
                 && t.hashes[job.id].errorCode == Some(code)
                 && if attempts < 2 then t.hashes[job.id].state == Queued && t.List(job.user) == s.List(job.user)
                    else t.hashes[job.id].state == Failed && s.List(job.user) == [job] + t.List(job.user)
  {
    match outcome
    case Succeeds => ClaimThenComplete(s, job);
    case Raises(code) => RetryUndoesClaim(s, job, code);
  }

  lemma ServedAtRest(s: Store, outcome: Outcome, job: Job)
    requires AtRest(s) && Claimed(s).1 == Some(job)
    ensures AtRest(Processed(s, outcome)) && Budget(Processed(s, outcome)) < Budget(s)
  {
    var mid, t := Claimed(s).0, Processed(s, outcome);
    ProcessedIsSynced(s, outcome);
    ProcessedLists(s, outcome, job);
    BudgetAfter(s.hashes, t.hashes, job.id);
    if IsQueued(t.hashes, job.id) {
      ListedAfterRetry(s, t, job);
    } else {
      ListedAfterPop(s, t, job);
    }
  }

  lemma ProcessedIsSynced(s: Store, outcome: Outcome)
    requires Synced(s)
    ensures Synced(Processed(s, outcome))
  {
    SyncedIsKept(s, ClaimCall);
    var claimed := Claimed(s);
    if claimed.1.Some? {
      SettledIsSynced(claimed.0, claimed.1.value, outcome);
    }
  }

  lemma SettledIsSynced(s: Store, job: Job, outcome: Outcome)
    requires Synced(s)
    ensures Synced(Settled(s, outcome, job))
  {
    match outcome
    case Succeeds => SyncedIsKept(s, CompleteCall(job.id));
    case Raises(code) => SyncedIsKept(s, FailCall(job, code));
  }

  /** The claim took the job off its list and counted the attempt. */
  ghost predicate ServedTo(s: Store, t: Store, job: Job) {
    && Waits(s, job) && s.List(job.user) == [job] + t.List(job.user)
    && (forall u :: u != job.user ==> t.List(u) == s.List(u))
    && OnlyDiffer(s.hashes, t.hashes, job.id)
    && t.hashes[job.id].state == Running && t.hashes[job.id].attempts == Some(s.Attempts(job.id, 0) + 1)
  }

  /** How settling a running job ends, in terms of the attempts counted so far. */
  ghost predicate SettledTo(s: Store, t: Store, outcome: Outcome, job: Job) {
    && job.id in s.hashes && s.hashes[job.id].attempts.Some?
    && var retry := outcome.Raises? && s.hashes[job.id].attempts.value < MAX_ATTEMPTS;
    && OnlyDiffer(s.hashes, t.hashes, job.id) && t.hashes[job.id].attempts == s.hashes[job.id].attempts
    && t.hashes[job.id].state == (if outcome.Succeeds? then Completed else if retry then Queued else Failed)
    && t.List(job.user) == (if retry then [job] else []) + s.List(job.user)
    && forall u :: u != job.user ==> t.List(u) == s.List(u)
  }

  /** What a poll does to the claimed job: settled and gone, or back at the head with one attempt counted. */
  ghost predicate PolledTo(s: Store, t: Store, job: Job) {
    && Waits(s, job) && IsQueued(s.hashes, job.id)
    && OnlyDiffer(s.hashes, t.hashes, job.id) && HashesAtRest(s.hashes) && HashesAtRest(t.hashes)
    && (forall u :: u != job.user ==> t.List(u) == s.List(u))
    && if IsQueued(t.hashes, job.id)
       then t.List(job.user) == s.List(job.user) && Chances(t.hashes)[job.id] < Chances(s.hashes)[job.id]
       else s.List(job.user) == [job] + t.List(job.user)
  }

  lemma ProcessedLists(s: Store, outcome: Outcome, job: Job)
    requires AtRest(s) && Claimed(s).1 == Some(job)
    ensures PolledTo(s, Processed(s, outcome), job)
  {
    var mid := Claimed(s).0;
    ServedJob(s, job);
    SettledJob(mid, outcome, job);
    PollEnds(s, mid, Settled(mid, outcome, job), outcome, job);
  }

  lemma PollEnds(s: Store, mid: Store, t: Store, outcome: Outcome, job: Job)
    requires HashesAtRest(s.hashes) && ListsAtRest(s) && ServedTo(s, mid, job) && SettledTo(mid, t, outcome, job)
    ensures PolledTo(s, t, job)
  {
    assert Listed(s, job.id);
    HashesAfterPoll(s.hashes, mid.hashes, t.hashes, job.id);
    assert [] + mid.List(job.user) == mid.List(job.user);
  }

  lemma HashesAfterPoll(a: Hashes, mid: Hashes, b: Hashes, id: JobId)
    requires HashesAtRest(a) && IsQueued(a, id) && OnlyDiffer(a, mid, id) && OnlyDiffer(mid, b, id)
    requires b[id].attempts == mid[id].attempts == Some(a[id].attempts.value + 1)
    requires b[id].state in {Completed, Failed} || (b[id].state == Queued && b[id].attempts.value < MAX_ATTEMPTS)
    ensures OnlyDiffer(a, b, id) && HashesAtRest(b) && (IsQueued(b, id) ==> Chances(b)[id] < Chances(a)[id])
  {
  }

  lemma ServedJob(s: Store, job: Job)
    requires Synced(s) && Claimed(s).1 == Some(job)
    ensures ServedTo(s, Claimed(s).0, job)
  {
    ClaimServesTheMinimum(s);
    ServedOne(s, job.user, Claimed(s).0);
    HeadAndTail(s.List(job.user), job);
    assert s.List(job.user)[0] in s.List(job.user);
  }

  lemma SettledJob(s: Store, outcome: Outcome, job: Job)
    requires job.id in s.hashes && s.hashes[job.id].attempts.Some?
    ensures SettledTo(s, Settled(s, outcome, job), outcome, job)
  {
    assert [] + s.List(job.user) == s.List(job.user);
  }

  /**
   With nobody enqueueing, the worker handles no more jobs than there are claims left, at most two per
   known job; and once it has polled that often every job is completed or failed and nothing is queued.
   */
  lemma {:induction false} WorkDrains(s: Store, outcomes: seq<Outcome>, k: nat)
    requires AtRest(s) && k <= |outcomes|
    ensures AtRest(Worked(s, outcomes, k))
    ensures Handled(s, outcomes, k) + Budget(Worked(s, outcomes, k)) <= Budget(s) <= 2 * |s.hashes|
    ensures k >= Budget(s) ==>
              var t := Worked(s, outcomes, k);
              && (forall u :: t.List(u) == [])
              && (forall id :: id in t.hashes ==> t.hashes[id].state in {Completed, Failed})
  {
    DrainStep(s, outcomes, k, Worked(s, outcomes, k), Handled(s, outcomes, k));
    BudgetPerJob(s);
    if k >= Budget(s) {
      NothingLeft(Worked(s, outcomes, k));
    }
  }

  /** From `s`, polling so often has handled so many jobs; the budget has paid for them or is spent. */
  ghost predicate Drained(s: Store, t: Store, handled: nat, polls: nat) {
    && AtRest(s) && AtRest(t) && handled + Budget(t) <= Budget(s)
    && (Budget(t) == 0 || Budget(t) + polls <= Budget(s))
  }

  lemma PollDrains(s: Store, mid: Store, outcome: Outcome, t: Store, before: nat, after: nat, polls: nat)
    requires Drained(s, mid, before, polls) && t == Processed(mid, outcome)
    requires after == before + if Claimed(mid).1.Some? then 1 else 0
    ensures Drained(s, t, after, polls + 1)
  {
    ProcessedAtRest(mid, outcome);
  }

  lemma NextPoll(s: Store, outcomes: seq<Outcome>, k: nat, mid: Store)
    requires 0 < k <= |outcomes| && mid == Worked(s, outcomes, k - 1)
    ensures Worked(s, outcomes, k) == Processed(mid, outcomes[k - 1])
    ensures Handled(s, outcomes, k) == Handled(s, outcomes, k - 1) + if Claimed(mid).1.Some? then 1 else 0
  {
  }

  /** Each poll either lowers the budget or finds it spent. */
  lemma {:induction false} DrainStep(s: Store, outcomes: seq<Outcome>, k: nat, t: Store, handled: nat)
    requires AtRest(s) && k <= |outcomes| && t == Worked(s, outcomes, k) && handled == Handled(s, outcomes, k)
    ensures Drained(s, t, handled, k)
  {
    if k > 0 {
      var mid, before := Worked(s, outcomes, k - 1), Handled(s, outcomes, k - 1);
      DrainStep(s, outcomes, k - 1, mid, before);
      NextPoll(s, outcomes, k, mid);
      PollDrains(s, mid, outcomes[k - 1], t, before, handled, k - 1);
    }
  }

  lemma NothingLeft(s: Store)
    requires AtRest(s) && Budget(s) == 0
    ensures forall u :: s.List(u) == []
    ensures forall id :: id in s.hashes ==> s.hashes[id].state in {Completed, Failed}
  {
    forall id | id in s.hashes
      ensures !IsQueued(s.hashes, id)
    {
      if IsQueued(s.hashes, id) {
        SumAt(Chances(s.hashes), id);
      }
    }
    forall u
      ensures s.List(u) == []
    {
      if s.List(u) != [] {
        var job := s.List(u)[0];
        assert job in s.List(u) && Waits(s, job);
        assert Listed(s, job.id);
      }
    }
  }

  lemma BudgetPerJob(s: Store)
    requires AtRest(s)
    ensures Budget(s) <= MAX_ATTEMPTS * |s.hashes|
  {
    SumOfChances(Chances(s.hashes));
    FewerKeys(Chances(s.hashes).Keys, s.hashes.Keys);
  }

  lemma {:induction false} SumOfChances(m: map<JobId, nat>)
    requires forall id :: id in m ==> m[id] <= MAX_ATTEMPTS
    ensures Sum(m) <= MAX_ATTEMPTS * |m|
    decreases |m|
  {
    if m != map[] {
      var id :| id in m;
      var rest := m - {id};
      SumAt(m, id);
      SumOfChances(rest);
      assert rest.Keys == m.Keys - {id};
      assert |rest.Keys| == |m.Keys| - 1;
    }
  }

  lemma {:induction false} FewerKeys(a: set<JobId>, b: set<JobId>)
    requires a <= b
    ensures |a| <= |b|
  {
    if a != {} {
      var id :| id in a;
      FewerKeys(a - {id}, b - {id});
    }
  }
}
