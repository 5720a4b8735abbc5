/**
 What the interleaved queue guarantees in every reachable state: conservation, first-claim order,
 attempt accounting, and how the per-command steps relate to the per-call specification.
 */
module QueueGuarantees {
  import opened Outcomes
  import opened RedisStore
  import opened QueueProtocol
  import Jobs

  datatype Run = Begin | Go(past: Run, step: Step)

  ghost function End(run: Run): System {
    match run
    case Begin => INITIAL
    case Go(past, step) => Next(End(past), step)
  }

  /** Every enqueued job id is fresh; otherwise any step of any worker may come next. */
  ghost predicate Legal(run: Run) {
    run.Go? ==> Legal(run.past) && Enabled(End(run.past), run.step)
  }

  lemma {:induction false} InvariantAlways(run: Run)
    requires Legal(run)
    ensures Invariant(End(run))
  {
    match run
    case Begin => InvariantHoldsInitially();
    case Go(past, step) =>
      InvariantAlways(past);
      match step
      case Submit(job) => SubmitKeepsInvariant(End(past), job);
      case Work(w, outcome) => WorkKeepsInvariant(End(past), w, outcome);
  }

  // ---- Conservation -------------------------------------------------------------------------------

  datatype Location = Slot(user: UserId, index: nat) | HeldBy(w: WorkerId) | Done(state: JobState)

  ghost predicate At(s: System, job: Job, where: Location) {
    match where
    case Slot(u, i) => i < |s.store.List(u)| && s.store.List(u)[i] == job
    case HeldBy(w) => Hand(s.Pc(w)) == Some(job)
    case Done(state) =>
      state in {Completed, Failed} && job.id in s.store.hashes && s.store.hashes[job.id].state == state
  }

  /** The one place where a known job is. */
  ghost function Whereabouts(s: System, job: Job): (where: Location)
    requires Invariant(s) && Known(s.history, job)
    ensures At(s, job, where)
  {
    assert HashAgrees(s, job);
    match LastPlace(s.history, job.id)
    case InQueue =>
      assert job in s.store.List(job.user);
      var i :| 0 <= i < |s.store.List(job.user)| && s.store.List(job.user)[i] == job;
      Slot(job.user, i)
    case InHand(w) => HeldBy(w)
    case Settled => Done(s.store.hashes[job.id].state)
  }

  ghost predicate OnlyAt(s: System, job: Job, where: Location) {
    At(s, job, where) && forall other :: At(s, job, other) ==> other == where
  }

  /**
   Conservation. Under any interleaving every enqueued job is in exactly one place: one slot of its
   owner's list, one worker's hand, completed, or failed. And nothing but enqueued jobs is anywhere.
   */
  lemma ExactlyOnePlace(run: Run, job: Job)
    requires Legal(run)
    ensures Known(End(run).history, job) ==> exists where :: OnlyAt(End(run), job, where)
    ensures !Known(End(run).history, job) ==> forall where :: At(End(run), job, where) ==> where.Done?
  {
    InvariantAlways(run);
    if Known(End(run).history, job) {
      var where := OnePlace(End(run), job);
    } else {
      StrangersAreNowhere(End(run), job);
    }
  }

  lemma OnePlace(s: System, job: Job) returns (where: Location)
    requires Invariant(s) && Known(s.history, job)
    ensures OnlyAt(s, job, where)
  {
    where := Whereabouts(s, job);
    forall other | At(s, job, other)
      ensures other == where
    {
      OnePlaceOnly(s, job, where, other);
    }
  }

  lemma StrangersAreNowhere(s: System, job: Job)
    requires Invariant(s) && !Known(s.history, job)
    ensures forall where :: At(s, job, where) ==> where.Done?
  {
    forall where | At(s, job, where)
      ensures where.Done?
    {
      assert where.Slot? ==> job in s.store.List(where.user);
    }
  }

  lemma OnePlaceOnly(s: System, job: Job, a: Location, b: Location)
    requires Invariant(s) && Known(s.history, job) && At(s, job, a) && At(s, job, b)
    ensures a == b
  {
    assert HashAgrees(s, job);
    assert a.Slot? ==> job in s.store.List(a.user);
    assert b.Slot? ==> job in s.store.List(b.user);
    if a.Slot? && b.Slot? {
      assert Distinct(s.store.List(a.user));
    }
  }

  // ---- First claims in enqueue order --------------------------------------------------------------

  /**
   Whatever retries happen, a user's jobs are first claimed in the order they were enqueued, and the
   user's list is some retries (claimed once) followed by exactly the submissions not yet claimed.
   */
  lemma FirstClaimsInOrder(run: Run, u: UserId)
    requires Legal(run)
    ensures exists n :: Shaped(End(run).history, u, End(run).store.List(u), n)
    ensures FirstClaims(End(run).history, u) <= Submissions(End(run).history, u)
  {
    InvariantAlways(run);
    var list := End(run).store.List(u);
    assert QueueShaped(End(run).history, u, list);
    var n :| Shaped(End(run).history, u, list, n);
    ClaimsArePrefix(End(run).history, u, list, n);
  }

  lemma ClaimsArePrefix(h: History, u: UserId, list: seq<Job>, n: nat)
    requires Shaped(h, u, list, n)
    ensures FirstClaims(h, u) <= Submissions(h, u)
  {
  }

  // ---- Attempts -----------------------------------------------------------------------------------

  /** A claim that has popped its job but not yet written the new attempt count. */
  ghost predicate CountPending(s: System, id: JobId) {
    exists w :: (s.Pc(w).Popped? || s.Pc(w).Counted?) && s.Pc(w).job.id == id
  }

  /** How far the stored attempts lag behind the claims: by one while a claim is being recorded. */
  ghost function Lag(s: System, id: JobId): nat {
    if CountPending(s, id) then 1 else 0
  }

  /** What the job's hash says about its claims. */
  ghost predicate AttemptsFit(s: System, job: Job) {
    && job.id in s.store.hashes
    && var hash, claims := s.store.hashes[job.id], Claims(s.history, job.id);
    && claims <= 2
    && hash.attempts == Some(claims - Lag(s, job.id))
    && (hash.state == Failed ==> claims == 2)
    && (hash.state == Completed ==> 1 <= claims)
  }

  /**
   The stored attempts count the claims (one behind while a claim is being recorded), no job is claimed
   more than twice, and only a job claimed twice has failed for good.
   */
  lemma AttemptsCountClaims(run: Run, job: Job)
    requires Legal(run) && Known(End(run).history, job)
    ensures AttemptsFit(End(run), job)
  {
    InvariantAlways(run);
    LagIsTheHolders(End(run), job);
    AttemptsByPlace(End(run), job);
  }

  lemma AttemptsByPlace(s: System, job: Job)
    requires HashAgrees(s, job)
    requires CountPending(s, job.id) <==>
               LastPlace(s.history, job.id).InHand?
               && var pc := s.Pc(LastPlace(s.history, job.id).w); pc.Popped? || pc.Counted?
    ensures AttemptsFit(s, job)
  {
    match LastPlace(s.history, job.id)
    case InHand(w) =>
      var pc := s.Pc(w);
    case _ =>
  }

  lemma LagIsTheHolders(s: System, job: Job)
    requires Invariant(s) && Known(s.history, job)
    ensures HashAgrees(s, job)
    ensures CountPending(s, job.id) <==>
              LastPlace(s.history, job.id).InHand?
              && var pc := s.Pc(LastPlace(s.history, job.id).w); pc.Popped? || pc.Counted?
  {
    assert forall w :: Hand(s.Pc(w)).Some? ==>
        Known(s.history, Hand(s.Pc(w)).value) && LastPlace(s.history, Hand(s.Pc(w)).value.id) == InHand(w);
    if LastPlace(s.history, job.id).InHand? {
      assert Hand(s.Pc(LastPlace(s.history, job.id).w)) == Some(job);
    }
  }

  /** Completed and failed are final: no later step of any worker, and no enqueue, touches the job's hash. */
  lemma SettledIsFinal(run: Run, step: Step, job: Job)
    requires Legal(Go(run, step)) && Known(End(run).history, job)
    requires job.id in End(run).store.hashes && End(run).store.hashes[job.id].state in {Completed, Failed}
    ensures job.id in Next(End(run), step).store.hashes
    ensures Next(End(run), step).store.hashes[job.id] == End(run).store.hashes[job.id]
    ensures Claims(Next(End(run), step).history, job.id) == Claims(End(run).history, job.id)
  {
    InvariantAlways(run);
    var s := End(run);
    assert HashAgrees(s, job);
    if step.Work? {
      assert LastPlace(s.history, job.id) == Settled;
      NotTouched(s, step.worker, step.outcome, job);
    }
  }

  lemma NotTouched(s: System, w: WorkerId, outcome: Outcome, job: Job)
    requires Invariant(s) && Known(s.history, job) && LastPlace(s.history, job.id) == Settled
    requires job.id in s.store.hashes
    ensures job.id in WorkerStep(s, w, outcome).store.hashes
    ensures WorkerStep(s, w, outcome).store.hashes[job.id] == s.store.hashes[job.id]
    ensures Claims(WorkerStep(s, w, outcome).history, job.id) == Claims(s.history, job.id)
  {
    SettledIsElsewhere(s, w, job);
    OthersUntouched(s, w, outcome, job.id);
  }

  /** No worker holds a settled job, and none is about to pop it. */
  lemma SettledIsElsewhere(s: System, w: WorkerId, job: Job)
    requires Invariant(s) && Known(s.history, job) && LastPlace(s.history, job.id) == Settled
    ensures Hand(s.Pc(w)).Some? ==> Hand(s.Pc(w)).value.id != job.id
    ensures forall u :: s.store.List(u) != [] ==> s.store.List(u)[0].id != job.id
  {
    if Hand(s.Pc(w)).Some? {
      assert Known(s.history, Hand(s.Pc(w)).value);
    }
    forall u | s.store.List(u) != []
      ensures s.store.List(u)[0].id != job.id
    {
      var list := s.store.List(u);
      assert list[0] in list;
    }
  }

  /** A step about other jobs leaves this job's hash and claims alone. */
  lemma OthersUntouched(s: System, w: WorkerId, outcome: Outcome, id: JobId)
    requires id in s.store.hashes
    requires Hand(s.Pc(w)).Some? ==> Hand(s.Pc(w)).value.id != id
    requires forall u :: s.store.List(u) != [] ==> s.store.List(u)[0].id != id
    ensures id in WorkerStep(s, w, outcome).store.hashes
    ensures WorkerStep(s, w, outcome).store.hashes[id] == s.store.hashes[id]
    ensures Claims(WorkerStep(s, w, outcome).history, id) == Claims(s.history, id)
  {
    if Hand(s.Pc(w)).Some? {
      HeldStepElsewhere(s, w, outcome, id);
    } else {
      ClaimElsewhere(s, w, outcome, id);
    }
  }

  lemma HeldStepElsewhere(s: System, w: WorkerId, outcome: Outcome, id: JobId)
    requires id in s.store.hashes && Hand(s.Pc(w)).Some? && Hand(s.Pc(w)).value.id != id
    ensures id in WorkerStep(s, w, outcome).store.hashes
    ensures WorkerStep(s, w, outcome).store.hashes[id] == s.store.hashes[id]
    ensures Claims(WorkerStep(s, w, outcome).history, id) == Claims(s.history, id)
  {
    if s.Pc(w).Working? || s.Pc(w).Judged? || s.Pc(w).Requeueing? {
      SettlingElsewhere(s, w, outcome, id);
    }
  }

  lemma SettlingElsewhere(s: System, w: WorkerId, outcome: Outcome, id: JobId)
    requires id in s.store.hashes && Hand(s.Pc(w)).Some? && Hand(s.Pc(w)).value.id != id
    requires s.Pc(w).Working? || s.Pc(w).Judged? || s.Pc(w).Requeueing?
    ensures id in WorkerStep(s, w, outcome).store.hashes
    ensures WorkerStep(s, w, outcome).store.hashes[id] == s.store.hashes[id]
    ensures Claims(WorkerStep(s, w, outcome).history, id) == Claims(s.history, id)
  {
  }

  lemma ClaimElsewhere(s: System, w: WorkerId, outcome: Outcome, id: JobId)
    requires id in s.store.hashes && Hand(s.Pc(w)).None?
    requires forall u :: s.store.List(u) != [] ==> s.store.List(u)[0].id != id
    ensures id in WorkerStep(s, w, outcome).store.hashes
    ensures WorkerStep(s, w, outcome).store.hashes[id] == s.store.hashes[id]
    ensures Claims(WorkerStep(s, w, outcome).history, id) == Claims(s.history, id)
  {
  }

  // ---- Where the active set can lose a user -------------------------------------------------------

  /** Every user with a queued job can be found by a claim. */
  ghost predicate Covered(s: System) {
    forall u :: s.store.Backlogged(u) ==> u in s.store.active
  }

  /** The step is a ZREM of a user whose list meanwhile holds a job. */
  ghost predicate RemovesBacklogged(s: System, step: Step) {
    step.Work?
    && match s.Pc(step.worker)
       case Dropping(user, _) => s.store.Backlogged(user)
       case Measured(user, _, remaining) => remaining == 0 && s.store.Backlogged(user)
       case _ => false
  }

  /**
   Between commands the active set can go out of step, and exactly then: a step hides a queued job from
   the claims if and only if it removes a user whose list has been refilled since it was seen empty.
   */
  lemma CoverageLostIff(s: System, step: Step)
    requires Covered(s)
    ensures Covered(Next(s, step)) <==> !RemovesBacklogged(s, step)
  {
    var t := Next(s, step);
    match step
    case Submit(job) => assert forall u :: u != job.user ==> t.store.List(u) == s.store.List(u);
    case Work(w, _) =>
      if s.Pc(w).Scanning? || s.Pc(w).Requeueing? {
        assert forall u :: t.store.Backlogged(u) ==> s.store.Backlogged(u) || u in t.store.active;
      } else {
        assert forall u :: t.store.List(u) == s.store.List(u);
      }
  }

  ghost function Iterate(f: System -> System, s: System, n: nat): System {
    if n == 0 then s else f(Iterate(f, s, n - 1))
  }

  lemma {:induction false} IterateThen(f: System -> System, s: System, n: nat, m: nat)
    ensures Iterate(f, Iterate(f, s, n), m) == Iterate(f, s, n + m)
  {
    if m > 0 {
      IterateThen(f, s, n, m - 1);
    }
  }

  ghost function Solo(w: WorkerId): System -> System {
    (s: System) => WorkerStep(s, w, Succeeds)
  }

  /**
   What brings a user back that no claim can see: exactly its next enqueue, the retry of one of its jobs, or
   another worker that has counted jobs left after a claim of its own and raises the user's score.
   */
  lemma ComesBackIff(s: System, step: Step, u: UserId)
    requires u !in s.store.active
    ensures u in Next(s, step).store.active <==>
              match step
              case Submit(job) => job.user == u
              case Work(w, _) =>
                match s.Pc(w)
                case Requeueing(job) => job.user == u
                case Measured(user, _, remaining) => user == u && remaining > 0
                case _ => false
  {
    if step.Work? {
      var pc := s.Pc(step.worker);
    }
  }

  /** One worker taking `n` steps with nobody in between. */
  ghost function Alone(s: System, w: WorkerId, n: nat): System {
    Iterate(Solo(w), s, n)
  }

  lemma AloneThen(s: System, w: WorkerId, n: nat, m: nat)
    ensures Alone(Alone(s, w, n), w, m) == Alone(s, w, n + m)
  {
    IterateThen(Solo(w), s, n, m);
  }

  lemma AloneNext(s: System, w: WorkerId, n: nat)
    ensures Alone(s, w, 0) == s
    ensures Alone(s, w, n + 1) == WorkerStep(Alone(s, w, n), w, Succeeds)
  {
    assert Solo(w)(Alone(s, w, n)) == WorkerStep(Alone(s, w, n), w, Succeeds);
  }

  /** The worker has finished the call, with the result and the store of the per-call specification. */
  ghost predicate ClaimDone(t: System, w: WorkerId, start: Store) {
    && t.store == Jobs.Claimed(start).0
    && t.Pc(w) == (if Jobs.Claimed(start).1.Some? then Working(Jobs.Claimed(start).1.value) else Idle)
  }

  /**
   A claim nobody interrupts does, command by command, what the per-call specification says: it ends
   idle when that returns None and holding the job it returns otherwise, in the same store.
   */
  lemma UninterruptedClaim(s: System, w: WorkerId) returns (n: nat, t: System)
    requires s.Pc(w) == Idle
    ensures t == Alone(s, w, n) && ClaimDone(t, w, s.store)
  {
    var order := ZRange(s.store.active);
    OneStepAlone(s, w);
    t := WorkerStep(s, w, Succeeds);
    if order == [] {
      ScanAloneEmpty(s, w, order);
      n := 1;
    } else {
      StartOfScan(s, w, order);
      n, t := ScanAlone(t, s.store, w, order, 0);
      AloneThen(s, w, 1, n);
      n := 1 + n;
    }
  }

  /** An enqueue is one step, and does what the per-call specification says. */
  lemma SubmitIsEnqueue(s: System, job: Job)
    ensures Next(s, Submit(job)).store == Jobs.Enqueued(s.store, job)
    ensures forall w :: Next(s, Submit(job)).Pc(w) == s.Pc(w)
  {
  }

  /** `n` steps of one worker whose analysis ends so, with nobody in between. */
  ghost function Along(s: System, w: WorkerId, outcome: Outcome, n: nat): System {
    if n == 0 then s else WorkerStep(Along(s, w, outcome, n - 1), w, outcome)
  }

  /**
   Settling a job that nobody interrupts does, command by command, what the per-call specification of completing or
   failing says, in the same store.
   */
  lemma UninterruptedSettling(s: System, w: WorkerId, outcome: Outcome, job: Job) returns (n: nat)
    requires s.Pc(w) == Working(job)
    ensures 0 < n <= 3 && Along(s, w, outcome, n).Pc(w) == Idle
    ensures forall k :: 0 <= k < n ==> Along(s, w, outcome, k).Pc(w) != Idle
    ensures Along(s, w, outcome, n).store ==
              match outcome
              case Succeeds => Jobs.Finished(s.store, job.id)
              case Raises(code) => Jobs.Failing(s.store, job, code)
  {
    var one := WorkerStep(s, w, outcome);
    var two := WorkerStep(one, w, outcome);
    var three := WorkerStep(two, w, outcome);
    AlongThree(s, w, outcome);
    match outcome {
      case Succeeds =>
        n := 1;
      case Raises(code) =>
        FailingSteps(s, w, code, job, one, two, three);
        n := if Jobs.WillRetry(s.store, job) then 3 else 2;
    }
  }

  lemma FailingSteps(s: System, w: WorkerId, code: string, job: Job, one: System, two: System, three: System)
    requires s.Pc(w) == Working(job) && one == WorkerStep(s, w, Raises(code))
    requires two == WorkerStep(one, w, Raises(code)) && three == WorkerStep(two, w, Raises(code))
    ensures one.Pc(w) == Judged(job, s.store.Attempts(job.id, 1), code) && one.store == s.store
    ensures if Jobs.WillRetry(s.store, job)
            then two.Pc(w) == Requeueing(job) && three.Pc(w) == Idle && three.store == Jobs.Failing(s.store, job, code)
            else two.Pc(w) == Idle && two.store == Jobs.Failing(s.store, job, code)
  {
  }

  lemma AlongThree(s: System, w: WorkerId, outcome: Outcome)
    ensures Along(s, w, outcome, 0) == s && Along(s, w, outcome, 1) == WorkerStep(s, w, outcome)
    ensures Along(s, w, outcome, 2) == WorkerStep(WorkerStep(s, w, outcome), w, outcome)
    ensures Along(s, w, outcome, 3) == WorkerStep(WorkerStep(WorkerStep(s, w, outcome), w, outcome), w, outcome)
  {
    assert Along(s, w, outcome, 1) == WorkerStep(Along(s, w, outcome, 0), w, outcome);
    assert Along(s, w, outcome, 2) == WorkerStep(Along(s, w, outcome, 1), w, outcome);
    assert Along(s, w, outcome, 3) == WorkerStep(Along(s, w, outcome, 2), w, outcome);
  }

  lemma OneStepAlone(s: System, w: WorkerId)
    ensures Alone(s, w, 1) == WorkerStep(s, w, Succeeds)
  {
    AloneNext(s, w, 0);
  }

  lemma StartOfScan(s: System, w: WorkerId, order: seq<UserId>)
    requires s.Pc(w) == Idle && ZRange(s.store.active) == order != []
    ensures var t := WorkerStep(s, w, Succeeds);
            t.Pc(w) == Scanning(order[0..])
            && t.store == s.store.(active := s.store.active - Jobs.Passed(order, 0))
  {
    assert order[0..] == order;
    assert Jobs.Passed(order, 0) == {};
    assert s.store.active - {} == s.store.active;
  }

  lemma ScanAloneEmpty(s: System, w: WorkerId, order: seq<UserId>)
    requires s.Pc(w) == Idle && ZRange(s.store.active) == order == []
    ensures ClaimDone(WorkerStep(s, w, Succeeds), w, s.store)
  {
    Jobs.NobodyToServe(s.store, order);
    assert s.store.active.Keys == {};
  }

  lemma ScanAlone(s: System, start: Store, w: WorkerId, order: seq<UserId>, i: nat) returns (n: nat, t: System)
    requires order == ZRange(start.active) && i <= |order|
    requires s.Pc(w) == Scanning(order[i..])
    requires s.store == start.(active := start.active - Jobs.Passed(order, i))
    requires forall k :: 0 <= k < i ==> !start.Backlogged(order[k])
    ensures t == Alone(s, w, n) && ClaimDone(t, w, start)
    decreases |order| - i
  {
    if i == |order| {
      ScanEnds(s, start, w, order);
      OneStepAlone(s, w);
      n, t := 1, WorkerStep(s, w, Succeeds);
    } else if start.Backlogged(order[i]) {
      ServeTurn(s, start, w, order, i);
      n, t := 5, Alone(s, w, 5);
    } else {
      t := DropTurn(s, start, w, order, i);
      n, t := ScanAlone(t, start, w, order, i + 1);
      AloneThen(s, w, 2, n);
      n := 2 + n;
    }
  }

  lemma ScanEnds(s: System, start: Store, w: WorkerId, order: seq<UserId>)
    requires order == ZRange(start.active)
    requires s.Pc(w) == Scanning([])
    requires s.store == start.(active := start.active - Jobs.Passed(order, |order|))
    requires forall k :: 0 <= k < |order| ==> !start.Backlogged(order[k])
    ensures ClaimDone(WorkerStep(s, w, Succeeds), w, start)
  {
    Jobs.NobodyToServe(start, order);
  }

  lemma DropTurn(s: System, start: Store, w: WorkerId, order: seq<UserId>, i: nat) returns (t: System)
    requires i < |order| && !start.Backlogged(order[i])
    requires s.Pc(w) == Scanning(order[i..])
    requires s.store == start.(active := start.active - Jobs.Passed(order, i))
    ensures t == Alone(s, w, 2) && t.Pc(w) == Scanning(order[i + 1..])
    ensures t.store == start.(active := start.active - Jobs.Passed(order, i + 1))
  {
    assert order[i..][0] == order[i] && order[i..][1..] == order[i + 1..];
    assert s.store.List(order[i]) == start.List(order[i]);
    Jobs.PassedOne(start.active, order, i + 1);
    t := DropAlone(s, w);
  }

  lemma ServeTurn(s: System, start: Store, w: WorkerId, order: seq<UserId>, i: nat)
    requires order == ZRange(start.active) && i < |order| && start.Backlogged(order[i])
    requires s.Pc(w) == Scanning(order[i..])
    requires s.store == start.(active := start.active - Jobs.Passed(order, i))
    requires forall k :: 0 <= k < i ==> !start.Backlogged(order[k])
    ensures ClaimDone(Alone(s, w, 5), w, start)
  {
    Jobs.TurnIsFirstBacklogged(start, order, i);
    assert order[i..][0] == order[i];
    assert s.store.List(order[i]) == start.List(order[i]);
    ServeAlone(s, w);
  }

  lemma DropAlone(s: System, w: WorkerId) returns (t: System)
    requires s.Pc(w).Scanning? && s.Pc(w).order != [] && !s.store.Backlogged(s.Pc(w).order[0])
    ensures t == Alone(s, w, 2)
    ensures t.store == s.store.ZRem(s.Pc(w).order[0]) && t.Pc(w) == Scanning(s.Pc(w).order[1..])
  {
    var one := WorkerStep(s, w, Succeeds);
    AloneNext(s, w, 0);
    AloneNext(s, w, 1);
    assert one.Pc(w) == Dropping(s.Pc(w).order[0], s.Pc(w).order[1..]);
    t := WorkerStep(one, w, Succeeds);
  }

  /** The five commands of a claim that finds a job. */
  lemma ServeAlone(s: System, w: WorkerId)
    requires s.Pc(w).Scanning? && s.Pc(w).order != [] && s.store.Backlogged(s.Pc(w).order[0])
    ensures Alone(s, w, 5).store == Jobs.Served(s.store, s.Pc(w).order[0])
    ensures Alone(s, w, 5).Pc(w) == Working(s.store.List(s.Pc(w).order[0])[0])
  {
    var u := s.Pc(w).order[0];
    var job := s.store.List(u)[0];
    AloneNext(s, w, 0);
    AloneNext(s, w, 1);
    AloneNext(s, w, 2);
    var third := PopAndMark(s, w, u, job);
    AloneNext(s, w, 3);
    AloneNext(s, w, 4);
    MeasureAndRank(third, s.store, w, u, job);
  }

  /** Pop, read the attempts, mark the job running. */
  lemma PopAndMark(s: System, w: WorkerId, u: UserId, job: Job) returns (t: System)
    requires s.Pc(w).Scanning? && s.Pc(w).order != [] && s.Pc(w).order[0] == u
    requires s.store.Backlogged(u) && job == s.store.List(u)[0]
    ensures t == WorkerStep(WorkerStep(WorkerStep(s, w, Succeeds), w, Succeeds), w, Succeeds)
    ensures t.Pc(w) == Marked(u, job)
    ensures t.store == s.store.LPop(u).HSet(job.id, Running, Some(s.store.Attempts(job.id, 0) + 1), None)
  {
    var one := WorkerStep(s, w, Succeeds);
    assert one.Pc(w) == Popped(u, job) && one.store == s.store.LPop(u);
    var two := WorkerStep(one, w, Succeeds);
    assert two.Pc(w) == Counted(u, job, s.store.Attempts(job.id, 0)) && two.store == one.store;
    t := WorkerStep(two, w, Succeeds);
  }

  /** Read the length, then remove the user or raise its score. */
  lemma MeasureAndRank(t: System, start: Store, w: WorkerId, u: UserId, job: Job)
    requires t.Pc(w) == Marked(u, job) && start.Backlogged(u) && job == start.List(u)[0]
    requires t.store == start.LPop(u).HSet(job.id, Running, Some(start.Attempts(job.id, 0) + 1), None)
    ensures var last := WorkerStep(WorkerStep(t, w, Succeeds), w, Succeeds);
            last.store == Jobs.Served(start, u) && last.Pc(w) == Working(job)
  {
    var one := WorkerStep(t, w, Succeeds);
    assert one.Pc(w) == Measured(u, job, |t.store.List(u)|) && one.store == t.store;
  }

  /** A job is queued, every worker is idle, and no claim finds anybody. */
  ghost predicate Stranded(s: System) {
    && (exists u :: s.store.Backlogged(u)) && (forall w :: s.Pc(w) == Idle)
    && s.store.active == map[] && Jobs.Claimed(s.store).1 == None
  }

  /** A reachable interleaving that strands a job. */
  lemma StrandedJob() returns (run: Run)
    ensures Legal(run) && Stranded(End(run))
  {
    var first, second := Job(0, 0, ""), Job(1, 0, "");
    var seen := SeenEmpty(first);
    run := RefillAndRemove(seen, first, second);
  }

  /** The only worker under way is worker 0; these are user 0's jobs and the active users. */
  ghost predicate OnlyWorker0(s: System, list: seq<Job>, pc: Pc, active: Scores) {
    && s.store.List(0) == list && s.store.active == active && s.Pc(0) == pc
    && forall w :: w != 0 ==> s.Pc(w) == Idle
  }

  lemma RefillAndRemove(seen: Run, first: Job, second: Job) returns (run: Run)
    requires Legal(seen) && OnlyKnows(seen, first)
    requires first.user == second.user == 0 && first.id != second.id
    requires OnlyWorker0(End(seen), [], Measured(0, first, 0), map[0 := 0])
    ensures Legal(run) && Stranded(End(run))
  {
    var refilled := Go(seen, Submit(second));
    Refills(End(seen), End(refilled), first, second);
    var removed := Go(refilled, Work(0, Succeeds));
    Removes(End(refilled), End(removed), first, second);
    run := Go(removed, Work(0, Succeeds));
    Finishes(End(removed), End(run), first, second);
  }

  lemma Refills(s: System, t: System, first: Job, second: Job)
    requires t == Next(s, Submit(second)) && second.user == 0
    requires OnlyWorker0(s, [], Measured(0, first, 0), map[0 := 0])
    ensures OnlyWorker0(t, [second], Measured(0, first, 0), map[0 := 0])
  {
    assert forall w :: t.Pc(w) == s.Pc(w);
  }

  lemma Removes(s: System, t: System, first: Job, second: Job)
    requires t == WorkerStep(s, 0, Succeeds) && OnlyWorker0(s, [second], Measured(0, first, 0), map[0 := 0])
    ensures OnlyWorker0(t, [second], Working(first), map[])
  {
    assert forall w :: w != 0 ==> t.Pc(w) == s.Pc(w);
    assert t.store.active == map[];
  }

  lemma Finishes(s: System, t: System, first: Job, second: Job)
    requires t == WorkerStep(s, 0, Succeeds) && OnlyWorker0(s, [second], Working(first), map[])
    ensures OnlyWorker0(t, [second], Idle, map[]) && Stranded(t)
  {
    assert forall w :: w != 0 ==> t.Pc(w) == s.Pc(w);
    assert t.store.lists == s.store.lists;
    assert t.store.Backlogged(0);
  }

  /** Worker 0 has taken user 0's only job and has just read that the list is empty. */
  lemma SeenEmpty(job: Job) returns (run: Run)
    requires job.user == 0
    ensures Legal(run) && OnlyKnows(run, job) && OnlyWorker0(End(run), [], Measured(0, job, 0), map[0 := 0])
  {
    var popped := TakenOnly(job);
    var counted := WorkOn(popped, job);
    var marked := WorkOn(counted, job);
    run := WorkOn(marked, job);
  }

  ghost predicate OnlyKnows(run: Run, job: Job) {
    forall j :: Known(End(run).history, j) ==> j == job
  }

  /** User 0's only job has been enqueued. */
  lemma OneSubmitted(job: Job) returns (run: Run)
    requires job.user == 0
    ensures Legal(run) && OnlyKnows(run, job) && OnlyWorker0(End(run), [job], Idle, map[0 := 0])
  {
    run := Go(Begin, Submit(job));
    assert End(Begin) == INITIAL && forall j :: !Known(INITIAL.history, j);
    assert Enabled(INITIAL, Submit(job));
  }

  /** Worker 0 has popped the only job of user 0. */
  lemma TakenOnly(job: Job) returns (run: Run)
    requires job.user == 0
    ensures Legal(run) && OnlyKnows(run, job) && OnlyWorker0(End(run), [], Popped(0, job), map[0 := 0])
  {
    var first := OneSubmitted(job);
    SingletonRange(End(first).store.active, 0);
    var second := Go(first, Work(0, Succeeds));
    ScanBegins(End(first), End(second));
    run := Go(second, Work(0, Succeeds));
    OnlyJobPopped(End(second), End(run), job);
  }

  lemma ScanBegins(s: System, t: System)
    requires s.Pc(0) == Idle && ZRange(s.store.active) == [0] && t == WorkerStep(s, 0, Succeeds)
    ensures t.Pc(0) == Scanning([0]) && t.store == s.store && t.history == s.history
    ensures forall w :: w != 0 ==> t.Pc(w) == s.Pc(w)
  {
  }

  lemma OnlyJobPopped(s: System, t: System, job: Job)
    requires s.Pc(0) == Scanning([0]) && s.store.List(0) == [job] && t == WorkerStep(s, 0, Succeeds)
    ensures t.Pc(0) == Popped(0, job) && t.store.List(0) == [] && t.store.active == s.store.active
    ensures t.history == QueueProtocol.Then(s.history, Pop(0, job)) && forall w :: w != 0 ==> t.Pc(w) == s.Pc(w)
  {
  }

  /** Where worker 0 is on the way from its pop of the job to the length it reads. */
  predicate OnTheWay(pc: Pc, job: Job) {
    pc == Popped(0, job) || (pc.Counted? && pc.user == 0 && pc.job == job) || pc == Marked(0, job)
  }

  predicate OneFurther(pc: Pc, next: Pc, job: Job) {
    && (pc.Popped? ==> next.Counted? && next.user == 0 && next.job == job)
    && (pc.Counted? ==> next == Marked(0, job))
    && (pc.Marked? ==> next == Measured(0, job, 0))
  }

  /** One more command of worker 0; the list and the active set stay. */
  lemma WorkOn(before: Run, job: Job) returns (run: Run)
    requires Legal(before) && OnlyKnows(before, job) && job.user == 0 && OnTheWay(End(before).Pc(0), job)
    requires OnlyWorker0(End(before), [], End(before).Pc(0), map[0 := 0])
    ensures Legal(run) && OnlyKnows(run, job) && OneFurther(End(before).Pc(0), End(run).Pc(0), job)
    ensures OnlyWorker0(End(run), [], End(run).Pc(0), map[0 := 0])
  {
    run := Go(before, Work(0, Succeeds));
    assert End(run).history == End(before).history;
    assert forall w :: w != 0 ==> End(run).Pc(w) == End(before).Pc(w);
  }

  lemma SingletonRange(active: Scores, u: UserId)
    requires active.Keys == {u}
    ensures ZRange(active) == [u]
  {
    var order := ZRange(active);
    assert u in order;
    forall i | 0 <= i < |order|
      ensures order[i] == u
    {
      assert order[i] in order;
      assert order[i] in active.Keys;
    }
    assert 1 < |order| ==> Before(active, order[0], order[1]);
  }
}
