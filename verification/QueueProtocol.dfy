/**
 The job queue under interleaving: any number of workers, one step per Redis command or pipeline
 (src/upgradepilot/queue/jobs.py, src/upgradepilot/worker.py).

 Each worker carries the program counter of the call it is in and the job in its hand. `History` is a
 history variable: what was enqueued, popped, put back and settled, in order; no step reads it.
 */
module QueueProtocol {
  import opened Outcomes
  import opened RedisStore

  type WorkerId = nat

  datatype Pc =
    | Idle
    | Scanning(order: seq<UserId>)               // users still to try, in rank order
    | Dropping(user: UserId, order: seq<UserId>) // found `user` drained, ZREM pending
    | Popped(user: UserId, job: Job)             // HGET attempts pending
    | Counted(user: UserId, job: Job, attempts: nat) // HSET running pending
    | Marked(user: UserId, job: Job)             // LLEN pending
    | Measured(user: UserId, job: Job, remaining: nat) // ZREM or ZINCRBY pending
    | Working(job: Job)                          // claim returned; the analysis runs
    | Judged(job: Job, attempts: nat, code: string) // fail_job has read the attempts
    | Requeueing(job: Job)                       // LPUSH/ZADD pipeline pending

  function Hand(pc: Pc): Option<Job> {
    match pc
    case Idle | Scanning(_) | Dropping(_, _) => None
    case _ => Some(pc.job)
  }

  datatype Event =
    | Enqueue(job: Job)
    | Pop(w: WorkerId, job: Job)
    | Requeue(w: WorkerId, job: Job)
    | Settle(w: WorkerId, job: Job)

  datatype History = Empty | Then(past: History, event: Event)

  datatype System = System(store: Store, workers: map<WorkerId, Pc>, history: History) {
    function Pc(w: WorkerId): Pc {
      if w in workers then workers[w] else Idle
    }

    function Goto(w: WorkerId, pc: Pc): System {
      this.(workers := workers[w := pc])
    }

    function Log(event: Event): System {
      this.(history := Then(history, event))
    }
  }

  const INITIAL: System := System(Store(map[], map[], map[]), map[], Empty)

  // The outcome matters only to a worker whose analysis ends.
  datatype Step = Submit(job: Job) | Work(worker: WorkerId, outcome: Outcome)

  /** Job ids are fresh UUIDs. */
  ghost predicate Enabled(s: System, step: Step) {
    step.Submit? ==> forall job :: Known(s.history, job) ==> job.id != step.job.id
  }

  /** The next command of worker `w`. */
  function WorkerStep(s: System, w: WorkerId, outcome: Outcome): System {
    var st := s.store;
    match s.Pc(w)
    case Idle =>
      var order := ZRange(st.active);
      s.Goto(w, if order == [] then Idle else Scanning(order))
    case Scanning(order) =>
      if order == [] then s.Goto(w, Idle)
      else if st.List(order[0]) == [] then s.Goto(w, Dropping(order[0], order[1..]))
      else
        var job := st.List(order[0])[0];
        s.(store := st.LPop(order[0])).Goto(w, Popped(order[0], job)).Log(Pop(w, job))
    case Dropping(user, order) =>
      s.(store := st.ZRem(user)).Goto(w, Scanning(order))
    case Popped(user, job) =>
      s.Goto(w, Counted(user, job, st.Attempts(job.id, 0)))
    case Counted(user, job, attempts) =>
      s.(store := st.HSet(job.id, Running, Some(attempts + 1), None)).Goto(w, Marked(user, job))
    case Marked(user, job) =>
      s.Goto(w, Measured(user, job, |st.List(user)|))
    case Measured(user, job, remaining) =>
      s.(store := if remaining == 0 then st.ZRem(user) else st.ZIncr(user)).Goto(w, Working(job))
    case Working(job) =>
      (match outcome
       case Succeeds => s.(store := st.HSet(job.id, Completed, None, None)).Goto(w, Idle).Log(Settle(w, job))
       case Raises(code) => s.Goto(w, Judged(job, st.Attempts(job.id, 1), code)))
    case Judged(job, attempts, code) =>
      if attempts < MAX_ATTEMPTS then
        s.(store := st.HSet(job.id, Queued, None, Some(code))).Goto(w, Requeueing(job))
      else
        s.(store := st.HSet(job.id, Failed, None, Some(code))).Goto(w, Idle).Log(Settle(w, job))
    case Requeueing(job) =>
      s.(store := st.LPush(job).ZAddNx(job.user)).Goto(w, Idle).Log(Requeue(w, job))
  }

  function Next(s: System, step: Step): System {
    match step
    case Submit(job) =>
      s.(store := s.store.RPush(job).ZAddNx(job.user).HSet(job.id, Queued, Some(0), None)).Log(Enqueue(job))
    case Work(w, outcome) => WorkerStep(s, w, outcome)
  }

  // ---- What the history says ---------------------------------------------------------------------

  ghost predicate Known(h: History, job: Job) {
    h.Then? && (h.event == Enqueue(job) || Known(h.past, job))
  }

  /** How often the job was claimed. */
  ghost function Claims(h: History, id: JobId): nat {
    match h
    case Empty => 0
    case Then(past, e) => Claims(past, id) + (if e.Pop? && e.job.id == id then 1 else 0)
  }

  datatype Place = Nowhere | InQueue | InHand(w: WorkerId) | Settled

  /** Where the last event about the job left it. */
  ghost function LastPlace(h: History, id: JobId): Place {
    match h
    case Empty => Nowhere
    case Then(past, e) =>
      if e.job.id != id then LastPlace(past, id)
      else
        match e
        case Enqueue(_) | Requeue(_, _) => InQueue
        case Pop(w, _) => InHand(w)
        case Settle(_, _) => Settled
  }

  /** The jobs of user `u`, in the order they were enqueued. */
  ghost function Submissions(h: History, u: UserId): seq<Job> {
    match h
    case Empty => []
    case Then(past, e) => Submissions(past, u) + (if e.Enqueue? && e.job.user == u then [e.job] else [])
  }

  /** The jobs of user `u`, in the order of their first claim. */
  ghost function FirstClaims(h: History, u: UserId): seq<Job> {
    match h
    case Empty => []
    case Then(past, e) =>
      FirstClaims(past, u) + (if e.Pop? && e.job.user == u && Claims(past, e.job.id) == 0 then [e.job] else [])
  }

  // ---- The invariant -----------------------------------------------------------------------------

  /** Only enqueued jobs are claimed, put back or settled. */
  ghost predicate EventsKnown(h: History) {
    h.Then? ==> EventsKnown(h.past) && (h.event.Enqueue? || Known(h.past, h.event.job))
  }

  /** A job id names one job. */
  ghost predicate DistinctIds(s: System) {
    forall j, k :: Known(s.history, j) && Known(s.history, k) && j.id == k.id ==> j == k
  }

  ghost predicate QueuesAgree(s: System) {
    && (forall u, job :: job in s.store.List(u) <==>
          job.user == u && Known(s.history, job) && LastPlace(s.history, job.id) == InQueue)
    && (forall u :: Distinct(s.store.List(u)))
  }

  ghost predicate HandsAgree(s: System) {
    forall w, job :: Hand(s.Pc(w)) == Some(job) <==>
      Known(s.history, job) && LastPlace(s.history, job.id) == InHand(w)
  }

  /** What the hash of a job says, given where the job is. */
  ghost predicate HashAgrees(s: System, job: Job) {
    && job.id in s.store.hashes
    && var hash := s.store.hashes[job.id];
    && hash.attempts.Some?
    && var claims, attempts := Claims(s.history, job.id), hash.attempts.value;
    match LastPlace(s.history, job.id)
    case Nowhere => false
    case InQueue => hash.state == Queued && attempts == claims && claims < MAX_ATTEMPTS
    case Settled => hash.state in {Completed, Failed} && attempts == claims && 0 < claims <= MAX_ATTEMPTS
                    && (hash.state == Failed ==> claims == MAX_ATTEMPTS)
    case InHand(w) =>
      && 0 < claims <= MAX_ATTEMPTS
      && match s.Pc(w)
         case Popped(_, _) => hash.state == Queued && attempts == claims - 1
         case Counted(_, _, n) => hash.state == Queued && attempts == n == claims - 1
         case Judged(_, n, _) => hash.state == Running && attempts == n == claims
         case Requeueing(_) => hash.state == Queued && attempts == claims && claims < MAX_ATTEMPTS
         case _ => hash.state == Running && attempts == claims
  }

  ghost predicate HashesAgree(s: System) {
    forall job :: Known(s.history, job) ==> HashAgrees(s, job)
  }

  /** The first `n` entries of the list are retries; the rest is the unclaimed end of the submissions. */
  ghost predicate Shaped(h: History, u: UserId, list: seq<Job>, n: nat) {
    && n <= |list|
    && (forall i :: 0 <= i < n ==> Claims(h, list[i].id) == 1)
    && (forall i :: n <= i < |list| ==> Claims(h, list[i].id) == 0)
    && Submissions(h, u) == FirstClaims(h, u) + list[n..]
  }

  ghost predicate QueueShaped(h: History, u: UserId, list: seq<Job>) {
    exists n :: Shaped(h, u, list, n)
  }

  ghost predicate QueuesShaped(s: System) {
    forall u :: QueueShaped(s.history, u, s.store.List(u))
  }

  ghost predicate Invariant(s: System) {
    EventsKnown(s.history) && DistinctIds(s) && QueuesAgree(s) && HandsAgree(s) && HashesAgree(s) && QueuesShaped(s)
  }

  lemma InvariantHoldsInitially()
    ensures Invariant(INITIAL)
  {
    forall u
      ensures QueueShaped(Empty, u, [])
    {
      assert Shaped(Empty, u, [], 0);
    }
  }

  /** A step that logs nothing and leaves every hand and list as it was. */
  ghost predicate Quiet(s: System, t: System, w: WorkerId) {
    && t.history == s.history
    && t.store.lists == s.store.lists
    && (forall v :: v != w ==> t.Pc(v) == s.Pc(v))
    && Hand(t.Pc(w)) == Hand(s.Pc(w))
    && (forall id :: (id in s.store.hashes ==> id in t.store.hashes)
                     && (id in s.store.hashes && (Hand(s.Pc(w)).Some? ==> id != Hand(s.Pc(w)).value.id)
                         ==> t.store.hashes[id] == s.store.hashes[id]))
  }

  lemma QuietStepKeepsInvariant(s: System, t: System, w: WorkerId)
    requires Invariant(s) && Quiet(s, t, w)
    requires Hand(s.Pc(w)).Some? ==> HashAgrees(t, Hand(s.Pc(w)).value)
    ensures Invariant(t)
  {
    assert forall u :: t.store.List(u) == s.store.List(u);
    forall job | Known(t.history, job)
      ensures HashAgrees(t, job)
    {
      assert HashAgrees(s, job);
      if Hand(s.Pc(w)) != Some(job) {
        assert Hand(s.Pc(w)).Some? ==> Known(s.history, Hand(s.Pc(w)).value);
      }
    }
  }

  /** A step that logs an event about one job and touches no other job. */
  ghost predicate Loud(s: System, t: System, e: Event) {
    var was, now := s.store.List(e.job.user), t.store.List(e.job.user);
    && t.history == Then(s.history, e)
    && (forall u :: u != e.job.user ==> t.store.List(u) == s.store.List(u))
    && (forall v :: e.Enqueue? || v != e.w ==> t.Pc(v) == s.Pc(v))
    && (forall id :: id in s.store.hashes ==> id in t.store.hashes)
    && (forall id :: id in s.store.hashes && id != e.job.id ==> t.store.hashes[id] == s.store.hashes[id])
    && match e
       case Enqueue(job) => now == was + [job] && forall j :: Known(s.history, j) ==> j.id != job.id
       case Pop(w, job) => was == [job] + now && Hand(s.Pc(w)) == None && Hand(t.Pc(w)) == Some(job)
       case Requeue(w, job) => now == [job] + was && Hand(s.Pc(w)) == Some(job) && Hand(t.Pc(w)) == None
       case Settle(w, job) => now == was && Hand(s.Pc(w)) == Some(job) && Hand(t.Pc(w)) == None
  }

  lemma {:induction false} UnknownIsUnclaimed(h: History, id: JobId)
    requires EventsKnown(h) && forall job :: Known(h, job) ==> job.id != id
    ensures Claims(h, id) == 0
  {
    match h
    case Empty =>
    case Then(past, e) =>
      assert forall job :: Known(past, job) ==> Known(h, job);
      assert e.Enqueue? ==> Known(h, e.job);
      UnknownIsUnclaimed(past, id);
  }

  /** An event other than an enqueue is about a known job, which is where the event takes it from. */
  lemma EventOrigin(s: System, t: System, e: Event)
    requires Invariant(s) && Loud(s, t, e)
    ensures !e.Enqueue? ==> Known(s.history, e.job)
    ensures e.Pop? ==> LastPlace(s.history, e.job.id) == InQueue
    ensures e.Requeue? || e.Settle? ==> LastPlace(s.history, e.job.id) == InHand(e.w)
    ensures e.Enqueue? ==> Claims(s.history, e.job.id) == 0
    ensures EventsKnown(t.history) && DistinctIds(t)
  {
    if e.Pop? {
      assert s.store.List(e.job.user)[0] == e.job;
      assert e.job in s.store.List(e.job.user);
    } else if e.Enqueue? {
      UnknownIsUnclaimed(s.history, e.job.id);
    }
  }

  lemma MembersStayAgreed(s: System, t: System, e: Event, u: UserId, job: Job)
    requires Invariant(s) && Loud(s, t, e)
    ensures job in t.store.List(u) <==>
              job.user == u && Known(t.history, job) && LastPlace(t.history, job.id) == InQueue
  {
    EventOrigin(s, t, e);
    assert job in s.store.List(u) <==>
      job.user == u && Known(s.history, job) && LastPlace(s.history, job.id) == InQueue;
    if u == e.job.user && e.Pop? {
      PoppedOnce(s.store.List(u), t.store.List(u), e.job, job);
    }
  }

  lemma PoppedOnce(was: seq<Job>, now: seq<Job>, first: Job, job: Job)
    requires was == [first] + now && Distinct(was)
    ensures job in now <==> job in was && job != first
  {
    assert was[0] == first;
    if job in now {
      var i :| 0 <= i < |now| && now[i] == job;
      assert was[i + 1] == job;
    }
  }

  lemma QueuesStayAgreed(s: System, t: System, e: Event)
    requires Invariant(s) && Loud(s, t, e)
    ensures QueuesAgree(t)
  {
    EventOrigin(s, t, e);
    forall u, job
      ensures job in t.store.List(u) <==>
                job.user == u && Known(t.history, job) && LastPlace(t.history, job.id) == InQueue
    {
      MembersStayAgreed(s, t, e, u, job);
    }
    assert e.Requeue? || e.Enqueue? ==> e.job !in s.store.List(e.job.user);
    StillDistinct(s.store.List(e.job.user), t.store.List(e.job.user), e.job);
  }

  lemma StillDistinct(was: seq<Job>, now: seq<Job>, job: Job)
    requires Distinct(was)
    requires now == was || was == [job] + now || (job !in was && (now == was + [job] || now == [job] + was))
    ensures Distinct(now)
  {
    if was == [job] + now {
      assert forall i :: 0 <= i < |now| ==> now[i] == was[i + 1];
    } else if now == [job] + was {
      AddedIsDistinct(was, job);
    } else if now == was + [job] {
      AddedIsDistinct(was, job);
    }
  }

  lemma AddedIsDistinct(list: seq<Job>, job: Job)
    requires Distinct(list) && job !in list
    ensures Distinct([job] + list) && Distinct(list + [job])
  {
  }

  lemma HandsStayAgreed(s: System, t: System, e: Event)
    requires Invariant(s) && Loud(s, t, e)
    ensures HandsAgree(t)
  {
    EventOrigin(s, t, e);
    forall w, job
      ensures Hand(t.Pc(w)) == Some(job) <==> Known(t.history, job) && LastPlace(t.history, job.id) == InHand(w)
    {
      assert Hand(s.Pc(w)) == Some(job) <==> Known(s.history, job) && LastPlace(s.history, job.id) == InHand(w);
    }
  }

  lemma HashesStayAgreed(s: System, t: System, e: Event)
    requires Invariant(s) && Loud(s, t, e) && HashAgrees(t, e.job)
    ensures HashesAgree(t)
  {
    EventOrigin(s, t, e);
    forall job | Known(t.history, job) && job != e.job
      ensures HashAgrees(t, job)
    {
      assert Known(s.history, job) && HashAgrees(s, job);
      match LastPlace(s.history, job.id)
      case InHand(w) => assert Hand(s.Pc(w)) == Some(job);
      case _ =>
    }
  }

  /** The job of an event is in its owner's list only as the head that a pop takes. */
  lemma OnlyPopsAreListed(s: System, t: System, e: Event, u: UserId, i: nat)
    requires Invariant(s) && Loud(s, t, e)
    requires i < |s.store.List(u)| && s.store.List(u)[i].id == e.job.id
    ensures e.Pop? && u == e.job.user && i == 0
  {
    EventOrigin(s, t, e);
    var was := s.store.List(u);
    assert was[i] in was;
    assert was[i] == e.job;
    assert forall j :: 0 < j < |was| ==> was[0] != was[j];
  }

  lemma QueueStaysShaped(s: System, t: System, e: Event, u: UserId)
    requires Invariant(s) && Loud(s, t, e) && HashAgrees(t, e.job)
    ensures QueueShaped(t.history, u, t.store.List(u))
  {
    EventOrigin(s, t, e);
    var was, now := s.store.List(u), t.store.List(u);
    assert QueueShaped(s.history, u, was);
    var n :| Shaped(s.history, u, was, n);
    forall i | 0 <= i < |was| && was[i].id == e.job.id
      ensures e.Pop? && u == e.job.user && i == 0
    {
      OnlyPopsAreListed(s, t, e, u, i);
    }
    if u != e.job.user {
      ShapedElsewhere(s.history, e, u, was, n);
    } else {
      ShapedStep(s.history, e, was, now, n);
    }
  }

  lemma ShapedElsewhere(h: History, e: Event, u: UserId, list: seq<Job>, n: nat)
    requires Shaped(h, u, list, n) && u != e.job.user
    requires forall i :: 0 <= i < |list| ==> list[i].id != e.job.id
    ensures QueueShaped(Then(h, e), u, list)
  {
    assert Shaped(Then(h, e), u, list, n);
  }

  lemma ShapedStep(h: History, e: Event, was: seq<Job>, now: seq<Job>, n: nat)
    requires Shaped(h, e.job.user, was, n)
    requires forall i :: 0 <= i < |was| && was[i].id == e.job.id ==> e.Pop? && i == 0
    requires e.Enqueue? ==> now == was + [e.job] && Claims(h, e.job.id) == 0
    requires e.Pop? ==> was == [e.job] + now
    requires e.Requeue? ==> now == [e.job] + was && Claims(h, e.job.id) == 1
    requires e.Settle? ==> now == was
    ensures QueueShaped(Then(h, e), e.job.user, now)
  {
    match e
    case Pop(_, _) => ShapedPop(h, e, was, now, n);
    case Requeue(_, _) => ShapedRequeue(h, e, was, now, n);
    case Enqueue(_) => ShapedEnqueue(h, e, was, now, n);
    case Settle(_, _) => assert Shaped(Then(h, e), e.job.user, now, n);
  }

  lemma ShapedEnqueue(h: History, e: Event, was: seq<Job>, now: seq<Job>, n: nat)
    requires e.Enqueue? && now == was + [e.job] && Shaped(h, e.job.user, was, n) && Claims(h, e.job.id) == 0
    requires forall i :: 0 <= i < |was| ==> was[i].id != e.job.id
    ensures QueueShaped(Then(h, e), e.job.user, now)
  {
    var u := e.job.user;
    assert Submissions(Then(h, e), u) == Submissions(h, u) + [e.job];
    assert FirstClaims(Then(h, e), u) == FirstClaims(h, u);
    assert now[n..] == was[n..] + [e.job];
    assert FirstClaims(h, u) + (was[n..] + [e.job]) == (FirstClaims(h, u) + was[n..]) + [e.job];
    forall i | 0 <= i < |now|
      ensures Claims(Then(h, e), now[i].id) == if i < n then 1 else 0
    {
      assert i < |was| ==> now[i] == was[i];
    }
    assert Shaped(Then(h, e), u, now, n);
  }

  lemma ShapedRequeue(h: History, e: Event, was: seq<Job>, now: seq<Job>, n: nat)
    requires e.Requeue? && now == [e.job] + was && Shaped(h, e.job.user, was, n) && Claims(h, e.job.id) == 1
    requires forall i :: 0 <= i < |was| ==> was[i].id != e.job.id
    ensures QueueShaped(Then(h, e), e.job.user, now)
  {
    assert now[n + 1..] == was[n..];
    assert forall i :: 0 < i < |now| ==> now[i] == was[i - 1];
    assert Shaped(Then(h, e), e.job.user, now, n + 1);
  }

  lemma ShapedPop(h: History, e: Event, was: seq<Job>, now: seq<Job>, n: nat)
    requires e.Pop? && was == [e.job] + now && Shaped(h, e.job.user, was, n)
    requires forall i :: 0 <= i < |was| && was[i].id == e.job.id ==> i == 0
    ensures QueueShaped(Then(h, e), e.job.user, now)
  {
    assert was[0] == e.job;
    forall i | 0 <= i < |now|
      ensures now[i] == was[i + 1] && now[i].id != e.job.id
    {
      assert now[i] == was[i + 1];
    }
    if n > 0 {
      ShapedPopRetry(h, e, was, now, n);
    } else {
      ShapedPopFirst(h, e, was, now);
    }
  }

  /** A retry is popped: the submissions not yet claimed stay as they were. */
  lemma ShapedPopRetry(h: History, e: Event, was: seq<Job>, now: seq<Job>, n: nat)
    requires e.Pop? && was == [e.job] + now && Shaped(h, e.job.user, was, n) && n > 0
    requires forall i :: 0 <= i < |now| ==> now[i] == was[i + 1] && now[i].id != e.job.id
    ensures QueueShaped(Then(h, e), e.job.user, now)
  {
    var u := e.job.user;
    assert was[0] == e.job && Claims(h, e.job.id) == 1;
    assert now[n - 1..] == was[n..];
    assert FirstClaims(Then(h, e), u) == FirstClaims(h, u);
    assert Submissions(Then(h, e), u) == Submissions(h, u);
    assert Shaped(Then(h, e), u, now, n - 1);
  }

  /** The first submission not yet claimed is popped. */
  lemma ShapedPopFirst(h: History, e: Event, was: seq<Job>, now: seq<Job>)
    requires e.Pop? && was == [e.job] + now && Shaped(h, e.job.user, was, 0)
    requires forall i :: 0 <= i < |now| ==> now[i] == was[i + 1] && now[i].id != e.job.id
    ensures QueueShaped(Then(h, e), e.job.user, now)
  {
    var u := e.job.user;
    assert was[0] == e.job && Claims(h, e.job.id) == 0;
    assert was[0..] == [e.job] + now && now[0..] == now;
    assert FirstClaims(Then(h, e), u) == FirstClaims(h, u) + [e.job];
    assert Submissions(Then(h, e), u) == Submissions(h, u);
    assert Shaped(Then(h, e), u, now, 0);
  }

  lemma LoudStepKeepsInvariant(s: System, t: System, e: Event)
    requires Invariant(s) && Loud(s, t, e) && HashAgrees(t, e.job)
    ensures Invariant(t)
  {
    EventOrigin(s, t, e);
    QueuesStayAgreed(s, t, e);
    HandsStayAgreed(s, t, e);
    HashesStayAgreed(s, t, e);
    forall u
      ensures QueueShaped(t.history, u, t.store.List(u))
    {
      QueueStaysShaped(s, t, e, u);
    }
  }

  lemma SubmitKeepsInvariant(s: System, job: Job)
    requires Invariant(s) && Enabled(s, Submit(job))
    ensures Invariant(Next(s, Submit(job)))
  {
    var t := Next(s, Submit(job));
    UnknownIsUnclaimed(s.history, job.id);
    LoudStepKeepsInvariant(s, t, Enqueue(job));
  }

  lemma ClaimKeepsInvariant(s: System, w: WorkerId, outcome: Outcome)
    requires Invariant(s) && s.Pc(w).Scanning? && s.Pc(w).order != [] && s.store.List(s.Pc(w).order[0]) != []
    ensures Invariant(WorkerStep(s, w, outcome))
  {
    var t := WorkerStep(s, w, outcome);
    var list := s.store.List(s.Pc(w).order[0]);
    var e := Pop(w, list[0]);
    ClaimIsLoud(s, w, outcome, t, list[0]);
    LoudStepKeepsInvariant(s, t, e);
  }

  lemma ClaimIsLoud(s: System, w: WorkerId, outcome: Outcome, t: System, job: Job)
    requires Invariant(s) && s.Pc(w).Scanning? && s.Pc(w).order != [] && s.store.List(s.Pc(w).order[0]) != []
    requires t == WorkerStep(s, w, outcome) && job == s.store.List(s.Pc(w).order[0])[0]
    ensures Loud(s, t, Pop(w, job)) && HashAgrees(t, job)
  {
    var list := s.store.List(s.Pc(w).order[0]);
    assert job in list && HashAgrees(s, job);
    assert list == [job] + list[1..];
  }

  /** A step that settles or requeues logs its event about the job in hand only. */
  lemma ReleaseIsLoud(s: System, w: WorkerId, outcome: Outcome, t: System)
    requires Hand(s.Pc(w)).Some? && t == WorkerStep(s, w, outcome) && t.history != s.history
    requires Hand(s.Pc(w)).value.id in s.store.hashes
    ensures t.history.Then? && t.history.event.job == Hand(s.Pc(w)).value && Loud(s, t, t.history.event)
  {
  }

  lemma ReleaseHash(s: System, w: WorkerId, outcome: Outcome, job: Job)
    requires Hand(s.Pc(w)) == Some(job) && WorkerStep(s, w, outcome).history != s.history
    requires HashAgrees(s, job) && LastPlace(s.history, job.id) == InHand(w)
    ensures HashAgrees(WorkerStep(s, w, outcome), job)
  {
  }

  lemma ReleaseKeepsInvariant(s: System, w: WorkerId, outcome: Outcome)
    requires Invariant(s) && Hand(s.Pc(w)).Some? && WorkerStep(s, w, outcome).history != s.history
    ensures Invariant(WorkerStep(s, w, outcome))
  {
    var job := Hand(s.Pc(w)).value;
    assert Known(s.history, job) && LastPlace(s.history, job.id) == InHand(w) && HashAgrees(s, job);
    ReleaseIsLoud(s, w, outcome, WorkerStep(s, w, outcome));
    ReleaseHash(s, w, outcome, job);
    LoudStepKeepsInvariant(s, WorkerStep(s, w, outcome), WorkerStep(s, w, outcome).history.event);
  }

  lemma QuietWork(s: System, w: WorkerId, outcome: Outcome)
    requires WorkerStep(s, w, outcome).history == s.history
    ensures Quiet(s, WorkerStep(s, w, outcome), w)
  {
    if Hand(s.Pc(w)).Some? {
      QuietHeldWork(s, w, outcome, s.Pc(w));
    }
  }

  lemma QuietHeldWork(s: System, w: WorkerId, outcome: Outcome, pc: Pc)
    requires WorkerStep(s, w, outcome).history == s.history && pc == s.Pc(w) && Hand(pc).Some?
    ensures Quiet(s, WorkerStep(s, w, outcome), w)
  {
    var t := WorkerStep(s, w, outcome);
    assert forall v :: v != w ==> t.Pc(v) == s.Pc(v);
  }

  lemma QuietWorkKeepsHash(s: System, w: WorkerId, outcome: Outcome, job: Job)
    requires Invariant(s) && WorkerStep(s, w, outcome).history == s.history && Hand(s.Pc(w)) == Some(job)
    ensures HashAgrees(WorkerStep(s, w, outcome), job)
  {
    assert Known(s.history, job) && LastPlace(s.history, job.id) == InHand(w);
    assert HashAgrees(s, job);
  }

  lemma WorkKeepsInvariant(s: System, w: WorkerId, outcome: Outcome)
    requires Invariant(s)
    ensures Invariant(WorkerStep(s, w, outcome))
  {
    var t := WorkerStep(s, w, outcome);
    if t.history == s.history {
      QuietWork(s, w, outcome);
      if Hand(s.Pc(w)).Some? {
        QuietWorkKeepsHash(s, w, outcome, Hand(s.Pc(w)).value);
      }
      QuietStepKeepsInvariant(s, t, w);
    } else if Hand(s.Pc(w)).Some? {
      ReleaseKeepsInvariant(s, w, outcome);
    } else {
      ClaimKeepsInvariant(s, w, outcome);
    }
  }
}
