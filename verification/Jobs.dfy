/**
 The per-user fair job queue, one step per function call (src/upgradepilot/queue/jobs.py).

 `JobQueue` runs the source's commands one after another on its fields. Each method is proved against
 a specification of the whole call; what the queue promises is proved about those specifications.
 */
module Jobs {
  import opened Outcomes
  import opened RedisStore

  // ---- Specifications of the four calls ----------------------------------------------------------

  function Enqueued(s: Store, job: Job): Store {
    s.RPush(job).ZAddNx(job.user).HSet(job.id, Queued, Some(0), None)
  }

  ghost predicate AnyoneToServe(s: Store) {
    exists u :: u in s.active && s.Backlogged(u)
  }

  /** The active users that still have a queued job. */
  ghost function Servable(s: Store): set<UserId> {
    set u | u in s.active && s.Backlogged(u)
  }

  /** Whose turn it is: the best ranked active user with a queued job. */
  ghost function Turn(s: Store): (u: UserId)
    requires AnyoneToServe(s)
    ensures u in s.active && s.Backlogged(u)
    ensures forall v :: v in s.active && s.Backlogged(v) && v != u ==> Before(s.active, u, v)
  {
    assert Servable(s) != {} by {
      var w :| w in s.active && s.Backlogged(w);
      assert w in Servable(s);
    }
    SomeoneLeads(s.active, Servable(s));
    var u :| Leads(s.active, Servable(s), u);
    u
  }

  /** Serving `u`: its head job leaves, runs once more, and `u` steps back by one (or leaves when drained). */
  function Served(s: Store, u: UserId): Store
    requires s.Backlogged(u)
  {
    var job := s.List(u)[0];
    var popped := s.LPop(u).HSet(job.id, Running, Some(s.Attempts(job.id, 0) + 1), None);
    if popped.Backlogged(u) then popped.ZIncr(u) else popped.ZRem(u)
  }

  /** The drained users a claim walks past before it finds a job. */
  ghost function Skipped(s: Store, u: UserId): set<UserId>
    requires u in s.active
  {
    set v | v in s.active && v != u && Before(s.active, v, u)
  }

  ghost function Claimed(s: Store): (r: (Store, Option<Job>)) {
    if !AnyoneToServe(s) then (s.(active := map[]), None)
    else
      var u := Turn(s);
      (Served(s.(active := s.active - Skipped(s, u)), u), Some(s.List(u)[0]))
  }

  function Finished(s: Store, id: JobId): Store {
    s.HSet(id, Completed, None, None)
  }

  predicate WillRetry(s: Store, job: Job) {
    s.Attempts(job.id, 1) < MAX_ATTEMPTS
  }

  function Failing(s: Store, job: Job, code: string): Store {
    if WillRetry(s, job) then
      s.HSet(job.id, Queued, None, Some(code)).LPush(job).ZAddNx(job.user)
    else
      s.HSet(job.id, Failed, None, Some(code))
  }

  // ---- The queue object ---------------------------------------------------------------------------

  class JobQueue {
    var lists: map<UserId, seq<Job>>
    var active: Scores
    var hashes: map<JobId, JobHash>

    function State(): Store
      reads this
    {
      Store(lists, active, hashes)
    }

    constructor ()
      ensures State() == Store(map[], map[], map[])
    {
      lists, active, hashes := map[], map[], map[];
    }

    method SetState(s: Store)
      modifies this
      ensures State() == s
    {
      lists, active, hashes := s.lists, s.active, s.hashes;
    }

    method Enqueue(job: Job)
      modifies this
      ensures State() == Enqueued(old(State()), job)
    {
      SetState(State().RPush(job));
      SetState(State().ZAddNx(job.user));
      SetState(State().HSet(job.id, Queued, Some(0), None));
    }

    method ClaimNextJob() returns (r: Option<Job>)
      modifies this
      ensures (State(), r) == Claimed(old(State()))
    {
      ghost var s := State();
      var order := ZRange(active);
      if order == [] {
        NobodyToServe(s, order);
        return None;
      }
      var i := 0;
      while i < |order|
        invariant 0 <= i <= |order| && Walked(s, State(), order, i)
      {
        var u := order[i];
        if State().List(u) == [] {
          WalkOn(s, State(), order, i);
          SetState(State().ZRem(u));
          i := i + 1;
        } else {
          WalkFound(s, State(), order, i);
          var job := Serve(u);
          return Some(job);
        }
      }
      WalkEnds(s, State(), order);
      return None;
    }

    /** The part of a claim after the pop: count the attempt and move the user back, or out. */
    method Serve(u: UserId) returns (job: Job)
      requires State().Backlogged(u)
      modifies this
      ensures State() == Served(old(State()), u)
      ensures job == old(State()).List(u)[0]
    {
      job := State().List(u)[0];
      SetState(State().LPop(u));
      var attempts := State().Attempts(job.id, 0) + 1;
      SetState(State().HSet(job.id, Running, Some(attempts), None));
      var remaining := |State().List(u)|;
      if remaining == 0 {
        SetState(State().ZRem(u));
      } else {
        SetState(State().ZIncr(u));
      }
    }

    method CompleteJob(id: JobId)
      modifies this
      ensures State() == Finished(old(State()), id)
    {
      SetState(State().HSet(id, Completed, None, None));
    }

    method FailJob(job: Job, code: string) returns (retried: bool)
      modifies this
      ensures State() == Failing(old(State()), job, code)
      ensures retried == WillRetry(old(State()), job)
    {
      var attempts := State().Attempts(job.id, 1);
      if attempts < MAX_ATTEMPTS {
        SetState(State().HSet(job.id, Queued, None, Some(code)));
        SetState(State().LPush(job));
        SetState(State().ZAddNx(job.user));
        return true;
      }
      SetState(State().HSet(job.id, Failed, None, Some(code)));
      return false;
    }
  }

  ghost function Passed(order: seq<UserId>, i: nat): set<UserId>
    requires i <= |order|
  {
    set k | 0 <= k < i :: order[k]
  }

  lemma PassedOne(active: Scores, order: seq<UserId>, i: nat)
    requires 0 < i <= |order|
    ensures active - Passed(order, i) == active - Passed(order, i - 1) - {order[i - 1]}
  {
    assert Passed(order, i) == Passed(order, i - 1) + {order[i - 1]};
  }

  lemma NobodyToServe(s: Store, order: seq<UserId>)
    requires order == ZRange(s.active)
    requires forall k :: 0 <= k < |order| ==> !s.Backlogged(order[k])
    ensures !AnyoneToServe(s)
    ensures s.active - Passed(order, |order|) == map[]
  {
    forall u | u in s.active
      ensures u in Passed(order, |order|) && !s.Backlogged(u)
    {
      assert u in order;
    }
  }

  lemma RankOrder(active: Scores, order: seq<UserId>, i: nat, j: nat)
    requires order == ZRange(active) && i < |order| && j < |order|
    ensures i < j ==> order[i] in active && order[j] in active && Before(active, order[i], order[j])
  {
    assert order[i] in order && order[j] in order;
  }

  /** Walking the ranking and stopping at the first backlogged user finds `Turn`, having skipped `Skipped`. */
  lemma TurnIsFirstBacklogged(s: Store, order: seq<UserId>, i: nat)
    requires i < |order| && order == ZRange(s.active)
    requires s.Backlogged(order[i])
    requires forall k :: 0 <= k < i ==> !s.Backlogged(order[k])
    ensures AnyoneToServe(s) && order[i] == Turn(s)
    ensures Skipped(s, order[i]) == Passed(order, i)
  {
    var u := order[i];
    assert u in order;
    var t := Turn(s);
    assert t in order;
    var j :| 0 <= j < |order| && order[j] == t;
    RankOrder(s.active, order, i, j);
    forall v | v in Skipped(s, u)
      ensures v in Passed(order, i)
    {
      assert v in order;
      var k :| 0 <= k < |order| && order[k] == v;
      RankOrder(s.active, order, i, k);
    }
    forall v | v in Passed(order, i)
      ensures v in Skipped(s, u)
    {
      assert v in order;
    }
  }

  /** The first `i` users of the ranking were found drained and have been dropped. */
  ghost predicate Walked(s: Store, t: Store, order: seq<UserId>, i: nat) {
    && order == ZRange(s.active) && i <= |order|
    && (forall k :: 0 <= k < i ==> !s.Backlogged(order[k]))
    && t == s.(active := s.active - Passed(order, i))
  }

  lemma WalkOn(s: Store, t: Store, order: seq<UserId>, i: nat)
    requires Walked(s, t, order, i) && i < |order| && !t.Backlogged(order[i])
    ensures Walked(s, t.ZRem(order[i]), order, i + 1)
  {
    PassedOne(s.active, order, i + 1);
    assert s.List(order[i]) == t.List(order[i]);
  }

  lemma WalkFound(s: Store, t: Store, order: seq<UserId>, i: nat)
    requires Walked(s, t, order, i) && i < |order| && t.Backlogged(order[i])
    ensures Claimed(s) == (Served(t, order[i]), Some(t.List(order[i])[0]))
  {
    assert s.List(order[i]) == t.List(order[i]);
    TurnIsFirstBacklogged(s, order, i);
  }

  lemma WalkEnds(s: Store, t: Store, order: seq<UserId>)
    requires Walked(s, t, order, |order|)
    ensures Claimed(s) == (t, None)
  {
    NobodyToServe(s, order);
  }

  // ---- No stranded job ----------------------------------------------------------------------------

  /** The active set is exactly the set of users with a queued job, and every job sits in its owner's list. */
  ghost predicate Synced(s: Store) {
    && (forall u :: u in s.active <==> s.Backlogged(u))
    && (forall u, job :: job in s.List(u) ==> job.user == u)
  }

  /** One function call, atomically. */
  datatype Call =
    | EnqueueCall(job: Job)
    | ClaimCall
    | CompleteCall(id: JobId)
    | FailCall(failed: Job, code: string)

  ghost function After(s: Store, c: Call): Store {
    match c
    case EnqueueCall(job) => Enqueued(s, job)
    case ClaimCall => Claimed(s).0
    case CompleteCall(id) => Finished(s, id)
    case FailCall(job, code) => Failing(s, job, code)
  }

  lemma SyncedIsKept(s: Store, c: Call)
    requires Synced(s)
    ensures Synced(After(s, c))
  {
    match c
    case EnqueueCall(job) => PushKeepsSynced(s, After(s, c), job);
    case ClaimCall => ClaimKeepsSynced(s);
    case CompleteCall(id) => assert forall u :: After(s, c).List(u) == s.List(u);
    case FailCall(job, code) =>
      if WillRetry(s, job) {
        PushKeepsSynced(s, After(s, c), job);
      } else {
        assert forall u :: After(s, c).List(u) == s.List(u);
      }
  }

  lemma PushKeepsSynced(s: Store, t: Store, job: Job)
    requires Synced(s)
    requires t.lists == s.RPush(job).lists || t.lists == s.LPush(job).lists
    requires t.active == s.ZAddNx(job.user).active
    ensures Synced(t)
  {
    forall u, j | j in t.List(u)
      ensures j.user == u
    {
      if u == job.user {
        assert j == job || j in s.List(u);
      } else {
        assert t.List(u) == s.List(u);
      }
    }
  }

  lemma ClaimKeepsSynced(s: Store)
    requires Synced(s)
    ensures Synced(Claimed(s).0)
  {
    ClaimServesTheMinimum(s);
    if Claimed(s).1.Some? {
      var u := Claimed(s).1.value.user;
      var t := Claimed(s).0;
      assert t.lists == s.LPop(u).lists;
      forall v, j | j in t.List(v)
        ensures j.user == v
      {
        assert j in s.List(v);
      }
    }
  }

  /**
   With the active set in step, a claim returns None exactly when nothing is queued for anyone;
   otherwise it serves the head of the least (score, user) list and skips nobody.
   */
  lemma ClaimServesTheMinimum(s: Store)
    requires Synced(s)
    ensures Claimed(s).1.None? <==> forall u :: s.List(u) == []
    ensures Claimed(s).1.None? ==> Claimed(s).0 == s
    ensures Claimed(s).1.Some? ==>
              var job := Claimed(s).1.value;
              && job.user in s.active && s.List(job.user) != [] && job == s.List(job.user)[0]
              && (forall v :: v in s.active && v != job.user ==> Before(s.active, job.user, v))
              && Claimed(s).0 == Served(s, job.user)
  {
    if AnyoneToServe(s) {
      var u := Turn(s);
      assert s.List(u)[0] in s.List(u);
      assert Skipped(s, u) == {};
      assert s.active - {} == s.active;
    } else {
      assert forall u :: u !in s.active;
      assert s.active.Keys == {};
      forall u
        ensures s.List(u) == []
      {
        assert u !in s.active;
      }
    }
  }

  // ---- What the calls mean together -----------------------------------------------------------------

  /** The store after `u` has been served `n` times. */
  function ServedTimes(s: Store, u: UserId, n: nat): Store
    requires n <= |s.List(u)|
    ensures ServedTimes(s, u, n).List(u) == s.List(u)[n..]
  {
    if n == 0 then s else Served(ServedTimes(s, u, n - 1), u)
  }

  ghost predicate SameForOthers(s: Store, t: Store, u: UserId) {
    forall v :: v != u ==> t.List(v) == s.List(v) && (v in t.active <==> v in s.active)
                           && (v in s.active ==> t.active[v] == s.active[v])
  }

  /** No hash but that of `id` differs, and that one is there. */
  ghost predicate SameHashesBut(s: Store, t: Store, id: JobId) {
    t.hashes.Keys == s.hashes.Keys + {id} && forall other :: other in s.hashes && other != id ==> t.hashes[other] == s.hashes[other]
  }

  lemma ServedOne(s: Store, u: UserId, t: Store)
    requires s.Backlogged(u) && u in s.active && t == Served(s, u)
    ensures t.List(u) == s.List(u)[1..] && SameForOthers(s, t, u) && SameHashesBut(s, t, s.List(u)[0].id)
    ensures if |s.List(u)| > 1 then u in t.active && t.active[u] == s.active[u] + 1 else u !in t.active
    ensures t.hashes[s.List(u)[0].id].state == Running
    ensures t.hashes[s.List(u)[0].id].attempts == Some(s.Attempts(s.List(u)[0].id, 0) + 1)
  {
  }

  /** The first `n` jobs have been served, and nobody else has noticed. */
  ghost predicate ServedPrefix(s: Store, t: Store, u: UserId, n: nat)
    requires u in s.active && n <= |s.List(u)|
  {
    && t.List(u) == s.List(u)[n..] && SameForOthers(s, t, u)
    && (n < |s.List(u)| ==> u in t.active && t.active[u] == s.active[u] + n)
    && (0 < n == |s.List(u)| ==> u !in t.active)
    && forall id :: (forall i :: 0 <= i < n ==> s.List(u)[i].id != id) ==>
         (id in t.hashes <==> id in s.hashes) && (id in s.hashes ==> t.hashes[id] == s.hashes[id])
  }

  lemma ServedNext(s: Store, mid: Store, t: Store, u: UserId, n: nat)
    requires u in s.active && n < |s.List(u)| && ServedPrefix(s, mid, u, n) && mid.Backlogged(u) && t == Served(mid, u)
    ensures ServedPrefix(s, t, u, n + 1)
  {
    ServedOne(mid, u, t);
    assert mid.List(u)[0] == s.List(u)[n] && mid.List(u)[1..] == s.List(u)[n + 1..];
    forall id | forall i :: 0 <= i < n + 1 ==> s.List(u)[i].id != id
      ensures (id in t.hashes <==> id in s.hashes) && (id in s.hashes ==> t.hashes[id] == s.hashes[id])
    {
      assert s.List(u)[n].id != id;
    }
  }

  /**
   A user's jobs are served in order, and serving them touches nobody else: after `n` services the first
   `n` jobs are gone, the user's score has risen by `n` or the user has left with its last job, and only
   the hashes of those `n` jobs have changed.
   */
  lemma {:induction false} ServedInOrder(s: Store, u: UserId, n: nat)
    requires u in s.active && n <= |s.List(u)|
    ensures ServedPrefix(s, ServedTimes(s, u, n), u, n)
  {
    if n > 0 {
      ServedInOrder(s, u, n - 1);
      ServedNext(s, ServedTimes(s, u, n - 1), ServedTimes(s, u, n), u, n - 1);
    }
  }

  /**
   A job enqueued waits for exactly the jobs its user has queued before it: once these are served it is the
   head of the list. Until then no other user's list or score has changed, and an active user keeps its score.
   */
  lemma EnqueuedWaitsItsTurn(s: Store, job: Job)
    ensures var t := Enqueued(s, job);
            && job.user in t.active && t.active[job.user] == (if job.user in s.active then s.active[job.user] else 0)
            && |t.List(job.user)| == |s.List(job.user)| + 1
            && ServedTimes(t, job.user, |s.List(job.user)|).List(job.user) == [job]
            && SameForOthers(s, t, job.user)
            && SameForOthers(s, ServedTimes(t, job.user, |s.List(job.user)|), job.user)
  {
    var t := Enqueued(s, job);
    assert t.List(job.user) == s.List(job.user) + [job];
    ServedInOrder(t, job.user, |s.List(job.user)|);
  }

  /** What a failure does to a job whose attempts are counted. */
  lemma FailingOne(s: Store, job: Job, code: string, t: Store, attempts: nat)
    requires t == Failing(s, job, code) && job.id in s.hashes && s.hashes[job.id].attempts == Some(attempts)
    ensures t.List(job.user) == (if attempts < MAX_ATTEMPTS then [job] else []) + s.List(job.user)
    ensures (forall u :: u != job.user ==> t.List(u) == s.List(u)) && SameHashesBut(s, t, job.id)
    ensures t.hashes[job.id] == JobHash(if attempts < MAX_ATTEMPTS then Queued else Failed, Some(attempts), Some(code))
  {
    assert [] + s.List(job.user) == s.List(job.user);
  }

  /**
   A retry undoes a claim: when a claimed job fails with one of its two attempts left, every list is as it was before the
   claim, with the job back at the head, and only its hash tells: queued again, one attempt spent. When no
   attempt is left the job is in its list no more, and failed.
   */
  lemma RetryUndoesClaim(s: Store, job: Job, code: string)
    requires Synced(s) && Claimed(s).1 == Some(job)
    ensures var t, attempts := Failing(Claimed(s).0, job, code), s.Attempts(job.id, 0) + 1;
            && (if attempts < 2 then t.List(job.user) == s.List(job.user)
                else s.List(job.user) == [job] + t.List(job.user))
            && (forall u :: u != job.user ==> t.List(u) == s.List(u)) && SameHashesBut(s, t, job.id)
            && t.hashes[job.id] == JobHash(if attempts < 2 then Queued else Failed, Some(attempts), Some(code))
  {
    ClaimServesTheMinimum(s);
    var mid := Claimed(s).0;
    ServedOne(s, job.user, mid);
    FailingOne(mid, job, code, Failing(mid, job, code), s.Attempts(job.id, 0) + 1);
    HeadAndTail(s.List(job.user), job);
    assert [] + mid.List(job.user) == mid.List(job.user);
  }

  /** The error code of an earlier attempt stays on record when the job is claimed again and completed. */
  lemma ErrorCodeStays(s: Store, u: UserId, job: Job)
    requires s.Backlogged(u) && s.List(u)[0] == job
    ensures var t := Finished(Served(s, u), job.id);
            job.id in t.hashes && t.hashes[job.id].errorCode == if job.id in s.hashes then s.hashes[job.id].errorCode else None
  {
    var popped := s.LPop(u).HSet(job.id, Running, Some(s.Attempts(job.id, 0) + 1), None);
    assert Served(s, u).hashes == popped.hashes;
  }

  lemma FinishedOne(s: Store, id: JobId, t: Store)
    requires t == Finished(s, id) && id in s.hashes
    ensures t.lists == s.lists && SameHashesBut(s, t, id)
    ensures t.hashes[id].state == Completed && t.hashes[id].attempts == s.hashes[id].attempts
  {
  }

  lemma HeadAndTail(list: seq<Job>, job: Job)
    requires list != [] && list[0] == job
    ensures list == [job] + list[1..]
  {
  }

  /** A claim and a completion together take the job off its list and change no other list or hash. */
  lemma ClaimThenComplete(s: Store, job: Job)
    requires Synced(s) && Claimed(s).1 == Some(job)
    ensures var t := Finished(Claimed(s).0, job.id);
            && s.List(job.user) == [job] + t.List(job.user) && (forall u :: u != job.user ==> t.List(u) == s.List(u))
            && SameHashesBut(s, t, job.id)
            && t.hashes[job.id].state == Completed && t.hashes[job.id].attempts == Some(s.Attempts(job.id, 0) + 1)
  {
    ClaimServesTheMinimum(s);
    var mid := Claimed(s).0;
    ServedOne(s, job.user, mid);
    FinishedOne(mid, job.id, Finished(mid, job.id));
    HeadAndTail(s.List(job.user), job);
    assert forall u :: Finished(mid, job.id).List(u) == mid.List(u);
  }

  lemma HSetsCommute(s: Store, a: JobId, x: JobState, b: JobId, y: JobState, code: string)
    requires a != b
    ensures s.HSet(a, x, None, Some(code)).HSet(b, y, None, None).hashes
            == s.HSet(b, y, None, None).HSet(a, x, None, Some(code)).hashes
  {
  }

  /** Workers settling different jobs do not get in each other's way: either order leaves the same store. */
  lemma SettlingCommutes(s: Store, done: JobId, failed: Job, code: string)
    requires done != failed.id
    ensures Finished(Failing(s, failed, code), done) == Failing(Finished(s, done), failed, code)
  {
    assert WillRetry(s, failed) == WillRetry(Finished(s, done), failed);
    HSetsCommute(s, failed.id, if WillRetry(s, failed) then Queued else Failed, done, Completed, code);
  }
}
