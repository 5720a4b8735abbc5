/**
 The part of Redis the job queue uses: one list per user, the scored set of active users and one
 hash per job. Each member below is one Redis command on the value of that store.
 */
module RedisStore {
  import opened Outcomes

  // Identifiers are UUIDs; only their equality and, for users, their string order matter.
  type UserId = nat
  type JobId = nat

  datatype Job = Job(id: JobId, user: UserId, payload: string)

  datatype JobState = Queued | Running | Completed | Failed

  // A hash written by `complete_job` alone has no attempts field.
  datatype JobHash = JobHash(state: JobState, attempts: Option<nat>, errorCode: Option<string>)

  // How the analysis of a claimed job ends: normally, or with an exception.
  datatype Outcome = Succeeds | Raises(code: string)

  const MAX_ATTEMPTS: nat := 2

  /** No job is listed twice. */
  ghost predicate Distinct(list: seq<Job>) {
    forall i, j :: 0 <= i < j < |list| ==> list[i] != list[j]
  }

  type Scores = map<UserId, nat>

  /** The order of a Redis sorted set: by score, ties by member. */
  predicate Before(active: Scores, u: UserId, v: UserId)
    requires u in active && v in active
  {
    active[u] < active[v] || (active[u] == active[v] && u < v)
  }

  predicate Leads(active: Scores, among: set<UserId>, u: UserId)
    requires among <= active.Keys
  {
    u in among && forall v :: v in among && v != u ==> Before(active, u, v)
  }

  lemma {:induction false} SomeoneLeads(active: Scores, among: set<UserId>)
    requires among <= active.Keys && among != {}
    ensures exists u :: Leads(active, among, u)
    decreases |among|
  {
    var u :| u in among;
    if among == {u} {
      assert Leads(active, among, u);
    } else {
      var others := among - {u};
      assert others != {};
      SomeoneLeads(active, others);
      var w :| Leads(active, others, w);
      var best := if Before(active, u, w) then u else w;
      forall v | v in among && v != best
        ensures Before(active, best, v)
      {
        assert v == u || v in others;
      }
      assert Leads(active, among, best);
    }
  }

  /** The members of `among` in rank order. */
  function Ranking(active: Scores, among: set<UserId>): (order: seq<UserId>)
    requires among <= active.Keys
    ensures forall u :: u in order <==> u in among
    ensures forall i, j :: 0 <= i < j < |order| ==> Before(active, order[i], order[j])
    decreases |among|
  {
    if among == {} then []
    else
      SomeoneLeads(active, among);
      var u :| u in among && Leads(active, among, u);
      var rest := Ranking(active, among - {u});
      assert forall j :: 0 <= j < |rest| ==> rest[j] in among && rest[j] != u;
      [u] + rest
  }

  /** ZRANGE 0 -1: every member once, in rank order. */
  function ZRange(active: Scores): (order: seq<UserId>)
    ensures forall u :: u in order <==> u in active
    ensures forall i, j :: 0 <= i < j < |order| ==> Before(active, order[i], order[j])
  {
    Ranking(active, active.Keys)
  }

  datatype Store = Store(lists: map<UserId, seq<Job>>, active: Scores, hashes: map<JobId, JobHash>) {

    /** A list that does not exist reads as the empty list. */
    function List(u: UserId): seq<Job> {
      if u in lists then lists[u] else []
    }

    function RPush(job: Job): Store {
      this.(lists := lists[job.user := List(job.user) + [job]])
    }

    function LPush(job: Job): Store {
      this.(lists := lists[job.user := [job] + List(job.user)])
    }

    function LPop(u: UserId): Store
      requires List(u) != []
    {
      this.(lists := lists[u := List(u)[1..]])
    }

    /** ZADD NX with score 0. */
    function ZAddNx(u: UserId): Store {
      if u in active then this else this.(active := active[u := 0])
    }

    function ZRem(u: UserId): Store {
      this.(active := active - {u})
    }

    /** ZINCRBY 1; a missing member starts at 0. */
    function ZIncr(u: UserId): Store {
      this.(active := active[u := (if u in active then active[u] else 0) + 1])
    }

    /** The attempts field, with the default the reader supplies for a missing one. */
    function Attempts(id: JobId, default: nat): nat {
      if id in hashes && hashes[id].attempts.Some? then hashes[id].attempts.value else default
    }

    function HSet(id: JobId, state: JobState, attempts: Option<nat>, errorCode: Option<string>): Store {
      var was := if id in hashes then hashes[id] else JobHash(state, None, None);
      this.(hashes := hashes[id := JobHash(state,
                                           if attempts.Some? then attempts else was.attempts,
                                           if errorCode.Some? then errorCode else was.errorCode)])
    }

    /** The users with at least one queued job. */
    predicate Backlogged(u: UserId) {
      List(u) != []
    }
  }
}
