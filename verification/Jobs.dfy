/**
 The durable job collection. Every server call is one atomic guarded update of
 a map from job id to record; `Subject` is the record an update's filter (and
 sort) selects, `Update` what it writes, and `StoreStep` the two together.
 */
module Jobs {
  import opened Wrappers
  import opened VTime
  import opened Duration

  type JobId = string
  type ClaimId = string

  datatype Liveness = Pending | Resolved

  datatype Job = Job(
    tenant: string,
    partition: string,
    cost: int,
    vstamp: int,
    liveness: Liveness,
    resolution: string,
    claimId: ClaimId,
    visibleAt: int,
    attempts: nat,
    resolvedAt: Option<int>)

  type JobMap = map<JobId, Job>

  const DEFAULT_PARTITION := "default"
  const CANCELED := "canceled"

  function DefaultPartition(partition: string): string {
    if partition == "" then DEFAULT_PARTITION else partition
  }

  /** The record enqueue inserts. */
  function NewJob(tenant: string, partition: string, cost: int, vstamp: int, visibleAt: int): Job {
    Job(tenant, partition, cost, vstamp, Pending, "", "", visibleAt, 0, None)
  }

  // ----- the dispatch order -----

  /** Binary order of ids, the default collation of the `_id` tie-break. */
  predicate IdBefore(a: JobId, b: JobId) {
    if b == "" then false
    else if a == "" then true
    else a[0] < b[0] || (a[0] == b[0] && IdBefore(a[1..], b[1..]))
  }

  lemma {:induction false} IdBeforeTrichotomy(a: JobId, b: JobId)
    ensures a == b || IdBefore(a, b) || IdBefore(b, a)
    ensures !(IdBefore(a, b) && IdBefore(b, a)) && (a == b ==> !IdBefore(a, b))
  {
    if a != "" && b != "" {
      IdBeforeTrichotomy(a[1..], b[1..]);
      if a[0] == b[0] && a[1..] == b[1..] {
        assert a == [a[0]] + a[1..] && b == [b[0]] + b[1..];
      }
    }
  }

  lemma {:induction false} IdBeforeTransitive(a: JobId, b: JobId, c: JobId)
    requires IdBefore(a, b) && IdBefore(b, c)
    ensures IdBefore(a, c)
  {
    if a != "" && a[0] == b[0] && b[0] == c[0] {
      IdBeforeTransitive(a[1..], b[1..], c[1..]);
    }
  }

  /** The claim sort: lowest (vstamp, _id) first. */
  predicate Precedes(jobs: JobMap, a: JobId, b: JobId)
    requires a in jobs && b in jobs
  {
    jobs[a].vstamp < jobs[b].vstamp || (jobs[a].vstamp == jobs[b].vstamp && IdBefore(a, b))
  }

  lemma PrecedesIsStrictTotal(jobs: JobMap, a: JobId, b: JobId)
    requires a in jobs && b in jobs
    ensures a == b || Precedes(jobs, a, b) || Precedes(jobs, b, a)
    ensures !(Precedes(jobs, a, b) && Precedes(jobs, b, a)) && !Precedes(jobs, a, a)
  {
    IdBeforeTrichotomy(a, b);
    IdBeforeTrichotomy(a, a);
  }

  lemma PrecedesTransitive(jobs: JobMap, a: JobId, b: JobId, c: JobId)
    requires a in jobs && b in jobs && c in jobs
    requires Precedes(jobs, a, b) && Precedes(jobs, b, c)
    ensures Precedes(jobs, a, c)
  {
    if jobs[a].vstamp == jobs[c].vstamp { IdBeforeTransitive(a, b, c); }
  }

  /** The claim filter: a pending job of the partition whose visibility time has passed in server time. */
  predicate Visible(jobs: JobMap, id: JobId, partition: string, now: int) {
    && id in jobs
    && jobs[id].partition == partition
    && jobs[id].liveness == Pending
    && jobs[id].visibleAt <= now
  }

  function VisibleSet(jobs: JobMap, partition: string, now: int): set<JobId> {
    set k <- jobs | Visible(jobs, k, partition, now)
  }

  /** The record of a pool that the claim sort puts first. */
  predicate IsFirst(jobs: JobMap, pool: set<JobId>, id: JobId)
    requires pool <= jobs.Keys
  {
    id in pool && forall k <- pool :: k != id ==> Precedes(jobs, id, k)
  }

  lemma FirstUnique(jobs: JobMap, pool: set<JobId>, a: JobId, b: JobId)
    requires pool <= jobs.Keys && IsFirst(jobs, pool, a) && IsFirst(jobs, pool, b)
    ensures a == b
  {
    PrecedesIsStrictTotal(jobs, a, b);
  }

  lemma {:induction false} FirstExists(jobs: JobMap, pool: set<JobId>) returns (id: JobId)
    requires pool != {} && pool <= jobs.Keys
    ensures IsFirst(jobs, pool, id)
    decreases |pool|
  {
    var x :| x in pool;
    var rest := pool - {x};
    if rest == {} {
      id := x;
      assert forall k <- pool :: k == x || k in rest;
    } else {
      var y := FirstExists(jobs, rest);
      PrecedesIsStrictTotal(jobs, x, y);
      id := if Precedes(jobs, x, y) then x else y;
      forall k | k in pool && k != id ensures Precedes(jobs, id, k) {
        if k != x && k != y && id == x { PrecedesTransitive(jobs, x, y, k); }
      }
    }
  }

  /** The record a claim takes: the first of the visible set, if there is one. */
  ghost function Target(jobs: JobMap, partition: string, now: int): (r: Option<JobId>)
    ensures r.Some? ==> IsFirst(jobs, VisibleSet(jobs, partition, now), r.value)
    ensures r.None? <==> VisibleSet(jobs, partition, now) == {}
  {
    var pool := VisibleSet(jobs, partition, now);
    if id :| IsFirst(jobs, pool, id) then Some(id)
    else
      assert pool == {} by {
        if pool != {} { var id := FirstExists(jobs, pool); }
      }
      None
  }

  // ----- guarded updates -----

  /** Durations are nanoseconds, server times milliseconds. */
  datatype StoreEvent =
    | Claim(partition: string, now: int, lease: int64, claimId: ClaimId)
    | Heartbeat(id: JobId, claimId: ClaimId, now: int, extend: int64)
    | Release(id: JobId, claimId: ClaimId, now: int, delay: int64)
    | Complete(id: JobId, claimId: ClaimId, now: int, resolution: string)
    | Cancel(id: JobId, now: int)
    | Expire(id: JobId)

  /** The fence guard: the record still carries the claim and is pending. */
  predicate Holds(jobs: JobMap, id: JobId, claimId: ClaimId) {
    id in jobs && jobs[id].claimId == claimId && jobs[id].liveness == Pending
  }

  /** The record an event writes; None when the call is rejected or matches nothing. */
  ghost function Subject(jobs: JobMap, ev: StoreEvent): (r: Option<JobId>)
    ensures r.Some? ==> r.value in jobs
  {
    match ev
    case Claim(p, now, lease, _) => if lease <= 0 then None else Target(jobs, p, now)
    case Heartbeat(id, c, _, extend) => if extend > 0 && Holds(jobs, id, c) then Some(id) else None
    case Release(id, c, _, delay) => if delay >= 0 && Holds(jobs, id, c) then Some(id) else None
    case Complete(id, c, _, res) => if res != "" && Holds(jobs, id, c) then Some(id) else None
    case Cancel(id, _) => if id in jobs && jobs[id].liveness == Pending then Some(id) else None
    case Expire(id) => if id in jobs && jobs[id].liveness == Resolved then Some(id) else None
  }

  function Resolve(j: Job, resolution: string, now: int): Job {
    j.(liveness := Resolved, resolution := resolution, resolvedAt := Some(now))
  }

  function Update(j: Job, ev: StoreEvent): Job
    requires !ev.Expire?
  {
    match ev
    case Claim(_, now, lease, c) =>
      j.(claimId := c, visibleAt := now + DurationMillis(lease), attempts := j.attempts + 1)
    case Heartbeat(_, _, now, extend) => j.(visibleAt := now + DurationMillis(extend))
    case Release(_, _, now, delay) => j.(visibleAt := now + DurationMillis(delay), claimId := "")
    case Complete(_, _, now, res) => Resolve(j, res, now)
    case Cancel(_, now) => Resolve(j, CANCELED, now)
  }

  ghost function StoreStep(jobs: JobMap, ev: StoreEvent): JobMap {
    match Subject(jobs, ev)
    case None => jobs
    case Some(id) => if ev.Expire? then jobs - {id} else jobs[id := Update(jobs[id], ev)]
  }

  /**
   What no store event can do: add a record, return one to pending, or alter a
   record's place in the order. Everything the stamping side relies on.
   */
  lemma StoreStepFrame(jobs: JobMap, ev: StoreEvent)
    ensures var jobs' := StoreStep(jobs, ev);
            && jobs'.Keys <= jobs.Keys
            && (forall id <- jobs' ::
                  && jobs'[id].tenant == jobs[id].tenant
                  && jobs'[id].partition == jobs[id].partition
                  && jobs'[id].cost == jobs[id].cost
                  && jobs'[id].vstamp == jobs[id].vstamp
                  && (jobs'[id].liveness == Pending ==> jobs[id].liveness == Pending))
            && (forall id <- jobs :: id !in jobs' ==> jobs[id].liveness == Resolved)
  {
  }

  /** A pending record stays pending through every event but the terminal write that hits it. */
  lemma StaysPending(jobs: JobMap, ev: StoreEvent, k: JobId)
    requires k in jobs && jobs[k].liveness == Pending
    requires ev.Complete? || ev.Cancel? ==> Subject(jobs, ev) != Some(k)
    ensures var jobs' := StoreStep(jobs, ev); k in jobs' && jobs'[k].liveness == Pending
  {
  }
}
