/**
 What the stamping side reads from the store: a timeline's trailing edge and a
 partition's dispatch frontier (its service clock, else its lowest pending stamp).
 */
module Frontier {
  import opened Wrappers
  import opened Jobs

  /** The first vstamp in descending order over a pool of records; None when nothing matches. */
  ghost function HighestStamp(jobs: JobMap, pool: set<JobId>): (r: Option<int>)
    requires pool <= jobs.Keys
    ensures r.None? <==> pool == {}
    ensures r.Some? ==>
              (exists id <- pool :: jobs[id].vstamp == r.value) && forall id <- pool :: jobs[id].vstamp <= r.value
    decreases |pool|
  {
    if pool == {} then None
    else
      var x :| x in pool;
      var rest := HighestStamp(jobs, pool - {x});
      assert forall id <- pool :: id == x || id in pool - {x};
      if rest.Some? && rest.value > jobs[x].vstamp then rest else Some(jobs[x].vstamp)
  }

  ghost function LowestStamp(jobs: JobMap, pool: set<JobId>): (r: Option<int>)
    requires pool <= jobs.Keys
    ensures r.None? <==> pool == {}
    ensures r.Some? ==>
              (exists id <- pool :: jobs[id].vstamp == r.value) && forall id <- pool :: r.value <= jobs[id].vstamp
    decreases |pool|
  {
    if pool == {} then None
    else
      var x :| x in pool;
      var rest := LowestStamp(jobs, pool - {x});
      assert forall id <- pool :: id == x || id in pool - {x};
      if rest.Some? && rest.value < jobs[x].vstamp then rest else Some(jobs[x].vstamp)
  }

  function FencedSet(jobs: JobMap, partition: string): set<JobId> {
    set id <- jobs | jobs[id].partition == partition && jobs[id].claimId != ""
  }

  function PendingSet(jobs: JobMap, partition: string): set<JobId> {
    set id <- jobs | jobs[id].partition == partition && jobs[id].liveness == Pending
  }

  function TimelineSet(jobs: JobMap, tenant: string, partition: string): set<JobId> {
    set id <- jobs | jobs[id].tenant == tenant && jobs[id].partition == partition && jobs[id].liveness == Pending
  }

  /** The service clock: the highest fenced stamp, whatever the liveness. */
  ghost function Clock(jobs: JobMap, partition: string): Option<int> {
    HighestStamp(jobs, FencedSet(jobs, partition))
  }

  ghost function LowestPending(jobs: JobMap, partition: string): Option<int> {
    LowestStamp(jobs, PendingSet(jobs, partition))
  }

  /** The seed query: the highest pending stamp of the timeline, or 0. */
  ghost function TrailingEdge(jobs: JobMap, tenant: string, partition: string): int {
    match HighestStamp(jobs, TimelineSet(jobs, tenant, partition))
    case Some(v) => v
    case None => 0
  }

  /** The frontier is computed by two reads; the store may have moved between them. */
  ghost function Frontier(first: JobMap, second: JobMap, partition: string): Option<int> {
    if Clock(first, partition).Some? then Clock(first, partition) else LowestPending(second, partition)
  }

  // ----- what the queries select -----

  /** The seed query sees the timeline's pending jobs only: a resolved one does not count, whatever fence it keeps. */
  lemma EdgeIsHighestPending(jobs: JobMap, tenant: string, partition: string)
    ensures var edge := TrailingEdge(jobs, tenant, partition);
            || (edge == 0 && forall id <- jobs ::
                  jobs[id].tenant == tenant && jobs[id].partition == partition ==> jobs[id].liveness == Resolved)
            || exists top <- jobs ::
                 && jobs[top].tenant == tenant && jobs[top].partition == partition && jobs[top].liveness == Pending
                 && jobs[top].vstamp == edge
                 && forall id <- jobs ::
                      jobs[id].tenant == tenant && jobs[id].partition == partition && jobs[id].liveness == Pending ==>
                        jobs[id].vstamp <= edge
  {
    var pool := TimelineSet(jobs, tenant, partition);
    assert forall id <- jobs ::
        id in pool <==> jobs[id].tenant == tenant && jobs[id].partition == partition && jobs[id].liveness == Pending;
  }

  /** The clock query sees every job of the partition that carries a claim, pending or resolved. */
  lemma ClockIsHighestFenced(jobs: JobMap, partition: string)
    ensures match Clock(jobs, partition)
            case None => forall id <- jobs :: jobs[id].partition == partition ==> jobs[id].claimId == ""
            case Some(v) =>
              && (exists top <- jobs ::
                    jobs[top].partition == partition && jobs[top].claimId != "" && jobs[top].vstamp == v)
              && (forall id <- jobs :: jobs[id].partition == partition && jobs[id].claimId != "" ==>
                                         jobs[id].vstamp <= v)
  {
    var pool := FencedSet(jobs, partition);
    assert forall id <- jobs :: id in pool <==> jobs[id].partition == partition && jobs[id].claimId != "";
  }

  /** The fallback sees the partition's pending jobs, visible or not. */
  lemma FallbackIsLowestPending(jobs: JobMap, partition: string)
    ensures match LowestPending(jobs, partition)
            case None => forall id <- jobs :: jobs[id].partition == partition ==> jobs[id].liveness == Resolved
            case Some(v) =>
              && (exists low <- jobs ::
                    jobs[low].partition == partition && jobs[low].liveness == Pending && jobs[low].vstamp == v)
              && (forall id <- jobs :: jobs[id].partition == partition && jobs[id].liveness == Pending ==>
                                         v <= jobs[id].vstamp)
  {
    var pool := PendingSet(jobs, partition);
    assert forall id <- jobs :: id in pool <==> jobs[id].partition == partition && jobs[id].liveness == Pending;
  }

  /** The fallback is read, from the store as it then is, exactly when no job of the partition carried a claim. */
  lemma FrontierFallsBack(first: JobMap, second: JobMap, partition: string)
    ensures if exists id <- first :: first[id].partition == partition && first[id].claimId != ""
            then Frontier(first, second, partition) == Clock(first, partition)
            else Frontier(first, second, partition) == LowestPending(second, partition)
  {
    ClockIsHighestFenced(first, partition);
  }

  /** Order on frontiers: an absent one lies below every stamp. */
  ghost predicate AtMost(a: Option<int>, b: Option<int>) {
    a.Some? ==> b.Some? && a.value <= b.value
  }

  /** The events that can lower a clock: a release or a deletion of a record standing at its top. */
  ghost predicate DropsTop(jobs: JobMap, ev: StoreEvent, partition: string) {
    && (ev.Release? || ev.Expire?)
    && Subject(jobs, ev).Some?
    && var j := jobs[Subject(jobs, ev).value];
    j.partition == partition && j.claimId != "" && Clock(jobs, partition) == Some(j.vstamp)
  }

  ghost predicate ClaimsIn(jobs: JobMap, ev: StoreEvent, partition: string) {
    && ev.Claim?
    && Subject(jobs, ev).Some?
    && jobs[Subject(jobs, ev).value].partition == partition
  }

  ghost predicate ProperClaim(ev: StoreEvent) {
    ev.Claim? ==> ev.claimId != ""
  }

  /** One event: the clock falls only by dropping its top record and rises only by a claim, to the claimed stamp. */
  lemma ClockStep(jobs: JobMap, ev: StoreEvent, partition: string)
    requires ProperClaim(ev)
    ensures var c, c' := Clock(jobs, partition), Clock(StoreStep(jobs, ev), partition);
            && (!AtMost(c, c') ==> DropsTop(jobs, ev, partition))
            && (!AtMost(c', c) ==> ClaimsIn(jobs, ev, partition) && c' == Some(jobs[Subject(jobs, ev).value].vstamp))
  {
    var jobs' := StoreStep(jobs, ev);
    var f, f' := FencedSet(jobs, partition), FencedSet(jobs', partition);
    var s := Subject(jobs, ev);
    if s.Some? {
      var id := s.value;
      assert forall k <- jobs :: k != id ==> k in jobs' && jobs'[k] == jobs[k];
      assert forall k :: k != id ==> (k in f <==> k in f');
      if id !in f && id !in f' { assert f == f'; }
      var c, c' := Clock(jobs, partition), Clock(jobs', partition);
      if !AtMost(c, c') {
        var top :| top in f && jobs[top].vstamp == c.value;
        assert top == id;
      }
      if !AtMost(c', c) {
        var top :| top in f' && jobs'[top].vstamp == c'.value;
        assert top == id;
      }
    }
  }

  /** With no fence in the partition, the first successful claim puts the clock at or above the fallback frontier. */
  lemma FirstClaimKeepsFrontier(jobs: JobMap, ev: StoreEvent, partition: string)
    requires Clock(jobs, partition).None? && ProperClaim(ev) && ClaimsIn(jobs, ev, partition)
    ensures LowestPending(jobs, partition).Some?
    ensures Clock(StoreStep(jobs, ev), partition).Some?
    ensures AtMost(Frontier(jobs, jobs, partition), Frontier(StoreStep(jobs, ev), StoreStep(jobs, ev), partition))
  {
    var id := Subject(jobs, ev).value;
    assert id in PendingSet(jobs, partition);
    assert id in FencedSet(StoreStep(jobs, ev), partition);
  }

  /** Inserting an unclaimed record leaves every service clock where it was. */
  lemma ClockOfInsert(jobs: JobMap, id: JobId, j: Job, partition: string)
    requires id !in jobs && j.claimId == ""
    ensures Clock(jobs[id := j], partition) == Clock(jobs, partition)
  {
    var jobs' := jobs[id := j];
    assert FencedSet(jobs', partition) == FencedSet(jobs, partition);
  }

  // ----- runs of the store: enqueues' inserts and every other event -----

  datatype Write =
    | Insert(id: JobId, tenant: string, partition: string, cost: int, vstamp: int, visibleAt: int)
    | Apply(ev: StoreEvent)

  ghost predicate ProperWrite(w: Write) {
    w.Apply? ==> ProperClaim(w.ev)
  }

  /** An insert under an id that is taken stores nothing. */
  ghost function WriteStep(jobs: JobMap, w: Write): JobMap {
    match w
    case Insert(id, tenant, partition, cost, vstamp, visibleAt) =>
      if id in jobs then jobs else jobs[id := NewJob(tenant, partition, cost, vstamp, visibleAt)]
    case Apply(ev) => StoreStep(jobs, ev)
  }

  ghost function StoreRun(jobs: JobMap, writes: seq<Write>): JobMap
    decreases |writes|
  {
    if writes == [] then jobs else StoreRun(WriteStep(jobs, writes[0]), writes[1..])
  }

  /** Some event of the run drops the top of the partition's clock. */
  ghost predicate RunDropsTop(jobs: JobMap, writes: seq<Write>, partition: string)
    decreases |writes|
  {
    writes != [] &&
    ((writes[0].Apply? && DropsTop(jobs, writes[0].ev, partition))
     || RunDropsTop(WriteStep(jobs, writes[0]), writes[1..], partition))
  }

  /** Whole runs: unless a top fenced record is released or deleted on the way, the clock never decreases. */
  lemma {:induction false} ClockMonotone(jobs: JobMap, writes: seq<Write>, partition: string)
    requires forall i :: 0 <= i < |writes| ==> ProperWrite(writes[i])
    requires !RunDropsTop(jobs, writes, partition)
    ensures AtMost(Clock(jobs, partition), Clock(StoreRun(jobs, writes), partition))
    decreases |writes|
  {
    if writes != [] {
      var w, next := writes[0], WriteStep(jobs, writes[0]);
      if w.Apply? { ClockStep(jobs, w.ev, partition); }
      else if w.id !in jobs { ClockOfInsert(jobs, w.id, next[w.id], partition); }
      ClockMonotone(next, writes[1..], partition);
    }
  }

  // ----- the two reads of one frontier -----

  /** The stored ids whose record was inserted in the run; `newer` are those before it. */
  ghost function Newcomers(jobs: JobMap, writes: seq<Write>, newer: set<JobId>): set<JobId>
    decreases |writes|
  {
    if writes == [] then newer
    else
      var next := WriteStep(jobs, writes[0]);
      Newcomers(next, writes[1..], newer * next.Keys + (next.Keys - jobs.Keys))
  }

  /** A record that is no newcomer was there at first, in the same place, and pending if it is pending now. */
  ghost predicate Descends(first: JobMap, jobs: JobMap, newer: set<JobId>) {
    && newer <= jobs.Keys
    && forall id <- jobs :: id !in newer ==>
                              && id in first && jobs[id].partition == first[id].partition
                              && jobs[id].vstamp == first[id].vstamp
                              && (jobs[id].liveness == Pending ==> first[id].liveness == Pending)
  }

  lemma {:induction false} RunDescends(first: JobMap, jobs: JobMap, writes: seq<Write>, newer: set<JobId>)
    requires Descends(first, jobs, newer)
    ensures Descends(first, StoreRun(jobs, writes), Newcomers(jobs, writes, newer))
    decreases |writes|
  {
    if writes != [] {
      var w, next := writes[0], WriteStep(jobs, writes[0]);
      if w.Apply? { StoreStepFrame(jobs, w.ev); }
      RunDescends(first, next, writes[1..], newer * next.Keys + (next.Keys - jobs.Keys));
    }
  }

  /**
   The frontier is two reads and the store moves between them. What the second one finds lies below the frontier as
   it was when the first began if and only if there was no fence then, and a job inserted meanwhile, stamped below
   everything that was pending, is pending at the second read.
   */
  lemma TornFrontierBelowIff(first: JobMap, writes: seq<Write>, partition: string)
    requires Frontier(first, StoreRun(first, writes), partition).Some?
    ensures var second := StoreRun(first, writes);
            !AtMost(Frontier(first, first, partition), Frontier(first, second, partition)) <==>
            && Clock(first, partition).None? && LowestPending(first, partition).Some?
            && exists id <- Newcomers(first, writes, {}) * PendingSet(second, partition) ::
                 second[id].vstamp < LowestPending(first, partition).value
  {
    var second, newer := StoreRun(first, writes), Newcomers(first, writes, {});
    RunDescends(first, first, writes, {});
    if Clock(first, partition).None? && LowestPending(first, partition).Some? {
      var low := LowestPending(second, partition);
      var id :| id in PendingSet(second, partition) && second[id].vstamp == low.value;
      if id !in newer { assert id in PendingSet(first, partition); }
      if low.value < LowestPending(first, partition).value { assert id in newer * PendingSet(second, partition); }
    }
  }

  /** It does happen: two enqueues seeded at 0 on an empty partition, the cheaper one inserting between the reads. */
  lemma TornFrontierFalls()
    ensures var first := map["x" := NewJob("X", "p", 5, 5000, 0)];
            var second := StoreRun(first, [Insert("y", "Y", "p", 1, 1000, 0)]);
            Frontier(first, first, "p") == Some(5000) && Frontier(first, second, "p") == Some(1000)
  {
    var first := map["x" := NewJob("X", "p", 5, 5000, 0)];
    var w := Insert("y", "Y", "p", 1, 1000, 0);
    var second := WriteStep(first, w);
    assert [w][1..] == [] && StoreRun(first, [w]) == second;
    assert PendingSet(first, "p") == {"x"} && PendingSet(second, "p") == {"x", "y"};
  }
}
