/** Draining a partition: repeated claims whose leases outlast the drain. */
module Drain {
  import opened Wrappers
  import opened VTime
  import opened Duration
  import opened Jobs
  import S = Service

  datatype Claim = Claim(now: int, lease: int64, claimId: ClaimId)

  /** Claims fall in [lo, hi], leases end after hi. */
  predicate Lasting(c: Claim, lo: int, hi: int) {
    lo <= c.now <= hi && c.lease > 0 && c.now + DurationMillis(c.lease) > hi
  }

  /** The partition's visible set does not depend on when in [lo, hi] one looks. */
  predicate Stable(jobs: JobMap, partition: string, lo: int, hi: int) {
    forall id <- jobs :: jobs[id].partition == partition && jobs[id].liveness == Pending ==>
                           jobs[id].visibleAt <= lo || jobs[id].visibleAt > hi
  }

  /** What the successive claims return; None is the empty-set answer. */
  ghost function Returned(jobs: JobMap, partition: string, claims: seq<Claim>): (r: seq<Option<JobId>>)
    ensures |r| == |claims|
    decreases |claims|
  {
    if claims == [] then []
    else
      var c := claims[0];
      [if c.lease <= 0 then None else Target(jobs, partition, c.now)]
      + Returned(StoreStep(jobs, StoreEvent.Claim(partition, c.now, c.lease, c.claimId)), partition, claims[1..])
  }

  /** One claim of a drain removes the first job from the visible set and changes no stamp. */
  lemma DrainStep(jobs: JobMap, partition: string, lo: int, hi: int, c: Claim)
    requires Stable(jobs, partition, lo, hi) && Lasting(c, lo, hi)
    ensures var jobs' := StoreStep(jobs, StoreEvent.Claim(partition, c.now, c.lease, c.claimId));
            var v := VisibleSet(jobs, partition, lo);
            && Stable(jobs', partition, lo, hi) && jobs'.Keys == jobs.Keys
            && (forall a, b :: a in jobs && b in jobs ==> (Precedes(jobs', a, b) <==> Precedes(jobs, a, b)))
            && (v == {} ==> Target(jobs, partition, c.now).None? && jobs' == jobs)
            && (v != {} ==>
                  && Target(jobs, partition, c.now).Some? && IsFirst(jobs, v, Target(jobs, partition, c.now).value)
                  && VisibleSet(jobs', partition, lo) == v - {Target(jobs, partition, c.now).value})
  {
    assert VisibleSet(jobs, partition, c.now) == VisibleSet(jobs, partition, lo);
    var jobs' := StoreStep(jobs, StoreEvent.Claim(partition, c.now, c.lease, c.claimId));
    StoreStepFrame(jobs, StoreEvent.Claim(partition, c.now, c.lease, c.claimId));
  }

  /** The answers are the jobs of v, as far as they go, in strictly increasing claim order, and then none. */
  predicate InOrder(jobs: JobMap, r: seq<Option<JobId>>, v: set<JobId>)
    requires v <= jobs.Keys
  {
    && (forall k :: 0 <= k < |r| ==> (r[k].Some? <==> k < |v|))
    && (forall k :: 0 <= k < |r| && k < |v| ==> r[k].value in v)
    && (forall k, m :: 0 <= k < m < |r| && m < |v| ==> Precedes(jobs, r[k].value, r[m].value))
    && (|r| >= |v| ==> forall id <- v :: Some(id) in r)
  }

  lemma ConsInOrder(jobs: JobMap, first: JobId, rest: seq<Option<JobId>>, v: set<JobId>)
    requires v <= jobs.Keys && IsFirst(jobs, v, first) && InOrder(jobs, rest, v - {first})
    ensures InOrder(jobs, [Some(first)] + rest, v)
  {
    var r := [Some(first)] + rest;
    assert |v| == |v - {first}| + 1;
    forall k, m | 0 <= k < m < |r| && m < |v| ensures Precedes(jobs, r[k].value, r[m].value) {
      assert r[m] == rest[m - 1];
    }
    if |r| >= |v| {
      forall id | id in v ensures Some(id) in r {
        if id == first { assert r[0] == Some(id); } else { assert Some(id) in rest; }
      }
    }
  }

  lemma EmptyInOrder(jobs: JobMap, rest: seq<Option<JobId>>)
    requires InOrder(jobs, rest, {})
    ensures InOrder(jobs, [None] + rest, {})
  {
  }

  /**
   Drain correctness. With n jobs visible, the first n claims return exactly
   those jobs, each once, in strictly increasing (vstamp, id); every later claim
   reports that there is none.
   */
  lemma {:induction false} DrainsInOrder(jobs: JobMap, partition: string, lo: int, hi: int, claims: seq<Claim>)
    requires lo <= hi && Stable(jobs, partition, lo, hi) && forall k :: 0 <= k < |claims| ==> Lasting(claims[k], lo, hi)
    ensures InOrder(jobs, Returned(jobs, partition, claims), VisibleSet(jobs, partition, lo))
    decreases |claims|
  {
    if claims != [] {
      var c := claims[0];
      var jobs' := StoreStep(jobs, StoreEvent.Claim(partition, c.now, c.lease, c.claimId));
      var v, v' := VisibleSet(jobs, partition, lo), VisibleSet(jobs', partition, lo);
      DrainStep(jobs, partition, lo, hi, c);
      DrainsInOrder(jobs', partition, lo, hi, claims[1..]);
      var rest := Returned(jobs', partition, claims[1..]);
      SameOrder(jobs, jobs', rest, v');
      if v == {} {
        EmptyInOrder(jobs, rest);
      } else {
        ConsInOrder(jobs, Target(jobs, partition, c.now).value, rest, v);
      }
    }
  }

  lemma SameOrder(jobs: JobMap, jobs': JobMap, r: seq<Option<JobId>>, v: set<JobId>)
    requires v <= jobs.Keys && jobs'.Keys == jobs.Keys && InOrder(jobs', r, v)
    requires forall a, b :: a in jobs && b in jobs ==> (Precedes(jobs', a, b) <==> Precedes(jobs, a, b))
    ensures InOrder(jobs, r, v)
  {
  }

  // ----- together with stamping -----

  /** Every job of the shop's partition belongs to a described timeline. */
  predicate Described(s: S.Shop) {
    forall id <- s.jobs :: s.jobs[id].partition == s.partition ==> s.jobs[id].tenant in s.lines
  }

  /** Slot n of a tenant's timeline, still unclaimed, holds this job. */
  predicate Backlog(s: S.Shop, tenant: string, n: nat, id: JobId) {
    tenant in s.lines && s.lines[tenant].served <= n < |s.lines[tenant].slots| && s.lines[tenant].slots[n].id == id
  }

  /** A claim's answer is the job in slot n of the tenant's timeline. */
  predicate Answers(s: S.Shop, answer: Option<JobId>, tenant: string, n: nat) {
    answer.Some? && Backlog(s, tenant, n, answer.value)
  }

  lemma JobSlot(s: S.Shop, id: JobId) returns (n: nat)
    requires S.Inv(s) && Described(s) && id in s.jobs && s.jobs[id].partition == s.partition
    ensures n < |s.lines[s.jobs[id].tenant].slots| && s.lines[s.jobs[id].tenant].slots[n].id == id
    ensures S.SlotOk(s, s.jobs[id].tenant, n)
  {
    assert S.JobOk(s, id);
    n :| n < |s.lines[s.jobs[id].tenant].slots| && s.lines[s.jobs[id].tenant].slots[n].id == id;
    assert S.SlotOk(s, s.jobs[id].tenant, n);
  }

  /** What is visible is exactly the timelines' unclaimed slots, and that does not change with the time of the claim. */
  lemma VisibleIsBacklog(s: S.Shop)
    requires S.Inv(s) && Described(s)
    ensures Stable(s.jobs, s.partition, s.lo, s.hi)
    ensures forall id :: id in VisibleSet(s.jobs, s.partition, s.lo) <==>
                         exists tenant, n: nat :: Backlog(s, tenant, n, id)
  {
    forall id | id in s.jobs && s.jobs[id].partition == s.partition && s.jobs[id].liveness == Pending
      ensures s.jobs[id].visibleAt <= s.lo || s.jobs[id].visibleAt > s.hi
      ensures s.jobs[id].visibleAt <= s.lo ==> exists tenant, n: nat :: Backlog(s, tenant, n, id)
    {
      var n := JobSlot(s, id);
      if n >= s.lines[s.jobs[id].tenant].served { assert Backlog(s, s.jobs[id].tenant, n, id); }
    }
    forall id, tenant, n: nat | Backlog(s, tenant, n, id) ensures id in VisibleSet(s.jobs, s.partition, s.lo) {
      assert S.SlotOk(s, tenant, n);
    }
  }

  /**
   A drain merges the timelines' prefix-sum schedules. It returns every unclaimed
   slot's job, sorted over all the timelines, each timeline's in enqueue order, and
   the n-th of a timeline at its base plus the first n strides.
   */
  lemma DrainMergesSchedules(s: S.Shop, claims: seq<Claim>)
    requires S.Inv(s) && Described(s) && forall k :: 0 <= k < |claims| ==> Lasting(claims[k], s.lo, s.hi)
    ensures var r, v := Returned(s.jobs, s.partition, claims), VisibleSet(s.jobs, s.partition, s.lo);
            && InOrder(s.jobs, r, v)
            && (forall tenant, n: nat, id :: Backlog(s, tenant, n, id) ==>
                                               && id in s.jobs && n < |s.lines[tenant].strides|
                                               && s.jobs[id].vstamp == S.Advance(s.lines[tenant], n + 1)
                                               && (|v| <= |r| ==> Some(id) in r))
            && (forall k, m, tenant, a: nat, b: nat ::
                  0 <= k < m < |r| && m < |v| && Answers(s, r[k], tenant, a) && Answers(s, r[m], tenant, b) ==> a < b)
  {
    VisibleIsBacklog(s);
    DrainsInOrder(s.jobs, s.partition, s.lo, s.hi, claims);
    var r, v := Returned(s.jobs, s.partition, claims), VisibleSet(s.jobs, s.partition, s.lo);
    forall tenant, n: nat, id | Backlog(s, tenant, n, id)
      ensures id in s.jobs && n < |s.lines[tenant].strides| && s.jobs[id].vstamp == S.Advance(s.lines[tenant], n + 1)
    {
      assert S.SlotOk(s, tenant, n);
    }
    forall k, m, tenant, a: nat, b: nat | 0 <= k < m < |r| && m < |v| && Answers(s, r[k], tenant, a)
                                          && Answers(s, r[m], tenant, b)
      ensures a < b
    {
      SlotsInClaimOrder(s, tenant, a, b, r[k].value, r[m].value);
    }
  }

  lemma SlotsInClaimOrder(s: S.Shop, tenant: string, a: nat, b: nat, first: JobId, second: JobId)
    requires S.Inv(s) && Backlog(s, tenant, a, first) && Backlog(s, tenant, b, second)
    requires first in s.jobs && second in s.jobs && Precedes(s.jobs, first, second)
    ensures a < b
  {
    assert S.SlotOk(s, tenant, a) && S.SlotOk(s, tenant, b);
    if b <= a {
      S.AdvanceIncreases(s.lines[tenant], b + 1, a + 1);
      PrecedesIsStrictTotal(s.jobs, first, second);
    }
  }
}
