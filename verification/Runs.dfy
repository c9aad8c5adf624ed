/**
 Whole runs of the concurrent cache. Every state a sequence of actions can reach
 from the empty one satisfies all the invariants; the theorems below read off
 what the code's comments promise.
 */
module Runs {
  import opened Wrappers
  import opened VTime
  import opened Jobs
  import opened Frontier
  import opened Cell
  import opened Protocol
  import L = Locks
  import O = Order
  import K = Ledger
  import B = Budget
  import F = Floors
  import D = Drift
  import C = Chain
  import E = Epochs

  ghost predicate Good(s: State) {
    L.Inv(s) && L.RetryInv(s) && O.Inv(s) && K.Inv(s) && B.Inv(s) && F.Inv(s) && D.Inv(s, s.time) && C.Inv(s)
    && E.Inv(s, s.time)
  }

  lemma InitIsGood()
    ensures Good(INIT)
  {
    assert forall p :: Spent(INIT.past.log, p) == 0;
    forall line ensures C.LineOk(INIT, line) {}
  }

  lemma StepKeepsGood(s: State, a: Action)
    requires Good(s)
    ensures Good(Step(s, a))
  {
    L.StepKeepsInv(s, a);
    L.RetryStep(s, a);
    O.StepKeepsInv(s, a);
    K.StepKeepsInv(s, a);
    B.StepKeepsInv(s, a);
    F.StepKeepsInv(s, a);
    D.StepKeepsInv(s, a);
    C.StepKeepsInv(s, a);
    E.StepKeepsInv(s, a);
  }

  lemma {:induction false} RunKeepsGood(s: State, actions: seq<Action>)
    requires Good(s)
    ensures Good(Run(s, actions))
    decreases |actions|
  {
    if actions != [] {
      StepKeepsGood(s, actions[0]);
      RunKeepsGood(Step(s, actions[0]), actions[1..]);
    }
  }

  ghost predicate Reachable(s: State) {
    exists actions :: s == Run(INIT, actions)
  }

  lemma ReachableGoesOn(s: State, actions: seq<Action>)
    requires Reachable(s)
    ensures Reachable(Run(s, actions))
  {
    var before :| s == Run(INIT, before);
    RunConcat(INIT, before, actions);
    assert Run(s, actions) == Run(INIT, before + actions);
  }

  lemma {:induction false} RunConcat(s: State, before: seq<Action>, after: seq<Action>)
    ensures Run(s, before + after) == Run(Run(s, before), after)
    decreases |before|
  {
    if before == [] {
      assert before + after == after;
    } else {
      RunConcat(Step(s, before[0]), before[1..], after);
      assert (before + after)[1..] == before[1..] + after;
    }
  }

  lemma ReachableIsGood(s: State)
    requires Reachable(s)
    ensures Good(s)
  {
    InitIsGood();
    var actions :| s == Run(INIT, actions);
    RunKeepsGood(INIT, actions);
  }

  // ----- locks -----

  /**
   Two enqueues that both hold a reservation on one (queue, tenant, partition)
   are the same enqueue, even when an eviction landed between a lookup and the
   lock it led to; and the entry held is the one the map knows, not an orphan.
   */
  lemma OneReservation(s: State, t: Tid, u: Tid)
    requires Reachable(s) && L.Reserves(s, t) && L.Reserves(s, u) && s.threads[t].call.key == s.threads[u].call.key
    ensures t == u
    ensures s.threads[t].call.key in s.tenants && s.tenants[s.threads[t].call.key] == s.threads[t].e
  {
    ReachableIsGood(s);
    assert L.ThreadOk(s, t) && L.ThreadOk(s, u);
  }

  /** An entry no walk holds is unevicted exactly when it is the map's entry for its key. */
  lemma UnevictedIffMapped(s: State, e: EntryId)
    requires Reachable(s) && e in s.entries && !s.entries[e].holder.ByWalk?
    ensures !s.entries[e].cell.evicted <==> L.Mapped(s, e)
  {
    ReachableIsGood(s);
    assert L.EntryOk(s, e);
    if L.Mapped(s, e) { assert L.KeyOk(s, s.entries[e].key); }
    if L.WalkHolds(s, s.entries[e].key.queue, e) { assert L.WalkOk(s, s.entries[e].key.queue); }
  }

  /**
   An entry's lock is held by exactly the enqueue that stands between its reserve and its release; none outlives
   its enqueue.
   */
  lemma LocksMatchReservations(s: State, e: EntryId, t: Tid)
    requires Reachable(s) && e in s.entries
    ensures s.entries[e].holder == HeldBy(t) <==> L.Reserves(s, t) && s.threads[t].e == e
  {
    ReachableIsGood(s);
    assert L.EntryOk(s, e);
    if L.Reserves(s, t) { assert L.ThreadOk(s, t); }
  }

  /** lockTimeline goes round again at most once per eviction of its key since its enqueue began. */
  lemma RetriesBoundedByEvictions(s: State, t: Tid)
    requires Reachable(s) && t in s.threads
    ensures var th := s.threads[t];
            th.retries <= Since(s.past.evictions, th.call.key) - th.evictionsBefore
  {
    ReachableIsGood(s);
    assert L.RetryOk(s, t);
  }

  /**
   No reachable state is deadlocked. Enqueues, refreshes and reconciles take the map, entry and low-water-mark locks
   in that order, so waiting has no cycle; and whoever waits for nobody can take a step.
   */
  lemma NoDeadlock(s: State, a: L.Agent)
    requires Reachable(s) && L.Present(s, a)
    ensures forall held :: L.HoldsLock(s, a, held) && L.Wants(s, a).Some? ==>
                             L.Level(held) < L.Level(L.Wants(s, a).value)
    ensures forall b :: L.WaitsFor(s, a, b) ==> L.Present(s, b) && L.Rank(s, b) < L.Rank(s, a)
    ensures L.Runnable(s, a) || exists b :: L.Present(s, b) && L.WaitsFor(s, a, b)
  {
    ReachableIsGood(s);
    forall held | L.HoldsLock(s, a, held) && L.Wants(s, a).Some? ensures L.Level(held) < L.Level(L.Wants(s, a).value) {
      L.LocksTakenInOrder(s, a, held);
    }
    forall b | L.WaitsFor(s, a, b) ensures L.Present(s, b) && L.Rank(s, b) < L.Rank(s, a) {
      L.WaitingDescends(s, a, b);
    }
    if forall b :: L.Present(s, b) ==> !L.WaitsFor(s, a, b) {
      match a {
        case Walker(q) => L.WalkRunnable(s, q);
        case Refresher(r) => L.RefresherRunnable(s, r);
        case Reconciler(q) => L.ReconcilerRunnable(s, q);
        case Enqueuer(t) => if Holding(s.threads[t].pc) { L.HolderRunnable(s, t); } else { L.OutsideRunnable(s, t); }
      }
    }
  }

  /** Hence from any waiting agent a chain of waits leads to one that can step. */
  lemma {:induction false} SomeoneRuns(s: State, a: L.Agent) returns (b: L.Agent)
    requires Reachable(s) && L.Present(s, a)
    ensures L.Present(s, b) && L.Runnable(s, b) && L.Rank(s, b) <= L.Rank(s, a)
    decreases L.Rank(s, a)
  {
    NoDeadlock(s, a);
    if L.Runnable(s, a) {
      b := a;
    } else {
      var c :| L.Present(s, c) && L.WaitsFor(s, a, c);
      b := SomeoneRuns(s, c);
    }
  }

  // ----- stamps -----

  /**
   Timeline order. Whatever enqueuers, walks, evictions, failed seeds, aborts,
   claims, cancels and deletions came before, an insert through a timeline's only
   writer is stamped strictly above every job of the timeline pending at that
   moment, provided no earlier insert on it was stored while reporting an error.
   */
  lemma TimelineOrder(s: State, t: Tid)
    requires Reachable(s) && ThreadEnabled(s, t, InsertOne(false)) && O.Trusted(s, s.threads[t].call.key.line)
    ensures var s', call := Step(s, OfThread(t, InsertOne(false))), s.threads[t].call;
            && call.id !in s.jobs && call.id in s'.jobs && O.OnTimeline(s'.jobs[call.id], call.key.line)
            && forall id <- s.jobs :: O.OnTimeline(s.jobs[id], call.key.line) && s.jobs[id].liveness == Pending ==>
                                        s.jobs[id].vstamp < s'.jobs[call.id].vstamp
  {
    ReachableIsGood(s);
    O.NewStampExceeds(s, t);
  }

  /**
   The budget. Across any number of Queues writing anything anywhere, every
   stored stamp, cached clock and low-water mark of a partition is between 0 and
   the sum of the strides of all records ever inserted there, and fits int64.
   */
  lemma ClockBudget(s: State, partition: string)
    requires Reachable(s)
    ensures forall id <- s.jobs :: s.jobs[id].partition == partition ==> B.Affords(s, partition, s.jobs[id].vstamp)
    ensures forall e <- s.entries :: s.entries[e].key.line.partition == partition ==>
                                       B.Affords(s, partition, s.entries[e].cell.vtime)
    ensures forall lane <- s.lwm :: lane.partition == partition ==> B.Affords(s, partition, s.lwm[lane])
  {
    ReachableIsGood(s);
    forall id | id in s.jobs && s.jobs[id].partition == partition ensures B.Affords(s, partition, s.jobs[id].vstamp) {
      assert B.JobOk(s, id);
    }
    forall e | e in s.entries && s.entries[e].key.line.partition == partition
      ensures B.Affords(s, partition, s.entries[e].cell.vtime)
    {
      assert B.EntryOk(s, e);
    }
    forall lane | lane in s.lwm && lane.partition == partition ensures B.Affords(s, partition, s.lwm[lane]) {
      assert B.LaneOk(s, lane);
    }
  }

  /**
   Overflow is the checked arithmetic's answer, and it comes only when the cost
   alone cannot be scaled or the partition's whole budget cannot carry the stride.
   */
  lemma OverflowOnlyWhenSpent(s: State, t: Tid)
    requires Reachable(s) && t in s.threads && s.threads[t].pc.Stamping?
    ensures var call := s.threads[t].call;
            && Normalized(call) && s.threads[t].e in s.entries
            && var vtime := s.entries[s.threads[t].e].cell.vtime;
            && 0 <= vtime <= MAX_INT64
            && (ThreadEnabled(s, t, Overflow) <==> NextVStamp(vtime, call.cost, call.weight).Err?)
            && (ThreadEnabled(s, t, Overflow) ==>
                  call.cost > MAX_COST || Spent(s.past.log, call.key.line.partition) + call.stride > MAX_INT64)
  {
    ReachableIsGood(s);
    assert L.ThreadOk(s, t) && B.EntryOk(s, s.threads[t].e);
    assert Priced(s.threads[t].call, IdealStride(s.threads[t].call.cost, s.threads[t].call.weight));
    StampIsChecked(s.threads[t].call, s.entries[s.threads[t].e].cell.vtime);
  }

  /**
   Refinement of the stateless stamper. While one Queue writes the timeline, no
   insert hides its success, none of its jobs is resolved and no seed since its
   first insert found the low-water mark above its trailing edge, its n-th stamp
   is one fixed base plus the first n + 1 strides, whatever the cache went through.
   */
  lemma CacheRefinesStatelessStamper(s: State, line: Timeline, n: nat)
    requires Reachable(s) && C.Steady(s, line) && n < |C.StampsOf(s.past.log, line)|
    ensures var stamps, strides := C.StampsOf(s.past.log, line), C.StridesOf(s.past.log, line);
            stamps[n] == C.StatelessStamp(stamps[0] - strides[0], strides, n)
  {
    ReachableIsGood(s);
    assert C.LineOk(s, line);
    C.LinkedIsStateless(C.StampsOf(s.past.log, line), C.StridesOf(s.past.log, line), n);
  }

  // ----- drift and floors -----

  /**
   Drift bound. An enqueue that took its timeline's lock after a walk handled the
   timeline stamps from a seed begun after that handling: races on the flags,
   failed seeds and evictions in between make no difference.
   */
  lemma DriftBound(s: State, t: Tid)
    requires Reachable(s) && t in s.threads && Stamped(s.threads[t].pc)
    ensures s.threads[t].e in s.entries
    ensures s.entries[s.threads[t].e].seedTime > s.threads[t].handledBefore
  {
    ReachableIsGood(s);
    D.StampsFromFreshSeed(s, t);
  }

  /** No walk prunes a low-water mark between a cold seed's store and its read. */
  lemma SeedKeepsItsFloor(s: State, t: Tid)
    requires Reachable(s) && t in s.threads && s.threads[t].pc.FloorReading? && s.threads[t].pc.stored
    ensures LaneOf(s.threads[t].call.key) in s.lwm
  {
    ReachableIsGood(s);
    F.StoredFloorSurvives(s, t);
  }

  ghost predicate CachedThroughout(s: State, actions: seq<Action>, lane: Lane)
    decreases |actions|
  {
    Cached(s, lane) && (actions != [] ==> CachedThroughout(Step(s, actions[0]), actions[1..], lane))
  }

  /** Once stored, a low-water mark stays as long as any entry of its partition is cached. */
  lemma {:induction false} StoredLaneStays(s: State, actions: seq<Action>, lane: Lane)
    requires Good(s) && lane in s.lwm && CachedThroughout(s, actions, lane)
    ensures lane in Run(s, actions).lwm
    decreases |actions|
  {
    if actions != [] {
      F.StepKeepsCachedLane(s, actions[0], lane);
      StepKeepsGood(s, actions[0]);
      StoredLaneStays(Step(s, actions[0]), actions[1..], lane);
    }
  }

  /**
   Late-refresh dip bound. In a partition that has seen no release or deletion of
   a fenced job, a seed's clock falls short of the present service clock by at
   most the clock's advance since the last-writing refresh began.
   */
  lemma LateRefreshDip(s: State, t: Tid)
    requires Reachable(s) && ThreadEnabled(s, t, ReadFloor)
    requires var lane := LaneOf(s.threads[t].call.key); lane in s.lwm && F.Undipped(s, lane.partition)
    ensures var lane := LaneOf(s.threads[t].call.key);
            var now := Clock(s.jobs, lane.partition);
            var seeded := Step(s, OfThread(t, ReadFloor)).entries[s.threads[t].e].cell.vtime;
            && lane in s.past.floorBegan
            && AtMost(s.past.floorBegan[lane].clock, Some(seeded))
            && (now.Some? && s.past.floorBegan[lane].clock.Some? ==>
                  now.value - seeded <= now.value - s.past.floorBegan[lane].clock.value)
  {
    ReachableIsGood(s);
    F.SeedNotBelowRefreshedClock(s, t);
  }
}
