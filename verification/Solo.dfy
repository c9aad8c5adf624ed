/**
 The protocol without interference. An enqueue, a refresh and a walk's turn at an
 entry, each run through alone, come to what the operations of the sequential
 cache come to: the marks, the entry and the stamp are told from what they find.
 */
module Solo {
  import opened Wrappers
  import opened VTime
  import opened Jobs
  import opened Frontier
  import opened Cell
  import opened Protocol
  import L = Locks

  // ----- a reserve -----

  /** The thread's next steps, by itself, up to the stamp. */
  ghost function Alone(s: State, t: Tid, steps: nat): State
    decreases steps
  {
    if steps == 0 || t !in s.threads || !Holding(s.threads[t].pc) || s.threads[t].pc.Stamping? then s
    else Alone(Step(s, OfThread(t, L.NextStep(s.threads[t].pc))), t, steps - 1)
  }

  function MarkOf(s: State, lane: Lane): Option<int> {
    if lane in s.lwm then Some(s.lwm[lane]) else None
  }

  /** The thread holds an entry with this cell; its Queue is not being walked. */
  predicate Shows(s: State, t: Tid, key: Key, cell: Cell, mark: Option<int>, jobs: JobMap) {
    && t in s.threads && s.threads[t].call.key == key && s.threads[t].e in s.entries
    && s.entries[s.threads[t].e].cell == cell
    && key.queue !in s.walks && MarkOf(s, LaneOf(key)) == mark && s.jobs == jobs
  }

  lemma TouchAlone(s: State, t: Tid, key: Key, cell: Cell, mark: Option<int>, jobs: JobMap)
    requires Shows(s, t, key, cell, mark, jobs) && s.threads[t].pc.Touching?
    ensures var s' := Step(s, OfThread(t, Touch));
            Shows(s', t, key, cell.(touched := true), mark, jobs) && s'.threads[t].pc.Swapping?
  {
  }

  lemma SwapAlone(s: State, t: Tid, key: Key, cell: Cell, mark: Option<int>, jobs: JobMap)
    requires Shows(s, t, key, cell, mark, jobs) && s.threads[t].pc.Swapping?
    ensures var s' := Step(s, OfThread(t, Swap));
            var used := cell.seeded && !cell.stale;
            && Shows(s', t, key, cell.(stale := false, seeded := used), mark, jobs)
            && var pc := s'.threads[t].pc;
            if used then pc.Stamping? else if cell.everSeeded then pc.EdgeReading? else pc.ClockReading?
  {
  }

  lemma ClockAlone(s: State, t: Tid, key: Key, cell: Cell, mark: Option<int>, jobs: JobMap)
    requires Shows(s, t, key, cell, mark, jobs) && s.threads[t].pc.ClockReading?
    ensures var s' := Step(s, OfThread(t, ReadClock));
            && Shows(s', t, key, cell, mark, jobs)
            && match Clock(jobs, key.line.partition)
               case Some(v) => s'.threads[t].pc.Storing? && s'.threads[t].pc.value == v
               case None => s'.threads[t].pc.LowReading?
  {
  }

  lemma LowAlone(s: State, t: Tid, key: Key, cell: Cell, mark: Option<int>, jobs: JobMap)
    requires Shows(s, t, key, cell, mark, jobs) && s.threads[t].pc.LowReading?
    ensures var s' := Step(s, OfThread(t, ReadLow));
            && Shows(s', t, key, cell, mark, jobs)
            && match LowestPending(jobs, key.line.partition)
               case Some(v) => s'.threads[t].pc.Storing? && s'.threads[t].pc.value == v
               case None => s'.threads[t].pc.EdgeReading?
  {
  }

  lemma StoreAlone(s: State, t: Tid, key: Key, cell: Cell, mark: Option<int>, jobs: JobMap)
    requires Shows(s, t, key, cell, mark, jobs) && s.threads[t].pc.Storing?
    ensures var s' := Step(s, OfThread(t, StoreFrontier));
            Shows(s', t, key, cell, Some(s.threads[t].pc.value), jobs) && s'.threads[t].pc.EdgeReading?
  {
  }

  lemma EdgeAlone(s: State, t: Tid, key: Key, cell: Cell, mark: Option<int>, jobs: JobMap)
    requires Shows(s, t, key, cell, mark, jobs) && s.threads[t].pc.EdgeReading?
    ensures var s' := Step(s, OfThread(t, ReadEdge));
            && Shows(s', t, key, cell, mark, jobs) && s'.threads[t].pc.FloorReading?
            && s'.threads[t].pc.edge == TrailingEdge(jobs, key.line.tenant, key.line.partition)
  {
  }

  lemma FloorAlone(s: State, t: Tid, key: Key, cell: Cell, mark: Option<int>, jobs: JobMap)
    requires Shows(s, t, key, cell, mark, jobs) && s.threads[t].pc.FloorReading?
    ensures var s' := Step(s, OfThread(t, ReadFloor));
            && s'.threads.Keys == s.threads.Keys && t in s'.threads && s'.threads[t].pc.Stamping?
            && Shows(s', t, key, Reseeded(cell, s.threads[t].pc.edge, mark), mark, jobs)
  {
  }

  /** Seeded again: the clock is the larger of the trailing edge and the low-water mark, none counting as 0. */
  function Reseeded(cell: Cell, edge: int, mark: Option<int>): Cell {
    var floor := if mark.Some? then mark.value else 0;
    cell.(vtime := if edge < floor then floor else edge, seeded := true, everSeeded := true)
  }

  lemma SeedAlone(s: State, t: Tid, key: Key, cell: Cell, mark: Option<int>, jobs: JobMap, steps: nat)
    requires Shows(s, t, key, cell, mark, jobs) && s.threads[t].pc.EdgeReading? && steps >= 2
    ensures var s' := Alone(s, t, steps);
            && t in s'.threads && s'.threads[t].pc.Stamping?
            && Shows(s', t, key, Reseeded(cell, TrailingEdge(jobs, key.line.tenant, key.line.partition), mark), mark,
                     jobs)
  {
    EdgeAlone(s, t, key, cell, mark, jobs);
    var s1 := Step(s, OfThread(t, ReadEdge));
    FloorAlone(s1, t, key, cell, mark, jobs);
    assert Alone(s, t, steps) == Alone(s1, t, steps - 1);
    assert Alone(s1, t, steps - 1) == Alone(Step(s1, OfThread(t, ReadFloor)), t, steps - 2);
  }

  /** The low-water mark after a frontier was computed and stored, if there is one. */
  ghost function FrontierOr(mark: Option<int>, jobs: JobMap, partition: string): Option<int> {
    if Clock(jobs, partition).Some? then Clock(jobs, partition)
    else if LowestPending(jobs, partition).Some? then LowestPending(jobs, partition)
    else mark
  }

  lemma ColdSeedAlone(s: State, t: Tid, key: Key, cell: Cell, mark: Option<int>, jobs: JobMap)
    requires Shows(s, t, key, cell, mark, jobs) && s.threads[t].pc.ClockReading?
    ensures var s' := Alone(s, t, 5);
            var mark' := FrontierOr(mark, jobs, key.line.partition);
            && t in s'.threads && s'.threads[t].pc.Stamping?
            && Shows(s', t, key, Reseeded(cell, TrailingEdge(jobs, key.line.tenant, key.line.partition), mark'), mark',
                     jobs)
  {
    ClockAlone(s, t, key, cell, mark, jobs);
    var s1 := Step(s, OfThread(t, ReadClock));
    assert Alone(s, t, 5) == Alone(s1, t, 4);
    if s1.threads[t].pc.Storing? {
      StoredAlone(s1, t, key, cell, mark, jobs, 4);
    } else {
      LowAlone(s1, t, key, cell, mark, jobs);
      var s2 := Step(s1, OfThread(t, ReadLow));
      assert Alone(s1, t, 4) == Alone(s2, t, 3);
      if s2.threads[t].pc.Storing? { StoredAlone(s2, t, key, cell, mark, jobs, 3); }
      else { SeedAlone(s2, t, key, cell, mark, jobs, 3); }
    }
  }

  lemma StoredAlone(s: State, t: Tid, key: Key, cell: Cell, mark: Option<int>, jobs: JobMap, steps: nat)
    requires Shows(s, t, key, cell, mark, jobs) && s.threads[t].pc.Storing? && steps >= 3
    ensures var s' := Alone(s, t, steps);
            var mark' := Some(s.threads[t].pc.value);
            && t in s'.threads && s'.threads[t].pc.Stamping?
            && Shows(s', t, key, Reseeded(cell, TrailingEdge(jobs, key.line.tenant, key.line.partition), mark'), mark',
                     jobs)
  {
    StoreAlone(s, t, key, cell, mark, jobs);
    var s1 := Step(s, OfThread(t, StoreFrontier));
    assert Alone(s, t, steps) == Alone(s1, t, steps - 1);
    SeedAlone(s1, t, key, cell, Some(s.threads[t].pc.value), jobs, steps - 1);
  }

  /**
   A reserve by itself. From the lock to the stamp: a clock in use is stamped from as it stands; a timeline seeded
   before takes its trailing edge and the stored mark; a new one computes the frontier and stores it first.
   */
  lemma ReserveAlone(s: State, t: Tid, key: Key, cell: Cell, mark: Option<int>, jobs: JobMap)
    requires Shows(s, t, key, cell, mark, jobs) && s.threads[t].pc.Touching?
    ensures var s' := Alone(s, t, 7);
            var edge := TrailingEdge(jobs, key.line.tenant, key.line.partition);
            var swapped := cell.(touched := true, stale := false);
            && t in s'.threads && s'.threads[t].pc.Stamping?
            && (if cell.seeded && !cell.stale then Shows(s', t, key, swapped, mark, jobs)
                else if cell.everSeeded then Shows(s', t, key, Reseeded(swapped, edge, mark), mark, jobs)
                else var mark' := FrontierOr(mark, jobs, key.line.partition);
                     Shows(s', t, key, Reseeded(swapped, edge, mark'), mark', jobs))
  {
    TouchAlone(s, t, key, cell, mark, jobs);
    var s1 := Step(s, OfThread(t, Touch));
    assert Alone(s, t, 7) == Alone(s1, t, 6);
    var touched := cell.(touched := true);
    SwapAlone(s1, t, key, touched, mark, jobs);
    var s2 := Step(s1, OfThread(t, Swap));
    assert Alone(s1, t, 6) == Alone(s2, t, 5);
    if !(cell.seeded && !cell.stale) {
      var unseeded := touched.(stale := false, seeded := false);
      if cell.everSeeded { SeedAlone(s2, t, key, unseeded, mark, jobs, 5); }
      else { ColdSeedAlone(s2, t, key, unseeded, mark, jobs); }
    }
  }

  // ----- an insert -----

  /** What an insert stores: the call's own envelope at the stamp, pending and never claimed. */
  lemma InsertAlone(s: State, t: Tid, hidden: bool)
    requires ThreadEnabled(s, t, InsertOne(hidden))
    ensures var call := s.threads[t].call;
            Step(s, OfThread(t, InsertOne(hidden))).jobs ==
            s.jobs[call.id := Job(call.key.line.tenant, call.key.line.partition, call.cost, s.threads[t].pc.vstamp,
                                  Pending, "", "", call.visibleAt, 0, None)]
  {
  }

  // ----- a walk's turn at an entry -----

  lemma Twice(s: State, a: Action, b: Action)
    ensures Run(s, [a, b]) == Step(Step(s, a), b)
  {
    assert [a, b][1..] == [b] && [b][1..] == [];
    assert Run(Step(s, a), [b]) == Run(Step(Step(s, a), b), []);
  }

  /** The walk is at this point, with this entry for the key. */
  predicate At(s: State, q: QueueId, w: Walk, key: Key, e: EntryId, en: Entry) {
    && q in s.walks && s.walks[q] == w && key in s.tenants && s.tenants[key] == e && e in s.entries
    && s.entries[e] == en
  }

  /** An entry touched since the last walk is marked stale, and nothing else happens to the map. */
  lemma TouchedIsMarked(s: State, q: QueueId, todo: set<Key>, key: Key, e: EntryId, en: Entry)
    requires At(s, q, Picking(todo), key, e, en) && key in todo && en.cell.touched
    ensures var s' := Run(s, [OfWalk(q, Pick(key)), OfWalk(q, Mark)]);
            && At(s', q, Picking(todo - {key}), key, e, en.(cell := en.cell.(touched := false, stale := true)))
            && s'.tenants == s.tenants
  {
    Twice(s, OfWalk(q, Pick(key)), OfWalk(q, Mark));
    PickAlone(s, q, todo, key, e, en);
    MarkAlone(Step(s, OfWalk(q, Pick(key))), q, todo - {key}, key, e, en.(cell := en.cell.(touched := false)));
  }

  lemma PickAlone(s: State, q: QueueId, todo: set<Key>, key: Key, e: EntryId, en: Entry)
    requires At(s, q, Picking(todo), key, e, en) && key in todo
    ensures var s' := Step(s, OfWalk(q, Pick(key)));
            var rest := todo - {key};
            && At(s', q, if en.cell.touched then Marking(rest, key, e) else Trying(rest, key, e), key, e,
                  en.(cell := en.cell.(touched := false)))
            && s'.tenants == s.tenants
  {
  }

  lemma MarkAlone(s: State, q: QueueId, todo: set<Key>, key: Key, e: EntryId, en: Entry)
    requires At(s, q, Marking(todo, key, e), key, e, en)
    ensures var s' := Step(s, OfWalk(q, Mark));
            At(s', q, Picking(todo), key, e, en.(cell := en.cell.(stale := true))) && s'.tenants == s.tenants
  {
  }

  /** An untouched entry goes on to the lock: if it is held the entry is marked after all, otherwise the walk has it. */
  lemma TryAlone(s: State, q: QueueId, todo: set<Key>, key: Key, e: EntryId, en: Entry)
    requires At(s, q, Trying(todo, key, e), key, e, en)
    ensures var s' := Step(s, OfWalk(q, TryLock));
            && s'.tenants == s.tenants
            && if en.holder.Free? then At(s', q, Deleting(todo, key, e), key, e, en.(holder := ByWalk))
               else At(s', q, Marking(todo, key, e), key, e, en)
  {
    if en.holder.Free? {
      assert DoTryLock(s, q).entries == s.entries[e := en.(holder := ByWalk)];
    } else {
      assert DoTryLock(s, q).entries == s.entries;
    }
  }

  lemma HeldIsMarked(s: State, q: QueueId, todo: set<Key>, key: Key, e: EntryId, en: Entry)
    requires At(s, q, Trying(todo, key, e), key, e, en) && !en.holder.Free?
    ensures var s' := Run(s, [OfWalk(q, TryLock), OfWalk(q, Mark)]);
            At(s', q, Picking(todo), key, e, en.(cell := en.cell.(stale := true))) && s'.tenants == s.tenants
  {
    Twice(s, OfWalk(q, TryLock), OfWalk(q, Mark));
    TryAlone(s, q, todo, key, e, en);
    MarkAlone(Step(s, OfWalk(q, TryLock)), q, todo, key, e, en);
  }

  /** An idle entry leaves the map, evicted and unlocked. */
  lemma IdleIsEvicted(s: State, q: QueueId, todo: set<Key>, key: Key, e: EntryId, en: Entry)
    requires At(s, q, Deleting(todo, key, e), key, e, en)
    ensures var s' := Run(s, [OfWalk(q, Delete), OfWalk(q, Evict)]);
            && s'.tenants == s.tenants - {key} && q in s'.walks && s'.walks[q] == Picking(todo)
            && s'.entries == s.entries[e := en.(cell := en.cell.(evicted := true), holder := Free)]
  {
    Twice(s, OfWalk(q, Delete), OfWalk(q, Evict));
    var s1 := Step(s, OfWalk(q, Delete));
    assert s1.tenants == s.tenants - {key} && s1.entries == s.entries
           && s1.walks == s.walks[q := Evicting(todo, key, e)];
  }

  /** The prune takes on exactly the stored marks whose partition has no cached entry of the Queue. */
  lemma PruneTargets(s: State, q: QueueId)
    requires q in s.walks && s.walks[q] == Picking({})
    ensures var s' := Step(s, OfWalk(q, BeginPrune));
            && s'.lwm == s.lwm && q in s'.walks && s'.walks[q].Pruning?
            && forall p :: p in s'.walks[q].partitions <==>
                           Lane(q, p) in s.lwm && !exists k <- s.tenants :: k.queue == q && k.line.partition == p
  {
    var s' := Step(s, OfWalk(q, BeginPrune));
    forall p ensures p in s'.walks[q].partitions <==> Lane(q, p) in s.lwm && !Cached(s, Lane(q, p)) {
      if Lane(q, p) in s.lwm && !Cached(s, Lane(q, p)) { assert Lane(q, p).partition == p; }
    }
  }

  lemma PruneAlone(s: State, q: QueueId, partition: string)
    requires q in s.walks && s.walks[q].Pruning? && partition in s.walks[q].partitions
    ensures Step(s, OfWalk(q, Prune(partition))).lwm == s.lwm - {Lane(q, partition)}
  {
  }

  // ----- a refresh -----

  /** The refresh is at this point, and everything else as at s0. */
  predicate Refreshing(s0: State, s: State, r: nat, rf: Refresh) {
    && r in s.refreshes && s.refreshes[r] == rf
    && s.jobs == s0.jobs && s.lwm == s0.lwm && s.tenants == s0.tenants && s.entries == s0.entries && s.walks == s0.walks
  }

  /** It is over, and the mark of its lane is this one. */
  predicate Refreshed(s0: State, s: State, r: nat, lane: Lane, mark: Option<int>) {
    && r !in s.refreshes && s.jobs == s0.jobs && s.tenants == s0.tenants && s.entries == s0.entries
    && MarkOf(s, lane) == mark
    && forall other <- s0.lwm :: other != lane ==> other in s.lwm && s.lwm[other] == s0.lwm[other]
  }

  lemma ReadsClock(s: State, r: nat, lane: Lane, began: Start)
    requires r in s.refreshes && s.refreshes[r] == ReadingClock(lane, began)
    ensures var s' := Step(s, OfRefresh(r, RefreshClock));
            match Clock(s.jobs, lane.partition)
            case Some(v) => Refreshing(s, s', r, StoringFrontier(lane, v, began))
            case None => Refreshing(s, s', r, ReadingLow(lane, began))
  {
  }

  lemma ReadsLow(s: State, r: nat, lane: Lane, began: Start)
    requires r in s.refreshes && s.refreshes[r] == ReadingLow(lane, began)
    ensures var s' := Step(s, OfRefresh(r, RefreshLow));
            match LowestPending(s.jobs, lane.partition)
            case Some(v) => Refreshing(s, s', r, StoringFrontier(lane, v, began))
            case None => Refreshed(s, s', r, lane, MarkOf(s, lane))
  {
  }

  lemma StoresFrontier(s: State, r: nat, lane: Lane, value: int, began: Start)
    requires r in s.refreshes && s.refreshes[r] == StoringFrontier(lane, value, began) && lane.queue !in s.walks
    ensures Refreshed(s, Step(s, OfRefresh(r, RefreshStore)), r, lane, Some(value))
  {
  }

  /** A refresh by itself stores the frontier, or leaves the mark when there is none. */
  lemma RefreshAlone(s: State, r: nat, lane: Lane, began: Start) returns (actions: seq<Action>)
    requires r in s.refreshes && s.refreshes[r] == ReadingClock(lane, began) && lane.queue !in s.walks
    ensures Refreshed(s, Run(s, actions), r, lane, FrontierOr(MarkOf(s, lane), s.jobs, lane.partition))
  {
    ReadsClock(s, r, lane, began);
    var s1 := Step(s, OfRefresh(r, RefreshClock));
    var store := OfRefresh(r, RefreshStore);
    if Clock(s.jobs, lane.partition).Some? {
      actions := [OfRefresh(r, RefreshClock), store];
      Twice(s, OfRefresh(r, RefreshClock), store);
      StoresFrontier(s1, r, lane, Clock(s.jobs, lane.partition).value, began);
    } else {
      ReadsLow(s1, r, lane, began);
      var s2 := Step(s1, OfRefresh(r, RefreshLow));
      if LowestPending(s.jobs, lane.partition).Some? {
        actions := [OfRefresh(r, RefreshClock), OfRefresh(r, RefreshLow), store];
        assert actions[1..] == [OfRefresh(r, RefreshLow), store];
        Twice(s1, OfRefresh(r, RefreshLow), store);
        StoresFrontier(s2, r, lane, LowestPending(s.jobs, lane.partition).value, began);
      } else {
        actions := [OfRefresh(r, RefreshClock), OfRefresh(r, RefreshLow)];
        Twice(s, OfRefresh(r, RefreshClock), OfRefresh(r, RefreshLow));
      }
    }
  }
}
