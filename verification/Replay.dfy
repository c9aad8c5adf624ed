/**
 One run, step by step: a job is enqueued and cancelled, a walk marks the timeline
 stale, and the next enqueue is stamped below the first job's stamp.
 */
module Replay {
  import opened Wrappers
  import opened Jobs
  import opened Frontier
  import opened Cell
  import opened Protocol
  import O = Order
  import R = Runs
  import Stamps

  const LINE := Timeline("tenant", "default")
  const KEY := Key(0, LINE)
  const FIRST := Call(KEY, 5, 1, 5000, "first", 0)
  const SECOND := Call(KEY, 1, 1, 1000, "second", 0)
  const STORED := NewJob("tenant", "default", 5, 5000, 0)
  const NO_FENCE := Start(None, {})

  /** A run's state while the cache holds one entry, for KEY, and no low-water mark is stored. */
  function Lone(en: Entry, th: Option<Thread>, walk: Option<Walk>, jobs: JobMap, time: nat, past: History): State {
    State(map[0 := en], map[KEY := 0], map[],
          if th.Some? then map[0 := th.value] else map[], map[],
          if walk.Some? then map[0 := walk.value] else map[], jobs, time, past)
  }

  lemma Onward(s: State, a: Action)
    requires R.Reachable(s)
    ensures R.Reachable(Step(s, a))
  {
    R.ReachableGoesOn(s, [a]);
    assert Run(s, [a]) == Run(Step(s, a), []);
  }

  lemma Turns(s: State, step: ThreadAction, s': State)
    requires R.Reachable(s) && ThreadEnabled(s, 0, step) && Tick(ThreadEffect(s, 0, step), s.time + 1) == s'
    ensures R.Reachable(s')
  {
    Onward(s, OfThread(0, step));
  }

  lemma Walks(s: State, walk: WalkAction, s': State)
    requires R.Reachable(s) && WalkEnabled(s, 0, walk) && Tick(WalkEffect(s, 0, walk), s.time + 1) == s'
    ensures R.Reachable(s')
  {
    Onward(s, OfWalk(0, walk));
  }

  // ----- the first enqueue, cold -----

  const WRITTEN := INIT.past.(writers := {KEY})
  const SEEDED := WRITTEN.(ledger := map[KEY := Account(0, map[], 0, None, true, 5)])
  const LOGGED := SEEDED.(log := [Insertion(LINE, 5000, 5000)],
                  ledger := map[KEY := Account(5000, map[], 0, None, false, 5)])

  const TOUCHED := FRESH.(touched := true)
  const AT_ZERO := TOUCHED.(seeded := true, everSeeded := true)
  const SPENT := AT_ZERO.(vtime := 5000)

  const PENDING := map["first" := STORED]
  const CANCELLED := map["first" := Resolve(STORED, CANCELED, 0)]

  function Taken(cell: Cell, pc: Pc, seedTime: nat, seedStart: nat, jobs: JobMap, time: nat, past: History): State {
    Lone(Entry(KEY, cell, HeldBy(0), seedTime), Some(Thread(FIRST, 0, pc, 0, seedStart, 0, 0)), None, jobs, time, past)
  }

  const LOOKING := INIT.(threads := map[0 := Thread(FIRST, 0, Looking, 0, 0, 0, 0)], time := 2, past := WRITTEN)
  const FOUND := Lone(Entry(KEY, FRESH, Free, 0), Some(Thread(FIRST, 0, Locking, 0, 0, 0, 0)), None, map[], 3, WRITTEN)

  lemma FirstLooksUp()
    ensures R.Reachable(FOUND)
  {
    assert INIT == Run(INIT, []);
    Turns(INIT, Begin(FIRST), LOOKING);
    Turns(LOOKING, Create(0), FOUND);
  }

  lemma FirstTakesLock()
    ensures R.Reachable(Taken(FRESH, Touching, 0, 0, map[], 4, WRITTEN))
  {
    FirstLooksUp();
    Turns(FOUND, TakeLock, Taken(FRESH, Touching, 0, 0, map[], 4, WRITTEN));
  }

  /** Nothing is stored, so neither read finds a frontier. */
  lemma FirstFindsNoFrontier()
    ensures R.Reachable(Taken(TOUCHED, EdgeReading(false), 0, 5, map[], 8, WRITTEN))
  {
    FirstTakesLock();
    var s4 := Taken(FRESH, Touching, 0, 0, map[], 4, WRITTEN);
    var s5 := Taken(TOUCHED, Swapping, 0, 0, map[], 5, WRITTEN);
    var s6 := Taken(TOUCHED, ClockReading(NO_FENCE), 0, 5, map[], 6, WRITTEN);
    var s7 := Taken(TOUCHED, LowReading(NO_FENCE), 0, 5, map[], 7, WRITTEN);
    Turns(s4, Touch, s5);
    Turns(s5, Swap, s6);
    Turns(s6, ReadClock, s7);
    Turns(s7, ReadLow, Taken(TOUCHED, EdgeReading(false), 0, 5, map[], 8, WRITTEN));
  }

  lemma FirstReadsEdge()
    ensures R.Reachable(Taken(TOUCHED, FloorReading(false, 0, map[]), 0, 5, map[], 9, WRITTEN))
  {
    FirstFindsNoFrontier();
    var s8 := Taken(TOUCHED, EdgeReading(false), 0, 5, map[], 8, WRITTEN);
    Turns(s8, ReadEdge, Taken(TOUCHED, FloorReading(false, 0, map[]), 0, 5, map[], 9, WRITTEN));
  }

  lemma FirstSeeds()
    ensures R.Reachable(Taken(AT_ZERO, Inserting(5000), 5, 5, map[], 11, SEEDED))
  {
    FirstReadsEdge();
    var s9 := Taken(TOUCHED, FloorReading(false, 0, map[]), 0, 5, map[], 9, WRITTEN);
    var s10 := Taken(AT_ZERO, Stamping, 5, 5, map[], 10, SEEDED);
    Turns(s9, ReadFloor, s10);
    Turns(s10, Stamp, Taken(AT_ZERO, Inserting(5000), 5, 5, map[], 11, SEEDED));
  }

  lemma FirstCommits()
    ensures R.Reachable(Lone(Entry(KEY, SPENT, Free, 5), None, None, PENDING, 13, LOGGED))
  {
    FirstSeeds();
    var s11 := Taken(AT_ZERO, Inserting(5000), 5, 5, map[], 11, SEEDED);
    var s12 := Taken(AT_ZERO, Committing(5000), 5, 5, PENDING, 12, LOGGED);
    Turns(s11, InsertOne(false), s12);
    Turns(s12, Commit, Lone(Entry(KEY, SPENT, Free, 5), None, None, PENDING, 13, LOGGED));
  }

  // ----- the cancel and the walk -----

  const REFUNDED := LOGGED.(refunded := {LINE})
  const HANDLED := REFUNDED.(handled := map[KEY := 16])

  function Resting(cell: Cell, walk: Option<Walk>, time: nat, past: History): State {
    Lone(Entry(KEY, cell, Free, 5), None, walk, CANCELLED, time, past)
  }

  lemma ThenCancelled()
    ensures R.Reachable(Resting(SPENT, Some(Picking({KEY})), 15, REFUNDED))
  {
    FirstCommits();
    var s13 := Lone(Entry(KEY, SPENT, Free, 5), None, None, PENDING, 13, LOGGED);
    var s14 := Resting(SPENT, None, 14, REFUNDED);
    assert Step(s13, OfStore(Cancel("first", 0))) == s14;
    Onward(s13, OfStore(Cancel("first", 0)));
    assert (set k <- s14.tenants | k.queue == 0) == {KEY};
    Walks(s14, BeginWalk, Resting(SPENT, Some(Picking({KEY})), 15, REFUNDED));
  }

  const MARKED := SPENT.(touched := false, stale := true)

  lemma ThenMarked()
    ensures R.Reachable(Resting(MARKED, Some(Picking({})), 17, HANDLED))
  {
    ThenCancelled();
    var s15 := Resting(SPENT, Some(Picking({KEY})), 15, REFUNDED);
    var s16 := Resting(SPENT.(touched := false), Some(Marking({}, KEY, 0)), 16, REFUNDED);
    var s17 := Resting(MARKED, Some(Picking({})), 17, HANDLED);
    assert s15.walks[0].todo - {KEY} == {};
    Walks(s15, Pick(KEY), s16);
    Walks(s16, Mark, s17);
  }

  lemma ThenWalked()
    ensures R.Reachable(Resting(MARKED, None, 19, HANDLED))
  {
    ThenMarked();
    var s17 := Resting(MARKED, Some(Picking({})), 17, HANDLED);
    var s18 := Resting(MARKED, Some(Pruning({})), 18, HANDLED);
    assert (set lane <- s17.lwm | lane.queue == 0 && !Cached(s17, lane) :: lane.partition) == {};
    Walks(s17, BeginPrune, s18);
    Walks(s18, EndWalk, Resting(MARKED, None, 19, HANDLED));
  }

  // ----- the second enqueue -----

  function Retaken(cell: Cell, pc: Pc, seedTime: nat, handledBefore: nat, seedStart: nat, time: nat,
                   past: History): State {
    Lone(Entry(KEY, cell, HeldBy(0), seedTime), Some(Thread(SECOND, 0, pc, handledBefore, seedStart, 0, 0)), None,
         CANCELLED, time, past)
  }

  const FOUND_AGAIN :=
    Lone(Entry(KEY, MARKED, Free, 5), Some(Thread(SECOND, 0, Locking, 0, 0, 0, 0)), None, CANCELLED, 21, HANDLED)

  lemma SecondLooksUp()
    ensures R.Reachable(FOUND_AGAIN)
  {
    ThenWalked();
    var s19 := Resting(MARKED, None, 19, HANDLED);
    var s20 := FOUND_AGAIN.(threads := map[0 := Thread(SECOND, 0, Looking, 0, 0, 0, 0)], time := 20);
    assert HANDLED.writers + {KEY} == HANDLED.writers;
    Turns(s19, Begin(SECOND), s20);
    Turns(s20, Find, FOUND_AGAIN);
  }

  lemma SecondTakesLock()
    ensures R.Reachable(Retaken(MARKED, Touching, 5, 16, 0, 22, HANDLED))
  {
    SecondLooksUp();
    Turns(FOUND_AGAIN, TakeLock, Retaken(MARKED, Touching, 5, 16, 0, 22, HANDLED));
  }

  const UNSEEDED := MARKED.(touched := true, stale := false, seeded := false)
  const BACK_AT_ZERO := UNSEEDED.(vtime := 0, seeded := true)
  const RESEEDED := HANDLED.(ledger := map[KEY := Account(0, CANCELLED, 0, None, true, 23)])

  /** The timeline is stale, so its seed is forgotten. */
  lemma SecondSwaps()
    ensures R.Reachable(Retaken(UNSEEDED, EdgeReading(false), 5, 16, 23, 24, HANDLED))
  {
    SecondTakesLock();
    var s22 := Retaken(MARKED, Touching, 5, 16, 0, 22, HANDLED);
    var s23 := Retaken(MARKED.(touched := true), Swapping, 5, 16, 0, 23, HANDLED);
    var s24 := Retaken(UNSEEDED, EdgeReading(false), 5, 16, 23, 24, HANDLED);
    Turns(s22, Touch, s23);
    Turns(s23, Swap, s24);
  }

  /** Nothing of it is pending. */
  lemma SecondReadsEdge()
    ensures R.Reachable(AT_FLOOR)
  {
    SecondSwaps();
    var s24 := Retaken(UNSEEDED, EdgeReading(false), 5, 16, 23, 24, HANDLED);
    assert TimelineSet(CANCELLED, "tenant", "default") == {};
    assert TrailingEdge(CANCELLED, "tenant", "default") == 0;
    Turns(s24, ReadEdge, AT_FLOOR);
  }

  const AT_FLOOR := Retaken(UNSEEDED, FloorReading(false, 0, CANCELLED), 5, 16, 23, 25, HANDLED)
  const AT_STAMP := Retaken(BACK_AT_ZERO, Stamping, 23, 16, 23, 26, RESEEDED)

  lemma SecondOpens()
    ensures Tick(DoReadFloor(AT_FLOOR, 0), 26) == AT_STAMP
  {
    assert Opening(AT_FLOOR, AT_FLOOR.threads[0]) == Account(0, CANCELLED, 0, None, true, 23);
    assert DoReadFloor(AT_FLOOR, 0).past == RESEEDED;
  }

  lemma SecondSeeds()
    ensures R.Reachable(AT_STAMP)
  {
    SecondReadsEdge();
    SecondOpens();
    Turns(AT_FLOOR, ReadFloor, AT_STAMP);
  }

  lemma SecondStamps()
    ensures R.Reachable(Retaken(BACK_AT_ZERO, Inserting(1000), 23, 16, 23, 27, RESEEDED))
  {
    SecondSeeds();
    Turns(AT_STAMP, Stamp, Retaken(BACK_AT_ZERO, Inserting(1000), 23, 16, 23, 27, RESEEDED));
  }

  /**
   The failing input. On a trusted timeline whose only job was stamped 5000 and cancelled before anyone claimed it,
   the next enqueue after a walk is stamped 1000.
   */
  lemma StampFallsBelowHighest() returns (s: State)
    ensures Stamps.Stamping(s, 0) && O.Trusted(s, LINE) && s.threads[0].call.key.line == LINE
    ensures s.jobs == CANCELLED
    ensures Stamps.Highest(s.past.log, LINE) == Some(5000) && s.threads[0].pc.vstamp == 1000
  {
    SecondStamps();
    s := Retaken(BACK_AT_ZERO, Inserting(1000), 23, 16, 23, 27, RESEEDED);
    assert s.past.log[..0] == [];
  }
}
