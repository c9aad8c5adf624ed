/**
 The low-water mark under races: a seed that stored a frontier still finds it,
 and what a refresh stores is never below the service clock as it stood when the
 refresh began, short of a release or a deletion in the partition.
 */
module Floors {
  import opened Wrappers
  import opened Jobs
  import opened Frontier
  import opened Protocol
  import L = Locks
  import O = Order
  import B = Budget
  import K = Ledger

  /** No fenced record of the partition has been released or deleted so far. */
  predicate Undipped(s: State, partition: string) {
    partition !in s.past.dipped
  }

  /** The jobs that had a fence when the refresh began have it still, none stamped above the clock it began at. */
  ghost predicate Covered(jobs: JobMap, partition: string, start: Start) {
    forall id <- start.fenced ::
      id in jobs && jobs[id].partition == partition && jobs[id].claimId != ""
      && AtMost(Some(jobs[id].vstamp), start.clock)
  }

  ghost predicate LaneOk(s: State, lane: Lane) {
    && lane in s.lwm && lane in s.past.floorBegan
    && var start := s.past.floorBegan[lane];
    Undipped(s, lane.partition) ==> Covered(s.jobs, lane.partition, start) && AtMost(start.clock, Some(s.lwm[lane]))
  }

  /** An account stands at or above the clock that the refresh behind its last seed began at. */
  ghost predicate AccountOk(s: State, k: Key) {
    && k in s.past.ledger
    && var a := s.past.ledger[k];
    a.start.Some? && Undipped(s, k.line.partition) ==>
      Covered(s.jobs, k.line.partition, a.start.value) && AtMost(a.start.value.clock, Some(a.clock))
  }

  ghost predicate ThreadOk(s: State, t: Tid) {
    && t in s.threads
    && var th := s.threads[t];
    var p := th.call.key.line.partition;
    && (Undipped(s, p) ==>
          && (th.pc.ClockReading? ==> Covered(s.jobs, p, th.pc.began) && AtMost(th.pc.began.clock, Clock(s.jobs, p)))
          && (th.pc.LowReading? ==> Covered(s.jobs, p, th.pc.began) && th.pc.began.clock.None?)
          && (th.pc.Storing? ==> Covered(s.jobs, p, th.pc.began) && AtMost(th.pc.began.clock, Some(th.pc.value))))
    && (th.pc.EdgeReading? && th.pc.stored ==> LaneOf(th.call.key) in s.lwm)
    && (th.pc.FloorReading? && th.pc.stored ==> LaneOf(th.call.key) in s.lwm)
  }

  ghost predicate RefreshOk(s: State, r: nat) {
    && r in s.refreshes
    && var rf := s.refreshes[r];
    Undipped(s, rf.lane.partition) ==>
      && Covered(s.jobs, rf.lane.partition, rf.began)
      && match rf
         case ReadingClock(lane, began) => AtMost(began.clock, Clock(s.jobs, lane.partition))
         case ReadingLow(_, began) => began.clock.None?
         case StoringFrontier(_, value, began) => AtMost(began.clock, Some(value))
  }

  ghost predicate Inv(s: State) {
    && (forall lane {:trigger LaneOk(s, lane)} :: lane in s.lwm ==> LaneOk(s, lane))
    && (forall t {:trigger ThreadOk(s, t)} :: t in s.threads ==> ThreadOk(s, t))
    && (forall r {:trigger RefreshOk(s, r)} :: r in s.refreshes ==> RefreshOk(s, r))
    && (forall k {:trigger AccountOk(s, k)} :: k in s.past.ledger ==> AccountOk(s, k))
  }

  /** Nothing turns back: partitions stay dipped, undipped clocks never fall, and what they cover stays covered. */
  ghost predicate ClocksHold(s: State, s': State) {
    && (forall p :: Undipped(s', p) ==> Undipped(s, p) && AtMost(Clock(s.jobs, p), Clock(s'.jobs, p)))
    && (forall p, start {:trigger Covered(s'.jobs, p, start)} ::
          Undipped(s', p) && Covered(s.jobs, p, start) ==> Covered(s'.jobs, p, start))
  }

  lemma Frame(s: State, s': State)
    requires Inv(s) && ClocksHold(s, s')
    requires forall lane <- s'.lwm ::
               (lane in s.lwm && s'.lwm[lane] == s.lwm[lane] && lane in s'.past.floorBegan
                && (lane in s.past.floorBegan ==> s'.past.floorBegan[lane] == s.past.floorBegan[lane]))
               || LaneOk(s', lane)
    requires forall t <- s'.threads ::
               (t in s.threads && s'.threads[t] == s.threads[t]
                && (LaneOf(s.threads[t].call.key) in s.lwm && L.Reserves(s, t) ==>
                      LaneOf(s.threads[t].call.key) in s'.lwm))
               || ThreadOk(s', t)
    requires forall r <- s'.refreshes :: (r in s.refreshes && s'.refreshes[r] == s.refreshes[r]) || RefreshOk(s', r)
    requires forall k <- s'.past.ledger ::
               (k in s.past.ledger && s'.past.ledger[k].start == s.past.ledger[k].start
                && s.past.ledger[k].clock <= s'.past.ledger[k].clock)
               || AccountOk(s', k)
    ensures Inv(s')
  {
    forall k | k in s'.past.ledger ensures AccountOk(s', k) {
      if k in s.past.ledger {
        assert AccountOk(s, k);
        assert Undipped(s', k.line.partition) ==> Undipped(s, k.line.partition);
      }
    }
    forall lane | lane in s'.lwm ensures LaneOk(s', lane) { if lane in s.lwm { assert LaneOk(s, lane); } }
    forall t | t in s'.threads ensures ThreadOk(s', t) {
      if t in s.threads {
        assert ThreadOk(s, t);
        assert Undipped(s', s.threads[t].call.key.line.partition) ==> Undipped(s, s.threads[t].call.key.line.partition);
      }
    }
    forall r | r in s'.refreshes ensures RefreshOk(s', r) {
      if r in s.refreshes {
        assert RefreshOk(s, r);
        assert Undipped(s', s.refreshes[r].lane.partition) ==> Undipped(s, s.refreshes[r].lane.partition);
      }
    }
  }

  /** A thread moves; the store's clocks and the low-water marks stand. */
  lemma MoveFrame(s: State, s': State, t: Tid)
    requires Inv(s) && s'.jobs == s.jobs && s'.lwm == s.lwm && s'.refreshes == s.refreshes
    requires s'.past.floorBegan == s.past.floorBegan && s'.past.dipped == s.past.dipped
    requires forall k <- s'.past.ledger ::
               (k in s.past.ledger && s'.past.ledger[k] == s.past.ledger[k]) || AccountOk(s', k)
    requires forall u <- s'.threads :: u != t ==> u in s.threads && s'.threads[u] == s.threads[u]
    requires t in s'.threads ==> ThreadOk(s', t)
    ensures Inv(s')
  {
    forall lane | lane in s'.lwm ensures LaneOk(s', lane) { assert LaneOk(s, lane); }
    Frame(s, s');
  }

  lemma OutsideStep(s: State, t: Tid, a: ThreadAction)
    requires Inv(s) && ThreadEnabled(s, t, a) && L.Outside(a)
    ensures Inv(ThreadEffect(s, t, a))
  {
    match a
    case Begin(call) => MoveFrame(s, DoBegin(s, t, call), t);
    case Find => MoveFrame(s, DoFind(s, t), t);
    case Create(newId) => MoveFrame(s, DoCreate(s, t, newId), t);
    case TakeLock => MoveFrame(s, DoTakeLock(s, t), t);
    case BackOff => MoveFrame(s, DoBackOff(s, t), t);
  }

  lemma ReadStep(s: State, t: Tid, a: ThreadAction)
    requires Inv(s) && ThreadEnabled(s, t, a) && (a.Swap? || a.ReadClock? || a.ReadLow? || a.ReadEdge?)
    ensures Inv(ThreadEffect(s, t, a))
  {
    assert ThreadOk(s, t);
    match a
    case Swap => MoveFrame(s, DoSwap(s, t), t);
    case ReadClock => MoveFrame(s, DoReadClock(s, t), t);
    case ReadLow => MoveFrame(s, DoReadLow(s, t), t);
    case ReadEdge => MoveFrame(s, DoReadEdge(s, t), t);
  }

  lemma PlainStep(s: State, t: Tid, a: ThreadAction)
    requires Inv(s) && ThreadEnabled(s, t, a) && (a.Touch? || a.ReadFloor? || a.Stamp? || a.FailInsert?)
    ensures Inv(ThreadEffect(s, t, a))
  {
    match a
    case Touch => MoveFrame(s, DoTouch(s, t), t);
    case ReadFloor => ReadFloorStep(s, t);
    case Stamp => MoveFrame(s, DoStamp(s, t), t);
    case FailInsert => MoveFrame(s, Move(s, t, Aborting), t);
  }

  /** The seed's clock is not below its floor, nor the floor below the clock its refresh began at. */
  lemma ReadFloorStep(s: State, t: Tid)
    requires Inv(s) && ThreadEnabled(s, t, ReadFloor)
    ensures Inv(DoReadFloor(s, t))
  {
    var s', key := DoReadFloor(s, t), s.threads[t].call.key;
    if LaneOf(key) in s.lwm { assert LaneOk(s, LaneOf(key)); }
    assert AccountOk(s', key);
    MoveFrame(s, s', t);
  }

  lemma ReturnStep(s: State, t: Tid, a: ThreadAction)
    requires Inv(s) && ThreadEnabled(s, t, a) && L.Returns(a)
    ensures Inv(ThreadEffect(s, t, a))
  {
    if a.Commit? { MoveFrame(s, DoCommit(s, t), t); } else { MoveFrame(s, DoGiveUp(s, t), t); }
  }

  lemma StoreFrontierStep(s: State, t: Tid)
    requires Inv(s) && ThreadEnabled(s, t, StoreFrontier)
    ensures Inv(DoStore(s, t))
  {
    var s' := DoStore(s, t);
    assert ThreadOk(s, t);
    forall lane | lane in s'.lwm ensures LaneOk(s', lane) { if lane in s.lwm { assert LaneOk(s, lane); } }
    Frame(s, s');
  }

  lemma InsertStep(s: State, t: Tid, hidden: bool)
    requires L.Inv(s) && O.Inv(s) && K.Inv(s) && Inv(s) && ThreadEnabled(s, t, InsertOne(hidden))
    ensures Inv(DoInsert(s, t, hidden))
  {
    var s' := DoInsert(s, t, hidden);
    K.StampFromAccount(s, t);
    InsertHoldsClocks(s, s', s.threads[t].call.id);
    forall lane | lane in s.lwm ensures LaneOk(s, lane) {}
    Frame(s, s');
  }

  lemma InsertHoldsClocks(s: State, s': State, id: JobId)
    requires id !in s.jobs && id in s'.jobs && s'.jobs == s.jobs[id := s'.jobs[id]] && s'.jobs[id].claimId == ""
    requires s'.past.dipped == s.past.dipped
    ensures ClocksHold(s, s')
  {
    forall p ensures Clock(s'.jobs, p) == Clock(s.jobs, p) { ClockOfInsert(s.jobs, id, s'.jobs[id], p); }
  }

  lemma ThreadStep(s: State, t: Tid, a: ThreadAction)
    requires L.Inv(s) && O.Inv(s) && K.Inv(s) && Inv(s) && ThreadEnabled(s, t, a)
    ensures Inv(ThreadEffect(s, t, a))
  {
    if L.Outside(a) { OutsideStep(s, t, a); }
    else if L.Returns(a) { ReturnStep(s, t, a); }
    else if a.StoreFrontier? { StoreFrontierStep(s, t); }
    else if a.InsertOne? { InsertStep(s, t, a.hidden); }
    else if a.Swap? || a.ReadClock? || a.ReadLow? || a.ReadEdge? { ReadStep(s, t, a); }
    else { PlainStep(s, t, a); }
  }

  /** A refresh only adds sound slots and sound low-water marks. */
  ghost predicate Sound(s: State, s': State) {
    && s.lwm.Keys <= s'.lwm.Keys
    && (forall x <- s'.refreshes :: (x in s.refreshes && s'.refreshes[x] == s.refreshes[x]) || RefreshOk(s', x))
    && (forall lane <- s'.lwm :: LaneOk(s', lane))
  }

  lemma SoundSlot(s: State, s': State, r: nat)
    requires Inv(s) && s' == s.(refreshes := s'.refreshes)
    requires forall x <- s'.refreshes :: x != r ==> x in s.refreshes && s'.refreshes[x] == s.refreshes[x]
    requires r in s'.refreshes ==> RefreshOk(s', r)
    ensures Sound(s, s')
  {
    forall lane | lane in s'.lwm ensures LaneOk(s', lane) { assert LaneOk(s, lane); }
  }

  lemma RefreshStoreSound(s: State, r: nat)
    requires Inv(s) && RefreshEnabled(s, r, RefreshStore)
    ensures Sound(s, DoRefreshStore(s, r))
  {
    var s' := DoRefreshStore(s, r);
    assert RefreshOk(s, r);
    forall lane | lane in s'.lwm ensures LaneOk(s', lane) { if lane in s.lwm { assert LaneOk(s, lane); } }
  }

  lemma RefreshClockSound(s: State, r: nat)
    requires Inv(s) && RefreshEnabled(s, r, RefreshClock)
    ensures Sound(s, DoRefreshClock(s, r))
  {
    assert RefreshOk(s, r);
    SoundSlot(s, DoRefreshClock(s, r), r);
  }

  lemma RefreshLowSound(s: State, r: nat)
    requires Inv(s) && RefreshEnabled(s, r, RefreshLow)
    ensures Sound(s, DoRefreshLow(s, r))
  {
    assert RefreshOk(s, r);
    SoundSlot(s, DoRefreshLow(s, r), r);
  }

  lemma RefreshMoves(s: State, r: nat, a: RefreshAction)
    requires Inv(s) && RefreshEnabled(s, r, a)
    ensures Sound(s, RefreshEffect(s, r, a))
  {
    match a
    case BeginRefresh(lane) => SoundSlot(s, MoveRefresh(s, r, ReadingClock(lane, Now(s, lane.partition))), r);
    case RefreshClock => RefreshClockSound(s, r);
    case RefreshLow => RefreshLowSound(s, r);
    case RefreshStore => RefreshStoreSound(s, r);
    case FailRefresh => SoundSlot(s, DropRefresh(s, r), r);
  }

  lemma RefreshStep(s: State, r: nat, a: RefreshAction)
    requires Inv(s) && RefreshEnabled(s, r, a)
    ensures Inv(RefreshEffect(s, r, a))
  {
    L.RefreshShape(s, r, a);
    RefreshMoves(s, r, a);
    Frame(s, RefreshEffect(s, r, a));
  }

  /** A thread that holds a reservation keeps its partition cached, so no walk prunes its low-water mark. */
  lemma ReservedLaneCached(s: State, t: Tid)
    requires L.Inv(s) && L.Reserves(s, t)
    ensures Cached(s, LaneOf(s.threads[t].call.key))
  {
    assert L.ThreadOk(s, t);
  }

  lemma WalkStep(s: State, q: QueueId, a: WalkAction)
    requires L.Inv(s) && Inv(s) && WalkEnabled(s, q, a)
    ensures Inv(WalkEffect(s, q, a))
  {
    var s' := WalkEffect(s, q, a);
    O.WalkKeepsClocks(s, q, a);
    B.WalkKeepsLanes(s, q, a);
    forall lane | lane in s.lwm ensures LaneOk(s, lane) {}
    forall t | L.Reserves(s, t) ensures Cached(s, LaneOf(s.threads[t].call.key)) { ReservedLaneCached(s, t); }
    forall t | t in s'.threads ensures L.Reserves(s, t) || ThreadOk(s', t) { assert ThreadOk(s, t); }
    Frame(s, s');
  }

  lemma CoveredStands(s: State, ev: StoreEvent, p: string, start: Start)
    requires ProperClaim(ev) && Covered(s.jobs, p, start) && Undipped(StoreEffect(s, ev), p)
    ensures Covered(StoreEffect(s, ev).jobs, p, start)
  {
  }

  lemma StoreEventStep(s: State, ev: StoreEvent)
    requires Inv(s) && ProperClaim(ev)
    ensures Inv(StoreEffect(s, ev))
  {
    var s' := StoreEffect(s, ev);
    forall p | Undipped(s', p) ensures Undipped(s, p) && AtMost(Clock(s.jobs, p), Clock(s'.jobs, p)) {
      ClockStep(s.jobs, ev, p);
    }
    forall p, start | Undipped(s', p) && Covered(s.jobs, p, start) ensures Covered(s'.jobs, p, start) {
      CoveredStands(s, ev, p, start);
    }
    forall lane | lane in s.lwm ensures LaneOk(s, lane) {}
    Frame(s, s');
  }

  lemma EffectKeepsInv(s: State, a: Action)
    requires L.Inv(s) && O.Inv(s) && K.Inv(s) && Inv(s) && Enabled(s, a)
    ensures Inv(Effect(s, a))
  {
    match a
    case OfThread(t, step) => ThreadStep(s, t, step);
    case OfRefresh(r, refresh) => RefreshStep(s, r, refresh);
    case OfWalk(q, walk) => WalkStep(s, q, walk);
    case OfStore(ev) => StoreEventStep(s, ev);
  }

  lemma TickKeepsInv(s: State, now: nat)
    requires Inv(s)
    ensures Inv(Tick(s, now))
  {
    forall lane | lane in s.lwm ensures LaneOk(s, lane) {}
    Frame(s, Tick(s, now));
  }

  lemma StepKeepsInv(s: State, a: Action)
    requires L.Inv(s) && O.Inv(s) && K.Inv(s) && Inv(s)
    ensures Inv(Step(s, a))
  {
    if Enabled(s, a) {
      EffectKeepsInv(s, a);
      TickKeepsInv(Effect(s, a), s.time + 1);
    }
  }

  /** A cold seed that stored a frontier finds a value when it comes to read it. */
  lemma StoredFloorSurvives(s: State, t: Tid)
    requires Inv(s) && t in s.threads && s.threads[t].pc.FloorReading? && s.threads[t].pc.stored
    ensures LaneOf(s.threads[t].call.key) in s.lwm
  {
    assert ThreadOk(s, t);
  }

  /**
   Late refreshes: in an undipped partition a seed never lands below the service
   clock as it stood when the last-writing refresh began, so it falls short of
   the present clock by at most the clock's advance since then.
   */
  lemma SeedNotBelowRefreshedClock(s: State, t: Tid)
    requires L.Inv(s) && Inv(s) && ThreadEnabled(s, t, ReadFloor)
    requires var lane := LaneOf(s.threads[t].call.key); lane in s.lwm && Undipped(s, lane.partition)
    ensures var lane := LaneOf(s.threads[t].call.key);
            && lane in s.past.floorBegan
            && AtMost(s.past.floorBegan[lane].clock, Some(DoReadFloor(s, t).entries[s.threads[t].e].cell.vtime))
  {
    assert L.ThreadOk(s, t) && LaneOk(s, LaneOf(s.threads[t].call.key));
  }

  /** A stored value outlives every step as long as some entry of its partition is cached. */
  lemma StepKeepsCachedLane(s: State, a: Action, lane: Lane)
    requires L.Inv(s) && Inv(s) && lane in s.lwm && Cached(s, lane)
    ensures lane in Step(s, a).lwm
  {
    if Enabled(s, a) {
      match a
      case OfThread(t, step) => ThreadKeepsLanes(s, t, step);
      case OfRefresh(r, refresh) => RefreshMoves(s, r, refresh);
      case OfWalk(q, walk) => B.WalkKeepsLanes(s, q, walk);
      case OfStore(ev) =>
    }
  }

  lemma ThreadKeepsLanes(s: State, t: Tid, a: ThreadAction)
    requires ThreadEnabled(s, t, a)
    ensures s.lwm.Keys <= ThreadEffect(s, t, a).lwm.Keys
  {
  }
}
