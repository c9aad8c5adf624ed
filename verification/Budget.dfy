/**
 The clock budget. Across any number of Queues and writers, no stamp, cached
 clock or low-water mark of a partition exceeds the sum of the strides of all
 records ever inserted there, and all of them are non-negative int64 values.
 */
module Budget {
  import opened VTime
  import opened Jobs
  import opened Frontier
  import opened Cell
  import opened Protocol
  import L = Locks
  import O = Order

  predicate Affords(s: State, partition: string, v: int) {
    0 <= v <= Spent(s.past.log, partition) && v <= MAX_INT64
  }

  predicate JobOk(s: State, id: JobId) {
    id in s.jobs && Affords(s, s.jobs[id].partition, s.jobs[id].vstamp)
  }

  predicate EntryOk(s: State, e: EntryId) {
    e in s.entries && Affords(s, s.entries[e].key.line.partition, s.entries[e].cell.vtime)
  }

  predicate LaneOk(s: State, lane: Lane) {
    lane in s.lwm && Affords(s, lane.partition, s.lwm[lane])
  }

  predicate ThreadOk(s: State, t: Tid) {
    && t in s.threads
    && var th := s.threads[t];
    var p := th.call.key.line.partition;
    && (th.pc.Storing? ==> Affords(s, p, th.pc.value))
    && (th.pc.FloorReading? ==> Affords(s, p, th.pc.edge))
    && (th.pc.Inserting? ==> th.pc.vstamp <= MAX_INT64)
    && (th.pc.Committing? ==> Affords(s, p, th.pc.vstamp))
  }

  predicate RefreshOk(s: State, r: nat) {
    r in s.refreshes
    && (s.refreshes[r].StoringFrontier? ==> Affords(s, s.refreshes[r].lane.partition, s.refreshes[r].value))
  }

  ghost predicate Inv(s: State) {
    && (forall p {:trigger Spent(s.past.log, p)} :: Spent(s.past.log, p) >= 0)
    && (forall id {:trigger JobOk(s, id)} :: id in s.jobs ==> JobOk(s, id))
    && (forall e {:trigger EntryOk(s, e)} :: e in s.entries ==> EntryOk(s, e))
    && (forall lane {:trigger LaneOk(s, lane)} :: lane in s.lwm ==> LaneOk(s, lane))
    && (forall t {:trigger ThreadOk(s, t)} :: t in s.threads ==> ThreadOk(s, t))
    && (forall r {:trigger RefreshOk(s, r)} :: r in s.refreshes ==> RefreshOk(s, r))
  }

  /** The budget only grows. */
  ghost predicate Grows(s: State, s': State) {
    forall p :: Spent(s.past.log, p) <= Spent(s'.past.log, p)
  }

  /** Everything that is not new is carried over; what is new must be afforded. */
  lemma Frame(s: State, s': State)
    requires Inv(s) && Grows(s, s')
    requires forall id <- s'.jobs ::
               (id in s.jobs && s'.jobs[id].partition == s.jobs[id].partition
                && s'.jobs[id].vstamp == s.jobs[id].vstamp)
               || JobOk(s', id)
    requires forall e <- s'.entries ::
               (e in s.entries && s'.entries[e].key == s.entries[e].key
                && s'.entries[e].cell.vtime == s.entries[e].cell.vtime)
               || EntryOk(s', e)
    requires forall lane <- s'.lwm :: (lane in s.lwm && s'.lwm[lane] == s.lwm[lane]) || LaneOk(s', lane)
    requires forall t <- s'.threads :: (t in s.threads && s'.threads[t] == s.threads[t]) || ThreadOk(s', t)
    requires forall r <- s'.refreshes :: (r in s.refreshes && s'.refreshes[r] == s.refreshes[r]) || RefreshOk(s', r)
    ensures Inv(s')
  {
    forall p ensures Spent(s'.past.log, p) >= 0 { assert Spent(s.past.log, p) >= 0; }
    forall id | id in s'.jobs ensures JobOk(s', id) { if id in s.jobs { assert JobOk(s, id); } }
    forall e | e in s'.entries ensures EntryOk(s', e) { if e in s.entries { assert EntryOk(s, e); } }
    forall lane | lane in s'.lwm ensures LaneOk(s', lane) { if lane in s.lwm { assert LaneOk(s, lane); } }
    forall t | t in s'.threads ensures ThreadOk(s', t) { if t in s.threads { assert ThreadOk(s, t); } }
    forall r | r in s'.refreshes ensures RefreshOk(s', r) { if r in s.refreshes { assert RefreshOk(s, r); } }
  }

  lemma PoolAffords(s: State, partition: string, pool: set<JobId>)
    requires Inv(s) && pool <= s.jobs.Keys && forall id <- pool :: s.jobs[id].partition == partition
    ensures HighestStamp(s.jobs, pool).Some? ==> Affords(s, partition, HighestStamp(s.jobs, pool).value)
    ensures LowestStamp(s.jobs, pool).Some? ==> Affords(s, partition, LowestStamp(s.jobs, pool).value)
  {
    forall id | id in pool ensures Affords(s, partition, s.jobs[id].vstamp) { assert JobOk(s, id); }
  }

  lemma ReadsAfford(s: State, line: Timeline)
    requires Inv(s)
    ensures Clock(s.jobs, line.partition).Some? ==> Affords(s, line.partition, Clock(s.jobs, line.partition).value)
    ensures LowestPending(s.jobs, line.partition).Some? ==>
              Affords(s, line.partition, LowestPending(s.jobs, line.partition).value)
    ensures Affords(s, line.partition, TrailingEdge(s.jobs, line.tenant, line.partition))
  {
    PoolAffords(s, line.partition, FencedSet(s.jobs, line.partition));
    PoolAffords(s, line.partition, PendingSet(s.jobs, line.partition));
    PoolAffords(s, line.partition, TimelineSet(s.jobs, line.tenant, line.partition));
    assert Spent(s.past.log, line.partition) >= 0;
  }

  lemma SpentAppend(log: seq<Insertion>, i: Insertion, p: string)
    ensures Spent(log + [i], p) == Spent(log, p) + (if i.line.partition == p then i.stride else 0)
  {
    assert (log + [i])[..|log|] == log;
  }

  /** A step that adds no stamp: at most one thread moves, to a place it can afford. */
  lemma MoveFrame(s: State, s': State, t: Tid)
    requires Inv(s) && s'.jobs == s.jobs && s'.lwm == s.lwm && s'.refreshes == s.refreshes && s'.past.log == s.past.log
    requires s'.threads.Keys <= s.threads.Keys + {t}
    requires forall u <- s'.threads :: u != t ==> s'.threads[u] == s.threads[u]
    requires t in s'.threads ==> ThreadOk(s', t)
    requires forall e <- s'.entries ::
               (e in s.entries && s'.entries[e].key == s.entries[e].key
                && s'.entries[e].cell.vtime == s.entries[e].cell.vtime)
               || EntryOk(s', e)
    ensures Inv(s')
  {
    Frame(s, s');
  }

  lemma OutsideStep(s: State, t: Tid, a: ThreadAction)
    requires Inv(s) && ThreadEnabled(s, t, a) && L.Outside(a)
    ensures Inv(ThreadEffect(s, t, a))
  {
    match a
    case Begin(call) => MoveFrame(s, DoBegin(s, t, call), t);
    case Find => MoveFrame(s, DoFind(s, t), t);
    case Create(newId) =>
      assert Spent(s.past.log, s.threads[t].call.key.line.partition) >= 0;
      MoveFrame(s, DoCreate(s, t, newId), t);
    case TakeLock => MoveFrame(s, DoTakeLock(s, t), t);
    case BackOff => MoveFrame(s, DoBackOff(s, t), t);
  }

  lemma FlagStep(s: State, t: Tid, a: ThreadAction)
    requires Inv(s) && ThreadEnabled(s, t, a) && (a.Touch? || a.Swap?)
    ensures Inv(ThreadEffect(s, t, a))
  {
    match a
    case Touch => MoveFrame(s, DoTouch(s, t), t);
    case Swap => MoveFrame(s, DoSwap(s, t), t);
  }

  lemma ReadStep(s: State, t: Tid, a: ThreadAction)
    requires Inv(s) && ThreadEnabled(s, t, a) && (a.ReadClock? || a.ReadLow? || a.ReadEdge?)
    ensures Inv(ThreadEffect(s, t, a))
  {
    ReadsAfford(s, s.threads[t].call.key.line);
    match a
    case ReadClock => MoveFrame(s, DoReadClock(s, t), t);
    case ReadLow => MoveFrame(s, DoReadLow(s, t), t);
    case ReadEdge => MoveFrame(s, DoReadEdge(s, t), t);
  }

  lemma StoreFrontierStep(s: State, t: Tid)
    requires Inv(s) && ThreadEnabled(s, t, StoreFrontier)
    ensures Inv(DoStore(s, t))
  {
    assert ThreadOk(s, t);
    Frame(s, DoStore(s, t));
  }

  lemma ReadFloorStep(s: State, t: Tid)
    requires L.Inv(s) && Inv(s) && ThreadEnabled(s, t, ReadFloor)
    ensures Inv(DoReadFloor(s, t))
  {
    assert L.ThreadOk(s, t);
    SeedAffords(s, t);
    MoveFrame(s, DoReadFloor(s, t), t);
  }

  lemma SeedAffords(s: State, t: Tid)
    requires Inv(s) && L.Reserves(s, t) && s.threads[t].pc.FloorReading?
    ensures var th := s.threads[t];
            Affords(s, th.call.key.line.partition, Max(th.pc.edge, LwmFor(s, LaneOf(th.call.key))))
  {
    assert ThreadOk(s, t);
    var lane := LaneOf(s.threads[t].call.key);
    if lane in s.lwm { assert LaneOk(s, lane); }
  }

  lemma StampStep(s: State, t: Tid)
    requires Inv(s) && ThreadEnabled(s, t, ThreadAction.Stamp)
    ensures Inv(DoStamp(s, t))
  {
    MoveFrame(s, DoStamp(s, t), t);
  }

  lemma InsertStep(s: State, t: Tid, hidden: bool)
    requires L.Inv(s) && O.Inv(s) && Inv(s) && ThreadEnabled(s, t, InsertOne(hidden))
    ensures Inv(DoInsert(s, t, hidden))
  {
    InsertAffords(s, t, hidden);
    Frame(s, DoInsert(s, t, hidden));
  }

  /** An insert pays for its own stamp. */
  lemma InsertAffords(s: State, t: Tid, hidden: bool)
    requires L.Inv(s) && O.Inv(s) && Inv(s) && ThreadEnabled(s, t, InsertOne(hidden))
    ensures var s', call := DoInsert(s, t, hidden), s.threads[t].call;
            Grows(s, s') && JobOk(s', call.id) && ThreadOk(s', t)
  {
    var th := s.threads[t];
    var i := Insertion(th.call.key.line, th.call.stride, th.pc.vstamp);
    assert ThreadOk(s, t) && O.ThreadOk(s, t) && L.ThreadOk(s, t) && EntryOk(s, th.e);
    SpentGrows(s.past.log, i);
    SpentAppend(s.past.log, i, th.call.key.line.partition);
    assert DoInsert(s, t, hidden).past.log == s.past.log + [i];
  }

  lemma SpentGrows(log: seq<Insertion>, i: Insertion)
    requires i.stride >= 0
    ensures forall p :: Spent(log, p) <= Spent(log + [i], p)
  {
    forall p ensures Spent(log, p) <= Spent(log + [i], p) { SpentAppend(log, i, p); }
  }

  lemma CommitStep(s: State, t: Tid)
    requires L.Inv(s) && Inv(s) && ThreadEnabled(s, t, Commit)
    ensures Inv(DoCommit(s, t))
  {
    assert ThreadOk(s, t) && L.ThreadOk(s, t);
    MoveFrame(s, DoCommit(s, t), t);
  }

  lemma GiveUpStep(s: State, t: Tid)
    requires Inv(s) && Live(s, t) && !s.threads[t].pc.Looking?
    ensures Inv(DoGiveUp(s, t))
  {
    MoveFrame(s, DoGiveUp(s, t), t);
  }

  lemma FailInsertStep(s: State, t: Tid)
    requires Inv(s) && ThreadEnabled(s, t, FailInsert)
    ensures Inv(Move(s, t, Aborting))
  {
    MoveFrame(s, Move(s, t, Aborting), t);
  }

  lemma ReturnStep(s: State, t: Tid, a: ThreadAction)
    requires L.Inv(s) && O.Inv(s) && Inv(s) && ThreadEnabled(s, t, a) && L.Returns(a)
    ensures Inv(ThreadEffect(s, t, a))
  {
    if a.Commit? { CommitStep(s, t); } else { GiveUpStep(s, t); }
  }

  lemma WriteStep(s: State, t: Tid, a: ThreadAction)
    requires L.Inv(s) && O.Inv(s) && Inv(s) && ThreadEnabled(s, t, a)
    requires a.StoreFrontier? || a.ReadFloor? || a.Stamp? || a.InsertOne? || a.FailInsert?
    ensures Inv(ThreadEffect(s, t, a))
  {
    match a
    case StoreFrontier => StoreFrontierStep(s, t);
    case ReadFloor => ReadFloorStep(s, t);
    case Stamp => StampStep(s, t);
    case InsertOne(hidden) => InsertStep(s, t, hidden);
    case FailInsert => FailInsertStep(s, t);
  }

  lemma RefreshStep(s: State, r: nat, a: RefreshAction)
    requires Inv(s) && RefreshEnabled(s, r, a)
    ensures Inv(RefreshEffect(s, r, a))
  {
    L.RefreshShape(s, r, a);
    RefreshAffords(s, r, a);
    Frame(s, RefreshEffect(s, r, a));
  }

  lemma RefreshAffords(s: State, r: nat, a: RefreshAction)
    requires Inv(s) && RefreshEnabled(s, r, a)
    ensures var s' := RefreshEffect(s, r, a);
            && (forall x <- s'.refreshes :: (x in s.refreshes && s'.refreshes[x] == s.refreshes[x]) || RefreshOk(s', x))
            && (forall lane <- s'.lwm :: (lane in s.lwm && s'.lwm[lane] == s.lwm[lane]) || LaneOk(s', lane))
  {
    if r in s.refreshes {
      assert RefreshOk(s, r);
      ReadsAfford(s, Timeline("", s.refreshes[r].lane.partition));
    }
  }

  lemma WalkStep(s: State, q: QueueId, a: WalkAction)
    requires L.Inv(s) && Inv(s) && WalkEnabled(s, q, a)
    ensures Inv(WalkEffect(s, q, a))
  {
    O.WalkKeepsClocks(s, q, a);
    WalkKeepsLanes(s, q, a);
    Frame(s, WalkEffect(s, q, a));
  }

  /** A walk can only drop low-water marks, and only ones no cached entry of the queue uses. */
  lemma WalkKeepsLanes(s: State, q: QueueId, a: WalkAction)
    requires L.Inv(s) && WalkEnabled(s, q, a)
    ensures var s' := WalkEffect(s, q, a);
            && s'.refreshes == s.refreshes
            && s'.lwm.Keys <= s.lwm.Keys
            && (forall lane <- s'.lwm :: s'.lwm[lane] == s.lwm[lane])
            && (forall lane <- s.lwm :: Cached(s, lane) ==> lane in s'.lwm)
            && (forall lane <- s.past.floorBegan :: lane in s'.lwm ==> lane in s'.past.floorBegan)
            && (forall lane <- s'.past.floorBegan ::
                  lane in s.past.floorBegan && s'.past.floorBegan[lane] == s.past.floorBegan[lane])
  {
    if q in s.walks { assert L.WalkOk(s, q); }
  }

  lemma StoreEventStep(s: State, ev: StoreEvent)
    requires Inv(s)
    ensures Inv(StoreEffect(s, ev))
  {
    StoreStepFrame(s.jobs, ev);
    assert StoreEffect(s, ev).jobs == StoreStep(s.jobs, ev);
    Frame(s, StoreEffect(s, ev));
  }

  lemma EffectKeepsInv(s: State, a: Action)
    requires L.Inv(s) && O.Inv(s) && Inv(s) && Enabled(s, a)
    ensures Inv(Effect(s, a))
  {
    match a
    case OfThread(t, step) =>
      if L.Outside(step) { OutsideStep(s, t, step); }
      else if L.Returns(step) { ReturnStep(s, t, step); }
      else if step.Touch? || step.Swap? { FlagStep(s, t, step); }
      else if step.ReadClock? || step.ReadLow? || step.ReadEdge? { ReadStep(s, t, step); }
      else { WriteStep(s, t, step); }
    case OfRefresh(r, refresh) => RefreshStep(s, r, refresh);
    case OfWalk(q, walk) => WalkStep(s, q, walk);
    case OfStore(ev) => StoreEventStep(s, ev);
  }

  lemma StepKeepsInv(s: State, a: Action)
    requires L.Inv(s) && O.Inv(s) && Inv(s)
    ensures Inv(Step(s, a))
  {
    if Enabled(s, a) {
      EffectKeepsInv(s, a);
      Frame(Effect(s, a), Step(s, a));
    }
  }
}
