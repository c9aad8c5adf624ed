/**
 Timeline order: with one writer per timeline, a seeded entry's clock is never
 below a pending stamp of its timeline, so every stamp inserted exceeds them all.
 */
module Order {
  import opened Jobs
  import opened Frontier
  import opened Cell
  import opened Protocol
  import L = Locks

  /** Every enqueue for the timeline so far came through one Queue, as the caller must arrange. */
  predicate SoleWriter(s: State, line: Timeline) {
    forall k <- s.past.writers, m <- s.past.writers :: k.line == line && m.line == line ==> k.queue == m.queue
  }

  /** The two obligations timeline order rests on: one writer, and an insert that errs stores nothing. */
  predicate Trusted(s: State, line: Timeline) {
    SoleWriter(s, line) && line !in s.past.hidden
  }

  predicate OnTimeline(j: Job, line: Timeline) {
    j.tenant == line.tenant && j.partition == line.partition
  }

  predicate PendingAtMost(jobs: JobMap, line: Timeline, bound: int) {
    forall id <- jobs :: OnTimeline(jobs[id], line) && jobs[id].liveness == Pending ==> jobs[id].vstamp <= bound
  }

  /** What the entry's clock stands for: between an insert and its commit, the stamp just inserted. */
  function Top(s: State, e: EntryId): int
    requires e in s.entries
  {
    var en := s.entries[e];
    if en.holder.HeldBy? && en.holder.tid in s.threads && s.threads[en.holder.tid].pc.Committing?
    then s.threads[en.holder.tid].pc.vstamp
    else en.cell.vtime
  }

  predicate EntryOk(s: State, e: EntryId) {
    && e in s.entries
    && (!s.entries[e].cell.evicted && s.entries[e].cell.seeded && Trusted(s, s.entries[e].key.line) ==>
          PendingAtMost(s.jobs, s.entries[e].key.line, Top(s, e)))
  }

  predicate ThreadOk(s: State, t: Tid) {
    && t in s.threads
    && var th := s.threads[t];
    Holding(th.pc) ==>
      && th.e in s.entries
      && var cell := s.entries[th.e].cell;
      && (Seeding(th.pc) ==> !cell.seeded)
      && (Stamped(th.pc) ==> cell.seeded)
      && (th.pc.Inserting? || th.pc.Committing? ==> th.pc.vstamp == cell.vtime + th.call.stride)
      && (th.pc.FloorReading? && Trusted(s, th.call.key.line) ==>
            PendingAtMost(s.jobs, th.call.key.line, th.pc.edge))
  }

  ghost predicate Inv(s: State) {
    && (forall e {:trigger EntryOk(s, e)} :: e in s.entries ==> EntryOk(s, e))
    && (forall t {:trigger ThreadOk(s, t)} :: t in s.threads ==> ThreadOk(s, t))
  }

  /** The store only loses pending jobs and the obligations are not weakened. */
  ghost predicate Quiet(s: State, s': State) {
    && (forall line :: Trusted(s', line) ==> Trusted(s, line))
    && (forall line, bound :: PendingAtMost(s.jobs, line, bound) ==> PendingAtMost(s'.jobs, line, bound))
  }

  lemma QuietSame(s: State, s': State)
    requires s'.jobs == s.jobs && s.past.writers <= s'.past.writers && s.past.hidden <= s'.past.hidden
    ensures Quiet(s, s')
  {
  }

  /** A held step that leaves the store quiet only has to answer for its own thread and entry. */
  lemma HeldFrame(s: State, s': State, t: Tid)
    requires L.Inv(s) && Inv(s) && Quiet(s, s')
    requires L.KeepsHolding(s, s', t) && ThreadOk(s', t) && EntryOk(s', s.threads[t].e)
    ensures Inv(s')
  {
    assert L.ThreadOk(s, t);
    forall e | e in s'.entries ensures EntryOk(s', e) {
      if e != s.threads[t].e { assert EntryOk(s, e) && L.EntryOk(s, e); assert Top(s', e) == Top(s, e); }
    }
    forall u | u in s'.threads ensures ThreadOk(s', u) {
      if u != t { assert ThreadOk(s, u) && L.ThreadOk(s, u); }
    }
  }

  lemma LeaveFrame(s: State, s': State, t: Tid)
    requires L.Inv(s) && Inv(s) && Quiet(s, s')
    requires L.LeavesEntry(s, s', t) && EntryOk(s', s.threads[t].e)
    ensures Inv(s')
  {
    assert L.ThreadOk(s, t);
    forall e | e in s'.entries ensures EntryOk(s', e) {
      if e != s.threads[t].e { assert EntryOk(s, e) && L.EntryOk(s, e); assert Top(s', e) == Top(s, e); }
    }
    forall u | u in s'.threads ensures ThreadOk(s', u) {
      if u != t { assert ThreadOk(s, u) && L.ThreadOk(s, u); }
    }
  }

  /** Steps that change no clock and no seeded flag of an unevicted entry. */
  predicate SameClocks(s: State, s': State) {
    && s'.threads == s.threads && s.entries.Keys == s'.entries.Keys
    && forall e <- s.entries ::
         && s'.entries[e].key == s.entries[e].key
         && s'.entries[e].cell.vtime == s.entries[e].cell.vtime
         && s'.entries[e].cell.seeded == s.entries[e].cell.seeded
         && (s.entries[e].cell.evicted ==> s'.entries[e].cell.evicted)
         && (s.entries[e].holder.HeldBy? || s'.entries[e].holder.HeldBy? ==>
               s'.entries[e].holder == s.entries[e].holder)
  }

  lemma SameClocksFrame(s: State, s': State)
    requires Inv(s) && SameClocks(s, s') && Quiet(s, s')
    ensures Inv(s')
  {
    forall e | e in s'.entries ensures EntryOk(s', e) { assert EntryOk(s, e); assert Top(s', e) == Top(s, e); }
    forall u | u in s'.threads ensures ThreadOk(s', u) { assert ThreadOk(s, u); }
  }

  lemma BeginStep(s: State, t: Tid, call: Call)
    requires L.Inv(s) && Inv(s) && t !in s.threads
    ensures Inv(DoBegin(s, t, call))
  {
    var s' := DoBegin(s, t, call);
    QuietSame(s, s');
    forall e | e in s'.entries ensures EntryOk(s', e) {
      assert EntryOk(s, e) && L.EntryOk(s, e);
      assert Top(s', e) == Top(s, e);
    }
    forall u | u in s'.threads ensures ThreadOk(s', u) { if u != t { assert ThreadOk(s, u); } }
  }

  /** A thread without a lock moves; entries keep their clocks, a new one is unseeded, a free lock may be taken. */
  lemma OutsideFrame(s: State, s': State, t: Tid)
    requires L.Inv(s) && Inv(s) && Quiet(s, s')
    requires t in s.threads && t in s'.threads && s'.threads == s.threads[t := s'.threads[t]]
    requires !Holding(s.threads[t].pc)
             && (s'.threads[t].pc.Looking? || s'.threads[t].pc.Locking? || s'.threads[t].pc.Touching?)
    requires Holding(s'.threads[t].pc) ==> s'.threads[t].e in s'.entries
    requires s.entries.Keys <= s'.entries.Keys
    requires forall e <- s'.entries ::
               (e in s.entries ==>
                  && s'.entries[e].key == s.entries[e].key && s'.entries[e].cell == s.entries[e].cell
                  && (s'.entries[e].holder == s.entries[e].holder || s'.entries[e].holder == HeldBy(t)))
               && (e !in s.entries ==> !s'.entries[e].cell.seeded)
    requires forall e <- s.entries :: s.entries[e].holder.HeldBy? ==> s'.entries[e].holder == s.entries[e].holder
    ensures Inv(s')
  {
    forall e | e in s'.entries ensures EntryOk(s', e) {
      if e in s.entries { assert EntryOk(s, e) && L.EntryOk(s, e); assert Top(s', e) == Top(s, e); }
    }
    forall u | u in s'.threads ensures ThreadOk(s', u) { if u != t { assert ThreadOk(s, u) && L.ThreadOk(s, u); } }
  }

  lemma OutsideStep(s: State, t: Tid, a: ThreadAction)
    requires L.Inv(s) && Inv(s) && ThreadEnabled(s, t, a) && L.Outside(a)
    ensures Inv(ThreadEffect(s, t, a))
  {
    match a
    case Begin(call) => BeginStep(s, t, call);
    case Find => QuietSame(s, DoFind(s, t)); OutsideFrame(s, DoFind(s, t), t);
    case Create(newId) => QuietSame(s, DoCreate(s, t, newId)); OutsideFrame(s, DoCreate(s, t, newId), t);
    case TakeLock => QuietSame(s, DoTakeLock(s, t)); OutsideFrame(s, DoTakeLock(s, t), t);
    case BackOff => QuietSame(s, DoBackOff(s, t)); OutsideFrame(s, DoBackOff(s, t), t);
  }

  /** Touch, swap and the frontier steps: nothing about stamps changes. */
  lemma FlagStep(s: State, t: Tid, a: ThreadAction)
    requires L.Inv(s) && Inv(s) && ThreadEnabled(s, t, a)
    requires a.Touch? || a.Swap? || a.ReadClock? || a.ReadLow? || a.StoreFrontier?
    ensures Inv(ThreadEffect(s, t, a))
  {
    var s' := ThreadEffect(s, t, a);
    L.HeldStepShape(s, t, a);
    FlagStepStore(s, t, a);
    QuietSame(s, s');
    assert ThreadOk(s, t) && EntryOk(s, s.threads[t].e) && L.ThreadOk(s, t);
    HeldFrame(s, s', t);
  }

  lemma FlagStepStore(s: State, t: Tid, a: ThreadAction)
    requires ThreadEnabled(s, t, a)
    requires a.Touch? || a.Swap? || a.ReadClock? || a.ReadLow? || a.StoreFrontier?
    ensures ThreadEffect(s, t, a).jobs == s.jobs && ThreadEffect(s, t, a).past.hidden == s.past.hidden
    ensures t in ThreadEffect(s, t, a).threads
  {
  }

  lemma ReadEdgeStep(s: State, t: Tid)
    requires L.Inv(s) && Inv(s) && ThreadEnabled(s, t, ReadEdge)
    ensures Inv(DoReadEdge(s, t))
  {
    var s' := DoReadEdge(s, t);
    L.HeldStepShape(s, t, ReadEdge);
    QuietSame(s, s');
    assert ThreadOk(s, t) && EntryOk(s, s.threads[t].e) && L.ThreadOk(s, t);
    EdgeCovers(s.jobs, s.threads[t].call.key.line);
    HeldFrame(s, s', t);
  }

  lemma EdgeCovers(jobs: JobMap, line: Timeline)
    ensures PendingAtMost(jobs, line, TrailingEdge(jobs, line.tenant, line.partition))
  {
    var pool := TimelineSet(jobs, line.tenant, line.partition);
    forall id | id in jobs && OnTimeline(jobs[id], line) && jobs[id].liveness == Pending
      ensures jobs[id].vstamp <= TrailingEdge(jobs, line.tenant, line.partition)
    {
      assert id in pool;
    }
  }

  lemma ReadFloorStep(s: State, t: Tid)
    requires L.Inv(s) && Inv(s) && ThreadEnabled(s, t, ReadFloor)
    ensures Inv(DoReadFloor(s, t))
  {
    var s' := DoReadFloor(s, t);
    L.HeldStepShape(s, t, ReadFloor);
    QuietSame(s, s');
    assert ThreadOk(s, t) && EntryOk(s, s.threads[t].e) && L.ThreadOk(s, t);
    HeldFrame(s, s', t);
  }

  lemma MoveStep(s: State, t: Tid, a: ThreadAction)
    requires L.Inv(s) && Inv(s) && ThreadEnabled(s, t, a) && (a.Stamp? || a.FailInsert?)
    ensures Inv(ThreadEffect(s, t, a))
  {
    var s' := ThreadEffect(s, t, a);
    L.HeldStepShape(s, t, a);
    QuietSame(s, s');
    assert ThreadOk(s, t) && EntryOk(s, s.threads[t].e) && L.ThreadOk(s, t);
    HeldFrame(s, s', t);
  }

  /**
   The heart of it: the new stamp exceeds every pending stamp of its timeline, and no one else answers for that
   timeline.
   */
  lemma NewStampExceeds(s: State, t: Tid)
    requires L.Inv(s) && Inv(s) && t in s.threads && s.threads[t].pc.Inserting?
             && Trusted(s, s.threads[t].call.key.line)
    ensures PendingAtMost(s.jobs, s.threads[t].call.key.line, s.threads[t].pc.vstamp - 1)
  {
    assert L.ThreadOk(s, t) && ThreadOk(s, t) && EntryOk(s, s.threads[t].e);
    assert Top(s, s.threads[t].e) == s.entries[s.threads[t].e].cell.vtime;
  }

  lemma OnlyHolder(s: State, t: Tid, e: EntryId)
    requires L.Inv(s) && L.Reserves(s, t) && e in s.entries && !s.entries[e].cell.evicted
    requires s.entries[e].key == s.threads[t].call.key
    ensures e == s.threads[t].e
  {
    assert L.ThreadOk(s, t) && L.EntryOk(s, e);
    var q := s.entries[e].key.queue;
    if L.WalkHolds(s, q, e) { assert L.WalkOk(s, q); }
  }

  lemma InsertStep(s: State, t: Tid, hidden: bool)
    requires L.Inv(s) && Inv(s) && ThreadEnabled(s, t, InsertOne(hidden))
    ensures Inv(DoInsert(s, t, hidden))
  {
    var s' := DoInsert(s, t, hidden);
    forall e | e in s'.entries ensures EntryOk(s', e) { InsertEntry(s, t, hidden, e); }
    forall u | u in s'.threads ensures ThreadOk(s', u) { InsertThread(s, t, hidden, u); }
  }

  lemma InsertEntry(s: State, t: Tid, hidden: bool, e: EntryId)
    requires L.Inv(s) && Inv(s) && ThreadEnabled(s, t, InsertOne(hidden))
    requires e in s.entries
    ensures EntryOk(DoInsert(s, t, hidden), e)
  {
    var s' := DoInsert(s, t, hidden);
    var th := s.threads[t];
    var line := th.call.key.line;
    assert ThreadOk(s, t) && L.ThreadOk(s, t) && EntryOk(s, e) && L.EntryOk(s, e);
    if !s.entries[e].cell.evicted && s.entries[e].key.line == line && Trusted(s', line) {
      NewStampExceeds(s, t);
      assert s.entries[e].key == th.call.key;
      OnlyHolder(s, t, e);
    } else {
      assert Top(s', e) == Top(s, e) || e == th.e;
    }
  }

  lemma InsertThread(s: State, t: Tid, hidden: bool, u: Tid)
    requires L.Inv(s) && Inv(s) && ThreadEnabled(s, t, InsertOne(hidden))
    requires u in s.threads
    ensures ThreadOk(DoInsert(s, t, hidden), u)
  {
    var s' := DoInsert(s, t, hidden);
    var th := s.threads[t];
    assert ThreadOk(s, u) && L.ThreadOk(s, u) && ThreadOk(s, t) && L.ThreadOk(s, t);
    if u != t && s.threads[u].pc.FloorReading? && s.threads[u].call.key.line == th.call.key.line
       && Trusted(s', th.call.key.line) {
      assert s.threads[u].call.key == th.call.key;
    }
  }

  lemma CommitStep(s: State, t: Tid)
    requires L.Inv(s) && Inv(s) && ThreadEnabled(s, t, Commit)
    ensures Inv(DoCommit(s, t))
  {
    var s' := DoCommit(s, t);
    L.HeldStepShape(s, t, Commit);
    QuietSame(s, s');
    assert ThreadOk(s, t) && EntryOk(s, s.threads[t].e) && L.ThreadOk(s, t);
    assert Top(s, s.threads[t].e) == s.threads[t].pc.vstamp == Top(s', s.threads[t].e);
    LeaveFrame(s, s', t);
  }

  lemma GiveUpStep(s: State, t: Tid, a: ThreadAction)
    requires L.Inv(s) && Inv(s) && ThreadEnabled(s, t, a) && (a.FailHook? || a.Overflow? || a.Abort?)
    ensures Inv(DoGiveUp(s, t))
  {
    var s' := DoGiveUp(s, t);
    L.HeldStepShape(s, t, a);
    QuietSame(s, s');
    assert EntryOk(s, s.threads[t].e) && L.ThreadOk(s, t);
    LeaveFrame(s, s', t);
  }

  lemma ThreadStep(s: State, t: Tid, a: ThreadAction)
    requires L.Inv(s) && Inv(s) && ThreadEnabled(s, t, a)
    ensures Inv(ThreadEffect(s, t, a))
  {
    match a
    case ReadEdge => ReadEdgeStep(s, t);
    case ReadFloor => ReadFloorStep(s, t);
    case Stamp => MoveStep(s, t, a);
    case FailInsert => MoveStep(s, t, a);
    case InsertOne(hidden) => InsertStep(s, t, hidden);
    case Commit => CommitStep(s, t);
    case _ =>
      if L.Outside(a) { OutsideStep(s, t, a); }
      else if L.Returns(a) { GiveUpStep(s, t, a); }
      else { FlagStep(s, t, a); }
  }

  lemma RefreshFrame(s: State, s': State)
    requires Inv(s) && L.RefreshOnly(s, s')
    ensures Inv(s')
  {
    QuietSame(s, s');
    SameClocksFrame(s, s');
  }

  lemma RefreshStep(s: State, r: nat, a: RefreshAction)
    requires Inv(s) && RefreshEnabled(s, r, a)
    ensures Inv(RefreshEffect(s, r, a))
  {
    L.RefreshShape(s, r, a);
    RefreshFrame(s, RefreshEffect(s, r, a));
  }

  lemma WalkStep(s: State, q: QueueId, a: WalkAction)
    requires L.Inv(s) && Inv(s) && WalkEnabled(s, q, a)
    ensures Inv(WalkEffect(s, q, a))
  {
    WalkKeepsClocks(s, q, a);
    WalkFrame(s, WalkEffect(s, q, a));
  }

  lemma WalkFrame(s: State, s': State)
    requires Inv(s) && SameClocks(s, s') && s'.jobs == s.jobs
    requires s'.past.writers == s.past.writers && s'.past.hidden == s.past.hidden
    ensures Inv(s')
  {
    QuietSame(s, s');
    SameClocksFrame(s, s');
  }

  /** What a walk never touches: clocks, seeds, threads and the store. */
  ghost predicate WalkOnly(s: State, s': State) {
    && SameClocks(s, s') && s'.jobs == s.jobs && s'.time == s.time
    && s'.past == s.past.(handled := s'.past.handled, evictions := s'.past.evictions, floorBegan := s'.past.floorBegan)
  }

  lemma WalkKeepsClocks(s: State, q: QueueId, a: WalkAction)
    requires L.Inv(s) && WalkEnabled(s, q, a)
    ensures WalkOnly(s, WalkEffect(s, q, a))
  {
    match a
    case Pick(key) => assert WalkOnly(s, DoPick(s, q, key));
    case Mark => assert WalkOnly(s, DoMark(s, q));
    case BeginWalk =>
    case BeginPrune =>
    case Prune(_) =>
    case EndWalk =>
    case _ => EvictionKeepsClocks(s, q, a);
  }

  lemma EvictionKeepsClocks(s: State, q: QueueId, a: WalkAction)
    requires L.Inv(s) && WalkEnabled(s, q, a) && (a.TryLock? || a.Delete? || a.Evict?)
    ensures WalkOnly(s, WalkEffect(s, q, a))
  {
    assert L.WalkOk(s, q);
    match a
    case TryLock => assert WalkOnly(s, DoTryLock(s, q));
    case Delete => assert WalkOnly(s, DoDelete(s, q));
    case Evict => EvictKeepsClocks(s, q);
  }

  lemma EvictKeepsClocks(s: State, q: QueueId)
    requires L.Inv(s) && WalkEnabled(s, q, Evict)
    ensures WalkOnly(s, DoEvict(s, q))
  {
    assert L.WalkOk(s, q);
  }

  lemma StoreEventStep(s: State, ev: StoreEvent)
    requires Inv(s)
    ensures Inv(StoreEffect(s, ev))
  {
    var s' := StoreEffect(s, ev);
    StoreStepFrame(s.jobs, ev);
    forall line, bound | PendingAtMost(s.jobs, line, bound) ensures PendingAtMost(s'.jobs, line, bound) {}
    assert Quiet(s, s');
    SameClocksFrame(s, s');
  }

  lemma EffectKeepsInv(s: State, a: Action)
    requires L.Inv(s) && Inv(s) && Enabled(s, a)
    ensures Inv(Effect(s, a))
  {
    match a
    case OfThread(t, step) => ThreadStep(s, t, step);
    case OfRefresh(r, refresh) => RefreshStep(s, r, refresh);
    case OfWalk(q, walk) => WalkStep(s, q, walk);
    case OfStore(ev) => StoreEventStep(s, ev);
  }

  lemma StepKeepsInv(s: State, a: Action)
    requires L.Inv(s) && Inv(s)
    ensures Inv(Step(s, a))
  {
    if Enabled(s, a) {
      EffectKeepsInv(s, a);
      QuietSame(Effect(s, a), Step(s, a));
      SameClocksFrame(Effect(s, a), Step(s, a));
    }
  }
}
