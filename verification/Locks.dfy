/**
 Who holds what, and which entries the map knows. From it: one reservation per
 timeline, no lock left behind, bounded retries, and no deadlock.
 */
module Locks {
  import opened Wrappers
  import opened Jobs
  import opened Protocol

  /** Entry e is the map's entry for its key. */
  predicate Mapped(s: State, e: EntryId)
    requires e in s.entries
  {
    s.entries[e].key in s.tenants && s.tenants[s.entries[e].key] == e
  }

  predicate WalkHolds(s: State, q: QueueId, e: EntryId) {
    q in s.walks && (s.walks[q].Deleting? || s.walks[q].Evicting?) && s.walks[q].e == e
  }

  ghost predicate ThreadOk(s: State, t: Tid) {
    && t in s.threads
    && var th := s.threads[t];
    && Normalized(th.call) && th.call.key in s.past.writers
    && (th.pc.Locking? ==> th.e in s.entries && s.entries[th.e].key == th.call.key)
    && (Holding(th.pc) ==>
          && th.e in s.entries
          && s.entries[th.e].key == th.call.key
          && s.entries[th.e].holder == HeldBy(t)
          && !s.entries[th.e].cell.evicted
          && Mapped(s, th.e))
  }

  predicate EntryOk(s: State, e: EntryId) {
    && e in s.entries
    && var en := s.entries[e];
    && en.key in s.past.writers
    && (en.holder.HeldBy? ==>
          en.holder.tid in s.threads && Holding(s.threads[en.holder.tid].pc) && s.threads[en.holder.tid].e == e)
    && (en.holder.ByWalk? ==> WalkHolds(s, en.key.queue, e))
    && (!en.cell.evicted ==> Mapped(s, e) || (WalkHolds(s, en.key.queue, e) && s.walks[en.key.queue].Evicting?))
  }

  predicate KeyOk(s: State, k: Key) {
    k in s.tenants && s.tenants[k] in s.entries && s.entries[s.tenants[k]].key == k
    && !s.entries[s.tenants[k]].cell.evicted
  }

  predicate WalkOk(s: State, q: QueueId) {
    && q in s.walks
    && var w := s.walks[q];
    && (!w.Pruning? ==> forall k <- w.todo :: k.queue == q && k in s.tenants)
    && (w.Pruning? ==> forall p <- w.partitions :: !Cached(s, Lane(q, p)))
    && (!w.Picking? && !w.Pruning? ==>
          && w.key.queue == q && w.key !in w.todo
          && w.e in s.entries && s.entries[w.e].key == w.key && !s.entries[w.e].cell.evicted
          && (if w.Evicting? then w.key !in s.tenants else w.key in s.tenants && s.tenants[w.key] == w.e)
          && (w.Deleting? || w.Evicting? ==> s.entries[w.e].holder.ByWalk?))
  }

  ghost predicate Inv(s: State) {
    && (forall t {:trigger ThreadOk(s, t)} :: t in s.threads ==> ThreadOk(s, t))
    && (forall e {:trigger EntryOk(s, e)} :: e in s.entries ==> EntryOk(s, e))
    && (forall k {:trigger KeyOk(s, k)} :: k in s.tenants ==> KeyOk(s, k))
    && (forall q {:trigger WalkOk(s, q)} :: q in s.walks ==> WalkOk(s, q))
  }

  // ----- the shapes a step can have, as far as locks are concerned -----

  predicate SameLocks(en: Entry, en': Entry) {
    en'.key == en.key && en'.holder == en.holder && en'.cell.evicted == en.cell.evicted
  }

  predicate SameMaps(s: State, s': State) {
    && s'.tenants == s.tenants && s'.walks == s.walks && s'.past.writers == s.past.writers
    && s'.past.evictions == s.past.evictions && s'.past.handled == s.past.handled && s'.time == s.time
  }

  predicate SameCall(th: Thread, th': Thread) {
    && th'.call == th.call && th'.retries == th.retries && th'.evictionsBefore == th.evictionsBefore
    && th'.handledBefore == th.handledBefore
  }

  /** The thread goes on holding its entry's lock. */
  predicate KeepsHolding(s: State, s': State, t: Tid) {
    && SameMaps(s, s')
    && t in s.threads && t in s'.threads
    && var th, th' := s.threads[t], s'.threads[t];
    && Holding(th.pc) && Holding(th'.pc) && th'.e == th.e && SameCall(th, th')
    && s'.threads == s.threads[t := th']
    && th.e in s.entries && th.e in s'.entries
    && s'.entries == s.entries[th.e := s'.entries[th.e]]
    && SameLocks(s.entries[th.e], s'.entries[th.e])
  }

  /** The thread's enqueue returns and its entry's lock is free again. */
  predicate LeavesEntry(s: State, s': State, t: Tid) {
    && SameMaps(s, s')
    && t in s.threads
    && var e := s.threads[t].e;
    && Holding(s.threads[t].pc)
    && s'.threads == s.threads - {t}
    && e in s.entries && e in s'.entries
    && s'.entries == s.entries[e := s'.entries[e]]
    && s'.entries[e].key == s.entries[e].key && s'.entries[e].holder.Free?
    && s'.entries[e].cell.evicted == s.entries[e].cell.evicted
  }

  lemma KeepsHoldingKeepsInv(s: State, s': State, t: Tid)
    requires Inv(s) && KeepsHolding(s, s', t)
    ensures Inv(s')
  {
    assert ThreadOk(s, t);
    forall u | u in s'.threads ensures ThreadOk(s', u) { assert ThreadOk(s, u); }
    forall e | e in s'.entries ensures EntryOk(s', e) { assert EntryOk(s, e); }
    forall k | k in s'.tenants ensures KeyOk(s', k) { assert KeyOk(s, k); }
    forall q | q in s'.walks ensures WalkOk(s', q) { assert WalkOk(s, q); CachedByTenants(s, s'); }
  }

  lemma LeavesEntryKeepsInv(s: State, s': State, t: Tid)
    requires Inv(s) && LeavesEntry(s, s', t)
    ensures Inv(s')
  {
    assert ThreadOk(s, t);
    forall u | u in s'.threads ensures ThreadOk(s', u) { assert ThreadOk(s, u); }
    forall e | e in s'.entries ensures EntryOk(s', e) { assert EntryOk(s, e); }
    forall k | k in s'.tenants ensures KeyOk(s', k) { assert KeyOk(s, k); }
    forall q | q in s'.walks ensures WalkOk(s', q) { assert WalkOk(s, q); CachedByTenants(s, s'); }
  }

  lemma CachedByTenants(s: State, s': State)
    requires s'.tenants == s.tenants
    ensures forall lane :: Cached(s', lane) == Cached(s, lane)
  {
  }

  /** A thread that holds no lock before and after; the map and the entries stand. */
  ghost predicate StaysOutside(s: State, s': State, t: Tid) {
    && s'.tenants == s.tenants && s'.walks == s.walks && s'.entries == s.entries && s.past.writers <= s'.past.writers
    && t in s'.threads && s'.threads == s.threads[t := s'.threads[t]]
    && (t in s.threads ==> !Holding(s.threads[t].pc))
    && !Holding(s'.threads[t].pc)
    && ThreadOk(s', t)
  }

  lemma StaysOutsideKeepsInv(s: State, s': State, t: Tid)
    requires Inv(s) && StaysOutside(s, s', t)
    ensures Inv(s')
  {
    forall u | u in s'.threads ensures ThreadOk(s', u) { if u != t { assert ThreadOk(s, u); } }
    forall e | e in s'.entries ensures EntryOk(s', e) { assert EntryOk(s, e); }
    forall k | k in s'.tenants ensures KeyOk(s', k) { assert KeyOk(s, k); }
    forall q | q in s'.walks ensures WalkOk(s', q) { assert WalkOk(s, q); CachedByTenants(s, s'); }
  }

  lemma FindShape(s: State, t: Tid)
    requires Inv(s) && ThreadEnabled(s, t, Find)
    ensures StaysOutside(s, DoFind(s, t), t)
  {
    assert ThreadOk(s, t) && KeyOk(s, s.threads[t].call.key);
  }

  lemma CreateKeepsInv(s: State, t: Tid, newId: EntryId)
    requires Inv(s) && ThreadEnabled(s, t, Create(newId))
    ensures Inv(DoCreate(s, t, newId))
  {
    var s' := DoCreate(s, t, newId);
    assert ThreadOk(s, t);
    var key := s.threads[t].call.key;
    forall u | u in s'.threads ensures ThreadOk(s', u) { assert ThreadOk(s, u); }
    forall e | e in s'.entries ensures EntryOk(s', e) { if e != newId { assert EntryOk(s, e); } }
    forall k | k in s'.tenants ensures KeyOk(s', k) { if k != key { assert KeyOk(s, k); } }
    forall q | q in s'.walks ensures WalkOk(s', q) {
      assert WalkOk(s, q);
      assert forall p :: Cached(s', Lane(q, p)) ==> Cached(s, Lane(q, p));
    }
  }

  lemma TakeLockKeepsInv(s: State, t: Tid)
    requires Inv(s) && ThreadEnabled(s, t, TakeLock)
    ensures Inv(DoTakeLock(s, t))
  {
    var s' := DoTakeLock(s, t);
    var e0 := s.threads[t].e;
    assert ThreadOk(s, t) && EntryOk(s, e0);
    assert WalkHolds(s, s.entries[e0].key.queue, e0) ==> WalkOk(s, s.entries[e0].key.queue);
    forall u | u in s'.threads ensures ThreadOk(s', u) { assert ThreadOk(s, u); }
    forall e | e in s'.entries ensures EntryOk(s', e) { assert EntryOk(s, e); }
    forall k | k in s'.tenants ensures KeyOk(s', k) { assert KeyOk(s, k); }
    forall q | q in s'.walks ensures WalkOk(s', q) { assert WalkOk(s, q); CachedByTenants(s, s'); }
  }

  lemma BackOffShape(s: State, t: Tid)
    requires Inv(s) && ThreadEnabled(s, t, BackOff)
    ensures StaysOutside(s, DoBackOff(s, t), t)
  {
    assert ThreadOk(s, t);
  }

  lemma CellChangeKeepsHolding(s: State, s': State, t: Tid)
    requires Live(s, t) && Holding(s.threads[t].pc)
    requires SameMaps(s, s') && t in s'.threads && s'.threads == s.threads[t := s'.threads[t]]
    requires Holding(s'.threads[t].pc) && s'.threads[t].e == s.threads[t].e && SameCall(s.threads[t], s'.threads[t])
    requires var e := s.threads[t].e;
             e in s'.entries && s'.entries == s.entries[e := s'.entries[e]] && SameLocks(s.entries[e], s'.entries[e])
    ensures KeepsHolding(s, s', t)
  {
  }

  lemma ReturnLeavesEntry(s: State, s': State, t: Tid)
    requires Live(s, t) && Holding(s.threads[t].pc)
    requires SameMaps(s, s') && s'.threads == s.threads - {t}
    requires var e := s.threads[t].e;
             e in s'.entries && s'.entries == s.entries[e := s'.entries[e]] && s'.entries[e].holder.Free?
             && s'.entries[e].key == s.entries[e].key && s'.entries[e].cell.evicted == s.entries[e].cell.evicted
    ensures LeavesEntry(s, s', t)
  {
  }

  /** The steps an enqueue takes before it holds its entry's lock. */
  predicate Outside(a: ThreadAction) {
    a.Begin? || a.Find? || a.Create? || a.TakeLock? || a.BackOff?
  }

  /** The steps that end an enqueue. */
  predicate Returns(a: ThreadAction) {
    a.FailHook? || a.Overflow? || a.Commit? || a.Abort?
  }

  lemma ReturnShape(s: State, t: Tid, a: ThreadAction)
    requires ThreadEnabled(s, t, a) && Returns(a)
    ensures LeavesEntry(s, ThreadEffect(s, t, a), t)
  {
    ReturnLeavesEntry(s, ThreadEffect(s, t, a), t);
  }

  lemma ReadShape(s: State, t: Tid, a: ThreadAction)
    requires ThreadEnabled(s, t, a) && (a.ReadClock? || a.ReadLow? || a.ReadEdge?)
    ensures KeepsHolding(s, ThreadEffect(s, t, a), t)
  {
    assert s.entries == s.entries[s.threads[t].e := s.entries[s.threads[t].e]];
    CellChangeKeepsHolding(s, ThreadEffect(s, t, a), t);
  }

  lemma StoreShape(s: State, t: Tid)
    requires ThreadEnabled(s, t, StoreFrontier)
    ensures KeepsHolding(s, DoStore(s, t), t)
  {
    assert s.entries == s.entries[s.threads[t].e := s.entries[s.threads[t].e]];
    CellChangeKeepsHolding(s, DoStore(s, t), t);
  }

  lemma InsertShape(s: State, t: Tid, hidden: bool)
    requires ThreadEnabled(s, t, InsertOne(hidden))
    ensures KeepsHolding(s, DoInsert(s, t, hidden), t)
  {
    assert s.entries == s.entries[s.threads[t].e := s.entries[s.threads[t].e]];
    CellChangeKeepsHolding(s, DoInsert(s, t, hidden), t);
  }

  lemma MoveShape(s: State, t: Tid, a: ThreadAction)
    requires ThreadEnabled(s, t, a) && (a.Stamp? || a.FailInsert?)
    ensures KeepsHolding(s, ThreadEffect(s, t, a), t)
  {
    assert s.entries == s.entries[s.threads[t].e := s.entries[s.threads[t].e]];
    CellChangeKeepsHolding(s, ThreadEffect(s, t, a), t);
  }

  lemma CellShape(s: State, t: Tid, a: ThreadAction)
    requires ThreadEnabled(s, t, a) && (a.Touch? || a.Swap? || a.ReadFloor?)
    ensures KeepsHolding(s, ThreadEffect(s, t, a), t)
  {
    CellChangeKeepsHolding(s, ThreadEffect(s, t, a), t);
  }

  /** A step past the lock keeps the lock or returns. */
  lemma HeldStepShape(s: State, t: Tid, a: ThreadAction)
    requires ThreadEnabled(s, t, a) && !Outside(a)
    ensures if Returns(a) then LeavesEntry(s, ThreadEffect(s, t, a), t) else KeepsHolding(s, ThreadEffect(s, t, a), t)
  {
    if Returns(a) { ReturnShape(s, t, a); }
    else if a.ReadClock? || a.ReadLow? || a.ReadEdge? { ReadShape(s, t, a); }
    else if a.StoreFrontier? { StoreShape(s, t); }
    else if a.InsertOne? { InsertShape(s, t, a.hidden); }
    else if a.Stamp? || a.FailInsert? { MoveShape(s, t, a); }
    else { CellShape(s, t, a); }
  }

  lemma OutsideKeepsInv(s: State, t: Tid, a: ThreadAction)
    requires Inv(s) && ThreadEnabled(s, t, a) && Outside(a)
    ensures Inv(ThreadEffect(s, t, a))
  {
    match a
    case Begin(call) => StaysOutsideKeepsInv(s, DoBegin(s, t, call), t);
    case Find => FindShape(s, t); StaysOutsideKeepsInv(s, DoFind(s, t), t);
    case Create(newId) => CreateKeepsInv(s, t, newId);
    case TakeLock => TakeLockKeepsInv(s, t);
    case BackOff => BackOffShape(s, t); StaysOutsideKeepsInv(s, DoBackOff(s, t), t);
  }

  lemma ThreadStepKeepsInv(s: State, t: Tid, a: ThreadAction)
    requires Inv(s) && ThreadEnabled(s, t, a)
    ensures Inv(ThreadEffect(s, t, a))
  {
    if Outside(a) {
      OutsideKeepsInv(s, t, a);
    } else {
      HeldStepShape(s, t, a);
      if Returns(a) {
        LeavesEntryKeepsInv(s, ThreadEffect(s, t, a), t);
      } else {
        KeepsHoldingKeepsInv(s, ThreadEffect(s, t, a), t);
      }
    }
  }

  lemma PickKeepsInv(s: State, q: QueueId, key: Key)
    requires Inv(s) && WalkEnabled(s, q, Pick(key))
    ensures Inv(DoPick(s, q, key))
  {
    assert WalkOk(s, q) && KeyOk(s, key);
    WalkFrame(s, DoPick(s, q, key), q);
  }

  /** A walk step under which only one entry's flags, the walk itself and no lock held by a thread change. */
  lemma WalkFrame(s: State, s': State, q: QueueId)
    requires Inv(s) && q in s.walks && q in s'.walks && WalkOk(s', q)
    requires s'.tenants == s.tenants && s'.threads == s.threads && s'.past.writers == s.past.writers
             && s'.walks == s.walks[q := s'.walks[q]]
    requires s'.entries.Keys == s.entries.Keys
    requires forall e <- s.entries :: SameLocks(s.entries[e], s'.entries[e])
    requires forall e {:trigger WalkHolds(s, q, e)} :: WalkHolds(s, q, e) <==> WalkHolds(s', q, e)
    requires s'.walks[q].Evicting? <==> s.walks[q].Evicting?
    ensures Inv(s')
  {
    forall u | u in s'.threads ensures ThreadOk(s', u) { assert ThreadOk(s, u); }
    forall e | e in s'.entries ensures EntryOk(s', e) {
      assert EntryOk(s, e);
      assert WalkHolds(s, q, e) <==> WalkHolds(s', q, e);
    }
    forall k | k in s'.tenants ensures KeyOk(s', k) { assert KeyOk(s, k); }
    forall r | r in s'.walks ensures WalkOk(s', r) { assert r != q ==> WalkOk(s, r); CachedByTenants(s, s'); }
  }

  lemma TryLockKeepsInv(s: State, q: QueueId)
    requires Inv(s) && WalkEnabled(s, q, TryLock)
    ensures Inv(DoTryLock(s, q))
  {
    assert WalkOk(s, q);
    if s.entries[s.walks[q].e].holder.Free? { WalkTakesLockKeepsInv(s, q); } else { WalkFrame(s, DoTryLock(s, q), q); }
  }

  lemma WalkTakesLockKeepsInv(s: State, q: QueueId)
    requires Inv(s) && WalkEnabled(s, q, TryLock) && s.entries[s.walks[q].e].holder.Free?
    ensures Inv(DoTryLock(s, q))
  {
    var s' := DoTryLock(s, q);
    assert WalkOk(s, q) && EntryOk(s, s.walks[q].e);
    forall u | u in s'.threads ensures ThreadOk(s', u) { assert ThreadOk(s, u); }
    forall e | e in s'.entries ensures EntryOk(s', e) { assert EntryOk(s, e); }
    forall k | k in s'.tenants ensures KeyOk(s', k) { assert KeyOk(s, k); }
    forall r | r in s'.walks ensures WalkOk(s', r) { assert WalkOk(s, r); CachedByTenants(s, s'); }
  }

  lemma MarkKeepsInv(s: State, q: QueueId)
    requires Inv(s) && WalkEnabled(s, q, Mark)
    ensures Inv(DoMark(s, q))
  {
    assert WalkOk(s, q);
    WalkFrame(s, DoMark(s, q), q);
  }

  lemma DeleteKeepsInv(s: State, q: QueueId)
    requires Inv(s) && WalkEnabled(s, q, Delete)
    ensures Inv(DoDelete(s, q))
  {
    var s' := DoDelete(s, q);
    var w := s.walks[q];
    assert WalkOk(s, q) && EntryOk(s, w.e);
    forall u | u in s'.threads ensures ThreadOk(s', u) { assert ThreadOk(s, u); }
    forall e | e in s'.entries ensures EntryOk(s', e) { assert EntryOk(s, e); }
    forall k | k in s'.tenants ensures KeyOk(s', k) { assert KeyOk(s, k); }
    forall r | r in s'.walks ensures WalkOk(s', r) {
      assert WalkOk(s, r);
      assert forall p :: Cached(s', Lane(r, p)) ==> Cached(s, Lane(r, p));
    }
  }

  lemma EvictKeepsInv(s: State, q: QueueId)
    requires Inv(s) && WalkEnabled(s, q, Evict)
    ensures Inv(DoEvict(s, q))
  {
    var s' := DoEvict(s, q);
    var w := s.walks[q];
    assert WalkOk(s, q) && EntryOk(s, w.e);
    forall u | u in s'.threads ensures ThreadOk(s', u) { assert ThreadOk(s, u); }
    forall e | e in s'.entries ensures EntryOk(s', e) { assert EntryOk(s, e); }
    forall k | k in s'.tenants ensures KeyOk(s', k) { assert KeyOk(s, k); }
    forall r | r in s'.walks ensures WalkOk(s', r) { assert WalkOk(s, r); CachedByTenants(s, s'); }
  }

  /** The start, the prune phase and the end of a walk touch no entry. */
  lemma WalkEdgeFrame(s: State, s': State, q: QueueId)
    requires Inv(s) && s'.entries == s.entries && s'.tenants == s.tenants && s'.threads == s.threads
    requires s'.past.writers == s.past.writers
    requires s'.walks == s.walks - {q} || (q in s'.walks && s'.walks == s.walks[q := s'.walks[q]] && WalkOk(s', q))
    requires q in s.walks ==> s.walks[q].Picking? || s.walks[q].Pruning?
    ensures Inv(s')
  {
    CachedByTenants(s, s');
    forall u | u in s'.threads ensures ThreadOk(s', u) { assert ThreadOk(s, u); }
    forall e | e in s'.entries ensures EntryOk(s', e) { assert EntryOk(s, e); }
    forall k | k in s'.tenants ensures KeyOk(s', k) { assert KeyOk(s, k); }
    forall r | r in s'.walks ensures WalkOk(s', r) { if r != q { assert WalkOk(s, r); } }
  }

  lemma WalkEdgesKeepInv(s: State, q: QueueId, a: WalkAction)
    requires Inv(s) && WalkEnabled(s, q, a) && (a.BeginWalk? || a.BeginPrune? || a.Prune? || a.EndWalk?)
    ensures Inv(WalkEffect(s, q, a))
  {
    if q in s.walks { assert WalkOk(s, q); }
    CachedByTenants(s, WalkEffect(s, q, a));
    WalkEdgeFrame(s, WalkEffect(s, q, a), q);
  }

  lemma WalkStepKeepsInv(s: State, q: QueueId, a: WalkAction)
    requires Inv(s) && WalkEnabled(s, q, a)
    ensures Inv(WalkEffect(s, q, a))
  {
    match a
    case Pick(key) => PickKeepsInv(s, q, key);
    case TryLock => TryLockKeepsInv(s, q);
    case Mark => MarkKeepsInv(s, q);
    case Delete => DeleteKeepsInv(s, q);
    case Evict => EvictKeepsInv(s, q);
    case _ => WalkEdgesKeepInv(s, q, a);
  }

  lemma SameSharedKeepsInv(s: State, s': State)
    requires Inv(s) && s'.entries == s.entries && s'.tenants == s.tenants && s'.threads == s.threads
             && s'.walks == s.walks
    requires s'.past.writers == s.past.writers
    ensures Inv(s')
  {
    forall u | u in s'.threads ensures ThreadOk(s', u) { assert ThreadOk(s, u); }
    forall e | e in s'.entries ensures EntryOk(s', e) { assert EntryOk(s, e); }
    forall k | k in s'.tenants ensures KeyOk(s', k) { assert KeyOk(s, k); }
    forall q | q in s'.walks ensures WalkOk(s', q) { assert WalkOk(s, q); CachedByTenants(s, s'); }
  }

  lemma TickKeepsInv(s: State, now: nat)
    requires Inv(s)
    ensures Inv(Tick(s, now))
  {
    SameSharedKeepsInv(s, Tick(s, now));
  }

  /** A refresh reads the store, and writes at most its own slot and one low-water mark. */
  predicate RefreshOnly(s: State, s': State) {
    && s'.entries == s.entries && s'.tenants == s.tenants && s'.threads == s.threads && s'.walks == s.walks
    && s'.jobs == s.jobs && s'.time == s.time && s'.past == s.past.(floorBegan := s'.past.floorBegan)
  }

  lemma RefreshShape(s: State, r: nat, a: RefreshAction)
    requires RefreshEnabled(s, r, a)
    ensures RefreshOnly(s, RefreshEffect(s, r, a))
  {
    match a
    case RefreshClock => assert RefreshOnly(s, DoRefreshClock(s, r));
    case RefreshLow => assert RefreshOnly(s, DoRefreshLow(s, r));
    case RefreshStore => assert RefreshOnly(s, DoRefreshStore(s, r));
    case _ =>
  }

  lemma RefreshStepKeepsInv(s: State, r: nat, a: RefreshAction)
    requires Inv(s) && RefreshEnabled(s, r, a)
    ensures Inv(RefreshEffect(s, r, a))
  {
    RefreshShape(s, r, a);
    SameSharedKeepsInv(s, RefreshEffect(s, r, a));
  }

  lemma StoreStepKeepsInv(s: State, ev: StoreEvent)
    requires Inv(s)
    ensures Inv(StoreEffect(s, ev))
  {
    SameSharedKeepsInv(s, StoreEffect(s, ev));
  }

  lemma EffectKeepsInv(s: State, a: Action)
    requires Inv(s) && Enabled(s, a)
    ensures Inv(Effect(s, a))
  {
    match a
    case OfThread(t, step) => ThreadStepKeepsInv(s, t, step);
    case OfRefresh(r, refresh) => RefreshStepKeepsInv(s, r, refresh);
    case OfWalk(q, walk) => WalkStepKeepsInv(s, q, walk);
    case OfStore(ev) => StoreStepKeepsInv(s, ev);
  }

  lemma StepKeepsInv(s: State, a: Action)
    requires Inv(s)
    ensures Inv(Step(s, a))
  {
    if Enabled(s, a) {
      var s1 := Effect(s, a);
      assert Inv(s1) by { EffectKeepsInv(s, a); }
      TickKeepsInv(s1, s.time + 1);
    }
  }

  /** The thread holds its timeline's lock: it is somewhere between lookup and the end of its enqueue. */
  predicate Reserves(s: State, t: Tid) {
    t in s.threads && Holding(s.threads[t].pc)
  }

  // ----- bounded retries -----

  predicate RetryOk(s: State, t: Tid) {
    && t in s.threads
    && var th := s.threads[t];
    var done := Since(s.past.evictions, th.call.key);
    && th.evictionsBefore + th.retries <= done
    && (th.pc.Locking? && th.e in s.entries && s.entries[th.e].cell.evicted ==>
          th.evictionsBefore + th.retries < done)
  }

  ghost predicate RetryInv(s: State) {
    forall t {:trigger RetryOk(s, t)} :: t in s.threads ==> RetryOk(s, t)
  }

  /**
   Evictions never lower a count and never resurrect an entry; a new orphan always comes with one more eviction
   of its key.
   */
  ghost predicate EvictionsPaired(s: State, s': State) {
    && (forall k :: Since(s.past.evictions, k) <= Since(s'.past.evictions, k))
    && (forall e <- s.entries :: e in s'.entries && s'.entries[e].key == s.entries[e].key)
    && (forall e <- s.entries :: s'.entries[e].cell.evicted && !s.entries[e].cell.evicted ==>
                                   var key := s.entries[e].key;
                                   Since(s.past.evictions, key) < Since(s'.past.evictions, key))
  }

  lemma RetryFrame(s: State, s': State)
    requires Inv(s) && RetryInv(s) && EvictionsPaired(s, s') && s'.threads == s.threads
    ensures RetryInv(s')
  {
    forall t | t in s'.threads ensures RetryOk(s', t) { assert RetryOk(s, t) && ThreadOk(s, t); }
  }

  lemma RetryThreadStep(s: State, t: Tid, a: ThreadAction)
    requires Inv(s) && RetryInv(s) && ThreadEnabled(s, t, a)
    ensures RetryInv(ThreadEffect(s, t, a))
  {
    if Outside(a) {
      OutsideRetry(s, t, a);
    } else {
      HeldStepShape(s, t, a);
      HeldRetry(s, ThreadEffect(s, t, a), t);
    }
  }

  lemma HeldRetry(s: State, s': State, t: Tid)
    requires Inv(s) && RetryInv(s) && (KeepsHolding(s, s', t) || LeavesEntry(s, s', t))
    ensures RetryInv(s')
  {
    assert ThreadOk(s, t);
    forall u | u in s'.threads ensures RetryOk(s', u) { assert RetryOk(s, u) && ThreadOk(s, u); }
  }

  lemma OutsideRetry(s: State, t: Tid, a: ThreadAction)
    requires Inv(s) && RetryInv(s) && ThreadEnabled(s, t, a) && Outside(a)
    ensures RetryInv(ThreadEffect(s, t, a))
  {
    match a
    case Begin(call) => BeginRetry(s, t, call);
    case Find => FindRetry(s, t);
    case Create(newId) => CreateRetry(s, t, newId);
    case TakeLock => LockRetry(s, t, a);
    case BackOff => LockRetry(s, t, a);
  }

  lemma BeginRetry(s: State, t: Tid, call: Call)
    requires Inv(s) && RetryInv(s) && t !in s.threads
    ensures RetryInv(DoBegin(s, t, call))
  {
    var s' := DoBegin(s, t, call);
    forall u | u in s'.threads ensures RetryOk(s', u) { if u != t { assert RetryOk(s, u); } }
  }

  lemma FindRetry(s: State, t: Tid)
    requires Inv(s) && RetryInv(s) && ThreadEnabled(s, t, Find)
    ensures RetryInv(DoFind(s, t))
  {
    var s' := DoFind(s, t);
    assert KeyOk(s, s.threads[t].call.key);
    forall u | u in s'.threads ensures RetryOk(s', u) { assert RetryOk(s, u) && ThreadOk(s, u); }
  }

  lemma CreateRetry(s: State, t: Tid, newId: EntryId)
    requires Inv(s) && RetryInv(s) && ThreadEnabled(s, t, Create(newId))
    ensures RetryInv(DoCreate(s, t, newId))
  {
    var s' := DoCreate(s, t, newId);
    forall u | u in s'.threads ensures RetryOk(s', u) { assert RetryOk(s, u) && ThreadOk(s, u); }
  }

  lemma LockRetry(s: State, t: Tid, a: ThreadAction)
    requires Inv(s) && RetryInv(s) && ThreadEnabled(s, t, a) && (a.TakeLock? || a.BackOff?)
    ensures RetryInv(ThreadEffect(s, t, a))
  {
    var s' := ThreadEffect(s, t, a);
    forall u | u in s'.threads ensures RetryOk(s', u) { assert RetryOk(s, u) && ThreadOk(s, u); }
  }

  /** A step that evicts nothing counts nothing. */
  lemma NothingEvicted(s: State, s': State)
    requires s'.past.evictions == s.past.evictions && s.entries.Keys <= s'.entries.Keys
    requires forall e <- s.entries ::
               s'.entries[e].key == s.entries[e].key && s'.entries[e].cell.evicted == s.entries[e].cell.evicted
    ensures EvictionsPaired(s, s')
  {
  }

  lemma WalkPairsEvictions(s: State, q: QueueId, a: WalkAction)
    requires Inv(s) && WalkEnabled(s, q, a)
    ensures EvictionsPaired(s, WalkEffect(s, q, a)) && WalkEffect(s, q, a).threads == s.threads
  {
    match a
    case Pick(key) => PickPairsEvictions(s, q, key);
    case TryLock => TryLockPairsEvictions(s, q);
    case Mark => MarkPairsEvictions(s, q);
    case Delete => DeletePairsEvictions(s, q);
    case Evict => EvictPairsEvictions(s, q);
    case _ => EdgePairsEvictions(s, q, a);
  }

  lemma PickPairsEvictions(s: State, q: QueueId, key: Key)
    requires WalkEnabled(s, q, Pick(key))
    ensures EvictionsPaired(s, DoPick(s, q, key)) && DoPick(s, q, key).threads == s.threads
  {
    NothingEvicted(s, DoPick(s, q, key));
  }

  lemma TryLockPairsEvictions(s: State, q: QueueId)
    requires WalkEnabled(s, q, TryLock)
    ensures EvictionsPaired(s, DoTryLock(s, q)) && DoTryLock(s, q).threads == s.threads
  {
    var e := s.walks[q].e;
    if s.entries[e].holder.Free? {
      assert DoTryLock(s, q).entries == s.entries[e := s.entries[e].(holder := ByWalk)];
    } else {
      assert DoTryLock(s, q).entries == s.entries;
    }
    NothingEvicted(s, DoTryLock(s, q));
  }

  lemma MarkPairsEvictions(s: State, q: QueueId)
    requires WalkEnabled(s, q, Mark)
    ensures EvictionsPaired(s, DoMark(s, q)) && DoMark(s, q).threads == s.threads
  {
    NothingEvicted(s, DoMark(s, q));
  }

  lemma DeletePairsEvictions(s: State, q: QueueId)
    requires WalkEnabled(s, q, Delete)
    ensures EvictionsPaired(s, DoDelete(s, q)) && DoDelete(s, q).threads == s.threads
  {
    NothingEvicted(s, DoDelete(s, q));
  }

  lemma EvictPairsEvictions(s: State, q: QueueId)
    requires Inv(s) && WalkEnabled(s, q, Evict)
    ensures EvictionsPaired(s, DoEvict(s, q)) && DoEvict(s, q).threads == s.threads
  {
    assert WalkOk(s, q);
  }

  lemma EdgePairsEvictions(s: State, q: QueueId, a: WalkAction)
    requires WalkEnabled(s, q, a) && (a.BeginWalk? || a.BeginPrune? || a.Prune? || a.EndWalk?)
    ensures EvictionsPaired(s, WalkEffect(s, q, a)) && WalkEffect(s, q, a).threads == s.threads
  {
    NothingEvicted(s, WalkEffect(s, q, a));
  }

  lemma RetryEffect(s: State, a: Action)
    requires Inv(s) && RetryInv(s) && Enabled(s, a)
    ensures RetryInv(Effect(s, a))
  {
    match a
    case OfThread(t, step) => RetryThreadStep(s, t, step);
    case OfRefresh(r, refresh) => RetryRefreshStep(s, r, refresh);
    case OfWalk(q, walk) => WalkPairsEvictions(s, q, walk); RetryFrame(s, WalkEffect(s, q, walk));
    case OfStore(ev) => RetryFrame(s, StoreEffect(s, ev));
  }

  lemma RetryRefreshStep(s: State, r: nat, a: RefreshAction)
    requires Inv(s) && RetryInv(s) && RefreshEnabled(s, r, a)
    ensures RetryInv(RefreshEffect(s, r, a))
  {
    RefreshShape(s, r, a);
    RetryFrame(s, RefreshEffect(s, r, a));
  }

  lemma RetryStep(s: State, a: Action)
    requires Inv(s) && RetryInv(s)
    ensures RetryInv(Step(s, a))
  {
    if Enabled(s, a) {
      RetryEffect(s, a);
      EffectKeepsInv(s, a);
      RetryFrame(Effect(s, a), Step(s, a));
    }
  }

  // ----- no deadlock -----

  /** An enqueue, a walk, a refresh of Reconcile's, and a Reconcile that is about to take its Queue's map lock. */
  datatype Agent = Enqueuer(tid: Tid) | Walker(queue: QueueId) | Refresher(rid: nat) | Reconciler(queue: QueueId)

  /** A Queue's lock on its map, an entry's lock, and a Queue's lock on its low-water marks. */
  datatype Lock = Mu(queue: QueueId) | EntryMu(entry: EntryId) | LwmMu(queue: QueueId)

  /** The order in which the code says locks are taken. */
  function Level(l: Lock): nat {
    match l
    case Mu(_) => 0
    case EntryMu(_) => 1
    case LwmMu(_) => 2
  }

  predicate Present(s: State, a: Agent) {
    match a
    case Enqueuer(t) => t in s.threads
    case Walker(q) => q in s.walks
    case Refresher(r) => r in s.refreshes
    case Reconciler(_) => true
  }

  /** The agent can take a step now. Hooks and inserts count as steps: I/O returns. */
  ghost predicate Runnable(s: State, a: Agent) {
    match a
    case Enqueuer(t) => exists step: ThreadAction :: !step.Begin? && ThreadEnabled(s, t, step)
    case Walker(q) => q in s.walks && exists step: WalkAction :: WalkEnabled(s, q, step)
    case Refresher(r) => exists step: RefreshAction :: !step.BeginRefresh? && RefreshEnabled(s, r, step)
    case Reconciler(q) => WalkEnabled(s, q, BeginWalk)
  }

  /** Locks held from one step to the next; the other critical sections are a step each. */
  predicate HoldsLock(s: State, a: Agent, l: Lock) {
    match l
    case Mu(q) => a == Walker(q) && q in s.walks
    case EntryMu(e) => e in s.entries &&
                       (match s.entries[e].holder
                        case Free => false
                        case HeldBy(u) => a == Enqueuer(u)
                        case ByWalk => a == Walker(s.entries[e].key.queue))
    case LwmMu(q) => a == Walker(q) && !LwmLockFree(s, q)
  }

  /** The lock the agent's next step blocks on. A walk only tries entry locks. */
  function Wants(s: State, a: Agent): Option<Lock>
    requires Present(s, a)
  {
    match a
    case Reconciler(q) => Some(Mu(q))
    case Refresher(r) => if s.refreshes[r].StoringFrontier? then Some(LwmMu(s.refreshes[r].lane.queue)) else None
    case Walker(q) => if s.walks[q].Picking? && s.walks[q].todo == {} then Some(LwmMu(q)) else None
    case Enqueuer(t) =>
      var q := s.threads[t].call.key.queue;
      match s.threads[t].pc
      case Looking => Some(Mu(q))
      case Locking => Some(EntryMu(s.threads[t].e))
      case Storing(_, _) => Some(LwmMu(q))
      case FloorReading(_, _, _) => Some(LwmMu(q))
      case _ => None
  }

  /** a is about to take a lock that b holds. */
  predicate WaitsFor(s: State, a: Agent, b: Agent)
    requires Present(s, a)
  {
    Wants(s, a).Some? && HoldsLock(s, b, Wants(s, a).value)
  }

  /** Locks are taken in order: whoever holds a lock blocks only on a later one. */
  lemma LocksTakenInOrder(s: State, a: Agent, held: Lock)
    requires Inv(s) && Present(s, a) && HoldsLock(s, a, held) && Wants(s, a).Some?
    ensures Level(held) < Level(Wants(s, a).value)
  {
    if held.EntryMu? { assert EntryOk(s, held.entry); }
    if a.Enqueuer? { assert ThreadOk(s, a.tid); }
    if a.Walker? { assert WalkOk(s, a.queue); }
  }

  /** A walk waits for nothing, a holder of an entry lock only for a walk, the rest for either. */
  function Rank(s: State, a: Agent): nat
    requires Present(s, a)
  {
    match a
    case Walker(_) => 0
    case Enqueuer(t) => if Holding(s.threads[t].pc) then 1 else 2
    case _ => 2
  }

  lemma WaitingDescends(s: State, a: Agent, b: Agent)
    requires Inv(s) && Present(s, a) && WaitsFor(s, a, b)
    ensures Present(s, b) && Rank(s, b) < Rank(s, a)
  {
    if Wants(s, a).value.EntryMu? { assert EntryOk(s, Wants(s, a).value.entry); }
    if a.Enqueuer? { assert ThreadOk(s, a.tid); }
  }

  lemma UnusedId(ids: set<nat>) returns (id: nat)
    ensures id !in ids
  {
    id := 0;
    var rest := ids;
    while rest != {}
      invariant rest <= ids && forall x <- ids :: x in rest || x < id
    {
      var x :| x in rest;
      rest := rest - {x};
      if x >= id { id := x + 1; }
    }
  }

  lemma WalkRunnable(s: State, q: QueueId)
    requires Inv(s) && q in s.walks
    ensures Runnable(s, Walker(q))
  {
    assert WalkOk(s, q);
    var w := s.walks[q];
    match w {
      case Picking(todo) =>
        if todo == {} { assert WalkEnabled(s, q, BeginPrune); }
        else { var k :| k in todo; assert KeyOk(s, k); assert WalkEnabled(s, q, Pick(k)); }
      case Trying(_, _, _) => assert WalkEnabled(s, q, TryLock);
      case Marking(_, _, _) => assert WalkEnabled(s, q, Mark);
      case Deleting(_, _, _) => assert WalkEnabled(s, q, Delete);
      case Evicting(_, _, _) => assert WalkEnabled(s, q, Evict);
      case Pruning(ps) =>
        if ps == {} { assert WalkEnabled(s, q, EndWalk); }
        else { var p :| p in ps; assert WalkEnabled(s, q, Prune(p)); }
    }
  }

  lemma OutsideRunnable(s: State, t: Tid)
    requires Inv(s) && t in s.threads && (s.threads[t].pc.Looking? || s.threads[t].pc.Locking?)
    requires forall b :: Present(s, b) ==> !WaitsFor(s, Enqueuer(t), b)
    ensures Runnable(s, Enqueuer(t))
  {
    assert ThreadOk(s, t);
    var th := s.threads[t];
    if th.pc.Looking? {
      if Present(s, Walker(th.call.key.queue)) { assert WaitsFor(s, Enqueuer(t), Walker(th.call.key.queue)); }
      if th.call.key in s.tenants { assert ThreadEnabled(s, t, Find); }
      else { var id := UnusedId(s.entries.Keys); assert ThreadEnabled(s, t, Create(id)); }
    } else {
      assert EntryOk(s, th.e);
      match s.entries[th.e].holder {
        case Free => assert ThreadEnabled(s, t, TakeLock) || ThreadEnabled(s, t, BackOff);
        case HeldBy(u) => assert WaitsFor(s, Enqueuer(t), Enqueuer(u));
        case ByWalk => assert WaitsFor(s, Enqueuer(t), Walker(s.entries[th.e].key.queue));
      }
    }
  }

  lemma HolderRunnable(s: State, t: Tid)
    requires Inv(s) && Reserves(s, t)
    requires forall b :: Present(s, b) ==> !WaitsFor(s, Enqueuer(t), b)
    ensures Runnable(s, Enqueuer(t))
  {
    assert ThreadOk(s, t);
    var q := s.threads[t].call.key.queue;
    assert Present(s, Walker(q)) ==> !WaitsFor(s, Enqueuer(t), Walker(q));
    var step := NextStep(s.threads[t].pc);
    assert ThreadEnabled(s, t, step) || ThreadEnabled(s, t, Overflow);
  }

  lemma RefresherRunnable(s: State, r: nat)
    requires r in s.refreshes && forall b :: Present(s, b) ==> !WaitsFor(s, Refresher(r), b)
    ensures Runnable(s, Refresher(r))
  {
    var q := s.refreshes[r].lane.queue;
    if s.refreshes[r].StoringFrontier? {
      assert Present(s, Walker(q)) ==> !WaitsFor(s, Refresher(r), Walker(q));
      assert RefreshEnabled(s, r, RefreshStore);
    } else {
      assert RefreshEnabled(s, r, FailRefresh);
    }
  }

  lemma ReconcilerRunnable(s: State, q: QueueId)
    requires forall b :: Present(s, b) ==> !WaitsFor(s, Reconciler(q), b)
    ensures Runnable(s, Reconciler(q))
  {
    assert Present(s, Walker(q)) ==> !WaitsFor(s, Reconciler(q), Walker(q));
  }

  function NextStep(pc: Pc): (a: ThreadAction)
    requires Holding(pc)
    ensures !a.Begin?
  {
    match pc
    case Touching => Touch
    case Swapping => Swap
    case ClockReading(_) => ReadClock
    case LowReading(_) => ReadLow
    case Storing(_, _) => StoreFrontier
    case EdgeReading(_) => ReadEdge
    case FloorReading(_, _, _) => ReadFloor
    case Stamping => ThreadAction.Stamp
    case Inserting(_) => FailInsert
    case Committing(_) => Commit
    case Aborting => Abort
  }
}
