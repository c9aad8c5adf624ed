/**
 The drift bound: a reservation that takes its timeline's lock after a walk has
 handled the timeline stamps from a seed begun after that handling, whatever
 raced the touched and stale flags, however often a seed failed in between, and
 whether the walk marked the entry or evicted it.
 */
module Drift {
  import opened Protocol
  import L = Locks

  predicate EntryOk(s: State, e: EntryId) {
    && e in s.entries
    && var en := s.entries[e];
    L.Mapped(s, e) && en.cell.seeded && !en.cell.stale ==> en.seedTime > Since(s.past.handled, en.key)
  }

  predicate ThreadOk(s: State, t: Tid) {
    && t in s.threads
    && var th := s.threads[t];
    Holding(th.pc) && th.e in s.entries ==>
      && th.handledBefore <= Since(s.past.handled, th.call.key)
      && (Seeding(th.pc) ==> th.seedStart > th.handledBefore)
      && (Seeding(th.pc) && !s.entries[th.e].cell.stale ==> th.seedStart > Since(s.past.handled, th.call.key))
      && (Stamped(th.pc) ==> s.entries[th.e].seedTime > th.handledBefore)
  }

  /** `now` lies after every handling so far. */
  ghost predicate Inv(s: State, now: nat) {
    && (forall k {:trigger Since(s.past.handled, k)} :: Since(s.past.handled, k) < now)
    && (forall e {:trigger EntryOk(s, e)} :: e in s.entries ==> EntryOk(s, e))
    && (forall t {:trigger ThreadOk(s, t)} :: t in s.threads ==> ThreadOk(s, t))
  }

  lemma HeldFrame(s: State, s': State, t: Tid, now: nat)
    requires L.Inv(s) && Inv(s, now) && L.KeepsHolding(s, s', t) && ThreadOk(s', t) && EntryOk(s', s.threads[t].e)
    ensures Inv(s', now)
  {
    assert L.ThreadOk(s, t);
    forall e | e in s'.entries ensures EntryOk(s', e) { if e != s.threads[t].e { assert EntryOk(s, e); } }
    forall u | u in s'.threads ensures ThreadOk(s', u) { if u != t { assert ThreadOk(s, u) && L.ThreadOk(s, u); } }
  }

  lemma LeaveFrame(s: State, s': State, t: Tid, now: nat)
    requires L.Inv(s) && Inv(s, now) && L.LeavesEntry(s, s', t) && EntryOk(s', s.threads[t].e)
    ensures Inv(s', now)
  {
    assert L.ThreadOk(s, t);
    forall e | e in s'.entries ensures EntryOk(s', e) { if e != s.threads[t].e { assert EntryOk(s, e); } }
    forall u | u in s'.threads ensures ThreadOk(s', u) { assert ThreadOk(s, u) && L.ThreadOk(s, u); }
  }

  /** Entries keep what the bound speaks of, and no handling happens. */
  lemma QuietFrame(s: State, s': State, now: nat)
    requires L.Inv(s) && Inv(s, now) && s'.past.handled == s.past.handled && s'.threads == s.threads
    requires s'.entries.Keys == s.entries.Keys
    requires forall e <- s.entries ::
               && s'.entries[e].key == s.entries[e].key && s'.entries[e].seedTime == s.entries[e].seedTime
               && s'.entries[e].cell.seeded == s.entries[e].cell.seeded
               && s'.entries[e].cell.stale == s.entries[e].cell.stale
    requires s'.tenants == s.tenants
    ensures Inv(s', now)
  {
    forall e | e in s'.entries ensures EntryOk(s', e) { assert EntryOk(s, e); }
    forall u | u in s'.threads ensures ThreadOk(s', u) { assert ThreadOk(s, u) && L.ThreadOk(s, u); }
  }

  lemma OutsideStep(s: State, t: Tid, a: ThreadAction, now: nat)
    requires L.Inv(s) && Inv(s, now) && ThreadEnabled(s, t, a) && L.Outside(a)
    ensures Inv(ThreadEffect(s, t, a), now)
  {
    match a
    case Begin(call) => OutsideFrame(s, DoBegin(s, t, call), t, now);
    case Find => OutsideFrame(s, DoFind(s, t), t, now);
    case Create(newId) => CreateStep(s, t, newId, now);
    case TakeLock => OutsideFrame(s, DoTakeLock(s, t), t, now);
    case BackOff => OutsideFrame(s, DoBackOff(s, t), t, now);
  }

  /** Only a lock's holder changes, and thread t, which does not yet rely on a seed. */
  lemma OutsideFrame(s: State, s': State, t: Tid, now: nat)
    requires L.Inv(s) && Inv(s, now) && s'.past.handled == s.past.handled && s'.tenants == s.tenants
    requires s'.entries.Keys == s.entries.Keys
    requires forall e <- s.entries :: s'.entries[e] == s.entries[e].(holder := s'.entries[e].holder)
    requires t in s'.threads && s'.threads == s.threads[t := s'.threads[t]] && ThreadOk(s', t)
    ensures Inv(s', now)
  {
    forall e | e in s'.entries ensures EntryOk(s', e) { assert EntryOk(s, e); }
    forall u | u in s'.threads ensures ThreadOk(s', u) { if u != t { assert ThreadOk(s, u) && L.ThreadOk(s, u); } }
  }

  lemma CreateStep(s: State, t: Tid, newId: EntryId, now: nat)
    requires L.Inv(s) && Inv(s, now) && ThreadEnabled(s, t, Create(newId))
    ensures Inv(DoCreate(s, t, newId), now)
  {
    var s' := DoCreate(s, t, newId);
    forall e | e in s'.entries ensures EntryOk(s', e) { if e != newId { assert EntryOk(s, e) && L.EntryOk(s, e); } }
    forall u | u in s'.threads ensures ThreadOk(s', u) { assert ThreadOk(s, u) && L.ThreadOk(s, u); }
  }

  /** Consuming an invalidation starts a new seed; finding none, the old seed is recent enough. */
  lemma SwapStep(s: State, t: Tid)
    requires L.Inv(s) && Inv(s, s.time) && ThreadEnabled(s, t, Swap)
    ensures Inv(DoSwap(s, t), s.time)
  {
    L.HeldStepShape(s, t, Swap);
    assert ThreadOk(s, t) && EntryOk(s, s.threads[t].e) && L.ThreadOk(s, t);
    assert Since(s.past.handled, s.threads[t].call.key) < s.time;
    HeldFrame(s, DoSwap(s, t), t, s.time);
  }

  lemma ReadFloorStep(s: State, t: Tid, now: nat)
    requires L.Inv(s) && Inv(s, now) && ThreadEnabled(s, t, ReadFloor)
    ensures Inv(DoReadFloor(s, t), now)
  {
    L.HeldStepShape(s, t, ReadFloor);
    assert ThreadOk(s, t) && L.ThreadOk(s, t);
    HeldFrame(s, DoReadFloor(s, t), t, now);
  }

  lemma PlainStep(s: State, t: Tid, a: ThreadAction, now: nat)
    requires L.Inv(s) && Inv(s, now) && ThreadEnabled(s, t, a)
    requires !L.Outside(a) && !L.Returns(a) && !a.Swap? && !a.ReadFloor?
    ensures Inv(ThreadEffect(s, t, a), now)
  {
    var s' := ThreadEffect(s, t, a);
    L.HeldStepShape(s, t, a);
    PlainShape(s, t, a);
    assert ThreadOk(s, t) && EntryOk(s, s.threads[t].e) && L.ThreadOk(s, t);
    HeldFrame(s, s', t, now);
  }

  lemma PlainShape(s: State, t: Tid, a: ThreadAction)
    requires ThreadEnabled(s, t, a) && !L.Outside(a) && !L.Returns(a) && !a.Swap? && !a.ReadFloor?
    ensures var s' := ThreadEffect(s, t, a);
            && t in s'.threads && s.threads[t].e in s'.entries
            && s'.threads[t].seedStart == s.threads[t].seedStart
            && s'.entries[s.threads[t].e].seedTime == s.entries[s.threads[t].e].seedTime
            && s'.entries[s.threads[t].e].cell.stale == s.entries[s.threads[t].e].cell.stale
            && s'.entries[s.threads[t].e].cell.seeded == s.entries[s.threads[t].e].cell.seeded
            && (Seeding(s'.threads[t].pc) ==> Seeding(s.threads[t].pc))
            && (Stamped(s'.threads[t].pc) ==> Stamped(s.threads[t].pc))
  {
    match a
    case Touch =>
    case ReadClock =>
    case ReadLow =>
    case StoreFrontier =>
    case ReadEdge =>
    case _ =>
  }

  lemma ReturnStep(s: State, t: Tid, a: ThreadAction, now: nat)
    requires L.Inv(s) && Inv(s, now) && ThreadEnabled(s, t, a) && L.Returns(a)
    ensures Inv(ThreadEffect(s, t, a), now)
  {
    L.HeldStepShape(s, t, a);
    assert EntryOk(s, s.threads[t].e) && L.ThreadOk(s, t);
    LeaveFrame(s, ThreadEffect(s, t, a), t, now);
  }

  lemma ThreadStep(s: State, t: Tid, a: ThreadAction)
    requires L.Inv(s) && Inv(s, s.time) && ThreadEnabled(s, t, a)
    ensures Inv(ThreadEffect(s, t, a), s.time)
  {
    if L.Outside(a) { OutsideStep(s, t, a, s.time); }
    else if L.Returns(a) { ReturnStep(s, t, a, s.time); }
    else if a.Swap? { SwapStep(s, t); }
    else if a.ReadFloor? { ReadFloorStep(s, t, s.time); }
    else { PlainStep(s, t, a, s.time); }
  }

  /** Marking: the entry's clock is no longer trusted, so the handling may be as late as now. */
  lemma MarkStep(s: State, q: QueueId)
    requires L.Inv(s) && Inv(s, s.time) && WalkEnabled(s, q, Mark)
    ensures Inv(DoMark(s, q), s.time + 1)
  {
    var s' := DoMark(s, q);
    var w := s.walks[q];
    assert L.WalkOk(s, q);
    assert Since(s.past.handled, w.key) < s.time;
    forall k ensures Since(s'.past.handled, k) < s.time + 1 { assert Since(s.past.handled, k) < s.time; }
    forall e | e in s'.entries ensures EntryOk(s', e) { assert EntryOk(s, e); }
    forall u | u in s'.threads ensures ThreadOk(s', u) { assert ThreadOk(s, u) && L.ThreadOk(s, u); }
  }

  /** Deleting: no entry answers for the timeline until a new one is created unseeded. */
  lemma DeleteStep(s: State, q: QueueId)
    requires L.Inv(s) && Inv(s, s.time) && WalkEnabled(s, q, Delete)
    ensures Inv(DoDelete(s, q), s.time + 1)
  {
    var s' := DoDelete(s, q);
    var w := s.walks[q];
    assert L.WalkOk(s, q);
    forall k ensures Since(s'.past.handled, k) < s.time + 1 { assert Since(s.past.handled, k) < s.time; }
    forall e | e in s'.entries ensures EntryOk(s', e) { assert EntryOk(s, e) && L.EntryOk(s, e); }
    forall u | u in s'.threads ensures ThreadOk(s', u) { assert ThreadOk(s, u) && L.ThreadOk(s, u); }
  }

  lemma FlagStep(s: State, q: QueueId, a: WalkAction, now: nat)
    requires L.Inv(s) && Inv(s, now) && WalkEnabled(s, q, a) && (a.Pick? || a.TryLock?)
    ensures Inv(WalkEffect(s, q, a), now)
  {
    match a
    case Pick(key) => QuietFrame(s, DoPick(s, q, key), now);
    case TryLock => TryLockStep(s, q, now);
  }

  lemma TryLockStep(s: State, q: QueueId, now: nat)
    requires L.Inv(s) && Inv(s, now) && WalkEnabled(s, q, TryLock)
    ensures Inv(DoTryLock(s, q), now)
  {
    var e := s.walks[q].e;
    if s.entries[e].holder.Free? {
      assert DoTryLock(s, q).entries == s.entries[e := s.entries[e].(holder := ByWalk)];
    } else {
      assert DoTryLock(s, q).entries == s.entries;
    }
    QuietFrame(s, DoTryLock(s, q), now);
  }

  lemma EvictStep(s: State, q: QueueId, now: nat)
    requires L.Inv(s) && Inv(s, now) && WalkEnabled(s, q, Evict)
    ensures Inv(DoEvict(s, q), now)
  {
    QuietFrame(s, DoEvict(s, q), now);
  }

  lemma WalkStep(s: State, q: QueueId, a: WalkAction)
    requires L.Inv(s) && Inv(s, s.time) && WalkEnabled(s, q, a)
    ensures Inv(WalkEffect(s, q, a), s.time + 1)
  {
    Later(s, s.time);
    if a.Mark? { MarkStep(s, q); }
    else if a.Delete? { DeleteStep(s, q); }
    else if a.Pick? || a.TryLock? { FlagStep(s, q, a, s.time + 1); }
    else if a.Evict? { EvictStep(s, q, s.time + 1); }
    else { EdgeStep(s, q, a, s.time + 1); }
  }

  lemma EdgeStep(s: State, q: QueueId, a: WalkAction, now: nat)
    requires L.Inv(s) && Inv(s, now) && WalkEnabled(s, q, a)
             && (a.BeginWalk? || a.BeginPrune? || a.Prune? || a.EndWalk?)
    ensures Inv(WalkEffect(s, q, a), now)
  {
    QuietFrame(s, WalkEffect(s, q, a), now);
  }

  lemma Later(s: State, now: nat)
    requires Inv(s, now)
    ensures Inv(s, now + 1)
  {
    forall k ensures Since(s.past.handled, k) < now + 1 { assert Since(s.past.handled, k) < now; }
  }

  lemma EffectKeepsInv(s: State, a: Action)
    requires L.Inv(s) && Inv(s, s.time) && Enabled(s, a)
    ensures Inv(Effect(s, a), s.time + 1)
  {
    match a
    case OfThread(t, step) => ThreadStep(s, t, step); Later(ThreadEffect(s, t, step), s.time);
    case OfRefresh(r, refresh) =>
      L.RefreshShape(s, r, refresh);
      Later(s, s.time);
      QuietFrame(s, RefreshEffect(s, r, refresh), s.time + 1);
    case OfWalk(q, walk) => WalkStep(s, q, walk);
    case OfStore(ev) => Later(s, s.time); QuietFrame(s, StoreEffect(s, ev), s.time + 1);
  }

  lemma StepKeepsInv(s: State, a: Action)
    requires L.Inv(s) && Inv(s, s.time)
    ensures Inv(Step(s, a), Step(s, a).time)
  {
    if Enabled(s, a) {
      EffectKeepsInv(s, a);
      L.EffectKeepsInv(s, a);
      QuietFrame(Effect(s, a), Step(s, a), s.time + 1);
    }
  }

  /** Whoever stamps, stamps from a seed begun after the last handling that preceded its lock. */
  lemma StampsFromFreshSeed(s: State, t: Tid)
    requires L.Inv(s) && Inv(s, s.time) && t in s.threads && Stamped(s.threads[t].pc)
    ensures s.threads[t].e in s.entries && s.entries[s.threads[t].e].seedTime > s.threads[t].handledBefore
  {
    assert ThreadOk(s, t) && L.ThreadOk(s, t);
  }
}
