/**
 Seeding epochs. A seed is forgotten only by a walk: unless one has handled the
 timeline since its account's seed began, no enqueue of it seeds again.
 */
module Epochs {
  import opened Protocol
  import L = Locks
  import O = Order
  import K = Ledger
  import D = Drift

  /** An entry that is stale, or was seeded and no longer is, has been handled since its seed began. */
  predicate EntryOk(s: State, e: EntryId, now: nat) {
    && e in s.entries
    && var en := s.entries[e];
    && en.seedTime <= now
    && (en.cell.stale || (en.cell.everSeeded && !en.cell.seeded) ==> Since(s.past.handled, en.key) >= en.seedTime)
  }

  /** A seed under way that will find its entry stale has been overtaken by a walk since it began. */
  predicate ThreadOk(s: State, t: Tid, now: nat) {
    && t in s.threads
    && var th := s.threads[t];
    && th.seedStart <= now
    && (Seeding(th.pc) && th.e in s.entries && s.entries[th.e].cell.stale ==>
          Since(s.past.handled, th.call.key) >= th.seedStart)
  }

  /** The map's entry still is the one the account's seed was made on, unless a walk has handled it since. */
  predicate AccountOk(s: State, k: Key, now: nat) {
    && k in s.past.ledger
    && s.past.ledger[k].at <= now
    && (Since(s.past.handled, k) >= s.past.ledger[k].at || SeededOn(s, k, s.past.ledger[k].at))
  }

  predicate SeededOn(s: State, k: Key, at: nat) {
    && k in s.tenants && s.tenants[k] in s.entries
    && s.entries[s.tenants[k]].cell.everSeeded && s.entries[s.tenants[k]].seedTime == at
  }

  /** `now` lies after every seed's beginning. */
  ghost predicate Inv(s: State, now: nat) {
    && (forall e {:trigger EntryOk(s, e, now)} :: e in s.entries ==> EntryOk(s, e, now))
    && (forall t {:trigger ThreadOk(s, t, now)} :: t in s.threads ==> ThreadOk(s, t, now))
    && (forall k {:trigger AccountOk(s, k, now)} :: k in s.past.ledger ==> AccountOk(s, k, now))
  }

  // ----- frames -----

  /** The entry's seed and flags are as they were. */
  predicate SameSeed(s: State, s': State, e: EntryId) {
    && e in s.entries && e in s'.entries
    && s'.entries[e].key == s.entries[e].key && s'.entries[e].seedTime == s.entries[e].seedTime
    && s'.entries[e].cell.seeded == s.entries[e].cell.seeded
    && s'.entries[e].cell.everSeeded == s.entries[e].cell.everSeeded
    && s'.entries[e].cell.stale == s.entries[e].cell.stale
  }

  /** The thread is where it was, or further along without a new seed. */
  predicate SameCourse(s: State, s': State, t: Tid) {
    && t in s.threads && t in s'.threads
    && var th, th' := s.threads[t], s'.threads[t];
    && th'.call.key == th.call.key && th'.seedStart == th.seedStart
    && (Seeding(th'.pc) ==> Seeding(th.pc) && th'.e == th.e && SameSeed(s, s', th.e))
  }

  ghost predicate TimeGoesOn(s: State, s': State) {
    forall k {:trigger Since(s'.past.handled, k)} :: Since(s.past.handled, k) <= Since(s'.past.handled, k)
  }

  lemma Frame(s: State, s': State)
    requires Inv(s, s.time) && TimeGoesOn(s, s')
    requires forall e <- s'.entries :: SameSeed(s, s', e) || EntryOk(s', e, s.time)
    requires forall t <- s'.threads :: SameCourse(s, s', t) || ThreadOk(s', t, s.time)
    requires forall k <- s'.past.ledger ::
               (k in s.past.ledger && s'.past.ledger[k].at == s.past.ledger[k].at
                && (k in s.tenants ==>
                      k in s'.tenants && s'.tenants[k] == s.tenants[k] && SameSeed(s, s', s.tenants[k])))
               || AccountOk(s', k, s.time)
    ensures Inv(s', s.time)
  {
    forall e | e in s'.entries ensures EntryOk(s', e, s.time) {
      if SameSeed(s, s', e) {
        assert EntryOk(s, e, s.time)
               && Since(s'.past.handled, s.entries[e].key) >= Since(s.past.handled, s.entries[e].key);
      }
    }
    forall t | t in s'.threads ensures ThreadOk(s', t, s.time) {
      if SameCourse(s, s', t) {
        assert ThreadOk(s, t, s.time)
               && Since(s'.past.handled, s.threads[t].call.key) >= Since(s.past.handled, s.threads[t].call.key);
      }
    }
    forall k | k in s'.past.ledger ensures AccountOk(s', k, s.time) {
      if !AccountOk(s', k, s.time) {
        assert AccountOk(s, k, s.time) && Since(s'.past.handled, k) >= Since(s.past.handled, k);
      }
    }
  }

  /** A thread's step that leaves its own entry and account fit leaves everything fit. */
  lemma HeldFrame(s: State, s': State, t: Tid)
    requires L.Inv(s) && Inv(s, s.time) && (L.KeepsHolding(s, s', t) || L.LeavesEntry(s, s', t))
    requires EntryOk(s', s.threads[t].e, s.time) && (t in s'.threads ==> ThreadOk(s', t, s.time))
    requires forall k <- s'.past.ledger ::
               (k in s.past.ledger && s'.past.ledger[k].at == s.past.ledger[k].at && k != s.threads[t].call.key)
               || AccountOk(s', k, s.time)
    ensures Inv(s', s.time)
  {
    var e := s.threads[t].e;
    assert L.ThreadOk(s, t);
    forall x | x in s'.entries && x != e ensures SameSeed(s, s', x) {}
    forall u | u in s'.threads && u != t ensures SameCourse(s, s', u) { assert L.ThreadOk(s, u); }
    forall k | k in s.tenants && k != s.threads[t].call.key ensures SameSeed(s, s', s.tenants[k]) {
      assert L.KeyOk(s, k);
    }
    Frame(s, s');
  }

  // ----- enqueues -----

  lemma OutsideStep(s: State, t: Tid, a: ThreadAction)
    requires L.Inv(s) && Inv(s, s.time) && ThreadEnabled(s, t, a) && L.Outside(a)
    ensures Inv(ThreadEffect(s, t, a), s.time)
  {
    if t in s.threads { assert ThreadOk(s, t, s.time); }
    match a
    case Begin(call) => OutsideFrame(s, DoBegin(s, t, call), t);
    case Find => OutsideFrame(s, DoFind(s, t), t);
    case Create(newId) => CreateStep(s, t, newId);
    case TakeLock => OutsideFrame(s, DoTakeLock(s, t), t);
    case BackOff => OutsideFrame(s, DoBackOff(s, t), t);
  }

  lemma OutsideFrame(s: State, s': State, t: Tid)
    requires L.Inv(s) && Inv(s, s.time) && s'.past.handled == s.past.handled && s'.past.ledger == s.past.ledger
    requires s'.tenants == s.tenants && s'.entries.Keys == s.entries.Keys
    requires forall e <- s.entries :: s'.entries[e] == s.entries[e].(holder := s'.entries[e].holder)
    requires t in s'.threads && s'.threads == s.threads[t := s'.threads[t]] && ThreadOk(s', t, s.time)
    ensures Inv(s', s.time)
  {
    forall u | u in s'.threads && u != t ensures SameCourse(s, s', u) { assert L.ThreadOk(s, u); }
    forall k | k in s.tenants ensures SameSeed(s, s', s.tenants[k]) { assert L.KeyOk(s, k); }
    Frame(s, s');
  }

  /** A new entry stands in for one that a walk has deleted, or for none. */
  lemma CreateStep(s: State, t: Tid, newId: EntryId)
    requires L.Inv(s) && Inv(s, s.time) && ThreadEnabled(s, t, Create(newId))
    ensures Inv(DoCreate(s, t, newId), s.time)
  {
    var s' := DoCreate(s, t, newId);
    assert ThreadOk(s, t, s.time);
    forall u | u in s'.threads && u != t ensures SameCourse(s, s', u) { assert L.ThreadOk(s, u); }
    forall k | k in s.tenants ensures SameSeed(s, s', s.tenants[k]) { assert L.KeyOk(s, k); }
    if s.threads[t].call.key in s.past.ledger { assert AccountOk(s, s.threads[t].call.key, s.time); }
    Frame(s, s');
  }

  lemma SwapStep(s: State, t: Tid)
    requires L.Inv(s) && Inv(s, s.time) && ThreadEnabled(s, t, Swap)
    ensures Inv(DoSwap(s, t), s.time)
  {
    L.HeldStepShape(s, t, Swap);
    assert L.ThreadOk(s, t) && EntryOk(s, s.threads[t].e, s.time);
    AccountsStay(s, DoSwap(s, t), t);
    HeldFrame(s, DoSwap(s, t), t);
  }

  lemma ReadFloorStep(s: State, t: Tid)
    requires L.Inv(s) && Inv(s, s.time) && ThreadEnabled(s, t, ReadFloor)
    ensures Inv(DoReadFloor(s, t), s.time)
  {
    L.HeldStepShape(s, t, ReadFloor);
    assert L.ThreadOk(s, t) && ThreadOk(s, t, s.time) && EntryOk(s, s.threads[t].e, s.time);
    HeldFrame(s, DoReadFloor(s, t), t);
  }

  /** A step that keeps its entry's seed keeps its timeline's account. */
  lemma AccountsStay(s: State, s': State, t: Tid)
    requires L.Inv(s) && Inv(s, s.time) && (L.KeepsHolding(s, s', t) || L.LeavesEntry(s, s', t))
    requires forall k <- s'.past.ledger :: k in s.past.ledger && s'.past.ledger[k].at == s.past.ledger[k].at
    requires var e := s.threads[t].e;
             s'.entries[e].seedTime == s.entries[e].seedTime
             && s'.entries[e].cell.everSeeded == s.entries[e].cell.everSeeded
    ensures forall k <- s'.past.ledger :: k == s.threads[t].call.key ==> AccountOk(s', k, s.time)
  {
    assert L.ThreadOk(s, t);
    if s.threads[t].call.key in s'.past.ledger { assert AccountOk(s, s.threads[t].call.key, s.time); }
  }

  lemma PlainStep(s: State, t: Tid, a: ThreadAction)
    requires L.Inv(s) && Inv(s, s.time) && ThreadEnabled(s, t, a) && !L.Outside(a) && !L.Returns(a) && !a.Swap?
             && !a.ReadFloor?
    ensures Inv(ThreadEffect(s, t, a), s.time)
  {
    var s' := ThreadEffect(s, t, a);
    L.HeldStepShape(s, t, a);
    PlainShape(s, t, a);
    assert L.ThreadOk(s, t) && ThreadOk(s, t, s.time) && EntryOk(s, s.threads[t].e, s.time);
    AccountsStay(s, s', t);
    HeldFrame(s, s', t);
  }

  lemma PlainShape(s: State, t: Tid, a: ThreadAction)
    requires ThreadEnabled(s, t, a) && !L.Outside(a) && !L.Returns(a) && !a.Swap? && !a.ReadFloor?
    ensures var s' := ThreadEffect(s, t, a);
            && SameCourse(s, s', t) && s.threads[t].e in s.entries && SameSeed(s, s', s.threads[t].e)
            && forall k <- s'.past.ledger :: k in s.past.ledger && s'.past.ledger[k].at == s.past.ledger[k].at
  {
    match a
    case Touch =>
    case ReadClock =>
    case ReadLow =>
    case StoreFrontier =>
    case ReadEdge =>
    case InsertOne(_) =>
    case _ =>
  }

  lemma ReturnStep(s: State, t: Tid, a: ThreadAction)
    requires L.Inv(s) && Inv(s, s.time) && ThreadEnabled(s, t, a) && L.Returns(a)
    ensures Inv(ThreadEffect(s, t, a), s.time)
  {
    var s' := ThreadEffect(s, t, a);
    L.HeldStepShape(s, t, a);
    assert L.ThreadOk(s, t) && EntryOk(s, s.threads[t].e, s.time);
    assert SameSeed(s, s', s.threads[t].e) && s'.past.ledger == s.past.ledger;
    AccountsStay(s, s', t);
    HeldFrame(s, s', t);
  }

  lemma ThreadStep(s: State, t: Tid, a: ThreadAction)
    requires L.Inv(s) && Inv(s, s.time) && ThreadEnabled(s, t, a)
    ensures Inv(ThreadEffect(s, t, a), s.time)
  {
    if L.Outside(a) { OutsideStep(s, t, a); }
    else if L.Returns(a) { ReturnStep(s, t, a); }
    else if a.Swap? { SwapStep(s, t); }
    else if a.ReadFloor? { ReadFloorStep(s, t); }
    else { PlainStep(s, t, a); }
  }

  // ----- walks, refreshes, the store -----

  /** Marking makes the entry stale and is itself the handling. */
  lemma MarkStep(s: State, q: QueueId)
    requires L.Inv(s) && D.Inv(s, s.time) && Inv(s, s.time) && WalkEnabled(s, q, Mark)
    ensures Inv(DoMark(s, q), s.time)
  {
    var s', w := DoMark(s, q), s.walks[q];
    assert L.WalkOk(s, q) && EntryOk(s, w.e, s.time);
    HandlingIsLatest(s, s', w.key);
    forall u | u in s'.threads ensures SameCourse(s, s', u) || ThreadOk(s', u, s.time) {
      assert ThreadOk(s, u, s.time) && L.ThreadOk(s, u);
    }
    forall k | k in s.tenants && k != w.key ensures SameSeed(s, s', s.tenants[k]) { assert L.KeyOk(s, k); }
    if w.key in s.past.ledger { assert AccountOk(s, w.key, s.time); }
    Frame(s, s');
  }

  lemma DeleteStep(s: State, q: QueueId)
    requires L.Inv(s) && D.Inv(s, s.time) && Inv(s, s.time) && WalkEnabled(s, q, Delete)
    ensures Inv(DoDelete(s, q), s.time)
  {
    var s', w := DoDelete(s, q), s.walks[q];
    assert L.WalkOk(s, q);
    HandlingIsLatest(s, s', w.key);
    forall u | u in s'.threads ensures SameCourse(s, s', u) { assert L.ThreadOk(s, u); }
    forall k | k in s.tenants && k != w.key ensures SameSeed(s, s', s.tenants[k]) { assert L.KeyOk(s, k); }
    if w.key in s.past.ledger { assert AccountOk(s, w.key, s.time); }
    Frame(s, s');
  }

  lemma HandlingIsLatest(s: State, s': State, key: Key)
    requires D.Inv(s, s.time) && s'.past.handled == s.past.handled[key := s.time]
    ensures TimeGoesOn(s, s') && Since(s'.past.handled, key) == s.time
  {
    forall k ensures Since(s.past.handled, k) <= Since(s'.past.handled, k) { assert Since(s.past.handled, k) < s.time; }
  }

  /** Steps that touch no seed, no thread and no map entry. */
  lemma QuietFrame(s: State, s': State)
    requires L.Inv(s) && Inv(s, s.time) && TimeGoesOn(s, s') && s'.threads == s.threads
             && s'.past.ledger == s.past.ledger
    requires s'.tenants == s.tenants && s'.entries.Keys == s.entries.Keys && forall e <- s.entries :: SameSeed(s, s', e)
    ensures Inv(s', s.time)
  {
    forall u | u in s'.threads ensures SameCourse(s, s', u) { assert L.ThreadOk(s, u); }
    forall k | k in s.tenants ensures SameSeed(s, s', s.tenants[k]) { assert L.KeyOk(s, k); }
    Frame(s, s');
  }

  lemma WalkStep(s: State, q: QueueId, a: WalkAction)
    requires L.Inv(s) && D.Inv(s, s.time) && Inv(s, s.time) && WalkEnabled(s, q, a)
    ensures Inv(WalkEffect(s, q, a), s.time)
  {
    match a
    case Mark => MarkStep(s, q);
    case Delete => DeleteStep(s, q);
    case Pick(key) => QuietFrame(s, DoPick(s, q, key));
    case TryLock => TryLockStep(s, q);
    case Evict => QuietFrame(s, DoEvict(s, q));
    case _ => QuietFrame(s, WalkEffect(s, q, a));
  }

  lemma TryLockStep(s: State, q: QueueId)
    requires L.Inv(s) && Inv(s, s.time) && WalkEnabled(s, q, TryLock)
    ensures Inv(DoTryLock(s, q), s.time)
  {
    var e := s.walks[q].e;
    if s.entries[e].holder.Free? {
      assert DoTryLock(s, q).entries == s.entries[e := s.entries[e].(holder := ByWalk)];
    } else {
      assert DoTryLock(s, q).entries == s.entries;
    }
    QuietFrame(s, DoTryLock(s, q));
  }

  lemma EffectKeepsInv(s: State, a: Action)
    requires L.Inv(s) && D.Inv(s, s.time) && Inv(s, s.time) && Enabled(s, a)
    ensures Inv(Effect(s, a), s.time)
  {
    match a
    case OfThread(t, step) => ThreadStep(s, t, step);
    case OfRefresh(r, refresh) => L.RefreshShape(s, r, refresh); QuietFrame(s, RefreshEffect(s, r, refresh));
    case OfWalk(q, walk) => WalkStep(s, q, walk);
    case OfStore(ev) => QuietFrame(s, StoreEffect(s, ev));
  }

  lemma TickKeepsInv(s: State, now: nat)
    requires Inv(s, now)
    ensures Inv(Tick(s, now + 1), now + 1)
  {
    var s' := Tick(s, now + 1);
    forall e | e in s'.entries ensures EntryOk(s', e, now + 1) { assert EntryOk(s, e, now); }
    forall t | t in s'.threads ensures ThreadOk(s', t, now + 1) { assert ThreadOk(s, t, now); }
    forall k | k in s'.past.ledger ensures AccountOk(s', k, now + 1) { assert AccountOk(s, k, now); }
  }

  lemma StepKeepsInv(s: State, a: Action)
    requires L.Inv(s) && D.Inv(s, s.time) && Inv(s, s.time)
    ensures Inv(Step(s, a), Step(s, a).time)
  {
    if Enabled(s, a) {
      EffectKeepsInv(s, a);
      TickKeepsInv(Effect(s, a), s.time);
    }
  }

  // ----- between two walks -----

  /** No walk has handled the timeline since its account's seed began. */
  predicate Unhandled(s: State, key: Key) {
    key in s.past.ledger && Since(s.past.handled, key) < s.past.ledger[key].at
  }

  /** The step by which a walk marks the timeline's entry stale, or takes it from the map. */
  predicate Handles(s: State, a: Action, key: Key) {
    && a.OfWalk? && (a.walk.Mark? || a.walk.Delete?) && WalkEnabled(s, a.queue, a.walk)
    && s.walks[a.queue].key == key
  }

  /** Nobody seeds again what no walk has handled. */
  lemma ReseededWasHandled(s: State, a: Action, key: Key)
    requires L.Inv(s) && O.Inv(s) && Inv(s, s.time) && K.Reseeds(s, a, key)
    ensures !Unhandled(s, key)
  {
    assert L.ThreadOk(s, a.tid) && O.ThreadOk(s, a.tid) && EntryOk(s, s.threads[a.tid].e, s.time);
    if key in s.past.ledger { assert AccountOk(s, key, s.time); }
  }

  lemma UnhandledStands(s: State, a: Action, key: Key)
    requires L.Inv(s) && O.Inv(s) && Inv(s, s.time) && Unhandled(s, key) && !Handles(s, a, key)
    ensures Unhandled(Step(s, a), key)
    ensures !s.past.ledger[key].reseeded ==> !Step(s, a).past.ledger[key].reseeded
  {
    if Enabled(s, a) {
      HandledStands(s, a, key);
      SeedStands(s, a, key);
    }
  }

  lemma SeedStands(s: State, a: Action, key: Key)
    requires L.Inv(s) && O.Inv(s) && Inv(s, s.time) && Unhandled(s, key) && Enabled(s, a)
    ensures var ledger := Effect(s, a).past.ledger;
            && key in ledger && ledger[key].at == s.past.ledger[key].at
            && (!s.past.ledger[key].reseeded ==> !ledger[key].reseeded)
  {
    if K.Reseeds(s, a, key) { ReseededWasHandled(s, a, key); }
    else if K.Inserts(s, a, key) { InsertKeepsSeed(s, a.tid, a.step.hidden); }
    else { K.AccountStands(s, a, key); }
  }

  lemma InsertKeepsSeed(s: State, t: Tid, hidden: bool)
    requires ThreadEnabled(s, t, InsertOne(hidden)) && s.threads[t].call.key in s.past.ledger
    ensures var key, ledger := s.threads[t].call.key, DoInsert(s, t, hidden).past.ledger;
            && key in ledger && ledger[key].at == s.past.ledger[key].at
            && (!s.past.ledger[key].reseeded ==> !ledger[key].reseeded)
  {
  }

  lemma HandledStands(s: State, a: Action, key: Key)
    requires L.Inv(s) && Enabled(s, a) && !Handles(s, a, key)
    ensures Since(Effect(s, a).past.handled, key) == Since(s.past.handled, key)
  {
    match a
    case OfThread(t, step) => ThreadKeepsHandled(s, t, step);
    case OfRefresh(r, refresh) => L.RefreshShape(s, r, refresh);
    case OfWalk(q, walk) => WalkHandles(s, q, walk, key);
    case OfStore(ev) =>
  }

  lemma WalkHandles(s: State, q: QueueId, walk: WalkAction, key: Key)
    requires WalkEnabled(s, q, walk) && !Handles(s, OfWalk(q, walk), key)
    ensures Since(WalkEffect(s, q, walk).past.handled, key) == Since(s.past.handled, key)
  {
    if walk.Mark? { MarkHandles(s, q, key); }
    else if walk.Delete? { DeleteHandles(s, q, key); }
    else { OthersHandleNothing(s, q, walk); }
  }

  lemma MarkHandles(s: State, q: QueueId, key: Key)
    requires WalkEnabled(s, q, Mark) && s.walks[q].key != key
    ensures Since(DoMark(s, q).past.handled, key) == Since(s.past.handled, key)
  {
  }

  lemma DeleteHandles(s: State, q: QueueId, key: Key)
    requires WalkEnabled(s, q, Delete) && s.walks[q].key != key
    ensures Since(DoDelete(s, q).past.handled, key) == Since(s.past.handled, key)
  {
  }

  lemma OthersHandleNothing(s: State, q: QueueId, walk: WalkAction)
    requires WalkEnabled(s, q, walk) && !walk.Mark? && !walk.Delete?
    ensures WalkEffect(s, q, walk).past.handled == s.past.handled
  {
  }

  lemma ThreadKeepsHandled(s: State, t: Tid, a: ThreadAction)
    requires ThreadEnabled(s, t, a)
    ensures ThreadEffect(s, t, a).past.handled == s.past.handled
  {
    if !L.Outside(a) { L.HeldStepShape(s, t, a); }
  }
}
