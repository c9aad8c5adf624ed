/**
 The ledger is the cache's clocks. Whatever walks, evictions, aborts and other
 timelines do, a seeded entry stands where its timeline's account says, so every
 stamp is its account's clock plus one stride; and an account says where that
 clock came from.
 */
module Ledger {
  import opened Wrappers
  import opened VTime
  import opened Jobs
  import opened Frontier
  import opened Cell
  import opened Protocol
  import L = Locks
  import O = Order
  import B = Budget

  predicate EntryOk(s: State, e: EntryId) {
    && e in s.entries
    && var en := s.entries[e];
    !en.cell.evicted && en.cell.seeded ==> en.key in s.past.ledger && O.Top(s, e) == s.past.ledger[en.key].clock
  }

  ghost predicate ThreadOk(s: State, t: Tid) {
    && t in s.threads
    && var line := s.threads[t].call.key.line;
    var pc := s.threads[t].pc;
    pc.FloorReading? ==> pc.edge == TrailingEdge(pc.seen, line.tenant, line.partition)
  }

  /** Until an insert the clock is what the last seed read; after one it is the last stamp inserted. */
  ghost predicate AccountOk(s: State, k: Key) {
    && k in s.past.ledger && k in s.past.writers
    && var a := s.past.ledger[k];
    && a.floor >= 0
    && (a.reseeded ==> a.clock == Max(TrailingEdge(a.seen, k.line.tenant, k.line.partition), a.floor))
    && (!a.reseeded && O.Trusted(s, k.line) ==> LastStamp(s.past.log, k.line) == Some(a.clock))
  }

  ghost predicate Inv(s: State) {
    && (forall e {:trigger EntryOk(s, e)} :: e in s.entries ==> EntryOk(s, e))
    && (forall t {:trigger ThreadOk(s, t)} :: t in s.threads ==> ThreadOk(s, t))
    && (forall k {:trigger AccountOk(s, k)} :: k in s.past.ledger ==> AccountOk(s, k))
  }

  // ----- what leaves the ledger alone -----

  /** Neither the log nor the ledger is written, and no one trusted less becomes trusted. */
  ghost predicate Unwritten(s: State, s': State) {
    && s'.past.log == s.past.log && s'.past.ledger == s.past.ledger && s.past.writers <= s'.past.writers
    && (forall line :: O.Trusted(s', line) ==> O.Trusted(s, line))
  }

  /** Every thread about to read its floor was so before. */
  predicate NoNewEdges(s: State, s': State) {
    forall u <- s'.threads :: s'.threads[u].pc.FloorReading? ==> u in s.threads && s'.threads[u] == s.threads[u]
  }

  /** An unevicted seeded entry was one before, with the same clock. */
  predicate ClocksStand(s: State, s': State) {
    forall e <- s'.entries :: !s'.entries[e].cell.evicted && s'.entries[e].cell.seeded ==>
                                && e in s.entries && !s.entries[e].cell.evicted && s.entries[e].cell.seeded
                                && s'.entries[e].key == s.entries[e].key && O.Top(s', e) == O.Top(s, e)
  }

  lemma Frame(s: State, s': State)
    requires Inv(s) && Unwritten(s, s') && NoNewEdges(s, s') && ClocksStand(s, s')
    ensures Inv(s')
  {
    forall e | e in s'.entries ensures EntryOk(s', e) { if e in s.entries { assert EntryOk(s, e); } }
    forall u | u in s'.threads ensures ThreadOk(s', u) { if u in s.threads { assert ThreadOk(s, u); } }
    forall k | k in s'.past.ledger ensures AccountOk(s', k) { assert AccountOk(s, k); }
  }

  /** What the thread steps other than the edge read, the floor read and the insert have in common. */
  predicate PlainShape(s: State, s': State, t: Tid) {
    && s'.jobs == s.jobs && s'.past.log == s.past.log && s'.past.ledger == s.past.ledger
    && s.past.writers <= s'.past.writers && s'.past.hidden == s.past.hidden
    && s'.past.refunded == s.past.refunded && s'.past.lifted == s.past.lifted
    && (forall u <- s'.threads :: u != t ==> u in s.threads && s'.threads[u] == s.threads[u])
    && (t in s'.threads ==> !s'.threads[t].pc.FloorReading?)
  }

  predicate Plain(a: ThreadAction) {
    !a.ReadEdge? && !a.ReadFloor? && !a.InsertOne?
  }

  lemma PlainSteps(s: State, t: Tid, a: ThreadAction)
    requires ThreadEnabled(s, t, a) && Plain(a)
    ensures PlainShape(s, ThreadEffect(s, t, a), t)
  {
  }

  lemma ShapeUnwritten(s: State, s': State, t: Tid)
    requires PlainShape(s, s', t)
    ensures Unwritten(s, s') && NoNewEdges(s, s')
  {
    O.QuietSame(s, s');
  }

  lemma OutsideClocks(s: State, t: Tid, a: ThreadAction)
    requires L.Inv(s) && ThreadEnabled(s, t, a) && L.Outside(a)
    ensures ClocksStand(s, ThreadEffect(s, t, a))
  {
    var s' := ThreadEffect(s, t, a);
    forall e | e in s'.entries && e in s.entries ensures O.Top(s', e) == O.Top(s, e) { assert L.EntryOk(s, e); }
  }

  /** A held step that leaves its own entry's clock, or un-seeds the entry, leaves all of them. */
  lemma HeldClocks(s: State, s': State, t: Tid)
    requires L.Inv(s) && (L.KeepsHolding(s, s', t) || L.LeavesEntry(s, s', t))
    requires var e := s.threads[t].e;
             s'.entries[e].cell.seeded ==> s.entries[e].cell.seeded && O.Top(s', e) == O.Top(s, e)
    ensures ClocksStand(s, s')
  {
    assert L.ThreadOk(s, t);
    forall e | e in s'.entries && e != s.threads[t].e ensures O.Top(s', e) == O.Top(s, e) { assert L.EntryOk(s, e); }
  }

  lemma CellStep(s: State, t: Tid, a: ThreadAction)
    requires L.Inv(s) && ThreadEnabled(s, t, a) && (a.Touch? || a.Swap? || a.Stamp? || a.FailInsert?)
    ensures ClocksStand(s, ThreadEffect(s, t, a))
  {
    L.HeldStepShape(s, t, a);
    assert L.ThreadOk(s, t);
    HeldClocks(s, ThreadEffect(s, t, a), t);
  }

  lemma ReadStep(s: State, t: Tid, a: ThreadAction)
    requires L.Inv(s) && ThreadEnabled(s, t, a) && (a.ReadClock? || a.ReadLow? || a.StoreFrontier? || a.ReadEdge?)
    ensures ClocksStand(s, ThreadEffect(s, t, a))
  {
    L.HeldStepShape(s, t, a);
    assert L.ThreadOk(s, t);
    HeldClocks(s, ThreadEffect(s, t, a), t);
  }

  lemma ReturnStep(s: State, t: Tid, a: ThreadAction)
    requires L.Inv(s) && ThreadEnabled(s, t, a) && L.Returns(a)
    ensures ClocksStand(s, ThreadEffect(s, t, a))
  {
    L.HeldStepShape(s, t, a);
    assert L.ThreadOk(s, t);
    HeldClocks(s, ThreadEffect(s, t, a), t);
  }

  lemma PlainStep(s: State, t: Tid, a: ThreadAction)
    requires L.Inv(s) && Inv(s) && ThreadEnabled(s, t, a) && Plain(a)
    ensures Inv(ThreadEffect(s, t, a))
  {
    var s' := ThreadEffect(s, t, a);
    PlainSteps(s, t, a);
    ShapeUnwritten(s, s', t);
    if L.Outside(a) { OutsideClocks(s, t, a); }
    else if L.Returns(a) { ReturnStep(s, t, a); }
    else if a.ReadClock? || a.ReadLow? || a.StoreFrontier? { ReadStep(s, t, a); }
    else { CellStep(s, t, a); }
    Frame(s, s');
  }

  // ----- what writes it -----

  lemma ReadEdgeStep(s: State, t: Tid)
    requires L.Inv(s) && Inv(s) && ThreadEnabled(s, t, ReadEdge)
    ensures Inv(DoReadEdge(s, t))
  {
    var s' := DoReadEdge(s, t);
    ReadStep(s, t, ReadEdge);
    O.QuietSame(s, s');
    forall e | e in s'.entries ensures EntryOk(s', e) { assert EntryOk(s, e); }
    forall u | u in s'.threads ensures ThreadOk(s', u) { if u != t { assert ThreadOk(s, u); } }
    forall k | k in s'.past.ledger ensures AccountOk(s', k) { assert AccountOk(s, k); }
  }

  /** Entries of other timelines, and of this one if evicted, are not concerned by a held timeline's account. */
  lemma OtherEntries(s: State, s': State, t: Tid, e: EntryId)
    requires L.Inv(s) && Inv(s) && L.KeepsHolding(s, s', t) && e in s.entries && e != s.threads[t].e
    requires forall k <- s.past.ledger :: k != s.threads[t].call.key ==>
                                            k in s'.past.ledger && s'.past.ledger[k] == s.past.ledger[k]
    ensures EntryOk(s', e)
  {
    assert EntryOk(s, e) && L.EntryOk(s, e) && L.ThreadOk(s, t);
    assert O.Top(s', e) == O.Top(s, e);
    if !s.entries[e].cell.evicted && s.entries[e].key == s.threads[t].call.key { O.OnlyHolder(s, t, e); }
  }

  lemma ReadFloorStep(s: State, t: Tid)
    requires L.Inv(s) && B.Inv(s) && Inv(s) && ThreadEnabled(s, t, ReadFloor)
    ensures Inv(DoReadFloor(s, t))
  {
    if LaneOf(s.threads[t].call.key) in s.lwm { assert B.LaneOk(s, LaneOf(s.threads[t].call.key)); }
    var s' := DoReadFloor(s, t);
    L.HeldStepShape(s, t, ReadFloor);
    O.QuietSame(s, s');
    assert ThreadOk(s, t) && L.ThreadOk(s, t);
    forall e | e in s'.entries ensures EntryOk(s', e) { if e != s.threads[t].e { OtherEntries(s, s', t, e); } }
    forall u | u in s'.threads ensures ThreadOk(s', u) { if u != t { assert ThreadOk(s, u); } }
    forall k | k in s'.past.ledger ensures AccountOk(s', k) {
      if k != s.threads[t].call.key { assert AccountOk(s, k); }
    }
  }

  /** Where a stamp comes from: it is the account's clock plus the enqueue's stride. */
  lemma StampFromAccount(s: State, t: Tid)
    requires L.Inv(s) && O.Inv(s) && Inv(s) && t in s.threads && s.threads[t].pc.Inserting?
    ensures var th := s.threads[t];
            && th.call.key in s.past.ledger
            && th.pc.vstamp == s.past.ledger[th.call.key].clock + th.call.stride && th.call.stride >= 1
  {
    assert L.ThreadOk(s, t) && O.ThreadOk(s, t) && EntryOk(s, s.threads[t].e);
    assert O.Top(s, s.threads[t].e) == s.entries[s.threads[t].e].cell.vtime;
  }

  lemma InsertStep(s: State, t: Tid, hidden: bool)
    requires L.Inv(s) && O.Inv(s) && Inv(s) && ThreadEnabled(s, t, InsertOne(hidden))
    ensures Inv(DoInsert(s, t, hidden))
  {
    var s' := DoInsert(s, t, hidden);
    L.HeldStepShape(s, t, InsertOne(hidden));
    StampFromAccount(s, t);
    assert L.ThreadOk(s, t) && EntryOk(s, s.threads[t].e);
    forall e | e in s'.entries ensures EntryOk(s', e) { if e != s.threads[t].e { OtherEntries(s, s', t, e); } }
    forall u | u in s'.threads ensures ThreadOk(s', u) { if u != t { assert ThreadOk(s, u); } }
    forall k | k in s'.past.ledger ensures AccountOk(s', k) { InsertAccount(s, t, hidden, k); }
  }

  lemma LastOfAppend(log: seq<Insertion>, i: Insertion, line: Timeline)
    ensures LastStamp(log + [i], line) == if i.line == line then Some(i.vstamp) else LastStamp(log, line)
  {
    assert (log + [i])[..|log|] == log;
  }

  lemma InsertAccount(s: State, t: Tid, hidden: bool, k: Key)
    requires L.Inv(s) && Inv(s) && ThreadEnabled(s, t, InsertOne(hidden)) && k in s.past.ledger
    ensures AccountOk(DoInsert(s, t, hidden), k)
  {
    var s' := DoInsert(s, t, hidden);
    var th := s.threads[t];
    var i := Insertion(th.call.key.line, th.call.stride, th.pc.vstamp);
    assert AccountOk(s, k) && L.ThreadOk(s, t);
    assert s'.past.log == s.past.log + [i];
    LastOfAppend(s.past.log, i, k.line);
    if O.Trusted(s', k.line) { assert O.Trusted(s, k.line); }
  }

  // ----- every step -----

  lemma ThreadStep(s: State, t: Tid, a: ThreadAction)
    requires L.Inv(s) && O.Inv(s) && B.Inv(s) && Inv(s) && ThreadEnabled(s, t, a)
    ensures Inv(ThreadEffect(s, t, a))
  {
    if a.ReadEdge? { ReadEdgeStep(s, t); }
    else if a.ReadFloor? { ReadFloorStep(s, t); }
    else if a.InsertOne? { InsertStep(s, t, a.hidden); }
    else { PlainStep(s, t, a); }
  }

  /** Steps of refreshes, walks, the store and the clock tick. */
  lemma OtherStep(s: State, s': State)
    requires Inv(s) && O.SameClocks(s, s') && s'.past.log == s.past.log && s'.past.ledger == s.past.ledger
    requires s'.past.writers == s.past.writers && s'.past.hidden == s.past.hidden
    ensures Inv(s')
  {
    forall e | e in s'.entries ensures O.Top(s', e) == O.Top(s, e) {}
    assert ClocksStand(s, s');
    Frame(s, s');
  }

  lemma EffectKeepsInv(s: State, a: Action)
    requires L.Inv(s) && O.Inv(s) && B.Inv(s) && Inv(s) && Enabled(s, a)
    ensures Inv(Effect(s, a))
  {
    match a
    case OfThread(t, step) => ThreadStep(s, t, step);
    case OfRefresh(r, refresh) => L.RefreshShape(s, r, refresh); OtherStep(s, RefreshEffect(s, r, refresh));
    case OfWalk(q, walk) => WalkStep(s, q, walk);
    case OfStore(ev) => OtherStep(s, StoreEffect(s, ev));
  }

  lemma WalkStep(s: State, q: QueueId, a: WalkAction)
    requires L.Inv(s) && Inv(s) && WalkEnabled(s, q, a)
    ensures Inv(WalkEffect(s, q, a))
  {
    O.WalkKeepsClocks(s, q, a);
    OtherStep(s, WalkEffect(s, q, a));
  }

  lemma StepKeepsInv(s: State, a: Action)
    requires L.Inv(s) && O.Inv(s) && B.Inv(s) && Inv(s)
    ensures Inv(Step(s, a))
  {
    if Enabled(s, a) {
      EffectKeepsInv(s, a);
      OtherStep(Effect(s, a), Step(s, a));
    }
  }

  // ----- one timeline's account over a step -----

  /** A thread of the key completes a seed. */
  ghost predicate Reseeds(s: State, a: Action, key: Key) {
    && a.OfThread? && a.step.ReadFloor? && ThreadEnabled(s, a.tid, a.step)
    && s.threads[a.tid].call.key == key
  }

  ghost predicate Inserts(s: State, a: Action, key: Key) {
    && a.OfThread? && a.step.InsertOne? && ThreadEnabled(s, a.tid, a.step)
    && s.threads[a.tid].call.key == key
  }

  /** What refreshes, walks and store events leave as it is. */
  predicate Stands(s: State, s': State) {
    && s'.threads == s.threads && s'.past.ledger == s.past.ledger && s'.past.log == s.past.log
    && s'.past.writers == s.past.writers && s'.past.hidden == s.past.hidden
  }

  lemma NoThreadMoves(s: State, a: Action)
    requires L.Inv(s) && !a.OfThread? && Enabled(s, a)
    ensures Stands(s, Effect(s, a))
  {
    match a
    case OfRefresh(r, refresh) => L.RefreshShape(s, r, refresh);
    case OfWalk(q, walk) => O.WalkKeepsClocks(s, q, walk);
    case OfStore(ev) => assert Stands(s, StoreEffect(s, ev));
  }

  predicate SameAccount(s: State, s': State, k: Key) {
    (k in s'.past.ledger <==> k in s.past.ledger) && (k in s.past.ledger ==> s'.past.ledger[k] == s.past.ledger[k])
  }

  predicate AddsOne(jobs: JobMap, jobs': JobMap, id: JobId) {
    id !in jobs && id in jobs' && jobs' == jobs[id := jobs'[id]]
  }

  /** The thread steps that are not plain write their own timeline's account and move their own thread. */
  lemma WritingStep(s: State, t: Tid, a: ThreadAction)
    requires ThreadEnabled(s, t, a) && !Plain(a)
    ensures var s' := ThreadEffect(s, t, a);
            && t in s'.threads && s'.threads == s.threads[t := s'.threads[t]]
            && s'.threads[t].call == s.threads[t].call
            && (s'.threads[t].pc.FloorReading? <==> a.ReadEdge?)
            && (s'.jobs == s.jobs || AddsOne(s.jobs, s'.jobs, s.threads[t].call.id))
            && (forall k :: a.ReadEdge? || k != s.threads[t].call.key ==> SameAccount(s, s', k))
  {
    match a
    case ReadEdge =>
    case ReadFloor =>
    case InsertOne(hidden) =>
  }

  /** A timeline's account changes only by a seed or an insert of its own. */
  lemma AccountStands(s: State, a: Action, key: Key)
    requires L.Inv(s) && !Reseeds(s, a, key) && !Inserts(s, a, key) && Enabled(s, a)
    ensures SameAccount(s, Effect(s, a), key)
  {
    if !a.OfThread? { NoThreadMoves(s, a); }
    else if Plain(a.step) { PlainSteps(s, a.tid, a.step); }
    else { WritingStep(s, a.tid, a.step); assert SameAccount(s, ThreadEffect(s, a.tid, a.step), key); }
  }

  /** Whoever is about to read its floor was so before, or has just read its edge. */
  lemma EdgesStand(s: State, a: Action)
    requires L.Inv(s) && Enabled(s, a) && !(a.OfThread? && a.step.ReadEdge?)
    ensures NoNewEdges(s, Effect(s, a))
  {
    if !a.OfThread? { NoThreadMoves(s, a); }
    else if Plain(a.step) { PlainSteps(s, a.tid, a.step); }
    else { WritingStep(s, a.tid, a.step); }
  }
}
