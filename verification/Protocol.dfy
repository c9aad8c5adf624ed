/**
 The concurrent virtual-time cache, as a step relation. Any number of Queues
 share one job collection. Each Queue has a map from timeline to cache entry, a
 low-water-mark map, a global lock over the first and a lock over the second;
 each entry has its own lock. Enqueuers, refreshes and reconcile walks advance
 one shared-memory access or one server call at a time and interleave freely
 with the store's own events. An action that is not enabled changes nothing, so
 every sequence of actions is a run.
 */
module Protocol {
  import opened Wrappers
  import opened VTime
  import opened Jobs
  import opened Frontier
  import opened Cell

  type EntryId = nat
  type Tid = nat
  type QueueId = nat

  datatype Key = Key(queue: QueueId, line: Timeline)
  datatype Lane = Lane(queue: QueueId, partition: string)

  datatype Holder = Free | HeldBy(tid: Tid) | ByWalk

  /** An entry has an identity of its own: after an eviction the map may hold another entry for the same key. */
  datatype Entry = Entry(key: Key, cell: Cell, holder: Holder, seedTime: nat)

  /** The beginning of a refresh: the partition's service clock then, and the jobs that had a fence. */
  datatype Start = Start(clock: Option<int>, fenced: set<JobId>)

  /**
   Where an enqueue stands. `began` is the beginning of its low-water mark's refresh, `seen` the store its edge
   was read from.
   */
  datatype Pc =
    | Looking                                     // before the map lookup
    | Locking                                     // has an entry, waits for its lock
    | Touching                                    // first state holding the lock
    | Swapping                                    // before stale.Swap and the seeded test
    | ClockReading(began: Start)                  // cold seed: first frontier read
    | LowReading(began: Start)                    // cold seed: fallback read
    | Storing(value: int, began: Start)           // cold seed: before the LWM store
    | EdgeReading(stored: bool)                   // before the trailing-edge query
    | FloorReading(stored: bool, edge: int, seen: JobMap)  // before lwmFor and the vtime write
    | Stamping
    | Inserting(vstamp: int)
    | Committing(vstamp: int)
    | Aborting

  /** The normalized arguments of an enqueue; `stride` is the ideal stride of cost and weight. */
  datatype Call = Call(key: Key, cost: int64, weight: int64, stride: int, id: JobId, visibleAt: int)

  datatype Thread = Thread(
    call: Call,
    e: EntryId,             // the entry looked up; meaningless while Looking
    pc: Pc,
    handledBefore: nat,     // when the timeline had last been handled by a walk as the lock was taken
    seedStart: nat,         // when this reserve's seed began
    retries: nat,
    evictionsBefore: nat)

  /** A refresh of a low-water mark made by Reconcile, which holds no lock. */
  datatype Refresh =
    | ReadingClock(lane: Lane, began: Start)
    | ReadingLow(lane: Lane, began: Start)
    | StoringFrontier(lane: Lane, value: int, began: Start)

  /** invalidateAndEvict, holding the queue's global lock throughout; Pruning also holds its LWM lock. */
  datatype Walk =
    | Picking(todo: set<Key>)
    | Trying(todo: set<Key>, key: Key, e: EntryId)    // found untouched, before TryLock
    | Marking(todo: set<Key>, key: Key, e: EntryId)   // before stale.Store(true)
    | Deleting(todo: set<Key>, key: Key, e: EntryId)  // TryLock succeeded
    | Evicting(todo: set<Key>, key: Key, e: EntryId)  // deleted from the map, not yet marked
    | Pruning(partitions: set<string>)

  datatype Insertion = Insertion(line: Timeline, stride: int, vstamp: int)

  /**
   One Queue's account of a timeline: the clock its next stamp is drawn from, and its last seed: the store and the
   low-water mark the seed read, the beginning of the refresh that wrote the mark, whether no stamp was
   inserted since, and when the seed began.
   */
  datatype Account = Account(clock: int, seen: JobMap, floor: int, start: Option<Start>, reseeded: bool, at: nat)

  /** What the run has seen; nothing here is read by the code. */
  datatype History = History(
    log: seq<Insertion>,                // every record ever inserted, oldest first
    handled: map<Key, nat>,             // when a walk last finished handling a timeline
    evictions: map<Key, nat>,
    floorBegan: map<Lane, Start>,       // the beginning of the refresh that wrote the mark
    ledger: map<Key, Account>,
    writers: set<Key>,                  // the (queue, timeline) pairs ever enqueued through
    hidden: set<Timeline>,              // an insert was stored although it reported an error
    refunded: set<Timeline>,            // one of its jobs was resolved
    lifted: set<Timeline>,              // a seed after its first insert found the LWM above the trailing edge
    dipped: set<string>)                // a fenced job of the partition was released or deleted

  datatype State = State(
    entries: map<EntryId, Entry>,
    tenants: map<Key, EntryId>,
    lwm: map<Lane, int>,
    threads: map<Tid, Thread>,
    refreshes: map<nat, Refresh>,
    walks: map<QueueId, Walk>,
    jobs: JobMap,
    time: nat,
    past: History)

  const INIT := State(map[], map[], map[], map[], map[], map[], map[], 1,
                      History([], map[], map[], map[], map[], {}, {}, {}, {}, {}))

  datatype ThreadAction =
    | Begin(call: Call)
    | Find
    | Create(newId: EntryId)
    | TakeLock
    | BackOff
    | Touch
    | Swap
    | ReadClock
    | ReadLow
    | StoreFrontier
    | ReadEdge
    | ReadFloor
    | FailHook
    | Stamp
    | Overflow
    | InsertOne(hidden: bool)  // a hidden insert stores the record and still reports an error
    | FailInsert               // a duplicate id, or an error with nothing stored
    | Commit
    | Abort

  datatype RefreshAction = BeginRefresh(lane: Lane) | RefreshClock | RefreshLow | RefreshStore | FailRefresh

  datatype WalkAction =
    | BeginWalk
    | Pick(key: Key)
    | TryLock
    | Mark
    | Delete
    | Evict
    | BeginPrune
    | Prune(partition: string)
    | EndWalk

  datatype Action =
    | OfThread(tid: Tid, step: ThreadAction)
    | OfRefresh(rid: nat, refresh: RefreshAction)
    | OfWalk(queue: QueueId, walk: WalkAction)
    | OfStore(event: StoreEvent)

  // ----- reading a state -----

  predicate Holding(pc: Pc) {
    !pc.Looking? && !pc.Locking?
  }

  predicate Seeding(pc: Pc) {
    pc.ClockReading? || pc.LowReading? || pc.Storing? || pc.EdgeReading? || pc.FloorReading?
  }

  /** The entry is seeded and its clock is what the enqueue stamps from. */
  predicate Stamped(pc: Pc) {
    pc.Stamping? || pc.Inserting? || pc.Committing? || pc.Aborting?
  }

  function LaneOf(k: Key): Lane {
    Lane(k.queue, k.line.partition)
  }

  function Since<K(==)>(m: map<K, nat>, k: K): nat {
    if k in m then m[k] else 0
  }

  predicate MapLockFree(s: State, q: QueueId) {
    q !in s.walks
  }

  predicate LwmLockFree(s: State, q: QueueId) {
    q in s.walks ==> !s.walks[q].Pruning?
  }

  predicate Cached(s: State, lane: Lane) {
    exists k <- s.tenants :: LaneOf(k) == lane
  }

  function LwmFor(s: State, lane: Lane): int {
    if lane in s.lwm then s.lwm[lane] else 0
  }

  /** A refresh that begins now. */
  ghost function Now(s: State, partition: string): Start {
    Start(Clock(s.jobs, partition), FencedSet(s.jobs, partition))
  }

  // ----- enqueuers -----

  function Move(s: State, t: Tid, pc: Pc): State
    requires t in s.threads
  {
    s.(threads := s.threads[t := s.threads[t].(pc := pc)])
  }

  function SetEntry(s: State, e: EntryId, en: Entry): State {
    s.(entries := s.entries[e := en])
  }

  function SetCell(s: State, e: EntryId, cell: Cell): State
    requires e in s.entries
  {
    SetEntry(s, e, s.entries[e].(cell := cell))
  }

  /** The enqueue returns: the entry lock is released. */
  function Leave(s: State, t: Tid, en: Entry): State
    requires t in s.threads
  {
    s.(entries := s.entries[s.threads[t].e := en.(holder := Free)], threads := s.threads - {t})
  }

  /** The thread exists and the entry it points at, if any, does too; both hold in every reachable state. */
  predicate Live(s: State, t: Tid) {
    t in s.threads && (s.threads[t].pc.Looking? || s.threads[t].e in s.entries)
  }

  predicate At(s: State, t: Tid, a: ThreadAction)
    requires Live(s, t)
  {
    var pc := s.threads[t].pc;
    match a
    case Begin(_) => false
    case Find => pc.Looking? && MapLockFree(s, s.threads[t].call.key.queue) && s.threads[t].call.key in s.tenants
    case Create(newId) =>
      && pc.Looking? && MapLockFree(s, s.threads[t].call.key.queue)
      && s.threads[t].call.key !in s.tenants && newId !in s.entries
    case TakeLock => pc.Locking? && s.entries[s.threads[t].e].holder.Free? && !s.entries[s.threads[t].e].cell.evicted
    case BackOff => pc.Locking? && s.entries[s.threads[t].e].holder.Free? && s.entries[s.threads[t].e].cell.evicted
    case Touch => pc.Touching?
    case Swap => pc.Swapping?
    case ReadClock => pc.ClockReading?
    case ReadLow => pc.LowReading?
    case StoreFrontier => pc.Storing? && LwmLockFree(s, s.threads[t].call.key.queue)
    case ReadEdge => pc.EdgeReading?
    case ReadFloor => pc.FloorReading? && LwmLockFree(s, s.threads[t].call.key.queue)
    case FailHook => pc.ClockReading? || pc.LowReading? || pc.EdgeReading?
    case Stamp => pc.Stamping? && !Overflows(s.threads[t].call, s.entries[s.threads[t].e].cell.vtime)
    case Overflow => pc.Stamping? && Overflows(s.threads[t].call, s.entries[s.threads[t].e].cell.vtime)
    case InsertOne(_) => pc.Inserting? && s.threads[t].call.id !in s.jobs
    case FailInsert => pc.Inserting?
    case Commit => pc.Committing?
    case Abort => pc.Aborting?
  }

  predicate Priced(call: Call, stride: int)
    requires call.cost >= 1 && call.weight >= 1
  {
    stride == IdealStride(call.cost, call.weight)
  }

  /**
   The stride is the ideal one, said through `Priced` to keep the division out of every proof that only carries
   it along.
   */
  ghost predicate Normalized(call: Call) {
    && call.cost >= 1 && call.weight >= 1 && call.id != "" && call.stride >= 1
    && forall stride {:trigger Priced(call, stride)} :: Priced(call, stride) ==> stride == call.stride
  }

  ghost predicate ThreadEnabled(s: State, t: Tid, a: ThreadAction) {
    if a.Begin? then t !in s.threads && Normalized(a.call) else Live(s, t) && At(s, t, a)
  }

  function DoBegin(s: State, t: Tid, call: Call): State {
    s.(threads := s.threads[t := Thread(call, 0, Looking, 0, 0, 0, Since(s.past.evictions, call.key))],
    past := s.past.(writers := s.past.writers + {call.key}))
  }

  /** The lookup, under the global lock: the map's entry, or a fresh one put there. */
  function DoFind(s: State, t: Tid): State
    requires t in s.threads && s.threads[t].call.key in s.tenants
  {
    s.(threads := s.threads[t := s.threads[t].(e := s.tenants[s.threads[t].call.key], pc := Locking)])
  }

  function DoCreate(s: State, t: Tid, newId: EntryId): State
    requires t in s.threads
  {
    var key := s.threads[t].call.key;
    s.(threads := s.threads[t := s.threads[t].(e := newId, pc := Locking)],
    entries := s.entries[newId := Entry(key, FRESH, Free, 0)],
    tenants := s.tenants[key := newId])
  }

  function DoTakeLock(s: State, t: Tid): State
    requires Live(s, t) && s.threads[t].pc.Locking?
  {
    var th := s.threads[t];
    s.(entries := s.entries[th.e := s.entries[th.e].(holder := HeldBy(t))],
    threads := s.threads[t := th.(pc := Touching, handledBefore := Since(s.past.handled, th.call.key))])
  }

  /** The lock was that of an evicted entry: it is given back and the lookup retried. */
  function DoBackOff(s: State, t: Tid): State
    requires t in s.threads
  {
    s.(threads := s.threads[t := s.threads[t].(pc := Looking, retries := s.threads[t].retries + 1)])
  }

  function DoTouch(s: State, t: Tid): State
    requires Live(s, t) && s.threads[t].pc.Touching?
  {
    var e := s.threads[t].e;
    Move(SetCell(s, e, s.entries[e].cell.(touched := true)), t, Swapping)
  }

  /** stale.Swap(false), then the branch on seeded and everSeeded. */
  ghost function AfterSwap(s: State, t: Tid, cell: Cell): Pc
    requires t in s.threads
  {
    if cell.seeded then Stamping
    else if cell.everSeeded then EdgeReading(false)
    else ClockReading(Now(s, s.threads[t].call.key.line.partition))
  }

  ghost function DoSwap(s: State, t: Tid): State
    requires Live(s, t) && s.threads[t].pc.Swapping?
  {
    var th := s.threads[t];
    var cell := ApplyStale(s.entries[th.e].cell);
    SetCell(s, th.e, cell).(threads := s.threads[t := th.(pc := AfterSwap(s, t, cell), seedStart := s.time)])
  }

  /** The two reads of a frontier, as a program counter: a value goes to the store, no value goes on. */
  function AfterRead(v: Option<int>, began: Start, otherwise: Pc): Pc {
    match v
    case Some(x) => Storing(x, began)
    case None => otherwise
  }

  ghost function DoReadClock(s: State, t: Tid): State
    requires Live(s, t) && s.threads[t].pc.ClockReading?
  {
    var th := s.threads[t];
    Move(s, t, AfterRead(Clock(s.jobs, th.call.key.line.partition), th.pc.began, LowReading(th.pc.began)))
  }

  ghost function DoReadLow(s: State, t: Tid): State
    requires Live(s, t) && s.threads[t].pc.LowReading?
  {
    var th := s.threads[t];
    Move(s, t, AfterRead(LowestPending(s.jobs, th.call.key.line.partition), th.pc.began, EdgeReading(false)))
  }

  function StoreLwm(s: State, lane: Lane, value: int, began: Start): State {
    s.(lwm := s.lwm[lane := value], past := s.past.(floorBegan := s.past.floorBegan[lane := began]))
  }

  function DoStore(s: State, t: Tid): State
    requires Live(s, t) && s.threads[t].pc.Storing?
  {
    var th := s.threads[t];
    StoreLwm(Move(s, t, EdgeReading(true)), LaneOf(th.call.key), th.pc.value, th.pc.began)
  }

  ghost function DoReadEdge(s: State, t: Tid): State
    requires Live(s, t) && s.threads[t].pc.EdgeReading?
  {
    var line := s.threads[t].call.key.line;
    Move(s, t, FloorReading(s.threads[t].pc.stored, TrailingEdge(s.jobs, line.tenant, line.partition), s.jobs))
  }

  /** A seed that lifts a timeline that already has jobs in the log. */
  predicate Lifts(s: State, th: Thread)
    requires th.pc.FloorReading?
  {
    LwmFor(s, LaneOf(th.call.key)) > th.pc.edge && LastStamp(s.past.log, th.call.key.line).Some?
  }

  function DoReadFloor(s: State, t: Tid): State
    requires Live(s, t) && s.threads[t].pc.FloorReading?
  {
    var th := s.threads[t];
    var en := s.entries[th.e];
    Move(SetEntry(s, th.e,
                  en.(cell := Seed(en.cell, th.pc.edge, LwmFor(s, LaneOf(th.call.key))), seedTime := th.seedStart)),
         t, Stamping)
    .(past := s.past.(
    lifted := if Lifts(s, th) then s.past.lifted + {th.call.key.line} else s.past.lifted,
    ledger := s.past.ledger[th.call.key := Opening(s, th)]))
  }

  /** The account a completed seed opens. */
  function Opening(s: State, th: Thread): Account
    requires th.pc.FloorReading?
  {
    var lane := LaneOf(th.call.key);
    Account(Max(th.pc.edge, LwmFor(s, lane)), th.pc.seen, LwmFor(s, lane),
            if lane in s.lwm
               && lane in s.past.floorBegan then Some(s.past.floorBegan[lane]) else None, true, th.seedStart)
  }

  /** An acknowledged insert moves the clock to its stamp; a hidden one does not. */
  function Entered(ledger: map<Key, Account>, key: Key, vstamp: int, hidden: bool): map<Key, Account> {
    if hidden || key !in ledger then ledger else ledger[key := ledger[key].(clock := vstamp, reseeded := false)]
  }

  predicate Overflows(call: Call, vtime: int) {
    call.cost > MAX_COST || vtime > MAX_INT64 - call.stride
  }

  function DoStamp(s: State, t: Tid): State
    requires Live(s, t) && s.threads[t].pc.Stamping?
  {
    Move(s, t, Inserting(s.entries[s.threads[t].e].cell.vtime + s.threads[t].call.stride))
  }

  /** The stamp a thread takes, and the overflow it may report, are those of the checked machine arithmetic. */
  lemma StampIsChecked(call: Call, vtime: int64)
    requires call.cost >= 1 && call.weight >= 1
    ensures call.stride == IdealStride(call.cost, call.weight) ==>
              var r := NextVStamp(vtime, call.cost, call.weight);
              && (Overflows(call, vtime) <==> r.Err?)
              && (r.Ok? ==> r.value == vtime + call.stride)
  {
    var r := NextVStamp(vtime, call.cost, call.weight);
    assert call.cost <= MAX_COST <==> call.cost * SCALE <= MAX_INT64;
  }

  function DoInsert(s: State, t: Tid, hidden: bool): State
    requires Live(s, t) && s.threads[t].pc.Inserting?
  {
    var call, v := s.threads[t].call, s.threads[t].pc.vstamp;
    var line := call.key.line;
    Move(s, t, if hidden then Aborting else Committing(v))
    .(jobs := s.jobs[call.id := NewJob(line.tenant, line.partition, call.cost, v, call.visibleAt)],
    past := s.past.(log := s.past.log + [Insertion(line, call.stride, v)],
    ledger := Entered(s.past.ledger, call.key, v, hidden),
    hidden := if hidden then s.past.hidden + {line} else s.past.hidden))
  }

  function DoCommit(s: State, t: Tid): State
    requires Live(s, t) && s.threads[t].pc.Committing?
  {
    var en := s.entries[s.threads[t].e];
    Leave(s, t, en.(cell := en.cell.(vtime := s.threads[t].pc.vstamp)))
  }

  function DoGiveUp(s: State, t: Tid): State
    requires Live(s, t) && !s.threads[t].pc.Looking?
  {
    Leave(s, t, s.entries[s.threads[t].e])
  }

  ghost function ThreadEffect(s: State, t: Tid, a: ThreadAction): State
    requires ThreadEnabled(s, t, a)
  {
    match a
    case Begin(call) => DoBegin(s, t, call)
    case Find => DoFind(s, t)
    case Create(newId) => DoCreate(s, t, newId)
    case TakeLock => DoTakeLock(s, t)
    case BackOff => DoBackOff(s, t)
    case Touch => DoTouch(s, t)
    case Swap => DoSwap(s, t)
    case ReadClock => DoReadClock(s, t)
    case ReadLow => DoReadLow(s, t)
    case StoreFrontier => DoStore(s, t)
    case ReadEdge => DoReadEdge(s, t)
    case ReadFloor => DoReadFloor(s, t)
    case FailHook => DoGiveUp(s, t)
    case Stamp => DoStamp(s, t)
    case Overflow => DoGiveUp(s, t)
    case InsertOne(hidden) => DoInsert(s, t, hidden)
    case FailInsert => Move(s, t, Aborting)
    case Commit => DoCommit(s, t)
    case Abort => DoGiveUp(s, t)
  }

  // ----- Reconcile's refreshes -----

  predicate RefreshEnabled(s: State, r: nat, a: RefreshAction) {
    if a.BeginRefresh? then r !in s.refreshes
    else
      && r in s.refreshes
      && match a
         case RefreshClock => s.refreshes[r].ReadingClock?
         case RefreshLow => s.refreshes[r].ReadingLow?
         case RefreshStore => s.refreshes[r].StoringFrontier? && LwmLockFree(s, s.refreshes[r].lane.queue)
         case FailRefresh => !s.refreshes[r].StoringFrontier?
  }

  function MoveRefresh(s: State, r: nat, rf: Refresh): State {
    s.(refreshes := s.refreshes[r := rf])
  }

  ghost function DoRefreshClock(s: State, r: nat): State
    requires r in s.refreshes && s.refreshes[r].ReadingClock?
  {
    var rf := s.refreshes[r];
    match Clock(s.jobs, rf.lane.partition)
    case Some(v) => MoveRefresh(s, r, StoringFrontier(rf.lane, v, rf.began))
    case None => MoveRefresh(s, r, ReadingLow(rf.lane, rf.began))
  }

  ghost function DoRefreshLow(s: State, r: nat): State
    requires r in s.refreshes && s.refreshes[r].ReadingLow?
  {
    var rf := s.refreshes[r];
    match LowestPending(s.jobs, rf.lane.partition)
    case Some(v) => MoveRefresh(s, r, StoringFrontier(rf.lane, v, rf.began))
    case None => DropRefresh(s, r)
  }

  function DoRefreshStore(s: State, r: nat): State
    requires r in s.refreshes && s.refreshes[r].StoringFrontier?
  {
    var rf := s.refreshes[r];
    StoreLwm(DropRefresh(s, r), rf.lane, rf.value, rf.began)
  }

  function DropRefresh(s: State, r: nat): State {
    s.(refreshes := s.refreshes - {r})
  }

  ghost function RefreshEffect(s: State, r: nat, a: RefreshAction): State
    requires RefreshEnabled(s, r, a)
  {
    match a
    case BeginRefresh(lane) => MoveRefresh(s, r, ReadingClock(lane, Now(s, lane.partition)))
    case RefreshClock => DoRefreshClock(s, r)
    case RefreshLow => DoRefreshLow(s, r)
    case RefreshStore => DoRefreshStore(s, r)
    case FailRefresh => DropRefresh(s, r)
  }

  // ----- Reconcile's walk -----

  predicate WalkEnabled(s: State, q: QueueId, a: WalkAction) {
    if a.BeginWalk? then q !in s.walks
    else
      && q in s.walks
      && var w := s.walks[q];
      && (w.Picking? || w.Pruning? || w.e in s.entries)
      && match a
         case Pick(key) => w.Picking? && key in w.todo && key in s.tenants && s.tenants[key] in s.entries
         case TryLock => w.Trying?
         case Mark => w.Marking?
         case Delete => w.Deleting?
         case Evict => w.Evicting?
         case BeginPrune => w.Picking? && w.todo == {}
         case Prune(p) => w.Pruning? && p in w.partitions
         case EndWalk => w.Pruning? && w.partitions == {}
  }

  function MoveWalk(s: State, q: QueueId, w: Walk): State {
    s.(walks := s.walks[q := w])
  }

  function DoPick(s: State, q: QueueId, key: Key): State
    requires WalkEnabled(s, q, Pick(key))
  {
    var e := s.tenants[key];
    var cell := s.entries[e].cell;
    var rest := s.walks[q].todo - {key};
    MoveWalk(SetCell(s, e, cell.(touched := false)), q,
             if cell.touched then Marking(rest, key, e) else Trying(rest, key, e))
  }

  function DoTryLock(s: State, q: QueueId): State
    requires WalkEnabled(s, q, TryLock)
  {
    var w := s.walks[q];
    if s.entries[w.e].holder.Free? then
      MoveWalk(s, q, Deleting(w.todo, w.key, w.e)).(entries := s.entries[w.e := s.entries[w.e].(holder := ByWalk)])
    else MoveWalk(s, q, Marking(w.todo, w.key, w.e))
  }

  function DoMark(s: State, q: QueueId): State
    requires WalkEnabled(s, q, Mark)
  {
    var w := s.walks[q];
    MoveWalk(SetCell(s, w.e, s.entries[w.e].cell.(stale := true)), q, Picking(w.todo))
    .(past := s.past.(handled := s.past.handled[w.key := s.time]))
  }

  function DoDelete(s: State, q: QueueId): State
    requires WalkEnabled(s, q, Delete)
  {
    var w := s.walks[q];
    MoveWalk(s, q, Evicting(w.todo, w.key, w.e))
    .(tenants := s.tenants - {w.key}, past := s.past.(handled := s.past.handled[w.key := s.time]))
  }

  function DoEvict(s: State, q: QueueId): State
    requires WalkEnabled(s, q, Evict)
  {
    var w := s.walks[q];
    var en := s.entries[w.e];
    MoveWalk(s, q, Picking(w.todo))
    .(entries := s.entries[w.e := en.(cell := en.cell.(evicted := true), holder := Free)],
    past := s.past.(evictions := s.past.evictions[w.key := Since(s.past.evictions, w.key) + 1]))
  }

  ghost function WalkEffect(s: State, q: QueueId, a: WalkAction): State
    requires WalkEnabled(s, q, a)
  {
    match a
    case BeginWalk => MoveWalk(s, q, Picking(set k <- s.tenants | k.queue == q))
    case Pick(key) => DoPick(s, q, key)
    case TryLock => DoTryLock(s, q)
    case Mark => DoMark(s, q)
    case Delete => DoDelete(s, q)
    case Evict => DoEvict(s, q)
    case BeginPrune => MoveWalk(s, q,
                                Pruning(set lane <- s.lwm | lane.queue == q && !Cached(s, lane) :: lane.partition))
    case Prune(p) =>
      MoveWalk(s, q, Pruning(s.walks[q].partitions - {p}))
      .(lwm := s.lwm - {Lane(q, p)}, past := s.past.(floorBegan := s.past.floorBegan - {Lane(q, p)}))
    case EndWalk => s.(walks := s.walks - {q})
  }

  // ----- the store -----

  ghost function StoreEffect(s: State, ev: StoreEvent): State {
    match Subject(s.jobs, ev)
    case None => s
    case Some(id) =>
      var j := s.jobs[id];
      s.(jobs := StoreStep(s.jobs, ev),
      past := s.past.(
      refunded := if ev.Complete? || ev.Cancel? then s.past.refunded + {Timeline(j.tenant, j.partition)}
      else s.past.refunded,
           dipped := if (ev.Release? || ev.Expire?) && j.claimId != "" then s.past.dipped + {j.partition}
           else s.past.dipped))
  }

  // ----- runs -----

  ghost predicate Enabled(s: State, a: Action) {
    match a
    case OfThread(t, step) => ThreadEnabled(s, t, step)
    case OfRefresh(r, refresh) => RefreshEnabled(s, r, refresh)
    case OfWalk(q, walk) => WalkEnabled(s, q, walk)
    case OfStore(ev) => ProperClaim(ev)
  }

  ghost function Effect(s: State, a: Action): State
    requires Enabled(s, a)
  {
    match a
    case OfThread(t, step) => ThreadEffect(s, t, step)
    case OfRefresh(r, refresh) => RefreshEffect(s, r, refresh)
    case OfWalk(q, walk) => WalkEffect(s, q, walk)
    case OfStore(ev) => StoreEffect(s, ev)
  }

  function Tick(s: State, now: nat): State {
    s.(time := now)
  }

  ghost function Step(s: State, a: Action): State {
    if Enabled(s, a) then Tick(Effect(s, a), s.time + 1) else s
  }

  ghost function Run(s: State, actions: seq<Action>): State
    decreases |actions|
  {
    if actions == [] then s else Run(Step(s, actions[0]), actions[1..])
  }

  // ----- the insertion log -----

  /** The sum of the strides of every record ever inserted into a partition. */
  function Spent(log: seq<Insertion>, partition: string): int
    decreases |log|
  {
    if log == [] then 0
    else
      var last := log[|log| - 1];
      Spent(log[..|log| - 1], partition) + (if last.line.partition == partition then last.stride else 0)
  }

  /** The stamp of the timeline's most recent insert. */
  function LastStamp(log: seq<Insertion>, line: Timeline): Option<int>
    decreases |log|
  {
    if log == [] then None
    else if log[|log| - 1].line == line then Some(log[|log| - 1].vstamp)
    else LastStamp(log[..|log| - 1], line)
  }
}
