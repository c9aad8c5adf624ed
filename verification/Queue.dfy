/**
 A Queue: the collection and the cache together. Enqueue stamps a job on its
 timeline and stores it; Reconcile refreshes the low-water marks and walks the
 cache. Every server call may fail, and a caller's context may end at any point.
 */
module Queue {
  import opened Wrappers
  import opened VTime
  import opened Duration
  import opened Jobs
  import opened Frontier
  import opened Cell
  import opened Collection
  import opened VtimeCache
  import opened CacheLaws

  datatype EnqueueOpts = EnqueueOpts(jobId: JobId, tenantId: string, partition: string, cost: int64, weight: int64,
                                     delay: int64)

  datatype NormalizedEnqueue = NormalizedEnqueue(id: JobId, key: Timeline, cost: int64, weight: int64, delay: int64)

  /** Validation and defaults: the first failing check decides the error. */
  function Normalize(o: EnqueueOpts): (r: Result<NormalizedEnqueue, Error>)
    ensures r.Ok? <==> o.jobId != "" && o.weight >= 0 && o.delay >= 0
    ensures r.Ok? ==> r.value.id == o.jobId && r.value.key.tenant == o.tenantId && r.value.delay == o.delay
    ensures r.Ok? ==>
              r.value.cost >= 1 && (o.cost >= 1 ==> r.value.cost == o.cost) && (o.cost < 1 ==> r.value.cost == 1)
    ensures r.Ok? ==>
              r.value.weight >= 1 && (o.weight > 0 ==> r.value.weight == o.weight)
              && (o.weight == 0 ==> r.value.weight == 1)
    ensures r.Ok? ==> r.value.key.partition == if o.partition == "" then DEFAULT_PARTITION else o.partition
    ensures o.jobId == "" ==> r == Err(ErrMissingJobID)
    ensures o.jobId != "" && o.weight < 0 ==> r == Err(ErrInvalidWeight)
    ensures o.jobId != "" && o.weight >= 0 && o.delay < 0 ==> r == Err(ErrInvalidDelay)
  {
    if o.jobId == "" then Err(ErrMissingJobID)
    else
      var weight := NormalizeWeight(o.weight);
      if weight.Err? then Err(weight.error)
      else if o.delay < 0 then Err(ErrInvalidDelay)
      else Ok(NormalizedEnqueue(o.jobId, Timeline(o.tenantId, DefaultPartition(o.partition)), NormalizeCost(o.cost),
                                weight.value, o.delay))
  }

  /** The stored stamps are BSON int64 values. */
  ghost predicate StampsFit(jobs: JobMap) {
    forall id <- jobs :: MIN_INT64 <= jobs[id].vstamp <= MAX_INT64
  }

  /** Which of the hooks' queries fail: the frontier's two reads, and the trailing edge's. */
  datatype ReadFaults = ReadFaults(clock: bool, pending: bool, edge: bool)

  /** What the two hooks answer. The frontier's fallback is read only when the first read finds nothing. */
  ghost function FrontierHook(jobs: JobMap, partition: string, faults: ReadFaults): Hook<Option<int>> {
    if faults.clock then Fails
    else if Clock(jobs, partition).Some? then Returns(Clock(jobs, partition))
    else if faults.pending then Fails
    else Returns(LowestPending(jobs, partition))
  }

  ghost function EdgeHook(jobs: JobMap, key: Timeline, faults: ReadFaults): Hook<int> {
    if faults.edge then Fails else Returns(TrailingEdge(jobs, key.tenant, key.partition))
  }

  /** The first stamp of a pool in the query's sort order. */
  ghost function FirstStamp(jobs: JobMap, pool: set<JobId>, descending: bool): Option<int>
    requires pool <= jobs.Keys
  {
    if descending then HighestStamp(jobs, pool) else LowestStamp(jobs, pool)
  }

  predicate Leads(jobs: JobMap, pool: set<JobId>, id: JobId, descending: bool)
    requires id in pool && pool <= jobs.Keys
  {
    forall k <- pool :: if descending then jobs[k].vstamp <= jobs[id].vstamp else jobs[id].vstamp <= jobs[k].vstamp
  }

  lemma LeaderExists(jobs: JobMap, pool: set<JobId>, descending: bool)
    requires pool <= jobs.Keys && pool != {}
    ensures exists id :: id in pool && Leads(jobs, pool, id, descending)
  {
    var first := FirstStamp(jobs, pool, descending);
    var id :| id in pool && jobs[id].vstamp == first.value;
    assert Leads(jobs, pool, id, descending);
  }

  lemma LeaderHolds(jobs: JobMap, pool: set<JobId>, id: JobId, descending: bool)
    requires pool <= jobs.Keys && id in pool && Leads(jobs, pool, id, descending)
    ensures FirstStamp(jobs, pool, descending) == Some(jobs[id].vstamp)
  {
  }

  // ----- what an enqueue makes of the collection and the cache -----

  ghost predicate Admits(jobs: JobMap, c: Cached, n: NormalizedEnqueue) {
    StampsFit(jobs) && Sound(c) && n.cost >= 1 && n.weight >= 1 && n.key !in c.locked
  }

  /** The reserve an enqueue makes, its hooks reading the store as it stands. */
  ghost function Reserving(jobs: JobMap, n: NormalizedEnqueue, race: seq<bool>, faults: ReadFaults): (op: Op)
    requires n.cost >= 1 && n.weight >= 1 && StampsFit(jobs)
    ensures op.Reserve? && Proper(op)
  {
    Op.Reserve(n.key, n.cost, n.weight, race, FrontierHook(jobs, n.key.partition, faults),
               EdgeHook(jobs, n.key, faults))
  }

  datatype Effect = Effect(jobs: JobMap, c: Cached, result: Result<(), Error>)

  /** After the reserve: insert, then commit on success and abort otherwise. */
  ghost function Inserted(jobs: JobMap, c: Cached, n: NormalizedEnqueue, vstamp: int64, visibleAt: int,
                          fault: Fault): Effect
    requires Sound(c) && n.key in c.locked
  {
    var job := NewJob(n.key.tenant, n.key.partition, n.cost, vstamp, visibleAt);
    var jobs' := if n.id in jobs || fault.Dropped? then jobs else jobs[n.id := job];
    if fault.NoFault? && n.id !in jobs then Effect(jobs', Step(c, Op.Commit(n.key, vstamp)), Ok(()))
    else Effect(jobs', Step(c, Op.Abort(n.key)), Err(if fault.NoFault? then ErrDuplicateJob else ErrDriver))
  }

  ghost function Enqueued(jobs: JobMap, c: Cached, n: NormalizedEnqueue, visibleAt: int, race: seq<bool>,
                          faults: ReadFaults, fault: Fault): Effect
    requires Admits(jobs, c, n)
  {
    var op := Reserving(jobs, n, race, faults);
    StepKeepsSound(c, op);
    match Issued(c, op)
    case Err(e) => Effect(jobs, Step(c, op), Err(e))
    case Ok(vstamp) => Inserted(jobs, Step(c, op), n, vstamp, visibleAt, fault)
  }

  // ----- the order an enqueue keeps -----

  ghost predicate OnTimeline(j: Job, key: Timeline) {
    j.tenant == key.tenant && j.partition == key.partition
  }

  /** Every clock that a stamp may still be drawn from stands at or above its timeline's pending jobs. */
  ghost predicate InStep(jobs: JobMap, cells: Cells) {
    forall k <- cells, id <- jobs :: cells[k].seeded && OnTimeline(jobs[id], k) && jobs[id].liveness == Pending ==>
                                       jobs[id].vstamp <= cells[k].vtime
  }

  /** Above everything pending on its timeline. */
  ghost predicate Exceeds(jobs: JobMap, key: Timeline, vstamp: int) {
    forall id <- jobs :: OnTimeline(jobs[id], key) && jobs[id].liveness == Pending ==> jobs[id].vstamp < vstamp
  }

  /**
   The reserve of an enqueue answers a stamp above every pending job of its timeline, and leaves the clocks in
   step.
   */
  lemma ReserveStampsAbove(jobs: JobMap, c: Cached, n: NormalizedEnqueue, race: seq<bool>, faults: ReadFaults)
    requires Admits(jobs, c, n) && InStep(jobs, c.m.cells)
    ensures var op := Reserving(jobs, n, race, faults);
            && InStep(jobs, Step(c, op).m.cells)
            && (Issued(c, op).Ok? ==>
                  && n.key in Step(c, op).m.cells && Step(c, op).m.cells[n.key].seeded
                  && Issued(c, op).value == Step(c, op).m.cells[n.key].vtime + IdealStride(n.cost, n.weight)
                  && Exceeds(jobs, n.key, Issued(c, op).value))
  {
    var op := Reserving(jobs, n, race, faults);
    RelockedCell(c.m, c.locked, n.key, race, n.key);
    forall k | k in Step(c, op).m.cells && k != n.key
      ensures k in c.m.cells && Step(c, op).m.cells[k].vtime == c.m.cells[k].vtime
              && Step(c, op).m.cells[k].seeded == c.m.cells[k].seeded
    {
      RelockedCell(c.m, c.locked, n.key, race, k);
    }
    var cell := Step(c, op).m.cells[n.key];
    if cell.seeded {
      forall id | id in jobs && OnTimeline(jobs[id], n.key) && jobs[id].liveness == Pending
        ensures jobs[id].vstamp <= cell.vtime
      {
        assert id in TimelineSet(jobs, n.key.tenant, n.key.partition);
      }
    }
  }

  /** One record is added, with the enqueue's own envelope, pending and never claimed; every other stands as it was. */
  ghost predicate AddsRecord(jobs: JobMap, jobs': JobMap, n: NormalizedEnqueue, visibleAt: int) {
    && n.id in jobs'
    && var j := jobs'[n.id];
    && jobs' == jobs[n.id := j]
    && j.tenant == n.key.tenant && j.partition == n.key.partition && j.cost == n.cost && j.visibleAt == visibleAt
    && j.liveness == Pending && j.resolution == "" && j.resolvedAt == None && j.claimId == "" && j.attempts == 0
  }

  /** What the reserve of an enqueue is asked for, and what its hooks answer. */
  lemma HooksRead(jobs: JobMap, n: NormalizedEnqueue, race: seq<bool>, faults: ReadFaults)
    requires n.cost >= 1 && n.weight >= 1 && StampsFit(jobs)
    ensures var op := Reserving(jobs, n, race, faults);
            && op.key == n.key && op.cost == n.cost && op.weight == n.weight && op.race == race
            && op.edge == (if faults.edge then Fails else Returns(TrailingEdge(jobs, n.key.tenant, n.key.partition)))
            && op.frontier == if faults.clock then Fails
                              else if exists id <- jobs ::
                                        jobs[id].partition == n.key.partition && jobs[id].claimId != ""
                              then Returns(Clock(jobs, n.key.partition))
                              else if faults.pending then Fails
                                else Returns(LowestPending(jobs, n.key.partition))
  {
    ClockIsHighestFenced(jobs, n.key.partition);
  }

  /**
   Every path of an enqueue. A reserve that fails leaves the store alone and hands its error on. Otherwise the record
   is added at the stamp issued exactly when its id is new and the call reached the server, the caller is told what
   the server said or that the reply was lost, and the clock moves to the stamp exactly when the caller is told Ok.
   */
  lemma EnqueueStores(jobs: JobMap, c: Cached, n: NormalizedEnqueue, visibleAt: int, race: seq<bool>,
                      faults: ReadFaults, fault: Fault)
    requires Admits(jobs, c, n)
    ensures var e := Enqueued(jobs, c, n, visibleAt, race, faults, fault);
            var op := Reserving(jobs, n, race, faults);
            var reserved := Step(c, op);
            && e.c.locked == c.locked && e.c.m.lwm == reserved.m.lwm
            && match Issued(c, op)
               case Err(error) => e.jobs == jobs && e.result == Err(error) && e.c.m.cells == reserved.m.cells
               case Ok(vstamp) =>
                 && (if n.id !in jobs && !fault.Dropped?
                     then AddsRecord(jobs, e.jobs, n, visibleAt) && e.jobs[n.id].vstamp == vstamp
                     else e.jobs == jobs)
                 && e.result == (if !fault.NoFault? then Err(ErrDriver)
                                 else if n.id in jobs then Err(ErrDuplicateJob) else Ok(()))
                 && n.key in reserved.m.cells
                 && e.c.m.cells == if e.result.Ok?
                                   then reserved.m.cells[n.key := reserved.m.cells[n.key].(vtime := vstamp)]
                                   else reserved.m.cells
  {
    var op := Reserving(jobs, n, race, faults);
    StepKeepsSound(c, op);
    if Issued(c, op).Ok? {
      assert Step(c, op).locked - {n.key} == c.locked;
      InsertStores(jobs, Step(c, op), n, Issued(c, op).value, visibleAt, fault);
    }
  }

  lemma InsertStores(jobs: JobMap, c: Cached, n: NormalizedEnqueue, vstamp: int64, visibleAt: int, fault: Fault)
    requires Sound(c) && n.key in c.locked
    ensures var e := Inserted(jobs, c, n, vstamp, visibleAt, fault);
            && e.c.locked == c.locked - {n.key} && e.c.m.lwm == c.m.lwm
            && (if n.id !in jobs && !fault.Dropped?
                then AddsRecord(jobs, e.jobs, n, visibleAt) && e.jobs[n.id].vstamp == vstamp
                else e.jobs == jobs)
            && e.result == (if !fault.NoFault? then Err(ErrDriver)
                            else if n.id in jobs then Err(ErrDuplicateJob) else Ok(()))
            && e.c.m.cells == if e.result.Ok? then c.m.cells[n.key := c.m.cells[n.key].(vtime := vstamp)] else c.m.cells
  {
  }

  /** The clocks stay in step except through an insert that is stored although it reports an error. */
  lemma InsertKeepsOrder(jobs: JobMap, c: Cached, n: NormalizedEnqueue, vstamp: int64, visibleAt: int, fault: Fault)
    requires Sound(c) && n.key in c.locked && InStep(jobs, c.m.cells)
    requires Exceeds(jobs, n.key, vstamp) && c.m.cells[n.key].seeded && c.m.cells[n.key].vtime < vstamp
    ensures var e := Inserted(jobs, c, n, vstamp, visibleAt, fault);
            && e.c.locked == c.locked - {n.key}
            && (e.result.Ok? ==>
                  && n.id !in jobs && e.jobs.Keys == jobs.Keys + {n.id}
                  && n.key in e.c.m.cells && e.jobs[n.id].vstamp == e.c.m.cells[n.key].vtime == vstamp)
            && (e.result.Err? && !fault.ReplyLost? ==> e.jobs == jobs)
            && (InStep(e.jobs, e.c.m.cells) <==> e.result.Ok? || e.jobs == jobs)
  {
  }

  /**
   A successful enqueue stores its job strictly above everything its timeline has
   pending and leaves the clock at exactly that stamp; every other outcome leaves the
   clocks as the reserve left them, and the store untouched unless a reply was lost.
   */
  lemma EnqueueKeepsOrder(jobs: JobMap, c: Cached, n: NormalizedEnqueue, visibleAt: int, race: seq<bool>,
                          faults: ReadFaults, fault: Fault)
    requires Admits(jobs, c, n) && InStep(jobs, c.m.cells)
    ensures var e := Enqueued(jobs, c, n, visibleAt, race, faults, fault);
            && e.c.locked == c.locked
            && (e.result.Ok? ==>
                  && n.id !in jobs && e.jobs.Keys == jobs.Keys + {n.id}
                  && n.key in e.c.m.cells && e.jobs[n.id].vstamp == e.c.m.cells[n.key].vtime
                  && Exceeds(jobs, n.key, e.jobs[n.id].vstamp))
            && (e.jobs != jobs ==> n.id !in jobs && AddsRecord(jobs, e.jobs, n, visibleAt))
            && (e.result.Err? && !fault.ReplyLost? ==> e.jobs == jobs)
            && (InStep(e.jobs, e.c.m.cells) <==> e.result.Ok? || e.jobs == jobs)
  {
    ReserveStampsAbove(jobs, c, n, race, faults);
    EnqueueStores(jobs, c, n, visibleAt, race, faults, fault);
    var op := Reserving(jobs, n, race, faults);
    StepKeepsSound(c, op);
    if Issued(c, op).Ok? {
      assert n.key in Step(c, op).locked && Step(c, op).locked - {n.key} == c.locked;
      InsertKeepsOrder(jobs, Step(c, op), n, Issued(c, op).value, visibleAt, fault);
    }
  }

  /**
   Out of step or not, because another Queue wrote the timeline or an insert was stored
   behind an error: once a walk has passed, the timeline's next enqueue stamps above
   everything pending.
   */
  lemma ReconcileHeals(jobs: JobMap, c: Cached, n: NormalizedEnqueue, race: seq<bool>, faults: ReadFaults)
    requires Admits(jobs, c, n) && Idle(c, n.key)
    ensures var issued := Issued(c, Reserving(jobs, n, race, faults)); issued.Ok? ==> Exceeds(jobs, n.key, issued.value)
  {
    var op := Reserving(jobs, n, race, faults);
    RelockedCell(c.m, c.locked, n.key, race, n.key);
    if Issued(c, op).Ok? {
      forall id | id in jobs && OnTimeline(jobs[id], n.key) && jobs[id].liveness == Pending
        ensures jobs[id].vstamp < Issued(c, op).value
      {
        assert id in TimelineSet(jobs, n.key.tenant, n.key.partition);
      }
    }
  }

  /** No store event and no walk puts a clock out of step. */
  lemma OthersKeepOrder(jobs: JobMap, c: Cached, ev: StoreEvent, done: set<string>)
    requires Sound(c) && StampsFit(jobs) && InStep(jobs, c.m.cells)
    ensures InStep(StoreStep(jobs, ev), c.m.cells) && StampsFit(StoreStep(jobs, ev))
    ensures InStep(jobs, Reconciled(c, jobs, done).m.cells)
  {
    StoreStepFrame(jobs, ev);
  }

  // ----- what a reconcile makes of the cache -----

  datatype Failure = Canceled | RefreshFailed(partition: string)

  /** A reconcile refused at entry, or the failures it joined. */
  datatype Outcome = Refused | Ran(failures: seq<Failure>)

  /** The low-water marks after the frontiers of some partitions were computed and stored. */
  ghost function RefreshedAll(lwm: map<string, int64>, jobs: JobMap, done: set<string>): map<string, int64>
    requires StampsFit(jobs)
  {
    map p <- lwm.Keys + done | p in lwm || Frontier.Frontier(jobs, jobs, p).Some? ::
      if p in done && Frontier.Frontier(jobs, jobs, p).Some? then Frontier.Frontier(jobs, jobs, p).value else lwm[p]
  }

  lemma RefreshOne(lwm: map<string, int64>, jobs: JobMap, done: set<string>, partition: string, faults: ReadFaults)
    requires StampsFit(jobs) && FrontierHook(jobs, partition, faults).Returns?
    ensures Refreshed(RefreshedAll(lwm, jobs, done), partition, FrontierHook(jobs, partition, faults)) ==
            RefreshedAll(lwm, jobs, done + {partition})
  {
  }

  /** What the joined failures say of the partitions a reconcile meant to refresh and of those it did. */
  ghost predicate Accounts(failures: seq<Failure>, all: set<string>, done: set<string>) {
    && done <= all
    && (failures == [] ==> done == all)
    && (forall f <- failures :: f.RefreshFailed? ==> f.partition in all && f.partition !in done)
  }

  /**
   The context is looked at at entry, before each refresh and after each that failed. The refreshes stop with the look
   that finds it ended, and not before: of n partitions all were tried, or `ends` is the number of looks until then.
   */
  predicate Punctual(canceled: bool, tried: nat, failed: nat, n: nat, ends: nat) {
    && tried <= n
    && (if canceled then tried < n && ends == 1 + tried + failed
        else if tried < n then ends == tried + failed
        else tried + failed <= ends)
  }

  /** The refreshes that the joined failures speak of. */
  ghost function FailedRefreshes(failures: seq<Failure>): nat {
    if Canceled in failures then |failures| - 1 else |failures|
  }

  /** No partition was passed over in silence. */
  ghost predicate NoneMissed(failures: seq<Failure>, all: set<string>, done: set<string>) {
    forall p <- all :: p in done || RefreshFailed(p) in failures
  }

  ghost function Elements(s: seq<string>): set<string> {
    set p <- s
  }

  lemma {:induction false} DistinctCount(s: seq<string>)
    requires Distinct(s)
    ensures |Elements(s)| == |s|
  {
    if s != [] {
      DistinctCount(s[..|s| - 1]);
      assert Elements(s) == Elements(s[..|s| - 1]) + {s[|s| - 1]};
    }
  }

  /** The partitions whose frontier cannot be computed. */
  ghost function Failing(jobs: JobMap, partitions: seq<string>, faults: string -> ReadFaults): set<string>
    requires StampsFit(jobs)
  {
    set p <- partitions | FrontierHook(jobs, p, faults(p)).Fails?
  }

  /** What was refreshed answered, and what failed did not. */
  ghost predicate Answered(jobs: JobMap, failures: seq<Failure>, done: set<string>, faults: string -> ReadFaults)
    requires StampsFit(jobs)
  {
    && (forall p <- done :: FrontierHook(jobs, p, faults(p)).Returns?)
    && (forall f <- failures :: f.RefreshFailed? ==> FrontierHook(jobs, f.partition, faults(f.partition)).Fails?)
  }

  predicate Distinct(s: seq<string>) {
    forall i, j :: 0 <= i < j < |s| ==> s[i] != s[j]
  }

  /** The first i partitions, each in its turn: the failures reported, and the partitions refreshed. */
  function FailuresOf(partitions: seq<string>, i: nat, failing: set<string>): seq<Failure>
    requires i <= |partitions|
  {
    if i == 0 then []
    else FailuresOf(partitions, i - 1, failing)
         + (if partitions[i - 1] in failing then [RefreshFailed(partitions[i - 1])] else [])
  }

  function DoneOf(partitions: seq<string>, i: nat, failing: set<string>): set<string>
    requires i <= |partitions|
  {
    if i == 0 then {}
    else DoneOf(partitions, i - 1, failing) + (if partitions[i - 1] in failing then {} else {partitions[i - 1]})
  }

  lemma {:induction false} DoneAreAnswered(partitions: seq<string>, i: nat, failing: set<string>)
    requires i <= |partitions|
    ensures DoneOf(partitions, i, failing) == (set p <- partitions[..i] | p !in failing)
  {
    if i > 0 {
      DoneAreAnswered(partitions, i - 1, failing);
      assert partitions[..i] == partitions[..i - 1] + [partitions[i - 1]];
    }
  }

  lemma {:induction false} FailedAreReported(partitions: seq<string>, i: nat, failing: set<string>, f: Failure)
    requires i <= |partitions|
    ensures f in FailuresOf(partitions, i, failing) <==>
            f.RefreshFailed? && f.partition in failing && f.partition in partitions[..i]
  {
    if i > 0 {
      FailedAreReported(partitions, i - 1, failing, f);
      assert partitions[..i] == partitions[..i - 1] + [partitions[i - 1]];
    }
  }

  lemma DoneGrows(done: set<string>, p: string)
    requires p !in done
    ensures |done + {p}| == |done| + 1
  {
  }

  /** Every one of them is on exactly one of the two sides. */
  lemma {:induction false} TallyAddsUp(partitions: seq<string>, i: nat, failing: set<string>)
    requires Distinct(partitions) && i <= |partitions|
    ensures |DoneOf(partitions, i, failing)| + |FailuresOf(partitions, i, failing)| == i
  {
    if i > 0 {
      TallyAddsUp(partitions, i - 1, failing);
      var p, done := partitions[i - 1], DoneOf(partitions, i - 1, failing);
      if p in failing {
        assert DoneOf(partitions, i, failing) == done;
      } else {
        assert p !in done by { DoneAreAnswered(partitions, i - 1, failing); }
        DoneGrows(done, p);
      }
    }
  }

  /** What holds of the refreshes of a reconcile when they have stopped. */
  ghost predicate Concluded(jobs: JobMap, failures: seq<Failure>, done: set<string>, partitions: seq<string>,
                            faults: string -> ReadFaults, ends: nat)
    requires StampsFit(jobs)
  {
    && Accounts(failures, Elements(partitions), done)
    && (2 * |partitions| < ends ==> NoneMissed(failures, Elements(partitions), done))
    && Answered(jobs, failures, done, faults)
    && Punctual(Canceled in failures, |done| + FailedRefreshes(failures), FailedRefreshes(failures), |partitions|, ends)
  }

  /**
   The refreshes stop with the look at the context that finds it ended, and not before. One look is made at entry, one
   before each refresh and one after each that failed; `ends` is the number of looks made until it has ended.
   */
  predicate Stopped(failures: seq<Failure>, partitions: seq<string>, tried: nat, failing: set<string>, ends: nat)
    requires tried <= |partitions|
  {
    var told := FailuresOf(partitions, tried, failing);
    || (tried == |partitions| && failures == told && (tried + |told| <= ends || tried == 0))
    || (tried < |partitions| && failures == told && told != [] && ends == tried + |told|)
    || (tried < |partitions| && failures == told + [Canceled] && ends == 1 + tried + |told|)
  }

  lemma StoppedConcludes(jobs: JobMap, failures: seq<Failure>, partitions: seq<string>, tried: nat,
                         faults: string -> ReadFaults, ends: nat)
    requires StampsFit(jobs) && Distinct(partitions) && tried <= |partitions|
    requires Stopped(failures, partitions, tried, Failing(jobs, partitions, faults), ends)
    ensures Concluded(jobs, failures, DoneOf(partitions, tried, Failing(jobs, partitions, faults)), partitions, faults,
                      ends)
  {
    var failing := Failing(jobs, partitions, faults);
    DoneAreAnswered(partitions, tried, failing);
    TallyAddsUp(partitions, tried, failing);
    FailuresTold(failures, partitions, tried, failing, ends);
    assert partitions[..|partitions|] == partitions;
    assert forall p <- partitions[..tried] :: p in Elements(partitions);
  }

  lemma FailuresTold(failures: seq<Failure>, partitions: seq<string>, tried: nat, failing: set<string>, ends: nat)
    requires tried <= |partitions| && Stopped(failures, partitions, tried, failing, ends)
    ensures forall p :: RefreshFailed(p) in failures <==> p in failing && p in partitions[..tried]
    ensures FailedRefreshes(failures) == |FailuresOf(partitions, tried, failing)|
    ensures Canceled in failures <==> failures == FailuresOf(partitions, tried, failing) + [Canceled]
  {
    var told := FailuresOf(partitions, tried, failing);
    forall f ensures f in told <==> f.RefreshFailed? && f.partition in failing && f.partition in partitions[..tried] {
      FailedAreReported(partitions, tried, failing, f);
    }
    assert forall f :: f in told + [Canceled] <==> f in told || f == Canceled;
  }

  /** The timelines lie in n partitions. */
  ghost predicate Spans(keys: set<Timeline>, n: nat) {
    n == |set k <- keys :: k.partition|
  }

  /** The same, told of the cached timelines. */
  ghost predicate Settled(jobs: JobMap, failures: seq<Failure>, done: set<string>, keys: set<Timeline>,
                          faults: string -> ReadFaults, ends: nat)
    requires StampsFit(jobs)
  {
    && Answered(jobs, failures, done, faults)
    && (forall p <- done :: HasPartition(keys, p))
    && (failures == [] ==> forall p :: HasPartition(keys, p) ==> p in done)
    && (2 * |keys| < ends ==> forall p :: HasPartition(keys, p) && p !in done ==> RefreshFailed(p) in failures)
    && var failed := FailedRefreshes(failures);
    forall n: nat {:trigger Spans(keys, n)} :: Spans(keys, n) ==>
                                                 Punctual(Canceled in failures, |done| + failed, failed, n, ends)
  }

  lemma ConcludedSettles(jobs: JobMap, failures: seq<Failure>, done: set<string>, partitions: seq<string>,
                         keys: set<Timeline>, faults: string -> ReadFaults, ends: nat)
    requires StampsFit(jobs) && Concluded(jobs, failures, done, partitions, faults, ends)
    requires Distinct(partitions) && (forall p :: p in partitions <==> HasPartition(keys, p)) && |partitions| <= |keys|
    ensures Settled(jobs, failures, done, keys, faults, ends)
  {
    PartitionsCounted(partitions, keys);
  }

  lemma PartitionsCounted(partitions: seq<string>, keys: set<Timeline>)
    requires Distinct(partitions) && forall p :: p in partitions <==> HasPartition(keys, p)
    ensures |set k <- keys :: k.partition| == |partitions|
    ensures forall p :: p in Elements(partitions) <==> HasPartition(keys, p)
  {
    DistinctCount(partitions);
    assert Elements(partitions) == set k <- keys :: k.partition;
  }

  /** The cache after a reconcile that refreshed the partitions of `done`. */
  ghost function Reconciled(c: Cached, jobs: JobMap, done: set<string>): Cached
    requires Sound(c) && StampsFit(jobs)
  {
    Step(RefreshedOver(c, jobs, done), Op.InvalidateAndEvict)
  }

  ghost function RefreshedOver(c: Cached, jobs: JobMap, done: set<string>): (r: Cached)
    requires Sound(c) && StampsFit(jobs)
    ensures Sound(r)
  {
    Cached(c.m.(lwm := RefreshedAll(c.m.lwm, jobs, done)), c.locked)
  }

  /**
   Whatever failed and whenever the context ended: an entry used since the last walk,
   or locked, ends up stale with touched cleared and its clock as it was, any other is
   gone; every surviving partition holds its new frontier if it was refreshed and has
   one, and its old low-water mark otherwise; no other partition holds any.
   */
  lemma ReconcileSettles(c: Cached, jobs: JobMap, done: set<string>)
    requires Sound(c) && StampsFit(jobs)
    ensures var after := Reconciled(c, jobs, done);
            && Sound(after) && after.locked == c.locked
            && (forall k <- c.m.cells ::
                  if c.m.cells[k].touched || k in c.locked
                  then k in after.m.cells && after.m.cells[k] == c.m.cells[k].(touched := false, stale := true)
                  else k !in after.m.cells)
            && (forall p <- after.m.lwm :: exists k <- after.m.cells :: k.partition == p)
            && (forall k <- after.m.cells ::
                  var p := k.partition;
                  if p in done && Frontier.Frontier(jobs, jobs, p).Some?
                  then p in after.m.lwm && after.m.lwm[p] == Frontier.Frontier(jobs, jobs, p).value
                  else (p in after.m.lwm <==> p in c.m.lwm) && Floor(after.m.lwm, p) == Floor(c.m.lwm, p))
  {
    StepKeepsSound(RefreshedOver(c, jobs, done), Op.InvalidateAndEvict);
  }

  class Queue {
    const coll: Collection
    const vtimes: VtimeCache

    ghost predicate Valid()
      reads coll, vtimes, vtimes.tenants.Values
    {
      vtimes.Valid() && StampsFit(coll.jobs)
    }

    ghost function State(): (c: Cached)
      reads vtimes, vtimes.tenants.Values
      ensures Sound(c)
    {
      Cached(vtimes.State(), vtimes.Locked())
    }

    constructor (coll: Collection)
      requires StampsFit(coll.jobs)
      ensures Valid() && this.coll == coll && fresh(vtimes)
      ensures State() == Cached(Maps(map[], map[]), {})
    {
      this.coll := coll;
      vtimes := new VtimeCache();
    }

    /** The first matching record's stamp in the query's sort order. */
    method FirstVStamp(pool: set<JobId>, descending: bool, fails: bool) returns (r: Hook<Option<int64>>)
      requires StampsFit(coll.jobs) && pool <= coll.jobs.Keys
      ensures r == if fails then Fails else Returns(FirstStamp(coll.jobs, pool, descending))
    {
      if fails { return Fails; }
      if pool == {} { return Returns(None); }
      LeaderExists(coll.jobs, pool, descending);
      var id :| id in pool && Leads(coll.jobs, pool, id, descending);
      LeaderHolds(coll.jobs, pool, id, descending);
      return Returns(Some(coll.jobs[id].vstamp));
    }

    method SeedTenantVtime(key: Timeline, faults: ReadFaults) returns (r: Hook<int64>)
      requires StampsFit(coll.jobs)
      ensures r == EdgeHook(coll.jobs, key, faults)
    {
      var first := FirstVStamp(TimelineSet(coll.jobs, key.tenant, key.partition), true, faults.edge);
      if first.Fails? { return Fails; }
      return Returns(if first.value.Some? then first.value.value else 0);
    }

    method ComputeLWM(partition: string, faults: ReadFaults) returns (r: Hook<Option<int64>>)
      requires StampsFit(coll.jobs)
      ensures r == FrontierHook(coll.jobs, partition, faults)
    {
      r := FirstVStamp(FencedSet(coll.jobs, partition), true, faults.clock);
      if r == Returns(None) {
        r := FirstVStamp(PendingSet(coll.jobs, partition), false, faults.pending);
      }
    }

    /**
     Normalize, reserve, insert, then commit or abort. On every path the timeline's
     lock is free again, and both the store and the cache are what `Enqueued` says. `now`
     is the client's clock in nanoseconds; a stored time keeps whole milliseconds.
     */
    method Enqueue(opts: EnqueueOpts, now: int, race: seq<bool>, faults: ReadFaults, fault: Fault)
      returns (r: Result<(), Error>)
      requires Valid() && (Normalize(opts).Ok? ==> Normalize(opts).value.key !in vtimes.Locked())
      modifies coll, vtimes, vtimes.tenants.Values
      ensures Valid()
      ensures match Normalize(opts)
              case Err(e) => r == Err(e) && coll.jobs == old(coll.jobs) && State() == old(State())
              case Ok(n) =>
                Effect(coll.jobs, State(), r) ==
                Enqueued(old(coll.jobs), old(State()), n, (now + opts.delay) / NANOS_PER_MS, race, faults, fault)
    {
      var normalized := Normalize(opts);
      if normalized.Err? { return Err(normalized.error); }
      r := EnqueueNormalized(normalized.value, (now + opts.delay) / NANOS_PER_MS, race, faults, fault);
    }

    method EnqueueNormalized(n: NormalizedEnqueue, visibleAt: int, race: seq<bool>, faults: ReadFaults, fault: Fault)
      returns (r: Result<(), Error>)
      requires Valid() && Admits(coll.jobs, State(), n)
      modifies coll, vtimes, vtimes.tenants.Values
      ensures Valid()
      ensures Effect(coll.jobs, State(), r) == Enqueued(old(coll.jobs), old(State()), n, visibleAt, race, faults, fault)
    {
      var reserved := Reserve(n, race, faults, Reserving(coll.jobs, n, race, faults));
      if reserved.Err? { return Err(reserved.error); }
      r := Insert(n, reserved.value, visibleAt, fault);
    }

    /** The reserve, its hooks reading the collection; on success the lock is held and is the timeline's own. */
    method Reserve(n: NormalizedEnqueue, race: seq<bool>, faults: ReadFaults, ghost op: Op)
      returns (r: Result<Reservation, Error>)
      requires Valid() && Admits(coll.jobs, State(), n) && op == Reserving(coll.jobs, n, race, faults)
      modifies vtimes, vtimes.tenants.Values
      ensures Valid() && State() == Step(old(State()), op)
      ensures n.key in vtimes.tenants
              && (fresh(vtimes.tenants[n.key]) || vtimes.tenants[n.key] in old(vtimes.tenants.Values))
      ensures Issues(r, vtimes.tenants[n.key], Issued(old(State()), op))
      ensures r.Ok? ==> r.value.tenant.locked
    {
      var frontier := ComputeLWM(n.key.partition, faults);
      var edge := SeedTenantVtime(n.key, faults);
      r := ReserveWith(n, race, frontier, edge);
    }

    /** The cache's reserve, as the step of CacheLaws. */
    method ReserveWith(n: NormalizedEnqueue, race: seq<bool>, frontier: Hook<Option<int64>>, edge: Hook<int64>)
      returns (r: Result<Reservation, Error>)
      requires vtimes.Valid() && n.key !in vtimes.Locked() && n.cost >= 1 && n.weight >= 1
      modifies vtimes, vtimes.tenants.Values
      ensures vtimes.Valid() && State() == Step(old(State()), Op.Reserve(n.key, n.cost, n.weight, race, frontier, edge))
      ensures n.key in vtimes.tenants
              && (fresh(vtimes.tenants[n.key]) || vtimes.tenants[n.key] in old(vtimes.tenants.Values))
      ensures Issues(r, vtimes.tenants[n.key],
                     Issued(old(State()), Op.Reserve(n.key, n.cost, n.weight, race, frontier, edge)))
      ensures r.Ok? ==> r.value.tenant.locked
    {
      r := vtimes.Reserve(n.key, n.cost, n.weight, race, frontier, edge);
      assert vtimes.State().cells[n.key] == vtimes.tenants[n.key].View();
      assert r.Ok? ==> n.key in vtimes.Locked();
    }

    /** The insert under the reservation, and the commit or the deferred abort. */
    method Insert(n: NormalizedEnqueue, res: Reservation, visibleAt: int, fault: Fault) returns (r: Result<(), Error>)
      requires Valid() && n.key in vtimes.tenants && vtimes.tenants[n.key] == res.tenant && res.tenant.locked
      modifies coll, res.tenant`vtime, res.tenant`locked
      ensures Valid()
      ensures Effect(coll.jobs, State(), r) == Inserted(old(coll.jobs), old(State()), n, res.vstamp, visibleAt, fault)
    {
      var job := NewJob(n.key.tenant, n.key.partition, n.cost, res.vstamp, visibleAt);
      r := coll.InsertOne(n.id, job, fault);
      assert State() == old(State()) && n.key in vtimes.Locked();
      Finish(n.key, res, r.Ok?);
    }

    method Finish(ghost key: Timeline, res: Reservation, committed: bool)
      requires Valid() && key in vtimes.tenants && vtimes.tenants[key] == res.tenant && res.tenant.locked
      modifies res.tenant`vtime, res.tenant`locked
      ensures Valid()
      ensures State() == Step(old(State()), if committed then Op.Commit(key, res.vstamp) else Op.Abort(key))
    {
      assert key in vtimes.Locked();
      if committed { vtimes.Commit(res, key); } else { vtimes.Abort(res, key); }
    }

    /**
     One frontier per partition, until the context is seen to have ended; it is looked at `ends` times before it
     has.
     */
    method RefreshPartitions(partitions: seq<string>, faults: string -> ReadFaults, ends: nat)
      returns (failures: seq<Failure>, ghost done: set<string>, ghost tried: nat)
      requires StampsFit(coll.jobs) && ends >= 1
      modifies vtimes`lwm
      ensures vtimes.lwm == RefreshedAll(old(vtimes.lwm), coll.jobs, done)
      ensures var failing := Failing(coll.jobs, partitions, faults);
              tried <= |partitions| && done == DoneOf(partitions, tried, failing)
              && Stopped(failures, partitions, tried, failing, ends)
    {
      failures, done, tried := [], {}, 0;
      ghost var failing := Failing(coll.jobs, partitions, faults);
      var looks := 1;
      var i := 0;
      while i < |partitions|
        invariant 0 <= i == tried <= |partitions| && looks == 1 + i + |failures| && (looks <= ends || i == 0)
        invariant vtimes.lwm == RefreshedAll(old(vtimes.lwm), coll.jobs, done)
        invariant failures == FailuresOf(partitions, i, failing) && done == DoneOf(partitions, i, failing)
      {
        var p := partitions[i];
        if ends <= looks {
          failures := failures + [Canceled];
          return;
        }
        looks := looks + 1;
        var failed := RefreshPartition(p, faults(p), old(vtimes.lwm), done);
        i, tried := i + 1, tried + 1;
        if failed {
          failures := failures + [RefreshFailed(p)];
          if ends <= looks { break; }
          looks := looks + 1;
        } else {
          done := done + {p};
        }
      }
    }

    method RefreshPartition(partition: string, faults: ReadFaults, ghost was: map<string, int64>,
                            ghost done: set<string>)
      returns (failed: bool)
      requires StampsFit(coll.jobs) && vtimes.lwm == RefreshedAll(was, coll.jobs, done)
      modifies vtimes`lwm
      ensures failed <==> FrontierHook(coll.jobs, partition, faults).Fails?
      ensures vtimes.lwm == RefreshedAll(was, coll.jobs, if failed then done else done + {partition})
    {
      var frontier := ComputeLWM(partition, faults);
      failed := vtimes.RefreshLWM(partition, frontier);
      if !failed { RefreshOne(was, coll.jobs, done, partition, faults); }
    }

    /** Every cached partition's turn. */
    method RefreshCached(faults: string -> ReadFaults, ends: nat)
      returns (failures: seq<Failure>, ghost done: set<string>)
      requires Valid() && ends >= 1
      modifies vtimes`lwm
      ensures vtimes.lwm == RefreshedAll(old(vtimes.lwm), coll.jobs, done)
      ensures Settled(coll.jobs, failures, done, vtimes.tenants.Keys, faults, ends)
    {
      ghost var keys := vtimes.tenants.Keys;
      var partitions := vtimes.Partitions();
      assert |vtimes.tenants| == |keys|;
      ghost var tried;
      failures, done, tried := RefreshPartitions(partitions, faults, ends);
      StoppedConcludes(coll.jobs, failures, partitions, tried, faults, ends);
      ConcludedSettles(coll.jobs, failures, done, partitions, keys, faults, ends);
    }

    method RefreshAll(faults: string -> ReadFaults, ends: nat) returns (failures: seq<Failure>, ghost done: set<string>)
      requires Valid() && ends >= 1
      modifies vtimes`lwm
      ensures Valid() && State() == RefreshedOver(old(State()), coll.jobs, done)
      ensures Settled(coll.jobs, failures, done, vtimes.tenants.Keys, faults, ends)
    {
      failures, done := RefreshCached(faults, ends);
    }

    /** Refresh, then walk: the walk runs whatever the refreshes met, unless the context had ended before the call. */
    method Reconcile(faults: string -> ReadFaults, ends: nat) returns (r: Outcome, ghost done: set<string>)
      requires Valid()
      modifies vtimes, vtimes.tenants.Values
      ensures Valid() && (r.Refused? <==> ends == 0)
      ensures r.Refused? ==> State() == old(State())
      ensures r.Ran? ==> State() == Reconciled(old(State()), coll.jobs, done)
      ensures r.Ran? ==> Settled(coll.jobs, r.failures, done, old(vtimes.tenants.Keys), faults, ends)
    {
      done := {};
      if ends == 0 { return Refused, done; }
      var failures;
      failures, done := RefreshAll(faults, ends);
      InvalidateAndEvict();
      r := Ran(failures);
    }

    /** The cache's walk, as the step of CacheLaws. */
    method InvalidateAndEvict()
      requires Valid()
      modifies vtimes, vtimes.tenants.Values
      ensures Valid() && State() == Step(old(State()), Op.InvalidateAndEvict)
    {
      vtimes.InvalidateAndEvict();
    }
  }
}
