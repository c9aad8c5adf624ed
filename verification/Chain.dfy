/**
 The cache refines a stateless stamper. While none of a timeline's jobs has been
 resolved and no seed found the low-water mark above its trailing edge, its
 stamps are one base plus the running sums of its strides, as if the cache, the
 walks, the evictions, the aborts and the duplicates were not there.
 */
module Chain {
  import opened Wrappers
  import opened VTime
  import opened Jobs
  import opened Frontier
  import opened Cell
  import opened Protocol
  import L = Locks
  import O = Order
  import K = Ledger

  // ----- the reference stamper -----

  /**
   The stateless stamper: the n-th job of a timeline, counting from 0, is stamped the base plus the first n + 1
   strides.
   */
  function StatelessStamp(base: int, strides: seq<int>, n: nat): int
    requires n < |strides|
  {
    base + SumTo(strides, n + 1)
  }

  /** The timeline's part of the insertion log, as stamps and as strides. */
  function StampsOf(log: seq<Insertion>, line: Timeline): (r: seq<int>)
    ensures r == [] <==> LastStamp(log, line).None?
    ensures r != [] ==> LastStamp(log, line) == Some(r[|r| - 1])
    decreases |log|
  {
    if log == [] then []
    else
      var last := log[|log| - 1];
      StampsOf(log[..|log| - 1], line) + (if last.line == line then [last.vstamp] else [])
  }

  function StridesOf(log: seq<Insertion>, line: Timeline): (r: seq<int>)
    ensures |r| == |StampsOf(log, line)|
    decreases |log|
  {
    if log == [] then []
    else
      var last := log[|log| - 1];
      StridesOf(log[..|log| - 1], line) + (if last.line == line then [last.stride] else [])
  }

  predicate Linked(stamps: seq<int>, strides: seq<int>)
    requires |stamps| == |strides|
  {
    forall n :: 1 <= n < |stamps| ==> stamps[n] == stamps[n - 1] + strides[n]
  }

  predicate Refines(log: seq<Insertion>, line: Timeline) {
    Linked(StampsOf(log, line), StridesOf(log, line))
  }

  /** Linked stamps are the stateless stamper's, from a base one stride below the first. */
  lemma {:induction false} LinkedIsStateless(stamps: seq<int>, strides: seq<int>, n: nat)
    requires |stamps| == |strides| && Linked(stamps, strides) && n < |stamps|
    ensures stamps[n] == StatelessStamp(stamps[0] - strides[0], strides, n)
  {
    if n == 0 {
      assert SumTo(strides, 1) == SumTo(strides, 0) + strides[0];
    } else {
      LinkedIsStateless(stamps, strides, n - 1);
    }
  }

  lemma StampsAppend(log: seq<Insertion>, i: Insertion, line: Timeline)
    ensures StampsOf(log + [i], line) == StampsOf(log, line) + (if i.line == line then [i.vstamp] else [])
    ensures StridesOf(log + [i], line) == StridesOf(log, line) + (if i.line == line then [i.stride] else [])
  {
    assert (log + [i])[..|log|] == log;
  }

  lemma LinkedAppend(stamps: seq<int>, strides: seq<int>, v: int, x: int)
    requires |stamps| == |strides| && Linked(stamps, strides)
    requires stamps != [] ==> v == stamps[|stamps| - 1] + x
    ensures Linked(stamps + [v], strides + [x])
  {
  }

  lemma AppendRefines(log: seq<Insertion>, i: Insertion, line: Timeline)
    requires Refines(log, line)
    requires i.line == line && LastStamp(log, line).Some? ==> i.vstamp == LastStamp(log, line).value + i.stride
    ensures Refines(log + [i], line)
  {
    StampsAppend(log, i, line);
    if i.line == line { LinkedAppend(StampsOf(log, line), StridesOf(log, line), i.vstamp, i.stride); }
  }

  // ----- the invariant -----

  /** One writer, no hidden insert, no resolved job, no lifting seed. */
  predicate Steady(s: State, line: Timeline) {
    O.Trusted(s, line) && line !in s.past.refunded && line !in s.past.lifted
  }

  /** The stamp x is that of a pending job of the timeline, and the highest such. */
  predicate TopPending(jobs: JobMap, line: Timeline, x: int) {
    && O.PendingAtMost(jobs, line, x)
    && exists id <- jobs :: O.OnTimeline(jobs[id], line) && jobs[id].liveness == Pending && jobs[id].vstamp == x
  }

  predicate LineOk(s: State, line: Timeline) {
    Steady(s, line) ==>
      && Refines(s.past.log, line)
      && (LastStamp(s.past.log, line).Some? ==> TopPending(s.jobs, line, LastStamp(s.past.log, line).value))
  }

  ghost predicate AccountOk(s: State, k: Key) {
    && k in s.past.ledger
    && (Steady(s, k.line) && LastStamp(s.past.log, k.line).Some? ==>
          LastStamp(s.past.log, k.line) == Some(s.past.ledger[k].clock))
  }

  predicate ThreadOk(s: State, t: Tid) {
    && t in s.threads
    && var line := s.threads[t].call.key.line;
    s.threads[t].pc.FloorReading? && Steady(s, line) && LastStamp(s.past.log, line).Some? ==>
      Some(s.threads[t].pc.edge) == LastStamp(s.past.log, line)
  }

  ghost predicate Inv(s: State) {
    && (forall line {:trigger LineOk(s, line)} :: LineOk(s, line))
    && (forall k {:trigger AccountOk(s, k)} :: k in s.past.ledger ==> AccountOk(s, k))
    && (forall t {:trigger ThreadOk(s, t)} :: t in s.threads ==> ThreadOk(s, t))
  }

  /** No insert; steadiness only shrinks; the pending jobs of steady timelines stand. */
  ghost predicate Calm(s: State, s': State) {
    && s'.past.log == s.past.log
    && (forall line :: Steady(s', line) ==> Steady(s, line))
    && (forall line, x :: Steady(s', line) && TopPending(s.jobs, line, x) ==> TopPending(s'.jobs, line, x))
  }

  lemma CalmSame(s: State, s': State)
    requires s'.jobs == s.jobs && s'.past.log == s.past.log
    requires s.past.writers <= s'.past.writers && s.past.hidden <= s'.past.hidden
    requires s.past.refunded <= s'.past.refunded && s.past.lifted <= s'.past.lifted
    ensures Calm(s, s')
  {
    O.QuietSame(s, s');
  }

  lemma Frame(s: State, s': State)
    requires Inv(s) && Calm(s, s')
    requires forall k <- s'.past.ledger ::
               (k in s.past.ledger && s'.past.ledger[k] == s.past.ledger[k]) || AccountOk(s', k)
    requires forall u <- s'.threads ::
               (u in s.threads && s'.threads[u] == s.threads[u]) || !s'.threads[u].pc.FloorReading? || ThreadOk(s', u)
    ensures Inv(s')
  {
    forall line ensures LineOk(s', line) { assert LineOk(s, line); }
    forall k | k in s'.past.ledger ensures AccountOk(s', k) { if k in s.past.ledger { assert AccountOk(s, k); } }
    forall u | u in s'.threads ensures ThreadOk(s', u) { if u in s.threads { assert ThreadOk(s, u); } }
  }

  lemma PlainStep(s: State, t: Tid, a: ThreadAction)
    requires Inv(s) && ThreadEnabled(s, t, a) && K.Plain(a)
    ensures Inv(ThreadEffect(s, t, a))
  {
    K.PlainSteps(s, t, a);
    PlainFrame(s, ThreadEffect(s, t, a), t);
  }

  lemma PlainFrame(s: State, s': State, t: Tid)
    requires Inv(s) && K.PlainShape(s, s', t)
    ensures Inv(s')
  {
    CalmSame(s, s');
    Frame(s, s');
  }

  lemma ReadEdgeStep(s: State, t: Tid)
    requires Inv(s) && ThreadEnabled(s, t, ReadEdge)
    ensures Inv(DoReadEdge(s, t))
  {
    var s' := DoReadEdge(s, t);
    var line := s.threads[t].call.key.line;
    assert LineOk(s, line);
    if Steady(s, line) && LastStamp(s.past.log, line).Some? {
      EdgeIsTop(s.jobs, line, LastStamp(s.past.log, line).value);
    }
    CalmSame(s, s');
    Frame(s, s');
  }

  lemma EdgeIsTop(jobs: JobMap, line: Timeline, x: int)
    requires TopPending(jobs, line, x)
    ensures TrailingEdge(jobs, line.tenant, line.partition) == x
  {
    var pool := TimelineSet(jobs, line.tenant, line.partition);
    var id :| id in jobs && O.OnTimeline(jobs[id], line) && jobs[id].liveness == Pending && jobs[id].vstamp == x;
    assert id in pool;
  }

  /** A seed that finds the low-water mark no higher than its edge puts the clock back at the last stamp. */
  lemma ReadFloorStep(s: State, t: Tid)
    requires Inv(s) && ThreadEnabled(s, t, ReadFloor)
    ensures Inv(DoReadFloor(s, t))
  {
    var s', key := DoReadFloor(s, t), s.threads[t].call.key;
    assert ThreadOk(s, t);
    CalmSame(s, s');
    assert AccountOk(s', key);
    Frame(s, s');
  }

  /** The insert extends its timeline's chain by one link and leaves every other timeline alone. */
  lemma InsertLine(s: State, t: Tid, hidden: bool, line: Timeline)
    requires L.Inv(s) && O.Inv(s) && K.Inv(s) && Inv(s) && ThreadEnabled(s, t, InsertOne(hidden))
    ensures LineOk(DoInsert(s, t, hidden), line)
  {
    var s' := DoInsert(s, t, hidden);
    var th := s.threads[t];
    var i := Insertion(th.call.key.line, th.call.stride, th.pc.vstamp);
    assert s'.past.log == s.past.log + [i];
    K.LastOfAppend(s.past.log, i, line);
    if Steady(s', line) {
      assert LineOk(s, line) && Steady(s, line);
      if line == th.call.key.line {
        InsertedOnTop(s, t, hidden);
      } else {
        InsertElsewhere(s.jobs, th.call.id, s'.jobs[th.call.id], line);
      }
      AppendRefines(s.past.log, i, line);
    }
  }

  /** On its own steady timeline the insert stands one stride above the last one, and on top. */
  lemma InsertedOnTop(s: State, t: Tid, hidden: bool)
    requires L.Inv(s) && O.Inv(s) && K.Inv(s) && Inv(s) && ThreadEnabled(s, t, InsertOne(hidden))
    requires Steady(s, s.threads[t].call.key.line)
    ensures var th := s.threads[t];
            && TopPending(DoInsert(s, t, hidden).jobs, th.call.key.line, th.pc.vstamp)
            && (LastStamp(s.past.log, th.call.key.line).Some? ==>
                  th.pc.vstamp == LastStamp(s.past.log, th.call.key.line).value + th.call.stride)
  {
    var th := s.threads[t];
    K.StampFromAccount(s, t);
    assert AccountOk(s, th.call.key);
    O.NewStampExceeds(s, t);
    assert th.call.id in DoInsert(s, t, hidden).jobs;
  }

  lemma InsertElsewhere(jobs: JobMap, id: JobId, j: Job, line: Timeline)
    requires id !in jobs && !O.OnTimeline(j, line)
    ensures forall x :: TopPending(jobs, line, x) ==> TopPending(jobs[id := j], line, x)
  {
    var jobs' := jobs[id := j];
    forall x | TopPending(jobs, line, x) ensures TopPending(jobs', line, x) {
      var k :| k in jobs && O.OnTimeline(jobs[k], line) && jobs[k].liveness == Pending && jobs[k].vstamp == x;
      assert k in jobs' && jobs'[k] == jobs[k];
    }
  }

  lemma InsertAccount(s: State, t: Tid, hidden: bool, k: Key)
    requires L.Inv(s) && K.Inv(s) && Inv(s) && ThreadEnabled(s, t, InsertOne(hidden)) && k in s.past.ledger
    ensures AccountOk(DoInsert(s, t, hidden), k)
  {
    var s' := DoInsert(s, t, hidden);
    var th := s.threads[t];
    var i := Insertion(th.call.key.line, th.call.stride, th.pc.vstamp);
    assert AccountOk(s, k) && K.AccountOk(s, k) && L.ThreadOk(s, t);
    assert s'.past.log == s.past.log + [i];
    K.LastOfAppend(s.past.log, i, k.line);
  }

  lemma InsertThread(s: State, t: Tid, hidden: bool, u: Tid)
    requires L.Inv(s) && Inv(s) && ThreadEnabled(s, t, InsertOne(hidden)) && u in s.threads
    ensures ThreadOk(DoInsert(s, t, hidden), u)
  {
    var s' := DoInsert(s, t, hidden);
    var th := s.threads[t];
    var i := Insertion(th.call.key.line, th.call.stride, th.pc.vstamp);
    assert ThreadOk(s, u) && L.ThreadOk(s, u) && L.ThreadOk(s, t);
    assert s'.past.log == s.past.log + [i];
    K.LastOfAppend(s.past.log, i, s.threads[u].call.key.line);
    assert u != t && Holding(s.threads[u].pc) ==> s.threads[u].call.key != th.call.key;
  }

  lemma InsertStep(s: State, t: Tid, hidden: bool)
    requires L.Inv(s) && O.Inv(s) && K.Inv(s) && Inv(s) && ThreadEnabled(s, t, InsertOne(hidden))
    ensures Inv(DoInsert(s, t, hidden))
  {
    var s' := DoInsert(s, t, hidden);
    forall line ensures LineOk(s', line) { InsertLine(s, t, hidden, line); }
    forall k | k in s'.past.ledger ensures AccountOk(s', k) { InsertAccount(s, t, hidden, k); }
    forall u | u in s'.threads ensures ThreadOk(s', u) { InsertThread(s, t, hidden, u); }
  }

  lemma StoreEventStep(s: State, ev: StoreEvent)
    requires Inv(s)
    ensures Inv(StoreEffect(s, ev))
  {
    var s' := StoreEffect(s, ev);
    forall line, x | Steady(s', line) && TopPending(s.jobs, line, x) ensures TopPending(s'.jobs, line, x) {
      PendingStands(s, ev, line, x);
    }
    Frame(s, s');
  }

  lemma PendingStands(s: State, ev: StoreEvent, line: Timeline, x: int)
    requires Steady(StoreEffect(s, ev), line) && TopPending(s.jobs, line, x)
    ensures TopPending(StoreEffect(s, ev).jobs, line, x)
  {
    StoreStepFrame(s.jobs, ev);
    var k :| k in s.jobs && O.OnTimeline(s.jobs[k], line) && s.jobs[k].liveness == Pending && s.jobs[k].vstamp == x;
    assert StoreEffect(s, ev).jobs == StoreStep(s.jobs, ev);
    if Subject(s.jobs, ev) == Some(k) { assert Timeline(s.jobs[k].tenant, s.jobs[k].partition) == line; }
    StaysPending(s.jobs, ev, k);
  }

  /** Refreshes, walks and the tick. */
  lemma OtherStep(s: State, s': State)
    requires Inv(s) && s'.jobs == s.jobs && s'.threads == s.threads
    requires s'.past ==
             s.past.(handled := s'.past.handled, evictions := s'.past.evictions, floorBegan := s'.past.floorBegan)
    ensures Inv(s')
  {
    CalmSame(s, s');
    Frame(s, s');
  }

  lemma EffectKeepsInv(s: State, a: Action)
    requires L.Inv(s) && O.Inv(s) && K.Inv(s) && Inv(s) && Enabled(s, a)
    ensures Inv(Effect(s, a))
  {
    match a
    case OfThread(t, step) =>
      if step.ReadEdge? { ReadEdgeStep(s, t); }
      else if step.ReadFloor? { ReadFloorStep(s, t); }
      else if step.InsertOne? { InsertStep(s, t, step.hidden); }
      else { PlainStep(s, t, step); }
    case OfRefresh(r, refresh) => L.RefreshShape(s, r, refresh); OtherStep(s, RefreshEffect(s, r, refresh));
    case OfWalk(q, walk) => O.WalkKeepsClocks(s, q, walk); OtherStep(s, WalkEffect(s, q, walk));
    case OfStore(ev) => StoreEventStep(s, ev);
  }

  lemma StepKeepsInv(s: State, a: Action)
    requires L.Inv(s) && O.Inv(s) && K.Inv(s) && Inv(s)
    ensures Inv(Step(s, a))
  {
    if Enabled(s, a) {
      EffectKeepsInv(s, a);
      OtherStep(Effect(s, a), Step(s, a));
    }
  }
}
