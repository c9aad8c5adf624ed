/**
 How a timeline's stamps compare with what was stamped before: with the last
 stamp, with the jobs served, with the highest stamp ever, and with a job that
 was stored behind an error.
 */
module Stamps {
  import opened Wrappers
  import opened Jobs
  import opened Frontier
  import opened Cell
  import opened Protocol
  import L = Locks
  import O = Order
  import K = Ledger
  import F = Floors
  import E = Epochs
  import R = Runs

  /** The account an enqueue stamps from. */
  ghost predicate Stamping(s: State, t: Tid) {
    && R.Reachable(s) && t in s.threads && s.threads[t].pc.Inserting?
    && s.threads[t].call.key in s.past.ledger
  }

  lemma InsertingStamps(s: State, t: Tid)
    requires R.Reachable(s) && t in s.threads && s.threads[t].pc.Inserting?
    ensures Stamping(s, t)
    ensures var th := s.threads[t];
            th.pc.vstamp == s.past.ledger[th.call.key].clock + th.call.stride && th.call.stride >= 1
  {
    R.ReachableIsGood(s);
    K.StampFromAccount(s, t);
  }

  /**
   Between two seeds stamps chain. With one writer and no insert hidden, an enqueue that finds its timeline not
   re-seeded since the last insert stamps exactly one stride above that insert, whatever of the timeline has been
   served, completed, cancelled or deleted meanwhile.
   */
  lemma StampFollowsLast(s: State, t: Tid)
    requires Stamping(s, t) && O.Trusted(s, s.threads[t].call.key.line)
    requires !s.past.ledger[s.threads[t].call.key].reseeded
    ensures var call := s.threads[t].call;
            LastStamp(s.past.log, call.key.line) == Some(s.threads[t].pc.vstamp - call.stride)
  {
    InsertingStamps(s, t);
    R.ReachableIsGood(s);
    assert K.AccountOk(s, s.threads[t].call.key);
  }

  /**
   No stamp falls below what was served before its seed's frontier. In a partition without releases or deletions of
   fenced jobs, a stamp exceeds every job of the partition that had been claimed when the refresh began whose
   low-water mark the timeline's last seed read.
   */
  lemma StampAboveServed(s: State, t: Tid, id: JobId)
    requires Stamping(s, t) && F.Undipped(s, s.threads[t].call.key.line.partition)
    requires s.past.ledger[s.threads[t].call.key].start.Some?
    requires id in s.past.ledger[s.threads[t].call.key].start.value.fenced
    ensures id in s.jobs && s.jobs[id].vstamp < s.threads[t].pc.vstamp
  {
    InsertingStamps(s, t);
    R.ReachableIsGood(s);
    assert F.AccountOk(s, s.threads[t].call.key);
  }

  // ----- between two walks -----

  /** No walk handles the timeline on the way. */
  ghost predicate NoHandling(s: State, actions: seq<Action>, key: Key)
    decreases |actions|
  {
    actions != [] ==> !E.Handles(s, actions[0], key) && NoHandling(Step(s, actions[0]), actions[1..], key)
  }

  /**
   A seed is forgotten only by a walk. From a reachable state in which no walk has handled a timeline since its last
   seed began, over any run in which none does, no enqueue of the timeline seeds again, whatever the hooks would have
   answered.
   */
  lemma {:induction false} UnhandledNeverReseeds(s: State, actions: seq<Action>, key: Key)
    requires R.Good(s) && E.Unhandled(s, key) && NoHandling(s, actions, key)
    ensures R.Good(Run(s, actions)) && E.Unhandled(Run(s, actions), key) && !Reseeded(s, actions, key)
    ensures !s.past.ledger[key].reseeded ==> !Run(s, actions).past.ledger[key].reseeded
    decreases |actions|
  {
    if actions != [] {
      var a := actions[0];
      if K.Reseeds(s, a, key) { E.ReseededWasHandled(s, a, key); }
      E.UnhandledStands(s, a, key);
      R.StepKeepsGood(s, a);
      UnhandledNeverReseeds(Step(s, a), actions[1..], key);
    }
  }

  /** So between walks a timeline's stamps chain, from its first insert after the seed on. */
  lemma StampsChainBetweenWalks(s: State, actions: seq<Action>, u: Tid, key: Key)
    requires R.Reachable(s) && E.Unhandled(s, key) && !s.past.ledger[key].reseeded && NoHandling(s, actions, key)
    requires var s' := Run(s, actions);
             && u in s'.threads && s'.threads[u].pc.Inserting? && s'.threads[u].call.key == key
             && O.Trusted(s', key.line)
    ensures var s' := Run(s, actions);
            LastStamp(s'.past.log, key.line) == Some(s'.threads[u].pc.vstamp - s'.threads[u].call.stride)
  {
    R.ReachableIsGood(s);
    UnhandledNeverReseeds(s, actions, key);
    R.ReachableGoesOn(s, actions);
    InsertingStamps(Run(s, actions), u);
    StampFollowsLast(Run(s, actions), u);
  }

  // ----- against the highest stamp ever -----

  ghost function Highest(log: seq<Insertion>, line: Timeline): Option<int>
    decreases |log|
  {
    if log == [] then None
    else
      var last, rest := log[|log| - 1], Highest(log[..|log| - 1], line);
      if last.line != line || (rest.Some? && rest.value > last.vstamp) then rest else Some(last.vstamp)
  }

  /** A job of the timeline that was pending in the store stood within a stride of h. */
  ghost predicate PendingWithin(jobs: JobMap, line: Timeline, stride: int, h: int) {
    exists id <- TimelineSet(jobs, line.tenant, line.partition) :: jobs[id].vstamp + stride > h
  }

  ghost predicate LastWithin(log: seq<Insertion>, line: Timeline, stride: int, h: int) {
    LastStamp(log, line).Some? && LastStamp(log, line).value + stride > h
  }

  /**
   Stamps need not rise over a timeline's whole life. An enqueue's stamp exceeds the highest stamp h ever issued on
   its timeline if and only if, when the timeline was re-seeded since the last insert, the low-water mark or a
   pending job the seed read stood within a stride of h; and otherwise, if the last stamp does.
   */
  lemma StampRisesIff(s: State, t: Tid, h: int)
    requires Stamping(s, t) && O.Trusted(s, s.threads[t].call.key.line)
    requires Highest(s.past.log, s.threads[t].call.key.line) == Some(h)
    ensures var call, v := s.threads[t].call, s.threads[t].pc.vstamp;
            var account := s.past.ledger[call.key];
            v > h <==>
            if account.reseeded
            then account.floor + call.stride > h || PendingWithin(account.seen, call.key.line, call.stride, h)
            else LastWithin(s.past.log, call.key.line, call.stride, h)
  {
    InsertingStamps(s, t);
    R.ReachableIsGood(s);
    var call := s.threads[t].call;
    assert K.AccountOk(s, call.key);
    EdgeWithin(s.past.ledger[call.key].seen, call.key.line, call.stride, h);
  }

  lemma EdgeWithin(jobs: JobMap, line: Timeline, stride: int, h: int)
    ensures var edge := TrailingEdge(jobs, line.tenant, line.partition);
            if TimelineSet(jobs, line.tenant, line.partition) == {} then edge == 0
                                                                         && !PendingWithin(jobs, line, stride, h)
            else edge + stride > h <==> PendingWithin(jobs, line, stride, h)
  {
  }

  // ----- after an insert stored behind an error -----

  ghost predicate PendingThroughout(s: State, actions: seq<Action>, id: JobId)
    decreases |actions|
  {
    && id in s.jobs && s.jobs[id].liveness == Pending
    && (actions != [] ==> PendingThroughout(Step(s, actions[0]), actions[1..], id))
  }

  ghost predicate NoInsert(s: State, actions: seq<Action>, key: Key)
    decreases |actions|
  {
    actions != [] ==> !K.Inserts(s, actions[0], key) && NoInsert(Step(s, actions[0]), actions[1..], key)
  }

  /** Some enqueue of the key re-seeds on the way: it found the entry stale at its swap, or evicted. */
  ghost predicate Reseeded(s: State, actions: seq<Action>, key: Key)
    decreases |actions|
  {
    actions != [] && (K.Reseeds(s, actions[0], key) || Reseeded(Step(s, actions[0]), actions[1..], key))
  }

  /** The hidden job stands at h; the clock is still below it, at `base`, unless a seed has read past it. */
  ghost predicate Behind(s: State, key: Key, id: JobId, h: int, base: int, reseeded: bool) {
    && id in s.jobs && O.OnTimeline(s.jobs[id], key.line) && s.jobs[id].liveness == Pending && s.jobs[id].vstamp == h
    && key in s.past.ledger
    && (if reseeded then s.past.ledger[key].clock >= h else s.past.ledger[key].clock == base)
    && forall u <- s.threads :: s.threads[u].call.key == key && s.threads[u].pc.FloorReading? ==>
                                  s.threads[u].pc.edge >= h
  }

  lemma StepStaysBehind(s: State, a: Action, key: Key, id: JobId, h: int, base: int, reseeded: bool)
    requires L.Inv(s) && Behind(s, key, id, h, base, reseeded) && !K.Inserts(s, a, key)
    requires id in Step(s, a).jobs && Step(s, a).jobs[id].liveness == Pending
    ensures Behind(Step(s, a), key, id, h, base, reseeded || K.Reseeds(s, a, key))
  {
    if Enabled(s, a) {
      HiddenJobStands(s, a, id);
      EdgesStayAbove(s, a, key, id, h, base, reseeded);
      if !K.Reseeds(s, a, key) { K.AccountStands(s, a, key); }
    }
  }

  lemma EdgesStayAbove(s: State, a: Action, key: Key, id: JobId, h: int, base: int, reseeded: bool)
    requires L.Inv(s) && Behind(s, key, id, h, base, reseeded) && Enabled(s, a)
    ensures forall u <- Effect(s, a).threads ::
              Effect(s, a).threads[u].call.key == key && Effect(s, a).threads[u].pc.FloorReading? ==>
                Effect(s, a).threads[u].pc.edge >= h
  {
    if a.OfThread? && a.step.ReadEdge? {
      assert id in TimelineSet(s.jobs, key.line.tenant, key.line.partition);
    } else {
      K.EdgesStand(s, a);
    }
  }

  /** A record stored before and after a step is the same record. */
  lemma HiddenJobStands(s: State, a: Action, id: JobId)
    requires L.Inv(s) && Enabled(s, a) && id in s.jobs && id in Effect(s, a).jobs
    ensures var j, j' := s.jobs[id], Effect(s, a).jobs[id];
            j'.tenant == j.tenant && j'.partition == j.partition && j'.vstamp == j.vstamp
  {
    match a
    case OfThread(t, step) => if K.Plain(step) { K.PlainSteps(s, t, step); } else { K.WritingStep(s, t, step); }
    case OfRefresh(r, refresh) => L.RefreshShape(s, r, refresh);
    case OfWalk(q, walk) => O.WalkKeepsClocks(s, q, walk);
    case OfStore(ev) => StoreStepFrame(s.jobs, ev);
  }

  lemma {:induction false} RunStaysBehind(s: State, actions: seq<Action>, key: Key, id: JobId, h: int, base: int,
                                          reseeded: bool)
    requires R.Good(s) && Behind(s, key, id, h, base, reseeded)
    requires PendingThroughout(s, actions, id) && NoInsert(s, actions, key)
    ensures R.Good(Run(s, actions))
    ensures Behind(Run(s, actions), key, id, h, base, reseeded || Reseeded(s, actions, key))
    decreases |actions|
  {
    if actions != [] {
      var a, s1 := actions[0], Step(s, actions[0]);
      assert PendingThroughout(s1, actions[1..], id);
      StepStaysBehind(s, a, key, id, h, base, reseeded);
      R.StepKeepsGood(s, a);
      RunStaysBehind(s1, actions[1..], key, id, h, base, reseeded || K.Reseeds(s, a, key));
    }
  }

  /** The insert that hides its success leaves the clock one stride below the job it stored. */
  lemma HiddenInsertLeavesBehind(s: State, t: Tid)
    requires R.Good(s) && ThreadEnabled(s, t, InsertOne(true))
    ensures var th, s' := s.threads[t], Step(s, OfThread(t, InsertOne(true)));
            Behind(s', th.call.key, th.call.id, th.pc.vstamp, th.pc.vstamp - th.call.stride, false)
  {
    K.StampFromAccount(s, t);
    var key, s' := s.threads[t].call.key, Step(s, OfThread(t, InsertOne(true)));
    forall u | u in s'.threads && s'.threads[u].call.key == key ensures !s'.threads[u].pc.FloorReading? {
      assert L.ThreadOk(s, u) && L.ThreadOk(s, t);
    }
  }

  /**
   An insert stored behind an error breaks timeline order exactly this far. While its job is pending and until its
   timeline's next insert, an enqueue of the timeline stamps above the hidden job if and only if some enqueue of the
   timeline has re-seeded meanwhile, or this one's stride is the larger.
   */
  lemma HiddenInsertReusesSlot(s: State, t: Tid, actions: seq<Action>, u: Tid)
    requires R.Reachable(s) && ThreadEnabled(s, t, InsertOne(true))
    requires var s1, call := Step(s, OfThread(t, InsertOne(true))), s.threads[t].call;
             && PendingThroughout(s1, actions, call.id) && NoInsert(s1, actions, call.key)
             && var s2 := Run(s1, actions);
             u in s2.threads && s2.threads[u].pc.Inserting? && s2.threads[u].call.key == call.key
    ensures var s1, th := Step(s, OfThread(t, InsertOne(true))), s.threads[t];
            var next := Run(s1, actions).threads[u];
            next.pc.vstamp > th.pc.vstamp <==> Reseeded(s1, actions, th.call.key) || next.call.stride > th.call.stride
  {
    var s1, th := Step(s, OfThread(t, InsertOne(true))), s.threads[t];
    R.ReachableIsGood(s);
    R.StepKeepsGood(s, OfThread(t, InsertOne(true)));
    HiddenInsertLeavesBehind(s, t);
    RunStaysBehind(s1, actions, th.call.key, th.call.id, th.pc.vstamp, th.pc.vstamp - th.call.stride, false);
    K.StampFromAccount(Run(s1, actions), u);
  }
}
