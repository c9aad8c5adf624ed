/**
 Bounded overtaking: how much work enqueued after a job can be dispatched before
 it. All of the partition's timelines are described and none is re-seeded.
 */
module Overtaking {
  import opened Wrappers
  import opened VTime
  import opened Jobs
  import opened Service

  /** Every job of the partition belongs to a described timeline, and the order lists the timelines once each. */
  predicate Closed(s: Shop, order: seq<string>) {
    && (forall id <- s.jobs :: s.jobs[id].partition == s.partition ==> s.jobs[id].tenant in s.lines)
    && (forall k :: 0 <= k < |order| ==> order[k] in s.lines)
    && (forall tenant <- s.lines :: tenant in order)
    && (forall k, m :: 0 <= k < m < |order| ==> order[k] != order[m])
  }

  /** No outsider enqueues into the partition. */
  predicate Inside(s: Shop, ev: Event) {
    ev.Outsider? ==> ev.job.partition != s.partition
  }

  ghost predicate InsideRun(s: Shop, evs: seq<Event>) {
    forall k :: 0 <= k < |evs| ==> Inside(s, evs[k])
  }

  predicate Waiting(s: Shop, id: JobId) {
    id in s.jobs && s.jobs[id].partition == s.partition && s.jobs[id].liveness == Pending && s.jobs[id].claimId == ""
  }

  /** The unclaimed jobs the claim order puts before J. */
  ghost function AheadOf(s: Shop, J: JobId): set<JobId>
    requires J in s.jobs
  {
    set id <- s.jobs | Waiting(s, id) && Precedes(s.jobs, id, J)
  }

  /** How far a timeline's clock still is below v. */
  function Short(line: Line, v: int): nat {
    if Vtime(line) < v then v - Vtime(line) else 0
  }

  function Gap(lines: map<string, Line>, order: seq<string>, v: int): nat
    requires forall k :: 0 <= k < |order| ==> order[k] in lines
  {
    if order == [] then 0 else Gap(lines, order[..|order| - 1], v) + Short(lines[order[|order| - 1]], v)
  }

  lemma {:induction false} GapUpdate(lines: map<string, Line>, order: seq<string>, v: int, tenant: string, line: Line)
    requires forall k :: 0 <= k < |order| ==> order[k] in lines
    requires forall k, m :: 0 <= k < m < |order| ==> order[k] != order[m]
    requires tenant in lines
    ensures Gap(lines[tenant := line], order, v) ==
            if tenant in order then Gap(lines, order, v) - Short(lines[tenant], v) + Short(line, v)
            else Gap(lines, order, v)
  {
    if order != [] {
      var last := order[|order| - 1];
      var init := order[..|order| - 1];
      GapUpdate(lines, init, v, tenant, line);
      assert order == init + [last];
      assert tenant in order <==> tenant in init || tenant == last;
    }
  }

  ghost function Potential(s: Shop, order: seq<string>, J: JobId): nat
    requires Closed(s, order) && J in s.jobs
  {
    |AheadOf(s, J)| + Gap(s.lines, order, s.jobs[J].vstamp)
  }

  lemma StepStaysClosed(s: Shop, ev: Event, order: seq<string>)
    requires Inv(s) && Closed(s, order) && Inside(s, ev)
    ensures Closed(Step(s, ev), order) && Step(s, ev).partition == s.partition
  {
    if Enabled(s, ev) && ev.Call? { StoreStepFrame(s.jobs, ev.op); }
  }

  /** The job belongs to a described timeline. */
  predicate Held(s: Shop, id: JobId) {
    id in s.jobs && s.jobs[id].partition == s.partition && s.jobs[id].tenant in s.lines
  }

  /** A claim made is a claim kept: a job waiting after a step was waiting before it, with the same stamp. */
  lemma StepKeepsJob(s: Shop, ev: Event, id: JobId)
    requires Held(s, id)
    ensures var s' := Step(s, ev);
            && Held(s', id) && s'.jobs[id].vstamp == s.jobs[id].vstamp && s'.partition == s.partition
            && (Waiting(s', id) ==> Waiting(s, id))
  {
  }

  /** A waiting job of a described timeline is visible to every claim of the run. */
  lemma WaitingVisible(s: Shop, order: seq<string>, id: JobId, now: int)
    requires Inv(s) && Closed(s, order) && Waiting(s, id) && s.lo <= now
    ensures id in VisibleSet(s.jobs, s.partition, now)
  {
    assert JobOk(s, id);
    var tenant := s.jobs[id].tenant;
    var n: nat :| n < |s.lines[tenant].slots| && s.lines[tenant].slots[n].id == id;
    assert SlotOk(s, tenant, n);
  }

  /** Each claim that leaves J waiting takes one job from ahead of it. */
  lemma DispatchSpends(s: Shop, ev: Event, order: seq<string>, J: JobId)
    requires Inv(s) && Closed(s, order) && Enabled(s, ev) && ev.Dispatch?
    requires Waiting(s, J) && Waiting(Step(s, ev), J)
    ensures Closed(Step(s, ev), order) && Potential(Step(s, ev), order, J) <= Potential(s, order, J) - 1
  {
    StepKeepsJob(s, ev, J);
    DispatchGap(s, ev, order, s.jobs[J].vstamp);
    WaitingVisible(s, order, J, ev.now);
    DispatchShrinksAhead(s, ev, order, J, Target(s.jobs, s.partition, ev.now).value);
  }

  lemma DispatchShrinksAhead(s: Shop, ev: Event, order: seq<string>, J: JobId, target: JobId)
    requires Inv(s) && Closed(s, order) && Enabled(s, ev) && ev.Dispatch?
    requires Waiting(s, J) && Waiting(Step(s, ev), J) && J in VisibleSet(s.jobs, s.partition, ev.now)
    requires Target(s.jobs, s.partition, ev.now) == Some(target)
    ensures AheadOf(Step(s, ev), J) == AheadOf(s, J) - {target} && target in AheadOf(s, J)
  {
    var s' := Step(s, ev);
    DispatchShape(s, ev, target);
    assert target in VisibleSet(s.jobs, s.partition, ev.now);
    TargetWaits(s, ev.now, target);
    assert target != J;
    assert forall id <- s.jobs :: id != target ==> s'.jobs[id] == s.jobs[id];
  }

  lemma TargetWaits(s: Shop, now: int, id: JobId)
    requires Inv(s) && s.lo <= now <= s.hi && Target(s.jobs, s.partition, now) == Some(id)
             && s.jobs[id].tenant in s.lines
    ensures Waiting(s, id)
  {
    DispatchTakesHead(s, now, id);
    assert SlotOk(s, s.jobs[id].tenant, s.lines[s.jobs[id].tenant].served);
    assert id in VisibleSet(s.jobs, s.partition, now);
  }

  /**
   An enqueue stamped at or below v closes its timeline's gap by its stride; any other leaves the jobs ahead
   alone.
   */
  lemma EnqueueGap(s: Shop, ev: Event, order: seq<string>, v: int)
    requires Inv(s) && Closed(s, order) && Enabled(s, ev) && ev.Enqueue?
    ensures Closed(Step(s, ev), order)
    ensures var stamp := Vtime(Step(s, ev).lines[ev.tenant]);
            && (stamp <= v ==>
                  Gap(Step(s, ev).lines, order, v) == Gap(s.lines, order, v) - IdealStride(ev.cost, ev.weight))
            && (stamp > v ==> Gap(Step(s, ev).lines, order, v) <= Gap(s.lines, order, v))
  {
    StepStaysClosed(s, ev, order);
    var slot := Slot(ev.id, ev.cost, ev.weight);
    assert LineShape(s.lines[ev.tenant]);
    AppendAdvance(s.lines[ev.tenant], slot, 0);
    GapUpdate(s.lines, order, v, ev.tenant, Append(s.lines[ev.tenant], slot));
  }

  lemma EnqueueConserves(s: Shop, ev: Event, order: seq<string>, J: JobId)
    requires Inv(s) && Closed(s, order) && Enabled(s, ev) && ev.Enqueue? && J in s.jobs
    ensures Closed(Step(s, ev), order) && J in Step(s, ev).jobs
            && Potential(Step(s, ev), order, J) <= Potential(s, order, J)
  {
    var v := s.jobs[J].vstamp;
    EnqueueGap(s, ev, order, v);
    EnqueueAhead(s, ev, J);
    assert Step(s, ev).jobs[ev.id].vstamp == Vtime(Step(s, ev).lines[ev.tenant]);
  }

  /** An enqueue adds at most its own job to those ahead of J, and none if stamped above J. */
  lemma EnqueueAhead(s: Shop, ev: Event, J: JobId)
    requires Enabled(s, ev) && ev.Enqueue? && J in s.jobs
    ensures var s' := Step(s, ev);
            && J in s'.jobs && s'.jobs[J] == s.jobs[J] && ev.id in s'.jobs
            && |AheadOf(s', J)| <= |AheadOf(s, J)| + (if s'.jobs[ev.id].vstamp <= s.jobs[J].vstamp then 1 else 0)
  {
    var s' := Step(s, ev);
    var before, after := AheadOf(s, J), AheadOf(s', J);
    if s'.jobs[ev.id].vstamp <= s.jobs[J].vstamp {
      SubsetSize(after, before + {ev.id});
    } else {
      assert after == before;
    }
  }

  lemma {:induction false} SubsetSize<T>(a: set<T>, b: set<T>)
    requires a <= b
    ensures |a| <= |b|
  {
    assert b == a + (b - a);
  }

  lemma OtherConserves(s: Shop, ev: Event, order: seq<string>, J: JobId)
    requires Inv(s) && Closed(s, order) && Inside(s, ev) && Held(s, J)
    requires !Enabled(s, ev) || ev.Outsider? || ev.Call?
    ensures Closed(Step(s, ev), order) && J in Step(s, ev).jobs
            && Potential(Step(s, ev), order, J) == Potential(s, order, J)
  {
    StepStaysClosed(s, ev, order);
    StepKeepsJob(s, ev, J);
    var s' := Step(s, ev);
    OtherWaiting(s, ev, order);
    assert AheadOf(s', J) == AheadOf(s, J);
  }

  lemma OtherWaiting(s: Shop, ev: Event, order: seq<string>)
    requires Closed(s, order) && Inside(s, ev) && (!Enabled(s, ev) || ev.Outsider? || ev.Call?)
    ensures var s' := Step(s, ev);
            && s'.lines == s.lines && s'.partition == s.partition
            && (forall id :: Waiting(s', id) <==> Waiting(s, id))
            && (forall id :: Waiting(s, id) ==> s'.jobs[id].vstamp == s.jobs[id].vstamp)
  {
  }

  /** The claims a run makes. */
  ghost function Claims(s: Shop, evs: seq<Event>): nat
    decreases |evs|
  {
    if evs == [] then 0
    else (if Enabled(s, evs[0]) && evs[0].Dispatch? then 1 else 0) + Claims(Step(s, evs[0]), evs[1..])
  }

  lemma {:induction false} RunKeepsJob(s: Shop, evs: seq<Event>, id: JobId)
    requires Held(s, id)
    ensures var s' := Run(s, evs);
            && Held(s', id) && s'.jobs[id].vstamp == s.jobs[id].vstamp && s'.partition == s.partition
            && (Waiting(s', id) ==> Waiting(s, id))
    decreases |evs|
  {
    if evs != [] {
      StepKeepsJob(s, evs[0], id);
      RunKeepsJob(Step(s, evs[0]), evs[1..], id);
    }
  }

  /**
   Bounded overtaking, in claims. However enqueues and claims interleave, a job J
   is claimed after at most as many other claims as there are unclaimed jobs ahead
   of it now, plus for each timeline the distance its clock is short of J's stamp.
   */
  lemma {:induction false} BoundedOvertaking(s: Shop, evs: seq<Event>, order: seq<string>, J: JobId)
    requires Inv(s) && Closed(s, order) && InsideRun(s, evs) && Waiting(s, J)
    requires Waiting(Run(s, evs), J)
    ensures Claims(s, evs) <= Potential(s, order, J)
    decreases |evs|
  {
    if evs != [] {
      var ev := evs[0];
      var s1 := Step(s, ev);
      assert Inside(s, ev);
      StepKeepsInv(s, ev);
      StepStaysClosed(s, ev, order);
      StepKeepsJob(s, ev, J);
      RunKeepsJob(s1, evs[1..], J);
      if Enabled(s, ev) && ev.Dispatch? { DispatchSpends(s, ev, order, J); }
      else if Enabled(s, ev) && ev.Enqueue? { EnqueueConserves(s, ev, order, J); }
      else { OtherConserves(s, ev, order, J); }
      BoundedOvertaking(s1, evs[1..], order, J);
    }
  }

  /** The stride sum of the jobs a run enqueues with a stamp at or below v. */
  ghost function OvertakingStride(s: Shop, evs: seq<Event>, v: int): int
    decreases |evs|
  {
    if evs == [] then 0
    else
      var ev, s1 := evs[0], Step(s, evs[0]);
      (if Enabled(s, ev) && ev.Enqueue? && ev.tenant in s1.lines && Vtime(s1.lines[ev.tenant]) <= v
       then IdealStride(ev.cost, ev.weight) else 0)
      + OvertakingStride(s1, evs[1..], v)
  }

  /**
   Bounded overtaking, in work: what is enqueued later and stamped at or below v has a total stride of at most
   the gap to v.
   */
  lemma {:induction false} BoundedOvertakingStride(s: Shop, evs: seq<Event>, order: seq<string>, v: int)
    requires Inv(s) && Closed(s, order) && InsideRun(s, evs)
    ensures OvertakingStride(s, evs, v) <= Gap(s.lines, order, v)
    decreases |evs|
  {
    if evs != [] {
      var ev := evs[0];
      assert Inside(s, ev);
      StepKeepsInv(s, ev);
      StepStaysClosed(s, ev, order);
      if Enabled(s, ev) && ev.Enqueue? { EnqueueGap(s, ev, order, v); }
      else if Enabled(s, ev) && ev.Dispatch? { DispatchGap(s, ev, order, v); }
      BoundedOvertakingStride(Step(s, ev), evs[1..], order, v);
    }
  }

  lemma DispatchGap(s: Shop, ev: Event, order: seq<string>, v: int)
    requires Inv(s) && Closed(s, order) && Enabled(s, ev) && ev.Dispatch?
    ensures Closed(Step(s, ev), order) && Gap(Step(s, ev).lines, order, v) == Gap(s.lines, order, v)
  {
    StepStaysClosed(s, ev, order);
    var target := Target(s.jobs, s.partition, ev.now);
    if target.Some? {
      DispatchShape(s, ev, target.value);
      var tenant := s.jobs[target.value].tenant;
      if tenant in s.lines { GapUpdate(s.lines, order, v, tenant, Step(s, ev).lines[tenant]); }
    }
  }

  /** None of it is on J's own timeline: later jobs there are stamped above J. */
  lemma OwnTimelineNeverOvertakes(s: Shop, evs: seq<Event>, next: Event, J: JobId)
    requires Inv(s) && J in s.jobs && s.jobs[J].partition == s.partition && s.jobs[J].tenant in s.lines
    requires Enabled(Run(s, evs), next) && next.Enqueue? && next.tenant == s.jobs[J].tenant
    ensures next.id in Step(Run(s, evs), next).jobs && Step(Run(s, evs), next).jobs[next.id].vstamp > s.jobs[J].vstamp
  {
    var tenant := s.jobs[J].tenant;
    var s' := Run(s, evs);
    RunKeepsInv(s, evs);
    RunExtends(s, evs, tenant);
    assert JobOk(s, J);
    var line, line' := s.lines[tenant], s'.lines[tenant];
    var n: nat :| n < |line.slots| && line.slots[n].id == J;
    assert SlotOk(s, tenant, n) && LineShape(line) && LineShape(line');
    ExtendsAdvance(line, line', n + 1);
    AdvanceIncreases(line', n + 1, |line'.strides|);
    AppendAdvance(line', Slot(next.id, next.cost, next.weight), 0);
  }
}
