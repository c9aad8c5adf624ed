/** The weighted fairness bound, over any run of the service model. */
module Fairness {
  import opened Wrappers
  import opened VTime
  import opened Jobs
  import opened Service

  /** The last served stamp of i does not exceed the stamp at the head of j's backlog. */
  predicate Ahead(s: Shop, i: string, j: string)
    requires i in s.lines && s.lines[i].served <= |s.lines[i].strides| && Backlogged(s, j)
  {
    Advance(s.lines[i], s.lines[i].served) <= Advance(s.lines[j], s.lines[j].served + 1)
  }

  ghost predicate BackloggedThroughout(s: Shop, evs: seq<Event>, tenant: string)
    decreases |evs|
  {
    Backlogged(s, tenant) && (evs != [] ==> BackloggedThroughout(Step(s, evs[0]), evs[1..], tenant))
  }

  /** Serving i while j is backlogged puts i's last stamp at or below j's head: the claim took the lower one. */
  lemma ServingOneLeavesAhead(s: Shop, ev: Event, id: JobId, i: string, j: string)
    requires Inv(s) && Enabled(s, ev) && ev.Dispatch? && Target(s.jobs, s.partition, ev.now) == Some(id)
    requires i in s.lines && i != j && s.jobs[id].tenant == i && Backlogged(s, j)
    ensures Backlogged(s, i) && Advance(s.lines[i], s.lines[i].served + 1) <= Advance(s.lines[j], s.lines[j].served + 1)
  {
    DispatchTakesHead(s, ev.now, id);
    HeadVisible(s, j, ev.now);
    assert SlotOk(s, i, s.lines[i].served) && SlotOk(s, j, s.lines[j].served);
  }

  lemma StepAhead(s: Shop, ev: Event, i: string, j: string)
    requires Inv(s) && i in s.lines && i != j && Backlogged(s, j) && Backlogged(Step(s, ev), j)
    requires i in Step(s, ev).lines && (Ahead(s, i, j) || Step(s, ev).lines[i].served > s.lines[i].served)
    ensures Step(s, ev).lines[i].served <= |Step(s, ev).lines[i].strides| && Ahead(Step(s, ev), i, j)
  {
    HeadRises(s, ev, j);
    LastServedBefore(s, ev, i, j);
  }

  /** The stamp at the head of a backlog only rises. */
  lemma HeadRises(s: Shop, ev: Event, j: string)
    requires Inv(s) && Backlogged(s, j) && Backlogged(Step(s, ev), j)
    ensures Advance(s.lines[j], s.lines[j].served + 1) <= Advance(Step(s, ev).lines[j], Step(s, ev).lines[j].served + 1)
  {
    StepKeepsInv(s, ev);
    StepExtends(s, ev, j);
    var line, line' := s.lines[j], Step(s, ev).lines[j];
    assert LineShape(line) && LineShape(line');
    ExtendsAdvance(line, line', line.served + 1);
    AdvanceIncreases(line', line.served + 1, line'.served + 1);
  }

  lemma LastServedBefore(s: Shop, ev: Event, i: string, j: string)
    requires Inv(s) && i in s.lines && i != j && Backlogged(s, j)
    requires i in Step(s, ev).lines && (Ahead(s, i, j) || Step(s, ev).lines[i].served > s.lines[i].served)
    ensures var line := Step(s, ev).lines[i];
            line.served <= |line.strides| && Advance(line, line.served) <= Advance(s.lines[j], s.lines[j].served + 1)
  {
    StepKeepsInv(s, ev);
    StepExtends(s, ev, i);
    var line, line' := s.lines[i], Step(s, ev).lines[i];
    assert LineShape(line) && LineShape(line');
    if line'.served > line.served {
      ServingOneLeavesAhead(s, ev, Target(s.jobs, s.partition, ev.now).value, i, j);
      ExtendsAdvance(line, line', line.served + 1);
    } else {
      ExtendsAdvance(line, line', line.served);
    }
  }

  lemma {:induction false} RunAhead(s: Shop, evs: seq<Event>, i: string, j: string)
    requires Inv(s) && i in s.lines && i != j && BackloggedThroughout(s, evs, j)
    requires i in Run(s, evs).lines && (Ahead(s, i, j) || Run(s, evs).lines[i].served > s.lines[i].served)
    ensures Backlogged(Run(s, evs), j)
    ensures Run(s, evs).lines[i].served <= |Run(s, evs).lines[i].strides| && Ahead(Run(s, evs), i, j)
    decreases |evs|
  {
    if evs != [] {
      StepKeepsInv(s, evs[0]);
      StepExtends(s, evs[0], i);
      var s1 := Step(s, evs[0]);
      assert LineShape(s1.lines[i]);
      if Ahead(s, i, j) || s1.lines[i].served > s.lines[i].served { StepAhead(s, evs[0], i, j); }
      RunAhead(s1, evs[1..], i, j);
    }
  }

  /** The stride sum of a timeline's jobs served since its count stood at `from`. */
  function ServedStride(line: Line, from: nat): int
    requires from <= line.served <= |line.strides|
  {
    SumTo(line.strides, line.served) - SumTo(line.strides, from)
  }

  predicate StridesWithin(line: Line, m: int) {
    forall n :: 0 <= n < |line.strides| ==> line.strides[n] <= m
  }

  /**
   Two timelines are backlogged throughout, `before` serves each of them, and by the end of `window` no stride of
   theirs exceeds mi and mj.
   */
  ghost predicate Contest(s: Shop, before: seq<Event>, window: seq<Event>, i: string, j: string, mi: int, mj: int) {
    && Inv(s) && i in s.lines && j in s.lines && i != j
    && BackloggedThroughout(s, before, i) && BackloggedThroughout(s, before, j)
    && var a := Run(s, before);
    && i in a.lines && j in a.lines
    && a.lines[i].served > s.lines[i].served && a.lines[j].served > s.lines[j].served
    && BackloggedThroughout(a, window, i) && BackloggedThroughout(a, window, j)
    && var b := Run(a, window);
    i in b.lines && j in b.lines && StridesWithin(b.lines[i], mi) && StridesWithin(b.lines[j], mj)
  }

  /**
   Half of the bound: at the end i is at most one stride of j past j, and at the start at most one stride of i
   behind it.
   */
  lemma ServedDifference(s: Shop, before: seq<Event>, window: seq<Event>, i: string, j: string, mi: int, mj: int)
    requires Contest(s, before, window, i, j, mi, mj)
    ensures var a, b := Run(s, before), Run(Run(s, before), window);
            && a.lines[i].served <= b.lines[i].served <= |b.lines[i].strides|
            && a.lines[j].served <= b.lines[j].served <= |b.lines[j].strides|
            && ServedStride(b.lines[i], a.lines[i].served) - ServedStride(b.lines[j], a.lines[j].served) <= mi + mj
  {
    var a, b := Run(s, before), Run(Run(s, before), window);
    RunKeepsInv(s, before);
    RunKeepsInv(a, window);
    RunAhead(s, before, i, j);
    RunAhead(s, before, j, i);
    RunAhead(a, window, i, j);
    RunExtends(a, window, i);
    RunExtends(a, window, j);
    var ai, aj, bi, bj := a.lines[i], a.lines[j], b.lines[i], b.lines[j];
    assert LineShape(ai) && LineShape(aj) && LineShape(bi) && LineShape(bj);
    ExtendsAdvance(ai, bi, ai.served);
    ExtendsAdvance(ai, bi, ai.served + 1);
    ExtendsAdvance(aj, bj, aj.served);
    assert bi.strides[ai.served] <= mi && bj.strides[bj.served] <= mj;
  }

  /**
   Weighted fairness. Take any run of enqueues, claims and completions in which
   timelines i and j are backlogged throughout and each has had a job claimed.
   Over any window from then on, the strides served to the two differ by at most
   one maximal stride of each.
   */
  lemma WeightedFairness(s: Shop, before: seq<Event>, window: seq<Event>, i: string, j: string, mi: int, mj: int)
    requires Contest(s, before, window, i, j, mi, mj)
    ensures var a, b := Run(s, before), Run(Run(s, before), window);
            && a.lines[i].served <= b.lines[i].served <= |b.lines[i].strides|
            && a.lines[j].served <= b.lines[j].served <= |b.lines[j].strides|
            && var d := ServedStride(b.lines[i], a.lines[i].served) - ServedStride(b.lines[j], a.lines[j].served);
            -(mi + mj) <= d <= mi + mj
  {
    ServedDifference(s, before, window, i, j, mi, mj);
    ServedDifference(s, before, window, j, i, mj, mi);
  }

  // ----- the same bound on cost divided by weight -----

  /** Cost over weight of the jobs in slots [from, upTo), in stride units. */
  ghost function ServedShare(line: Line, from: nat, upTo: nat): real
    requires LineShape(line) && from <= upTo <= |line.slots|
    decreases upTo
  {
    if from == upTo then 0.0
    else ServedShare(line, from, upTo - 1) + Share(line.slots[upTo - 1].cost, line.slots[upTo - 1].weight)
  }

  /** Over k jobs the stride sum is within k units of the cost-over-weight sum. */
  lemma {:induction false} ShareTracksStride(line: Line, from: nat, upTo: nat)
    requires LineShape(line) && from <= upTo <= |line.slots|
    ensures var d := (SumTo(line.strides, upTo) - SumTo(line.strides, from)) as real - ServedShare(line, from, upTo);
            -((upTo - from) as real) <= d <= (upTo - from) as real
    decreases upTo
  {
    if from < upTo {
      ShareTracksStride(line, from, upTo - 1);
      var slot := line.slots[upTo - 1];
      assert line.strides[upTo - 1] == IdealStride(slot.cost, slot.weight);
      TruncationBelowOne(slot.cost, slot.weight);
    }
  }

  /**
   Fairness in the caller's terms: served cost over weight differs by at most the stride bound plus one unit per
   job served.
   */
  lemma CostFairness(s: Shop, before: seq<Event>, window: seq<Event>, i: string, j: string, mi: int, mj: int)
    requires Contest(s, before, window, i, j, mi, mj)
    ensures var a, b := Run(s, before), Run(Run(s, before), window);
            && LineShape(b.lines[i]) && LineShape(b.lines[j])
            && a.lines[i].served <= b.lines[i].served <= |b.lines[i].slots|
            && a.lines[j].served <= b.lines[j].served <= |b.lines[j].slots|
            && var ni, nj := b.lines[i].served - a.lines[i].served, b.lines[j].served - a.lines[j].served;
            var di := ServedShare(b.lines[i], a.lines[i].served, b.lines[i].served);
            var dj := ServedShare(b.lines[j], a.lines[j].served, b.lines[j].served);
            -((mi + mj + ni + nj) as real) <= di - dj <= (mi + mj + ni + nj) as real
  {
    WeightedFairness(s, before, window, i, j, mi, mj);
    var a, b := Run(s, before), Run(Run(s, before), window);
    RunKeepsInv(s, before);
    RunKeepsInv(a, window);
    ShareTracksStride(b.lines[i], a.lines[i].served, b.lines[i].served);
    ShareTracksStride(b.lines[j], a.lines[j].served, b.lines[j].served);
  }
}
