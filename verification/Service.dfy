/**
 Dispatch against stamping, in one partition. Timelines keep one seeding epoch:
 each stamps its next job one stride above its last. Jobs are visible as soon as
 they are enqueued, claims come at server times in [lo, hi], and leases outlast
 the run, heartbeats included. Claimed jobs may be completed or cancelled. Timelines
 outside the picture may insert whatever they like, and anything may happen to their jobs.
 */
module Service {
  import opened Wrappers
  import opened VTime
  import opened Duration
  import opened Jobs

  datatype Slot = Slot(id: JobId, cost: int, weight: int)

  /** A tenant's timeline: its jobs in enqueue order, of which the first `served` have been claimed. */
  datatype Line = Line(base: int, slots: seq<Slot>, strides: seq<int>, served: nat)

  datatype Shop = Shop(partition: string, lo: int, hi: int, jobs: JobMap, lines: map<string, Line>)

  datatype Event =
    | Enqueue(tenant: string, id: JobId, cost: int, weight: int, visibleAt: int)
    | Outsider(id: JobId, job: Job)
    | Dispatch(now: int, lease: int64, claimId: ClaimId)
    | Call(op: StoreEvent)

  /** The timeline's clock after its first n jobs; the n-th job, counting from 1, carries this stamp. */
  function Advance(line: Line, n: nat): int
    requires n <= |line.strides|
  {
    line.base + SumTo(line.strides, n)
  }

  function Vtime(line: Line): int {
    Advance(line, |line.strides|)
  }

  ghost predicate Enabled(s: Shop, ev: Event) {
    match ev
    case Enqueue(tenant, id, cost, weight, visibleAt) =>
      tenant in s.lines && id !in s.jobs && cost >= 1 && weight >= 1 && visibleAt <= s.lo
    case Outsider(id, job) => id !in s.jobs && (job.partition != s.partition || job.tenant !in s.lines)
    case Dispatch(now, lease, claimId) =>
      s.lo <= now <= s.hi && lease > 0 && now + DurationMillis(lease) > s.hi && claimId != ""
    case Call(op) => Harmless(s, op)
  }

  /**
   A server call other than a claim in the partition: of a described timeline it hits at most a claimed job, and
   does not hand it back.
   */
  ghost predicate Harmless(s: Shop, op: StoreEvent) {
    && (op.Claim? ==> op.partition != s.partition && op.claimId != "")
    && (Subject(s.jobs, op).Some? ==>
          var j := s.jobs[Subject(s.jobs, op).value];
          || j.partition != s.partition || j.tenant !in s.lines
          || (j.claimId != ""
              && (op.Complete? || op.Cancel? || (op.Heartbeat? && op.now + DurationMillis(op.extend) > s.hi))))
  }

  function Append(line: Line, slot: Slot): Line
    requires slot.cost >= 1 && slot.weight >= 1
  {
    line.(slots := line.slots + [slot], strides := line.strides + [IdealStride(slot.cost, slot.weight)])
  }

  function ClaimOf(s: Shop, ev: Event): StoreEvent
    requires ev.Dispatch?
  {
    StoreEvent.Claim(s.partition, ev.now, ev.lease, ev.claimId)
  }

  /** Count the claim on its timeline. */
  function Serve(lines: map<string, Line>, tenant: string): map<string, Line> {
    if tenant in lines then lines[tenant := lines[tenant].(served := lines[tenant].served + 1)] else lines
  }

  ghost function Step(s: Shop, ev: Event): Shop {
    if !Enabled(s, ev) then s
    else match ev
         case Enqueue(tenant, id, cost, weight, visibleAt) =>
           var line := Append(s.lines[tenant], Slot(id, cost, weight));
           s.(jobs := s.jobs[id := NewJob(tenant, s.partition, cost, Vtime(line), visibleAt)],
           lines := s.lines[tenant := line])
         case Outsider(id, job) => s.(jobs := s.jobs[id := job])
         case Dispatch(now, _, _) =>
           (match Target(s.jobs, s.partition, now)
            case None => s
            case Some(id) => s.(jobs := StoreStep(s.jobs, ClaimOf(s, ev)), lines := Serve(s.lines, s.jobs[id].tenant)))
         case Call(op) => s.(jobs := StoreStep(s.jobs, op))
  }

  ghost function Run(s: Shop, evs: seq<Event>): Shop
    decreases |evs|
  {
    if evs == [] then s else Run(Step(s, evs[0]), evs[1..])
  }

  // ----- the invariant: the timelines describe the store -----

  predicate LineShape(line: Line) {
    && |line.slots| == |line.strides|
    && line.served <= |line.slots|
    && forall n :: 0 <= n < |line.slots| ==>
                     line.slots[n].cost >= 1 && line.slots[n].weight >= 1
                     && line.strides[n] == IdealStride(line.slots[n].cost, line.slots[n].weight)
  }

  predicate SlotOk(s: Shop, tenant: string, n: nat) {
    && tenant in s.lines && LineShape(s.lines[tenant]) && n < |s.lines[tenant].slots|
    && var line := s.lines[tenant];
    var id := line.slots[n].id;
    && id in s.jobs
    && var j := s.jobs[id];
    && j.tenant == tenant && j.partition == s.partition && j.vstamp == Advance(line, n + 1)
    && (n >= line.served ==> j.liveness == Pending && j.claimId == "" && j.visibleAt <= s.lo)
    && (n < line.served ==> j.claimId != "" && (j.liveness == Pending ==> j.visibleAt > s.hi))
  }

  /** Every job of a described timeline stands in one of its slots. */
  ghost predicate JobOk(s: Shop, id: JobId) {
    && id in s.jobs
    && (s.jobs[id].partition == s.partition && s.jobs[id].tenant in s.lines ==>
          exists n: nat :: n < |s.lines[s.jobs[id].tenant].slots| && s.lines[s.jobs[id].tenant].slots[n].id == id)
  }

  ghost predicate Inv(s: Shop) {
    && s.lo <= s.hi
    && (forall tenant <- s.lines :: LineShape(s.lines[tenant]))
    && (forall tenant, n: nat {:trigger SlotOk(s, tenant, n)} :: tenant in s.lines && n < |s.lines[tenant].slots| ==>
                                                                   SlotOk(s, tenant, n))
    && (forall id {:trigger JobOk(s, id)} :: id in s.jobs ==> JobOk(s, id))
  }

  /**
   Timelines just seeded anywhere, over a store that holds none of their jobs: every run of the service may start
   there.
   */
  lemma OpeningIsServed(partition: string, lo: int, hi: int, jobs: JobMap, bases: map<string, int>)
    requires lo <= hi && forall id <- jobs :: jobs[id].partition == partition ==> jobs[id].tenant !in bases
    ensures Inv(Shop(partition, lo, hi, jobs, map tenant <- bases :: Line(bases[tenant], [], [], 0)))
  {
    var s := Shop(partition, lo, hi, jobs, map tenant <- bases :: Line(bases[tenant], [], [], 0));
    forall id | id in s.jobs ensures JobOk(s, id) {}
  }

  predicate Backlogged(s: Shop, tenant: string) {
    tenant in s.lines && s.lines[tenant].served < |s.lines[tenant].slots|
    && |s.lines[tenant].slots| == |s.lines[tenant].strides|
  }

  lemma {:induction false} AdvanceIncreases(line: Line, m: nat, n: nat)
    requires LineShape(line) && m <= n <= |line.strides|
    ensures n - m <= Advance(line, n) - Advance(line, m)
  {
    if m < n {
      AdvanceIncreases(line, m, n - 1);
      assert line.strides[n - 1] >= 1;
    }
  }

  lemma AppendAdvance(line: Line, slot: Slot, n: nat)
    requires LineShape(line) && slot.cost >= 1 && slot.weight >= 1
    ensures LineShape(Append(line, slot))
    ensures n <= |line.strides| ==> Advance(Append(line, slot), n) == Advance(line, n)
    ensures Vtime(Append(line, slot)) == Vtime(line) + IdealStride(slot.cost, slot.weight)
  {
    var x := IdealStride(slot.cost, slot.weight);
    if n <= |line.strides| { SumToAppend(line.strides, x, n); }
    SumToAppend(line.strides, x, |line.strides|);
  }

  /** The head of a backlogged timeline is visible to every claim of the run. */
  lemma HeadVisible(s: Shop, tenant: string, now: int)
    requires Inv(s) && Backlogged(s, tenant) && s.lo <= now
    ensures s.lines[tenant].slots[s.lines[tenant].served].id in VisibleSet(s.jobs, s.partition, now)
  {
    assert SlotOk(s, tenant, s.lines[tenant].served);
  }

  /** A claim takes a described timeline's jobs in order: whichever of them it takes is the head. */
  lemma DispatchTakesHead(s: Shop, now: int, id: JobId)
    requires Inv(s) && s.lo <= now <= s.hi && Target(s.jobs, s.partition, now) == Some(id)
             && s.jobs[id].tenant in s.lines
    ensures Backlogged(s, s.jobs[id].tenant)
    ensures var line := s.lines[s.jobs[id].tenant]; line.slots[line.served].id == id
  {
    var tenant := s.jobs[id].tenant;
    var line := s.lines[tenant];
    assert id in VisibleSet(s.jobs, s.partition, now);
    assert JobOk(s, id);
    var n: nat :| n < |line.slots| && line.slots[n].id == id;
    assert SlotOk(s, tenant, n) && LineShape(line);
    if n > line.served {
      HeadVisible(s, tenant, now);
      assert SlotOk(s, tenant, line.served);
      AdvanceIncreases(line, line.served + 1, n + 1);
    }
  }

  lemma EnqueueKeepsInv(s: Shop, ev: Event)
    requires Inv(s) && Enabled(s, ev) && ev.Enqueue?
    ensures Inv(Step(s, ev))
  {
    var s' := Step(s, ev);
    var slot := Slot(ev.id, ev.cost, ev.weight);
    var line, line' := s.lines[ev.tenant], s'.lines[ev.tenant];
    AppendAdvance(line, slot, 0);
    forall tenant, n: nat | tenant in s'.lines && n < |s'.lines[tenant].slots| ensures SlotOk(s', tenant, n) {
      if tenant != ev.tenant || n < |line.slots| {
        assert SlotOk(s, tenant, n);
        if tenant == ev.tenant { AppendAdvance(line, slot, n + 1); }
      }
    }
    forall id | id in s'.jobs ensures JobOk(s', id) {
      if id == ev.id {
        assert line'.slots[|line.slots|].id == id;
      } else {
        assert JobOk(s, id);
        if s.jobs[id].partition == s.partition && s.jobs[id].tenant == ev.tenant {
          var n: nat :| n < |line.slots| && line.slots[n].id == id;
          assert line'.slots[n].id == id;
        }
      }
    }
  }

  lemma OutsiderKeepsInv(s: Shop, ev: Event)
    requires Inv(s) && Enabled(s, ev) && ev.Outsider?
    ensures Inv(Step(s, ev))
  {
    var s' := Step(s, ev);
    forall tenant, n: nat | tenant in s'.lines && n < |s'.lines[tenant].slots| ensures SlotOk(s', tenant, n) {
      assert SlotOk(s, tenant, n);
    }
    forall id | id in s'.jobs ensures JobOk(s', id) { if id != ev.id { assert JobOk(s, id); } }
  }

  /** What a dispatch does to the store: its target is fenced and hidden beyond the run. */
  lemma DispatchShape(s: Shop, ev: Event, id: JobId)
    requires Enabled(s, ev) && ev.Dispatch? && Target(s.jobs, s.partition, ev.now) == Some(id)
    ensures Step(s, ev).jobs == s.jobs[id := Update(s.jobs[id], ClaimOf(s, ev))]
    ensures Step(s, ev).lines == Serve(s.lines, s.jobs[id].tenant)
  {
  }

  lemma DispatchJobs(s: Shop, ev: Event)
    requires Enabled(s, ev) && ev.Dispatch?
    ensures Step(s, ev).jobs == StoreStep(s.jobs, ClaimOf(s, ev))
  {
  }

  lemma DispatchKeepsInv(s: Shop, ev: Event)
    requires Inv(s) && Enabled(s, ev) && ev.Dispatch?
    ensures Inv(Step(s, ev))
  {
    var target := Target(s.jobs, s.partition, ev.now);
    if target.Some? {
      var id := target.value;
      var s' := Step(s, ev);
      DispatchShape(s, ev, id);
      assert id in VisibleSet(s.jobs, s.partition, ev.now);
      if s.jobs[id].tenant in s.lines { DispatchTakesHead(s, ev.now, id); }
      forall tenant, n: nat | tenant in s'.lines && n < |s'.lines[tenant].slots| ensures SlotOk(s', tenant, n) {
        assert SlotOk(s, tenant, n);
        if s.lines[tenant].slots[n].id == id && n != s.lines[tenant].served {
          SlotsDistinct(s, tenant, n, s.lines[tenant].served);
        }
      }
      forall k | k in s'.jobs ensures JobOk(s', k) { assert JobOk(s, k); }
    }
  }

  lemma SlotsDistinct(s: Shop, tenant: string, m: nat, n: nat)
    requires Inv(s) && tenant in s.lines && m < |s.lines[tenant].slots| && n < |s.lines[tenant].slots| && m != n
    ensures s.lines[tenant].slots[m].id != s.lines[tenant].slots[n].id
  {
    assert SlotOk(s, tenant, m) && SlotOk(s, tenant, n);
    AdvanceIncreases(s.lines[tenant], if m < n then m + 1 else n + 1, if m < n then n + 1 else m + 1);
  }

  lemma CallKeepsInv(s: Shop, ev: Event)
    requires Inv(s) && Enabled(s, ev) && ev.Call?
    ensures Inv(Step(s, ev))
  {
    if ev.op.Claim? && Subject(s.jobs, ev.op).Some? {
      assert Subject(s.jobs, ev.op).value in VisibleSet(s.jobs, ev.op.partition, ev.op.now);
    }
    var s' := Step(s, ev);
    forall tenant, n: nat | tenant in s'.lines && n < |s'.lines[tenant].slots| ensures SlotOk(s', tenant, n) {
      assert SlotOk(s, tenant, n);
    }
    forall id | id in s'.jobs ensures JobOk(s', id) { assert JobOk(s, id); }
  }

  lemma StepKeepsInv(s: Shop, ev: Event)
    requires Inv(s)
    ensures Inv(Step(s, ev))
  {
    if Enabled(s, ev) {
      match ev
      case Enqueue(_, _, _, _, _) => EnqueueKeepsInv(s, ev);
      case Outsider(_, _) => OutsiderKeepsInv(s, ev);
      case Dispatch(_, _, _) => DispatchKeepsInv(s, ev);
      case Call(_) => CallKeepsInv(s, ev);
    }
  }

  lemma {:induction false} RunKeepsInv(s: Shop, evs: seq<Event>)
    requires Inv(s)
    ensures Inv(Run(s, evs))
    decreases |evs|
  {
    if evs != [] {
      StepKeepsInv(s, evs[0]);
      RunKeepsInv(Step(s, evs[0]), evs[1..]);
    }
  }

  /** Along a run a timeline only grows: slots are appended and the served count rises. */
  predicate Extends(line: Line, line': Line) {
    && line'.base == line.base && line.slots <= line'.slots && line.strides <= line'.strides
    && line.served <= line'.served
  }

  lemma StepExtends(s: Shop, ev: Event, tenant: string)
    requires Inv(s) && tenant in s.lines
    ensures tenant in Step(s, ev).lines && Extends(s.lines[tenant], Step(s, ev).lines[tenant])
    ensures Step(s, ev).partition == s.partition && Step(s, ev).lo == s.lo && Step(s, ev).hi == s.hi
  {
  }

  lemma {:induction false} RunExtends(s: Shop, evs: seq<Event>, tenant: string)
    requires Inv(s) && tenant in s.lines
    ensures tenant in Run(s, evs).lines && Extends(s.lines[tenant], Run(s, evs).lines[tenant])
    decreases |evs|
  {
    if evs != [] {
      StepKeepsInv(s, evs[0]);
      StepExtends(s, evs[0], tenant);
      RunExtends(Step(s, evs[0]), evs[1..], tenant);
    }
  }

  lemma {:induction false} ExtendsAdvance(line: Line, line': Line, n: nat)
    requires Extends(line, line') && n <= |line.strides|
    ensures Advance(line', n) == Advance(line, n)
  {
    if n > 0 {
      ExtendsAdvance(line, line', n - 1);
      assert line'.strides[n - 1] == line.strides[n - 1];
    }
  }
}
