/**
 What any sequence of cache operations keeps, over the two maps that the cache's
 methods are proved to compute: idle entries go, used ones re-seed.
 */
module CacheLaws {
  import opened Wrappers
  import opened VTime
  import opened Cell
  import opened VtimeCache

  /** The two maps, and the timelines with a reservation outstanding. */
  datatype Cached = Cached(m: Maps, locked: set<Timeline>)

  datatype Op =
    | Reserve(key: Timeline, cost: int64, weight: int64, race: seq<bool>, frontier: Hook<Option<int64>>,
              edge: Hook<int64>)
    | Commit(key: Timeline, vstamp: int64)
    | Abort(key: Timeline)
    | Refresh(partition: string, frontier: Hook<Option<int64>>)
    | InvalidateAndEvict

  ghost predicate Proper(op: Op) {
    op.Reserve? ==> op.cost >= 1 && op.weight >= 1
  }

  /** Cells hold machine clocks, and a locked entry is a cached one. */
  ghost predicate Sound(c: Cached) {
    && c.locked <= c.m.cells.Keys
    && forall k <- c.m.cells :: MIN_INT64 <= c.m.cells[k].vtime <= MAX_INT64
  }

  /** A second reserve of a locked timeline waits; a commit or abort needs its reservation. */
  ghost predicate Ready(c: Cached, op: Op) {
    match op
    case Reserve(key, _, _, _, _, _) => key !in c.locked
    case Commit(key, _) => key in c.locked
    case Abort(key) => key in c.locked
    case _ => true
  }

  lemma {:induction false} RelockedCell(m: Maps, locked: set<Timeline>, key: Timeline, race: seq<bool>, k: Timeline)
    requires Sound(Cached(m, locked))
    ensures var r := Relocked(m, locked, key, race);
            && Sound(Cached(r, locked))
            && (k in r.cells ==> Came(m, r, k, key))
    decreases |race|
  {
    var found := Found(m, key);
    if race != [] && race[0] {
      var walked := WalkedMaps(found, locked);
      assert forall x <- walked.cells :: walked.cells[x] == Marked(found.cells[x]);
      if key !in walked.cells { RelockedCell(walked, locked, key, race[1..], k); }
    }
  }

  /**
   A cell after a lookup that walks may have raced is the old one, the old one marked, or, for the key alone, a
   new one.
   */
  ghost predicate Came(m: Maps, r: Maps, k: Timeline, key: Timeline)
    requires k in r.cells
  {
    var unused := Cell(0, false, false, false, false, false);
    || (k in m.cells && (r.cells[k] == m.cells[k] || r.cells[k] == m.cells[k].(touched := false, stale := true)))
    || (k == key && (r.cells[k] == unused || r.cells[k] == unused.(stale := true)))
  }

  /** What a reserve answers: its stamp, or its error. */
  ghost function Issued(c: Cached, op: Op): Result<int64, Error>
    requires Sound(c) && Proper(op) && op.Reserve?
  {
    RelockedCell(c.m, c.locked, op.key, op.race, op.key);
    Candidate(Relocked(c.m, c.locked, op.key, op.race).cells[op.key],
              ReservedMaps(c.m, c.locked, op.key, op.race, op.frontier, op.edge).cells[op.key],
              op.frontier, op.edge, op.cost, op.weight)
  }

  ghost function Step(c: Cached, op: Op): Cached
    requires Sound(c) && Proper(op)
  {
    if !Ready(c, op) then c
    else match op
         case Reserve(key, _, _, race, frontier, edge) =>
           Cached(ReservedMaps(c.m, c.locked, key, race, frontier, edge),
                  if Issued(c, op).Ok? then c.locked + {key} else c.locked)
         case Commit(key, vstamp) => Cached(c.m.(cells := c.m.cells[key := c.m.cells[key].(vtime := vstamp)]),
                                            c.locked - {key})
         case Abort(key) => Cached(c.m, c.locked - {key})
         case Refresh(partition, frontier) => Cached(c.m.(lwm := Refreshed(c.m.lwm, partition, frontier)), c.locked)
         case InvalidateAndEvict => Cached(WalkedMaps(c.m, c.locked), c.locked)
  }

  lemma StepKeepsSound(c: Cached, op: Op)
    requires Sound(c) && Proper(op)
    ensures Sound(Step(c, op))
  {
    if op.Reserve? && Ready(c, op) {
      RelockedCell(c.m, c.locked, op.key, op.race, op.key);
    }
  }

  ghost function Run(c: Cached, ops: seq<Op>): (r: Cached)
    requires Sound(c) && forall i :: 0 <= i < |ops| ==> Proper(ops[i])
    ensures Sound(r)
    decreases |ops|
  {
    if ops == [] then c
    else
      StepKeepsSound(c, ops[0]);
      Run(Step(c, ops[0]), ops[1..])
  }

  ghost predicate Reserves(ops: seq<Op>, key: Timeline) {
    exists i :: 0 <= i < |ops| && ops[i].Reserve? && ops[i].key == key
  }

  // ----- what holds of a timeline that no operation reserves -----

  /** Left alone since a walk: not marked as used, and not about to stamp from its old clock. */
  ghost predicate Idle(c: Cached, key: Timeline) {
    key in c.m.cells ==> !c.m.cells[key].touched && (c.m.cells[key].stale || !c.m.cells[key].seeded)
  }

  lemma WalkLeavesIdle(c: Cached, key: Timeline)
    requires Sound(c)
    ensures Idle(Step(c, InvalidateAndEvict), key)
  {
  }

  lemma StepKeepsIdle(c: Cached, op: Op, key: Timeline)
    requires Sound(c) && Proper(op) && Idle(c, key) && !(op.Reserve? && op.key == key)
    ensures Idle(Step(c, op), key)
    ensures key in Step(c, op).m.cells ==> key in c.m.cells
  {
    if op.Reserve? && Ready(c, op) {
      RelockedCell(c.m, c.locked, op.key, op.race, key);
      RelockedCell(c.m, c.locked, op.key, op.race, op.key);
    }
  }

  lemma {:induction false} RunKeepsIdle(c: Cached, ops: seq<Op>, key: Timeline)
    requires Sound(c) && (forall i :: 0 <= i < |ops| ==> Proper(ops[i])) && Idle(c, key) && !Reserves(ops, key)
    ensures Idle(Run(c, ops), key)
    ensures key in Run(c, ops).m.cells ==> key in c.m.cells
    decreases |ops|
  {
    if ops != [] {
      assert !(ops[0].Reserve? && ops[0].key == key);
      StepKeepsSound(c, ops[0]);
      StepKeepsIdle(c, ops[0], key);
      RunKeepsIdle(Step(c, ops[0]), ops[1..], key);
    }
  }

  /**
   A timeline that nobody reserves between two walks is gone after the second,
   unless a reservation made before the first is still outstanding; whatever
   other operations, walks and races run in between.
   */
  lemma TwoWalksEvictTheIdle(c: Cached, ops: seq<Op>, key: Timeline)
    requires Sound(c) && (forall i :: 0 <= i < |ops| ==> Proper(ops[i])) && !Reserves(ops, key)
    ensures Sound(Step(c, InvalidateAndEvict))
    ensures var mid := Run(Step(c, InvalidateAndEvict), ops);
            key in Step(mid, InvalidateAndEvict).m.cells <==> key in mid.m.cells && key in mid.locked
  {
    StepKeepsSound(c, InvalidateAndEvict);
    WalkLeavesIdle(c, key);
    RunKeepsIdle(Step(c, InvalidateAndEvict), ops, key);
  }

  /** A reserve, successful or not, keeps its timeline through the next walk, however walks raced it. */
  lemma ReservedSurvivesNextWalk(c: Cached, op: Op)
    requires Sound(c) && Proper(op) && op.Reserve? && Ready(c, op)
    ensures Sound(Step(c, op))
    ensures var after := Step(Step(c, op), InvalidateAndEvict).m;
            op.key in after.cells && after.cells[op.key] == Marked(Step(c, op).m.cells[op.key])
  {
    RelockedCell(c.m, c.locked, op.key, op.race, op.key);
    StepKeepsSound(c, op);
  }

  /**
   After a walk, whatever runs until then, a timeline's first reserve stamps from
   a new seed: its clock is the larger of the trailing edge just read and the
   stored low-water mark, which the seed refreshes itself when the entry is new.
   */
  lemma FirstReserveAfterWalkSeeds(c: Cached, ops: seq<Op>, op: Op)
    requires Sound(c) && (forall i :: 0 <= i < |ops| ==> Proper(ops[i])) && Proper(op)
    requires op.Reserve? && !Reserves(ops, op.key)
    ensures Sound(Step(c, InvalidateAndEvict))
    ensures var mid := Run(Step(c, InvalidateAndEvict), ops);
            var after := Step(mid, op);
            Ready(mid, op) && op.key in after.locked ==>
              && op.edge.Returns?
              && after.m.cells[op.key].vtime == Max(op.edge.value, Floor(after.m.lwm, op.key.partition))
              && (op.key !in mid.m.cells ==>
                    && op.frontier.Returns?
                    && (op.frontier.value.Some? ==> Floor(after.m.lwm, op.key.partition) == op.frontier.value.value))
  {
    StepKeepsSound(c, InvalidateAndEvict);
    WalkLeavesIdle(c, op.key);
    var mid := Run(Step(c, InvalidateAndEvict), ops);
    RunKeepsIdle(Step(c, InvalidateAndEvict), ops, op.key);
    RelockedCell(mid.m, mid.locked, op.key, op.race, op.key);
  }

  /** After any walk the low-water marks belong to cached partitions, and none of a cached partition is lost. */
  lemma WalkPrunesExactly(c: Cached, partition: string)
    requires Sound(c)
    ensures var after := Step(c, InvalidateAndEvict).m;
            && (partition in after.lwm <==> partition in c.m.lwm && exists k <- after.cells :: k.partition == partition)
            && (partition in after.lwm ==> after.lwm[partition] == c.m.lwm[partition])
  {
  }

  // ----- what a reserve reads and what it spares -----

  /** The stored low-water mark; none counts as 0. */
  function Floor(lwm: map<string, int64>, partition: string): int64 {
    if partition in lwm then lwm[partition] else 0
  }

  /** No walk slips into the reserve. */
  predicate Unraced(op: Op) {
    op.Reserve? ==> forall i :: 0 <= i < |op.race| ==> !op.race[i]
  }

  /** The checked stamp: exact when the scaled cost and the sum fit an int64, and an overflow otherwise. */
  ghost predicate StampedFrom(issued: Result<int64, Error>, clock: int, cost: int64, weight: int64)
    requires cost >= 1 && weight >= 1
  {
    var stamp := clock + IdealStride(cost, weight);
    if cost * SCALE <= MAX_INT64 && stamp <= MAX_INT64 then issued == Ok(stamp) else issued == Err(ErrVTimeOverflow)
  }

  /** The entry a reserve finds, and whether its clock may be stamped from as it is. */
  function FoundCell(c: Cached, key: Timeline): Cell {
    if key in c.m.cells then c.m.cells[key] else Cell(0, false, false, false, false, false)
  }

  predicate InUse(cell: Cell) {
    cell.seeded && !cell.stale
  }

  /**
   A reserve no walk races, told from what it finds. A clock in use is stamped from without a look at either hook. A
   timeline seeded before reads its trailing edge only; a new one computes the frontier first. Whatever it reads it
   needs, and it needs nothing else.
   */
  lemma ReserveReads(c: Cached, op: Op)
    requires Sound(c) && Proper(op) && op.Reserve? && Ready(c, op) && Unraced(op)
    ensures var cell, after := FoundCell(c, op.key), Step(c, op);
            var cold := !InUse(cell) && !cell.everSeeded;
            var served := InUse(cell) || (op.edge.Returns? && (cold ==> op.frontier.Returns?));
            && after.m.lwm == (if cold && op.frontier.Returns? && op.frontier.value.Some?
                               then c.m.lwm[op.key.partition := op.frontier.value.value] else c.m.lwm)
            && var clock := if InUse(cell)
                               || !served then cell.vtime else Max(op.edge.value, Floor(after.m.lwm, op.key.partition));
            var everSeeded := cell.everSeeded || (served && !InUse(cell));
            && after.m.cells == c.m.cells[op.key := Cell(clock, served, everSeeded, cell.evicted, true, false)]
            && (served ==> StampedFrom(Issued(c, op), clock, op.cost, op.weight))
            && (!served ==> Issued(c, op) == Err(ErrDriver))
            && after.locked == if Issued(c, op).Ok? then c.locked + {op.key} else c.locked
  {
    var found := Relocked(c.m, c.locked, op.key, op.race);
    assert found == Found(c.m, op.key);
  }

  /** The timeline's clock is in use and stands at v. */
  ghost predicate StandsAt(c: Cached, key: Timeline, v: int) {
    key in c.m.cells && InUse(c.m.cells[key]) && c.m.cells[key].vtime == v
  }

  /** No walk, alone or inside a reserve, and no commit on the timeline. */
  ghost predicate Undisturbed(ops: seq<Op>, key: Timeline) {
    forall i :: 0 <= i < |ops| ==> Spares(ops[i], key)
  }

  ghost predicate Spares(op: Op, key: Timeline) {
    Proper(op) && Unraced(op) && !op.InvalidateAndEvict? && !(op.Commit? && op.key == key)
  }

  lemma StepStands(c: Cached, op: Op, key: Timeline, v: int)
    requires Sound(c) && StandsAt(c, key, v) && Spares(op, key)
    ensures StandsAt(Step(c, op), key, v)
  {
    if op.Reserve? && Ready(c, op) { ReserveReads(c, op); }
  }

  lemma {:induction false} RunStands(c: Cached, ops: seq<Op>, key: Timeline, v: int)
    requires Sound(c) && StandsAt(c, key, v) && Undisturbed(ops, key)
    ensures StandsAt(Run(c, ops), key, v)
    decreases |ops|
  {
    if ops != [] {
      assert Spares(ops[0], key);
      StepKeepsSound(c, ops[0]);
      StepStands(c, ops[0], key, v);
      RunStands(Step(c, ops[0]), ops[1..], key, v);
    }
  }

  /** What a committed reserve leaves: its timeline's clock, at its stamp. */
  ghost function Committed(c: Cached, op: Op): (r: Cached)
    requires Sound(c) && Proper(op) && op.Reserve? && Ready(c, op) && Issued(c, op).Ok?
    ensures Sound(r) && StandsAt(r, op.key, Issued(c, op).value)
  {
    var commit := Commit(op.key, Issued(c, op).value);
    StepKeepsSound(c, op);
    StepKeepsSound(Step(c, op), commit);
    RelockedCell(c.m, c.locked, op.key, op.race, op.key);
    Step(Step(c, op), commit)
  }

  /**
   Between walks stamps chain. After a reserve that was stamped v and committed, and whatever reserves, aborts,
   refreshes and other timelines' commits follow it, the timeline's next reserve is stamped one stride above v, or
   overflows; what the hooks would have answered makes no difference, and no low-water mark changes.
   */
  lemma NextStampChains(c: Cached, first: Op, ops: seq<Op>, op: Op)
    requires Sound(c) && Proper(first) && first.Reserve? && Ready(c, first) && Issued(c, first).Ok?
    requires Undisturbed(ops, first.key)
    requires op.Reserve? && op.key == first.key && Proper(op) && Unraced(op)
    ensures var mid := Run(Committed(c, first), ops);
            Ready(mid, op) ==>
              StampedFrom(Issued(mid, op), Issued(c, first).value, op.cost, op.weight)
              && Step(mid, op).m.lwm == mid.m.lwm
  {
    var mid := Run(Committed(c, first), ops);
    RunStands(Committed(c, first), ops, first.key, Issued(c, first).value);
    if Ready(mid, op) { ReserveReads(mid, op); }
  }
}
