/**
 Whole runs of the store: inserts, claims, fenced updates, cancels and deletions
 in any order, at server times in any order. `World` adds to the stored jobs the
 history the safety properties speak of: one `Record` per insert ever made, and
 the claim ids minted so far. A call that is rejected leaves the world unchanged.
 */
module Leases {
  import opened Wrappers
  import opened VTime
  import opened Duration
  import opened Jobs
  import opened Calls

  /**
   A write of a record's visibility: a claim's or a heartbeat's, which hold it, or a release's, which hands it
   back.
   */
  datatype LeaseWrite = LeaseWrite(at: int, duration: int64, held: bool)

  datatype Outcome = Outcome(resolution: string, at: int)

  /** The life of one inserted record, followed across reuse of its id. */
  datatype Record = Record(
    id: JobId,
    tenant: string,
    partition: string,
    cost: int,
    vstamp: int,
    visibleAt: int,           // the visibility it was inserted with
    claims: nat,              // claims applied to the record
    terminals: seq<Outcome>,  // terminal writes applied to the record, in order
    deleted: bool,
    lease: Option<LeaseWrite>, // the last write of its visibility
    latest: ClaimId)          // the claim id of the last applied claim

  datatype World = World(
    jobs: JobMap,
    records: seq<Record>,
    current: map<JobId, nat>, // the record now stored under an id
    minted: set<ClaimId>)

  datatype Event =
    | Insert(id: JobId, tenant: string, partition: string, cost: int, vstamp: int, visibleAt: int)
    | Store(op: StoreEvent)

  const EMPTY := World(map[], [], map[], {})

  /** A claim mints a fresh non-empty id; every other fenced call presents an id some claim minted. */
  ghost predicate Allowed(w: World, e: Event) {
    match e
    case Insert(id, _, _, _, _, _) => id != ""
    case Store(op) =>
      match op
      case Claim(_, _, _, c) => c != "" && c !in w.minted
      case Heartbeat(_, c, _, _) => c in w.minted
      case Release(_, c, _, _) => c in w.minted
      case Complete(_, c, _, _) => c in w.minted
      case Cancel(_, _) => true
      case Expire(_) => true
  }

  /** How a successful call is entered in the history of the record it hit. */
  function Note(r: Record, op: StoreEvent): Record {
    match op
    case Claim(_, now, lease, c) =>
      r.(claims := r.claims + 1, lease := Some(LeaseWrite(now, lease, true)), latest := c)
    case Heartbeat(_, _, now, extend) => r.(lease := Some(LeaseWrite(now, extend, true)))
    case Release(_, _, now, delay) => r.(lease := Some(LeaseWrite(now, delay, false)))
    case Complete(_, _, now, res) => r.(terminals := r.terminals + [Outcome(res, now)])
    case Cancel(_, now) => r.(terminals := r.terminals + [Outcome(CANCELED, now)])
    case Expire(_) => r.(deleted := true)
  }

  ghost function Mint(w: World, op: StoreEvent): set<ClaimId> {
    if op.Claim? then w.minted + {op.claimId} else w.minted
  }

  ghost function Step(w: World, e: Event): World {
    if !Allowed(w, e) then w
    else match e
         case Insert(id, tenant, partition, cost, vstamp, visibleAt) =>
           if id in w.jobs then w
           else World(
                  w.jobs[id := NewJob(tenant, partition, cost, vstamp, visibleAt)],
                  w.records + [Record(id, tenant, partition, cost, vstamp, visibleAt, 0, [], false, None, "")],
                  w.current[id := |w.records|],
                  w.minted)
         case Store(op) =>
           match Subject(w.jobs, op)
           case None => w.(minted := Mint(w, op))
           case Some(id) => if Tracked(w, id) then Hit(w, op, id) else w
  }

  ghost predicate Tracked(w: World, id: JobId) {
    id in w.current && w.current[id] < |w.records|
  }

  /** A call that succeeds on the record stored under id. */
  ghost function Hit(w: World, op: StoreEvent, id: JobId): World
    requires Tracked(w, id)
  {
    World(
      StoreStep(w.jobs, op),
      w.records[w.current[id] := Note(w.records[w.current[id]], op)],
      if op.Expire? then w.current - {id} else w.current,
      Mint(w, op))
  }

  ghost function Run(w: World, events: seq<Event>): World
    decreases |events|
  {
    if events == [] then w else Run(Step(w, events[0]), events[1..])
  }

  /** The call hits record n. */
  ghost predicate Succeeds(w: World, op: StoreEvent, n: nat) {
    && Allowed(w, Store(op))
    && Subject(w.jobs, op).Some?
    && Subject(w.jobs, op).value in w.current
    && w.current[Subject(w.jobs, op).value] == n
  }

  // ----- the invariant -----

  /** A stored job agrees with the history of the record it is. */
  ghost predicate Agrees(minted: set<ClaimId>, id: JobId, j: Job, r: Record) {
    && r.id == id && r.tenant == j.tenant && r.partition == j.partition && r.cost == j.cost && r.vstamp == j.vstamp
    && j.attempts == r.claims && !r.deleted
    && (j.liveness == Pending ==> r.terminals == [] && j.resolution == "" && j.resolvedAt == None)
    && (j.liveness == Resolved ==>
          |r.terminals| == 1 && j.resolution != "" && j.resolution == r.terminals[0].resolution
          && j.resolvedAt == Some(r.terminals[0].at))
    && (j.claimId != "" <==> r.lease.Some? && r.lease.value.held)
    && (j.claimId != "" ==> j.claimId == r.latest && j.claimId in minted)
    && (r.lease.None? ==> j.visibleAt == r.visibleAt)
    && (r.lease.Some? ==>
          && (if r.lease.value.held then r.lease.value.duration > 0 else r.lease.value.duration >= 0)
          && j.visibleAt == r.lease.value.at + DurationMillis(r.lease.value.duration))
  }

  ghost predicate Fits(w: World, id: JobId) {
    && Tracked(w, id) && id in w.jobs
    && Agrees(w.minted, id, w.jobs[id], w.records[w.current[id]])
  }

  /** Every record ever inserted is stored now, or was resolved once and then deleted. */
  ghost predicate Settled(w: World, n: nat)
    requires n < |w.records|
  {
    Closed(w.records[n]) || IsCurrent(w, n)
  }

  ghost predicate Inv(w: World) {
    && "" !in w.minted
    && w.current.Keys == w.jobs.Keys
    && (forall id {:trigger Fits(w, id)} :: id in w.jobs ==> Fits(w, id))
    && (forall n: nat {:trigger Settled(w, n)} :: n < |w.records| ==> Settled(w, n))
  }

  /** A record that has left the store: resolved once, then deleted. */
  ghost predicate Closed(r: Record) {
    r.deleted && |r.terminals| == 1
  }

  ghost predicate IsCurrent(w: World, n: nat)
    requires n < |w.records|
  {
    w.records[n].id in w.current && w.current[w.records[n].id] == n
  }

  lemma InsertKeepsInv(w: World, e: Event)
    requires Inv(w) && e.Insert? && Allowed(w, e) && e.id !in w.jobs
    ensures Inv(Step(w, e))
  {
    var w' := Step(w, e);
    var m := |w.records|;
    forall n: nat | n < |w'.records| ensures Settled(w', n) {
      if n < m {
        assert Settled(w, n) && w'.records[n] == w.records[n];
        if IsCurrent(w, n) { assert w.records[n].id != e.id; }
      }
    }
    forall id | id in w'.jobs ensures Fits(w', id) {
      if id != e.id { assert Fits(w, id); }
    }
  }

  /** The record hit: history and stored fields move together. */
  lemma NoteAgrees(minted: set<ClaimId>, minted': set<ClaimId>, id: JobId, j: Job, r: Record, op: StoreEvent)
    requires Agrees(minted, id, j, r) && !op.Expire?
    requires minted' == if op.Claim? then minted + {op.claimId} else minted
    requires op.Claim? ==> op.claimId != "" && op.lease > 0
    requires op.Heartbeat? || op.Release? || op.Complete? ==> j.claimId == op.claimId && op.claimId != ""
    requires op.Heartbeat? ==> op.extend > 0
    requires op.Release? ==> op.delay >= 0
    requires op.Complete? ==> op.resolution != ""
    requires j.liveness == Pending
    ensures Agrees(minted', id, Update(j, op), Note(r, op))
  {
  }

  lemma HitKeepsInv(w: World, op: StoreEvent, id: JobId)
    requires Inv(w) && Allowed(w, Store(op)) && Subject(w.jobs, op) == Some(id)
    ensures Tracked(w, id) && Inv(Hit(w, op, id))
  {
    assert Fits(w, id);
    var w' := Hit(w, op, id);
    var m := w.current[id];
    if op.Claim? { assert id in VisibleSet(w.jobs, op.partition, op.now); }
    if !op.Expire? { NoteAgrees(w.minted, w'.minted, id, w.jobs[id], w.records[m], op); }
    forall k | k in w'.jobs ensures Fits(w', k) {
      if k != id {
        assert Fits(w, k);
        assert w'.current[k] == w.current[k] != m && w'.jobs[k] == w.jobs[k];
      }
    }
    forall n: nat | n < |w'.records| ensures Settled(w', n) {
      assert Settled(w, n);
      if n != m {
        assert w'.records[n] == w.records[n];
        if IsCurrent(w, n) { assert w.records[n].id != id; }
      }
    }
  }

  lemma MintKeepsInv(w: World, c: ClaimId)
    requires Inv(w) && c != ""
    ensures Inv(w.(minted := w.minted + {c}))
  {
    var w' := w.(minted := w.minted + {c});
    forall id | id in w'.jobs ensures Fits(w', id) { assert Fits(w, id); }
    forall n: nat | n < |w'.records| ensures Settled(w', n) { assert Settled(w, n); }
  }

  lemma StepKeepsInv(w: World, e: Event)
    requires Inv(w)
    ensures Inv(Step(w, e))
  {
    if Allowed(w, e) {
      match e
      case Insert(id, _, _, _, _, _) =>
        if id !in w.jobs { InsertKeepsInv(w, e); }
      case Store(op) =>
        if Subject(w.jobs, op).Some? {
          HitKeepsInv(w, op, Subject(w.jobs, op).value);
        } else if op.Claim? {
          MintKeepsInv(w, op.claimId);
        }
    }
  }

  lemma {:induction false} RunKeepsInv(w: World, events: seq<Event>)
    requires Inv(w)
    ensures Inv(Run(w, events))
    decreases |events|
  {
    if events != [] {
      StepKeepsInv(w, events[0]);
      RunKeepsInv(Step(w, events[0]), events[1..]);
    }
  }

  // ----- fencing -----

  lemma RevokedStep(w: World, e: Event, id: JobId, c: ClaimId)
    requires "" !in w.minted && c in w.minted && !Holds(w.jobs, id, c)
    ensures var w' := Step(w, e); "" !in w'.minted && c in w'.minted && !Holds(w'.jobs, id, c)
  {
  }

  /**
   Revocation is permanent. Once a minted claim no longer matches its record,
   no continuation makes it match again: not a release, a reclaim, a deletion
   or an insert that reuses the id.
   */
  lemma {:induction false} RevokedForever(w: World, events: seq<Event>, id: JobId, c: ClaimId)
    requires Inv(w) && c in w.minted && !Holds(w.jobs, id, c)
    ensures !Holds(Run(w, events).jobs, id, c)
    decreases |events|
  {
    if events != [] {
      RevokedStep(w, events[0], id, c);
      StepKeepsInv(w, events[0]);
      RevokedForever(Step(w, events[0]), events[1..], id, c);
    }
  }

  /** In every reachable world at most one claim can still write a record, and it is the latest one applied to it. */
  lemma OnlyLatestClaimHolds(events: seq<Event>, id: JobId, c: ClaimId)
    requires Holds(Run(EMPTY, events).jobs, id, c) && c != ""
    ensures var w := Run(EMPTY, events);
            && id in w.current && w.current[id] < |w.records|
            && w.records[w.current[id]].latest == c
            && forall d :: d != c ==> !Holds(w.jobs, id, d)
  {
    RunKeepsInv(EMPTY, events);
    assert Fits(Run(EMPTY, events), id);
  }

  /**
   The calls that end a claim do end it: after a reclaim, release, complete, cancel or deletion the old claim is
   dead.
   */
  lemma EndsTheClaim(w: World, op: StoreEvent, id: JobId, c: ClaimId)
    requires Inv(w) && Holds(w.jobs, id, c) && c in w.minted
    requires Allowed(w, Store(op)) && Subject(w.jobs, op) == Some(id) && !op.Heartbeat?
    ensures !Holds(Step(w, Store(op)).jobs, id, c)
  {
    assert Fits(w, id);
  }

  // ----- resolution and conservation -----

  ghost predicate TerminalHit(w: World, e: Event, n: nat) {
    e.Store? && (e.op.Complete? || e.op.Cancel?) && Succeeds(w, e.op, n)
  }

  ghost predicate ClaimHit(w: World, e: Event, n: nat) {
    e.Store? && e.op.Claim? && Succeeds(w, e.op, n)
  }

  /** Terminal writes a run applies to record n, counted from the events alone. */
  ghost function TerminalWins(w: World, events: seq<Event>, n: nat): nat
    decreases |events|
  {
    if events == [] then 0
    else (if TerminalHit(w, events[0], n) then 1 else 0) + TerminalWins(Step(w, events[0]), events[1..], n)
  }

  ghost function ClaimWins(w: World, events: seq<Event>, n: nat): nat
    decreases |events|
  {
    if events == [] then 0
    else (if ClaimHit(w, events[0], n) then 1 else 0) + ClaimWins(Step(w, events[0]), events[1..], n)
  }

  ghost function TerminalsOf(w: World, n: nat): nat {
    if n < |w.records| then |w.records[n].terminals| else 0
  }

  ghost function ClaimsOf(w: World, n: nat): nat {
    if n < |w.records| then w.records[n].claims else 0
  }

  lemma StepRecordsWins(w: World, e: Event, n: nat)
    requires Inv(w)
    ensures TerminalsOf(Step(w, e), n) == TerminalsOf(w, n) + (if TerminalHit(w, e, n) then 1 else 0)
    ensures ClaimsOf(Step(w, e), n) == ClaimsOf(w, n) + (if ClaimHit(w, e, n) then 1 else 0)
    ensures LeaseOf(Step(w, e), n) == NextLease(w, e, n, LeaseOf(w, n))
    ensures n < |w.records| ==> n < |Step(w, e).records| && Extends(w.records[n], Step(w, e).records[n])
  {
    if e.Store? && Allowed(w, e) && Subject(w.jobs, e.op).Some? {
      var id := Subject(w.jobs, e.op).value;
      assert Fits(w, id);
      if n < |w.records| {
        assert Step(w, e).records[n] == if n == w.current[id] then Note(w.records[n], e.op) else w.records[n];
      }
    }
  }

  /** What the life of a record keeps: its identity, its stamp, and every terminal write already made. */
  ghost predicate Extends(r: Record, r': Record) {
    && r'.id == r.id && r'.tenant == r.tenant && r'.partition == r.partition
    && r'.cost == r.cost && r'.vstamp == r.vstamp && r'.visibleAt == r.visibleAt
    && r.terminals <= r'.terminals && (r.deleted ==> r'.deleted)
  }

  lemma {:induction false} WinsAreRecorded(w: World, events: seq<Event>, n: nat)
    requires Inv(w)
    ensures TerminalsOf(Run(w, events), n) == TerminalsOf(w, n) + TerminalWins(w, events, n)
    ensures ClaimsOf(Run(w, events), n) == ClaimsOf(w, n) + ClaimWins(w, events, n)
    decreases |events|
  {
    if events != [] {
      StepKeepsInv(w, events[0]);
      StepRecordsWins(w, events[0], n);
      WinsAreRecorded(Step(w, events[0]), events[1..], n);
    }
  }

  /**
   Single resolution. Over any run, of all the Complete and Cancel calls aimed
   at one inserted record at most one succeeds, and one has succeeded exactly
   when the record is no longer pending in the store.
   */
  lemma SingleResolution(events: seq<Event>, n: nat)
    requires n < |Run(EMPTY, events).records|
    ensures var w := Run(EMPTY, events);
            && TerminalWins(EMPTY, events, n) <= 1
            && (TerminalWins(EMPTY, events, n) == 0 <==>
                IsCurrent(w, n) && w.records[n].id in w.jobs && w.jobs[w.records[n].id].liveness == Pending)
  {
    RunKeepsInv(EMPTY, events);
    WinsAreRecorded(EMPTY, events, n);
    var w := Run(EMPTY, events);
    assert Settled(w, n);
    if IsCurrent(w, n) {
      assert Fits(w, w.records[n].id);
    }
  }

  /**
   In every reachable world a stored job's attempts are the claims applied to it, and its three resolution fields
   move together.
   */
  lemma StoredFieldsCoincide(events: seq<Event>, id: JobId)
    requires id in Run(EMPTY, events).jobs
    ensures var w := Run(EMPTY, events);
            var j := w.jobs[id];
            && id in w.current
            && j.attempts == ClaimWins(EMPTY, events, w.current[id])
            && (j.liveness == Resolved <==> j.resolution != "")
            && (j.liveness == Resolved <==> j.resolvedAt.Some?)
  {
    RunKeepsInv(EMPTY, events);
    var w := Run(EMPTY, events);
    WinsAreRecorded(EMPTY, events, w.current[id]);
    assert Fits(w, id);
  }

  lemma {:induction false} RecordsPersist(w: World, events: seq<Event>, n: nat)
    requires Inv(w) && n < |w.records|
    ensures n < |Run(w, events).records| && Extends(w.records[n], Run(w, events).records[n])
    decreases |events|
  {
    if events != [] {
      StepKeepsInv(w, events[0]);
      StepRecordsWins(w, events[0], n);
      RecordsPersist(Step(w, events[0]), events[1..], n);
    }
  }

  /**
   While the same record is stored, its identity and stamp never change, and
   once it is resolved nothing a worker or canceller does alters how it ended.
   */
  lemma RecordIsImmutable(w: World, events: seq<Event>, id: JobId)
    requires Inv(w) && id in w.jobs
    requires id in Run(w, events).jobs && id in Run(w, events).current && Run(w, events).current[id] == w.current[id]
    ensures var j, j' := w.jobs[id], Run(w, events).jobs[id];
            && j'.tenant == j.tenant && j'.partition == j.partition && j'.cost == j.cost && j'.vstamp == j.vstamp
            && (j.liveness == Resolved ==>
                  j'.liveness == Resolved && j'.resolution == j.resolution && j'.resolvedAt == j.resolvedAt)
  {
    RunKeepsInv(w, events);
    assert Fits(w, id);
    var n := w.current[id];
    RecordsPersist(w, events, n);
    var w' := Run(w, events);
    assert Fits(w, id);
    assert Fits(w', id);
  }

  ghost function PendingIds(w: World): set<JobId> {
    set id <- w.jobs | w.jobs[id].liveness == Pending
  }

  ghost function ResolvedIds(w: World): set<JobId> {
    set id <- w.jobs | w.jobs[id].liveness == Resolved
  }

  ghost function DeletedRecords(w: World, upTo: nat): nat
    requires upTo <= |w.records|
  {
    if upTo == 0 then 0 else DeletedRecords(w, upTo - 1) + (if w.records[upTo - 1].deleted then 1 else 0)
  }

  ghost function StoredBelow(w: World, upTo: nat): set<JobId>
    requires w.jobs.Keys == w.current.Keys
  {
    set id <- w.jobs | w.current[id] < upTo
  }

  lemma StoredBelowGrows(w: World, n: nat)
    requires Inv(w) && n < |w.records|
    ensures w.records[n].deleted <==> !IsCurrent(w, n)
    ensures IsCurrent(w, n) ==>
              w.records[n].id !in StoredBelow(w, n) && StoredBelow(w, n + 1) == StoredBelow(w, n) + {w.records[n].id}
    ensures !IsCurrent(w, n) ==> StoredBelow(w, n + 1) == StoredBelow(w, n)
  {
    var r := w.records[n];
    assert Settled(w, n);
    assert forall id <- w.jobs :: Fits(w, id);
    assert forall id <- w.jobs :: w.current[id] == n ==> id == r.id;
  }

  lemma {:induction false} CountRecords(w: World, upTo: nat)
    requires Inv(w) && upTo <= |w.records|
    ensures upTo == |StoredBelow(w, upTo)| + DeletedRecords(w, upTo)
  {
    if upTo == 0 {
      assert StoredBelow(w, upTo) == {};
    } else {
      CountRecords(w, upTo - 1);
      StoredBelowGrows(w, upTo - 1);
    }
  }

  /**
   Conservation: every insert is accounted for as pending, resolved or deleted; nothing is lost and nothing
   appears.
   */
  lemma Conservation(events: seq<Event>)
    ensures var w := Run(EMPTY, events);
            |w.records| == |PendingIds(w)| + |ResolvedIds(w)| + DeletedRecords(w, |w.records|)
  {
    RunKeepsInv(EMPTY, events);
    var w := Run(EMPTY, events);
    CountRecords(w, |w.records|);
    StoredByLiveness(w);
  }

  lemma StoredByLiveness(w: World)
    requires Inv(w)
    ensures |StoredBelow(w, |w.records|)| == |PendingIds(w)| + |ResolvedIds(w)|
  {
    assert forall id <- w.jobs :: Fits(w, id);
    assert StoredBelow(w, |w.records|) == PendingIds(w) + ResolvedIds(w);
    assert PendingIds(w) !! ResolvedIds(w);
  }

  // ----- lease exclusion -----

  /** The last write of record n's visibility after one more event. */
  ghost function NextLease(w: World, e: Event, n: nat, seen: Option<LeaseWrite>): Option<LeaseWrite> {
    if !(e.Store? && Succeeds(w, e.op, n)) then seen
    else match e.op
         case Claim(_, now, lease, _) => Some(LeaseWrite(now, lease, true))
         case Heartbeat(_, _, now, extend) => Some(LeaseWrite(now, extend, true))
         case Release(_, _, now, delay) => Some(LeaseWrite(now, delay, false))
         case Complete(_, _, _, _) => seen
         case Cancel(_, _) => seen
         case Expire(_) => seen
  }

  ghost function LastLease(w: World, events: seq<Event>, n: nat, seen: Option<LeaseWrite>): Option<LeaseWrite>
    decreases |events|
  {
    if events == [] then seen
    else LastLease(Step(w, events[0]), events[1..], n, NextLease(w, events[0], n, seen))
  }

  ghost function LeaseOf(w: World, n: nat): Option<LeaseWrite> {
    if n < |w.records| then w.records[n].lease else None
  }

  lemma {:induction false} LastLeaseIsRecorded(w: World, events: seq<Event>, n: nat)
    requires Inv(w)
    ensures LastLease(w, events, n, LeaseOf(w, n)) == LeaseOf(Run(w, events), n)
    decreases |events|
  {
    if events != [] {
      StepKeepsInv(w, events[0]);
      StepRecordsWins(w, events[0], n);
      LastLeaseIsRecorded(Step(w, events[0]), events[1..], n);
    }
  }

  /**
   Lease exclusion, with no assumption on how server times are ordered. A claim that takes a record comes at least
   the full requested duration after the last write of the record's visibility: the lease of the claim or heartbeat
   that held it, or the delay of the release that handed it back. Nothing is lost to rounding, and a lease is never
   cut to nothing.
   */
  lemma LeaseExclusion(events: seq<Event>, op: StoreEvent, n: nat)
    requires op.Claim? && Succeeds(Run(EMPTY, events), op, n)
    ensures LastLease(EMPTY, events, n, None).Some? ==>
              var last := LastLease(EMPTY, events, n, None).value;
              && (op.now - last.at) * NANOS_PER_MS >= last.duration
              && (last.held ==> op.now > last.at)
    ensures (LastLease(EMPTY, events, n, None).Some? && LastLease(EMPTY, events, n, None).value.held) <==>
            Run(EMPTY, events).jobs[Subject(Run(EMPTY, events).jobs, op).value].claimId != ""
  {
    RunKeepsInv(EMPTY, events);
    LastLeaseIsRecorded(EMPTY, events, n);
    var w := Run(EMPTY, events);
    var id := Subject(w.jobs, op).value;
    assert Fits(w, id);
    assert id in VisibleSet(w.jobs, op.partition, op.now);
  }

  /** A record that is stored and not resolved. */
  ghost predicate Open(w: World, n: nat) {
    && n < |w.records| && w.records[n].id in w.jobs && w.records[n].id in w.current
    && w.current[w.records[n].id] == n && w.jobs[w.records[n].id].liveness == Pending
  }

  /** Nothing of the partition that is pending and due at the time sorts before the record. */
  ghost predicate Foremost(jobs: JobMap, id: JobId, now: int)
    requires id in jobs
  {
    forall k <- jobs :: k != id && Due(jobs[k], jobs[id].partition, now) ==> SortsBefore(jobs, id, k)
  }

  /**
   Due again: the full duration of the last write has passed, or, never written, the inserted visibility is
   reached.
   */
  ghost predicate DueAgain(last: Option<LeaseWrite>, visibleAt: int, now: int) {
    match last
    case Some(write) => (now - write.at) * NANOS_PER_MS >= write.duration
    case None => now >= visibleAt
  }

  /**
   And it comes no later. An open record that sorts first among those due is taken by a claim of its partition if
   and only if it is due again: an expired lease makes the job claimable, whoever held it and without a sweep, a
   release's delay is kept to the millisecond, and a new job waits for the visibility it was inserted with.
   */
  lemma TakenWhenDue(events: seq<Event>, n: nat, now: int, lease: int64, claimId: ClaimId)
    requires var w := Run(EMPTY, events);
             && Open(w, n) && Foremost(w.jobs, w.records[n].id, now)
             && lease > 0 && claimId != "" && claimId !in w.minted
    ensures var w := Run(EMPTY, events);
            var id := w.records[n].id;
            var jobs' := Step(w, Store(Claim(w.jobs[id].partition, now, lease, claimId))).jobs;
            (id in jobs' && jobs'[id].claimId == claimId) <==>
            DueAgain(LastLease(EMPTY, events, n, None), w.records[n].visibleAt, now)
  {
    RunKeepsInv(EMPTY, events);
    LastLeaseIsRecorded(EMPTY, events, n);
    var w := Run(EMPTY, events);
    var id, last := w.records[n].id, LastLease(EMPTY, events, n, None);
    assert Fits(w, id);
    StepStores(w, Store(StoreEvent.Claim(w.jobs[id].partition, now, lease, claimId)));
    ClaimTakesFirstDue(w.jobs, w.jobs[id].partition, now, lease, claimId);
    if last.Some? { MillisReached(w.jobs[id].visibleAt - last.value.at, now - last.value.at, last.value.duration); }
    forall k | k in w.jobs && k != id && Due(w.jobs[k], w.jobs[id].partition, now) ensures !SortsBefore(w.jobs, k, id) {
      OneSortsBefore(w.jobs, id, k);
    }
  }

  /** The history never gets in the way: each event does to the store what its server call does. */
  lemma StepStores(w: World, e: Event)
    requires Inv(w) && Allowed(w, e)
    ensures e.Store? ==> Step(w, e).jobs == StoreStep(w.jobs, e.op)
    ensures e.Insert? ==>
              Step(w, e).jobs == if e.id in w.jobs then w.jobs
              else w.jobs[e.id := Job(e.tenant, e.partition, e.cost, e.vstamp, Pending, "", "",
                                      e.visibleAt, 0, None)]
  {
    if e.Store? && Subject(w.jobs, e.op).Some? { assert Fits(w, Subject(w.jobs, e.op).value); }
  }

  lemma MillisReached(ms: int, t: int, d: int64)
    requires d >= 0 && ms == DurationMillis(d)
    ensures t >= ms <==> t * NANOS_PER_MS >= d
  {
  }

  lemma OneSortsBefore(jobs: JobMap, a: JobId, b: JobId)
    requires a in jobs && b in jobs && SortsBefore(jobs, a, b)
    ensures !SortsBefore(jobs, b, a)
  {
    IdBeforeIsLexical(a, b);
    IdBeforeIsLexical(b, a);
    IdBeforeTrichotomy(a, b);
  }
}
