/**
 The virtual-time cache as the code has it: a map of mutable entries and a map of
 low-water marks, updated in place. One caller at a time; reservations may be
 outstanding (their entries locked) while other timelines, walks and refreshes
 proceed. Server reads enter as their outcomes.
 */
module VtimeCache {
  import opened Wrappers
  import opened VTime
  import opened Cell

  /** The outcome of a hook: an error, or a value. */
  datatype Hook<+T> = Fails | Returns(value: T)

  class TenantVtime {
    ghost const key: Timeline  // the timeline the entry was created for
    var locked: bool
    var vtime: int64
    var seeded: bool
    var everSeeded: bool
    var evicted: bool
    var touched: bool
    var stale: bool

    constructor (ghost key: Timeline)
      ensures View() == FRESH && !locked && this.key == key
    {
      this.key := key;
      locked, vtime, seeded, everSeeded, evicted, touched, stale := false, 0, false, false, false, false, false;
    }

    function View(): Cell
      reads this
    {
      Cell(vtime, seeded, everSeeded, evicted, touched, stale)
    }
  }

  // ----- what the operations compute -----

  type Cells = map<Timeline, Cell>

  /** A walk: touched or locked entries are marked, the others go. */
  function Marked(c: Cell): Cell {
    c.(touched := false, stale := true)
  }

  ghost function Walked(cells: Cells, locked: set<Timeline>): Cells {
    map k <- cells | cells[k].touched || k in locked :: Marked(cells[k])
  }

  /** A walk that still has `todo` before it. */
  ghost function WalkedPart(cells: Cells, locked: set<Timeline>, todo: set<Timeline>): Cells {
    map k <- cells | k in todo || cells[k].touched || k in locked :: if k in todo then cells[k] else Marked(cells[k])
  }

  /** One entry's turn in a walk. */
  ghost function Handled(cells: Cells, locked: set<Timeline>, key: Timeline): Cells
    requires key in cells
  {
    if cells[key].touched || key in locked then cells[key := Marked(cells[key])] else cells - {key}
  }

  lemma WalkedPartStep(cells: Cells, locked: set<Timeline>, todo: set<Timeline>, key: Timeline)
    requires key in todo && todo <= cells.Keys
    ensures key in WalkedPart(cells, locked, todo)
    ensures Handled(WalkedPart(cells, locked, todo), locked, key) == WalkedPart(cells, locked, todo - {key})
  {
  }

  ghost predicate HasPartition(keys: set<Timeline>, partition: string) {
    exists k <- keys :: k.partition == partition
  }

  ghost function Pruned(lwm: map<string, int64>, keys: set<Timeline>): map<string, int64> {
    map p <- lwm | HasPartition(keys, p) :: lwm[p]
  }

  /** lwmFor: an absent low-water mark reads as 0. */
  function LwmFor(lwm: map<string, int64>, partition: string): int64 {
    if partition in lwm then lwm[partition] else 0
  }

  /** A refresh of one low-water mark: an error or an absent frontier keeps the prior value. */
  function Refreshed(lwm: map<string, int64>, partition: string, frontier: Hook<Option<int64>>): map<string, int64> {
    if frontier.Returns? && frontier.value.Some? then lwm[partition := frontier.value.value] else lwm
  }

  /** The entry after a reserve's touch and stale swap, before any seed. */
  function Opened(c: Cell): Cell {
    ApplyStale(c.(touched := true))
  }

  /** Whether the reserve's seed, if it needs one, fails. */
  function SeedFails(c: Cell, frontier: Hook<Option<int64>>, edge: Hook<int64>): bool {
    !c.seeded && ((!c.everSeeded && frontier.Fails?) || edge.Fails?)
  }

  function SeededCell(c: Cell, lwm: map<string, int64>, partition: string, edge: Hook<int64>): Cell {
    if c.seeded || edge.Fails? then c else Seed(c, edge.value, LwmFor(lwm, partition))
  }

  function ColdRefreshed(c: Cell, lwm: map<string, int64>, partition: string,
                         frontier: Hook<Option<int64>>): map<string, int64> {
    if !c.seeded && !c.everSeeded then Refreshed(lwm, partition, frontier) else lwm
  }

  /** The two maps together. */
  datatype Maps = Maps(cells: Cells, lwm: map<string, int64>)

  ghost function WalkedMaps(m: Maps, locked: set<Timeline>): Maps {
    var cells := Walked(m.cells, locked);
    Maps(cells, Pruned(m.lwm, cells.Keys))
  }

  /**
   lockTimeline while walks race it: race[i] says whether a walk runs between the
   i-th lookup and its lock. A walk that evicts the entry sends it round again.
   */
  ghost function Found(m: Maps, key: Timeline): Maps {
    if key in m.cells then m else m.(cells := m.cells[key := FRESH])
  }

  ghost function Relocked(m: Maps, locked: set<Timeline>, key: Timeline, race: seq<bool>): (r: Maps)
    ensures key in r.cells
    decreases |race|
  {
    var found := Found(m, key);
    if race == [] || !race[0] then found
    else
      var walked := WalkedMaps(found, locked);
      if key in walked.cells then walked else Relocked(walked, locked, key, race[1..])
  }

  /** The entry's state when its reserve reaches the stamp, or gives up on its seed. */
  ghost function ReservedCell(c: Cell, lwm: map<string, int64>, partition: string, frontier: Hook<Option<int64>>,
                              edge: Hook<int64>): Cell {
    var o := Opened(c);
    if SeedFails(o, frontier, edge) then o
    else SeededCell(o, ColdRefreshed(o, lwm, partition, frontier), partition, edge)
  }

  /** What a reserve makes of the two maps. */
  ghost function ReservedMaps(m: Maps, locked: set<Timeline>, key: Timeline, race: seq<bool>,
                              frontier: Hook<Option<int64>>, edge: Hook<int64>): Maps {
    var found := Relocked(m, locked, key, race);
    var c := found.cells[key];
    Maps(found.cells[key := ReservedCell(c, found.lwm, key.partition, frontier, edge)],
         ColdRefreshed(Opened(c), found.lwm, key.partition, frontier))
  }

  datatype Reservation = Reservation(tenant: TenantVtime, vstamp: int64)

  /** The stamp a reserve issues, or the error it gives back, for an entry that was `before` and is now `after`. */
  function Candidate(before: Cell, after: Cell, frontier: Hook<Option<int64>>, edge: Hook<int64>, cost: int64,
                     weight: int64): Result<int64, Error>
    requires cost >= 1 && weight >= 1 && MIN_INT64 <= after.vtime <= MAX_INT64
  {
    if SeedFails(Opened(before), frontier, edge) then Err(ErrDriver) else NextVStamp(after.vtime, cost, weight)
  }

  /** A reservation is for its own timeline's entry, and carries the stamp; an error carries itself. */
  predicate Issues(r: Result<Reservation, Error>, t: TenantVtime, stamp: Result<int64, Error>) {
    match r
    case Ok(res) => res.tenant == t && stamp == Ok(res.vstamp)
    case Err(e) => stamp == Err(e)
  }

  class VtimeCache {
    var tenants: map<Timeline, TenantVtime>
    var lwm: map<string, int64>

    /** Every entry is its own timeline's, so no two timelines share one, and the map knows no evicted entry. */
    ghost predicate Valid()
      reads `tenants, tenants.Values
    {
      forall k <- tenants :: tenants[k].key == k && !tenants[k].evicted
    }

    ghost function View(): Cells
      reads `tenants, tenants.Values
    {
      map k <- tenants :: tenants[k].View()
    }

    ghost function Locked(): set<Timeline>
      reads `tenants, tenants.Values
    {
      set k <- tenants | tenants[k].locked
    }

    constructor ()
      ensures Valid() && View() == map[] && lwm == map[]
    {
      tenants, lwm := map[], map[];
    }

    method RefreshLWM(partition: string, frontier: Hook<Option<int64>>) returns (failed: bool)
      modifies this`lwm
      ensures failed <==> frontier.Fails?
      ensures lwm == if frontier.Returns?
                        && frontier.value.Some? then old(lwm)[partition := frontier.value.value] else old(lwm)
    {
      if frontier.Fails? { return true; }
      if frontier.value.Some? { lwm := lwm[partition := frontier.value.value]; }
      return false;
    }

    /** The distinct partitions of the cached timelines, each once. */
    method Partitions() returns (out: seq<string>)
      ensures forall p :: p in out <==> HasPartition(tenants.Keys, p)
      ensures forall i, j :: 0 <= i < j < |out| ==> out[i] != out[j]
      ensures |out| <= |tenants|
    {
      out := [];
      var seen: set<string> := {};
      var todo := tenants.Keys;
      while todo != {}
        invariant todo <= tenants.Keys && |out| + |todo| <= |tenants|
        invariant forall p :: p in seen <==> p in out
        invariant forall p :: p in out <==> HasPartition(tenants.Keys - todo, p)
        invariant forall i, j :: 0 <= i < j < |out| ==> out[i] != out[j]
        decreases |todo|
      {
        var key :| key in todo;
        ghost var done := tenants.Keys - todo;
        todo := todo - {key};
        assert tenants.Keys - todo == done + {key};
        assert forall p :: HasPartition(done + {key}, p) <==> HasPartition(done, p) || p == key.partition;
        if key.partition !in seen {
          seen := seen + {key.partition};
          out := out + [key.partition];
        }
      }
      assert tenants.Keys - todo == tenants.Keys;
    }

    /**
     The loop body of a walk: an entry reserved since the last walk, or locked now, is marked; any other is
     evicted.
     */
    method Handle(key: Timeline)
      requires Valid() && key in tenants
      modifies this`tenants, tenants[key]
      ensures Valid()
      ensures var t := old(tenants)[key];
              && t.locked == old(t.locked)
              && tenants == (if old(t.touched) || t.locked then old(tenants) else old(tenants) - {key})
              && (key in tenants ==> t.View() == old(t.View()).(touched := false, stale := true))
              && (key !in tenants ==> t.evicted)
    {
      var t := tenants[key];
      var touched := t.touched;
      t.touched := false;
      if touched || t.locked {
        t.stale := true;
      } else {
        tenants := tenants - {key};
        t.evicted := true;
      }
    }

    /** The same, over the view: only this entry's cell changes. */
    method HandleCell(key: Timeline, ghost locked: set<Timeline>)
      requires Valid() && key in tenants && (tenants[key].locked <==> key in locked)
      modifies this`tenants, tenants[key]
      ensures Valid() && View() == Handled(old(View()), locked, key)
      ensures var t := old(tenants)[key];
              && t.locked == old(t.locked) && t.key == key
              && (tenants == old(tenants) || (tenants == old(tenants) - {key} && t.evicted))
    {
      assert forall k <- tenants :: k != key ==> tenants[k] != tenants[key];
      Handle(key);
    }

    /** The loop body seen from the walk: the view takes one step and no lock changes. */
    method HandleOne(key: Timeline, ghost was: map<Timeline, TenantVtime>, ghost locked: set<Timeline>)
      requires Walking(was, locked) && key in tenants
      modifies this`tenants, tenants[key]
      ensures Walking(was, locked) && tenants.Keys >= old(tenants.Keys) - {key}
      ensures View() == Handled(old(View()), locked, key)
    {
      assert forall k <- was :: k != key ==> was[k] != tenants[key];
      HandleCell(key, locked);
    }

    /** Mid-walk: what is left of the map is as it was, what is gone is evicted, and no lock has changed. */
    ghost predicate Walking(was: map<Timeline, TenantVtime>, locked: set<Timeline>)
      reads `tenants, was.Values, tenants.Values
    {
      && Valid()
      && (forall k <- tenants :: k in was && tenants[k] == was[k])
      && (forall k <- was :: was[k].key == k && was[k].locked == (k in locked) && (k !in tenants ==> was[k].evicted))
    }

    method WalkEntries()
      requires Valid()
      modifies this`tenants, tenants.Values
      ensures Walking(old(tenants), old(Locked()))
      ensures View() == Walked(old(View()), old(Locked()))
    {
      var todo := tenants.Keys;
      ghost var was, cells, locked := tenants, View(), Locked();
      assert WalkedPart(cells, locked, todo) == cells;
      while todo != {}
        invariant Walking(was, locked) && todo <= tenants.Keys
        invariant View() == WalkedPart(cells, locked, todo)
        decreases |todo|
      {
        var key :| key in todo;
        WalkedPartStep(cells, locked, todo, key);
        HandleOne(key, was, locked);
        todo := todo - {key};
      }
      assert WalkedPart(cells, locked, {}) == Walked(cells, locked);
    }

    /** Locked entries survive a walk, and no lock changes under it. */
    lemma WalkKeepsLocks(was: map<Timeline, TenantVtime>, cells: Cells, locked: set<Timeline>)
      requires Walking(was, locked) && locked <= was.Keys && cells.Keys == was.Keys && View() == Walked(cells, locked)
      ensures Locked() == locked
    {
      assert View().Keys == tenants.Keys;
    }

    method Walk()
      requires Valid()
      modifies this`tenants, tenants.Values
      ensures Walking(old(tenants), old(Locked()))
      ensures View() == Walked(old(View()), old(Locked())) && Locked() == old(Locked()) && View().Keys == tenants.Keys
    {
      WalkEntries();
      WalkKeepsLocks(old(tenants), old(View()), old(Locked()));
    }

    /** One walk over the cache, then the prune. It never waits for an entry lock. */
    method InvalidateAndEvict()
      requires Valid()
      modifies this, tenants.Values
      ensures Walking(old(tenants), old(Locked()))
      ensures Locked() == old(Locked())
      ensures State() == WalkedMaps(old(State()), old(Locked()))
    {
      Walk();
      Prune();
    }

    method Prune()
      modifies this`lwm
      ensures lwm == Pruned(old(lwm), tenants.Keys)
    {
      var cached := set k <- tenants :: k.partition;
      assert forall p :: p in cached <==> HasPartition(tenants.Keys, p);
      var todo := lwm.Keys;
      while todo != {}
        invariant todo <= lwm.Keys <= old(lwm).Keys
        invariant forall p <- old(lwm) :: p in lwm <==> p in todo || p in cached
        invariant forall p <- lwm :: lwm[p] == old(lwm)[p]
        decreases |todo|
      {
        var p :| p in todo;
        todo := todo - {p};
        if p !in cached { lwm := lwm - {p}; }
      }
    }

    /** Look the timeline up, creating its entry if absent. */
    method LookUp(key: Timeline) returns (t: TenantVtime)
      requires Valid()
      modifies this`tenants
      ensures Valid() && key in tenants && tenants[key] == t
      ensures key in old(tenants) ==> tenants == old(tenants)
      ensures key !in old(tenants) ==> fresh(t) && tenants == old(tenants)[key := t] && t.View() == FRESH && !t.locked
    {
      if key !in tenants {
        t := new TenantVtime(key);
        tenants := tenants[key := t];
      } else {
        t := tenants[key];
      }
    }

    ghost function State(): Maps
      reads this, tenants.Values
    {
      Maps(View(), lwm)
    }

    /** LookUp, seen through the view. */
    method FindOrCreate(key: Timeline) returns (t: TenantVtime)
      requires Valid() && key !in Locked()
      modifies this`tenants
      ensures Valid() && key in tenants && tenants[key] == t && (fresh(t) || t in old(tenants.Values))
      ensures State() == Found(old(State()), key) && Locked() == old(Locked())
      ensures forall k <- tenants :: k != key ==> k in old(tenants) && tenants[k] == old(tenants)[k]
    {
      t := LookUp(key);
    }

    /** One trip of the retry loop, up to the lock: the entry is evicted exactly when the map no longer knows it. */
    method Trip(key: Timeline, raced: bool) returns (t: TenantVtime)
      requires Valid() && key !in Locked()
      modifies this, tenants.Values
      ensures Valid() && (fresh(t) || t in old(tenants.Values)) && !t.locked
      ensures State() ==
              (if raced then WalkedMaps(Found(old(State()), key), old(Locked())) else Found(old(State()), key))
      ensures Locked() == old(Locked())
      ensures if key in tenants then tenants[key] == t && !t.evicted else t.evicted
      ensures forall k <- tenants :: k != key ==> k in old(tenants) && tenants[k] == old(tenants)[k]
    {
      t := FindOrCreate(key);
      assert key !in Locked() && !t.locked;
      if raced { InvalidateAndEvict(); }
    }

    method TakeLock(key: Timeline, t: TenantVtime)
      requires Valid() && key in tenants && tenants[key] == t
      modifies t`locked
      ensures Valid() && State() == old(State()) && Locked() == old(Locked()) + {key}
    {
      t.locked := true;
      assert forall k <- tenants :: k != key ==> tenants[k] != t;
    }

    /** The retry loop: an entry evicted between lookup and lock is given back and looked up again. */
    method LockTimeline(key: Timeline, race: seq<bool>) returns (t: TenantVtime)
      requires Valid() && key !in Locked()
      modifies this, tenants.Values
      ensures Valid() && key in tenants && tenants[key] == t && (fresh(t) || t in old(tenants.Values))
      ensures State() == Relocked(old(State()), old(Locked()), key, race)
      ensures Locked() == old(Locked()) + {key}
      ensures forall k <- tenants :: k != key ==> k in old(tenants) && tenants[k] == old(tenants)[k]
    {
      var i := 0;
      ghost var start, locked := State(), Locked();
      while true
        invariant 0 <= i <= |race| && Valid()
        invariant Locked() == locked && key !in locked
        invariant Relocked(State(), locked, key, race[i..]) == Relocked(start, locked, key, race)
        invariant forall k <- tenants :: k != key ==> k in old(tenants) && tenants[k] == old(tenants)[k]
        invariant key in tenants ==> fresh(tenants[key]) || tenants[key] in old(tenants.Values)
        decreases |race| - i
      {
        t := Trip(key, i < |race| && race[i]);
        if !t.evicted {
          TakeLock(key, t);
          return t;
        }
        assert race[i..][1..] == race[i + 1..];
        i := i + 1;
      }
    }

    /** max(trailing edge, LWM), refreshing the LWM first on the entry's first seed. */
    method Seed(t: TenantVtime, partition: string, frontier: Hook<Option<int64>>, edge: Hook<int64>)
      returns (failed: bool)
      requires !t.seeded
      modifies this`lwm, t`vtime, t`seeded, t`everSeeded
      ensures failed <==> SeedFails(old(t.View()), frontier, edge)
      ensures lwm == ColdRefreshed(old(t.View()), old(lwm), partition, frontier)
      ensures t.View() == if failed then old(t.View()) else SeededCell(old(t.View()), lwm, partition, edge)
    {
      if !t.everSeeded {
        failed := RefreshLWM(partition, frontier);
        if failed { return; }
      }
      if edge.Fails? { return true; }
      t.vtime := Max(edge.value, LwmFor(lwm, partition));
      t.seeded, t.everSeeded := true, true;
      return false;
    }

    /** The part of a reserve under the entry's lock. */
    method Stamp(t: TenantVtime, partition: string, cost: int64, weight: int64,
                 frontier: Hook<Option<int64>>, edge: Hook<int64>) returns (r: Result<Reservation, Error>)
      requires cost >= 1 && weight >= 1 && t.locked
      modifies this`lwm, t
      ensures t.View() == ReservedCell(old(t.View()), old(lwm), partition, frontier, edge)
      ensures lwm == ColdRefreshed(Opened(old(t.View())), old(lwm), partition, frontier)
      ensures t.locked <==> r.Ok?
      ensures Issues(r, t, Candidate(old(t.View()), t.View(), frontier, edge, cost, weight))
    {
      t.touched := true;
      if t.stale { t.stale, t.seeded := false, false; }
      assert t.View() == Opened(old(t.View()));
      if !t.seeded {
        var failed := Seed(t, partition, frontier, edge);
        if failed {
          t.locked := false;
          return Err(ErrDriver);
        }
      }
      var next := NextVStamp(t.vtime, cost, weight);
      if next.Err? {
        t.locked := false;
        return Err(next.error);
      }
      return Ok(Reservation(t, next.value));
    }

    /** Lock the timeline, seed it if need be, and compute the candidate stamp; the lock is kept exactly on success. */
    method Reserve(key: Timeline, cost: int64, weight: int64, race: seq<bool>,
                   frontier: Hook<Option<int64>>, edge: Hook<int64>) returns (r: Result<Reservation, Error>)
      requires Valid() && key !in Locked() && cost >= 1 && weight >= 1
      modifies this, tenants.Values
      ensures Valid() && key in tenants && (fresh(tenants[key]) || tenants[key] in old(tenants.Values))
      ensures State() == ReservedMaps(old(State()), old(Locked()), key, race, frontier, edge)
      ensures Locked() == if r.Ok? then old(Locked()) + {key} else old(Locked())
      ensures Issues(r, tenants[key],
                     Candidate(Relocked(old(State()), old(Locked()), key, race).cells[key], tenants[key].View(),
                               frontier, edge, cost, weight))
    {
      var t := LockTimeline(key, race);
      r := StampEntry(key, t, cost, weight, frontier, edge);
    }

    method StampEntry(key: Timeline, t: TenantVtime, cost: int64, weight: int64,
                      frontier: Hook<Option<int64>>, edge: Hook<int64>) returns (r: Result<Reservation, Error>)
      requires Valid() && key in tenants && tenants[key] == t && t.locked && cost >= 1 && weight >= 1
      modifies this`lwm, t
      ensures Valid()
      ensures var m := old(State());
              && State() == Maps(m.cells[key := ReservedCell(m.cells[key], m.lwm, key.partition, frontier, edge)],
                                 ColdRefreshed(Opened(m.cells[key]), m.lwm, key.partition, frontier))
      ensures Locked() == if r.Ok? then old(Locked()) else old(Locked()) - {key}
      ensures Issues(r, t, Candidate(old(t.View()), t.View(), frontier, edge, cost, weight))
    {
      assert forall k <- tenants :: k != key ==> tenants[k] != t;
      ghost var cells, locked := View(), Locked();
      r := Stamp(t, key.partition, cost, weight, frontier, edge);
      assert View() == cells[key := t.View()];
      assert Locked() == if t.locked then locked else locked - {key};
    }

    /** The insert succeeded: the clock advances to the stamp and the lock is released. */
    method Commit(r: Reservation, ghost key: Timeline)
      requires Valid() && key in tenants && tenants[key] == r.tenant && r.tenant.locked
      modifies r.tenant`vtime, r.tenant`locked
      ensures Valid() && State() == old(State()).(cells := old(View())[key := old(View())[key].(vtime := r.vstamp)])
      ensures Locked() == old(Locked()) - {key}
    {
      r.tenant.vtime := r.vstamp;
      r.tenant.locked := false;
      assert forall k <- tenants :: k != key ==> tenants[k] != r.tenant;
    }

    /** The insert failed or was a duplicate: only the lock is released. */
    method Abort(r: Reservation, ghost key: Timeline)
      requires Valid() && key in tenants && tenants[key] == r.tenant && r.tenant.locked
      modifies r.tenant`locked
      ensures Valid() && State() == old(State()) && Locked() == old(Locked()) - {key}
    {
      r.tenant.locked := false;
      assert forall k <- tenants :: k != key ==> tenants[k] != r.tenant;
    }
  }
}
