/** The fields of one timeline's cache entry, and what each step of the code does to them. */
module Cell {
  import opened VTime

  /** One virtual-time timeline: a tenant in a partition. */
  datatype Timeline = Timeline(tenant: string, partition: string)

  datatype Cell = Cell(
    vtime: int,
    seeded: bool,
    everSeeded: bool,
    evicted: bool,
    touched: bool,
    stale: bool)

  const FRESH := Cell(0, false, false, false, false, false)

  /** The stale swap of a reserve: a pending invalidation is consumed and un-seeds the entry. */
  function ApplyStale(c: Cell): Cell {
    if c.stale then c.(stale := false, seeded := false) else c
  }

  /** A completed seed: the trailing edge, floored by the partition's low-water mark. */
  function Seed(c: Cell, edge: int, floor: int): Cell {
    c.(vtime := Max(edge, floor), seeded := true, everSeeded := true)
  }
}
