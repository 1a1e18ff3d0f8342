/** The stored state of one leaf chunk and its cells (internal/model/mine_state.go). */
module ChunkState {
  import opened Wrappers
  import opened ChunkIds
  import opened MineField

  datatype OpenedCell = OpenedCell(x: int, y: int, index: int, openedBy: int, openedAt: int, adjacentMines: int)

  /** The value that is written to and read from the store. Times are counted in nanoseconds. */
  datatype Chunk = Chunk(closed: bool, closedBy: int, closedAt: Option<int>, closedUntil: Option<int>, version: int,
                         cells: map<int, OpenedCell>, flaggedBy: map<int, int>)

  /** A chunk nobody has touched. A missing store entry means the same. */
  const FRESH: Chunk := Chunk(false, 0, None, None, 1, map[], map[])

  /** The in-memory record that the operations of a chunk worker mutate between a load and a save. */
  class MineChunkState {
    var closed: bool
    var closedBy: int
    var closedAt: Option<int>
    var closedUntil: Option<int>
    var version: int
    var openedCells: map<int, OpenedCell>
    var flaggedBy: map<int, int>

    function Value(): Chunk
      reads this
    {
      Chunk(closed, closedBy, closedAt, closedUntil, version, openedCells, flaggedBy)
    }

    constructor (value: Chunk)
      ensures Value() == value
    {
      closed, closedBy, closedAt, closedUntil := value.closed, value.closedBy, value.closedAt, value.closedUntil;
      version, openedCells, flaggedBy := value.version, value.cells, value.flaggedBy;
    }
  }

  // ---------------------------------------------------------------- cells of one chunk

  /** A playable chunk of one season. */
  datatype Site = Site(season: Season, id: ChunkID)

  predicate SiteOk(site: Site) { Playable(site.id) }

  predicate IsCell(i: int) { 0 <= i < CHUNK_CELL_COUNT }

  ghost const ALL_CELLS: set<int> := set i | 0 <= i < CHUNK_CELL_COUNT && IsCell(i)

  function CellX(i: int): int { i % CHUNK_SIZE }

  function CellY(i: int): int { i / CHUNK_SIZE }

  lemma IndexCoordinates(x: int, y: int)
    requires ChunkCellIndex(x, y).Some?
    ensures var i := ChunkCellIndex(x, y).value; IsCell(i) && CellX(i) == x && CellY(i) == y
  {
  }

  lemma CoordinatesIndex(i: int)
    requires IsCell(i)
    ensures ChunkCellIndex(CellX(i), CellY(i)) == Some(i)
  {
  }

  /** Two different cells of the chunk that share a side or a corner. */
  predicate Touch(i: int, j: int) {
    && IsCell(i) && IsCell(j) && i != j
    && -1 <= CellX(i) - CellX(j) <= 1 && -1 <= CellY(i) - CellY(j) <= 1
  }

  predicate Mine(site: Site, i: int) {
    MineAt(site.season, site.id.region, site.id.z, GlobalPoint(site.id, CellX(i), CellY(i)))
  }

  ghost function Number(site: Site, i: int): nat
    requires SiteOk(site)
  {
    AdjacentMines(site.season, site.id, CellX(i), CellY(i))
  }

  lemma CellInWorld(site: Site, i: int)
    requires SiteOk(site) && IsCell(i)
    ensures InWorld(site.id.z, GlobalPoint(site.id, CellX(i), CellY(i)))
    ensures Neighbours(site.id.z, GlobalPoint(site.id, CellX(i), CellY(i))) != {}
  {
    LeafGrid();
    var p := GlobalPoint(site.id, CellX(i), CellY(i));
    var q := if CellX(i) > 0 then Point(p.x - 1, p.y) else Point(p.x + 1, p.y);
    WorldMembers(site.id.z, q);
    assert q in Neighbours(site.id.z, p);
  }

  /** A cell that shows no number has no mine around it. */
  lemma ZeroHasNoMineAround(site: Site, i: int, j: int)
    requires SiteOk(site) && Touch(i, j) && Number(site, i) == 0
    ensures !Mine(site, j)
  {
    CellInWorld(site, j);
    var p, q := GlobalPoint(site.id, CellX(i), CellY(i)), GlobalPoint(site.id, CellX(j), CellY(j));
    WorldMembers(site.id.z, q);
    assert p != q by {
      CoordinatesIndex(i);
      CoordinatesIndex(j);
    }
    assert q in Neighbours(site.id.z, p);
    assert q in MinedNeighbours(site.season, site.id.region, site.id.z, p) <==> Mine(site, j);
  }
}
