/** Where the mines are: one arbitrary predicate over the cells of the world, seen through chunk-relative
    names (internal/model/mine.go, internal/model/mine_state.go). */
module MineField {
  import opened Wrappers
  import opened ChunkIds
  import opened FiniteSums

  datatype MineError = BadLevel | OutOfWorld | InvalidRate

  /** `hash` stands for the keyed hash compared with the mine threshold: any function of region, level and global
      coordinates. */
  datatype Season = Season(id: int, mineRate: real, hash: (string, int, int, int) -> bool)

  datatype Point = Point(x: int, y: int)

  predicate RateOk(season: Season) { 0.0 < season.mineRate < 1.0 }

  predicate LevelOk(z: int) { CHUNK_MIN_LEVEL <= z <= CHUNK_MAX_LEVEL }

  /** The world of a level has this many cells along each side. */
  function TotalCells(z: int): nat
    requires LevelOk(z)
  {
    Pow2(z) * CHUNK_SIZE
  }

  predicate InWorld(z: int, p: Point)
    requires LevelOk(z)
  {
    0 <= p.x < TotalCells(z) && 0 <= p.y < TotalCells(z)
  }

  function GlobalPoint(id: ChunkID, cellX: int, cellY: int): Point {
    Point(id.x * CHUNK_SIZE + cellX, id.y * CHUNK_SIZE + cellY)
  }

  function NormalizeChunkCell(id: ChunkID, cellX: int, cellY: int): Result<(ChunkID, int, int), MineError> {
    match ChunkGridSize(id.z)
    case None => Err(BadLevel)
    case Some(gridSize) =>
      var totalCells := gridSize * CHUNK_SIZE;
      var globalX := id.x * CHUNK_SIZE + cellX;
      var globalY := id.y * CHUNK_SIZE + cellY;
      if globalX < 0 || globalX >= totalCells || globalY < 0 || globalY >= totalCells then Err(OutOfWorld)
      else Ok((id.(x := globalX / CHUNK_SIZE, y := globalY / CHUNK_SIZE), globalX % CHUNK_SIZE, globalY % CHUNK_SIZE))
  }

  function IsMine(season: Season, id: ChunkID, cellX: int, cellY: int): Result<bool, MineError> {
    match NormalizeChunkCell(id, cellX, cellY)
    case Err(e) => Err(e)
    case Ok((normalized, x, y)) =>
      if season.mineRate <= 0.0 || season.mineRate >= 1.0 then Err(InvalidRate)
      else Ok(season.hash(normalized.region, normalized.z, normalized.x * CHUNK_SIZE + x,
          normalized.y * CHUNK_SIZE + y))
  }

  predicate MineAt(season: Season, region: string, z: int, p: Point) {
    season.hash(region, z, p.x, p.y)
  }

  /** IsMine answers for the global cell, whatever the chunk the caller named it by, and reports each error under
      exactly its own condition. */
  lemma IsMineByGlobalPoint(season: Season, id: ChunkID, cellX: int, cellY: int)
    ensures var p := GlobalPoint(id, cellX, cellY);
            IsMine(season, id, cellX, cellY) ==
            if !LevelOk(id.z) then Err(BadLevel)
            else if !InWorld(id.z, p) then Err(OutOfWorld)
            else if !RateOk(season) then Err(InvalidRate)
            else Ok(MineAt(season, id.region, id.z, p))
  {
    var p := GlobalPoint(id, cellX, cellY);
    assert p.x == p.x / CHUNK_SIZE * CHUNK_SIZE + p.x % CHUNK_SIZE;
    assert p.y == p.y / CHUNK_SIZE * CHUNK_SIZE + p.y % CHUNK_SIZE;
  }

  // ---------------------------------------------------------------- neighbours

  predicate Near(p: Point, q: Point) {
    p != q && -1 <= p.x - q.x <= 1 && -1 <= p.y - q.y <= 1
  }

  function World(z: int): set<Point>
    requires LevelOk(z)
  {
    set x, y | 0 <= x < TotalCells(z) && 0 <= y < TotalCells(z) :: Point(x, y)
  }

  lemma WorldMembers(z: int, p: Point)
    requires LevelOk(z)
    ensures p in World(z) <==> InWorld(z, p)
  {
    assert p == Point(p.x, p.y);
  }

  ghost function Neighbours(z: int, p: Point): set<Point>
    requires LevelOk(z)
  {
    set q | q in World(z) && Near(p, q)
  }

  ghost function MinedNeighbours(season: Season, region: string, z: int, p: Point): set<Point>
    requires LevelOk(z)
  {
    set q | q in Neighbours(z, p) && MineAt(season, region, z, q)
  }

  /** The number the game shows on a cell. */
  ghost function AdjacentMines(season: Season, id: ChunkID, cellX: int, cellY: int): nat
    requires LevelOk(id.z)
  {
    |MinedNeighbours(season, id.region, id.z, GlobalPoint(id, cellX, cellY))|
  }

  /** The nested loop visits the eight neighbours in this order; step 4 is the cell itself. */
  function Offset(p: Point, k: int): Point { Point(p.x + k % 3 - 1, p.y + k / 3 - 1) }

  lemma NearOffset(p: Point, q: Point) returns (j: int)
    requires Near(p, q)
    ensures 0 <= j < 9 && j != 4 && q == Offset(p, j)
  {
    j := 3 * (q.y - p.y + 1) + (q.x - p.x + 1);
  }

  ghost function VisitedMines(season: Season, region: string, z: int, p: Point, k: int): set<Point>
    requires LevelOk(z) && 0 <= k <= 9
  {
    set j | 0 <= j < k && Offset(p, j) in MinedNeighbours(season, region, z, p) :: Offset(p, j)
  }

  lemma VisitedMinesStep(season: Season, region: string, z: int, p: Point, k: int)
    requires LevelOk(z) && 0 <= k < 9
    ensures |VisitedMines(season, region, z, p, k + 1)| ==
            |VisitedMines(season, region, z, p, k)| +
            (if k != 4 && InWorld(z, Offset(p, k)) && MineAt(season, region, z, Offset(p, k)) then 1 else 0)
  {
    var now, next := VisitedMines(season, region, z, p, k), VisitedMines(season, region, z, p, k + 1);
    var q := Offset(p, k);
    WorldMembers(z, q);
    assert q in MinedNeighbours(season, region, z, p) <==> k != 4 && InWorld(z, q) && MineAt(season, region, z, q);
    forall j | 0 <= j < k ensures Offset(p, j) != q { }
    if q in MinedNeighbours(season, region, z, p) {
      assert next == now + {q};
    } else {
      assert next == now;
    }
  }

  lemma VisitedMinesAll(season: Season, region: string, z: int, p: Point)
    requires LevelOk(z)
    ensures VisitedMines(season, region, z, p, 9) == MinedNeighbours(season, region, z, p)
  {
    forall q | q in MinedNeighbours(season, region, z, p) ensures q in VisitedMines(season, region, z, p, 9) {
      var j := NearOffset(p, q);
    }
  }

  ghost predicate CountedTo(season: Season, id: ChunkID, p: Point, k: int, count: int)
    requires 0 <= k <= 9
  {
    LevelOk(id.z) ==>
      && count == |VisitedMines(season, id.region, id.z, p, k)|
      && (!RateOk(season) ==> forall j :: 0 <= j < k ==> Offset(p, j) !in Neighbours(id.z, p))
  }

  lemma CountStart(season: Season, id: ChunkID, p: Point)
    ensures CountedTo(season, id, p, 0, 0)
  {
    assert LevelOk(id.z) ==> VisitedMines(season, id.region, id.z, p, 0) == {};
  }

  lemma CountStep(season: Season, id: ChunkID, cellX: int, cellY: int, dx: int, dy: int, count: int)
    requires -1 <= dx <= 1 && -1 <= dy <= 1
    requires CountedTo(season, id, GlobalPoint(id, cellX, cellY), 3 * (dy + 1) + dx + 1, count)
    ensures
      var p, k := GlobalPoint(id, cellX, cellY), 3 * (dy + 1) + dx + 1;
      if dx == 0 && dy == 0 then CountedTo(season, id, p, k + 1, count)
      else
        match IsMine(season, id, cellX + dx, cellY + dy)
        case Ok(isMine) => CountedTo(season, id, p, k + 1, if isMine then count + 1 else count)
        case Err(OutOfWorld) => CountedTo(season, id, p, k + 1, count)
        case Err(e) =>
          if !LevelOk(id.z) then e == BadLevel
          else e == InvalidRate && !RateOk(season) && Neighbours(id.z, p) != {}
  {
    hide VisitedMines, MinedNeighbours, IsMine;
    var p, k := GlobalPoint(id, cellX, cellY), 3 * (dy + 1) + dx + 1;
    var q := Offset(p, k);
    assert q == GlobalPoint(id, cellX + dx, cellY + dy);
    IsMineByGlobalPoint(season, id, cellX + dx, cellY + dy);
    if LevelOk(id.z) {
      VisitedMinesStep(season, id.region, id.z, p, k);
      WorldMembers(id.z, q);
      assert q in Neighbours(id.z, p) <==> InWorld(id.z, q) && !(dx == 0 && dy == 0);
    }
  }

  lemma CountEnd(season: Season, id: ChunkID, cellX: int, cellY: int, count: int)
    requires CountedTo(season, id, GlobalPoint(id, cellX, cellY), 9, count)
    ensures LevelOk(id.z) ==> count == AdjacentMines(season, id, cellX, cellY)
    ensures LevelOk(id.z) && !RateOk(season) ==> Neighbours(id.z, GlobalPoint(id, cellX, cellY)) == {}
  {
    var p := GlobalPoint(id, cellX, cellY);
    if LevelOk(id.z) {
      VisitedMinesAll(season, id.region, id.z, p);
      if !RateOk(season) {
        forall q | q in World(id.z) ensures !Near(p, q) {
          if Near(p, q) {
            var j := NearOffset(p, q);
          }
        }
      }
    }
  }

  /** Counts the mines around a cell. Neighbours outside the world are skipped; any other error stops the count. */
  method AdjacentMineCount(season: Season, id: ChunkID, cellX: int, cellY: int) returns (r: Result<nat, MineError>)
    ensures !LevelOk(id.z) ==> r == Err(BadLevel)
    ensures LevelOk(id.z) && !RateOk(season) && Neighbours(id.z, GlobalPoint(id, cellX, cellY)) != {} ==>
              r == Err(InvalidRate)
    ensures LevelOk(id.z) && (RateOk(season) || Neighbours(id.z, GlobalPoint(id, cellX, cellY)) == {}) ==>
              r == Ok(AdjacentMines(season, id, cellX, cellY))
  {
    hide CountedTo, Neighbours, AdjacentMines;
    var count: nat := 0;
    ghost var p := GlobalPoint(id, cellX, cellY);
    CountStart(season, id, p);
    for dy := -1 to 2
      invariant CountedTo(season, id, p, 3 * (dy + 1), count)
      invariant dy > -1 ==> LevelOk(id.z)
    {
      for dx := -1 to 2
        invariant CountedTo(season, id, p, 3 * (dy + 1) + dx + 1, count)
        invariant dy > -1 || dx > -1 ==> LevelOk(id.z)
      {
        CountStep(season, id, cellX, cellY, dx, dy, count);
        if dx == 0 && dy == 0 {
          continue;
        }
        match IsMine(season, id, cellX + dx, cellY + dy) {
          case Err(e) =>
            if e == OutOfWorld {
              continue;
            }
            return Err(e);
          case Ok(isMine) =>
            if isMine {
              count := count + 1;
            }
        }
      }
    }
    CountEnd(season, id, cellX, cellY, count);
    r := Ok(count);
  }

  /** One world cell, two chunk-relative names: the same answer and the same number. */
  lemma SameCellSameCount(season: Season, a: ChunkID, x1: int, y1: int, b: ChunkID, x2: int, y2: int)
    requires a.region == b.region && a.z == b.z && LevelOk(a.z)
    requires GlobalPoint(a, x1, y1) == GlobalPoint(b, x2, y2)
    ensures IsMine(season, a, x1, y1) == IsMine(season, b, x2, y2)
    ensures AdjacentMines(season, a, x1, y1) == AdjacentMines(season, b, x2, y2)
  {
    IsMineByGlobalPoint(season, a, x1, y1);
    IsMineByGlobalPoint(season, b, x2, y2);
  }

  ghost function WorldMines(season: Season, region: string, z: int): set<Point>
    requires LevelOk(z)
  {
    set p | p in World(z) && MineAt(season, region, z, p)
  }

  /** The numbers of all the cells of the world add up to the numbers of neighbours of all its mines. */
  lemma NumbersCountMines(season: Season, region: string, z: int)
    requires LevelOk(z)
    ensures Sum(World(z), p => |MinedNeighbours(season, region, z, p)|)
         == Sum(WorldMines(season, region, z), p => |Neighbours(z, p)|)
  {
    var rows, cols := World(z), WorldMines(season, region, z);
    DoubleCount(rows, cols, Near);
    forall p | p in rows ensures MinedNeighbours(season, region, z, p) == Row(cols, Near, p) { }
    forall q | q in cols ensures Neighbours(z, q) == Column(rows, Near, q) { }
    SumSame(rows, p => |MinedNeighbours(season, region, z, p)|, p => |Row(cols, Near, p)|);
    SumSame(cols, q => |Neighbours(z, q)|, q => |Column(rows, Near, q)|);
  }
}
