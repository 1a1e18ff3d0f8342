/** Opening the connected area around a cell without a number (openZeroArea in internal/service/chunk_service.go). */
module Cascade {
  import opened Wrappers
  import opened ChunkIds
  import opened MineField
  import opened ChunkState

  // ---------------------------------------------------------------- the area

  /** A cell the cascade may open: neither flagged nor open before (`blocked`), and not a mine. */
  predicate Addable(site: Site, blocked: set<int>, i: int) {
    IsCell(i) && i !in blocked && !Mine(site, i)
  }

  ghost predicate IsPath(site: Site, blocked: set<int>, start: int, path: seq<int>)
    requires SiteOk(site)
  {
    && path != [] && path[0] == start
    && (forall k :: 0 <= k < |path| ==> Addable(site, blocked, path[k]))
    && (forall k :: 0 <= k < |path| - 1 ==> Number(site, path[k]) == 0 && Touch(path[k], path[k + 1]))
  }

  ghost predicate Reaches(site: Site, blocked: set<int>, start: int, i: int)
    requires SiteOk(site)
  {
    exists path :: IsPath(site, blocked, start, path) && path[|path| - 1] == i
  }

  /** The cells joined to the start by a path of addable cells in which only the last may show a number. */
  ghost function Area(site: Site, blocked: set<int>, start: int): set<int>
    requires SiteOk(site)
  {
    set i | 0 <= i < CHUNK_CELL_COUNT && Reaches(site, blocked, start, i)
  }

  /** A set that holds the start and, around each of its members without a number, every unblocked cell. */
  ghost predicate ClosedAround(site: Site, blocked: set<int>, start: int, s: set<int>)
    requires SiteOk(site)
  {
    && start in s
    && forall i, j :: i in s && Number(site, i) == 0 && Touch(i, j) && j !in blocked ==> j in s
  }

  lemma AreaStart(site: Site, blocked: set<int>, start: int)
    requires SiteOk(site)
    ensures start in Area(site, blocked, start) <==> Addable(site, blocked, start)
  {
    if Addable(site, blocked, start) {
      assert IsPath(site, blocked, start, [start]);
    }
  }

  lemma AreaStep(site: Site, blocked: set<int>, start: int, i: int, j: int)
    requires SiteOk(site) && i in Area(site, blocked, start)
    requires Number(site, i) == 0 && Touch(i, j) && Addable(site, blocked, j)
    ensures j in Area(site, blocked, start)
  {
    var path :| IsPath(site, blocked, start, path) && path[|path| - 1] == i;
    var longer := path + [j];
    assert forall k :: 0 <= k < |path| ==> longer[k] == path[k];
    assert IsPath(site, blocked, start, longer) && longer[|longer| - 1] == j;
  }

  lemma AreaAddable(site: Site, blocked: set<int>, start: int, i: int)
    requires SiteOk(site) && i in Area(site, blocked, start)
    ensures Addable(site, blocked, i)
  {
  }

  lemma {:induction false} PathInside(site: Site, blocked: set<int>, start: int, path: seq<int>, s: set<int>)
    requires SiteOk(site) && IsPath(site, blocked, start, path)
    requires start in s
    requires forall i, j :: i in s && Number(site, i) == 0 && Touch(i, j) && Addable(site, blocked, j) ==> j in s
    ensures path[|path| - 1] in s
    decreases |path|
  {
    if |path| > 1 {
      var shorter := path[..|path| - 1];
      PathInside(site, blocked, start, shorter, s);
      assert Touch(path[|path| - 2], path[|path| - 1]) && Number(site, path[|path| - 2]) == 0;
    }
  }

  lemma AreaInside(site: Site, blocked: set<int>, start: int, s: set<int>)
    requires SiteOk(site)
    requires Addable(site, blocked, start) ==> start in s
    requires forall i, j :: i in s && Number(site, i) == 0 && Touch(i, j) && Addable(site, blocked, j) ==> j in s
    ensures Area(site, blocked, start) <= s
  {
    forall i | i in Area(site, blocked, start) ensures i in s {
      var path :| IsPath(site, blocked, start, path) && path[|path| - 1] == i;
      assert Addable(site, blocked, path[0]);
      PathInside(site, blocked, start, path, s);
    }
  }

  /** The area of a safe unblocked start is the least set closed around it. Mines need not be mentioned: the area
      never meets one. */
  lemma AreaIsLeast(site: Site, blocked: set<int>, start: int)
    requires SiteOk(site) && Addable(site, blocked, start)
    ensures ClosedAround(site, blocked, start, Area(site, blocked, start))
    ensures forall s :: ClosedAround(site, blocked, start, s) ==> Area(site, blocked, start) <= s
    ensures forall i :: i in Area(site, blocked, start) ==> IsCell(i) && !Mine(site, i) && i !in blocked
  {
    var area := Area(site, blocked, start);
    AreaStart(site, blocked, start);
    forall i, j | i in area && Number(site, i) == 0 && Touch(i, j) && j !in blocked ensures j in area {
      ZeroHasNoMineAround(site, i, j);
      AreaStep(site, blocked, start, i, j);
    }
    forall s | ClosedAround(site, blocked, start, s) ensures area <= s {
      AreaInside(site, blocked, start, s);
    }
    forall i | i in area ensures IsCell(i) && !Mine(site, i) && i !in blocked {
      AreaAddable(site, blocked, start, i);
    }
  }

  // ---------------------------------------------------------------- opening

  ghost function NewCell(site: Site, i: int, user: int, at: int): OpenedCell
    requires SiteOk(site)
  {
    OpenedCell(CellX(i), CellY(i), i, user, at, Number(site, i))
  }

  ghost function OpenCells(site: Site, cells: set<int>, user: int, at: int): map<int, OpenedCell>
    requires SiteOk(site)
  {
    map i | i in cells :: NewCell(site, i, user, at)
  }

  ghost function Blocked(c: Chunk): set<int> { c.cells.Keys + c.flaggedBy.Keys }

  ghost function OpenedArea(site: Site, c: Chunk, start: int, user: int, at: int): Chunk
    requires SiteOk(site)
  {
    c.(cells := c.cells + OpenCells(site, Area(site, Blocked(c), start), user, at))
  }

  method OpenCellInState(state: MineChunkState, x: int, y: int, index: int, user: int, at: int, adjacentMines: int)
    modifies state
    ensures state.Value() == old(state.Value()).(
              cells := old(state.openedCells)[index := OpenedCell(x, y, index, user, at, adjacentMines)],
              flaggedBy := old(state.flaggedBy) - {index})
  {
    state.openedCells := state.openedCells[index := OpenedCell(x, y, index, user, at, adjacentMines)];
    state.flaggedBy := state.flaggedBy - {index};
  }

  // ---------------------------------------------------------------- the worklist

  type Queue = seq<(int, int)>

  predicate InChunk(c: (int, int)) {
    0 <= c.0 < CHUNK_SIZE && 0 <= c.1 < CHUNK_SIZE
  }

  function IndexOf(c: (int, int)): int { c.1 * CHUNK_SIZE + c.0 }

  /** Everything that starting there opens: nothing when the start lies outside the chunk. */
  ghost function Target(site: Site, blocked: set<int>, start: (int, int)): set<int>
    requires SiteOk(site)
  {
    if InChunk(start) then Area(site, blocked, IndexOf(start)) else {}
  }

  /** Every queued cell that may be opened belongs to the area. */
  ghost predicate Promising(site: Site, blocked: set<int>, start: (int, int), queue: Queue)
    requires SiteOk(site)
  {
    forall c :: c in queue && InChunk(c) && Addable(site, blocked, IndexOf(c)) ==>
        IndexOf(c) in Target(site, blocked, start)
  }

  /** Whatever an opened cell demands is visited or queued. */
  ghost predicate Demanded(site: Site, queue: Queue, visited: set<int>, added: set<int>)
    requires SiteOk(site)
  {
    forall i, j :: i in added && Number(site, i) == 0 && Touch(i, j) ==> j in visited || (CellX(j), CellY(j)) in queue
  }

  /** What the worklist loop keeps: the cells opened so far (`added`) are the addable visited ones, all of them and
      everything still queued belong to the area, and nothing that an opened cell demands is forgotten. */
  ghost predicate Sweeping(site: Site, blocked: set<int>, start: (int, int), queue: Queue, visited: set<int>,
      added: set<int>)
    requires SiteOk(site)
  {
    && (forall i :: i in visited ==> IsCell(i))
    && (forall i :: i in added <==> i in visited && Addable(site, blocked, i))
    && (forall i :: i in added ==> i in Target(site, blocked, start))
    && (InChunk(start) ==> IndexOf(start) in visited || start in queue)
    && Promising(site, blocked, start, queue)
    && Demanded(site, queue, visited, added)
  }

  lemma SweepStart(site: Site, blocked: set<int>, start: (int, int))
    requires SiteOk(site)
    ensures Sweeping(site, blocked, start, [start], {}, {})
  {
    AreaStart(site, blocked, IndexOf(start));
  }

  lemma SweepNew(site: Site, blocked: set<int>, start: (int, int), queue: Queue, visited: set<int>, added: set<int>,
      i: int)
    requires SiteOk(site) && Sweeping(site, blocked, start, queue, visited, added) && i !in visited
    ensures i !in added
    ensures Addable(site, blocked + added, i) <==> Addable(site, blocked, i)
  {
  }

  /** Dropping the head of the queue is harmless when its cell is outside, seen before, or not addable. */
  lemma SweepSkip(site: Site, blocked: set<int>, start: (int, int), queue: Queue, visited: set<int>, added: set<int>,
      visited': set<int>)
    requires SiteOk(site) && queue != [] && Sweeping(site, blocked, start, queue, visited, added)
    requires if InChunk(queue[0]) then visited' == visited + {IndexOf(queue[0])} else visited' == visited
    requires InChunk(queue[0]) ==> IndexOf(queue[0]) in visited || !Addable(site, blocked, IndexOf(queue[0]))
    ensures Sweeping(site, blocked, start, queue[1..], visited', added)
  {
    hide Target, Addable, Number;
    HeadOrTail(queue);
    DemandedSkip(site, queue, visited, added, visited');
  }

  lemma HeadOrTail(queue: Queue)
    requires queue != []
    ensures forall c :: c in queue <==> c == queue[0] || c in queue[1..]
  {
  }

  lemma DemandedSkip(site: Site, queue: Queue, visited: set<int>, added: set<int>, visited': set<int>)
    requires SiteOk(site) && queue != [] && Demanded(site, queue, visited, added)
    requires visited <= visited' && (InChunk(queue[0]) ==> IndexOf(queue[0]) in visited')
    ensures Demanded(site, queue[1..], visited', added)
  {
    hide Number;
    HeadOrTail(queue);
    forall i, j | i in added && Number(site, i) == 0 && Touch(i, j)
      ensures j in visited' || (CellX(j), CellY(j)) in queue[1..]
    {
      CoordinatesIndex(j);
      assert InChunk((CellX(j), CellY(j))) && IndexOf((CellX(j), CellY(j))) == j;
    }
  }

  /** Opening an addable head and queueing its neighbours when it shows no number. */
  lemma SweepOpen(site: Site, blocked: set<int>, start: (int, int), queue: Queue, visited: set<int>, added: set<int>,
      pushed: Queue)
    requires SiteOk(site) && queue != [] && Sweeping(site, blocked, start, queue, visited, added)
    requires InChunk(queue[0]) && Addable(site, blocked, IndexOf(queue[0]))
    requires Number(site, IndexOf(queue[0])) != 0 ==> pushed == []
    requires Number(site, IndexOf(queue[0])) == 0 ==> pushed == Around(queue[0], 9)
    ensures var i := IndexOf(queue[0]);
            Sweeping(site, blocked, start, queue[1..] + pushed, visited + {i}, added + {i})
  {
    hide Target, Number, Promising, Demanded;
    var head := queue[0];
    IndexCoordinates(head.0, head.1);
    HeadOrTail(queue);
    assert IndexOf(head) in Target(site, blocked, start) by { PromisingHead(site, blocked, start, queue); }
    PromisingOpen(site, blocked, start, queue, pushed);
    DemandedSkip(site, queue, visited, added, visited + {IndexOf(head)});
    DemandedOpen(site, queue[1..], visited + {IndexOf(head)}, added, head, pushed);
  }

  lemma PromisingHead(site: Site, blocked: set<int>, start: (int, int), queue: Queue)
    requires SiteOk(site) && queue != [] && Promising(site, blocked, start, queue)
    requires InChunk(queue[0]) && Addable(site, blocked, IndexOf(queue[0]))
    ensures IndexOf(queue[0]) in Target(site, blocked, start)
  {
    HeadOrTail(queue);
  }

  lemma PromisingOpen(site: Site, blocked: set<int>, start: (int, int), queue: Queue, pushed: Queue)
    requires SiteOk(site) && queue != [] && Promising(site, blocked, start, queue)
    requires InChunk(queue[0]) && Addable(site, blocked, IndexOf(queue[0]))
    requires pushed != [] ==> Number(site, IndexOf(queue[0])) == 0 && pushed == Around(queue[0], 9)
    ensures Promising(site, blocked, start, queue[1..] + pushed)
  {
    hide Area, Number, Addable;
    var head := queue[0];
    PromisingHead(site, blocked, start, queue);
    IndexCoordinates(head.0, head.1);
    HeadOrTail(queue);
    forall c | c in queue[1..] + pushed && InChunk(c) && Addable(site, blocked, IndexOf(c))
      ensures IndexOf(c) in Target(site, blocked, start)
    {
      if c !in queue[1..] {
        AroundIsNear(head, c, 9);
        IndexCoordinates(c.0, c.1);
        AreaStep(site, blocked, IndexOf(start), IndexOf(head), IndexOf(c));
      }
    }
  }

  lemma DemandedOpen(site: Site, queue: Queue, visited: set<int>, added: set<int>, head: (int, int), pushed: Queue)
    requires SiteOk(site) && Demanded(site, queue, visited, added) && InChunk(head)
    requires Number(site, IndexOf(head)) == 0 ==> pushed == Around(head, 9)
    ensures Demanded(site, queue + pushed, visited, added + {IndexOf(head)})
  {
    hide Number;
    IndexCoordinates(head.0, head.1);
    forall i, j | i in added + {IndexOf(head)} && Number(site, i) == 0 && Touch(i, j)
      ensures j in visited || (CellX(j), CellY(j)) in queue + pushed
    {
      if i == IndexOf(head) {
        CoordinatesIndex(j);
        CoordinatesIndex(i);
        NearIsAround(head, (CellX(j), CellY(j)));
      }
    }
  }

  /** With an empty queue nothing of the area is missing. */
  lemma SweepEnd(site: Site, blocked: set<int>, start: (int, int), visited: set<int>, added: set<int>)
    requires SiteOk(site) && Sweeping(site, blocked, start, [], visited, added)
    ensures added == Target(site, blocked, start)
  {
    if InChunk(start) {
      IndexCoordinates(start.0, start.1);
      forall i, j | i in added && Number(site, i) == 0 && Touch(i, j) && Addable(site, blocked, j) ensures j in added {
      }
      AreaInside(site, blocked, IndexOf(start), added);
    }
    if !(added <= Target(site, blocked, start)) {
      var i := NotWithin(added, Target(site, blocked, start));
    }
  }

  /** The eight neighbours in the order of the nested loop, up to step `k`. */
  function Around(c: (int, int), k: nat): Queue {
    if k == 0 then []
    else if k == 5 then Around(c, 4)
    else Around(c, k - 1) + [(c.0 + (k - 1) % 3 - 1, c.1 + (k - 1) / 3 - 1)]
  }

  lemma {:induction false} AroundIsNear(c: (int, int), d: (int, int), k: nat)
    requires k <= 9 && d in Around(c, k)
    ensures d != c && -1 <= d.0 - c.0 <= 1 && -1 <= d.1 - c.1 <= 1
  {
    if k != 5 && d == (c.0 + (k - 1) % 3 - 1, c.1 + (k - 1) / 3 - 1) {
    } else {
      AroundIsNear(c, d, k - 1);
    }
  }

  lemma {:induction false} AroundGrows(c: (int, int), d: (int, int), k: nat, n: nat)
    requires k <= n && d in Around(c, k)
    ensures d in Around(c, n)
    decreases n - k
  {
    if k < n {
      assert d in Around(c, k + 1);
      AroundGrows(c, d, k + 1, n);
    }
  }

  lemma NearIsAround(c: (int, int), d: (int, int))
    requires d != c && -1 <= d.0 - c.0 <= 1 && -1 <= d.1 - c.1 <= 1
    ensures d in Around(c, 9)
  {
    var k := 3 * (d.1 - c.1 + 1) + (d.0 - c.0 + 1) + 1;
    assert Around(c, k)[|Around(c, k)| - 1] == d;
    AroundGrows(c, d, k, 9);
  }

  method PushNeighbours(queue: Queue, current: (int, int)) returns (longer: Queue)
    ensures longer == queue + Around(current, 9)
  {
    longer := queue;
    for dy := -1 to 2
      invariant longer == queue + Around(current, 3 * (dy + 1))
    {
      for dx := -1 to 2
        invariant longer == queue + Around(current, 3 * (dy + 1) + dx + 1)
      {
        if dx == 0 && dy == 0 {
          continue;
        }
        longer := longer + [(current.0 + dx, current.1 + dy)];
      }
    }
  }

  /** The state of the record while the worklist runs: `before` with the `added` cells opened. */
  ghost predicate OpenedSoFar(site: Site, before: Chunk, now: Chunk, added: set<int>, user: int, at: int)
    requires SiteOk(site)
  {
    now == before.(cells := before.cells + OpenCells(site, added, user, at))
  }

  lemma OpenedNone(site: Site, before: Chunk, user: int, at: int)
    requires SiteOk(site)
    ensures OpenedSoFar(site, before, before, {}, user, at)
  {
    assert before.cells + OpenCells(site, {}, user, at) == before.cells;
  }

  lemma OpenedBlocks(site: Site, before: Chunk, now: Chunk, added: set<int>, user: int, at: int)
    requires SiteOk(site) && OpenedSoFar(site, before, now, added, user, at)
    ensures Blocked(now) == Blocked(before) + added
  {
  }

  lemma OpenedAll(site: Site, before: Chunk, now: Chunk, startX: int, startY: int, user: int, at: int)
    requires SiteOk(site)
    requires OpenedSoFar(site, before, now, Target(site, Blocked(before), (startX, startY)), user, at)
    ensures now == if ChunkCellIndex(startX, startY).None? then before
                   else OpenedArea(site, before, ChunkCellIndex(startX, startY).value, user, at)
  {
    hide Area, OpenCells;
    var index := ChunkCellIndex(startX, startY);
    if index.None? {
      OpenedNone(site, before, user, at);
    } else {
      assert index.value == IndexOf((startX, startY));
    }
  }

  lemma OpenedMore(site: Site, before: Chunk, now: Chunk, added: set<int>, i: int, user: int, at: int)
    requires SiteOk(site) && OpenedSoFar(site, before, now, added, user, at)
    requires i !in before.flaggedBy
    ensures OpenedSoFar(site, before, now.(cells := now.cells[i := NewCell(site, i, user, at)],
              flaggedBy := now.flaggedBy - {i}),
                        added + {i}, user, at)
  {
    hide NewCell;
    assert OpenCells(site, added + {i}, user, at) == OpenCells(site, added, user, at)[i := NewCell(site, i, user, at)];
    assert now.flaggedBy - {i} == before.flaggedBy;
  }

  /** The part of the loop body that decides about one cell of the chunk: opens it when it is addable and returns
      its number, and otherwise changes nothing. */
  method TryOpen(site: Site, state: MineChunkState, x: int, y: int, user: int, at: int)
    returns (r: Result<Option<nat>, MineError>)
    requires SiteOk(site) && InChunk((x, y))
    modifies state
    ensures var i := IndexOf((x, y));
            r.Ok? ==> r.value == if Addable(site, Blocked(old(state.Value())), i) then Some(Number(site, i)) else None
    ensures var i := IndexOf((x, y));
            state.Value() ==
              if r.Ok? && r.value.Some?
              then old(state.Value()).(cells := old(state.Value()).cells[i := NewCell(site, i, user, at)],
                                       flaggedBy := old(state.Value()).flaggedBy - {i})
              else old(state.Value())
    ensures r.Err? ==> r.error == InvalidRate && !RateOk(site.season)
    ensures r.Ok? && r.value.Some? ==> RateOk(site.season)
  {
    var index := y * CHUNK_SIZE + x;
    IndexCoordinates(x, y);
    if index in state.flaggedBy {
      return Ok(None);
    }
    if index in state.openedCells {
      return Ok(None);
    }
    IsMineByGlobalPoint(site.season, site.id, x, y);
    CellInWorld(site, index);
    var mined := IsMine(site.season, site.id, x, y);
    if mined.Err? {
      return Err(mined.error);
    }
    if mined.value {
      return Ok(None);
    }
    var counted := AdjacentMineCount(site.season, site.id, x, y);
    OpenCellInState(state, x, y, index, user, at, counted.value);
    r := Ok(Some(counted.value));
  }

  /** Opens the area around the start, and nothing else. */
  method OpenZeroArea(site: Site, state: MineChunkState, startX: int, startY: int, user: int, at: int)
    returns (r: Result<(), MineError>)
    requires SiteOk(site)
    modifies state
    ensures RateOk(site.season) ==> r == Ok(())
    ensures r.Ok? ==> (state.Value() ==
                       if ChunkCellIndex(startX, startY).None? then old(state.Value())
                       else OpenedArea(site, old(state.Value()), ChunkCellIndex(startX, startY).value, user, at))
    ensures r.Err? ==> r.error == InvalidRate && state.Value() == old(state.Value())
  {
    hide Sweeping, Area, Reaches, OpenedArea, OpenCells, OpenedSoFar;
    var start := (startX, startY);
    var queue: Queue := [start];
    var visited: set<int> := {};
    ghost var before := state.Value();
    ghost var blocked := Blocked(before);
    ghost var added: set<int> := {};
    SweepStart(site, blocked, start);
    OpenedNone(site, before, user, at);
    while queue != []
      invariant Sweeping(site, blocked, start, queue, visited, added)
      invariant OpenedSoFar(site, before, state.Value(), added, user, at)
      invariant RateOk(site.season) || state.Value() == before
      decreases ALL_CELLS - visited, |queue|
    {
      var current := queue[0];
      ghost var was, seen := queue, visited;
      queue := queue[1..];
      if current.0 < 0 || current.0 >= CHUNK_SIZE || current.1 < 0 || current.1 >= CHUNK_SIZE {
        SweepSkip(site, blocked, start, was, seen, added, visited);
        continue;
      }
      var index := current.1 * CHUNK_SIZE + current.0;
      if index in visited {
        assert visited + {index} == visited;
        SweepSkip(site, blocked, start, was, seen, added, visited);
        continue;
      }
      visited := visited + {index};
      assert index in ALL_CELLS;
      ghost var now := state.Value();
      SweepNew(site, blocked, start, was, seen, added, index);
      OpenedBlocks(site, before, now, added, user, at);
      var opening := TryOpen(site, state, current.0, current.1, user, at);
      if opening.Err? {
        return Err(opening.error);
      }
      if opening.value.None? {
        SweepSkip(site, blocked, start, was, seen, added, visited);
        continue;
      }
      OpenedMore(site, before, now, added, index, user, at);
      if opening.value.value == 0 {
        queue := PushNeighbours(queue, current);
        SweepOpen(site, blocked, start, was, seen, added, Around(current, 9));
      } else {
        SweepOpen(site, blocked, start, was, seen, added, []);
        assert queue == was[1..] + [];
      }
      added := added + {index};
    }
    SweepEnd(site, blocked, start, visited, added);
    OpenedAll(site, before, state.Value(), startX, startY, user, at);
    r := Ok(());
  }
}
