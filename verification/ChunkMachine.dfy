/** The state machine of one leaf chunk: open, flag and lazy reopening (openCellInWorker, flagCellInWorker and
    reopenExpiredChunk in internal/service/chunk_service.go), and what every history of it keeps. */
module ChunkMachine {
  import opened Wrappers
  import opened ChunkIds
  import opened MineField
  import opened ChunkState
  import opened Cascade

  datatype OpenResponse = OpenResponse(
    x: int, y: int, index: int, mine: bool, closed: bool, closedAt: Option<int>, closedUntil: Option<int>,
    canceled: bool, adjacentMines: int, version: int, openedAt: int, newOpenedCount: int,
    cells: map<int, OpenedCell>)

  datatype FlagResponse = FlagResponse(x: int, y: int, index: int, flagged: bool, version: int)

  datatype OperationError = InvalidCell | ChunkClosed | CellAlreadyOpen | CellFlagged | MineFailure(error: MineError)
                          | WrongChunk | ChunkOccupied | MatchFailure | Canceled | StoreError

  // ---------------------------------------------------------------- one operation on the stored value

  /** Lazy reopening at time `now`: an expired closure ends and the version moves on. */
  function Reopen(c: Chunk, now: int, closure: int): Chunk {
    if !c.closed then c
    else
      var closedAt := if c.closedUntil.None? && c.closedAt.None? then Some(now) else c.closedAt;
      var closedUntil := if c.closedUntil.None? then Some(closedAt.value + closure) else c.closedUntil;
      if now < closedUntil.value then c.(closedAt := closedAt, closedUntil := closedUntil)
      else c.(closed := false, closedBy := 0, closedAt := None, closedUntil := None, version := c.version + 1)
  }

  ghost predicate HasOpened(c: Chunk, user: int) {
    exists i :: i in c.cells && c.cells[i].openedBy == user
  }

  function Repeat(c: Chunk, cell: OpenedCell): OpenResponse {
    OpenResponse(cell.x, cell.y, cell.index, false, c.closed, None, None, false, cell.adjacentMines, c.version,
        cell.openedAt,
                 0, map[cell.index := cell])
  }

  function Protected(c: Chunk, x: int, y: int, index: int, now: int): OpenResponse {
    OpenResponse(x, y, index, true, false, None, None, true, 0, c.version, now, 0, map[])
  }

  function Performed(before: Chunk, after: Chunk, x: int, y: int, index: int, mine: bool, number: int,
      now: int): OpenResponse {
    OpenResponse(x, y, index, mine, after.closed, after.closedAt, after.closedUntil, false, number, after.version, now,
                 |after.cells| - |before.cells|, after.cells)
  }

  function Explode(c: Chunk, user: int, now: int, closure: int): Chunk {
    c.(closed := true, closedBy := user, closedAt := Some(now), closedUntil := Some(now + closure),
        version := c.version + 1)
  }

  /** Opening a safe cell that is neither open nor flagged. */
  ghost function Uncover(site: Site, c: Chunk, index: int, user: int, now: int): Chunk
    requires SiteOk(site)
  {
    if Number(site, index) == 0 then OpenedArea(site, c, index, user, now).(version := c.version + 1)
    else c.(cells := c.cells[index := NewCell(site, index, user, now)], version := c.version + 1)
  }

  /** Opening once the expired closure has been lifted. */
  ghost function OpenBody(site: Site, c: Chunk, user: int, x: int, y: int, now: int, closure: int)
    : (Chunk, Result<OpenResponse, OperationError>)
    requires SiteOk(site) && ChunkCellIndex(x, y).Some?
  {
    var index := ChunkCellIndex(x, y).value;
    if c.closed then (c, Err(ChunkClosed))
    else if index in c.cells then (c, Ok(Repeat(c, c.cells[index])))
    else if index in c.flaggedBy then (c, Err(CellFlagged))
    else if !RateOk(site.season) then (c, Err(MineFailure(InvalidRate)))
    else if Mine(site, index) then
      if !HasOpened(c, user) then (c, Ok(Protected(c, x, y, index, now)))
      else var after := Explode(c, user, now, closure); (after, Ok(Performed(c, after, x, y, index, true, 0, now)))
    else
      var after := Uncover(site, c, index, user, now);
      (after, Ok(Performed(c, after, x, y, index, false, Number(site, index), now)))
  }

  function FlagBody(c: Chunk, user: int, x: int, y: int, flagged: bool): (Chunk, Result<FlagResponse, OperationError>)
    requires ChunkCellIndex(x, y).Some?
  {
    var index := ChunkCellIndex(x, y).value;
    if c.closed then (c, Err(ChunkClosed))
    else if index in c.cells then (c, Err(CellAlreadyOpen))
    else
      var flaggedBy := if flagged then c.flaggedBy[index := user] else c.flaggedBy - {index};
      (c.(flaggedBy := flaggedBy, version := c.version + 1), Ok(FlagResponse(x, y, index, flagged, c.version + 1)))
  }

  // ---------------------------------------------------------------- histories

  /** The writes that reach the store for one chunk. A worker operation is a reopening followed by a body; a reader
      (summary, snapshot, list) is a reopening alone. */
  datatype Event =
    | Reopening(at: int)
    | Opening(user: int, x: int, y: int, at: int)
    | Flagging(user: int, x: int, y: int, flagged: bool, at: int)

  ghost function Step(site: Site, closure: int, c: Chunk, e: Event): Chunk
    requires SiteOk(site)
  {
    match e
    case Reopening(at) => Reopen(c, at, closure)
    case Opening(user, x, y, at) => if ChunkCellIndex(x, y).None? then c
        else OpenBody(site, c, user, x, y, at, closure).0
    case Flagging(user, x, y, flagged, _) => if ChunkCellIndex(x, y).None? then c
        else FlagBody(c, user, x, y, flagged).0
  }

  /** The stored state after the first `k` events. */
  ghost function After(site: Site, closure: int, start: Chunk, events: seq<Event>, k: nat): Chunk
    requires SiteOk(site) && k <= |events|
  {
    if k == 0 then start else Step(site, closure, After(site, closure, start, events, k - 1), events[k - 1])
  }

  // ---------------------------------------------------------------- what every reachable state satisfies

  ghost predicate CellOk(site: Site, i: int, cell: OpenedCell)
    requires SiteOk(site)
  {
    && IsCell(i) && !Mine(site, i)
    && cell.x == CellX(i) && cell.y == CellY(i) && cell.index == i == cell.y * CHUNK_SIZE + cell.x
    && cell.adjacentMines == Number(site, i)
  }

  ghost predicate ChunkInv(site: Site, c: Chunk)
    requires SiteOk(site)
  {
    && (forall i :: i in c.cells ==> CellOk(site, i, c.cells[i]))
    && (forall i :: i in c.flaggedBy ==> IsCell(i))
    && c.cells.Keys !! c.flaggedBy.Keys
    && (c.closed ==> c.closedAt.Some? && c.closedUntil.Some? && HasOpened(c, c.closedBy))
    && (!c.closed ==> c.closedBy == 0 && c.closedAt == None && c.closedUntil == None)
    && c.version >= 1
  }

  /** `c'` keeps every opened record of `c`, and between equal versions nothing on the board changes. */
  ghost predicate Follows(c: Chunk, c': Chunk) {
    && (forall i :: i in c.cells ==> i in c'.cells && c'.cells[i] == c.cells[i])
    && c.version <= c'.version
    && (c.version == c'.version ==> SameBoard(c, c'))
  }

  ghost predicate SameBoard(c: Chunk, c': Chunk) {
    c.cells == c'.cells && c.flaggedBy == c'.flaggedBy && c.closed == c'.closed
  }

  lemma NewCellOk(site: Site, i: int, user: int, at: int)
    requires SiteOk(site) && IsCell(i) && !Mine(site, i)
    ensures CellOk(site, i, NewCell(site, i, user, at))
  {
  }

  lemma UncoverKeeps(site: Site, c: Chunk, index: int, user: int, now: int)
    requires SiteOk(site) && Addable(site, Blocked(c), index)
    ensures var after := Uncover(site, c, index, user, now);
            && index in after.cells && c.cells.Keys <= after.cells.Keys && after.flaggedBy == c.flaggedBy
            && (forall i :: i in after.cells ==>
                  if i in c.cells then after.cells[i] == c.cells[i]
                  else Addable(site, Blocked(c), i) && after.cells[i] == NewCell(site, i, user, now))
  {
    AreaStart(site, Blocked(c), index);
    forall i | i in Area(site, Blocked(c), index) ensures Addable(site, Blocked(c), i) {
      AreaAddable(site, Blocked(c), index, i);
    }
  }

  lemma UncoverInv(site: Site, c: Chunk, index: int, user: int, now: int)
    requires SiteOk(site) && Addable(site, Blocked(c), index)
    requires ChunkInv(site, c) && !c.closed
    ensures ChunkInv(site, Uncover(site, c, index, user, now)) && Follows(c, Uncover(site, c, index, user, now))
  {
    hide Area, NewCell, CellOk;
    UncoverKeeps(site, c, index, user, now);
    var after := Uncover(site, c, index, user, now);
    forall i | i in after.cells ensures CellOk(site, i, after.cells[i]) {
      if i !in c.cells {
        NewCellOk(site, i, user, now);
      }
    }
  }

  lemma ExplodeInv(site: Site, c: Chunk, user: int, now: int, closure: int)
    requires SiteOk(site) && ChunkInv(site, c) && HasOpened(c, user)
    ensures ChunkInv(site, Explode(c, user, now, closure)) && Follows(c, Explode(c, user, now, closure))
  {
    hide CellOk;
    var i :| i in c.cells && c.cells[i].openedBy == user;
    assert i in Explode(c, user, now, closure).cells;
  }

  lemma ReopenInv(site: Site, c: Chunk, now: int, closure: int)
    requires SiteOk(site) && ChunkInv(site, c)
    ensures ChunkInv(site, Reopen(c, now, closure)) && Follows(c, Reopen(c, now, closure))
  {
    hide CellOk;
  }

  lemma OpenBodyInv(site: Site, c: Chunk, user: int, x: int, y: int, now: int, closure: int)
    requires SiteOk(site) && ChunkInv(site, c) && ChunkCellIndex(x, y).Some?
    ensures ChunkInv(site, OpenBody(site, c, user, x, y, now, closure).0)
    ensures Follows(c, OpenBody(site, c, user, x, y, now, closure).0)
  {
    hide ChunkInv, Uncover, Explode, HasOpened;
    var index := ChunkCellIndex(x, y).value;
    IndexCoordinates(x, y);
    if !c.closed && index !in c.cells && index !in c.flaggedBy && RateOk(site.season) {
      if !Mine(site, index) {
        UncoverInv(site, c, index, user, now);
      } else if HasOpened(c, user) {
        ExplodeInv(site, c, user, now, closure);
      }
    }
  }

  lemma StepKeeps(site: Site, closure: int, c: Chunk, e: Event)
    requires SiteOk(site) && ChunkInv(site, c)
    ensures ChunkInv(site, Step(site, closure, c, e))
    ensures Follows(c, Step(site, closure, c, e))
  {
    hide OpenBody, CellOk;
    match e
    case Reopening(at) => ReopenInv(site, c, at, closure);
    case Opening(user, x, y, at) =>
      if ChunkCellIndex(x, y).Some? {
        OpenBodyInv(site, c, user, x, y, at, closure);
      }
    case Flagging(_, x, y, _, _) =>
      if ChunkCellIndex(x, y).Some? {
        IndexCoordinates(x, y);
      }
  }

  /** Every state of every history that starts from a fresh chunk. */
  lemma {:induction false} ReachableKeepsInvariant(site: Site, closure: int, events: seq<Event>, k: nat)
    requires SiteOk(site) && k <= |events|
    ensures ChunkInv(site, After(site, closure, FRESH, events, k))
  {
    if k > 0 {
      ReachableKeepsInvariant(site, closure, events, k - 1);
      StepKeeps(site, closure, After(site, closure, FRESH, events, k - 1), events[k - 1]);
    }
  }

  /** Any two stored states of one history: the later one extends the earlier one, and equal versions mean equal
      opened cells, flags and closure. */
  lemma {:induction false} VersionDeterminesBoard(site: Site, closure: int, events: seq<Event>, j: nat, k: nat)
    requires SiteOk(site) && j <= k <= |events|
    ensures Follows(After(site, closure, FRESH, events, j), After(site, closure, FRESH, events, k))
    decreases k
  {
    if j < k {
      VersionDeterminesBoard(site, closure, events, j, k - 1);
      ReachableKeepsInvariant(site, closure, events, k - 1);
      StepKeeps(site, closure, After(site, closure, FRESH, events, k - 1), events[k - 1]);
    }
  }

  // ---------------------------------------------------------------- closure

  /** A closed chunk stays exactly as it is until its deadline: no event before it changes anything. */
  lemma {:induction false} FrozenUntilDeadline(site: Site, closure: int, start: Chunk, events: seq<Event>, k: nat)
    requires SiteOk(site) && k <= |events|
    requires start.closed && start.closedUntil.Some?
    requires forall n :: 0 <= n < k ==> events[n].at < start.closedUntil.value
    ensures After(site, closure, start, events, k) == start
  {
    if k > 0 {
      FrozenUntilDeadline(site, closure, start, events, k - 1);
    }
  }

  /** Even after the deadline, a closed chunk changes only by its reopening, which leaves the board as it was. */
  lemma {:induction false} ClosedUntilReopened(site: Site, closure: int, start: Chunk, events: seq<Event>, k: nat)
    requires SiteOk(site) && k <= |events|
    requires start.closed && start.closedUntil.Some?
    requires forall n :: 0 <= n < k && events[n].Reopening? ==> events[n].at < start.closedUntil.value
    ensures After(site, closure, start, events, k) == start
    ensures forall at :: start.closedUntil.value <= at ==>
              var after := Step(site, closure, After(site, closure, start, events, k), Reopening(at));
              !after.closed && after.cells == start.cells && after.flaggedBy == start.flaggedBy
                  && after.version == start.version + 1
  {
    if k > 0 {
      ClosedUntilReopened(site, closure, start, events, k - 1);
    }
  }

  /** When an open operation closes the chunk: exactly when it hits a mine by a player who has a cell open there.
      The closure then lasts the configured time, and the board of that moment is the one that is frozen. */
  lemma MineHitCloses(site: Site, closure: int, c: Chunk, user: int, x: int, y: int, now: int)
    requires SiteOk(site) && ChunkCellIndex(x, y).Some? && !c.closed
    ensures
      var index := ChunkCellIndex(x, y).value;
      var after := OpenBody(site, c, user, x, y, now, closure).0;
      && (after.closed <==>
            && index !in c.cells && index !in c.flaggedBy
            && RateOk(site.season) && Mine(site, index) && HasOpened(c, user))
      && (after.closed ==>
            && after.closedBy == user && after.closedUntil == Some(now + closure)
            && after.cells == c.cells && after.flaggedBy == c.flaggedBy)
  {
  }

  /** An open request that hits a mine, by a player who has a cell open in the open chunk. */
  ghost predicate HitsMine(site: Site, c: Chunk, e: Event)
    requires SiteOk(site)
  {
    && e.Opening? && !c.closed && ChunkCellIndex(e.x, e.y).Some? && RateOk(site.season)
    && var index := ChunkCellIndex(e.x, e.y).value;
    index !in c.cells && index !in c.flaggedBy && Mine(site, index) && HasOpened(c, e.user)
  }

  /** Why a chunk is closed, in any history: one event hit a mine, and everything is still as that event left it. */
  lemma {:induction false} ClosedByMineHit(site: Site, closure: int, events: seq<Event>, k: nat) returns (j: nat)
    requires SiteOk(site) && k <= |events| && After(site, closure, FRESH, events, k).closed
    ensures j < k && HitsMine(site, After(site, closure, FRESH, events, j), events[j])
    ensures After(site, closure, FRESH, events, k) ==
              Explode(After(site, closure, FRESH, events, j), events[j].user, events[j].at, closure)
  {
    var before, e := After(site, closure, FRESH, events, k - 1), events[k - 1];
    ReachableKeepsInvariant(site, closure, events, k - 1);
    if before.closed {
      j := ClosedByMineHit(site, closure, events, k - 1);
      ClosedStays(site, closure, before, e);
    } else {
      j := k - 1;
      ClosingStep(site, closure, before, e);
    }
  }

  lemma ClosedStays(site: Site, closure: int, c: Chunk, e: Event)
    requires SiteOk(site) && ChunkInv(site, c) && c.closed
    ensures Step(site, closure, c, e).closed ==> Step(site, closure, c, e) == c
  {
    hide CellOk, HasOpened, Number, Mine, Area;
  }

  lemma ClosingStep(site: Site, closure: int, c: Chunk, e: Event)
    requires SiteOk(site) && !c.closed && Step(site, closure, c, e).closed
    ensures HitsMine(site, c, e) && Step(site, closure, c, e) == Explode(c, e.user, e.at, closure)
  {
    hide HasOpened, Number, Mine, Area;
  }

  // ---------------------------------------------------------------- what is answered

  /** Each refusal of an open request has its exact condition, and leaves the state alone. */
  lemma OpenRefusals(site: Site, c: Chunk, user: int, x: int, y: int, now: int, closure: int)
    requires SiteOk(site) && ChunkCellIndex(x, y).Some?
    ensures
      var (c', r), i := OpenBody(site, c, user, x, y, now, closure), ChunkCellIndex(x, y).value;
      var covered := !c.closed && i !in c.cells;
      && (r == Err(ChunkClosed) <==> c.closed)
      && (r == Err(CellFlagged) <==> covered && i in c.flaggedBy)
      && (r == Err(MineFailure(InvalidRate)) <==> covered && i !in c.flaggedBy && !RateOk(site.season))
      && (r.Err? ==> c' == c && r.error in {ChunkClosed, CellFlagged, MineFailure(InvalidRate)})
  {
    hide Uncover, Explode, Number, Mine, HasOpened, Performed, Protected, Repeat;
  }

  /** An accepted open names the asked cell and shows the state it leaves. It is cancelled exactly for a covered mine of
      a player without an open cell there, and then changes nothing. A safe cell comes with its number. */
  lemma OpenAnswers(site: Site, c: Chunk, user: int, x: int, y: int, now: int, closure: int)
    requires SiteOk(site) && ChunkCellIndex(x, y).Some? && ChunkInv(site, c)
    requires OpenBody(site, c, user, x, y, now, closure).1.Ok?
    ensures
      var (c', r), i := OpenBody(site, c, user, x, y, now, closure), ChunkCellIndex(x, y).value;
      var a := r.value;
      && a.x == x && a.y == y && a.index == i && a.version == c'.version && a.closed == c'.closed
      && a.newOpenedCount == |c'.cells| - |c.cells|
      && (a.mine <==> Mine(site, i)) && (a.canceled <==> Mine(site, i) && !HasOpened(c, user))
      && (a.canceled ==> c' == c && !a.closed && a.cells == map[] && a.openedAt == now)
      && (!a.mine ==> i in c'.cells && a.adjacentMines == Number(site, i) && !a.closed)
      && (a.mine ==> a.adjacentMines == 0)
      && (i in c.cells ==> c' == c && a.cells == map[i := c.cells[i]] && a.openedAt == c.cells[i].openedAt)
  {
    hide Area, NewCell;
    var i := ChunkCellIndex(x, y).value;
    IndexCoordinates(x, y);
    if i in c.cells {
      assert CellOk(site, i, c.cells[i]);
    } else if !Mine(site, i) {
      UncoverKeeps(site, c, i, user, now);
    }
    hide Mine, Number, HasOpened, Uncover;
  }

  /** What an accepted open of a covered cell did, unless it was cancelled: the version moves by one, every new record
      is the player's and of this moment, a mine closes the chunk for the configured time; the answer shows all of it. */
  lemma OpenEffect(site: Site, c: Chunk, user: int, x: int, y: int, now: int, closure: int)
    requires SiteOk(site) && ChunkCellIndex(x, y).Some? && ChunkCellIndex(x, y).value !in c.cells
    requires OpenBody(site, c, user, x, y, now, closure).1.Ok?
    requires !OpenBody(site, c, user, x, y, now, closure).1.value.canceled
    ensures
      var (c', r), i := OpenBody(site, c, user, x, y, now, closure), ChunkCellIndex(x, y).value;
      var a := r.value;
      && c'.version == c.version + 1 && c'.flaggedBy == c.flaggedBy
      && a.cells == c'.cells && a.openedAt == now && a.closedAt == c'.closedAt && a.closedUntil == c'.closedUntil
      && (forall j :: j in c'.cells && j !in c.cells ==> c'.cells[j].openedBy == user && c'.cells[j].openedAt == now)
      && (a.mine ==>
            c'.closed && c'.closedBy == user && c'.closedAt == Some(now) && c'.closedUntil == Some(now + closure)
            && c'.cells == c.cells)
      && (!a.mine ==>
            c'.closed == c.closed && c'.closedBy == c.closedBy && c'.closedAt == c.closedAt
            && c'.closedUntil == c.closedUntil && i in c'.cells && i !in c.cells)
  {
    hide Area, Number;
    var i := ChunkCellIndex(x, y).value;
    IndexCoordinates(x, y);
    if !Mine(site, i) {
      UncoverKeeps(site, c, i, user, now);
      hide Mine;
    }
    hide HasOpened;
  }

  /** Each answer to a flag request has its exact condition; an accepted one sets or removes one flag. */
  lemma FlagAnswers(c: Chunk, user: int, x: int, y: int, flagged: bool)
    requires ChunkCellIndex(x, y).Some?
    ensures
      var (c', r), i := FlagBody(c, user, x, y, flagged), ChunkCellIndex(x, y).value;
      && (r == Err(ChunkClosed) <==> c.closed) && (r == Err(CellAlreadyOpen) <==> !c.closed && i in c.cells)
      && (r.Err? ==> c' == c && r.error in {ChunkClosed, CellAlreadyOpen})
      && (r.Ok? ==>
            && r.value == FlagResponse(x, y, i, flagged, c.version + 1)
            && c'.(flaggedBy := c.flaggedBy, version := c.version) == c && c'.version == c.version + 1
            && (i in c'.flaggedBy <==> flagged) && (flagged ==> c'.flaggedBy[i] == user)
            && forall j :: j != i ==>
                 (j in c'.flaggedBy <==> j in c.flaggedBy)
                 && (j in c.flaggedBy ==> c'.flaggedBy[j] == c.flaggedBy[j]))
  {
  }

  /** When the closure of a closed chunk ends: at the stored time; else one closure after the stored beginning, or after
      the moment somebody looks. */
  function Deadline(c: Chunk, now: int, closure: int): int {
    match (c.closedUntil, c.closedAt)
    case (Some(until), _) => until
    case (None, Some(start)) => start + closure
    case (None, None) => now + closure
  }

  /** Reopening lifts a closure exactly when its deadline has come; before, it only completes missing times. */
  lemma ReopenAtDeadline(c: Chunk, now: int, closure: int)
    ensures
      var c', deadline := Reopen(c, now, closure), Deadline(c, now, closure);
      && c'.cells == c.cells && c'.flaggedBy == c.flaggedBy
      && (!c.closed ==> c' == c)
      && (c.closed ==> (c'.closed <==> now < deadline))
      && (c.closed && c'.closed ==>
            && c'.closedBy == c.closedBy && c'.version == c.version && c'.closedUntil == Some(deadline)
            && c'.closedAt == if c.closedUntil.None? && c.closedAt.None? then Some(now) else c.closedAt)
      && (c.closed && !c'.closed ==>
            c'.closedBy == 0 && c'.closedAt == None && c'.closedUntil == None && c'.version == c.version + 1)
  {
  }
}
