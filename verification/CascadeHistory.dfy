/** What repeated cascades add up to over a whole history of one chunk. */
module CascadeHistory {
  import opened ChunkIds
  import opened MineField
  import opened ChunkState
  import opened Cascade
  import opened ChunkMachine

  ghost predicate EverFlagged(site: Site, closure: int, events: seq<Event>, k: nat, j: int)
    requires SiteOk(site) && k <= |events|
  {
    exists n: nat :: n <= k && j in After(site, closure, FRESH, events, n).flaggedBy
  }

  lemma UncoverSurrounds(site: Site, c: Chunk, index: int, user: int, now: int, i: int, j: int)
    requires SiteOk(site) && Addable(site, Blocked(c), index)
    requires i in Uncover(site, c, index, user, now).cells && i !in c.cells
    requires Number(site, i) == 0 && Touch(i, j)
    ensures j in Uncover(site, c, index, user, now).cells || j in c.flaggedBy
  {
    hide IsPath, NewCell;
    if Number(site, index) == 0 {
      ZeroHasNoMineAround(site, i, j);
      if j !in Blocked(c) {
        AreaStep(site, Blocked(c), index, i, j);
      }
    }
  }

  /** The only way a cell next to an open cell without a number stays covered is a flag, present or past. */
  lemma {:induction false} CoveredCellsWereFlagged(site: Site, closure: int, events: seq<Event>, k: nat, i: int, j: int)
    requires SiteOk(site) && k <= |events|
    requires i in After(site, closure, FRESH, events, k).cells && Number(site, i) == 0 && Touch(i, j)
    ensures j in After(site, closure, FRESH, events, k).cells || EverFlagged(site, closure, events, k, j)
  {
    hide Uncover, Explode, Reopen, CellOk;
    if k > 0 {
      var before, after := After(site, closure, FRESH, events, k - 1), After(site, closure, FRESH, events, k);
      var e := events[k - 1];
      ReachableKeepsInvariant(site, closure, events, k - 1);
      StepKeeps(site, closure, before, e);
      if i in before.cells {
        CoveredCellsWereFlagged(site, closure, events, k - 1, i, j);
        if EverFlagged(site, closure, events, k - 1, j) {
          var n: nat :| n <= k - 1 && j in After(site, closure, FRESH, events, n).flaggedBy;
          assert n <= k && j in After(site, closure, FRESH, events, n).flaggedBy;
        }
      } else {
        ReopenCells(before, e.at, closure);
        ExplodeCells(before, closure, e);
        assert e.Opening?;
        IndexCoordinates(e.x, e.y);
        UncoverSurrounds(site, before, ChunkCellIndex(e.x, e.y).value, e.user, e.at, i, j);
        assert k - 1 <= k;
      }
    }
  }

  lemma ReopenCells(c: Chunk, now: int, closure: int)
    ensures Reopen(c, now, closure).cells == c.cells && Reopen(c, now, closure).flaggedBy == c.flaggedBy
  {
  }

  lemma ExplodeCells(c: Chunk, closure: int, e: Event)
    ensures e.Opening? ==>
              var after := Explode(c, e.user, e.at, closure); after.cells == c.cells && after.flaggedBy == c.flaggedBy
  {
  }

  // ---------------------------------------------------------------- without flags the order does not matter

  /** An open request for a safe cell that finds the chunk open. */
  ghost predicate Accepted(site: Site, c: Chunk, e: Event) {
    e.Opening? && ChunkCellIndex(e.x, e.y).Some? && !c.closed && RateOk(site.season)
    && !Mine(site, ChunkCellIndex(e.x, e.y).value)
  }

  /** The cells asked for by the accepted requests among the first `k` events. */
  ghost function Requested(site: Site, closure: int, events: seq<Event>, k: nat): set<int>
    requires SiteOk(site) && k <= |events|
  {
    if k == 0 then {}
    else
      var earlier := Requested(site, closure, events, k - 1);
      if Accepted(site, After(site, closure, FRESH, events, k - 1), events[k - 1])
      then earlier + {ChunkCellIndex(events[k - 1].x, events[k - 1].y).value}
      else earlier
  }

  /** What one click uncovers on an untouched board. */
  ghost function Uncovered(site: Site, i: int): set<int>
    requires SiteOk(site)
  {
    if Number(site, i) == 0 then Area(site, {}, i) else {i}
  }

  /** The union of what the single clicks uncover, each taken on an untouched board. */
  ghost function UncoveredByAll(site: Site, starts: set<int>): set<int>
    requires SiteOk(site)
  {
    set i | i in ALL_CELLS && exists start :: start in starts && i in Uncovered(site, start)
  }

  ghost predicate Saturated(site: Site, cells: set<int>)
    requires SiteOk(site)
  {
    forall i, j :: i in cells && Number(site, i) == 0 && Touch(i, j) ==> j in cells
  }

  lemma {:induction false} PathBlockedLess(site: Site, blocked: set<int>, start: int)
    requires SiteOk(site)
    ensures Area(site, blocked, start) <= Area(site, {}, start)
  {
    forall i | i in Area(site, blocked, start) ensures i in Area(site, {}, start) {
      var path :| IsPath(site, blocked, start, path) && path[|path| - 1] == i;
      assert IsPath(site, {}, start, path);
    }
  }

  lemma SaturatedCascade(site: Site, cells: set<int>, start: int)
    requires SiteOk(site) && Saturated(site, cells) && !Mine(site, start) && IsCell(start) && Number(site, start) == 0
    ensures cells + Area(site, cells, start) == cells + Area(site, {}, start)
  {
    hide IsPath;
    PathBlockedLess(site, cells, start);
    var all := cells + Area(site, cells, start);
    AreaStart(site, cells, start);
    forall i, j | i in all && Number(site, i) == 0 && Touch(i, j) && Addable(site, {}, j) ensures j in all {
      if i !in cells && j !in cells {
        AreaStep(site, cells, start, i, j);
      }
    }
    AreaInside(site, {}, start, all);
  }

  lemma SaturatedArea(site: Site, start: int)
    requires SiteOk(site)
    ensures Saturated(site, Uncovered(site, start))
  {
    hide IsPath;
    forall i, j | i in Uncovered(site, start) && Number(site, i) == 0 && Touch(i, j)
      ensures j in Uncovered(site, start)
    {
      ZeroHasNoMineAround(site, i, j);
      AreaStep(site, {}, start, i, j);
    }
  }

  lemma SaturatedUnion(site: Site, a: set<int>, b: set<int>)
    requires SiteOk(site) && Saturated(site, a) && Saturated(site, b)
    ensures Saturated(site, a + b)
  {
  }

  lemma UncoverUnion(site: Site, c: Chunk, index: int, user: int, now: int)
    requires SiteOk(site) && c.flaggedBy == map[] && Saturated(site, c.cells.Keys)
    requires IsCell(index) && !Mine(site, index) && index !in c.cells
    ensures Uncover(site, c, index, user, now).cells.Keys == c.cells.Keys + Uncovered(site, index)
  {
    hide Area, Saturated;
    assert Blocked(c) == c.cells.Keys;
    if Number(site, index) == 0 {
      SaturatedCascade(site, c.cells.Keys, index);
      assert OpenedArea(site, c, index, user, now).cells.Keys == c.cells.Keys + Area(site, c.cells.Keys, index);
    }
  }

  /** A repeated click uncovers nothing new on a saturated board. */
  lemma RepeatUnion(site: Site, cells: set<int>, index: int)
    requires SiteOk(site) && Saturated(site, cells) && index in cells
    ensures Uncovered(site, index) <= cells
  {
    if Number(site, index) == 0 {
      AreaInside(site, {}, index, cells);
    }
  }

  lemma UncoveredByMore(site: Site, starts: set<int>, start: int)
    requires SiteOk(site) && IsCell(start)
    ensures UncoveredByAll(site, starts + {start}) == UncoveredByAll(site, starts) + Uncovered(site, start)
  {
    hide Reaches;
    forall i
      ensures i in UncoveredByAll(site, starts + {start}) <==>
      i in UncoveredByAll(site, starts) + Uncovered(site, start)
    {
      assert start in starts + {start};
      if i in UncoveredByAll(site, starts) {
        var s :| s in starts && i in Uncovered(site, s);
        assert s in starts + {start};
      }
    }
  }

  lemma FlagFreeStep(site: Site, closure: int, c: Chunk, e: Event)
    requires SiteOk(site) && ChunkInv(site, c) && c.flaggedBy == map[] && Saturated(site, c.cells.Keys) && !e.Flagging?
    ensures var after := Step(site, closure, c, e);
            && after.flaggedBy == map[] && Saturated(site, after.cells.Keys)
            && after.cells.Keys == c.cells.Keys +
                 (if Accepted(site, c, e) then Uncovered(site, ChunkCellIndex(e.x, e.y).value) else {})
  {
    hide Saturated, Uncovered, Uncover, CellOk;
    var after := Step(site, closure, c, e);
    ReopenCells(c, e.at, closure);
    if Accepted(site, c, e) {
      var index := ChunkCellIndex(e.x, e.y).value;
      IndexCoordinates(e.x, e.y);
      SaturatedArea(site, index);
      SaturatedUnion(site, c.cells.Keys, Uncovered(site, index));
      if index in c.cells {
        RepeatUnion(site, c.cells.Keys, index);
        assert after.cells.Keys == c.cells.Keys + Uncovered(site, index);
      } else {
        UncoverUnion(site, c, index, e.user, e.at);
        UncoverKeeps(site, c, index, e.user, e.at);
      }
    } else {
      assert after.cells.Keys == c.cells.Keys + {};
    }
  }

  /** In a history without flags the open cells are those that the accepted clicks would uncover one by one on an
      untouched board: neither the order of the clicks nor who made them matters. */
  lemma {:induction false} FlagFreeUnion(site: Site, closure: int, events: seq<Event>, k: nat)
    requires SiteOk(site) && k <= |events|
    requires forall n :: 0 <= n < k ==> !events[n].Flagging?
    ensures var c := After(site, closure, FRESH, events, k);
            && c.flaggedBy == map[] && Saturated(site, c.cells.Keys)
            && c.cells.Keys == UncoveredByAll(site, Requested(site, closure, events, k))
  {
    hide Uncovered, Step, Saturated;
    if k == 0 {
      assert UncoveredByAll(site, {}) == {};
      assert Saturated(site, FRESH.cells.Keys) by { SaturatedEmpty(site); }
    } else {
      FlagFreeUnion(site, closure, events, k - 1);
      var before, e := After(site, closure, FRESH, events, k - 1), events[k - 1];
      ReachableKeepsInvariant(site, closure, events, k - 1);
      FlagFreeStep(site, closure, before, e);
      if Accepted(site, before, e) {
        var index := ChunkCellIndex(e.x, e.y).value;
        IndexCoordinates(e.x, e.y);
        UncoveredByMore(site, Requested(site, closure, events, k - 1), index);
      }
    }
  }

  lemma SaturatedEmpty(site: Site)
    requires SiteOk(site)
    ensures Saturated(site, FRESH.cells.Keys)
  {
  }

  /** Two flag-free histories that accepted the same clicks, in any order and by any players, open the same cells. */
  lemma FlagFreeConfluence(site: Site, closure: int, events: seq<Event>, events': seq<Event>)
    requires SiteOk(site)
    requires forall n :: 0 <= n < |events| ==> !events[n].Flagging?
    requires forall n :: 0 <= n < |events'| ==> !events'[n].Flagging?
    requires Requested(site, closure, events, |events|) == Requested(site, closure, events', |events'|)
    ensures After(site, closure, FRESH, events, |events|).cells.Keys ==
              After(site, closure, FRESH, events', |events'|).cells.Keys
  {
    FlagFreeUnion(site, closure, events, |events|);
    FlagFreeUnion(site, closure, events', |events'|);
  }
}
