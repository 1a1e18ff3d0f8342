/** The browser's copy of one chunk and how live events keep it up to date (static/app.js), against the history of the
    chunk on the server and the events that are broadcast (internal/handler/chunk_handler.go). */
module Replica {
  import opened Wrappers
  import opened ChunkState

  // ---------------------------------------------------------------- the copy

  /** The snapshot, when one is held, and the entry of the separate flag table. Flags are kept by cell index. */
  datatype Copy = Copy(held: bool, version: int, closed: bool, cells: map<int, OpenedCell>, flagged: set<int>,
      flags: set<int>)

  const NO_COPY: Copy := Copy(false, 0, false, map[], {}, {})

  /** The events of the live map, with the fields that the copy reads. */
  datatype Update = OpenedUpdate(version: int, result: OpenedCell, cells: seq<OpenedCell>)
                  | FlaggedUpdate(version: int, index: int, flagged: bool)
                  | ClosedUpdate(version: int)

  function Ensured(c: Copy): Copy { if c.held then c else Copy(true, 1, false, map[], {}, c.flags) }

  function Flagged(c: Copy, index: int, on: bool): Copy {
    var flags := if on then c.flags + {index} else c.flags - {index};
    var flagged := if !c.held then c.flagged else if on then c.flagged + {index} else c.flagged - {index};
    c.(flags := flags, flagged := flagged)
  }

  function Upserted(c: Copy, cell: OpenedCell, version: int): Copy {
    var e := Ensured(c);
    Flagged(e.(cells := e.cells[cell.index := cell], version := if version != 0 then version else e.version),
        cell.index, false)
  }

  function AllUpserted(c: Copy, cells: seq<OpenedCell>, version: int): Copy {
    if cells == [] then c else Upserted(AllUpserted(c, cells[..|cells| - 1], version), cells[|cells| - 1], version)
  }

  /** An open event that lists no cells stands for the cell it names. */
  function Listed(result: OpenedCell, cells: seq<OpenedCell>): seq<OpenedCell> {
    if |cells| > 0 then cells else [result]
  }

  function Acted(c: Copy, version: int, closed: bool): Copy {
    if !c.held then c
    else c.(version := if version != 0 then version else c.version, closed := c.closed || closed)
  }

  /** A gap in the versions: something was missed. */
  predicate NeedsReload(c: Copy, version: int) { c.held && c.version != 0 && version > c.version + 1 }

  /** What an update does to the copy when nobody looks at its version. */
  function Blind(c: Copy, u: Update): Copy {
    match u
    case OpenedUpdate(version, result, cells) => Acted(AllUpserted(c, Listed(result, cells), version), version, false)
    case FlaggedUpdate(version, index, on) => Acted(Flagged(c, index, on), version, false)
    case ClosedUpdate(version) => Acted(c, version, true)
  }

  /** What a live event does: nothing when it leaves a gap. */
  function Applied(c: Copy, u: Update): Copy { if u.version != 0 && NeedsReload(c, u.version) then c else Blind(c, u) }

  /** What is left when the snapshot is thrown away, as the page does for closed chunks whose time is over. */
  function Dropped(c: Copy): Copy { NO_COPY.(flags := c.flags) }

  /** What is left when the flag table of a chunk out of sight is thrown away. */
  function Pruned(c: Copy): Copy { c.(flags := {}) }

  /** What a snapshot response holds: the stored state, its cells and flags listed in any order. */
  datatype Snapshot = Snapshot(version: int, closed: bool, cells: seq<OpenedCell>, flagged: seq<int>)

  function Loaded(s: Snapshot): Copy {
    Copy(true, s.version, s.closed, CellMap(s.cells), Indices(s.flagged), Indices(s.flagged))
  }

  /** A list of cells as a map by index. */
  function CellMap(cells: seq<OpenedCell>): map<int, OpenedCell> {
    if cells == [] then map[] else CellMap(cells[..|cells| - 1])[cells[|cells| - 1].index := cells[|cells| - 1]]
  }

  function Indices(flagged: seq<int>): set<int> {
    if flagged == [] then {} else Indices(flagged[..|flagged| - 1]) + {flagged[|flagged| - 1]}
  }

  // ---------------------------------------------------------------- the functions of app.js, in place

  predicate DistinctCells(cells: seq<OpenedCell>) {
    forall i, j :: 0 <= i < j < |cells| ==> cells[i].index != cells[j].index
  }

  predicate DistinctFlags(flagged: seq<int>) { forall i, j :: 0 <= i < j < |flagged| ==> flagged[i] != flagged[j] }

  lemma {:induction false} IndicesMembers(flagged: seq<int>, i: int)
    ensures i in Indices(flagged) <==> exists k :: 0 <= k < |flagged| && flagged[k] == i
  {
    if flagged != [] {
      var init := flagged[..|flagged| - 1];
      IndicesMembers(init, i);
      if exists k :: 0 <= k < |flagged| && flagged[k] == i {
        var k :| 0 <= k < |flagged| && flagged[k] == i;
        assert k < |init| ==> init[k] == i;
      }
    }
  }

  lemma IndicesAdd(flagged: seq<int>, i: int)
    ensures Indices(flagged + [i]) == Indices(flagged) + {i}
  {
    assert (flagged + [i])[..|flagged|] == flagged;
  }

  function Spliced(flagged: seq<int>, k: nat): seq<int>
    requires k < |flagged|
  {
    flagged[..k] + flagged[k + 1..]
  }

  lemma SplicedAt(flagged: seq<int>, k: nat)
    requires k < |flagged|
    ensures |Spliced(flagged, k)| == |flagged| - 1
    ensures forall n :: 0 <= n < |flagged| - 1 ==> Spliced(flagged, k)[n] == flagged[if n < k then n else n + 1]
  {
  }

  lemma IndicesSplice(flagged: seq<int>, k: nat)
    requires DistinctFlags(flagged) && k < |flagged|
    ensures Indices(Spliced(flagged, k)) == Indices(flagged) - {flagged[k]}
    ensures DistinctFlags(Spliced(flagged, k))
  {
    hide Indices;
    SplicedAt(flagged, k);
    hide Spliced;
    if Indices(Spliced(flagged, k)) != Indices(flagged) - {flagged[k]} {
      var i := Differ(Indices(Spliced(flagged, k)), Indices(flagged) - {flagged[k]});
      SpliceMembers(flagged, k, i);
    }
  }

  lemma SpliceMembers(flagged: seq<int>, k: nat, i: int)
    requires DistinctFlags(flagged) && k < |flagged|
    ensures i in Indices(Spliced(flagged, k)) <==> i in Indices(flagged) && i != flagged[k]
  {
    hide Indices;
    IndicesMembers(flagged, i);
    IndicesMembers(Spliced(flagged, k), i);
    SplicedAt(flagged, k);
    hide Spliced;
    if i in Indices(flagged) && i != flagged[k] {
      var n :| 0 <= n < |flagged| && flagged[n] == i;
      assert Spliced(flagged, k)[if n < k then n else n - 1] == i;
    }
  }

  lemma CellMapAdd(cells: seq<OpenedCell>, cell: OpenedCell)
    ensures CellMap(cells + [cell]) == CellMap(cells)[cell.index := cell]
  {
    assert (cells + [cell])[..|cells|] == cells;
  }

  /** Replacing a cell in place of the one with its index. */
  lemma {:induction false} CellMapReplace(cells: seq<OpenedCell>, k: nat, cell: OpenedCell)
    requires k < |cells| && DistinctCells(cells) && cells[k].index == cell.index
    ensures CellMap(cells[k := cell]) == CellMap(cells)[cell.index := cell]
  {
    var init, last := cells[..|cells| - 1], cells[|cells| - 1];
    if k == |cells| - 1 {
      assert cells[k := cell] == init + [cell];
      CellMapAdd(init, cell);
      assert CellMap(init)[last.index := last][cell.index := cell] == CellMap(init)[cell.index := cell];
    } else {
      CellMapReplace(init, k, cell);
      assert cells[k := cell] == init[k := cell] + [last];
      CellMapAdd(init[k := cell], last);
      assert CellMap(init)[cell.index := cell][last.index := last] ==
          CellMap(init)[last.index := last][cell.index := cell];
    }
  }

  class ChunkReplica {
    var held: bool
    var version: int
    var closed: bool
    var openedCells: seq<OpenedCell>
    var flaggedCells: seq<int>
    var flags: set<int>

    function View(): Copy
      reads this
    {
      Copy(held, version, closed, CellMap(openedCells), Indices(flaggedCells), flags)
    }

    ghost predicate Valid()
      reads this
    {
      DistinctCells(openedCells) && DistinctFlags(flaggedCells)
    }

    constructor ()
      ensures Valid() && View() == NO_COPY
    {
      held, version, closed, openedCells, flaggedCells, flags := false, 0, false, [], [], {};
    }

    method EnsureSnapshot()
      requires Valid()
      modifies this
      ensures Valid() && View() == Ensured(old(View()))
    {
      if !held {
        held, version, closed, openedCells, flaggedCells := true, 1, false, [], [];
      }
    }

    method SetCellFlag(index: int, on: bool)
      requires Valid()
      modifies this
      ensures Valid() && View() == Flagged(old(View()), index, on)
    {
      flags := if on then flags + {index} else flags - {index};
      if !held {
        return;
      }
      var existing := FindFlag(index);
      if on {
        if existing >= 0 {
          flaggedCells := flaggedCells[existing := index];
          assert flaggedCells == old(flaggedCells);
          assert Indices(flaggedCells) + {index} == Indices(flaggedCells);
        } else {
          IndicesAdd(flaggedCells, index);
          flaggedCells := flaggedCells + [index];
        }
      } else if existing >= 0 {
        IndicesSplice(flaggedCells, existing);
        flaggedCells := Spliced(flaggedCells, existing);
      } else {
        assert Indices(flaggedCells) - {index} == Indices(flaggedCells);
      }
    }

    method FindFlag(index: int) returns (k: int)
      ensures -1 <= k < |flaggedCells|
      ensures k >= 0 ==> flaggedCells[k] == index
      ensures k < 0 ==> forall n :: 0 <= n < |flaggedCells| ==> flaggedCells[n] != index
      ensures k >= 0 <==> index in Indices(flaggedCells)
    {
      IndicesMembers(flaggedCells, index);
      for n := 0 to |flaggedCells|
        invariant forall m :: 0 <= m < n ==> flaggedCells[m] != index
      {
        if flaggedCells[n] == index {
          return n;
        }
      }
      return -1;
    }

    method FindCell(index: int) returns (k: int)
      ensures -1 <= k < |openedCells|
      ensures k >= 0 ==> openedCells[k].index == index
      ensures k < 0 ==> forall n :: 0 <= n < |openedCells| ==> openedCells[n].index != index
    {
      for n := 0 to |openedCells|
        invariant forall m :: 0 <= m < n ==> openedCells[m].index != index
      {
        if openedCells[n].index == index {
          return n;
        }
      }
      return -1;
    }

    method UpsertOpenedCell(cell: OpenedCell, newVersion: int)
      requires Valid()
      modifies this
      ensures Valid() && View() == Upserted(old(View()), cell, newVersion)
    {
      EnsureSnapshot();
      var existing := FindCell(cell.index);
      if existing >= 0 {
        CellMapReplace(openedCells, existing, cell);
        openedCells := openedCells[existing := cell];
      } else {
        CellMapAdd(openedCells, cell);
        openedCells := openedCells + [cell];
      }
      version := if newVersion != 0 then newVersion else version;
      SetCellFlag(cell.index, false);
    }

    method UpsertOpenedCells(result: OpenedCell, openedCells: seq<OpenedCell>, newVersion: int)
      requires Valid()
      modifies this
      ensures Valid() && View() == AllUpserted(old(View()), Listed(result, openedCells), newVersion)
    {
      var cells := if |openedCells| > 0 then openedCells else [result];
      for k := 0 to |cells|
        invariant Valid() && View() == AllUpserted(old(View()), cells[..k], newVersion)
      {
        assert cells[..k + 1][..k] == cells[..k];
        UpsertOpenedCell(cells[k], newVersion);
      }
      assert cells[..|cells|] == cells;
    }

    method UpdateChunkAfterAction(newVersion: int, isClosed: bool)
      requires Valid()
      modifies this`version, this`closed
      ensures Valid() && View() == Acted(old(View()), newVersion, isClosed)
    {
      if held && newVersion != 0 {
        version := newVersion;
      }
      if held {
        if isClosed {
          closed := true;
        }
      }
    }

    method ShouldReloadSnapshot(nextVersion: int) returns (reload: bool)
      ensures reload <==> NeedsReload(View(), nextVersion)
    {
      if !held || version == 0 {
        return false;
      }
      return nextVersion > version + 1;
    }

    /** Handles one live event; `reload` asks for a new snapshot and leaves the copy as it is. */
    method HandleMapWSEvent(u: Update) returns (reload: bool)
      requires Valid()
      modifies this
      ensures Valid() && View() == Applied(old(View()), u)
      ensures reload <==> u.version != 0 && NeedsReload(old(View()), u.version)
    {
      if u.version != 0 {
        reload := ShouldReloadSnapshot(u.version);
        if reload {
          return;
        }
      }
      reload := false;
      HandleAnswer(u);
    }

    /** Handles the answer to an own click: the same functions, without a look at the version. */
    method HandleAnswer(u: Update)
      requires Valid()
      modifies this
      ensures Valid() && View() == Blind(old(View()), u)
    {
      match u
      case OpenedUpdate(newVersion, result, cells) =>
        UpsertOpenedCells(result, cells, newVersion);
        UpdateChunkAfterAction(newVersion, false);
      case FlaggedUpdate(newVersion, index, on) =>
        SetCellFlag(index, on);
        UpdateChunkAfterAction(newVersion, false);
      case ClosedUpdate(newVersion) =>
        UpdateChunkAfterAction(newVersion, true);
    }

    /** The snapshot response replaces whatever was held. */
    method LoadSnapshot(s: Snapshot)
      requires DistinctCells(s.cells) && DistinctFlags(s.flagged)
      modifies this
      ensures Valid() && View() == Loaded(s)
    {
      held, version, closed, openedCells, flaggedCells := true, s.version, s.closed, s.cells, s.flagged;
      SyncFlagsFromSnapshot(s.flagged);
    }

    method DropSnapshot()
      modifies this
      ensures Valid() && View() == Dropped(old(View()))
    {
      held, version, closed, openedCells, flaggedCells := false, 0, false, [], [];
    }

    method PruneInvisibleFlags()
      modifies this`flags
      ensures View() == Pruned(old(View()))
    {
      flags := {};
    }

    method SyncFlagsFromSnapshot(flagged: seq<int>)
      modifies this`flags
      ensures flags == Indices(flagged)
    {
      flags := {};
      for k := 0 to |flagged|
        invariant flags == Indices(flagged[..k])
      {
        assert flagged[..k + 1][..k] == flagged[..k];
        flags := flags + {flagged[k]};
      }
      assert flagged[..|flagged|] == flagged;
    }
  }
}
