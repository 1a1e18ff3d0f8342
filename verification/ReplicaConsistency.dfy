/** When the browser's copy equals the server's board at the copy's version: always after live events that are
    neither older than the copy nor repeat an open cell, and exactly under one condition after any other event or own
    answer. */
module ReplicaConsistency {
  import opened Wrappers
  import opened ChunkIds
  import opened ChunkState
  import opened Cascade
  import opened ChunkMachine
  import opened Replica

  // ---------------------------------------------------------------- what the server sends

  /** `u` is what is broadcast for event `e` on a chunk in state `c`. Refused, protected and reopening writes send
      nothing. */
  ghost predicate Sends(site: Site, closure: int, c: Chunk, e: Event, u: Update)
    requires SiteOk(site)
  {
    match e
    case Reopening(_) => false
    case Opening(user, x, y, at) =>
      ChunkCellIndex(x, y).Some? && SendsOpen(OpenBody(site, c, user, x, y, at, closure).1, u)
    case Flagging(user, x, y, on, _) =>
      && ChunkCellIndex(x, y).Some? && FlagBody(c, user, x, y, on).1.Ok?
      && u == FlaggedUpdate(c.version + 1, ChunkCellIndex(x, y).value, on)
  }

  ghost predicate SendsOpen(r: Result<OpenResponse, OperationError>, u: Update) {
    && r.Ok? && !r.value.canceled
    && if r.value.closed then u == ClosedUpdate(r.value.version)
       else u.OpenedUpdate? && u.version == r.value.version && CellMap(u.cells) == r.value.cells
  }

  /** The request opens a cell that is open already: nothing is written, yet an event is sent. */
  predicate Repeats(c: Chunk, e: Event) {
    e.Opening? && !c.closed && ChunkCellIndex(e.x, e.y).Some? && ChunkCellIndex(e.x, e.y).value in c.cells
  }

  /** `s` is the snapshot response for a chunk in state `c`, with its lists in any order. */
  ghost predicate SnapshotOf(s: Snapshot, c: Chunk) {
    && s.version == c.version && s.closed == c.closed
    && CellMap(s.cells) == c.cells && (forall i :: i in Indices(s.flagged) <==> i in c.flaggedBy)
  }

  // ---------------------------------------------------------------- agreement

  /** The copy shows the cells, flags and closure of a stored state, in the snapshot and in the flag table. */
  ghost predicate Shows(copy: Copy, c: Chunk) {
    && copy.held && copy.version == c.version && copy.closed == c.closed
    && (forall i :: i in copy.cells <==> i in c.cells)
    && (forall i :: i in c.cells ==> i in copy.cells && copy.cells[i] == c.cells[i])
    && (forall i :: i in copy.flags <==> i in c.flaggedBy)
    && (forall i :: i in copy.flagged <==> i in c.flaggedBy)
  }

  /** The copy equals the server's board at the copy's version. */
  ghost predicate Faithful(site: Site, closure: int, events: seq<Event>, copy: Copy)
    requires SiteOk(site)
  {
    exists k: nat :: k <= |events| && Shows(copy, After(site, closure, FRESH, events, k))
  }

  /** Every stored state of that version has that board. */
  lemma FaithfulAt(site: Site, closure: int, events: seq<Event>, copy: Copy, k: nat)
    requires SiteOk(site) && Faithful(site, closure, events, copy)
    requires k <= |events| && After(site, closure, FRESH, events, k).version == copy.version
    ensures Shows(copy, After(site, closure, FRESH, events, k))
  {
    hide After, Shows;
    var j: nat :| j <= |events| && Shows(copy, After(site, closure, FRESH, events, j));
    ShowsVersion(copy, After(site, closure, FRESH, events, j));
    if j <= k {
      VersionDeterminesBoard(site, closure, events, j, k);
    } else {
      VersionDeterminesBoard(site, closure, events, k, j);
    }
    SameShows(copy, After(site, closure, FRESH, events, j), After(site, closure, FRESH, events, k));
  }

  lemma ShowsVersion(copy: Copy, c: Chunk)
    requires Shows(copy, c)
    ensures copy.held && copy.version == c.version
  {
  }

  lemma SameShows(copy: Copy, a: Chunk, b: Chunk)
    requires Shows(copy, a) && SameBoard(a, b) && a.version == b.version
    ensures Shows(copy, b)
  {
  }

  // ---------------------------------------------------------------- one update, pointwise

  lemma {:induction false} UpsertedAt(c: Copy, cells: seq<OpenedCell>, version: int, i: int)
    requires c.held
    ensures var after, listed := AllUpserted(c, cells, version), CellMap(cells);
            && after.held && after.closed == c.closed && after.version ==
                (if cells != [] && version != 0 then version else c.version)
            && (i in after.cells <==> i in c.cells || i in listed)
            && (i in after.cells ==> after.cells[i] == if i in listed then listed[i] else c.cells[i])
            && (i in after.flags <==> i in c.flags && i !in listed)
            && (i in after.flagged <==> i in c.flagged && i !in listed)
  {
    if cells != [] {
      UpsertedAt(c, cells[..|cells| - 1], version, i);
    }
  }

  /** The cells that an update lists. */
  function Listing(u: Update): map<int, OpenedCell> {
    if u.OpenedUpdate? then CellMap(Listed(u.result, u.cells)) else map[]
  }

  /** The flag that an update sets or removes. */
  predicate IsFlagOf(u: Update, i: int) { u.FlaggedUpdate? && u.index == i }

  ghost predicate BlindAt(copy: Copy, u: Update, i: int) {
    var after, listed := Blind(copy, u), Listing(u);
    && after.held && (u.version != 0 ==> after.version == u.version) && after.closed == (copy.closed || u.ClosedUpdate?)
    && (i in after.cells <==> i in copy.cells || i in listed)
    && (i in after.cells ==> after.cells[i] == if i in listed then listed[i] else copy.cells[i])
    && (i in after.flags <==> if IsFlagOf(u, i) then u.flagged else i in copy.flags && i !in listed)
    && (i in after.flagged <==> if IsFlagOf(u, i) then u.flagged else i in copy.flagged && i !in listed)
  }

  lemma BlindEffect(copy: Copy, u: Update, i: int)
    requires copy.held
    ensures BlindAt(copy, u, i)
  {
    if u.OpenedUpdate? {
      UpsertedAt(copy, Listed(u.result, u.cells), u.version, i);
    }
  }

  /** What an update says is true of a state. */
  ghost predicate Tells(u: Update, c: Chunk) {
    && u.version == c.version && (u.ClosedUpdate? <==> c.closed)
    && (forall i :: i in Listing(u) ==> i in c.cells && Listing(u)[i] == c.cells[i])
    && (u.FlaggedUpdate? ==> u.index !in c.cells && (u.index in c.flaggedBy <==> u.flagged))
  }

  /** Two boards that differ at most where an update speaks: whatever lies between them touched no other cell and no
      other flag, and lifted no closure, of which no update speaks. */
  ghost predicate DifferOnlyIn(a: Chunk, b: Chunk, u: Update) {
    && (a.closed ==> b.closed)
    && forall i ::
      i !in Listing(u) ==>
        && (i in a.cells <==> i in b.cells)
        && (IsFlagOf(u, i) || (i in a.flaggedBy <==> i in b.flaggedBy))
  }

  ghost predicate SameRecords(a: Chunk, b: Chunk) {
    forall i :: i in a.cells && i in b.cells ==> a.cells[i] == b.cells[i]
  }

  /** An update that tells the truth about `after` turns a copy of `before` into a copy of `after` exactly when the two
      boards differ only where it speaks. */
  lemma BlindShows(copy: Copy, before: Chunk, after: Chunk, u: Update)
    requires Shows(copy, before) && Tells(u, after) && SameRecords(before, after) && after.version != 0
    requires forall i :: i in after.flaggedBy ==> i !in after.cells
    ensures Shows(Blind(copy, u), after) <==> DifferOnlyIn(before, after, u)
  {
    hide Blind, Listing;
    forall i ensures BlindAt(copy, u, i) {
      BlindEffect(copy, u, i);
    }
    assert BlindAt(copy, u, 0);
    if DifferOnlyIn(before, after, u) {
      EnoughShown(copy, before, after, u);
    }
    if Shows(Blind(copy, u), after) {
      forall i | i !in Listing(u)
        ensures i in before.cells <==> i in after.cells
        ensures IsFlagOf(u, i) || (i in before.flaggedBy <==> i in after.flaggedBy)
      {
        assert BlindAt(copy, u, i);
      }
    }
  }

  lemma EnoughShown(copy: Copy, before: Chunk, after: Chunk, u: Update)
    requires Shows(copy, before) && Tells(u, after) && SameRecords(before, after) && after.version != 0
    requires forall i :: i in after.flaggedBy ==> i !in after.cells
    requires (forall i :: BlindAt(copy, u, i)) && DifferOnlyIn(before, after, u)
    ensures Shows(Blind(copy, u), after)
  {
    hide Blind, Listing;
    var result := Blind(copy, u);
    assert BlindAt(copy, u, 0);
    forall i ensures (i in result.cells <==> i in after.cells) && (i in result.flags <==> i in after.flaggedBy)
                     && (i in result.flagged <==> i in after.flaggedBy)
    {
      assert BlindAt(copy, u, i);
    }
    forall i | i in after.cells ensures i in result.cells && result.cells[i] == after.cells[i] {
      assert BlindAt(copy, u, i);
    }
  }

  // ---------------------------------------------------------------- one write and what it sends

  /** A write that sends an event and is not a repeat moves the version by one; and the event carries the new
      version. */
  lemma SentVersion(site: Site, closure: int, c: Chunk, e: Event, u: Update)
    requires SiteOk(site) && Sends(site, closure, c, e, u)
    ensures u.version == Step(site, closure, c, e).version
    ensures u.version == if Repeats(c, e) then c.version else c.version + 1
  {
    hide HasOpened, Number, Mine, OpenedArea, NewCell, CellMap;
  }

  /** What a sent write did to the board. */
  lemma SentEffect(site: Site, closure: int, c: Chunk, e: Event, u: Update)
    requires SiteOk(site) && ChunkInv(site, c) && Sends(site, closure, c, e, u) && !Repeats(c, e)
    ensures var after := Step(site, closure, c, e);
            match u
            case OpenedUpdate(_, _, cells) => cells != [] && CellMap(cells) == after.cells
                && after.flaggedBy == c.flaggedBy
            case FlaggedUpdate(_, index, on) =>
              && after.cells == c.cells
              && forall i :: i in after.flaggedBy <==> if i == index then on else i in c.flaggedBy
            case ClosedUpdate(_) => after.cells == c.cells && after.flaggedBy == c.flaggedBy
  {
    hide CellOk, HasOpened, Number, Mine, Area, NewCell;
    if e.Opening? && !u.ClosedUpdate? {
      var index := ChunkCellIndex(e.x, e.y).value;
      IndexCoordinates(e.x, e.y);
      UncoverKeeps(site, c, index, e.user, e.at);
      assert index in CellMap(u.cells);
    }
  }

  lemma InvFacts(site: Site, c: Chunk)
    requires SiteOk(site) && ChunkInv(site, c)
    ensures c.version >= 1 && forall i :: i in c.flaggedBy ==> i !in c.cells
  {
  }

  lemma CellHasIndex(site: Site, c: Chunk, index: int)
    requires SiteOk(site) && ChunkInv(site, c) && index in c.cells
    ensures c.cells[index].index == index
  {
    assert CellOk(site, index, c.cells[index]);
  }

  lemma RepeatStays(site: Site, closure: int, c: Chunk, e: Event)
    requires SiteOk(site) && Repeats(c, e)
    ensures Step(site, closure, c, e) == c && e.Opening? && ChunkCellIndex(e.x, e.y).Some?
              && ChunkCellIndex(e.x, e.y).value in c.cells
  {
  }

  /** The event of a repeated open lists the one cell. */
  lemma RepeatIsOneCell(site: Site, closure: int, c: Chunk, e: Event, u: Update)
    requires SiteOk(site) && ChunkInv(site, c) && Sends(site, closure, c, e, u) && Repeats(c, e)
    ensures ChunkCellIndex(e.x, e.y).Some?
    ensures var index := ChunkCellIndex(e.x, e.y).value;
            u.OpenedUpdate? && u.version == c.version && index in c.cells && Listing(u) == map[index := c.cells[index]]
  {
    hide Uncover, Explode, Mine, Number;
    var cell := c.cells[ChunkCellIndex(e.x, e.y).value];
    CellHasIndex(site, c, ChunkCellIndex(e.x, e.y).value);
    assert cell.index in CellMap(u.cells);
  }

  /** Every event tells the truth about the state it leads to. */
  lemma SentTells(site: Site, closure: int, c: Chunk, e: Event, u: Update)
    requires SiteOk(site) && ChunkInv(site, c) && Sends(site, closure, c, e, u)
    ensures Tells(u, Step(site, closure, c, e))
  {
    SentVersion(site, closure, c, e, u);
    if Repeats(c, e) {
      RepeatIsOneCell(site, closure, c, e, u);
      RepeatStays(site, closure, c, e);
    } else {
      SentEffect(site, closure, c, e, u);
      if u.FlaggedUpdate? {
        FlaggedCovered(site, closure, c, e, u);
      }
    }
  }

  lemma FlaggedCovered(site: Site, closure: int, c: Chunk, e: Event, u: Update)
    requires SiteOk(site) && Sends(site, closure, c, e, u) && u.FlaggedUpdate?
    ensures u.index !in c.cells
  {
    hide Uncover, Explode, Mine, Number, HasOpened;
  }

  /** A write changes the board only where its event speaks. */
  lemma SentCovers(site: Site, closure: int, c: Chunk, e: Event, u: Update)
    requires SiteOk(site) && ChunkInv(site, c) && Sends(site, closure, c, e, u)
    ensures DifferOnlyIn(c, Step(site, closure, c, e), u)
  {
    hide CellOk, HasOpened;
    if Repeats(c, e) {
      RepeatStays(site, closure, c, e);
    } else {
      StepKeeps(site, closure, c, e);
      SentEffect(site, closure, c, e, u);
    }
  }

  lemma SameBoardCovers(a: Chunk, b: Chunk, u: Update)
    requires SameBoard(a, b)
    ensures DifferOnlyIn(a, b, u)
  {
  }

  lemma BoardBefore(a: Chunk, b: Chunk, c: Chunk, u: Update)
    requires SameBoard(a, b) && DifferOnlyIn(b, c, u)
    ensures DifferOnlyIn(a, c, u)
  {
  }

  // ---------------------------------------------------------------- the exact condition

  /** At the version of a stored state, faithful means showing that state. */
  lemma FaithfulIffShows(site: Site, closure: int, events: seq<Event>, copy: Copy, k: nat)
    requires SiteOk(site) && k <= |events| && copy.version == After(site, closure, FRESH, events, k).version
    ensures Faithful(site, closure, events, copy) <==> Shows(copy, After(site, closure, FRESH, events, k))
  {
    hide After, Shows;
    if Faithful(site, closure, events, copy) {
      FaithfulAt(site, closure, events, copy, k);
    }
  }

  lemma AfterNext(site: Site, closure: int, events: seq<Event>, j: nat)
    requires SiteOk(site) && j < |events|
    ensures After(site, closure, FRESH, events, j + 1) ==
              Step(site, closure, After(site, closure, FRESH, events, j), events[j])
  {
    hide Step;
  }

  lemma SameHistoryRecords(site: Site, closure: int, events: seq<Event>, j: nat, k: nat)
    requires SiteOk(site) && j <= |events| && k <= |events|
    ensures SameRecords(After(site, closure, FRESH, events, j), After(site, closure, FRESH, events, k))
  {
    if j <= k {
      VersionDeterminesBoard(site, closure, events, j, k);
    } else {
      VersionDeterminesBoard(site, closure, events, k, j);
    }
  }

  /** The effect of any update, live or own answer, in order or not, on a copy of any stored state: it is harmless
      exactly when that state and the one the update comes from differ only where the update speaks. */
  lemma BlindIsHarmless(site: Site, closure: int, events: seq<Event>, copy: Copy, k: nat, j: nat, u: Update)
    requires SiteOk(site) && k <= |events| && j < |events| && Shows(copy, After(site, closure, FRESH, events, k))
    requires Sends(site, closure, After(site, closure, FRESH, events, j), events[j], u)
    ensures Faithful(site, closure, events, Blind(copy, u)) <==>
              DifferOnlyIn(After(site, closure, FRESH, events, k), After(site, closure, FRESH, events, j + 1), u)
  {
    hide After, Step, Sends, Shows, ChunkInv, Tells, SameRecords, DifferOnlyIn, Faithful, Blind;
    var before, c, after := After(site, closure, FRESH, events, k), After(site, closure, FRESH, events, j),
        After(site, closure, FRESH, events, j + 1);
    ReachableKeepsInvariant(site, closure, events, j);
    ReachableKeepsInvariant(site, closure, events, j + 1);
    SameHistoryRecords(site, closure, events, k, j + 1);
    AfterNext(site, closure, events, j);
    SentTells(site, closure, c, events[j], u);
    SentVersion(site, closure, c, events[j], u);
    InvFacts(site, after);
    BlindShows(copy, before, after, u);
    BlindVersion(copy, before, u);
    FaithfulIffShows(site, closure, events, Blind(copy, u), j + 1);
  }

  lemma BlindVersion(copy: Copy, c: Chunk, u: Update)
    requires Shows(copy, c) && u.version != 0
    ensures Blind(copy, u).version == u.version
  {
    BlindEffect(copy, u, 0);
    assert BlindAt(copy, u, 0);
  }

  /** A live event: harmless exactly when it leaves a gap, and so only asks for a new snapshot, or under that
      condition. */
  lemma EventIsHarmless(site: Site, closure: int, events: seq<Event>, copy: Copy, k: nat, j: nat, u: Update)
    requires SiteOk(site) && k <= |events| && j < |events| && Shows(copy, After(site, closure, FRESH, events, k))
    requires Sends(site, closure, After(site, closure, FRESH, events, j), events[j], u)
    ensures Faithful(site, closure, events, Applied(copy, u)) <==>
              || u.version > copy.version + 1
              || DifferOnlyIn(After(site, closure, FRESH, events, k), After(site, closure, FRESH, events, j + 1), u)
  {
    hide Sends, Shows, DifferOnlyIn, Blind;
    assert Faithful(site, closure, events, copy);
    HeldVersion(site, closure, events, copy);
    hide After, Faithful;
    BlindIsHarmless(site, closure, events, copy, k, j, u);
  }

  lemma HeldVersion(site: Site, closure: int, events: seq<Event>, copy: Copy)
    requires SiteOk(site) && Faithful(site, closure, events, copy)
    ensures copy.held && copy.version >= 1
  {
    hide After, ChunkInv;
    var k: nat :| k <= |events| && Shows(copy, After(site, closure, FRESH, events, k));
    ReachableKeepsInvariant(site, closure, events, k);
    InvFacts(site, After(site, closure, FRESH, events, k));
  }

  /** Up to one version behind, an event that repeats nothing, or any event of the copy's own version, always meets the
      condition. */
  lemma InOrderIsHarmless(site: Site, closure: int, events: seq<Event>, copy: Copy, k: nat, j: nat, u: Update)
    requires SiteOk(site) && k <= |events| && j < |events| && Shows(copy, After(site, closure, FRESH, events, k))
    requires Sends(site, closure, After(site, closure, FRESH, events, j), events[j], u)
    requires u.version == copy.version || u.version == copy.version + 1
    requires u.version == copy.version || !Repeats(After(site, closure, FRESH, events, j), events[j])
    ensures DifferOnlyIn(After(site, closure, FRESH, events, k), After(site, closure, FRESH, events, j + 1), u)
  {
    hide After, Step, Sends, Shows, Repeats, ChunkInv, DifferOnlyIn, SameBoard;
    var before, c, after := After(site, closure, FRESH, events, k), After(site, closure, FRESH, events, j),
        After(site, closure, FRESH, events, j + 1);
    AfterNext(site, closure, events, j);
    ReachableKeepsInvariant(site, closure, events, j);
    ShowsVersion(copy, before);
    SentVersion(site, closure, c, events[j], u);
    EqualVersions(site, closure, events, k, if u.version == copy.version then j + 1 else j);
    if u.version == copy.version {
      SameBoardCovers(before, after, u);
    } else {
      SentCovers(site, closure, c, events[j], u);
      BoardBefore(before, c, after, u);
    }
  }

  lemma EqualVersions(site: Site, closure: int, events: seq<Event>, j: nat, k: nat)
    requires SiteOk(site) && j <= |events| && k <= |events|
    requires After(site, closure, FRESH, events, j).version == After(site, closure, FRESH, events, k).version
    ensures SameBoard(After(site, closure, FRESH, events, j), After(site, closure, FRESH, events, k))
  {
    if j <= k {
      VersionDeterminesBoard(site, closure, events, j, k);
    } else {
      VersionDeterminesBoard(site, closure, events, k, j);
    }
  }

  /** Receiving the event of write `j` keeps the copy faithful, whatever was lost, duplicated or reordered before,
      unless it is older than the copy or repeats an open cell. */
  lemma ReceiveKeeps(site: Site, closure: int, events: seq<Event>, copy: Copy, j: nat, u: Update)
    requires SiteOk(site) && Faithful(site, closure, events, copy) && j < |events|
    requires Sends(site, closure, After(site, closure, FRESH, events, j), events[j], u)
    requires !Repeats(After(site, closure, FRESH, events, j), events[j])
    requires u.version >= copy.version
    ensures Faithful(site, closure, events, Applied(copy, u))
  {
    hide Sends, Repeats, Shows, DifferOnlyIn, After;
    var k: nat :| k <= |events| && Shows(copy, After(site, closure, FRESH, events, k));
    EventIsHarmless(site, closure, events, copy, k, j, u);
    if u.version <= copy.version + 1 {
      InOrderIsHarmless(site, closure, events, copy, k, j, u);
    }
  }

  /** Progress: an event of the copy's version, or the next one unless it repeats, brings a right copy to the state that
      its write led to, every cell, flag and closure of it. */
  lemma EventTakesEffect(site: Site, closure: int, events: seq<Event>, copy: Copy, k: nat, j: nat, u: Update)
    requires SiteOk(site) && k <= |events| && j < |events| && Shows(copy, After(site, closure, FRESH, events, k))
    requires Sends(site, closure, After(site, closure, FRESH, events, j), events[j], u)
    requires u.version == copy.version || u.version == copy.version + 1
    requires u.version == copy.version || !Repeats(After(site, closure, FRESH, events, j), events[j])
    ensures Shows(Applied(copy, u), After(site, closure, FRESH, events, j + 1))
  {
    hide After, Step, Sends, Repeats, ChunkInv, DifferOnlyIn, Faithful, Shows, Applied;
    AfterNext(site, closure, events, j);
    ReachableKeepsInvariant(site, closure, events, j);
    SentVersion(site, closure, After(site, closure, FRESH, events, j), events[j], u);
    ShowsVersion(copy, After(site, closure, FRESH, events, k));
    ReachableKeepsInvariant(site, closure, events, k);
    InvFacts(site, After(site, closure, FRESH, events, k));
    EventIsHarmless(site, closure, events, copy, k, j, u);
    InOrderIsHarmless(site, closure, events, copy, k, j, u);
    EventMovesVersion(copy, u);
    FaithfulIffShows(site, closure, events, Applied(copy, u), j + 1);
  }

  /** A live event on a held copy either leaves a gap, and then changes nothing, or brings the copy to its version; on a
      copy that is not held it still sets or removes the flag it speaks of. An own answer always does. */
  lemma EventMovesVersion(copy: Copy, u: Update)
    requires u.version != 0
    ensures copy.held && copy.version != 0 && u.version > copy.version + 1 ==> Applied(copy, u) == copy
    ensures copy.held && !(copy.version != 0 && u.version > copy.version + 1) ==> Applied(copy, u).version == u.version
    ensures copy.held ==> Blind(copy, u).version == u.version
    ensures !copy.held && u.FlaggedUpdate? ==>
              !Applied(copy, u).held
              && Applied(copy, u).flags == if u.flagged then copy.flags + {u.index} else copy.flags - {u.index}
    ensures !copy.held && u.ClosedUpdate? ==> Applied(copy, u) == copy
  {
    if copy.held {
      BlindEffect(copy, u, 0);
      assert BlindAt(copy, u, 0);
    }
    hide AllUpserted;
  }

  /** The event of a repeated open is harmless exactly when the copy is not one version behind, or what it missed
      touched no other cell and was no reopening. */
  lemma RepeatIsHarmless(site: Site, closure: int, events: seq<Event>, copy: Copy, k: nat, j: nat, u: Update)
    requires SiteOk(site) && k <= j < |events| && Shows(copy, After(site, closure, FRESH, events, k))
    requires Sends(site, closure, After(site, closure, FRESH, events, j), events[j], u)
    requires Repeats(After(site, closure, FRESH, events, j), events[j])
    ensures Faithful(site, closure, events, Applied(copy, u)) <==>
              || u.version != copy.version + 1
              || DifferOnlyAt(After(site, closure, FRESH, events, k), After(site, closure, FRESH, events, j),
                              ChunkCellIndex(events[j].x, events[j].y).value)
  {
    hide After, Sends, Repeats, Step, ChunkInv, Faithful, Applied, Shows;
    var c := After(site, closure, FRESH, events, j);
    EventIsHarmless(site, closure, events, copy, k, j, u);
    ReachableKeepsInvariant(site, closure, events, j);
    RepeatIsOneCell(site, closure, c, events[j], u);
    RepeatStays(site, closure, c, events[j]);
    AfterNext(site, closure, events, j);
    VersionDeterminesBoard(site, closure, events, k, j);
    ShowsVersion(copy, After(site, closure, FRESH, events, k));
  }

  /** Two states whose cells and flags differ at most in one cell, without a lifted closure between them. */
  ghost predicate DifferOnlyAt(a: Chunk, b: Chunk, index: int) {
    && (a.closed ==> b.closed)
    && forall i :: i != index ==> (i in a.cells <==> i in b.cells) && (i in a.flaggedBy <==> i in b.flaggedBy)
  }

  // ---------------------------------------------------------------- any run of a browser

  /** A snapshot response for the state after `k` writes, the live event of write `j`, the answer to an own click that
      was write `j`; or the page throws away the snapshot, or the flag table. */
  datatype Arrival =
    | SnapshotArrives(k: nat, s: Snapshot)
    | EventArrives(j: nat, u: Update)
    | AnswerArrives(j: nat, u: Update)
    | SnapshotDropped
    | FlagsPruned

  /** On a held copy an event may arrive when it is neither older nor a repeat, an own answer in its harmless case;
      without a held copy both may when what they start is right. The flag table of a held copy may go when it is
      empty. */
  ghost predicate MayArrive(site: Site, closure: int, events: seq<Event>, copy: Copy, a: Arrival)
    requires SiteOk(site)
  {
    match a
    case SnapshotArrives(k, s) => k <= |events| && SnapshotOf(s, After(site, closure, FRESH, events, k))
    case EventArrives(j, u) =>
      && j < |events| && Sends(site, closure, After(site, closure, FRESH, events, j), events[j], u)
      && if copy.held then !Repeats(After(site, closure, FRESH, events, j), events[j]) && u.version >= copy.version
         else MayStart(copy, u, After(site, closure, FRESH, events, j + 1))
    case AnswerArrives(j, u) =>
      && j < |events| && Sends(site, closure, After(site, closure, FRESH, events, j), events[j], u)
      && if copy.held then HarmlessAnswer(site, closure, events, copy, j, u)
         else MayStart(copy, u, After(site, closure, FRESH, events, j + 1))
    case SnapshotDropped => true
    case FlagsPruned => copy.held ==> copy.flags == {}
  }

  /** Without a held copy only an open event starts one. */
  ghost predicate MayStart(copy: Copy, u: Update, after: Chunk) { u.OpenedUpdate? ==> StartsRight(copy, u, after) }

  ghost predicate HarmlessAnswer(site: Site, closure: int, events: seq<Event>, copy: Copy, j: nat, u: Update)
    requires SiteOk(site) && j < |events|
  {
    forall k: nat :: k <= |events| && Shows(copy, After(site, closure, FRESH, events, k)) ==>
      DifferOnlyIn(After(site, closure, FRESH, events, k), After(site, closure, FRESH, events, j + 1), u)
  }

  function Arrived(copy: Copy, a: Arrival): Copy {
    match a
    case SnapshotArrives(_, s) => Loaded(s)
    case EventArrives(_, u) => Applied(copy, u)
    case AnswerArrives(_, u) => Blind(copy, u)
    case SnapshotDropped => Dropped(copy)
    case FlagsPruned => Pruned(copy)
  }

  ghost predicate IsBrowserRun(site: Site, closure: int, events: seq<Event>, copies: seq<Copy>, arrivals: seq<Arrival>)
    requires SiteOk(site)
  {
    && |copies| == |arrivals| + 1 && copies[0] == NO_COPY
    && forall n :: 0 <= n < |arrivals| ==>
         MayArrive(site, closure, events, copies[n], arrivals[n]) && copies[n + 1] == Arrived(copies[n], arrivals[n])
  }

  /** In every run of a browser against every history of the chunk, a held copy is the server's board at its version. */
  lemma {:induction false} CopyIsFaithful(site: Site, closure: int, events: seq<Event>, copies: seq<Copy>,
      arrivals: seq<Arrival>, n: nat)
    requires SiteOk(site) && IsBrowserRun(site, closure, events, copies, arrivals) && n < |copies|
    ensures copies[n].held ==> Faithful(site, closure, events, copies[n])
  {
    hide MayArrive, Arrived, Faithful;
    if n > 0 {
      CopyIsFaithful(site, closure, events, copies, arrivals, n - 1);
      ArrivalKeeps(site, closure, events, copies[n - 1], arrivals[n - 1]);
    }
  }

  lemma ArrivalKeeps(site: Site, closure: int, events: seq<Event>, copy: Copy, a: Arrival)
    requires SiteOk(site) && MayArrive(site, closure, events, copy, a)
    requires copy.held ==> Faithful(site, closure, events, copy)
    ensures Arrived(copy, a).held ==> Faithful(site, closure, events, Arrived(copy, a))
  {
    hide Faithful, Sends, Repeats, After, SnapshotOf, Loaded, HarmlessAnswer, Blind, StartsRight;
    match a
    case SnapshotArrives(k, s) => LoadedIsFaithful(site, closure, events, k, s);
    case EventArrives(j, u) =>
      if copy.held {
        ReceiveKeeps(site, closure, events, copy, j, u);
      } else {
        StartKeeps(site, closure, events, copy, j, u);
      }
    case AnswerArrives(j, u) =>
      if copy.held {
        AnswerKeeps(site, closure, events, copy, j, u);
      } else {
        StartKeeps(site, closure, events, copy, j, u);
      }
    case SnapshotDropped =>
    case FlagsPruned =>
      if copy.held {
        assert Pruned(copy) == copy;
      }
  }

  lemma StartKeeps(site: Site, closure: int, events: seq<Event>, copy: Copy, j: nat, u: Update)
    requires SiteOk(site) && j < |events| && !copy.held
    requires Sends(site, closure, After(site, closure, FRESH, events, j), events[j], u)
    requires MayStart(copy, u, After(site, closure, FRESH, events, j + 1))
    ensures Applied(copy, u) == Blind(copy, u)
    ensures Blind(copy, u).held ==> Faithful(site, closure, events, Blind(copy, u))
  {
    hide Faithful, Sends, After, StartsRight;
    if u.OpenedUpdate? {
      WithoutSnapshot(site, closure, events, copy, j, u);
    }
  }

  /** Throwing away the flag table of a chunk keeps a faithful copy so exactly when there was no flag. */
  lemma PruningIsHarmless(site: Site, closure: int, events: seq<Event>, copy: Copy)
    requires SiteOk(site) && Faithful(site, closure, events, copy)
    ensures Faithful(site, closure, events, Pruned(copy)) <==> copy.flags == {}
  {
    hide After;
    if copy.flags == {} {
      assert Pruned(copy) == copy;
    } else {
      var k: nat :| k <= |events| && Shows(copy, After(site, closure, FRESH, events, k));
      var i := SomeMember(copy.flags);
      assert i in After(site, closure, FRESH, events, k).flaggedBy && i !in Pruned(copy).flags;
      FaithfulIffShows(site, closure, events, Pruned(copy), k);
    }
  }

  /** And an own answer keeps a faithful copy so in no other case. */
  lemma AnswerKeeps(site: Site, closure: int, events: seq<Event>, copy: Copy, j: nat, u: Update)
    requires SiteOk(site) && Faithful(site, closure, events, copy) && j < |events|
    requires Sends(site, closure, After(site, closure, FRESH, events, j), events[j], u)
    ensures Faithful(site, closure, events, Blind(copy, u)) <==> HarmlessAnswer(site, closure, events, copy, j, u)
  {
    hide Sends, Shows, DifferOnlyIn, After, Blind;
    forall k: nat | k <= |events| && Shows(copy, After(site, closure, FRESH, events, k))
      ensures Faithful(site, closure, events, Blind(copy, u)) <==>
                DifferOnlyIn(After(site, closure, FRESH, events, k), After(site, closure, FRESH, events, j + 1), u)
    {
      BlindIsHarmless(site, closure, events, copy, k, j, u);
    }
    var k: nat :| k <= |events| && Shows(copy, After(site, closure, FRESH, events, k));
  }

  lemma LoadedIsFaithful(site: Site, closure: int, events: seq<Event>, k: nat, s: Snapshot)
    requires SiteOk(site) && k <= |events| && SnapshotOf(s, After(site, closure, FRESH, events, k))
    ensures Faithful(site, closure, events, Loaded(s))
  {
    hide CellMap, Indices, After;
    assert Shows(Loaded(s), After(site, closure, FRESH, events, k));
  }

  // ---------------------------------------------------------------- events older than the copy

  /** `v - 1` times the first cell is flagged, then the second one. */
  function Flags(v: int, n: nat): seq<Event> {
    seq(n, m requires 0 <= m < n => Flagging(1, if m < v - 1 then 0 else 1, 0, true, 0))
  }

  lemma {:induction false} FlagsAfter(site: Site, closure: int, v: int, n: nat, k: nat)
    requires SiteOk(site) && v >= 2 && k <= n
    ensures var c := After(site, closure, FRESH, Flags(v, n), k);
            && c.version == k + 1 && !c.closed && c.cells == map[]
            && (0 in c.flaggedBy <==> k >= 1) && (1 in c.flaggedBy <==> k >= v)
            && (forall i :: i in c.flaggedBy ==> i == 0 || i == 1)
  {
    if k > 0 {
      FlagsAfter(site, closure, v, n, k - 1);
      var x := if k - 1 < v - 1 then 0 else 1;
      assert ChunkCellIndex(x, 0) == Some(x);
    }
  }

  /** The guard "not older than the copy" is the weakest on versions: for every older version there is a history in
      which an event of that version spoils a faithful copy. */
  lemma OlderEventSpoils(site: Site, closure: int, v: int, w: int) returns (events: seq<Event>, copy: Copy, u: Update)
    requires SiteOk(site) && 2 <= v < w
    ensures Faithful(site, closure, events, copy) && copy.version == w && u.version == v
    ensures v - 2 < |events| && Sends(site, closure, After(site, closure, FRESH, events, v - 2), events[v - 2], u)
    ensures !Repeats(After(site, closure, FRESH, events, v - 2), events[v - 2])
    ensures !Faithful(site, closure, events, Applied(copy, u))
  {
    events := Flags(v, w - 1);
    copy := Copy(true, w, false, map[], {0, 1}, {0, 1});
    u := FlaggedUpdate(v, 0, true);
    FlagsShown(site, closure, v, w);
    FlagSent(site, closure, v, w);
    assert Faithful(site, closure, events, copy);
    hide After, Sends, Repeats, Faithful, Flags;
    FlagsNotShown(site, closure, v, w, Applied(copy, u));
  }

  lemma FlagsNotShown(site: Site, closure: int, v: int, w: int, copy: Copy)
    requires SiteOk(site) && 2 <= v < w && copy.version == v && 1 in copy.flags
    ensures !Faithful(site, closure, Flags(v, w - 1), copy)
  {
    hide After, Faithful;
    FlagsAfter(site, closure, v, w - 1, v - 1);
    FaithfulIffShows(site, closure, Flags(v, w - 1), copy, v - 1);
  }

  lemma FlagsShown(site: Site, closure: int, v: int, w: int)
    requires SiteOk(site) && 2 <= v < w
    ensures Shows(Copy(true, w, false, map[], {0, 1}, {0, 1}), After(site, closure, FRESH, Flags(v, w - 1), w - 1))
  {
    hide After;
    FlagsAfter(site, closure, v, w - 1, w - 1);
  }

  lemma FlagSent(site: Site, closure: int, v: int, w: int)
    requires SiteOk(site) && 2 <= v < w
    ensures var events := Flags(v, w - 1); var c := After(site, closure, FRESH, events, v - 2);
            Sends(site, closure, c, events[v - 2], FlaggedUpdate(v, 0, true)) && !Repeats(c, events[v - 2])
  {
    hide After;
    FlagsAfter(site, closure, v, w - 1, v - 2);
    assert ChunkCellIndex(0, 0) == Some(0);
  }

  // ---------------------------------------------------------------- own answers over a gap

  /** The first cell is flagged again and again, the second one once, by event `v - 1`. */
  function OneOther(v: int, n: nat): seq<Event> {
    seq(n, m requires 0 <= m < n => Flagging(1, if m == v - 1 then 1 else 0, 0, true, 0))
  }

  lemma {:induction false} OneOtherAfter(site: Site, closure: int, v: int, n: nat, k: nat)
    requires SiteOk(site) && v >= 1 && k <= n
    ensures var c := After(site, closure, FRESH, OneOther(v, n), k);
            && c.version == k + 1 && !c.closed && c.cells == map[]
            && (0 in c.flaggedBy <==> k >= 2 || (k == 1 && v != 1)) && (1 in c.flaggedBy <==> k >= v)
            && (forall i :: i in c.flaggedBy ==> i == 0 || i == 1)
  {
    if k > 0 {
      OneOtherAfter(site, closure, v, n, k - 1);
      var x := if k - 1 == v - 1 then 1 else 0;
      assert ChunkCellIndex(x, 0) == Some(x);
    }
  }

  /** An own answer two or more versions ahead of the copy may spoil it, for all such versions: somebody else's flag was
      missed, and the copy takes the version of the own flag without it. */
  lemma OwnAnswerSpoils(site: Site, closure: int, v: int, w: int) returns (events: seq<Event>, copy: Copy, u: Update)
    requires SiteOk(site) && 1 <= v && v + 1 < w
    ensures Faithful(site, closure, events, copy) && copy.version == v && u.version == w
    ensures w - 2 < |events| && Sends(site, closure, After(site, closure, FRESH, events, w - 2), events[w - 2], u)
    ensures Blind(copy, u).version == w && !Faithful(site, closure, events, Blind(copy, u))
  {
    var flags := if v >= 2 then {0} else {};
    events, copy, u := OneOther(v, w - 1), Copy(true, v, false, map[], flags, flags), FlaggedUpdate(w, 0, true);
    OneOtherShown(site, closure, v, w);
    OneOtherSent(site, closure, v, w);
    assert Faithful(site, closure, events, copy);
    hide After, Sends, Faithful, OneOther;
    OneOtherNotShown(site, closure, v, w, Blind(copy, u));
  }

  lemma OneOtherShown(site: Site, closure: int, v: int, w: int)
    requires SiteOk(site) && 1 <= v && v + 1 < w
    ensures var flags := if v >= 2 then {0} else {};
            Shows(Copy(true, v, false, map[], flags, flags), After(site, closure, FRESH, OneOther(v, w - 1), v - 1))
  {
    hide After, OneOther;
    OneOtherAfter(site, closure, v, w - 1, v - 1);
  }

  lemma OneOtherSent(site: Site, closure: int, v: int, w: int)
    requires SiteOk(site) && 1 <= v && v + 1 < w
    ensures w - 2 < |OneOther(v, w - 1)|
    ensures var events := OneOther(v, w - 1);
            Sends(site, closure, After(site, closure, FRESH, events, w - 2), events[w - 2], FlaggedUpdate(w, 0, true))
  {
    hide After;
    OneOtherAfter(site, closure, v, w - 1, w - 2);
    assert ChunkCellIndex(0, 0) == Some(0);
  }

  lemma OneOtherNotShown(site: Site, closure: int, v: int, w: int, copy: Copy)
    requires SiteOk(site) && 1 <= v && v + 1 < w && copy.version == w && 1 !in copy.flags
    ensures !Faithful(site, closure, OneOther(v, w - 1), copy)
  {
    hide After, Faithful;
    OneOtherAfter(site, closure, v, w - 1, w - 1);
    FaithfulIffShows(site, closure, OneOther(v, w - 1), copy, w - 1);
  }

  // ---------------------------------------------------------------- events without a snapshot

  /** The update lists the whole board, the server has no flag, and every flag known from live events is on a listed
      cell. */
  ghost predicate StartsRight(copy: Copy, u: Update, after: Chunk) {
    && (forall i :: i in after.cells ==> i in Listing(u)) && |after.flaggedBy| == 0
    && (forall i :: i in copy.flags ==> i in Listing(u))
  }

  /** Without a snapshot, an open event starts a copy that knows only the flags of live events; it is right exactly
      when the event lists the whole board, as every event does that repeats nothing, the server has no flag and each of
      those known is on an open cell. */
  lemma WithoutSnapshot(site: Site, closure: int, events: seq<Event>, copy: Copy, j: nat, u: Update)
    requires SiteOk(site) && j < |events| && u.OpenedUpdate? && !copy.held
    requires Sends(site, closure, After(site, closure, FRESH, events, j), events[j], u)
    ensures var after := After(site, closure, FRESH, events, j + 1);
            && (Faithful(site, closure, events, Blind(copy, u)) <==> StartsRight(copy, u, after))
            && (!Repeats(After(site, closure, FRESH, events, j), events[j]) ==> Listing(u) == after.cells)
    ensures Applied(copy, u) == Blind(copy, u)
  {
    hide Sends, Repeats, Step, Shows, ChunkInv, CellMap, After, Faithful, StartsRight, Blind, Tells;
    var c, after := After(site, closure, FRESH, events, j), After(site, closure, FRESH, events, j + 1);
    AfterNext(site, closure, events, j);
    ReachableKeepsInvariant(site, closure, events, j);
    ReachableKeepsInvariant(site, closure, events, j + 1);
    SentTells(site, closure, c, events[j], u);
    SentVersion(site, closure, c, events[j], u);
    if !Repeats(c, events[j]) {
      SentEffect(site, closure, c, events[j], u);
    }
    InvFacts(site, after);
    FirstCopy(copy, u, after);
    FaithfulIffShows(site, closure, events, Blind(copy, u), j + 1);
  }

  lemma {:induction false} FirstCellStarts(copy: Copy, cells: seq<OpenedCell>, version: int)
    requires cells != []
    ensures AllUpserted(copy, cells, version) == AllUpserted(Ensured(copy), cells, version)
  {
    if |cells| > 1 {
      FirstCellStarts(copy, cells[..|cells| - 1], version);
    }
  }

  lemma FirstCopy(copy: Copy, u: Update, after: Chunk)
    requires !copy.held && u.OpenedUpdate? && Tells(u, after) && after.version != 0
    requires forall i :: i in after.flaggedBy ==> i !in after.cells
    ensures Blind(copy, u).version == after.version && (Shows(Blind(copy, u), after) <==> StartsRight(copy, u, after))
  {
    var start, cells := Ensured(copy), Listed(u.result, u.cells);
    FirstCellStarts(copy, cells, after.version);
    UpsertedAt(start, cells, after.version, 0);
    var result := Blind(copy, u);
    forall i
      ensures (i in result.cells <==> i in Listing(u)) && (i in result.cells ==> result.cells[i] == Listing(u)[i])
                     && (i in result.flags <==> i in copy.flags && i !in Listing(u)) && i !in result.flagged
    {
      UpsertedAt(start, cells, after.version, i);
    }
    hide AllUpserted, CellMap, Blind, Listing;
    if after.flaggedBy.Keys != {} {
      var i := SomeMember(after.flaggedBy.Keys);
      assert i in after.flaggedBy && i !in result.flagged;
    }
  }

  // ---------------------------------------------------------------- lists

  /** Every map of cells under their own indexes can be listed without repetition, as a response lists it. */
  lemma {:induction false} ListingExists(m: map<int, OpenedCell>) returns (cells: seq<OpenedCell>)
    requires forall i :: i in m ==> m[i].index == i
    ensures DistinctCells(cells) && CellMap(cells) == m && forall k :: 0 <= k < |cells| ==> cells[k].index in m
    decreases |m|
  {
    if m.Keys == {} {
      cells := [];
    } else {
      var i := SomeMember(m.Keys);
      var less := m - {i};
      assert less.Keys == m.Keys - {i};
      var shorter := ListingExists(less);
      cells := shorter + [m[i]];
      CellMapAdd(shorter, m[i]);
      assert less[i := m[i]] == m;
    }
  }
}
