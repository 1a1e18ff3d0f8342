/** The closed-leaf index and its totals over the levels of the map: countClosedLeaves, leafRangeForChunk,
    totalLeafCountForLevel, applyClosedLeafAggregate and GetChunkSummary in internal/service/chunk_service.go, with the
    set kept by internal/repository/mine_chunk_state_repository.go. */
module ClosedLeaves {
  import opened Wrappers
  import opened FiniteSums
  import opened ChunkIds
  import opened ChunkState
  import opened ChunkMachine
  import opened MatchOverlay
  import opened ChunkService
  import opened MatchInvariants

  // ---------------------------------------------------------------- ranges of leaves

  /** A chunk name the map serves. */
  predicate OnMap(id: ChunkID) {
    id.region == "cn" && CHUNK_MIN_LEVEL <= id.z <= CHUNK_MAX_LEVEL && 0 <= id.x < Pow2(id.z) && 0 <= id.y < Pow2(id.z)
  }

  /** Leaves along one side of a chunk of a level. */
  function Scale(level: int): (s: nat)
    requires level <= CHUNK_MAX_LEVEL
    ensures s >= 1
  {
    Pow2(CHUNK_MAX_LEVEL - level)
  }

  datatype Range = Range(minX: int, minY: int, maxX: int, maxY: int)

  function LeafRange(id: ChunkID): Range
    requires id.z <= CHUNK_MAX_LEVEL
  {
    var scale := Scale(id.z);
    Range(id.x * scale, id.y * scale, (id.x + 1) * scale, (id.y + 1) * scale)
  }

  function TotalLeafCount(level: int): nat
    requires level <= CHUNK_MAX_LEVEL
  {
    Scale(level) * Scale(level)
  }

  lemma SomeLeaf(level: int)
    requires level <= CHUNK_MAX_LEVEL
    ensures TotalLeafCount(level) > 0
  {
    Monotone(1, Scale(level), Scale(level));
  }

  /** A member of the closed set that counts for a chunk. */
  predicate CountsFor(raw: string, id: ChunkID) {
    id.z <= CHUNK_MAX_LEVEL
    && match ParseChunkID(raw)
       case Err(_) => false
       case Ok(leaf) =>
         var range := LeafRange(id);
         && leaf.region == id.region && leaf.z == CHUNK_MAX_LEVEL
         && range.minX <= leaf.x < range.maxX && range.minY <= leaf.y < range.maxY
  }

  ghost function ClosedUnder(id: ChunkID, closed: set<string>): set<string> {
    set raw | raw in closed && CountsFor(raw, id)
  }

  method CountClosedLeaves(id: ChunkID, closed: set<string>) returns (count: nat)
    requires id.z <= CHUNK_MAX_LEVEL
    ensures count == |ClosedUnder(id, closed)|
  {
    count := 0;
    if |closed| == 0 {
      return;
    }
    var range := LeafRange(id);
    var rest := closed;
    while rest != {}
      invariant rest <= closed && count == |ClosedUnder(id, closed - rest)|
    {
      var raw := AnyOf(rest);
      ghost var seen := closed - rest;
      rest := rest - {raw};
      assert closed - rest == seen + {raw};
      assert ClosedUnder(id, seen + {raw}) == if CountsFor(raw, id) then ClosedUnder(id, seen) + {raw}
          else ClosedUnder(id, seen);
      var leaf := ParseChunkID(raw);
      if leaf.Err? || leaf.value.region != id.region || leaf.value.z != CHUNK_MAX_LEVEL {
        continue;
      }
      if range.minX <= leaf.value.x < range.maxX && range.minY <= leaf.value.y < range.maxY {
        count := count + 1;
      }
    }
    assert closed - rest == closed;
  }

  // ---------------------------------------------------------------- levels

  /** The chunk of a level that a leaf lies in. */
  function Ancestor(leaf: ChunkID, level: int): ChunkID
    requires level <= CHUNK_MAX_LEVEL
  {
    ChunkID(leaf.region, level, leaf.x / Scale(level), leaf.y / Scale(level))
  }

  lemma Monotone(a: int, b: int, t: int)
    requires a <= b && t >= 0
    ensures a * t <= b * t
  {
  }

  lemma OneMore(q: int, s: int)
    ensures (q + 1) * s == q * s + s
  {
  }

  lemma DivisionRange(x: int, q: int, s: int)
    requires s >= 1
    ensures x / s == q <==> q * s <= x < (q + 1) * s
  {
    var d := x / s;
    assert d * s <= x < d * s + s by { assert x == d * s + x % s; }
    OneMore(q, s);
    OneMore(d, s);
    if q < d {
      Monotone(q + 1, d, s);
    } else if d < q {
      Monotone(d + 1, q, s);
    }
  }

  /** A leaf counts for a chunk exactly when the chunk is its ancestor. */
  lemma CountsForAncestor(raw: string, id: ChunkID)
    requires id.z <= CHUNK_MAX_LEVEL
    ensures CountsFor(raw, id) <==>
              ParseChunkID(raw).Ok? && ParseChunkID(raw).value.z == CHUNK_MAX_LEVEL
                  && Ancestor(ParseChunkID(raw).value, id.z) == id
  {
    if ParseChunkID(raw).Ok? {
      DivisionRange(ParseChunkID(raw).value.x, id.x, Scale(id.z));
      DivisionRange(ParseChunkID(raw).value.y, id.y, Scale(id.z));
    }
  }

  lemma {:induction false} Pow2Add(a: nat, b: nat)
    ensures Pow2(a + b) == Pow2(a) * Pow2(b)
  {
    if a > 0 {
      Pow2Add(a - 1, b);
      assert Pow2(a + b) == 2 * (Pow2(a - 1) * Pow2(b)) == (2 * Pow2(a - 1)) * Pow2(b);
    }
  }

  lemma NestedDivision(x: int, s: int, t: int)
    requires s >= 1 && t >= 1
    ensures s * t >= 1 && x / t / s == x / (s * t)
  {
    var q := x / t / s;
    DivisionRange(x / t, q, s);
    assert q * s <= x / t < (q + 1) * s;
    DivisionRange(x, x / t, t);
    assert q * s * t <= (x / t) * t by { Monotone(q * s, x / t, t); }
    assert (x / t + 1) * t <= (q + 1) * s * t by { Monotone(x / t + 1, (q + 1) * s, t); }
    assert q * s * t == q * (s * t) && (q + 1) * s * t == (q + 1) * (s * t);
    Monotone(1, s, t);
    DivisionRange(x, q, s * t);
  }

  /** Going up in two steps or in one. */
  lemma AncestorOfAncestor(leaf: ChunkID, fine: int, coarse: int)
    requires coarse <= fine <= CHUNK_MAX_LEVEL
    ensures var s := Pow2(fine - coarse); var a := Ancestor(leaf, fine);
            Ancestor(leaf, coarse) == ChunkID(a.region, coarse, a.x / s, a.y / s)
  {
    Pow2Add(fine - coarse, CHUNK_MAX_LEVEL - fine);
    NestedDivision(leaf.x, Pow2(fine - coarse), Scale(fine));
    NestedDivision(leaf.y, Pow2(fine - coarse), Scale(fine));
  }

  // ---------------------------------------------------------------- descendants

  ghost function Strip(region: string, z: int, x: int, lo: int, n: nat): set<ChunkID> {
    if n == 0 then {} else Strip(region, z, x, lo, n - 1) + {ChunkID(region, z, x, lo + n - 1)}
  }

  /** `n` columns of `w` chunks. */
  ghost function Block(region: string, z: int, xlo: int, n: nat, lo: int, w: nat): set<ChunkID> {
    if n == 0 then {} else Block(region, z, xlo, n - 1, lo, w) + Strip(region, z, xlo + n - 1, lo, w)
  }

  lemma {:induction false} StripMembers(region: string, z: int, x: int, lo: int, n: nat, id: ChunkID)
    ensures id in Strip(region, z, x, lo, n) <==> id.region == region && id.z == z && id.x == x && lo <= id.y < lo + n
  {
    if n > 0 {
      StripMembers(region, z, x, lo, n - 1, id);
    }
  }

  lemma {:induction false} BlockMembers(region: string, z: int, xlo: int, n: nat, lo: int, w: nat, id: ChunkID)
    ensures id in Block(region, z, xlo, n, lo, w) <==>
              id.region == region && id.z == z && xlo <= id.x < xlo + n && lo <= id.y < lo + w
  {
    if n > 0 {
      BlockMembers(region, z, xlo, n - 1, lo, w, id);
      StripMembers(region, z, xlo + n - 1, lo, w, id);
    }
  }

  lemma {:induction false} StripSize(region: string, z: int, x: int, lo: int, n: nat)
    ensures |Strip(region, z, x, lo, n)| == n
  {
    if n > 0 {
      StripSize(region, z, x, lo, n - 1);
      StripMembers(region, z, x, lo, n - 1, ChunkID(region, z, x, lo + n - 1));
    }
  }

  lemma BlockStep(region: string, z: int, xlo: int, n: nat, lo: int, w: nat)
    ensures |Block(region, z, xlo, n + 1, lo, w)| == |Block(region, z, xlo, n, lo, w)| + w
  {
    var before, strip := Block(region, z, xlo, n, lo, w), Strip(region, z, xlo + n, lo, w);
    assert Block(region, z, xlo, n + 1, lo, w) == before + strip;
    hide Block, Strip;
    StripSize(region, z, xlo + n, lo, w);
    forall id | id in strip ensures id !in before {
      BlockMembers(region, z, xlo, n, lo, w, id);
      StripMembers(region, z, xlo + n, lo, w, id);
    }
    UnionSize(before, strip);
  }

  lemma {:induction false} BlockSize(region: string, z: int, xlo: int, n: nat, lo: int, w: nat)
    ensures |Block(region, z, xlo, n, lo, w)| == n * w
  {
    if n > 0 {
      BlockSize(region, z, xlo, n - 1, lo, w);
      BlockStep(region, z, xlo, n - 1, lo, w);
      OneMore(n - 1, w);
    }
  }

  /** The chunks of a finer level that tile a chunk. */
  ghost function Descendants(id: ChunkID, level: int): set<ChunkID>
    requires id.z <= level <= CHUNK_MAX_LEVEL
  {
    var n := Pow2(level - id.z);
    Block(id.region, level, id.x * n, n, id.y * n, n)
  }

  lemma DescendantsSize(id: ChunkID, level: int)
    requires id.z <= level <= CHUNK_MAX_LEVEL
    ensures |Descendants(id, level)| == Pow2(level - id.z) * Pow2(level - id.z)
  {
    var n := Pow2(level - id.z);
    BlockSize(id.region, level, id.x * n, n, id.y * n, n);
  }

  lemma DescendantsMembers(id: ChunkID, level: int, d: ChunkID)
    requires id.z <= level <= CHUNK_MAX_LEVEL
    ensures d in Descendants(id, level) <==>
              d.region == id.region && d.z == level && d.x / Pow2(level - id.z) == id.x
                  && d.y / Pow2(level - id.z) == id.y
  {
    hide Block, Pow2;
    var n := Pow2(level - id.z);
    BlockMembers(id.region, level, id.x * n, n, id.y * n, n, d);
    OneMore(id.x, n);
    OneMore(id.y, n);
    DivisionRange(d.x, id.x, n);
    DivisionRange(d.y, id.y, n);
  }

  /** A leaf counts for a chunk exactly when it counts for one of the chunk's descendants of a level. */
  lemma CountsForDescendant(raw: string, id: ChunkID, level: int, d: ChunkID)
    requires id.z <= level <= CHUNK_MAX_LEVEL && d.z == level
    requires CountsFor(raw, d)
    ensures CountsFor(raw, id) <==> d in Descendants(id, level)
  {
    hide CountsFor, Descendants, ParseChunkID, Scale;
    CountsForAncestor(raw, d);
    CountsForAncestor(raw, id);
    AncestorOfAncestor(ParseChunkID(raw).value, level, id.z);
    DescendantsMembers(id, level, d);
  }

  /** At every level, the counts of the chunks that tile a chunk add up to its own: the parent's count is the sum
      over its four children, and every level of the map has the same sum. */
  lemma LevelsAgree(id: ChunkID, level: int, closed: set<string>)
    requires id.z <= level <= CHUNK_MAX_LEVEL
    ensures |ClosedUnder(id, closed)| == Sum(Descendants(id, level), d => |ClosedUnder(d, closed)|)
  {
    hide CountsFor, Descendants, Ancestor, ParseChunkID;
    var leaves, tiles := ClosedUnder(id, closed), Descendants(id, level);
    var counts := (raw: string, d: ChunkID) => CountsFor(raw, d);
    forall raw | raw in leaves ensures |Row(tiles, counts, raw)| == 1 {
      OneTile(raw, id, level);
      var tile := Ancestor(ParseChunkID(raw).value, level);
      forall d | d in tiles ensures counts(raw, d) <==> d == tile { OneTileAt(raw, id, level, d); }
      assert Row(tiles, counts, raw) == {tile};
    }
    forall d | d in tiles ensures Column(leaves, counts, d) == ClosedUnder(d, closed) {
      DescendantsMembers(id, level, d);
      forall raw | raw in closed && CountsFor(raw, d) ensures CountsFor(raw, id) {
        CountsForDescendant(raw, id, level, d);
      }
    }
    SumOnes(leaves);
    SumSame(leaves, raw => 1, raw => |Row(tiles, counts, raw)|);
    DoubleCount(leaves, tiles, counts);
    SumSame(tiles, d => |Column(leaves, counts, d)|, d => |ClosedUnder(d, closed)|);
  }

  lemma OneTile(raw: string, id: ChunkID, level: int)
    requires id.z <= level <= CHUNK_MAX_LEVEL && CountsFor(raw, id)
    ensures ParseChunkID(raw).Ok?
    ensures Ancestor(ParseChunkID(raw).value, level) in Descendants(id, level)
    ensures CountsFor(raw, Ancestor(ParseChunkID(raw).value, level))
  {
    hide CountsFor, Descendants, ParseChunkID, Scale;
    CountsForAncestor(raw, id);
    var leaf := ParseChunkID(raw).value;
    CountsForAncestor(raw, Ancestor(leaf, level));
    AncestorOfAncestor(leaf, level, id.z);
    DescendantsMembers(id, level, Ancestor(leaf, level));
  }

  lemma OneTileAt(raw: string, id: ChunkID, level: int, d: ChunkID)
    requires id.z <= level <= CHUNK_MAX_LEVEL && d in Descendants(id, level)
    ensures CountsFor(raw, d) <==>
              ParseChunkID(raw).Ok? && ParseChunkID(raw).value.z == CHUNK_MAX_LEVEL
                  && d == Ancestor(ParseChunkID(raw).value, level)
  {
    hide CountsFor, Descendants, ParseChunkID, Scale;
    DescendantsMembers(id, level, d);
    CountsForAncestor(raw, d);
  }

  /** The four children of a chunk. */
  lemma FourChildren(id: ChunkID, closed: set<string>)
    requires id.z < CHUNK_MAX_LEVEL
    ensures |ClosedUnder(id, closed)| ==
              |ClosedUnder(Child(id, 0, 0), closed)| + |ClosedUnder(Child(id, 1, 0), closed)|
              + |ClosedUnder(Child(id, 0, 1), closed)| + |ClosedUnder(Child(id, 1, 1), closed)|
  {
    hide ClosedUnder, Descendants;
    var children := {Child(id, 0, 0), Child(id, 1, 0), Child(id, 0, 1), Child(id, 1, 1)};
    assert Pow2(1) == 2 * Pow2(0) == 2;
    forall d ensures d in Descendants(id, id.z + 1) <==> d in children { DescendantsMembers(id, id.z + 1, d); }
    if Descendants(id, id.z + 1) != children {
      var d := Differ(Descendants(id, id.z + 1), children);
    }
    LevelsAgree(id, id.z + 1, closed);
    SumOfFour(Child(id, 0, 0), Child(id, 1, 0), Child(id, 0, 1), Child(id, 1, 1), d => |ClosedUnder(d, closed)|);
  }

  lemma SumOfFour<T>(a: T, b: T, c: T, d: T, f: T -> int)
    requires a != b && a != c && a != d && b != c && b != d && c != d
    ensures Sum({a, b, c, d}, f) == f(a) + f(b) + f(c) + f(d)
  {
    SumRemove({a, b, c, d}, f, a);
    assert {a, b, c, d} - {a} == {b, c, d};
    SumRemove({b, c, d}, f, b);
    assert {b, c, d} - {b} == {c, d};
    SumRemove({c, d}, f, c);
    assert {c, d} - {c} == {d};
    SumRemove({d}, f, d);
    assert {d} - {d} == {};
  }

  function Child(id: ChunkID, dx: int, dy: int): ChunkID { ChunkID(id.region, id.z + 1, 2 * id.x + dx, 2 * id.y + dy) }

  // ---------------------------------------------------------------- bounds

  /** Every member is the printed name of a playable leaf. */
  ghost predicate Canonical(closed: set<string>) {
    forall raw :: raw in closed ==> IsLeafName(raw)
  }

  ghost predicate IsLeafName(raw: string) { exists id :: Playable(id) && raw == Print(id) }

  lemma LeafCount(id: ChunkID, closed: set<string>)
    requires Canonical(closed) && id.z == CHUNK_MAX_LEVEL
    ensures |ClosedUnder(id, closed)| == if Playable(id) && Print(id) in closed then 1 else 0
  {
    hide Print, ParseChunkID, CountsFor;
    forall raw | raw in closed ensures CountsFor(raw, id) <==> Playable(id) && raw == Print(id) {
      assert IsLeafName(raw);
      LeafCountsFor(raw, id);
    }
    if Playable(id) && Print(id) in closed {
      assert ClosedUnder(id, closed) == {Print(id)};
    } else {
      assert ClosedUnder(id, closed) == {};
    }
  }

  lemma LeafCountsFor(raw: string, id: ChunkID)
    requires IsLeafName(raw) && id.z == CHUNK_MAX_LEVEL
    ensures CountsFor(raw, id) <==> Playable(id) && raw == Print(id)
  {
    hide Print, ParseChunkID, CountsFor;
    var leaf :| Playable(leaf) && raw == Print(leaf);
    PlayablePrintable(leaf);
    ParsePrintRoundTrip(leaf);
    CountsForAncestor(raw, id);
    assert Scale(CHUNK_MAX_LEVEL) == 1;
    assert leaf.x / 1 == leaf.x && leaf.y / 1 == leaf.y;
    if Playable(id) {
      PlayablePrintable(id);
      PrintInjective(leaf, id);
    }
  }

  lemma {:induction false} SumAtMostOnes(s: set<ChunkID>, f: ChunkID -> int)
    requires forall d :: d in s ==> 0 <= f(d) <= 1
    ensures 0 <= Sum(s, f) <= |s| && (Sum(s, f) == |s| <==> forall d :: d in s ==> f(d) == 1)
  {
    if s != {} {
      var d := SomeMember(s);
      SumRemove(s, f, d);
      SumAtMostOnes(s - {d}, f);
    }
  }

  ghost predicate AllLeavesClosed(id: ChunkID, closed: set<string>)
    requires id.z <= CHUNK_MAX_LEVEL
  {
    forall leaf :: leaf in Descendants(id, CHUNK_MAX_LEVEL) ==> Print(leaf) in closed
  }

  /** A chunk never counts more leaves than it has, and counts them all exactly when all its leaves are closed. */
  lemma CountIsBounded(id: ChunkID, closed: set<string>)
    requires Canonical(closed) && OnMap(id)
    ensures |ClosedUnder(id, closed)| <= TotalLeafCount(id.z)
    ensures |ClosedUnder(id, closed)| == TotalLeafCount(id.z) <==> AllLeavesClosed(id, closed)
    ensures |ClosedUnder(id, closed)| > 0 <==>
              exists leaf :: leaf in Descendants(id, CHUNK_MAX_LEVEL) && Print(leaf) in closed
  {
    hide Print, ClosedUnder, Canonical, Descendants;
    var leaves := Descendants(id, CHUNK_MAX_LEVEL);
    var f := (d: ChunkID) => |ClosedUnder(d, closed)|;
    forall d | d in leaves ensures f(d) == if Print(d) in closed then 1 else 0 {
      LeavesArePlayable(id, d);
      LeafCount(d, closed);
    }
    LevelsAgree(id, CHUNK_MAX_LEVEL, closed);
    DescendantsSize(id, CHUNK_MAX_LEVEL);
    SumAtMostOnes(leaves, f);
    SumPositive(leaves, f);
  }

  lemma {:induction false} SumPositive(s: set<ChunkID>, f: ChunkID -> int)
    requires forall d :: d in s ==> f(d) >= 0
    ensures Sum(s, f) >= 0 && (Sum(s, f) > 0 <==> exists d :: d in s && f(d) > 0)
  {
    if s != {} {
      var d := SomeMember(s);
      SumRemove(s, f, d);
      SumPositive(s - {d}, f);
    }
  }

  lemma LeavesArePlayable(id: ChunkID, leaf: ChunkID)
    requires OnMap(id) && leaf in Descendants(id, CHUNK_MAX_LEVEL)
    ensures Playable(leaf)
  {
    hide Descendants, Pow2;
    var n := Pow2(CHUNK_MAX_LEVEL - id.z);
    DescendantsMembers(id, CHUNK_MAX_LEVEL, leaf);
    Pow2Add(id.z, CHUNK_MAX_LEVEL - id.z);
    DivisionRange(leaf.x, id.x, n);
    DivisionRange(leaf.y, id.y, n);
    InGrid(leaf.x, id.x, n, Pow2(id.z));
    InGrid(leaf.y, id.y, n, Pow2(id.z));
  }

  lemma InGrid(x: int, q: int, n: nat, side: nat)
    requires q * n <= x < (q + 1) * n && 0 <= q < side
    ensures 0 <= x < side * n
  {
    Monotone(q + 1, side, n);
    Monotone(0, q, n);
  }

  // ---------------------------------------------------------------- over every run of the map

  ghost function ClosedKeys(chunks: map<string, Chunk>): set<string> { set key | key in chunks && chunks[key].closed }

  lemma HappenKeys(rules: Rules, w: MapState, e: MapEvent, key: string)
    requires Possible(w, e) && key in Happen(rules, w, e).chunks
    ensures key in w.chunks || IsLeafName(key)
  {
    hide Authorize, Reopen, OpenBody, FlagBody, ApplyOpen, Print, Playable;
    if key !in w.chunks {
      assert !e.Assigning?;
      assert Playable(e.id) && key == Print(e.id);
    }
  }

  lemma {:induction false} RunKeysAreLeaves(rules: Rules, states: seq<MapState>, events: seq<MapEvent>, k: nat)
    requires IsRun(rules, states, events) && k < |states|
    ensures forall key :: key in states[k].chunks ==> IsLeafName(key)
  {
    hide Happen, Possible, IsLeafName;
    if k > 0 {
      RunKeysAreLeaves(rules, states, events, k - 1);
      forall key | key in states[k].chunks ensures IsLeafName(key) {
        HappenKeys(rules, states[k - 1], events[k - 1], key);
      }
    }
  }

  predicate StoredClosed(chunks: map<string, Chunk>, key: string) { key in chunks && chunks[key].closed }

  /** At any moment of any run of the map, the index of a chunk counts at most its leaves, counts them all exactly when
      every leaf's stored state is closed, and counts none exactly when none is. */
  lemma IndexIsExact(rules: Rules, states: seq<MapState>, events: seq<MapEvent>, k: nat, id: ChunkID)
    requires IsRun(rules, states, events) && k < |states| && OnMap(id)
    ensures var chunks, count := states[k].chunks, |ClosedUnder(id, ClosedKeys(states[k].chunks))|;
            && count <= TotalLeafCount(id.z)
            && (count == TotalLeafCount(id.z) <==>
                forall leaf :: leaf in Descendants(id, CHUNK_MAX_LEVEL) ==> StoredClosed(chunks, Print(leaf)))
            && (count > 0 <==> exists leaf ::
                leaf in Descendants(id, CHUNK_MAX_LEVEL) && StoredClosed(chunks, Print(leaf)))
  {
    hide Happen, Possible, IsLeafName, Descendants, Print, TotalLeafCount;
    RunKeysAreLeaves(rules, states, events, k);
    CountIsBounded(id, ClosedKeys(states[k].chunks));
  }

  // ---------------------------------------------------------------- the summary of a chunk

  datatype SummaryState = Normal | SomeOpened | Closing | AllClosed

  class ChunkSummary {
    var state: SummaryState
    var closed: bool
    var closedAt: Option<int>
    var closedUntil: Option<int>
    var openedCount: nat
    var version: int
    var totalLeafCount: nat
    var closedLeafCount: nat
    var closedRatio: real

    constructor ()
      ensures state == Normal && !closed && closedAt == None && closedUntil == None && openedCount == 0 && version == 1
    {
      state, closed, closedAt, closedUntil, openedCount, version := Normal, false, None, None, 0, 1;
      totalLeafCount, closedLeafCount, closedRatio := 0, 0, 0.0;
    }

    method ApplyMineState(stored: Option<Chunk>)
      modifies this`state, this`closed, this`closedAt, this`closedUntil, this`openedCount, this`version
      ensures var c := if stored.Some? then stored.value else FRESH;
              stored.None? || !c.closed ==> !closed && openedCount == |c.cells| && version == c.version
                                            && state == if |c.cells| > 0 then SomeOpened else Normal
      ensures stored.Some? ==> closedAt == stored.value.closedAt && closedUntil == stored.value.closedUntil
      ensures stored.Some? && stored.value.closed ==>
                closed && state == AllClosed && openedCount == |stored.value.cells| && version == stored.value.version
      ensures stored.None? ==> closedAt == None && closedUntil == None
    {
      if stored.None? {
        state, closed, closedAt, closedUntil, openedCount, version := Normal, false, None, None, 0, 1;
        return;
      }
      var c := stored.value;
      closed, closedAt, closedUntil, version, openedCount := c.closed, c.closedAt, c.closedUntil, c.version, |c.cells|;
      if c.closed {
        state := AllClosed;
      } else if |c.cells| > 0 {
        state := SomeOpened;
      } else {
        state := Normal;
      }
    }

    method ApplyClosedLeafAggregate(id: ChunkID, closedLeaves: set<string>)
      requires id.z <= CHUNK_MAX_LEVEL
      modifies this`state, this`closed, this`totalLeafCount, this`closedLeafCount, this`closedRatio
      ensures closedLeafCount == |ClosedUnder(id, closedLeaves)| && totalLeafCount == TotalLeafCount(id.z) > 0
      ensures closedRatio == closedLeafCount as real / totalLeafCount as real
      ensures closed <==> old(closed) || (id.z == CHUNK_MAX_LEVEL && closedLeafCount == 1)
      ensures state == AllClosed <==> closedLeafCount == totalLeafCount
      ensures state == Closing <==> 0 < closedLeafCount != totalLeafCount
      ensures state == SomeOpened <==> closedLeafCount == 0 < openedCount
    {
      SomeLeaf(id.z);
      hide ClosedUnder, TotalLeafCount;
      totalLeafCount := TotalLeafCount(id.z);
      closedLeafCount := CountClosedLeaves(id, closedLeaves);
      closedRatio := closedLeafCount as real / totalLeafCount as real;
      if id.z == CHUNK_MAX_LEVEL {
        closed := closed || closedLeafCount == 1;
      }
      if closedLeafCount == totalLeafCount && totalLeafCount > 0 {
        state := AllClosed;
      } else if closedLeafCount > 0 {
        state := Closing;
      } else if openedCount > 0 {
        state := SomeOpened;
      } else {
        state := Normal;
      }
    }
  }

  datatype SummaryError = InvalidChunkID | ChunkNotFound

  /** The guard of every request that names a chunk. */
  function ParseMapChunk(raw: string): (r: Result<ChunkID, SummaryError>)
    ensures r.Ok? <==> ParseChunkID(raw).Ok? && OnMap(ParseChunkID(raw).value)
    ensures r.Ok? ==> ParseChunkID(raw) == Ok(r.value)
    ensures r == Err(ChunkNotFound) <==>
              ParseChunkID(raw).Ok? && !OnMap(ParseChunkID(raw).value)
              && (ParseChunkID(raw).value.region != "cn"
                  || CHUNK_MIN_LEVEL <= ParseChunkID(raw).value.z <= CHUNK_MAX_LEVEL)
  {
    match ParseChunkID(raw)
    case Err(_) => Err(InvalidChunkID)
    case Ok(id) =>
      if id.region != "cn" then Err(ChunkNotFound)
      else if ChunkGridSize(id.z).None? then Err(InvalidChunkID)
      else if id.x >= ChunkGridSize(id.z).value || id.y >= ChunkGridSize(id.z).value then Err(ChunkNotFound)
      else Ok(id)
  }

  /** A summary reopens the leaf it is about if that is due, then counts the closed leaves below the chunk in what is
      stored by then. For a leaf, closed, count and state agree. */
  method GetChunkSummary(maps: MapService, raw: string, now: int) returns (r: Result<ChunkSummary, SummaryError>)
    requires maps.Valid() && Canonical(ClosedKeys(maps.chunks.states))
    modifies maps.chunks
    ensures maps.Valid() && (r.Ok? <==> ParseMapChunk(raw).Ok?)
    ensures r.Err? ==> r.error == ParseMapChunk(raw).error && maps.State() == old(maps.State())
    ensures r.Ok? ==>
              var id := ParseMapChunk(raw).value;
              && maps.State() == (if id.z == CHUNK_MAX_LEVEL
                  then ReadOp(maps.rules, old(maps.State()), Print(id), now) else old(maps.State()))
              && r.value.closedLeafCount == |ClosedUnder(id, ClosedKeys(maps.chunks.states))|
              && r.value.closedLeafCount <= TotalLeafCount(id.z) == r.value.totalLeafCount
              && r.value.closedRatio == r.value.closedLeafCount as real / r.value.totalLeafCount as real
              && (r.value.state == AllClosed <==> AllLeavesClosed(id, ClosedKeys(maps.chunks.states)))
              && (r.value.state == Closing <==> 0 < r.value.closedLeafCount < r.value.totalLeafCount)
              && (r.value.state == SomeOpened <==> r.value.closedLeafCount == 0 < r.value.openedCount)
              && (r.value.state == Normal <==> r.value.closedLeafCount == 0 == r.value.openedCount)
              && (id.z < CHUNK_MAX_LEVEL ==> !r.value.closed && r.value.closedAt == r.value.closedUntil == None
                                             && r.value.openedCount == 0 && r.value.version == 1)
              && (id.z == CHUNK_MAX_LEVEL ==>
                    var c := old(ChunkOf(maps.chunks.states, Print(id)));
                    r.value.closed <==> c.closed && now < Deadline(c, now, maps.rules.closure))
              && (id.z == CHUNK_MAX_LEVEL ==> (r.value.closed <==> StoredClosed(maps.chunks.states, Print(id)))
                                              && (r.value.closed <==> r.value.state == AllClosed)
                                              && r.value.version == ChunkOf(maps.chunks.states, Print(id)).version
                                              && r.value.closedAt == ChunkOf(maps.chunks.states, Print(id)).closedAt
                                              && r.value.closedUntil ==
                                                   ChunkOf(maps.chunks.states, Print(id)).closedUntil
                                              && r.value.openedCount == |ChunkOf(maps.chunks.states, Print(id)).cells|)
  {
    hide ParseMapChunk, ParseChunkID, Print, CountsFor, ClosedUnder, Canonical, ReadOp, Descendants, AllLeavesClosed;
    var parsed := ParseMapChunk(raw);
    if parsed.Err? {
      return Err(parsed.error);
    }
    var id := parsed.value;
    var summary := new ChunkSummary();
    if id.z == CHUNK_MAX_LEVEL {
      LeafSummary(maps, id, now, summary);
      ReadReopens(maps.rules, old(maps.State()), Print(id), now, Print(id));
    }
    ExactSet(maps.chunks);
    var closedLeaves := maps.chunks.ListClosedLeafChunkIDs();
    summary.ApplyClosedLeafAggregate(id, closedLeaves);
    CountIsBounded(id, ClosedKeys(maps.chunks.states));
    if id.z == CHUNK_MAX_LEVEL {
      LeafFacts(id, maps.chunks.states);
    }
    return Ok(summary);
  }

  lemma LeafFacts(id: ChunkID, chunks: map<string, Chunk>)
    requires Canonical(ClosedKeys(chunks)) && OnMap(id) && id.z == CHUNK_MAX_LEVEL
    ensures |ClosedUnder(id, ClosedKeys(chunks))| == (if StoredClosed(chunks, Print(id)) then 1 else 0)
              && TotalLeafCount(id.z) == 1
  {
    assert Playable(id);
    hide Print, Canonical, ClosedUnder;
    LeafCount(id, ClosedKeys(chunks));
    assert Scale(CHUNK_MAX_LEVEL) == 1;
  }

  lemma ExactSet(store: ChunkStateStore)
    requires store.Exact()
    ensures store.closedChunks == ClosedKeys(store.states)
  {
  }

  /** The part of a summary that is only about leaves. */
  method LeafSummary(maps: MapService, id: ChunkID, now: int, summary: ChunkSummary)
    requires maps.Valid() && Canonical(ClosedKeys(maps.chunks.states)) && OnMap(id) && id.z == CHUNK_MAX_LEVEL
    modifies maps.chunks, summary
    ensures maps.Valid() && maps.State() == ReadOp(maps.rules, old(maps.State()), Print(id), now)
    ensures Canonical(ClosedKeys(maps.chunks.states))
    ensures summary.closed == StoredClosed(maps.chunks.states, Print(id))
    ensures summary.version == ChunkOf(maps.chunks.states, Print(id)).version
    ensures summary.closedAt == ChunkOf(maps.chunks.states, Print(id)).closedAt
    ensures summary.closedUntil == ChunkOf(maps.chunks.states, Print(id)).closedUntil
    ensures summary.openedCount == |ChunkOf(maps.chunks.states, Print(id)).cells|
  {
    assert Reopen(FRESH, now, maps.rules.closure) == FRESH;
    assert Playable(id);
    hide Reopen, Print;
    var stored := maps.chunks.GetState(Print(id));
    if stored.Some? {
      var state := new MineChunkState(stored.value);
      var ok := maps.ReopenExpiredChunk(Print(id), state, now, true);
      stored := Some(state.Value());
    }
    summary.ApplyMineState(stored);
  }
}
