/** What every history of map operations and match assignments keeps between matches and chunks. */
module MatchInvariants {
  import opened Wrappers
  import opened ChunkIds
  import opened ChunkState
  import opened ChunkMachine
  import opened MineMatch
  import opened MatchOverlay
  import opened ChunkService
  import opened FiniteSums

  datatype MapEvent =
    | Assigning(matchId: int, teams: seq<Team>, order: seq<int>)
    | CellOpen(user: int, id: ChunkID, x: int, y: int, t: Times, resultOk: bool, opponent: int)
    | CellFlag(user: int, id: ChunkID, x: int, y: int, flagged: bool, t: Times)
    | ChunkRead(id: ChunkID, now: int)

  /** Match identifiers are issued once and are positive; only playable chunks are addressed. */
  ghost predicate Possible(w: MapState, e: MapEvent) {
    match e
    case Assigning(matchId, teams, order) =>
      matchId > 0 && matchId !in w.overlay.matches && forall k :: 0 <= k < |order| ==> 0 <= order[k] < 4096
    case CellOpen(user, id, _, _, _, _, opponent) => Playable(id) && OpponentChosen(w.overlay, user, opponent)
    case CellFlag(_, id, _, _, _, _) => Playable(id)
    case ChunkRead(id, _) => Playable(id)
  }

  ghost function Happen(rules: Rules, w: MapState, e: MapEvent): MapState
    requires Possible(w, e)
  {
    match e
    case Assigning(matchId, teams, order) => AssignOp(w, matchId, teams, order).0
    case CellOpen(user, id, x, y, t, resultOk, opponent) => OpenOp(rules, w, user, id, x, y, t, resultOk, opponent).0
    case CellFlag(user, id, x, y, flagged, t) => FlagOp(rules, w, user, id, x, y, flagged, t).0
    case ChunkRead(id, now) => ReadOp(rules, w, Print(id), now)
  }

  const EMPTY_MAP: MapState := MapState(map[], NO_MATCHES)

  /** A history: the state before each event and after the last one. */
  ghost predicate IsRun(rules: Rules, states: seq<MapState>, events: seq<MapEvent>) {
    && |states| == |events| + 1 && states[0] == EMPTY_MAP
    && forall k :: 0 <= k < |events| ==>
        Possible(states[k], events[k]) && states[k + 1] == Happen(rules, states[k], events[k])
  }

  // ---------------------------------------------------------------- the invariant

  ghost function OpenedBy(c: Chunk, user: int): set<int> {
    set i | i in c.cells && c.cells[i].openedBy == user
  }

  /** The match holds the lock of its chunk. */
  predicate HoldsLock(o: Overlay, m: Match) {
    m.chunkId in o.locks && o.locks[m.chunkId] == m.id
  }

  ghost predicate ScoresExact(m: Match, c: Chunk) {
    && (forall u :: u in m.scores <==> u in m.userTeams)
    && (forall u :: u in m.userTeams ==> Get(m.scores, u) == |OpenedBy(c, u)|)
    && (forall i :: i in c.cells ==> c.cells[i].openedBy in m.userTeams)
  }

  ghost predicate OverlayInv(o: Overlay) {
    && (forall k :: k in o.matches ==> o.matches[k].id == k)
    && (forall key :: key in o.locks ==>
          o.locks[key] > 0 && o.locks[key] in o.matches && o.matches[o.locks[key]].chunkId == key
          && o.matches[o.locks[key]].status == Ongoing)
    && (forall u :: u in o.active ==>
          o.active[u] in o.matches && u in o.matches[o.active[u]].userTeams
          && (o.matches[o.active[u]].status == Ongoing ==> HoldsLock(o, o.matches[o.active[u]])))
  }

  ghost predicate ChunksInv(rules: Rules, chunks: map<string, Chunk>) {
    forall id :: Playable(id) ==> ChunkInv(Site(rules.season, id), ChunkOf(chunks, Print(id)))
  }

  ghost predicate ScoresInv(w: MapState) {
    forall k ::
      k in w.overlay.matches && w.overlay.matches[k].status == Ongoing && HoldsLock(w.overlay, w.overlay.matches[k]) ==>
        ScoresExact(w.overlay.matches[k], ChunkOf(w.chunks, w.overlay.matches[k].chunkId))
  }

  ghost predicate MapInv(rules: Rules, w: MapState) {
    OverlayInv(w.overlay) && ChunksInv(rules, w.chunks) && ScoresInv(w)
  }

  // ---------------------------------------------------------------- chunks

  lemma PutInv(rules: Rules, chunks: map<string, Chunk>, id: ChunkID, c: Chunk)
    requires ChunksInv(rules, chunks) && Playable(id) && ChunkInv(Site(rules.season, id), c)
    ensures ChunksInv(rules, Put(chunks, Print(id), c))
    ensures ChunkOf(Put(chunks, Print(id), c), Print(id)) == c
    ensures forall key :: key != Print(id) ==> ChunkOf(Put(chunks, Print(id), c), key) == ChunkOf(chunks, key)
  {
    hide ChunkInv;
    forall other | Playable(other)
      ensures ChunkInv(Site(rules.season, other), ChunkOf(Put(chunks, Print(id), c), Print(other)))
    {
      PlayablePrintable(id);
      PlayablePrintable(other);
      PrintInjective(id, other);
    }
  }

  /** `after` has the cells of `before` and perhaps more, all of them opened by `user`. */
  ghost predicate Gains(before: Chunk, after: Chunk, user: int) {
    && (forall i :: i in before.cells ==> i in after.cells && after.cells[i] == before.cells[i])
    && (forall i :: i in after.cells && i !in before.cells ==> after.cells[i].openedBy == user)
  }

  lemma GainsMember(before: Chunk, after: Chunk, user: int, u: int, i: int)
    requires Gains(before, after, user)
    ensures i in OpenedBy(after, u) <==>
              i in OpenedBy(before, u) || (u == user && i in after.cells.Keys && i !in before.cells.Keys)
  {
  }

  lemma GainsCount(before: Chunk, after: Chunk, user: int, u: int)
    requires Gains(before, after, user)
    ensures |after.cells| >= |before.cells|
    ensures |OpenedBy(after, u)| == |OpenedBy(before, u)| + if u == user then |after.cells| - |before.cells| else 0
  {
    var gained := after.cells.Keys - before.cells.Keys;
    if !(before.cells.Keys <= after.cells.Keys) {
      var i := NotWithin(before.cells.Keys, after.cells.Keys);
    }
    DifferenceSize(before.cells.Keys, after.cells.Keys);
    var expected := if u == user then OpenedBy(before, u) + gained else OpenedBy(before, u);
    if OpenedBy(after, u) != expected {
      var i := Differ(OpenedBy(after, u), expected);
      GainsMember(before, after, user, u, i);
    }
    if u == user {
      if OpenedBy(before, u) * gained != {} {
        var i := SomeMember(OpenedBy(before, u) * gained);
      }
      UnionSize(OpenedBy(before, u), gained);
    }
  }

  /** What an open operation does to the cells, and what its response says about it. */
  lemma OpenGains(rules: Rules, site: Site, c: Chunk, user: int, x: int, y: int, t: Times)
    requires SiteOk(site) && ChunkInv(site, c) && ChunkCellIndex(x, y).Some?
    ensures
      var lifted := Reopen(c, t.reopen, rules.closure);
      var body := OpenBody(site, lifted, user, x, y, t.body, rules.closure);
      && lifted.cells == c.cells && ChunkInv(site, lifted) && ChunkInv(site, body.0)
      && Gains(c, body.0, user)
      && (body.1.Err? ==> body.0.cells == c.cells)
      && (body.1.Ok? ==> body.1.value.newOpenedCount == |body.0.cells| - |c.cells|)
      && (body.1.Ok? && (body.1.value.mine || body.1.value.canceled) ==> body.0.cells == c.cells)
  {
    hide Uncover, ChunkInv, CellOk;
    ReopenInv(site, c, t.reopen, rules.closure);
    var lifted := Reopen(c, t.reopen, rules.closure);
    OpenBodyInv(site, lifted, user, x, y, t.body, rules.closure);
    var index := ChunkCellIndex(x, y).value;
    IndexCoordinates(x, y);
    if !lifted.closed && index !in lifted.cells && index !in lifted.flaggedBy && !Mine(site, index) {
      UncoverKeeps(site, lifted, index, user, t.body);
    }
  }

  // ---------------------------------------------------------------- assignment

  lemma AssignKeeps(rules: Rules, w: MapState, matchId: int, teams: seq<Team>, order: seq<int>)
    requires MapInv(rules, w) && Possible(w, Assigning(matchId, teams, order))
    ensures MapInv(rules, AssignOp(w, matchId, teams, order).0)
  {
    hide ChunksInv, ScoresExact, Print;
    var found := FirstAssignable(w, order);
    if found.Some? {
      FirstAssignableIsPlayable(w, order);
      AssignedOverlay(w, matchId, found.value, teams);
      NewMatchExact(matchId, found.value, teams, ChunkOf(w.chunks, found.value));
    }
  }

  lemma AssignedOverlay(w: MapState, matchId: int, key: string, teams: seq<Team>)
    requires OverlayInv(w.overlay) && Assignable(w, key) && matchId > 0 && matchId !in w.overlay.matches
    ensures var o := Assigned(w, matchId, key, teams).overlay;
            && OverlayInv(o)
            && o.matches == w.overlay.matches[matchId := NewMatch(matchId, key, teams)]
            && o.locks == w.overlay.locks[key := matchId]
  {
    hide TeamsOf, UserTeamsOf, ZeroScores, Clean;
    var m := NewMatch(matchId, key, teams);
    var saved := SaveMatch(Lock(w.overlay, key, matchId), m);
    assert OverlayInv(saved);
    SetActiveKeeps(saved, m);
  }

  lemma SetActiveKeeps(o: Overlay, m: Match)
    requires OverlayInv(o) && m.id in o.matches && o.matches[m.id] == m && HoldsLock(o, m)
    ensures OverlayInv(SetActive(o, m))
  {
  }

  lemma NewMatchExact(matchId: int, key: string, teams: seq<Team>, c: Chunk)
    requires Clean(c)
    ensures ScoresExact(NewMatch(matchId, key, teams), c)
  {
    var m := NewMatch(matchId, key, teams);
    NewMatchScores(matchId, key, teams);
    assert c.cells == map[];
    forall u | u in m.userTeams ensures |OpenedBy(c, u)| == 0 {
      if OpenedBy(c, u) != {} {
        var i := SomeMember(OpenedBy(c, u));
      }
    }
  }

  lemma {:induction false} ZeroScoresKeys(teams: seq<Team>)
    ensures forall u :: u in ZeroScores(teams) <==> u in UserTeamsOf(teams)
    ensures forall u :: u in ZeroScores(teams) ==> ZeroScores(teams)[u] == 0
  {
    if teams != [] {
      var most, last := teams[..|teams| - 1], teams[|teams| - 1];
      ZeroScoresKeys(most);
      AddUsersKeys(ZeroScores(most), last.users, 0);
      AddUsersKeys(UserTeamsOf(most), last.users, last.no);
    }
  }

  lemma NewMatchScores(id: int, key: string, teams: seq<Team>)
    ensures var m := NewMatch(id, key, teams);
            (forall u :: u in m.scores <==> u in m.userTeams) && forall u :: u in m.userTeams ==> Get(m.scores, u) == 0
  {
    ZeroScoresKeys(teams);
  }

  // ---------------------------------------------------------------- operations

  /** Replacing the chunk under an unlocked key, or without changing its cells, disturbs no score. */
  lemma ScoresUntouched(w: MapState, chunks: map<string, Chunk>, key: string)
    requires ScoresInv(w)
    requires forall other :: other != key ==> ChunkOf(chunks, other) == ChunkOf(w.chunks, other)
    requires key !in w.overlay.locks || ChunkOf(chunks, key).cells == ChunkOf(w.chunks, key).cells
    ensures ScoresInv(MapState(chunks, w.overlay))
  {
    forall k | k in w.overlay.matches && w.overlay.matches[k].status == Ongoing
        && HoldsLock(w.overlay, w.overlay.matches[k])
      ensures ScoresExact(w.overlay.matches[k], ChunkOf(chunks, w.overlay.matches[k].chunkId))
    {
      var m := w.overlay.matches[k];
      SameCellsSameScores(m, ChunkOf(w.chunks, m.chunkId), ChunkOf(chunks, m.chunkId));
    }
  }

  lemma SameCellsSameScores(m: Match, c: Chunk, c': Chunk)
    requires ScoresExact(m, c) && c.cells == c'.cells
    ensures ScoresExact(m, c')
  {
    forall u | u in m.userTeams ensures |OpenedBy(c', u)| == |OpenedBy(c, u)| {
      assert OpenedBy(c', u) == OpenedBy(c, u);
    }
  }

  /** The scores of the match after an open by one of its players fit the chunk after it. */
  lemma ScoredFits(m: Match, c: Chunk, c': Chunk, user: int, response: OpenResponse, now: int)
    requires ScoresExact(m, c) && user in m.userTeams && Gains(c, c', user)
    requires response.newOpenedCount == |c'.cells| - |c.cells|
    ensures ScoresExact(Scored(m, user, response, now), c')
  {
    hide OpenedBy;
    var m' := Scored(m, user, response, now);
    assert m'.userTeams == m.userTeams && forall u :: u in m'.scores <==>
        u in m.scores || (u == user && response.newOpenedCount > 0);
    GainsCount(c, c', user, user);
    forall u | u in m.userTeams ensures Get(m'.scores, u) == |OpenedBy(c', u)| {
      GainsCount(c, c', user, u);
    }
  }

  /** Saving an ongoing record again, with other scores, keeps the overlay in order. */
  lemma ResaveKeeps(o: Overlay, m: Match, m': Match)
    requires OverlayInv(o) && m.id in o.matches && o.matches[m.id] == m && m.status == Ongoing
    requires m'.id == m.id && m'.chunkId == m.chunkId && m'.status == Ongoing && m'.userTeams == m.userTeams
    ensures OverlayInv(SaveMatch(o, m'))
  {
  }

  lemma ResaveScores(w: MapState, chunks: map<string, Chunk>, m: Match, m': Match)
    requires OverlayInv(w.overlay) && ScoresInv(w)
    requires m.id in w.overlay.matches && w.overlay.matches[m.id] == m && HoldsLock(w.overlay, m)
    requires m'.id == m.id && m'.chunkId == m.chunkId && ScoresExact(m', ChunkOf(chunks, m.chunkId))
    requires forall other :: other != m.chunkId ==> ChunkOf(chunks, other) == ChunkOf(w.chunks, other)
    ensures ScoresInv(MapState(chunks, SaveMatch(w.overlay, m')))
  {
    hide ScoresExact, ChunkOf;
  }

  lemma FinishKeeps(o: Overlay, m: Match, team: int, resultOk: bool)
    requires OverlayInv(o) && m.id in o.matches && o.matches[m.id] == m && m.status == Ongoing && HoldsLock(o, m)
    ensures OverlayInv(FinishWith(o, m, team, Smooth(resultOk).finish).0)
  {
    var o' := FinishWith(o, m, team, Smooth(resultOk).finish).0;
    if resultOk {
      assert o'.matches == o.matches[m.id := Won(m, team)];
      assert o'.locks == o.locks - {m.chunkId};
      assert o'.active == o.active - m.userTeams.Keys;
    }
  }

  /** After finishing, the finished match no longer counts and the others are as before. */
  lemma FinishScores(w: MapState, m: Match, team: int, resultOk: bool)
    requires OverlayInv(w.overlay) && ScoresInv(w)
    requires m.id in w.overlay.matches && w.overlay.matches[m.id] == m && m.status == Ongoing && HoldsLock(w.overlay, m)
    ensures ScoresInv(w.(overlay := FinishWith(w.overlay, m, team, Smooth(resultOk).finish).0))
  {
    hide ScoresExact;
  }

  lemma ActiveFacts(o: Overlay, user: int)
    requires OverlayInv(o) && ActiveMatch(o, user).Some?
    ensures var m := ActiveMatch(o, user).value;
            m.id in o.matches && o.matches[m.id] == m && m.status == Ongoing && HoldsLock(o, m) && user in m.userTeams
  {
    assert o.matches[o.active[user]].id == o.active[user];
  }

  lemma ScoredKeeps(w: MapState, chunks: map<string, Chunk>, m: Match, user: int, response: OpenResponse, now: int)
    requires OverlayInv(w.overlay) && ScoresInv(w)
    requires ActiveMatch(w.overlay, user) == Some(m)
    requires forall other :: other != m.chunkId ==> ChunkOf(chunks, other) == ChunkOf(w.chunks, other)
    requires Gains(ChunkOf(w.chunks, m.chunkId), ChunkOf(chunks, m.chunkId), user)
    requires response.newOpenedCount == |ChunkOf(chunks, m.chunkId).cells| - |ChunkOf(w.chunks, m.chunkId).cells|
    ensures
      var scored := Scored(m, user, response, now);
      var saved := if response.newOpenedCount > 0 then SaveMatch(w.overlay, scored) else w.overlay;
      && OverlayInv(saved) && ScoresInv(MapState(chunks, saved))
      && scored.id in saved.matches && saved.matches[scored.id] == scored && scored.status == Ongoing
          && HoldsLock(saved, scored)
  {
    hide ScoresExact, Gains, ChunkOf;
    ActiveFacts(w.overlay, user);
    var scored := Scored(m, user, response, now);
    ScoredFits(m, ChunkOf(w.chunks, m.chunkId), ChunkOf(chunks, m.chunkId), user, response, now);
    ResaveKeeps(w.overlay, m, scored);
    ResaveScores(w, chunks, m, scored);
    assert w.overlay.matches[m.id := m] == w.overlay.matches;
  }

  lemma ApplyOpenKeeps(rules: Rules, w: MapState, site: Site, chunks: map<string, Chunk>, user: int,
      response: OpenResponse, now: int,
                       resultOk: bool, opponent: int)
    requires OverlayInv(w.overlay) && ScoresInv(w) && SiteOk(site)
    requires PlaysHere(w.overlay, user, Print(site.id))
    requires var key := Print(site.id);
             && (forall other :: other != key ==> ChunkOf(chunks, other) == ChunkOf(w.chunks, other))
             && Gains(ChunkOf(w.chunks, key), ChunkOf(chunks, key), user)
             && response.newOpenedCount == |ChunkOf(chunks, key).cells| - |ChunkOf(w.chunks, key).cells|
             && (response.mine || response.canceled ==> ChunkOf(chunks, key).cells == ChunkOf(w.chunks, key).cells)
    ensures var key := Print(site.id);
            var o' := ApplyOpen(w.overlay, site, user, key, ChunkOf(chunks, key), response, now, resultOk, opponent).0;
            OverlayInv(o') && ScoresInv(MapState(chunks, o'))
  {
    hide ScoresExact, Gains, HasOpponent, SafeCells, Print, FinishWith, ScoresInv, HoldsLock, OverlayInv, ChunkOf;
    var key := Print(site.id);
    var c, c' := ChunkOf(w.chunks, key), ChunkOf(chunks, key);
    var m := ActiveMatch(w.overlay, user).value;
    ActiveFacts(w.overlay, user);
    if response.canceled || response.mine {
      ScoresUntouched(w, chunks, key);
      if response.mine && !response.canceled && HasOpponent(m, user) {
        FinishKeeps(w.overlay, m, opponent, resultOk);
        FinishScores(MapState(chunks, w.overlay), m, opponent, resultOk);
      }
    } else {
      var scored := Scored(m, user, response, now);
      var saved := if response.newOpenedCount > 0 then SaveMatch(w.overlay, scored) else w.overlay;
      ScoredKeeps(w, chunks, m, user, response, now);
      if scored.teams != map[] {
        FinishKeeps(saved, scored, BestTeam(scored), resultOk);
        FinishScores(MapState(chunks, saved), scored, BestTeam(scored), resultOk);
      }
    }
  }

  lemma OpenKeeps(rules: Rules, w: MapState, user: int, id: ChunkID, x: int, y: int, t: Times, resultOk: bool,
      opponent: int)
    requires MapInv(rules, w) && Playable(id)
    ensures MapInv(rules, OpenOp(rules, w, user, id, x, y, t, resultOk, opponent).0)
  {
    hide ChunkInv, Gains, OpenBody, Reopen, ApplyOpen, Print, OpenOp;
    OpenOpState(rules, w, user, id, x, y, t, resultOk, opponent);
    var key, site := Print(id), Site(rules.season, id);
    if ChunkCellIndex(x, y).Some? && Authorize(w.overlay, user, key).Ok? {
      var c := ChunkOf(w.chunks, key);
      OpenGains(rules, site, c, user, x, y, t);
      var body := OpenBody(site, Reopen(c, t.reopen, rules.closure), user, x, y, t.body, rules.closure);
      var chunks := Put(w.chunks, key, body.0);
      PutInv(rules, w.chunks, id, body.0);
      if body.1.Err? {
        ScoresUntouched(w, chunks, key);
      } else if ActiveMatch(w.overlay, user).None? {
        assert key !in w.overlay.locks;
        ScoresUntouched(w, chunks, key);
        NoMatchNoEffect(w.overlay, site, user, key, body.0, body.1.value, t.score, resultOk, opponent);
      } else {
        ApplyOpenKeeps(rules, w, site, chunks, user, body.1.value, t.score, resultOk, opponent);
      }
    }
  }

  lemma NoMatchNoEffect(o: Overlay, site: Site, user: int, key: string, c: Chunk, response: OpenResponse, now: int,
      resultOk: bool, opponent: int)
    requires ActiveMatch(o, user).None?
    ensures ApplyOpen(o, site, user, key, c, response, now, resultOk, opponent).0 == o
  {
  }

  lemma FlagKeeps(rules: Rules, w: MapState, user: int, id: ChunkID, x: int, y: int, flagged: bool, t: Times)
    requires MapInv(rules, w) && Playable(id)
    ensures MapInv(rules, FlagOp(rules, w, user, id, x, y, flagged, t).0)
  {
    hide ChunkInv, Print, FlagOp;
    FlagOpState(rules, w, user, id, x, y, flagged, t);
    var key, site := Print(id), Site(rules.season, id);
    if ChunkCellIndex(x, y).Some? && Authorize(w.overlay, user, key).Ok? {
      var c := ChunkOf(w.chunks, key);
      var lifted := Reopen(c, t.reopen, rules.closure);
      ReopenInv(site, c, t.reopen, rules.closure);
      var body := FlagBody(lifted, user, x, y, flagged);
      StepKeeps(site, rules.closure, lifted, Flagging(user, x, y, flagged, t.body));
      PutInv(rules, w.chunks, id, body.0);
      ScoresUntouched(w, Put(w.chunks, key, body.0), key);
    }
  }

  lemma ReadKeeps(rules: Rules, w: MapState, id: ChunkID, now: int)
    requires MapInv(rules, w) && Playable(id)
    ensures MapInv(rules, ReadOp(rules, w, Print(id), now))
  {
    hide ChunkInv, Print;
    var key := Print(id);
    var lifted := Reopen(ChunkOf(w.chunks, key), now, rules.closure);
    ReopenInv(Site(rules.season, id), ChunkOf(w.chunks, key), now, rules.closure);
    PutInv(rules, w.chunks, id, lifted);
    ScoresUntouched(w, Put(w.chunks, key, lifted), key);
  }

  lemma EventKeeps(rules: Rules, w: MapState, e: MapEvent)
    requires MapInv(rules, w) && Possible(w, e)
    ensures MapInv(rules, Happen(rules, w, e))
  {
    hide MapInv, OpenOp, FlagOp, AssignOp;
    match e
    case Assigning(matchId, teams, order) => AssignKeeps(rules, w, matchId, teams, order);
    case CellOpen(user, id, x, y, t, resultOk, opponent) => OpenKeeps(rules, w, user, id, x, y, t, resultOk, opponent);
    case CellFlag(user, id, x, y, flagged, t) => FlagKeeps(rules, w, user, id, x, y, flagged, t);
    case ChunkRead(id, now) => ReadKeeps(rules, w, id, now);
  }

  /** Every state of every history satisfies the invariant. */
  lemma {:induction false} RunKeeps(rules: Rules, states: seq<MapState>, events: seq<MapEvent>, k: nat)
    requires IsRun(rules, states, events) && k < |states|
    ensures MapInv(rules, states[k])
  {
    hide MapInv, Happen;
    if k == 0 {
      EmptyMapInv(rules);
    } else {
      RunKeeps(rules, states, events, k - 1);
      EventKeeps(rules, states[k - 1], events[k - 1]);
    }
  }

  lemma EmptyMapInv(rules: Rules)
    ensures MapInv(rules, EMPTY_MAP)
  {
  }

  // ---------------------------------------------------------------- what follows

  /** While a match with a lock is ongoing, each player's score is the number of cells that player has open in the
      match chunk, and the scores add up to all the open cells. */
  lemma ScoresCountCells(rules: Rules, states: seq<MapState>, events: seq<MapEvent>, k: nat, user: int)
    requires IsRun(rules, states, events) && k < |states| && ActiveMatch(states[k].overlay, user).Some?
    ensures
      var m := ActiveMatch(states[k].overlay, user).value;
      var c := ChunkOf(states[k].chunks, m.chunkId);
      && (forall u :: u in m.userTeams ==> Get(m.scores, u) == |OpenedBy(c, u)|)
      && Sum(m.userTeams.Keys, u => Get(m.scores, u)) == |c.cells|
  {
    hide ChunksInv, OpenedBy;
    RunKeeps(rules, states, events, k);
    var o := states[k].overlay;
    ActiveFacts(o, user);
    var m := ActiveMatch(o, user).value;
    ScoresAddUp(m, ChunkOf(states[k].chunks, m.chunkId));
  }

  lemma ScoresAddUp(m: Match, c: Chunk)
    requires ScoresExact(m, c)
    ensures Sum(m.userTeams.Keys, u => Get(m.scores, u)) == |c.cells|
  {
    var mine := (u: int, i: int) => i in c.cells && c.cells[i].openedBy == u;
    forall u | u in m.userTeams.Keys ensures Get(m.scores, u) == |Row(c.cells.Keys, mine, u)| {
      assert OpenedBy(c, u) == Row(c.cells.Keys, mine, u);
    }
    SumSame(m.userTeams.Keys, u => Get(m.scores, u), u => |Row(c.cells.Keys, mine, u)|);
    DoubleCount(m.userTeams.Keys, c.cells.Keys, mine);
    forall i | i in c.cells.Keys ensures |Column(m.userTeams.Keys, mine, i)| == 1 {
      assert Column(m.userTeams.Keys, mine, i) == {c.cells[i].openedBy};
    }
    SumSame(c.cells.Keys, i => |Column(m.userTeams.Keys, mine, i)|, i => 1);
    SumOnes(c.cells.Keys);
    assert |c.cells| == |c.cells.Keys|;
  }

  /** Two active matches never share a chunk, and the chunk of an active match can be operated by exactly the users
      whose active match it is. */
  lemma MatchChunksAreExclusive(rules: Rules, states: seq<MapState>, events: seq<MapEvent>, k: nat, user: int,
      other: int)
    requires IsRun(rules, states, events) && k < |states| && ActiveMatch(states[k].overlay, user).Some?
    ensures
      var o := states[k].overlay;
      var m := ActiveMatch(o, user).value;
      && (Authorize(o, other, m.chunkId).Ok? <==> ActiveMatch(o, other) == Some(m))
      && (ActiveMatch(o, other).Some? && ActiveMatch(o, other).value.chunkId == m.chunkId ==>
          ActiveMatch(o, other).value == m)
  {
    RunKeeps(rules, states, events, k);
    ActiveFacts(states[k].overlay, user);
    if ActiveMatch(states[k].overlay, other).Some? {
      ActiveFacts(states[k].overlay, other);
    }
  }
}
