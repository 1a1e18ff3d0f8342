/** When a match ends, who wins it, and that neither ever changes afterwards. */
module MatchOutcome {
  import opened Wrappers
  import opened ChunkIds
  import opened MineField
  import opened ChunkState
  import opened Cascade
  import opened ChunkMachine
  import opened MineMatch
  import opened MatchOverlay
  import opened ChunkService
  import opened MatchInvariants

  // ---------------------------------------------------------------- finished for good

  lemma ApplyOpenKeepsFinished(o: Overlay, site: Site, user: int, key: string, c: Chunk, response: OpenResponse,
      now: int,
                               resultOk: bool, opponent: int, id: int)
    requires OverlayInv(o) && id in o.matches && o.matches[id].status == Finished
    ensures var o' := ApplyOpen(o, site, user, key, c, response, now, resultOk, opponent).0;
            id in o'.matches && o'.matches[id] == o.matches[id]
  {
    hide SafeCells;
    if ActiveMatch(o, user).Some? {
      ActiveFacts(o, user);
    }
  }

  lemma EventKeepsFinished(rules: Rules, w: MapState, e: MapEvent, id: int)
    requires MapInv(rules, w) && Possible(w, e)
    requires id in w.overlay.matches && w.overlay.matches[id].status == Finished
    ensures var w' := Happen(rules, w, e);
            id in w'.overlay.matches && w'.overlay.matches[id] == w.overlay.matches[id]
  {
    hide ApplyOpen, OpenBody, Reopen, FlagBody, ChunksInv, ScoresInv, FirstAssignable, NewMatch, OpenOp, FlagOp;
    match e
    case Assigning(matchId, teams, order) =>
      assert NewMatch(matchId, "", teams).id == matchId by { NewMatchId(matchId, teams); }
      if FirstAssignable(w, order).Some? {
        NewMatchKey(matchId, FirstAssignable(w, order).value, teams);
      }
    case CellOpen(user, cid, x, y, t, resultOk, opponent) =>
      var key, site := Print(cid), Site(rules.season, cid);
      OpenOpState(rules, w, user, cid, x, y, t, resultOk, opponent);
      if ChunkCellIndex(x, y).Some? {
        var body := OpenBody(site, Reopen(ChunkOf(w.chunks, key), t.reopen, rules.closure), user, x, y, t.body,
            rules.closure);
        if body.1.Ok? {
          ApplyOpenKeepsFinished(w.overlay, site, user, key, body.0, body.1.value, t.score, resultOk, opponent, id);
        }
      }
    case CellFlag(user, cid, x, y, flagged, t) => FlagOpState(rules, w, user, cid, x, y, flagged, t);
    case ChunkRead(_, _) =>
  }

  lemma NewMatchId(id: int, teams: seq<Team>)
    ensures NewMatch(id, "", teams).id == id
  {
  }

  lemma NewMatchKey(id: int, key: string, teams: seq<Team>)
    ensures NewMatch(id, key, teams).id == id && NewMatch(id, key, teams).chunkId == key
  {
  }

  /** The record of a finished match, winner included, is the same in every later state of the history. */
  lemma {:induction false} FinishedForever(rules: Rules, states: seq<MapState>, events: seq<MapEvent>, j: nat, k: nat,
      id: int)
    requires IsRun(rules, states, events) && j <= k < |states|
    requires id in states[j].overlay.matches && states[j].overlay.matches[id].status == Finished
    ensures id in states[k].overlay.matches && states[k].overlay.matches[id] == states[j].overlay.matches[id]
    decreases k
  {
    hide MapInv, Happen;
    if j < k {
      FinishedForever(rules, states, events, j, k - 1, id);
      RunKeeps(rules, states, events, k - 1);
      EventKeepsFinished(rules, states[k - 1], events[k - 1], id);
    }
  }

  // ---------------------------------------------------------------- when a match ends

  ghost predicate Complete(site: Site, c: Chunk) {
    |c.cells| > 0 && |c.cells| >= |SafeCells(site)|
  }

  /** What the body of an open request reports about the board it leaves. */
  lemma OpenReport(rules: Rules, site: Site, c: Chunk, user: int, x: int, y: int, now: int)
    requires SiteOk(site) && ChunkCellIndex(x, y).Some?
    ensures var body := OpenBody(site, c, user, x, y, now, rules.closure);
            && (body.1.Ok? ==> !c.closed)
            && (body.1.Ok? && !body.1.value.canceled ==> (body.1.value.mine <==> body.0.closed))
            && (body.1.Ok? && body.1.value.canceled ==> body.0 == c && !body.0.closed)
            && (body.1.Ok? && !body.1.value.mine ==> body.0.cells != map[])
            && (body.1.Ok? && !body.1.value.canceled && body.1.value.mine ==> body.0.cells == c.cells)
  {
    hide Area, Mine, Number;
    var index := ChunkCellIndex(x, y).value;
    if !c.closed && index !in c.cells && index !in c.flaggedBy && RateOk(site.season) && !Mine(site, index) {
      IndexCoordinates(x, y);
      UncoverKeeps(site, c, index, user, now);
    }
  }

  /** The record `m'` of the match is finished exactly when the request `r` hit a mine and there is an opposing
      team, or left the board `c` without a covered safe cell. The winner is then an opposing team, or the team that
      ranks best. */
  ghost predicate EndedBy(site: Site, m: Match, m': Match, user: int, opponent: int, c: Chunk,
                          r: Result<OpenResponse, OperationError>)
  {
    && m'.teams == m.teams
    && (m'.status == Finished <==>
          r.Ok? && !r.value.canceled && if r.value.mine then HasOpponent(m, user) else c.cells.Keys == SafeCells(site))
    && (m'.status == Finished && r.Ok? && r.value.mine ==>
        m'.winTeam == Some(opponent) && IsOpponent(m, user, opponent))
    && (m'.status == Finished && r.Ok? && !r.value.mine ==>
          m'.winTeam.Some? && IsBestAmong(m', m'.teams.Keys, m'.winTeam.value))
  }

  /** An open request by a player in the match chunk ends the match exactly when it should. */
  lemma OpenEndsMatch(rules: Rules, w: MapState, user: int, id: ChunkID, x: int, y: int, t: Times, opponent: int)
    requires MapInv(rules, w) && Playable(id) && RateOk(rules.season) && ChunkCellIndex(x, y).Some?
    requires OpponentChosen(w.overlay, user, opponent) && PlaysHere(w.overlay, user, Print(id))
    requires ActiveMatch(w.overlay, user).value.teams != map[] && SafeCells(Site(rules.season, id)) != {}
    ensures
      var site, m := Site(rules.season, id), ActiveMatch(w.overlay, user).value;
      var o' := OpenOp(rules, w, user, id, x, y, t, true, opponent).0.overlay;
      var body := OpenBody(site, Reopen(ChunkOf(w.chunks, Print(id)), t.reopen, rules.closure), user, x, y, t.body,
          rules.closure);
      m.id in o'.matches && EndedBy(site, m, o'.matches[m.id], user, opponent, body.0, body.1)
  {
    hide ChunkInv, Gains, OpenBody, Reopen, Print, ApplyOpen, SafeCells, OpenOp, MapInv, Put, ChunkOf, PlaysHere,
    HasOpponent,
         OverlayInv, IsBestAmong, OpponentChosen, IsOpponent, ActiveMatch;
    var key, site := Print(id), Site(rules.season, id);
    PlayedHere(rules, w, user, id, x, y, t, true, opponent);
    var c := ChunkOf(w.chunks, key);
    var lifted := Reopen(c, t.reopen, rules.closure);
    var body := OpenBody(site, lifted, user, x, y, t.body, rules.closure);
    OpenReport(rules, site, lifted, user, x, y, t.body);
    CompletionByCounting(site, body.0);
    if body.1.Ok? {
      ApplyOpenOutcome(w.overlay, site, user, key, body.0, body.1.value, t.score, opponent);
    }
  }

  /** An open request by a player of the match chunk is authorised; its effects on chunk and matches, one by one. */
  lemma PlayedHere(rules: Rules, w: MapState, user: int, id: ChunkID, x: int, y: int, t: Times, resultOk: bool,
      opponent: int)
    requires MapInv(rules, w) && Playable(id) && ChunkCellIndex(x, y).Some? && PlaysHere(w.overlay, user, Print(id))
    ensures
      var key, site, m := Print(id), Site(rules.season, id), ActiveMatch(w.overlay, user).value;
      var step := OpenOp(rules, w, user, id, x, y, t, resultOk, opponent);
      var body := OpenBody(site, Reopen(ChunkOf(w.chunks, key), t.reopen, rules.closure), user, x, y, t.body,
          rules.closure);
      && OverlayInv(w.overlay) && ChunkInv(site, body.0) && ActiveMatch(w.overlay, user).Some?
      && m.id in w.overlay.matches && w.overlay.matches[m.id] == m && m.status == Ongoing
      && ChunkOf(step.0.chunks, key) == body.0
      && step.0.overlay == if body.1.Ok?
                           then ApplyOpen(w.overlay, site, user, key, body.0, body.1.value, t.score, resultOk,
                               opponent).0
                           else w.overlay
  {
    hide ChunkInv, Gains, OpenBody, Reopen, Print, ApplyOpen, OpenOp;
    OpenOpState(rules, w, user, id, x, y, t, resultOk, opponent);
    var key, site := Print(id), Site(rules.season, id);
    OpenGains(rules, site, ChunkOf(w.chunks, key), user, x, y, t);
    PutInv(rules, w.chunks, id, OpenBody(site, Reopen(ChunkOf(w.chunks, key), t.reopen, rules.closure), user, x, y,
        t.body, rules.closure).0);
    ActiveFacts(w.overlay, user);
  }

  lemma ApplyOpenOutcome(o: Overlay, site: Site, user: int, key: string, c: Chunk, response: OpenResponse, now: int,
      opponent: int)
    requires OverlayInv(o) && PlaysHere(o, user, key) && RateOk(site.season) && OpponentChosen(o, user, opponent)
    requires ActiveMatch(o, user).value.teams != map[]
    ensures
      var m := ActiveMatch(o, user).value;
      var o' := ApplyOpen(o, site, user, key, c, response, now, true, opponent).0;
      && m.id in o'.matches
      && var m' := o'.matches[m.id];
      && m'.teams == m.teams
      && (m'.status == Finished <==>
            !response.canceled && (if response.mine then HasOpponent(m, user) else Complete(site, c)))
      && (m'.status == Finished && response.mine ==> m'.winTeam == Some(opponent) && IsOpponent(m, user, opponent))
      && (m'.status == Finished && !response.mine ==>
          m'.winTeam.Some? && IsBestAmong(m', m'.teams.Keys, m'.winTeam.value))
  {
    hide SafeCells, TeamScore, TeamTime;
    ActiveFacts(o, user);
    var m := ActiveMatch(o, user).value;
    if !response.canceled && !response.mine && Complete(site, c) {
      var scored := Scored(m, user, response, now);
      var best := BestTeam(scored);
      WonRanks(scored, best);
    }
  }

  /** The points of an open that hit no mine stay with the match, finished or not. */
  lemma OutcomeScores(o: Overlay, site: Site, user: int, key: string, c: Chunk, response: OpenResponse, now: int,
      opponent: int)
    requires OverlayInv(o) && PlaysHere(o, user, key) && !response.canceled && !response.mine
    ensures
      var m := ActiveMatch(o, user).value;
      var o' := ApplyOpen(o, site, user, key, c, response, now, true, opponent).0;
      var scored := Scored(m, user, response, now);
      m.id in o'.matches && o'.matches[m.id].userTeams == m.userTeams && o'.matches[m.id].scores == scored.scores
  {
    ActiveFacts(o, user);
    var m := ActiveMatch(o, user).value;
    var scored := Scored(m, user, response, now);
    var saved := if response.newOpenedCount > 0 then SaveMatch(o, scored) else o;
    assert saved.matches[m.id] == scored;
    if scored.teams != map[] {
      FinishShape(saved, scored, BestTeam(scored));
    }
    hide SafeCells, HasOpponent, FinishWith, OverlayInv;
  }

  lemma WonRanks(m: Match, team: int)
    requires IsBestAmong(m, m.teams.Keys, team)
    ensures IsBestAmong(Won(m, team), m.teams.Keys, team)
  {
    hide Ranks;
    forall other | other in m.teams && other != team ensures Beats(Won(m, team), team, other) {
      SameScores(m, Won(m, team), m.teams[team]);
      SameScores(m, Won(m, team), m.teams[other]);
    }
  }

  lemma {:induction false} SameScores(m: Match, m': Match, users: seq<int>)
    requires m.scores == m'.scores && m.lastScoreAt == m'.lastScoreAt
    ensures TeamScore(m, users) == TeamScore(m', users) && TeamTime(m, users) == TeamTime(m', users)
  {
    if users != [] {
      SameScores(m, m', users[..|users| - 1]);
    }
  }

  // ---------------------------------------------------------------- the winner has the most cells

  /** The cells that the members of a team have open. */
  ghost function TeamCells(c: Chunk, users: seq<int>): set<int> {
    set i | i in c.cells && c.cells[i].openedBy in users
  }

  /** With exact scores a team's score is the number of its cells. */
  lemma {:induction false} TeamScoreCountsCells(m: Match, c: Chunk, users: seq<int>)
    requires ScoresExact(m, c) && DistinctUsers(users)
    ensures TeamScore(m, users) == |TeamCells(c, users)|
  {
    if users == [] {
      NoCells(c);
    } else {
      var most, last := users[..|users| - 1], users[|users| - 1];
      TeamScoreCountsCells(m, c, most);
      OneScore(m, c, last);
      MoreCells(c, most, last);
      assert users == most + [last];
    }
  }

  lemma NoCells(c: Chunk)
    ensures TeamCells(c, []) == {}
  {
    if TeamCells(c, []) != {} {
      var i := SomeMember(TeamCells(c, []));
    }
  }

  lemma OneScore(m: Match, c: Chunk, u: int)
    requires ScoresExact(m, c)
    ensures Get(m.scores, u) == |OpenedBy(c, u)|
  {
    if u !in m.userTeams && OpenedBy(c, u) != {} {
      var i := SomeMember(OpenedBy(c, u));
    }
  }

  lemma MoreCells(c: Chunk, users: seq<int>, u: int)
    requires u !in users
    ensures |TeamCells(c, users + [u])| == |TeamCells(c, users)| + |OpenedBy(c, u)|
  {
    if TeamCells(c, users + [u]) != TeamCells(c, users) + OpenedBy(c, u) {
      var i := Differ(TeamCells(c, users + [u]), TeamCells(c, users) + OpenedBy(c, u));
    }
    if TeamCells(c, users) * OpenedBy(c, u) != {} {
      var i := SomeMember(TeamCells(c, users) * OpenedBy(c, u));
    }
    UnionSize(TeamCells(c, users), OpenedBy(c, u));
  }

  /** When an open completes the board, the team that wins has at least as many cells of the chunk open as any other.
      Among teams with as many it has the earlier time, a team without one coming last, and then the smaller number. */
  lemma WinnerOpenedMost(rules: Rules, w: MapState, user: int, id: ChunkID, x: int, y: int, t: Times, opponent: int,
      winner: int, team: int)
    requires MapInv(rules, w) && Playable(id) && RateOk(rules.season) && ChunkCellIndex(x, y).Some?
    requires OpponentChosen(w.overlay, user, opponent) && PlaysHere(w.overlay, user, Print(id))
    requires var m, w' := ActiveMatch(w.overlay, user).value, OpenOp(rules, w, user, id, x, y, t, true, opponent).0;
             && m.id in w'.overlay.matches && w'.overlay.matches[m.id].status == Finished
             && w'.overlay.matches[m.id].winTeam == Some(winner) && !ChunkOf(w'.chunks, Print(id)).closed
             && winner in m.teams && DistinctUsers(m.teams[winner])
             && team in m.teams && team != winner && DistinctUsers(m.teams[team])
    ensures
      var m, w' := ActiveMatch(w.overlay, user).value, OpenOp(rules, w, user, id, x, y, t, true, opponent).0;
      var c', m' := ChunkOf(w'.chunks, Print(id)), w'.overlay.matches[m.id];
      var mine, theirs := |TeamCells(c', m.teams[winner])|, |TeamCells(c', m.teams[team])|;
      var first, second := TeamTime(m', m.teams[winner]), TeamTime(m', m.teams[team]);
      && mine >= theirs
      && (mine == theirs ==> (first > 0 && (second == 0 || first < second)) || (first == second && winner < team))
  {
    hide ChunkInv, Gains, OpenBody, Reopen, Print, ApplyOpen, SafeCells, OpenOp, MapInv, Put, ChunkOf, PlaysHere,
      HasOpponent, OverlayInv, OpponentChosen, IsOpponent, ActiveMatch, TeamScore, TeamTime, TeamCells, ScoresExact;
    var site, key := Site(rules.season, id), Print(id);
    PlayedHere(rules, w, user, id, x, y, t, true, opponent);
    var c, m := ChunkOf(w.chunks, key), ActiveMatch(w.overlay, user).value;
    var body := OpenBody(site, Reopen(c, t.reopen, rules.closure), user, x, y, t.body, rules.closure);
    OpenReport(rules, site, Reopen(c, t.reopen, rules.closure), user, x, y, t.body);
    assert body.1.Ok?;
    ApplyOpenOutcome(w.overlay, site, user, key, body.0, body.1.value, t.score, opponent);
    OutcomeScores(w.overlay, site, user, key, body.0, body.1.value, t.score, opponent);
    var m' := OpenOp(rules, w, user, id, x, y, t, true, opponent).0.overlay.matches[m.id];
    FinalScores(rules, w, user, id, x, y, t);
    SameScoresExact(Scored(m, user, body.1.value, t.score), m', body.0);
    TeamScoreCountsCells(m', body.0, m.teams[winner]);
    TeamScoreCountsCells(m', body.0, m.teams[team]);
    assert Beats(m', winner, team);
  }

  /** The scores after an open of a player fit the board it leaves. */
  lemma FinalScores(rules: Rules, w: MapState, user: int, id: ChunkID, x: int, y: int, t: Times)
    requires MapInv(rules, w) && Playable(id) && ChunkCellIndex(x, y).Some? && PlaysHere(w.overlay, user, Print(id))
    ensures
      var m, c := ActiveMatch(w.overlay, user).value, ChunkOf(w.chunks, Print(id));
      var body := OpenBody(Site(rules.season, id), Reopen(c, t.reopen, rules.closure), user, x, y, t.body,
          rules.closure);
      body.1.Ok? ==> ScoresExact(Scored(m, user, body.1.value, t.score), body.0)
  {
    hide ChunkInv, Gains, OpenBody, Reopen, Print, ScoresExact, Scored;
    var m, c := ActiveMatch(w.overlay, user).value, ChunkOf(w.chunks, Print(id));
    var site := Site(rules.season, id);
    ActiveFacts(w.overlay, user);
    OpenGains(rules, site, c, user, x, y, t);
    var body := OpenBody(site, Reopen(c, t.reopen, rules.closure), user, x, y, t.body, rules.closure);
    assert ScoresExact(m, c);
    if body.1.Ok? {
      ScoredFits(m, c, body.0, user, body.1.value, t.score);
    }
  }

  lemma SameScoresExact(m: Match, m': Match, c: Chunk)
    requires ScoresExact(m, c) && m'.scores == m.scores && m'.userTeams == m.userTeams
    ensures ScoresExact(m', c)
  {
  }

  // ---------------------------------------------------------------- never late

  /** Results can be recorded, every match has a team, and the season is well formed. */
  ghost predicate Healthy(rules: Rules, events: seq<MapEvent>) {
    && RateOk(rules.season)
    && (forall k :: 0 <= k < |events| && events[k].CellOpen? ==> events[k].resultOk)
    && (forall k :: 0 <= k < |events| && events[k].Assigning? ==> events[k].teams != [])
  }

  /** No match with its lock plays on over a board without covered safe cells. */
  ghost predicate PendingInv(rules: Rules, w: MapState) {
    forall id, k :: Playable(id) && k in w.overlay.matches && w.overlay.matches[k].status == Ongoing
                    && HoldsLock(w.overlay, w.overlay.matches[k]) && w.overlay.matches[k].chunkId == Print(id) ==>
      w.overlay.matches[k].teams != map[] && !Complete(Site(rules.season, id), ChunkOf(w.chunks, Print(id)))
  }

  lemma PendingUntouched(rules: Rules, w: MapState, w': MapState, key: string)
    requires PendingInv(rules, w) && w'.overlay == w.overlay
    requires forall other :: other != key ==> ChunkOf(w'.chunks, other) == ChunkOf(w.chunks, other)
    requires key !in w.overlay.locks || ChunkOf(w'.chunks, key).cells == ChunkOf(w.chunks, key).cells
    ensures PendingInv(rules, w')
  {
    hide SafeCells, ChunkOf, Print;
  }

  lemma TeamsNotEmpty(id: int, key: string, teams: seq<Team>)
    requires teams != []
    ensures NewMatch(id, key, teams).teams != map[]
  {
    assert teams[|teams| - 1].no in TeamsOf(teams);
  }

  lemma AssignPending(rules: Rules, w: MapState, matchId: int, teams: seq<Team>, order: seq<int>)
    requires MapInv(rules, w) && PendingInv(rules, w) && Possible(w, Assigning(matchId, teams, order)) && teams != []
    ensures PendingInv(rules, AssignOp(w, matchId, teams, order).0)
  {
    hide ChunksInv, ScoresInv, SafeCells, Print, NewMatch, PendingInv;
    if FirstAssignable(w, order).Some? {
      var key := FirstAssignable(w, order).value;
      FirstAssignableIsPlayable(w, order);
      AssignedOverlay(w, matchId, key, teams);
      TeamsNotEmpty(matchId, key, teams);
      NewMatchKey(matchId, key, teams);
      assert ChunkOf(w.chunks, key).cells == map[];
      AssignedPending(rules, w, Assigned(w, matchId, key, teams), matchId, NewMatch(matchId, key, teams), key);
    }
  }

  lemma AssignedPending(rules: Rules, w: MapState, w': MapState, matchId: int, m: Match, key: string)
    requires PendingInv(rules, w) && w'.chunks == w.chunks
    requires w'.overlay.matches == w.overlay.matches[matchId := m]
               && w'.overlay.locks == w.overlay.locks[key := matchId]
    requires matchId !in w.overlay.matches && key !in w.overlay.locks && m.id == matchId && m.chunkId == key
    requires forall k :: k in w.overlay.matches ==> w.overlay.matches[k].id == k
    requires m.teams != map[] && ChunkOf(w.chunks, key).cells == map[]
    ensures PendingInv(rules, w')
  {
    hide SafeCells, Print, ChunkOf;
    forall id, k | Playable(id) && k in w'.overlay.matches && w'.overlay.matches[k].status == Ongoing
                    && HoldsLock(w'.overlay, w'.overlay.matches[k]) && w'.overlay.matches[k].chunkId == Print(id)
      ensures w'.overlay.matches[k].teams != map[] && !Complete(Site(rules.season, id), ChunkOf(w.chunks, Print(id)))
    {
      if k != matchId {
        assert HoldsLock(w.overlay, w.overlay.matches[k]);
      }
    }
  }

  lemma ApplyOpenPending(rules: Rules, w: MapState, id: ChunkID, chunks: map<string, Chunk>, user: int,
      response: OpenResponse,
                         now: int, opponent: int)
    requires OverlayInv(w.overlay) && PendingInv(rules, w) && Playable(id) && RateOk(rules.season)
    requires PlaysHere(w.overlay, user, Print(id))
    requires forall other :: other != Print(id) ==> ChunkOf(chunks, other) == ChunkOf(w.chunks, other)
    requires response.mine || response.canceled ==>
               ChunkOf(chunks, Print(id)).cells == ChunkOf(w.chunks, Print(id)).cells
    ensures var site, key := Site(rules.season, id), Print(id);
            var o' := ApplyOpen(w.overlay, site, user, key, ChunkOf(chunks, key), response, now, true, opponent).0;
            PendingInv(rules, MapState(chunks, o'))
  {
    hide SafeCells, ChunkOf, Print, ApplyOpen, OverlayInv;
    var site, key := Site(rules.season, id), Print(id);
    var m := ActiveMatch(w.overlay, user).value;
    var c := ChunkOf(chunks, key);
    var o' := ApplyOpen(w.overlay, site, user, key, c, response, now, true, opponent).0;
    ActiveFacts(w.overlay, user);
    ApplyOpenShape(w.overlay, site, user, key, c, response, now, opponent);
    assert m.teams != map[] && !Complete(site, ChunkOf(w.chunks, key));
    forall other, k | Playable(other) && k in o'.matches && o'.matches[k].status == Ongoing
        && HoldsLock(o', o'.matches[k])
                      && o'.matches[k].chunkId == Print(other)
      ensures o'.matches[k].teams != map[] && !Complete(Site(rules.season, other), ChunkOf(chunks, Print(other)))
    {
      if k == m.id {
        PlayablePrintable(id);
        PlayablePrintable(other);
        PrintInjective(id, other);
        assert other == id;
      } else {
        assert HoldsLock(w.overlay, w.overlay.matches[k]);
        if Print(other) == key {
          OneHolder(w.overlay, m, k);
        }
      }
    }
  }

  lemma OneHolder(o: Overlay, m: Match, k: int)
    requires OverlayInv(o) && HoldsLock(o, m) && k in o.matches && HoldsLock(o, o.matches[k])
               && o.matches[k].chunkId == m.chunkId
    ensures k == m.id
  {
  }

  lemma FinishShape(o: Overlay, m: Match, team: int)
    requires m.id in o.matches && m.status == Ongoing
    ensures var o' := FinishWith(o, m, team, Smooth(true).finish).0;
            && o'.matches == o.matches[m.id := Won(m, team)]
            && (forall k :: k in o'.locks ==> k in o.locks && o'.locks[k] == o.locks[k])
  {
  }

  /** The overlay after an open by a match player: only the own record changes, and it stays ongoing only on a board
      that is not complete. */
  lemma ApplyOpenShape(o: Overlay, site: Site, user: int, key: string, c: Chunk, response: OpenResponse, now: int,
      opponent: int)
    requires OverlayInv(o) && PlaysHere(o, user, key) && RateOk(site.season)
               && ActiveMatch(o, user).value.teams != map[]
    ensures
      var m := ActiveMatch(o, user).value;
      var o' := ApplyOpen(o, site, user, key, c, response, now, true, opponent).0;
      && (forall k :: k in o'.matches ==> k in o.matches && (k != m.id ==> o'.matches[k] == o.matches[k]))
      && (forall k :: k in o'.locks ==> k in o.locks && o'.locks[k] == o.locks[k])
      && m.id in o'.matches && o'.matches[m.id].id == m.id
      && (o'.matches[m.id].status == Ongoing ==>
            o'.matches[m.id].teams == m.teams && o'.matches[m.id].chunkId == key
            && (response.mine || response.canceled || !Complete(site, c)))
  {
    hide SafeCells, HasOpponent, FinishWith, OverlayInv, Complete;
    ActiveFacts(o, user);
    var m := ActiveMatch(o, user).value;
    var scored := Scored(m, user, response, now);
    var saved := if response.newOpenedCount > 0 then SaveMatch(o, scored) else o;
    FinishShape(o, m, opponent);
    assert saved.matches == o.matches[m.id := scored] by { assert o.matches[m.id := m] == o.matches; }
    FinishShape(saved, scored, BestTeam(scored));
    assert Complete(site, c) <==> |c.cells| > 0 && |c.cells| >= |SafeCells(site)| by { CompleteMeans(site, c); }
  }

  lemma CompleteMeans(site: Site, c: Chunk)
    ensures Complete(site, c) <==> |c.cells| > 0 && |c.cells| >= |SafeCells(site)|
  {
  }

  lemma OpenPending(rules: Rules, w: MapState, user: int, id: ChunkID, x: int, y: int, t: Times, opponent: int)
    requires MapInv(rules, w) && PendingInv(rules, w) && Playable(id) && RateOk(rules.season)
    ensures PendingInv(rules, OpenOp(rules, w, user, id, x, y, t, true, opponent).0)
  {
    hide ChunkInv, Gains, OpenBody, Reopen, ApplyOpen, Print, SafeCells, PendingInv, ScoresInv, OpenOp;
    OpenOpState(rules, w, user, id, x, y, t, true, opponent);
    var key, site := Print(id), Site(rules.season, id);
    if ChunkCellIndex(x, y).Some? && Authorize(w.overlay, user, key).Ok? {
      var c := ChunkOf(w.chunks, key);
      OpenGains(rules, site, c, user, x, y, t);
      var body := OpenBody(site, Reopen(c, t.reopen, rules.closure), user, x, y, t.body, rules.closure);
      var chunks := Put(w.chunks, key, body.0);
      PutInv(rules, w.chunks, id, body.0);
      if body.1.Err? {
        PendingUntouched(rules, w, MapState(chunks, w.overlay), key);
      } else if ActiveMatch(w.overlay, user).None? {
        NoMatchNoEffect(w.overlay, site, user, key, body.0, body.1.value, t.score, true, opponent);
        PendingUntouched(rules, w, MapState(chunks, w.overlay), key);
      } else {
        ApplyOpenPending(rules, w, id, chunks, user, body.1.value, t.score, opponent);
      }
    }
  }

  lemma FlagPending(rules: Rules, w: MapState, user: int, id: ChunkID, x: int, y: int, flagged: bool, t: Times)
    requires PendingInv(rules, w) && Playable(id)
    ensures PendingInv(rules, FlagOp(rules, w, user, id, x, y, flagged, t).0)
  {
    hide PendingInv, Print, FlagOp;
    FlagOpState(rules, w, user, id, x, y, flagged, t);
    PendingUntouched(rules, w, FlagOp(rules, w, user, id, x, y, flagged, t).0, Print(id));
  }

  lemma ReadPending(rules: Rules, w: MapState, id: ChunkID, now: int)
    requires PendingInv(rules, w) && Playable(id)
    ensures PendingInv(rules, ReadOp(rules, w, Print(id), now))
  {
    hide PendingInv, Print;
    PendingUntouched(rules, w, ReadOp(rules, w, Print(id), now), Print(id));
  }

  /** In a healthy history, no player ever has an active match whose chunk has all its safe cells open: the match
      ended with the request that opened the last of them. */
  lemma {:induction false} MatchEndsInTime(rules: Rules, states: seq<MapState>, events: seq<MapEvent>, k: nat)
    requires IsRun(rules, states, events) && Healthy(rules, events) && k < |states|
    ensures PendingInv(rules, states[k])
    ensures forall user, id ::
              Playable(id) && PlaysHere(states[k].overlay, user, Print(id))
              && SafeCells(Site(rules.season, id)) != {} ==>
              ChunkOf(states[k].chunks, Print(id)).cells.Keys != SafeCells(Site(rules.season, id))
  {
    hide PendingInv, MapInv, OpenOp, FlagOp, AssignOp, ReadOp, SafeCells, Print;
    if k == 0 {
      EmptyPending(rules);
    } else {
      MatchEndsInTime(rules, states, events, k - 1);
      RunKeeps(rules, states, events, k - 1);
      var w := states[k - 1];
      match events[k - 1]
      case Assigning(matchId, teams, order) => AssignPending(rules, w, matchId, teams, order);
      case CellOpen(user, id, x, y, t, resultOk, opponent) => OpenPending(rules, w, user, id, x, y, t, opponent);
      case CellFlag(user, id, x, y, flagged, t) => FlagPending(rules, w, user, id, x, y, flagged, t);
      case ChunkRead(id, now) => ReadPending(rules, w, id, now);
    }
    RunKeeps(rules, states, events, k);
    forall user, id | Playable(id) && PlaysHere(states[k].overlay, user, Print(id))
        && SafeCells(Site(rules.season, id)) != {}
      ensures ChunkOf(states[k].chunks, Print(id)).cells.Keys != SafeCells(Site(rules.season, id))
    {
      PendingBoard(rules, states[k], user, id);
    }
  }

  lemma EmptyPending(rules: Rules)
    ensures PendingInv(rules, EMPTY_MAP)
  {
  }

  lemma PendingBoard(rules: Rules, w: MapState, user: int, id: ChunkID)
    requires MapInv(rules, w) && PendingInv(rules, w)
    requires Playable(id) && PlaysHere(w.overlay, user, Print(id)) && SafeCells(Site(rules.season, id)) != {}
    ensures ChunkOf(w.chunks, Print(id)).cells.Keys != SafeCells(Site(rules.season, id))
  {
    hide SafeCells, Print, ScoresInv, ChunkInv;
    ActiveFacts(w.overlay, user);
    CompletionByCounting(Site(rules.season, id), ChunkOf(w.chunks, Print(id)));
  }
}
