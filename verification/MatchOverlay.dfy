/** Matches laid over the chunks: active-match pointers, chunk locks, scoring and finishing
    (internal/service/mine_match_service.go, internal/repository/mine_match_repository.go). */
module MatchOverlay {
  import opened Wrappers
  import opened MineField
  import opened ChunkState
  import opened ChunkMachine
  import opened MineMatch

  /** The three families of keys in the match store. */
  datatype Overlay = Overlay(matches: map<int, Match>, active: map<int, int>, locks: map<string, int>)

  const NO_MATCHES: Overlay := Overlay(map[], map[], map[])

  /** The ongoing match that the user's pointer names. */
  function ActiveMatch(o: Overlay, user: int): Option<Match> {
    if user in o.active && o.active[user] in o.matches && o.matches[o.active[user]].status == Ongoing
    then Some(o.matches[o.active[user]]) else None
  }

  function LockOf(o: Overlay, key: string): int { if key in o.locks then o.locks[key] else 0 }

  /** A match player may operate only the match chunk; everybody else may operate only unlocked chunks. */
  function Authorize(o: Overlay, user: int, key: string): Result<(), OperationError> {
    match ActiveMatch(o, user)
    case Some(m) => if m.chunkId != key then Err(WrongChunk) else Ok(())
    case None => if LockOf(o, key) != 0 then Err(ChunkOccupied) else Ok(())
  }

  function SaveMatch(o: Overlay, m: Match): Overlay { o.(matches := o.matches[m.id := m]) }

  function SetActive(o: Overlay, m: Match): Overlay { o.(active := o.active + map u | u in m.userTeams :: m.id) }

  function DeleteActive(o: Overlay, m: Match): Overlay { o.(active := o.active - m.userTeams.Keys) }

  function Lock(o: Overlay, key: string, id: int): Overlay {
    if key in o.locks then o else o.(locks := o.locks[key := id])
  }

  function Unlock(o: Overlay, key: string, id: int): Overlay {
    if key in o.locks && o.locks[key] == id then o.(locks := o.locks - {key}) else o
  }

  function Credit(m: Match, user: int, points: int, now: int): Match {
    m.(scores := m.scores[user := Get(m.scores, user) + points], lastScoreAt := m.lastScoreAt[user := now])
  }

  function Won(m: Match, team: int): Match { m.(status := Finished, winTeam := Some(team)) }

  /** Which of the calls of finishMatch succeed. */
  datatype FinishCalls = FinishCalls(result: bool, save: bool, delete: bool, unlock: bool)

  /** Finishing saves the record, deletes the pointers of all its users and unlocks the chunk. Any call may fail: what
      was done before it stays done. */
  function FinishWith(o: Overlay, m: Match, team: int, calls: FinishCalls)
    : (Overlay, Result<Option<MatchView>, OperationError>)
  {
    var won := Won(m, team);
    if m.status == Finished then (o, Ok(Some(View(m))))
    else if !calls.result || !calls.save then (o, Err(MatchFailure))
    else if !calls.delete then (SaveMatch(o, won), Err(MatchFailure))
    else if !calls.unlock then (DeleteActive(SaveMatch(o, won), won), Err(MatchFailure))
    else (Unlock(DeleteActive(SaveMatch(o, won), won), won.chunkId, won.id), Ok(Some(View(won))))
  }

  /** A failed finish has no effect exactly when it failed before the record was saved; else the match is finished
      and the chunk stays locked, for everybody without an ongoing match there. */
  lemma FailedFinish(o: Overlay, m: Match, team: int, calls: FinishCalls, user: int)
    requires m.status == Ongoing && m.id in o.matches && o.matches[m.id] == m && m.id != 0
    requires m.chunkId in o.locks && o.locks[m.chunkId] == m.id
    requires FinishWith(o, m, team, calls).1.Err?
    ensures var o' := FinishWith(o, m, team, calls).0;
            && (o' == o <==> !calls.result || !calls.save)
            && (o' != o ==> o'.matches[m.id] == Won(m, team) && o'.locks == o.locks)
            && (o' != o && ActiveMatch(o', user).None? ==> Authorize(o', user, m.chunkId) == Err(ChunkOccupied))
            && (o' != o && user in o.active && o.active[user] == m.id ==> ActiveMatch(o', user).None?)
  {
    var o' := FinishWith(o, m, team, calls).0;
    if calls.result && calls.save {
      assert o'.matches[m.id] == Won(m, team) != o.matches[m.id];
    }
  }

  predicate IsOpponent(m: Match, user: int, team: int) {
    user in m.userTeams && team in m.teams && team != m.userTeams[user]
  }

  ghost predicate HasOpponent(m: Match, user: int) {
    exists team :: IsOpponent(m, user, team)
  }

  /** The record after a scored open. */
  function Scored(m: Match, user: int, response: OpenResponse, now: int): Match {
    if response.newOpenedCount > 0 then Credit(m, user, response.newOpenedCount, now) else m
  }

  /** Which of the calls of ApplyOpenResult succeed: following the pointer, saving the score, finishing. */
  datatype ApplyCalls = ApplyCalls(read: bool, score: bool, finish: FinishCalls)

  /** Nothing but the recording of the result may fail. */
  function Smooth(resultOk: bool): ApplyCalls { ApplyCalls(true, true, FinishCalls(resultOk, true, true, true)) }

  /** The effect of an open operation on the matches, with a failure at any call. `opponent` is the opposing team that
      the map iteration of opponentTeam meets first. */
  ghost function ApplyOpenWith(o: Overlay, site: Site, user: int, key: string, c: Chunk, response: OpenResponse,
      now: int, calls: ApplyCalls, opponent: int)
    : (Overlay, Result<Option<MatchView>, OperationError>)
  {
    if !calls.read then (o, Err(MatchFailure))
    else
      match ActiveMatch(o, user)
      case None => (o, Ok(None))
      case Some(m) =>
        if m.chunkId != key then (o, Ok(None))
        else if response.canceled then (o, Ok(Some(View(m))))
        else if response.mine then
          if HasOpponent(m, user) then FinishWith(o, m, opponent, calls.finish) else (o, Err(MatchFailure))
        else if response.newOpenedCount > 0 && !calls.score then (o, Err(MatchFailure))
        else
          var scored := Scored(m, user, response, now);
          var saved := if response.newOpenedCount > 0 then SaveMatch(o, scored) else o;
          if |c.cells| == 0 then (saved, Ok(Some(View(scored))))
          else if !RateOk(site.season) then (saved, Err(MineFailure(InvalidRate)))
          else if |c.cells| < |SafeCells(site)| then (saved, Ok(Some(View(scored))))
          else if scored.teams == map[] then (saved, Err(MatchFailure))
          else FinishWith(saved, scored, BestTeam(scored), calls.finish)
  }

  ghost function ApplyOpen(o: Overlay, site: Site, user: int, key: string, c: Chunk, response: OpenResponse, now: int,
                           resultOk: bool, opponent: int)
    : (Overlay, Result<Option<MatchView>, OperationError>)
  {
    ApplyOpenWith(o, site, user, key, c, response, now, Smooth(resultOk), opponent)
  }

  /** One record may change; the locks, the other matches and, while the match goes on, the pointers may not. */
  predicate OnlyMatch(o: Overlay, o': Overlay, id: int) {
    && o'.locks == o.locks && id in o'.matches
    && (forall k :: k in o.matches && k != id ==> k in o'.matches && o'.matches[k] == o.matches[k])
    && (o'.matches[id].status == Ongoing ==> o'.active == o.active)
  }

  lemma FailedCalls(o: Overlay, m: Match, team: int, calls: FinishCalls)
    requires m.status == Ongoing && m.id in o.matches && o.matches[m.id] == m
    ensures var (o', r) := FinishWith(o, m, team, calls);
            r.Err? ==>
              OnlyMatch(o, o', m.id) && o'.matches[m.id].scores == m.scores
              && (o'.matches[m.id].status == Finished <==> calls.result && calls.save)
  {
  }

  lemma ActiveRecord(o: Overlay, user: int)
    requires ActiveMatch(o, user).Some?
    ensures var m := ActiveMatch(o, user).value;
            user in o.active && o.active[user] in o.matches && o.matches[o.active[user]] == m && m.status == Ongoing
  {
  }

  lemma ScoredOnly(o: Overlay, m: Match, user: int, response: OpenResponse, now: int)
    requires m.id in o.matches && o.matches[m.id] == m && m.status == Ongoing
    ensures var scored := Scored(m, user, response, now);
            scored.id == m.id && scored.status == Ongoing && OnlyMatch(o, SaveMatch(o, scored), m.id)
  {
  }

  /** What a failed open leaves behind: every lock, every other match, and the points unless their own save was not
      reached or failed; the match can be over only if the calls up to the finished record went well. */
  lemma FailedApply(o: Overlay, site: Site, user: int, key: string, c: Chunk, response: OpenResponse, now: int,
      calls: ApplyCalls, opponent: int)
    requires ActiveMatch(o, user).Some? && ActiveMatch(o, user).value.chunkId == key
    requires o.active[user] == ActiveMatch(o, user).value.id
    requires ApplyOpenWith(o, site, user, key, c, response, now, calls, opponent).1.Err?
    ensures
      var m, o' := ActiveMatch(o, user).value,
        ApplyOpenWith(o, site, user, key, c, response, now, calls, opponent).0;
      && OnlyMatch(o, o', m.id)
      && o'.matches[m.id].scores ==
        (if calls.read && !response.mine && calls.score then Scored(m, user, response, now).scores else m.scores)
      && (o'.matches[m.id].status == Finished ==> calls.finish.result && calls.finish.save)
  {
    ActiveRecord(o, user);
    var m := ActiveMatch(o, user).value;
    var scored := Scored(m, user, response, now);
    var saved := if response.newOpenedCount > 0 then SaveMatch(o, scored) else o;
    FailedCalls(o, m, opponent, calls.finish);
    ScoredOnly(o, m, user, response, now);
    if scored.teams != map[] {
      FailedCalls(saved, scored, BestTeam(scored), calls.finish);
    }
    hide BestTeam, SafeCells, FinishWith, ActiveMatch, SaveMatch, Scored;
  }

  // ---------------------------------------------------------------- what the operations answer

  /** A user has an active match exactly when the pointer leads to an ongoing record. */
  lemma ActiveMatchExact(o: Overlay, user: int, m: Match)
    ensures ActiveMatch(o, user) == Some(m) <==>
              && user in o.active && o.active[user] in o.matches && o.matches[o.active[user]] == m
              && m.status == Ongoing
  {
  }

  /** A player is sent away from every chunk but the own; anybody else exactly from locked ones. */
  lemma AuthorizeAnswers(o: Overlay, user: int, key: string)
    ensures
      var r, m := Authorize(o, user, key), ActiveMatch(o, user);
      && (r == Err(WrongChunk) <==> m.Some? && m.value.chunkId != key)
      && (r == Err(ChunkOccupied) <==> m.None? && LockOf(o, key) != 0)
      && (r.Err? ==> r.error in {WrongChunk, ChunkOccupied})
  {
  }

  /** The user plays in the chunk. */
  ghost predicate PlaysHere(o: Overlay, user: int, key: string) {
    ActiveMatch(o, user).Some? && ActiveMatch(o, user).value.chunkId == key
  }

  /** A view shows a record. */
  predicate ShowsMatch(v: MatchView, m: Match) {
    v.id == m.id && v.scores == m.scores && (v.finished <==> m.status == Finished) && v.winTeam == m.winTeam
  }

  /** The view that comes with the answer of an open: none exactly when the user does not play there; otherwise it
      shows the match as it is stored by then. */
  lemma ViewIsStored(o: Overlay, site: Site, user: int, key: string, c: Chunk, response: OpenResponse, now: int,
      calls: ApplyCalls, opponent: int)
    requires user in o.active && o.active[user] in o.matches ==> o.matches[o.active[user]].id == o.active[user]
    ensures
      var (o', r) := ApplyOpenWith(o, site, user, key, c, response, now, calls, opponent);
      && (r == Ok(None) <==> calls.read && !PlaysHere(o, user, key))
      && (!PlaysHere(o, user, key) ==> o' == o)
      && (r.Ok? && r.value.Some? ==>
          var id := ActiveMatch(o, user).value.id; id in o'.matches && ShowsMatch(r.value.value, o'.matches[id]))
  {
    if PlaysHere(o, user, key) {
      ActiveRecord(o, user);
      var m := ActiveMatch(o, user).value;
      var scored := Scored(m, user, response, now);
      var saved := if response.newOpenedCount > 0 then SaveMatch(o, scored) else o;
      assert saved.matches[m.id] == scored && scored.id == m.id;
      FinishView(o, m, opponent, calls.finish);
      if scored.teams != map[] {
        FinishView(saved, scored, BestTeam(scored), calls.finish);
      }
    }
    hide BestTeam, SafeCells, HasOpponent, FinishWith, ActiveMatch, SaveMatch, Scored;
  }

  lemma FinishView(o: Overlay, m: Match, team: int, calls: FinishCalls)
    ensures var (o', r) := FinishWith(o, m, team, calls);
            && r != Ok(None) && (m.id in o.matches ==> m.id in o'.matches)
            && (m.status == Ongoing && r.Ok? ==> m.id in o'.matches && ShowsMatch(r.value.value, o'.matches[m.id]))
  {
  }

  lemma FinishPoints(o: Overlay, m: Match, team: int, calls: FinishCalls)
    requires m.id in o.matches && o.matches[m.id] == m
    ensures var o' := FinishWith(o, m, team, calls).0;
            m.id in o'.matches && o'.matches[m.id].scores == m.scores && o'.matches[m.id].lastScoreAt == m.lastScoreAt
  {
  }

  /** Recording, finishing and completing can go wrong only in these ways. */
  lemma ApplySucceeds(o: Overlay, site: Site, user: int, key: string, c: Chunk, response: OpenResponse, now: int,
      calls: ApplyCalls, opponent: int)
    requires RateOk(site.season) && PlaysHere(o, user, key) && ActiveMatch(o, user).value.teams != map[]
    requires response.mine && !response.canceled ==> HasOpponent(ActiveMatch(o, user).value, user)
    ensures
      var r := ApplyOpenWith(o, site, user, key, c, response, now, calls, opponent).1;
      var ends := response.mine || (|c.cells| > 0 && |c.cells| >= |SafeCells(site)|);
      var finish := calls.finish.result && calls.finish.save && calls.finish.delete && calls.finish.unlock;
      r.Ok? <==>
        calls.read
        && (response.canceled || response.mine || response.newOpenedCount <= 0 || calls.score)
        && (response.canceled || !ends || finish)
  {
    hide BestTeam, HasOpponent, SafeCells;
  }

  /** A scored open records points and time for the scorer, and for nobody else. */
  lemma ScoredOpen(o: Overlay, site: Site, user: int, key: string, c: Chunk, response: OpenResponse, now: int,
      calls: ApplyCalls, opponent: int)
    requires PlaysHere(o, user, key) && o.active[user] == ActiveMatch(o, user).value.id
    requires response.newOpenedCount > 0 && !response.mine && !response.canceled && calls.read && calls.score
    ensures
      var m, o' := ActiveMatch(o, user).value,
        ApplyOpenWith(o, site, user, key, c, response, now, calls, opponent).0;
      && m.id in o'.matches
      && var m' := o'.matches[m.id];
      && Get(m'.scores, user) == Get(m.scores, user) + response.newOpenedCount && Get(m'.lastScoreAt, user) == now
      && forall u :: u != user ==>
           Get(m'.scores, u) == Get(m.scores, u) && Get(m'.lastScoreAt, u) == Get(m.lastScoreAt, u)
  {
    var m := ActiveMatch(o, user).value;
    var scored := Scored(m, user, response, now);
    if scored.teams != map[] {
      FinishPoints(SaveMatch(o, scored), scored, BestTeam(scored), calls.finish);
    }
    hide BestTeam, SafeCells, FinishWith;
  }

  /** A finish that succeeds leaves the winner in the record, no pointer to any of its users, its lock free, and all
      other matches, pointers and locks as they were. */
  lemma FinishedCleanly(o: Overlay, m: Match, team: int, calls: FinishCalls)
    requires m.status == Ongoing && FinishWith(o, m, team, calls).1.Ok?
    ensures
      var o' := FinishWith(o, m, team, calls).0;
      && m.id in o'.matches && o'.matches[m.id].status == Finished && o'.matches[m.id].winTeam == Some(team)
      && o'.matches[m.id].(status := m.status, winTeam := m.winTeam) == m
      && (forall id :: id != m.id ==>
            (id in o'.matches <==> id in o.matches) && (id in o.matches ==> o'.matches[id] == o.matches[id]))
      && (forall u :: u in o'.active <==> u in o.active && u !in m.userTeams)
      && (forall u :: u in o'.active ==> o'.active[u] == o.active[u])
      && (forall key :: key in o'.locks <==> key in o.locks && !(key == m.chunkId && o.locks[key] == m.id))
      && (forall key :: key in o'.locks ==> o'.locks[key] == o.locks[key])
  {
  }

  /** The team named as opponent is one, whenever there is one. */
  ghost predicate OpponentChosen(o: Overlay, user: int, opponent: int) {
    ActiveMatch(o, user).Some? && HasOpponent(ActiveMatch(o, user).value, user) ==>
      IsOpponent(ActiveMatch(o, user).value, user, opponent)
  }

  lemma SomeOpponent(o: Overlay, user: int) returns (opponent: int)
    ensures OpponentChosen(o, user, opponent)
  {
    if ActiveMatch(o, user).Some? && HasOpponent(ActiveMatch(o, user).value, user) {
      opponent :| IsOpponent(ActiveMatch(o, user).value, user, opponent);
    } else {
      opponent := 0;
    }
  }

  // ---------------------------------------------------------------- the store

  class MineMatchStore {
    var matches: map<int, Match>
    var activeUsers: map<int, int>
    var locks: map<string, int>

    function View(): Overlay
      reads this
    {
      Overlay(matches, activeUsers, locks)
    }

    constructor ()
      ensures View() == NO_MATCHES
    {
      matches, activeUsers, locks := map[], map[], map[];
    }

    method SaveMatchState(m: Match)
      modifies this
      ensures View() == SaveMatch(old(View()), m)
    {
      matches := matches[m.id := m];
    }

    /** Follows the pointer and hides a match that is not ongoing any more. */
    method GetActiveMatchByUser(user: int) returns (m: Option<Match>)
      ensures m == ActiveMatch(View(), user)
    {
      if user !in activeUsers {
        return None;
      }
      var id := activeUsers[user];
      if id !in matches {
        return None;
      }
      if matches[id].status != Ongoing {
        return None;
      }
      return Some(matches[id]);
    }

    method SetActiveMatchForUsers(m: Match)
      modifies this
      ensures View() == SetActive(old(View()), m)
    {
      activeUsers := activeUsers + map u | u in m.userTeams :: m.id;
    }

    method DeleteActiveMatchForUsers(m: Match)
      modifies this
      ensures View() == DeleteActive(old(View()), m)
    {
      activeUsers := activeUsers - m.userTeams.Keys;
    }

    method GetChunkLock(key: string) returns (id: int)
      ensures id == LockOf(View(), key)
    {
      id := if key in locks then locks[key] else 0;
    }

    method TryLockChunk(key: string, id: int) returns (locked: bool)
      modifies this
      ensures View() == Lock(old(View()), key, id)
      ensures locked <==> key !in old(locks)
    {
      locked := key !in locks;
      if locked {
        locks := locks[key := id];
      }
    }

    /** Unlocks only for the match that holds the lock. */
    method UnlockChunk(key: string, id: int)
      modifies this
      ensures View() == Unlock(old(View()), key, id)
    {
      if key !in locks {
        return;
      }
      if locks[key] != id {
        return;
      }
      locks := locks - {key};
    }

    /** The first other team that the map iteration meets. */
    method OpponentTeam(m: Match, user: int) returns (team: Option<int>)
      ensures team.Some? <==> HasOpponent(m, user)
      ensures team.Some? ==> IsOpponent(m, user, team.value)
    {
      if user !in m.userTeams {
        return None;
      }
      var rest := m.teams.Keys;
      while rest != {}
        invariant rest <= m.teams.Keys
        invariant forall t :: t in m.teams && t !in rest ==> t == m.userTeams[user]
      {
        var teamNo := AnyOf(rest);
        rest := rest - {teamNo};
        if teamNo != m.userTeams[user] {
          assert IsOpponent(m, user, teamNo);
          return Some(teamNo);
        }
      }
      return None;
    }

    method Finish(m: Match, team: int, calls: FinishCalls) returns (r: Result<Option<MatchView>, OperationError>)
      modifies this
      ensures (View(), r) == FinishWith(old(View()), m, team, calls)
    {
      if m.status == Finished {
        return Ok(Some(MineMatch.View(m)));
      }
      if !calls.result {
        return Err(MatchFailure);
      }
      var won := Won(m, team);
      if !calls.save {
        return Err(MatchFailure);
      }
      SaveMatchState(won);
      if !calls.delete {
        return Err(MatchFailure);
      }
      DeleteActiveMatchForUsers(won);
      if !calls.unlock {
        return Err(MatchFailure);
      }
      UnlockChunk(won.chunkId, won.id);
      return Ok(Some(MineMatch.View(won)));
    }

    method AuthorizeChunkOperation(user: int, key: string) returns (r: Result<(), OperationError>)
      ensures r == Authorize(View(), user, key)
    {
      var activeMatch := GetActiveMatchByUser(user);
      if activeMatch.Some? {
        if activeMatch.value.chunkId != key {
          return Err(WrongChunk);
        }
        return Ok(());
      }
      var locked := GetChunkLock(key);
      if locked != 0 {
        return Err(ChunkOccupied);
      }
      return Ok(());
    }

    method ApplyOpenResult(site: Site, user: int, key: string, c: Chunk, response: OpenResponse, now: int,
        calls: ApplyCalls)
      returns (r: Result<Option<MatchView>, OperationError>, ghost opponent: int)
      requires SiteOk(site)
      modifies this
      ensures OpponentChosen(old(View()), user, opponent)
      ensures (View(), r) == ApplyOpenWith(old(View()), site, user, key, c, response, now, calls, opponent)
    {
      opponent := SomeOpponent(View(), user);
      if !calls.read {
        return Err(MatchFailure), opponent;
      }
      var active := GetActiveMatchByUser(user);
      if active.None? || active.value.chunkId != key {
        return Ok(None), opponent;
      }
      var m := active.value;
      if response.canceled {
        return Ok(Some(MineMatch.View(m))), opponent;
      }
      if response.mine {
        var team := OpponentTeam(m, user);
        if team.None? {
          return Err(MatchFailure), opponent;
        }
        opponent := team.value;
        r := Finish(m, team.value, calls.finish);
        return;
      }
      if response.newOpenedCount > 0 {
        m := Credit(m, user, response.newOpenedCount, now);
        if !calls.score {
          return Err(MatchFailure), opponent;
        }
        SaveMatchState(m);
      }
      var completed := AllSafeCellsOpened(site, c.cells);
      if completed.Err? {
        return Err(MineFailure(completed.error)), opponent;
      }
      if !completed.value {
        return Ok(Some(MineMatch.View(m))), opponent;
      }
      var winner := ScoreWinnerTeam(m);
      if winner.None? {
        return Err(MatchFailure), opponent;
      }
      r := Finish(m, winner.value, calls.finish);
    }
  }
}
