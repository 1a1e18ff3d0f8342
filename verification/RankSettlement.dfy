/** Settling match results into ranks: a transaction guarded by unique keys, then the leaderboard
    (internal/service/rank_service.go, internal/repository/rank_repository.go, sql/002_create_rank_table.sql). */
module RankSettlement {
  import opened Wrappers

  datatype Player = Player(user: int, team: int)

  datatype ResultEvent = ResultEvent(eventId: string, matchId: int, winTeam: int, mode: string)

  datatype Row = Row(score: int, wins: int, losses: int, matches: int)

  /** The unique key of gl_player_rank. */
  datatype RowKey = RowKey(mode: string, user: int)

  /** A row of gl_rank_event; both columns are unique. */
  datatype RankEvent = RankEvent(eventId: string, matchId: int)

  /** The committed tables and the leaderboard. */
  datatype Tables = Tables(events: seq<RankEvent>, rows: map<RowKey, Row>, board: map<RowKey, int>)

  const EMPTY: Tables := Tables([], map[], map[])

  datatype InsertError = DuplicateKey | InsertFailed

  /** A commit may fail, and a failed commit may still have taken effect on the server. */
  datatype CommitOutcome = Committed | Lost | CommittedButUnknown

  /** Where one delivery fails, if anywhere: `update` and `board` name the player at which the loop breaks. */
  datatype Faults = Faults(read: bool, begin: bool, insert: bool, update: Option<nat>, commit: CommitOutcome,
      board: Option<nat>)

  datatype RankError = ReadFailed | BeginFailed | EventFailed | UpdateFailed | CommitFailed | BoardFailed

  datatype Delivery = Delivery(event: ResultEvent, players: seq<Player>, faults: Faults)

  // ---------------------------------------------------------------- one delivery on the stored values

  predicate Duplicate(events: seq<RankEvent>, e: ResultEvent) {
    exists k :: 0 <= k < |events| && (events[k].eventId == e.eventId || events[k].matchId == e.matchId)
  }

  /** INSERT ... ON DUPLICATE KEY UPDATE. */
  function Upsert(rows: map<RowKey, Row>, key: RowKey, delta: int, win: int, lose: int): map<RowKey, Row> {
    if key in rows
    then rows[key := Row(rows[key].score + delta, rows[key].wins + win, rows[key].losses + lose, rows[key].matches + 1)]
    else rows[key := Row(1000 + delta, win, lose, 1)]
  }

  function RankPlayer(rows: map<RowKey, Row>, e: ResultEvent, p: Player): map<RowKey, Row> {
    if p.team == e.winTeam then Upsert(rows, RowKey(e.mode, p.user), 100, 1, 0)
    else Upsert(rows, RowKey(e.mode, p.user), -60, 0, 1)
  }

  function RankPlayers(rows: map<RowKey, Row>, e: ResultEvent, players: seq<Player>): map<RowKey, Row> {
    if players == [] then rows
    else RankPlayer(RankPlayers(rows, e, players[..|players| - 1]), e, players[|players| - 1])
  }

  /** The leaderboard after the scores of some players were copied to it. */
  function Publish(board: map<RowKey, int>, rows: map<RowKey, Row>, mode: string,
      players: seq<Player>): map<RowKey, int> {
    if players == [] then board
    else
      var before, key := Publish(board, rows, mode, players[..|players| - 1]),
          RowKey(mode, players[|players| - 1].user);
      if key in rows then before[key := rows[key].score] else before
  }

  predicate Breaks(at: Option<nat>, players: seq<Player>) { at.Some? && at.value < |players| }

  /** Whether the transaction takes effect. */
  predicate TakesEffect(t: Tables, d: Delivery) {
    && d.faults.read && d.faults.begin && d.faults.insert && !Duplicate(t.events, d.event)
        && !Breaks(d.faults.update, d.players)
    && d.faults.commit != Lost
  }

  /** How many players' scores reach the leaderboard when it does. */
  function Reach(d: Delivery): (n: nat)
    ensures n <= |d.players|
  {
    if d.faults.commit != Committed then 0
    else if Breaks(d.faults.board, d.players) then d.faults.board.value
    else |d.players|
  }

  function Settle(t: Tables, d: Delivery): Tables {
    if !TakesEffect(t, d) then t
    else
      var rows := RankPlayers(t.rows, d.event, d.players);
      Tables(t.events + [RankEvent(d.event.eventId, d.event.matchId)], rows,
          Publish(t.board, rows, d.event.mode, d.players[..Reach(d)]))
  }

  /** What the caller, and so the broker, is told. */
  function Verdict(t: Tables, d: Delivery): Result<(), RankError> {
    if !d.faults.read then Err(ReadFailed)
    else if !d.faults.begin then Err(BeginFailed)
    else if !d.faults.insert then Err(EventFailed)
    else if Duplicate(t.events, d.event) then Ok(())
    else if Breaks(d.faults.update, d.players) then Err(UpdateFailed)
    else if d.faults.commit != Committed then Err(CommitFailed)
    else if Breaks(d.faults.board, d.players) then Err(BoardFailed)
    else Ok(())
  }

  // ---------------------------------------------------------------- repository and service

  /** The committed tables, and the working copy of the open transaction. */
  class RankRepository {
    var events: seq<RankEvent>
    var rows: map<RowKey, Row>
    var txEvents: seq<RankEvent>
    var txRows: map<RowKey, Row>

    constructor ()
      ensures events == [] && rows == map[]
    {
      events, rows, txEvents, txRows := [], map[], [], map[];
    }

    method BeginTx()
      modifies this`txEvents, this`txRows
      ensures txEvents == events && txRows == rows
    {
      txEvents, txRows := events, rows;
    }

    method AddRankEvent(e: ResultEvent, ok: bool) returns (r: Result<(), InsertError>)
      modifies this`txEvents
      ensures r == if !ok then Err(InsertFailed) else if Duplicate(old(txEvents), e) then Err(DuplicateKey) else Ok(())
      ensures txEvents == old(txEvents) + if r.Ok? then [RankEvent(e.eventId, e.matchId)] else []
    {
      if !ok {
        return Err(InsertFailed);
      }
      if Duplicate(txEvents, e) {
        return Err(DuplicateKey);
      }
      txEvents := txEvents + [RankEvent(e.eventId, e.matchId)];
      return Ok(());
    }

    method UpdatePlayerRank(key: RowKey, delta: int, win: int, lose: int)
      modifies this`txRows
      ensures txRows == Upsert(old(txRows), key, delta, win, lose)
    {
      if key in txRows {
        var row := txRows[key];
        txRows := txRows[key := Row(row.score + delta, row.wins + win, row.losses + lose, row.matches + 1)];
      } else {
        txRows := txRows[key := Row(1000 + delta, win, lose, 1)];
      }
    }

    method Commit(outcome: CommitOutcome) returns (ok: bool)
      modifies this`events, this`rows
      ensures ok == (outcome == Committed)
      ensures events == if outcome == Lost then old(events) else txEvents
      ensures rows == if outcome == Lost then old(rows) else txRows
    {
      if outcome != Lost {
        events, rows := txEvents, txRows;
      }
      return outcome == Committed;
    }

    method Rollback()
      modifies this`txEvents, this`txRows
      ensures txEvents == events && txRows == rows
    {
      txEvents, txRows := events, rows;
    }

    method GetPlayerRank(key: RowKey) returns (row: Option<Row>)
      ensures row == if key in rows then Some(rows[key]) else None
    {
      row := if key in rows then Some(rows[key]) else None;
    }
  }

  class RankService {
    const repo: RankRepository
    var board: map<RowKey, int>

    function View(): Tables
      reads this, repo
    {
      Tables(repo.events, repo.rows, board)
    }

    constructor (repo: RankRepository)
      ensures this.repo == repo && board == map[]
    {
      this.repo, board := repo, map[];
    }

    method SettleMatchResult(e: ResultEvent, players: seq<Player>, faults: Faults) returns (r: Result<(), RankError>)
      modifies this, repo
      ensures View() == Settle(old(View()), Delivery(e, players, faults))
      ensures r == Verdict(old(View()), Delivery(e, players, faults))
    {
      if !faults.read {
        return Err(ReadFailed);
      }
      if !faults.begin {
        return Err(BeginFailed);
      }
      repo.BeginTx();
      var inserted := repo.AddRankEvent(e, faults.insert);
      if inserted == Err(DuplicateKey) {
        repo.Rollback();
        return Ok(());
      }
      if inserted.Err? {
        repo.Rollback();
        return Err(EventFailed);
      }
      var updated := UpdateRanks(e, players, faults.update);
      if !updated {
        repo.Rollback();
        return Err(UpdateFailed);
      }
      var committed := repo.Commit(faults.commit);
      if !committed {
        assert players[..0] == [];
        return Err(CommitFailed);
      }
      assert players[..|players|] == players;
      var published := PublishScores(e.mode, players, faults.board);
      if !published {
        return Err(BoardFailed);
      }
      return Ok(());
    }

    method UpdateRanks(e: ResultEvent, players: seq<Player>, failure: Option<nat>) returns (ok: bool)
      modifies repo`txRows
      ensures ok <==> !Breaks(failure, players)
      ensures ok ==> repo.txRows == RankPlayers(old(repo.txRows), e, players)
    {
      for k := 0 to |players|
        invariant repo.txRows == RankPlayers(old(repo.txRows), e, players[..k])
        invariant failure.Some? ==> k <= failure.value
      {
        assert players[..k + 1][..k] == players[..k];
        if failure == Some(k) {
          return false;
        }
        var key := RowKey(e.mode, players[k].user);
        if players[k].team == e.winTeam {
          repo.UpdatePlayerRank(key, 100, 1, 0);
        } else {
          repo.UpdatePlayerRank(key, -60, 0, 1);
        }
      }
      assert players[..|players|] == players;
      return true;
    }

    method PublishScores(mode: string, players: seq<Player>, failure: Option<nat>) returns (ok: bool)
      modifies this`board
      ensures ok <==> !Breaks(failure, players)
      ensures board == Publish(old(board), repo.rows, mode, players[..if ok then |players| else failure.value])
    {
      for k := 0 to |players|
        invariant board == Publish(old(board), repo.rows, mode, players[..k])
        invariant failure.Some? ==> k <= failure.value
      {
        assert players[..k + 1][..k] == players[..k];
        if failure == Some(k) {
          return false;
        }
        var key := RowKey(mode, players[k].user);
        var row := repo.GetPlayerRank(key);
        if row.None? {
          continue;
        }
        board := board[key := row.value.score];
      }
      return true;
    }
  }

  // ---------------------------------------------------------------- any sequence of deliveries

  function After(deliveries: seq<Delivery>, k: nat): Tables
    requires k <= |deliveries|
  {
    if k == 0 then EMPTY else Settle(After(deliveries, k - 1), deliveries[k - 1])
  }

  /** The deliveries that took effect, oldest first. */
  function Log(deliveries: seq<Delivery>, k: nat): seq<Delivery>
    requires k <= |deliveries|
  {
    if k == 0 then []
    else
      var takes := TakesEffect(After(deliveries, k - 1), deliveries[k - 1]);
      Log(deliveries, k - 1) + if takes then [deliveries[k - 1]] else []
  }

  function FoldRows(log: seq<Delivery>): map<RowKey, Row> {
    if log == [] then map[]
    else RankPlayers(FoldRows(log[..|log| - 1]), log[|log| - 1].event, log[|log| - 1].players)
  }

  function Events(log: seq<Delivery>): seq<RankEvent> {
    seq(|log|, k requires 0 <= k < |log| => RankEvent(log[k].event.eventId, log[k].event.matchId))
  }

  ghost predicate OncePerMatch(log: seq<Delivery>) {
    forall i, j :: 0 <= i < j < |log| ==>
        log[i].event.matchId != log[j].event.matchId && log[i].event.eventId != log[j].event.eventId
  }

  /** Under any redelivery, duplication, rollback or lost acknowledgement: every match takes effect at most once,
      and the rank rows are the fold of those results alone. */
  lemma {:induction false} RowsAreTheFold(deliveries: seq<Delivery>, k: nat)
    requires k <= |deliveries|
    ensures OncePerMatch(Log(deliveries, k)) && After(deliveries, k).events == Events(Log(deliveries, k))
    ensures After(deliveries, k).rows == FoldRows(Log(deliveries, k))
  {
    if k > 0 {
      RowsAreTheFold(deliveries, k - 1);
      var t, d, log := After(deliveries, k - 1), deliveries[k - 1], Log(deliveries, k - 1);
      if TakesEffect(t, d) {
        assert Log(deliveries, k) == log + [d] && (log + [d])[..|log|] == log;
        forall i | 0 <= i < |log|
          ensures log[i].event.matchId != d.event.matchId && log[i].event.eventId != d.event.eventId
        {
          assert t.events[i] == Events(log)[i];
        }
      } else {
        assert Log(deliveries, k) == log;
      }
    }
  }

  /** Success means settled: a delivery that is acknowledged has its event or its match on record. */
  lemma AcknowledgedIsSettled(t: Tables, d: Delivery)
    requires Verdict(t, d).Ok?
    ensures Duplicate(Settle(t, d).events, d.event)
  {
    var events := Settle(t, d).events;
    if TakesEffect(t, d) {
      assert events[|events| - 1].eventId == d.event.eventId;
    }
  }

  predicate NoFaults(d: Delivery) {
    && d.faults.read && d.faults.begin && d.faults.insert && !Breaks(d.faults.update, d.players)
    && d.faults.commit == Committed && !Breaks(d.faults.board, d.players)
  }

  /** Without a fault a delivery is acknowledged; so is every repetition of what is on record, once the insertion is
      reached. Whatever else is refused, and the refusal names the step that failed first. */
  lemma VerdictExact(t: Tables, d: Delivery)
    ensures
      var v, f, known := Verdict(t, d), d.faults, Duplicate(t.events, d.event);
      var inserted := f.read && f.begin && f.insert && !known;
      && (NoFaults(d) ==> v.Ok?)
      && (v.Ok? <==> f.read && f.begin && f.insert && (known || NoFaults(d)))
      && (v == Err(ReadFailed) <==> !f.read) && (v == Err(BeginFailed) <==> f.read && !f.begin)
      && (v == Err(EventFailed) <==> f.read && f.begin && !f.insert)
      && (v == Err(UpdateFailed) <==> inserted && Breaks(f.update, d.players))
      && (v == Err(CommitFailed) <==> inserted && !Breaks(f.update, d.players) && f.commit != Committed)
      && (v == Err(BoardFailed) <==> inserted && !Breaks(f.update, d.players) && f.commit == Committed
                                     && Breaks(f.board, d.players))
  {
  }

  /** The player occurs once in the list. */
  predicate Once(players: seq<Player>, i: nat)
    requires i < |players|
  {
    forall k :: 0 <= k < |players| && players[k].user == players[i].user ==> k == i
  }

  /** A delivery of a match and an event that are not on record settles once nothing fails up to the commit, even if its
      acknowledgement is lost: both are on record, and every player has one match more, a win or a loss. */
  lemma CommitSettles(t: Tables, d: Delivery, i: nat)
    requires d.faults.read && d.faults.begin && d.faults.insert && !Breaks(d.faults.update, d.players)
    requires d.faults.commit != Lost && !Duplicate(t.events, d.event) && i < |d.players| && Once(d.players, i)
    ensures
      var t', key, won := Settle(t, d), RowKey(d.event.mode, d.players[i].user), d.players[i].team == d.event.winTeam;
      var was := if key in t.rows then t.rows[key] else Row(1000, 0, 0, 0);
      && t'.events == t.events + [RankEvent(d.event.eventId, d.event.matchId)]
      && key in t'.rows && t'.rows[key].matches == was.matches + 1
      && t'.rows[key].score == was.score + (if won then 100 else -60)
      && t'.rows[key].wins == was.wins + (if won then 1 else 0)
      && t'.rows[key].losses == was.losses + (if won then 0 else 1)
  {
    hide Publish;
    RankedOnce(t.rows, d.event, d.players, i);
  }

  /** After an acknowledged commit the leaderboard shows the new score of every player up to the one at which its loop
      breaks, of all without a break; after a commit without acknowledgement it is as it was. */
  lemma BoardAfterCommit(t: Tables, d: Delivery, i: nat)
    requires d.faults.read && d.faults.begin && d.faults.insert && !Breaks(d.faults.update, d.players)
    requires d.faults.commit != Lost && !Duplicate(t.events, d.event) && i < |d.players| && Once(d.players, i)
    ensures
      var t', key := Settle(t, d), RowKey(d.event.mode, d.players[i].user);
      if d.faults.commit == Committed && (d.faults.board.Some? ==> i < d.faults.board.value) then
        key in t'.board && key in t'.rows && t'.board[key] == t'.rows[key].score
      else (key in t'.board <==> key in t.board) && (key in t.board ==> t'.board[key] == t.board[key])
  {
    hide Publish, RankPlayers;
    var key, reached := RowKey(d.event.mode, d.players[i].user), d.players[..Reach(d)];
    RankedHaveRows(t.rows, d.event, d.players, key.user);
    PublishAt(t.board, RankPlayers(t.rows, d.event, d.players), d.event.mode, reached, key);
    assert forall k :: 0 <= k < |reached| ==> reached[k] == d.players[k];
    assert Mentions(reached, key.user) <==> i < Reach(d) by {
      if i < Reach(d) {
        assert reached[i].user == key.user;
      }
    }
  }

  /** Ranking a list in which a player occurs once changes that player's row once. */
  lemma {:induction false} RankedOnce(rows: map<RowKey, Row>, e: ResultEvent, players: seq<Player>, i: nat)
    requires i < |players| && Once(players, i)
    ensures var key := RowKey(e.mode, players[i].user);
            && key in RankPlayers(rows, e, players) && key in RankPlayer(rows, e, players[i])
            && RankPlayers(rows, e, players)[key] == RankPlayer(rows, e, players[i])[key]
  {
    var init, last := players[..|players| - 1], players[|players| - 1];
    assert forall k :: 0 <= k < |init| ==> init[k] == players[k];
    if i == |players| - 1 {
      UntouchedRow(rows, e, init, RowKey(e.mode, last.user));
    } else {
      RankedOnce(rows, e, init, i);
    }
  }

  /** A failure before the commit, or a lost commit, changes nothing; neither does a match or event on record. */
  lemma RolledBack(t: Tables, d: Delivery)
    requires !d.faults.read || !d.faults.begin || !d.faults.insert || Breaks(d.faults.update, d.players)
             || d.faults.commit == Lost || Duplicate(t.events, d.event)
    ensures Settle(t, d) == t
  {
  }

  /** What is on record stays on record. */
  lemma {:induction false} RecordsStay(deliveries: seq<Delivery>, j: nat, k: nat, e: ResultEvent)
    requires j <= k <= |deliveries| && Duplicate(After(deliveries, j).events, e)
    ensures Duplicate(After(deliveries, k).events, e)
    decreases k
  {
    if j < k {
      RecordsStay(deliveries, j, k - 1, e);
      var before, after := After(deliveries, k - 1).events, After(deliveries, k).events;
      assert forall i :: 0 <= i < |before| ==> after[i] == before[i];
    }
  }

  /** Once a match or an event is on record, no later delivery of it changes anything, the leaderboard included,
      whatever else is delivered in between. */
  lemma SettledForever(deliveries: seq<Delivery>, j: nat, k: nat, e: ResultEvent)
    requires j <= k < |deliveries| && Duplicate(After(deliveries, j).events, e) && deliveries[k].event == e
    ensures After(deliveries, k + 1) == After(deliveries, k)
  {
    RecordsStay(deliveries, j, k, e);
  }

  /** So a redelivery after an acknowledged delivery of the same event never has an effect. */
  lemma RedeliveryIsHarmless(deliveries: seq<Delivery>, j: nat, k: nat)
    requires j < k < |deliveries| && deliveries[k].event == deliveries[j].event
    requires Verdict(After(deliveries, j), deliveries[j]).Ok? || TakesEffect(After(deliveries, j), deliveries[j])
    ensures After(deliveries, k + 1) == After(deliveries, k)
  {
    var t, d := After(deliveries, j), deliveries[j];
    if TakesEffect(t, d) {
      var events := Settle(t, d).events;
      assert events[|events| - 1].eventId == d.event.eventId;
    } else {
      AcknowledgedIsSettled(t, d);
    }
    SettledForever(deliveries, j + 1, k, d.event);
  }

  // ---------------------------------------------------------------- what the rows count

  function WinsIn(players: seq<Player>, e: ResultEvent, key: RowKey): nat {
    if players == [] || e.mode != key.mode then 0
    else
      var last := players[|players| - 1];
      WinsIn(players[..|players| - 1], e, key) + if last.user == key.user && last.team == e.winTeam then 1 else 0
  }

  function LossesIn(players: seq<Player>, e: ResultEvent, key: RowKey): nat {
    if players == [] || e.mode != key.mode then 0
    else
      var last := players[|players| - 1];
      LossesIn(players[..|players| - 1], e, key) + if last.user == key.user && last.team != e.winTeam then 1 else 0
  }

  function Wins(log: seq<Delivery>, key: RowKey): nat {
    if log == [] then 0 else Wins(log[..|log| - 1], key) + WinsIn(log[|log| - 1].players, log[|log| - 1].event, key)
  }

  function Losses(log: seq<Delivery>, key: RowKey): nat {
    if log == [] then 0 else Losses(log[..|log| - 1], key) + LossesIn(log[|log| - 1].players, log[|log| - 1].event, key)
  }

  /** A row that counts `w` wins and `l` losses; there is a row only when there is something to count. */
  predicate Counts(rows: map<RowKey, Row>, key: RowKey, w: nat, l: nat) {
    && (key in rows <==> w + l > 0)
    && (key in rows ==> rows[key] == Row(1000 + 100 * w - 60 * l, w, l, w + l))
  }

  lemma {:induction false} RankPlayersCount(rows: map<RowKey, Row>, e: ResultEvent, players: seq<Player>, key: RowKey,
      w: nat, l: nat)
    requires Counts(rows, key, w, l)
    ensures Counts(RankPlayers(rows, e, players), key, w + WinsIn(players, e, key), l + LossesIn(players, e, key))
  {
    if players != [] {
      RankPlayersCount(rows, e, players[..|players| - 1], key, w, l);
    }
  }

  lemma {:induction false} FoldCounts(log: seq<Delivery>, key: RowKey)
    ensures Counts(FoldRows(log), key, Wins(log, key), Losses(log, key))
  {
    if log != [] {
      FoldCounts(log[..|log| - 1], key);
      RankPlayersCount(FoldRows(log[..|log| - 1]), log[|log| - 1].event, log[|log| - 1].players, key,
                       Wins(log[..|log| - 1], key), Losses(log[..|log| - 1], key));
    }
  }

  /** Every rank row, after any deliveries, is determined by the number of wins and losses among the settled matches. */
  lemma RowsCountResults(deliveries: seq<Delivery>, k: nat, key: RowKey)
    requires k <= |deliveries|
    ensures Counts(After(deliveries, k).rows, key, Wins(Log(deliveries, k), key), Losses(Log(deliveries, k), key))
  {
    RowsAreTheFold(deliveries, k);
    FoldCounts(Log(deliveries, k), key);
  }

  // ---------------------------------------------------------------- what the leaderboard holds

  predicate Reached(d: Delivery, key: RowKey) {
    d.event.mode == key.mode && exists i :: 0 <= i < Reach(d) && d.players[i].user == key.user
  }

  /** How much of the log there is up to the last settlement that reached a player's leaderboard entry; 0 for none. */
  function LastReach(log: seq<Delivery>, key: RowKey): (n: nat)
    ensures n <= |log| && (n > 0 ==> Reached(log[n - 1], key)) && forall m :: n <= m < |log| ==> !Reached(log[m], key)
  {
    if log == [] then 0 else if Reached(log[|log| - 1], key) then |log| else LastReach(log[..|log| - 1], key)
  }

  predicate Mentions(players: seq<Player>, user: int) { exists i :: 0 <= i < |players| && players[i].user == user }

  lemma {:induction false} PublishAt(board: map<RowKey, int>, rows: map<RowKey, Row>, mode: string,
      players: seq<Player>, key: RowKey)
    ensures var after := Publish(board, rows, mode, players);
            if mode == key.mode && key in rows && Mentions(players, key.user)
            then key in after && after[key] == rows[key].score
            else (key in after <==> key in board) && (key in board ==> after[key] == board[key])
  {
    if players != [] {
      var init, last := players[..|players| - 1], players[|players| - 1];
      PublishAt(board, rows, mode, init, key);
      assert Mentions(players, key.user) <==> Mentions(init, key.user) || last.user == key.user by {
        assert players == init + [last];
        assert forall i :: 0 <= i < |init| ==> init[i] == players[i];
      }
    }
  }

  /** A player's entry is the score the player's row held after the last settlement that reached it. */
  ghost predicate BoardOk(board: map<RowKey, int>, log: seq<Delivery>, key: RowKey) {
    var n := LastReach(log, key);
    && (key in board <==> n > 0)
    && (n > 0 ==> key in FoldRows(log[..n]) && board[key] == FoldRows(log[..n])[key].score)
  }

  lemma {:induction false} RankedHaveRows(rows: map<RowKey, Row>, e: ResultEvent, players: seq<Player>, user: int)
    requires Mentions(players, user)
    ensures RowKey(e.mode, user) in RankPlayers(rows, e, players)
  {
    var init, last := players[..|players| - 1], players[|players| - 1];
    if last.user != user {
      var i :| 0 <= i < |players| && players[i].user == user;
      assert init[i] == players[i];
      RankedHaveRows(rows, e, init, user);
    }
  }

  lemma BoardStep(board: map<RowKey, int>, log: seq<Delivery>, d: Delivery, key: RowKey)
    requires BoardOk(board, log, key)
    ensures BoardOk(Publish(board, FoldRows(log + [d]), d.event.mode, d.players[..Reach(d)]), log + [d], key)
  {
    hide RankPlayers, Publish;
    var longer, reached := log + [d], d.players[..Reach(d)];
    assert longer[..|log|] == log && longer[..|longer|] == longer;
    var rows := FoldRows(longer);
    PublishAt(board, rows, d.event.mode, reached, key);
    assert Reached(d, key) <==> d.event.mode == key.mode && Mentions(reached, key.user) by {
      assert forall i :: 0 <= i < Reach(d) ==> reached[i] == d.players[i];
    }
    if Reached(d, key) {
      assert Mentions(d.players, key.user);
      RankedHaveRows(FoldRows(log), d.event, d.players, key.user);
      assert LastReach(longer, key) == |longer|;
    } else {
      assert LastReach(longer, key) == LastReach(log, key);
      assert longer[..LastReach(log, key)] == log[..LastReach(log, key)];
    }
  }

  /** Every leaderboard entry, after any deliveries, is a score that the player's row held right after a settlement:
      the last one whose leaderboard loop reached the player. */
  lemma {:induction false} BoardHoldsAPastScore(deliveries: seq<Delivery>, k: nat, key: RowKey)
    requires k <= |deliveries|
    ensures BoardOk(After(deliveries, k).board, Log(deliveries, k), key)
  {
    hide RankPlayers, Publish, BoardOk, LastReach;
    if k > 0 {
      BoardHoldsAPastScore(deliveries, k - 1, key);
      RowsAreTheFold(deliveries, k - 1);
      RowsAreTheFold(deliveries, k);
      var log, d := Log(deliveries, k - 1), deliveries[k - 1];
      if TakesEffect(After(deliveries, k - 1), d) {
        BoardStep(After(deliveries, k - 1).board, log, d, key);
      } else {
        assert Log(deliveries, k) == log;
      }
    } else {
      EmptyBoard(key);
    }
  }

  lemma EmptyBoard(key: RowKey)
    ensures BoardOk(map[], [], key)
  {
  }

  /** A leaderboard entry can be behind its row only because of a settlement that took effect but did not reach it. */
  lemma BoardIsCurrent(deliveries: seq<Delivery>, k: nat, key: RowKey)
    requires k <= |deliveries|
    requires var log := Log(deliveries, k); forall m :: LastReach(log, key) <= m < |log| ==>
               !Mentions(log[m].players, key.user) || log[m].event.mode != key.mode
    ensures var t := After(deliveries, k);
            (key in t.board <==> key in t.rows) && (key in t.rows ==> t.board[key] == t.rows[key].score)
  {
    BoardHoldsAPastScore(deliveries, k, key);
    RowsAreTheFold(deliveries, k);
    var log := Log(deliveries, k);
    Untouched(log, LastReach(log, key), key);
  }

  lemma {:induction false} UntouchedRow(rows: map<RowKey, Row>, e: ResultEvent, players: seq<Player>, key: RowKey)
    requires !Mentions(players, key.user) || e.mode != key.mode
    ensures key in RankPlayers(rows, e, players) <==> key in rows
    ensures key in rows ==> RankPlayers(rows, e, players)[key] == rows[key]
  {
    if players != [] {
      var init := players[..|players| - 1];
      assert forall i :: 0 <= i < |init| ==> init[i] == players[i];
      UntouchedRow(rows, e, init, key);
    }
  }

  lemma {:induction false} Untouched(log: seq<Delivery>, n: nat, key: RowKey)
    requires n <= |log| && forall m :: n <= m < |log| ==>
               !Mentions(log[m].players, key.user) || log[m].event.mode != key.mode
    ensures key in FoldRows(log) <==> key in FoldRows(log[..n])
    ensures key in FoldRows(log) ==> FoldRows(log)[key] == FoldRows(log[..n])[key]
  {
    if n < |log| {
      var init := log[..|log| - 1];
      assert init[..n] == log[..n];
      Untouched(init, n, key);
      UntouchedRow(FoldRows(init), log[|log| - 1].event, log[|log| - 1].players, key);
    } else {
      assert log[..n] == log;
    }
  }
}
