/** Matches played on one chunk: their records, the winner rule and the completion test
    (internal/service/mine_match_service.go, internal/repository/mine_match_repository.go). */
module MineMatch {
  import opened Wrappers
  import opened FiniteSums
  import opened ChunkIds
  import opened MineField
  import opened ChunkState
  import opened ChunkMachine

  datatype Status = Ongoing | Finished

  datatype Match = Match(id: int, chunkId: string, status: Status, teams: map<int, seq<int>>, userTeams: map<int, int>,
                         scores: map<int, int>, lastScoreAt: map<int, int>, winTeam: Option<int>)

  datatype Team = Team(no: int, users: seq<int>)

  /** The part of an open response that shows the match. */
  datatype MatchView = MatchView(id: int, scores: map<int, int>, finished: bool, winTeam: Option<int>)

  /** A Go map read: the zero value for a missing key. */
  function Get(m: map<int, int>, k: int): int { if k in m then m[k] else 0 }

  function View(m: Match): MatchView { MatchView(m.id, m.scores, m.status == Finished, m.winTeam) }

  // ---------------------------------------------------------------- building a match

  function TeamsOf(teams: seq<Team>): map<int, seq<int>> {
    if teams == [] then map[] else TeamsOf(teams[..|teams| - 1])[teams[|teams| - 1].no := teams[|teams| - 1].users]
  }

  function AddUsers(m: map<int, int>, users: seq<int>, value: int): map<int, int> {
    if users == [] then m else AddUsers(m, users[..|users| - 1], value)[users[|users| - 1] := value]
  }

  function UserTeamsOf(teams: seq<Team>): map<int, int> {
    if teams == [] then map[]
    else AddUsers(UserTeamsOf(teams[..|teams| - 1]), teams[|teams| - 1].users, teams[|teams| - 1].no)
  }

  function ZeroScores(teams: seq<Team>): map<int, int> {
    if teams == [] then map[] else AddUsers(ZeroScores(teams[..|teams| - 1]), teams[|teams| - 1].users, 0)
  }

  function NewMatch(id: int, chunkId: string, teams: seq<Team>): Match {
    Match(id, chunkId, Ongoing, TeamsOf(teams), UserTeamsOf(teams), ZeroScores(teams), map[], None)
  }

  lemma {:induction false} AddUsersKeys(m: map<int, int>, users: seq<int>, value: int)
    ensures forall u :: u in AddUsers(m, users, value) <==> u in m || u in users
    ensures forall u :: u in AddUsers(m, users, value) ==>
              AddUsers(m, users, value)[u] == if u in users then value else m[u]
  {
    if users != [] {
      var most := users[..|users| - 1];
      AddUsersKeys(m, most, value);
      assert users == most + [users[|users| - 1]];
    }
  }

  /** Builds the record of a new match with the nested loop over teams and users. */
  method BuildMineMatchState(id: int, chunkId: string, teams: seq<Team>) returns (m: Match)
    ensures m == NewMatch(id, chunkId, teams) && m.id == id && m.chunkId == chunkId
    ensures m.status == Ongoing && m.winTeam == None && m.lastScoreAt == map[]
    ensures forall u :: u in m.userTeams <==> exists k :: 0 <= k < |teams| && u in teams[k].users
    ensures m.scores.Keys == m.userTeams.Keys && forall u :: u in m.scores ==> m.scores[u] == 0
  {
    var teamMap: map<int, seq<int>>, userTeams: map<int, int>, scores: map<int, int> := map[], map[], map[];
    for i := 0 to |teams|
      invariant teamMap == TeamsOf(teams[..i]) && userTeams == UserTeamsOf(teams[..i])
      invariant scores == ZeroScores(teams[..i])
      invariant scores.Keys == userTeams.Keys && forall u :: u in scores ==> scores[u] == 0
      invariant forall u :: u in userTeams <==> exists k :: 0 <= k < i && u in teams[k].users
    {
      var team := teams[i];
      teamMap := teamMap[team.no := team.users];
      ghost var start, startScores := userTeams, scores;
      for j := 0 to |team.users|
        invariant userTeams == AddUsers(start, team.users[..j], team.no)
        invariant scores == AddUsers(startScores, team.users[..j], 0)
        invariant scores.Keys == userTeams.Keys && forall u :: u in scores ==> scores[u] == 0
      {
        userTeams, scores := userTeams[team.users[j] := team.no], scores[team.users[j] := 0];
        assert team.users[..j + 1][..j] == team.users[..j];
      }
      assert team.users[..|team.users|] == team.users && teams[..i + 1][..i] == teams[..i];
      AddUsersKeys(start, team.users, team.no);
    }
    assert teams[..|teams|] == teams;
    m := Match(id, chunkId, Ongoing, teamMap, userTeams, scores, map[], None);
  }

  /** Teams with different numbers and without a common user. */
  predicate SeparateTeams(teams: seq<Team>) {
    forall i, j :: 0 <= i < j < |teams| ==>
        teams[i].no != teams[j].no && forall u :: u in teams[i].users ==> u !in teams[j].users
  }

  /** The record has each team under its number, and for each user the number of the own team. */
  lemma {:induction false} RecordedTeams(id: int, chunkId: string, teams: seq<Team>, k: nat)
    requires SeparateTeams(teams) && k < |teams|
    ensures var m := NewMatch(id, chunkId, teams);
            && teams[k].no in m.teams && m.teams[teams[k].no] == teams[k].users
            && forall u :: u in teams[k].users ==> u in m.userTeams && m.userTeams[u] == teams[k].no
  {
    var init, last := teams[..|teams| - 1], teams[|teams| - 1];
    AddUsersKeys(UserTeamsOf(init), last.users, last.no);
    if k < |teams| - 1 {
      assert init[k] == teams[k];
      RecordedTeams(id, chunkId, init, k);
    }
  }

  // ---------------------------------------------------------------- the winner

  function TeamScore(m: Match, users: seq<int>): int {
    if users == [] then 0 else TeamScore(m, users[..|users| - 1]) + Get(m.scores, users[|users| - 1])
  }

  predicate DistinctUsers(users: seq<int>) { forall i, j :: 0 <= i < j < |users| ==> users[i] != users[j] }

  function Members(users: seq<int>): set<int> { set u | u in users }

  lemma MembersAdd(users: seq<int>, u: int)
    requires u !in users
    ensures Members(users + [u]) - {u} == Members(users) && u in Members(users + [u])
  {
    if Members(users + [u]) - {u} != Members(users) {
      var v := Differ(Members(users + [u]) - {u}, Members(users));
    }
  }

  lemma NoMembers()
    ensures Members([]) == {}
  {
    if Members([]) != {} {
      var u := SomeMember(Members([]));
    }
  }

  /** The score of a team is the sum of its members' scores. */
  lemma {:induction false} TeamScoreIsSum(m: Match, users: seq<int>)
    requires DistinctUsers(users)
    ensures TeamScore(m, users) == Sum(Members(users), u => Get(m.scores, u))
  {
    hide Members;
    if users == [] {
      NoMembers();
    } else {
      var most, last := users[..|users| - 1], users[|users| - 1];
      TeamScoreIsSum(m, most);
      assert users == most + [last];
      MembersAdd(most, last);
      SumRemove(Members(users), u => Get(m.scores, u), last);
    }
  }

  /** The earliest of the members' last scoring times, 0 when nobody scored. */
  function TeamTime(m: Match, users: seq<int>): (t: int)
    ensures t >= 0
  {
    if users == [] then 0
    else
      var t, last := TeamTime(m, users[..|users| - 1]), Get(m.lastScoreAt, users[|users| - 1]);
      if last > 0 && (t == 0 || last < t) then last else t
  }

  lemma {:induction false} TeamTimeIsEarliest(m: Match, users: seq<int>)
    ensures var t := TeamTime(m, users);
            && (t == 0 <==> forall k :: 0 <= k < |users| ==> Get(m.lastScoreAt, users[k]) <= 0)
            && (forall k :: 0 <= k < |users| && Get(m.lastScoreAt, users[k]) > 0 ==> t <= Get(m.lastScoreAt, users[k]))
            && (t > 0 ==> exists k :: 0 <= k < |users| && Get(m.lastScoreAt, users[k]) == t)
  {
    if users != [] {
      var most := users[..|users| - 1];
      TeamTimeIsEarliest(m, most);
      assert forall k :: 0 <= k < |most| ==> most[k] == users[k];
    }
  }

  /** A scoring time counts as earlier when it exists and the other does not, or when it is smaller. */
  predicate Earlier(s: int, t: int) { s > 0 && (t == 0 || s < t) }

  /** More points, then earlier, then the smaller number. */
  predicate Ranks(scoreA: int, timeA: int, a: int, scoreB: int, timeB: int, b: int) {
    scoreA > scoreB || (scoreA == scoreB && (Earlier(timeA, timeB) || (timeA == timeB && a < b)))
  }

  /** Team `a` ranks strictly above team `b`. */
  predicate Beats(m: Match, a: int, b: int)
    requires a in m.teams && b in m.teams
  {
    Ranks(TeamScore(m, m.teams[a]), TeamTime(m, m.teams[a]), a, TeamScore(m, m.teams[b]), TeamTime(m, m.teams[b]), b)
  }

  ghost predicate IsBestAmong(m: Match, group: set<int>, team: int)
    requires group <= m.teams.Keys
  {
    team in group && forall other :: other in group && other != team ==> Beats(m, team, other)
  }

  lemma BeatsIsStrictOrder(m: Match, a: int, b: int, c: int)
    requires a in m.teams && b in m.teams && c in m.teams
    ensures a != b ==> Beats(m, a, b) != Beats(m, b, a)
    ensures Beats(m, a, b) && Beats(m, b, c) ==> Beats(m, a, c)
    ensures !Beats(m, a, a)
  {
  }

  lemma BestOfMore(m: Match, group: set<int>, best: int, team: int)
    requires group + {team} <= m.teams.Keys && team !in group
    requires IsBestAmong(m, group, best)
    ensures IsBestAmong(m, group + {team}, if Beats(m, team, best) then team else best)
  {
    hide Beats;
    forall other | other in group && other != best ensures Beats(m, team, best) ==> Beats(m, team, other) {
      BeatsIsStrictOrder(m, team, best, other);
    }
    BeatsIsStrictOrder(m, team, best, best);
  }

  /** The inner loop over the members of one team. */
  method TeamTotals(m: Match, users: seq<int>) returns (score: int, time: int)
    ensures score == TeamScore(m, users) && time == TeamTime(m, users)
  {
    score, time := 0, 0;
    for k := 0 to |users|
      invariant score == TeamScore(m, users[..k]) && time == TeamTime(m, users[..k])
    {
      assert users[..k + 1][..k] == users[..k];
      score := score + Get(m.scores, users[k]);
      var last := Get(m.lastScoreAt, users[k]);
      if last > 0 && (time == 0 || last < time) {
        time := last;
      }
    }
    assert users[..|users|] == users;
  }

  /** The map of teams is ranged over in an arbitrary order; the winner is the same for all of them, because only one
      team ranks above every other. */
  method ScoreWinnerTeam(m: Match) returns (r: Option<int>)
    ensures r.None? <==> m.teams == map[]
    ensures r.Some? ==> IsBestAmong(m, m.teams.Keys, r.value)
    ensures r.Some? ==> forall team :: IsBestAmong(m, m.teams.Keys, team) ==> team == r.value
  {
    hide TeamScore, TeamTime;
    var winnerTeam, winnerScore, winnerTime := 0, -1, 0;
    var winnerSet := false;
    var rest := m.teams.Keys;
    while rest != {}
      invariant rest <= m.teams.Keys
      invariant winnerSet <==> rest != m.teams.Keys
      invariant winnerSet ==> IsBestAmong(m, m.teams.Keys - rest, winnerTeam)
      invariant winnerSet ==>
                  winnerScore == TeamScore(m, m.teams[winnerTeam]) && winnerTime == TeamTime(m, m.teams[winnerTeam])
    {
      var teamNo := AnyOf(rest);
      ghost var seen := m.teams.Keys - rest;
      rest := rest - {teamNo};
      assert m.teams.Keys - rest == seen + {teamNo};
      var teamScore, teamTime := TeamTotals(m, m.teams[teamNo]);
      if winnerSet {
        BestOfMore(m, seen, winnerTeam, teamNo);
        assert Beats(m, teamNo, winnerTeam) <==>
            Ranks(teamScore, teamTime, teamNo, winnerScore, winnerTime, winnerTeam);
      }
      if !winnerSet || teamScore > winnerScore
         || (teamScore == winnerScore && teamTime > 0 && (winnerTime == 0 || teamTime < winnerTime))
         || (teamScore == winnerScore && teamTime == winnerTime && teamNo < winnerTeam) {
        winnerSet, winnerTeam, winnerScore, winnerTime := true, teamNo, teamScore, teamTime;
      }
    }
    assert m.teams.Keys - rest == m.teams.Keys;
    if winnerSet {
      forall team | IsBestAmong(m, m.teams.Keys, team) ensures team == winnerTeam {
        BeatsIsStrictOrder(m, team, winnerTeam, team);
      }
    }
    r := if winnerSet then Some(winnerTeam) else None;
    if m.teams == map[] {
      assert m.teams.Keys == {};
    }
  }

  lemma {:induction false} BestExists(m: Match, group: set<int>)
    requires group <= m.teams.Keys && group != {}
    ensures exists team :: IsBestAmong(m, group, team)
    ensures forall a, b :: IsBestAmong(m, group, a) && IsBestAmong(m, group, b) ==> a == b
  {
    hide Beats;
    forall a, b | IsBestAmong(m, group, a) && IsBestAmong(m, group, b) ensures a == b {
      BeatsIsStrictOrder(m, a, b, a);
    }
    var t := SomeMember(group);
    if group == {t} {
      assert IsBestAmong(m, group, t);
    } else {
      BestExists(m, group - {t});
      var best :| IsBestAmong(m, group - {t}, best);
      BestOfMore(m, group - {t}, best, t);
      assert group - {t} + {t} == group;
    }
  }

  /** The only team that ranks above all others. */
  ghost function BestTeam(m: Match): (team: int)
    requires m.teams != map[]
    ensures IsBestAmong(m, m.teams.Keys, team)
  {
    assert m.teams.Keys != {};
    BestExists(m, m.teams.Keys);
    var t :| IsBestAmong(m, m.teams.Keys, t);
    t
  }

  // ---------------------------------------------------------------- completion

  ghost function SafeCells(site: Site): set<int> {
    set i | i in ALL_CELLS && !Mine(site, i)
  }

  ghost function SafeBelow(site: Site, k: int): set<int> {
    set i | i in SafeCells(site) && i < k
  }

  lemma SafeBelowStep(site: Site, k: int)
    requires IsCell(k)
    ensures |SafeBelow(site, k + 1)| == |SafeBelow(site, k)| + if Mine(site, k) then 0 else 1
  {
    assert k in ALL_CELLS;
    assert SafeBelow(site, k + 1) == if Mine(site, k) then SafeBelow(site, k) else SafeBelow(site, k) + {k};
  }

  /** The completion test: it counts the safe cells of the chunk and compares with the number of open cells. */
  method AllSafeCellsOpened(site: Site, cells: map<int, OpenedCell>) returns (r: Result<bool, MineError>)
    requires SiteOk(site)
    ensures |cells| == 0 ==> r == Ok(false)
    ensures |cells| > 0 && !RateOk(site.season) ==> r == Err(InvalidRate)
    ensures |cells| > 0 && RateOk(site.season) ==> r == Ok(|cells| >= |SafeCells(site)|)
  {
    if |cells| == 0 {
      return Ok(false);
    }
    var safeCells := 0;
    assert SafeBelow(site, 0) == {};
    for y := 0 to CHUNK_SIZE
      invariant safeCells == |SafeBelow(site, y * CHUNK_SIZE)|
      invariant y > 0 ==> RateOk(site.season)
    {
      for x := 0 to CHUNK_SIZE
        invariant safeCells == |SafeBelow(site, y * CHUNK_SIZE + x)|
        invariant y > 0 || x > 0 ==> RateOk(site.season)
      {
        IndexCoordinates(x, y);
        CellInWorld(site, y * CHUNK_SIZE + x);
        IsMineByGlobalPoint(site.season, site.id, x, y);
        SafeBelowStep(site, y * CHUNK_SIZE + x);
        var isMine := IsMine(site.season, site.id, x, y);
        if isMine.Err? {
          return Err(isMine.error);
        }
        if !isMine.value {
          safeCells := safeCells + 1;
        }
      }
    }
    assert SafeBelow(site, CHUNK_CELL_COUNT) == SafeCells(site);
    r := Ok(|cells| >= safeCells);
  }

  /** Counting is enough: on a reachable board with a safe cell, the test holds exactly when the open cells are the
      safe cells, all of them and nothing else. */
  lemma CompletionByCounting(site: Site, c: Chunk)
    requires SiteOk(site) && ChunkInv(site, c) && SafeCells(site) != {}
    ensures |c.cells| > 0 && |c.cells| >= |SafeCells(site)| <==> c.cells.Keys == SafeCells(site)
  {
    forall i | i in c.cells ensures i in SafeCells(site) {
      assert CellOk(site, i, c.cells[i]);
    }
    SubsetSize(c.cells.Keys, SafeCells(site));
    assert |c.cells| == |c.cells.Keys|;
  }
}
