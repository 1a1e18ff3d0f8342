/** The match queue: joining, cancelling, group formation and restoring after a failure
    (internal/service/match_queue_service.go, internal/repository/match_queue_repository.go). */
module MatchQueue {
  import opened Wrappers
  import M = MineMatch
  import O = MatchOverlay
  import C = ChunkService

  type User = int

  type Team = M.Team

  datatype Status = Init | Matching | Matched | Cancelled

  datatype UserState = UserState(
    mode: string, status: Status, ticket: int, matchId: int, room: string, chunkId: string, teams: seq<Team>,
    enqueueTime: int)

  /** What the store holds: one status per user and one list per mode. */
  datatype Lobby = Lobby(status: map<User, UserState>, queues: map<string, seq<User>>)

  const NOBODY: Lobby := Lobby(map[], map[])

  datatype JoinError = EmptyMode | InvalidMode | CreateMatchFailed | AssignChunkFailed | CreateRoomFailed

  datatype CancelError = NoStatus | NotMatching

  /** What a Join meets outside the queue: fresh identifiers, and how creating the match, assigning a chunk and
      creating the room turn out. `chunk` is None without the minesweeper service; with it, it is what
      AssignChunkForMatch returns. */
  datatype Outcome = Outcome(
    ticket: int, now: int, room: string, matchId: Option<int>, chunk: Option<Result<string, C.AssignError>>,
    roomOk: bool)

  function Queue(l: Lobby, mode: string): seq<User> { if mode in l.queues then l.queues[mode] else [] }

  function PlayerCount(mode: string): nat { if mode == "1v1" then 2 else if mode == "2v2" then 4 else 0 }

  function BuildTeams(mode: string, users: seq<User>): seq<Team>
    requires |users| == PlayerCount(mode)
  {
    if mode == "1v1" then [M.Team(0, [users[0]]), M.Team(1, [users[1]])]
    else if mode == "2v2" then [M.Team(0, [users[0], users[1]]), M.Team(1, [users[2], users[3]])]
    else []
  }

  /** The players of some teams, in team order. */
  function Players(teams: seq<Team>): seq<User> {
    if teams == [] then [] else Players(teams[..|teams| - 1]) + teams[|teams| - 1].users
  }

  lemma TeamsPartitionTheGroup(mode: string, users: seq<User>)
    requires |users| == PlayerCount(mode) > 0
    ensures Players(BuildTeams(mode, users)) == users
    ensures |BuildTeams(mode, users)| == 2 && |BuildTeams(mode, users)[0].users| == |BuildTeams(mode, users)[1].users|
    ensures BuildTeams(mode, users)[0].no == 0 && BuildTeams(mode, users)[1].no == 1
    ensures mode == "1v1" || mode == "2v2"
    ensures |BuildTeams(mode, users)[0].users| == if mode == "1v1" then 1 else 2
  {
    var teams := BuildTeams(mode, users);
    assert teams[..1] == [teams[0]] && teams[..0] == [];
    assert Players(teams[..1]) == Players(teams[..0]) + teams[0].users == teams[0].users;
    assert Players(teams) == Players(teams[..1]) + teams[1].users == teams[0].users + teams[1].users;
  }

  // ---------------------------------------------------------------- what the loops compute

  /** A user's state, changed by one of the three loops. */
  datatype Change = ToMatched(teams: seq<Team>, room: string, matchId: int) | ToChunk(chunkId: string) | ToRestored

  function Changed(s: UserState, change: Change): UserState {
    match change
    case ToMatched(teams, room, matchId) => s.(status := Matched, room := room, matchId := matchId, teams := teams)
    case ToChunk(chunkId) => s.(chunkId := chunkId)
    case ToRestored => s.(status := Matching, matchId := 0, room := "", chunkId := "")
  }

  /** The changes applied user by user; a user without a status is skipped. */
  function Applied(status: map<User, UserState>, users: seq<User>, change: Change): map<User, UserState> {
    if users == [] then status
    else AppliedOne(Applied(status, users[..|users| - 1], change), users[|users| - 1], change)
  }

  function AppliedOne(status: map<User, UserState>, u: User, change: Change): map<User, UserState> {
    if u in status then status[u := Changed(status[u], change)] else status
  }

  function Push(l: Lobby, mode: string, user: User): Lobby { l.(queues := l.queues[mode := Queue(l, mode) + [user]]) }

  /** Every user who still has a status goes back to the end of the queue. */
  function Restored(l: Lobby, users: seq<User>, mode: string): Lobby {
    if users == [] then l else RestoredOne(Restored(l, users[..|users| - 1], mode), users[|users| - 1], mode)
  }

  function RestoredOne(l: Lobby, u: User, mode: string): Lobby {
    if u in l.status then Push(l.(status := l.status[u := Changed(l.status[u], ToRestored)]), mode, u) else l
  }

  function Enlisted(l: Lobby, user: User, mode: string, out: Outcome): Lobby {
    Push(l.(status := l.status[user := UserState(mode, Matching, out.ticket, 0, "", "", [], out.now)]), mode, user)
  }

  function WithoutGroup(l: Lobby, mode: string): Lobby
    requires PlayerCount(mode) <= |Queue(l, mode)|
  {
    l.(queues := l.queues[mode := Queue(l, mode)[PlayerCount(mode)..]])
  }

  function Settled(l: Lobby, users: seq<User>, change: Change): Lobby { l.(status := Applied(l.status, users, change)) }

  /** One Join on the stored values. */
  function JoinSpec(l: Lobby, user: User, mode: string, out: Outcome): (Lobby, Result<UserState, JoinError>) {
    if mode == "" then (l, Err(EmptyMode))
    else if user in l.status && (l.status[user].status == Matching || l.status[user].status == Matched)
        then (l, Ok(l.status[user]))
    else
      var waiting := Enlisted(l, user, mode, out);
      if PlayerCount(mode) == 0 then (waiting, Err(InvalidMode))
      else if |Queue(waiting, mode)| < PlayerCount(mode) then (waiting, Ok(waiting.status[user]))
      else MatchSpec(WithoutGroup(waiting, mode), user, mode, Queue(waiting, mode)[..PlayerCount(mode)], out)
  }

  /** The rest of a Join that took `group` off the queue. */
  function MatchSpec(l: Lobby, user: User, mode: string, group: seq<User>, out: Outcome)
    : (Lobby, Result<UserState, JoinError>)
    requires |group| == PlayerCount(mode) && user in l.status
  {
    if out.matchId.None? then (Restored(l, group, mode), Err(CreateMatchFailed))
    else
      var change := ToMatched(BuildTeams(mode, group), out.room, out.matchId.value);
      var matched := Settled(l, group, change);
      AppliedKeys(l.status, group, change);
      if out.chunk.None? || mode != "1v1" then
        (matched, if out.roomOk then Ok(matched.status[user]) else Err(CreateRoomFailed))
      else if out.chunk.value.Err? then (Restored(matched, group, mode), Err(AssignChunkFailed))
      else
        var toChunk := ToChunk(out.chunk.value.value);
        var placed := Settled(matched, group, toChunk);
        AppliedKeys(matched.status, group, toChunk);
        (placed, if out.roomOk then Ok(placed.status[user]) else Err(CreateRoomFailed))
  }

  /** One Cancel on the stored values. */
  function CancelSpec(l: Lobby, user: User): (Lobby, Result<UserState, CancelError>) {
    if user !in l.status then (l, Err(NoStatus))
    else if l.status[user].status != Matching then (l, Err(NotMatching))
    else
      var mode, cancelled := l.status[user].mode, l.status[user].(status := Cancelled);
      (Lobby(l.status[user := cancelled], l.queues[mode := Without(Queue(l, mode), user)]), Ok(cancelled))
  }

  /** A list without any occurrence of a value. */
  function Without(users: seq<User>, u: User): seq<User> {
    if users == [] then []
    else Without(users[..|users| - 1], u) + if users[|users| - 1] == u then [] else [users[|users| - 1]]
  }

  lemma {:induction false} AppliedKeys(status: map<User, UserState>, users: seq<User>, change: Change)
    ensures Applied(status, users, change).Keys == status.Keys
  {
    if users != [] {
      AppliedKeys(status, users[..|users| - 1], change);
    }
  }

  lemma AppliedNobody(status: map<User, UserState>, change: Change)
    ensures Applied(status, [], change) == status
  {
  }

  lemma AppliedNext(status: map<User, UserState>, users: seq<User>, j: nat, change: Change)
    requires j < |users|
    ensures Applied(status, users[..j + 1], change) == AppliedOne(Applied(status, users[..j], change), users[j], change)
  {
    assert users[..j + 1][..j] == users[..j];
  }

  lemma {:induction false} AppliedConcat(status: map<User, UserState>, a: seq<User>, b: seq<User>, change: Change)
    ensures Applied(status, a + b, change) == Applied(Applied(status, a, change), b, change)
  {
    if b == [] {
      assert a + b == a;
    } else {
      assert (a + b)[..|a + b| - 1] == a + b[..|b| - 1];
      AppliedConcat(status, a, b[..|b| - 1], change);
    }
  }

  lemma RestoredNext(l: Lobby, users: seq<User>, j: nat, mode: string)
    requires j < |users|
    ensures Restored(l, users[..j + 1], mode) == RestoredOne(Restored(l, users[..j], mode), users[j], mode)
  {
    assert users[..j + 1][..j] == users[..j];
  }

  lemma {:induction false} RestoredConcat(l: Lobby, a: seq<User>, b: seq<User>, mode: string)
    ensures Restored(l, a + b, mode) == Restored(Restored(l, a, mode), b, mode)
  {
    if b == [] {
      assert a + b == a;
    } else {
      assert (a + b)[..|a + b| - 1] == a + b[..|b| - 1];
      RestoredConcat(l, a, b[..|b| - 1], mode);
    }
  }

  lemma PlayersNext(teams: seq<Team>, i: nat)
    requires i < |teams|
    ensures Players(teams[..i + 1]) == Players(teams[..i]) + teams[i].users
  {
    assert teams[..i + 1][..i] == teams[..i];
  }

  // ---------------------------------------------------------------- the repository and the service

  class MatchQueueRepository {
    var status: map<User, UserState>
    var queues: map<string, seq<User>>

    function View(): Lobby
      reads this
    {
      Lobby(status, queues)
    }

    constructor ()
      ensures View() == NOBODY
    {
      status, queues := map[], map[];
    }

    method Enqueue(mode: string, user: User)
      modifies this
      ensures View() == Push(old(View()), mode, user)
    {
      queues := queues[mode := (if mode in queues then queues[mode] else []) + [user]];
    }

    method QueueLen(mode: string) returns (n: nat)
      ensures n == |Queue(View(), mode)|
    {
      n := if mode in queues then |queues[mode]| else 0;
    }

    /** Pops up to `count` users from the front. */
    method DequeueBatch(mode: string, count: nat) returns (users: seq<User>)
      modifies this
      ensures status == old(status)
      ensures |users| == if count <= |Queue(old(View()), mode)| then count else |Queue(old(View()), mode)|
      ensures users + Queue(View(), mode) == Queue(old(View()), mode)
      ensures mode in old(queues) ==> queues == old(queues)[mode := Queue(View(), mode)]
      ensures mode !in old(queues) ==> queues == old(queues)
    {
      users := [];
      if mode in queues {
        var all := queues[mode];
        var k := if count <= |all| then count else |all|;
        users := all[..k];
        queues := queues[mode := all[k..]];
      }
    }

    method RemoveFromQueue(mode: string, user: User)
      modifies this
      ensures status == old(status) && queues == old(queues)[mode := Without(Queue(old(View()), mode), user)]
    {
      var all := if mode in queues then queues[mode] else [];
      var kept: seq<User>, i := [], 0;
      while i < |all|
        invariant 0 <= i <= |all| && kept == Without(all[..i], user)
      {
        assert all[..i + 1][..i] == all[..i];
        if all[i] != user {
          kept := kept + [all[i]];
        }
        i := i + 1;
      }
      assert all[..|all|] == all;
      queues := queues[mode := kept];
    }

    method GetUserStatus(user: User) returns (s: Option<UserState>)
      ensures s == if user in status then Some(status[user]) else None
    {
      s := if user in status then Some(status[user]) else None;
    }

    method SetUserStatus(user: User, s: UserState)
      modifies this
      ensures View() == old(View()).(status := old(status)[user := s])
    {
      status := status[user := s];
    }

    method DeleteUserStatus(user: User)
      modifies this
      ensures View() == old(View()).(status := old(status) - {user})
    {
      status := status - {user};
    }
  }

  /** How the minesweeper service disturbs and orders the leaves during one Join. */
  datatype Draw = Draw(order: seq<int>, trouble: C.Trouble)

  /** Whether a Join gets as far as assigning a chunk to the group. */
  predicate Assigns(mode: string, group: seq<User>, out: Outcome) {
    mode == "1v1" && |group| == PlayerCount(mode) && out.matchId.Some?
  }

  function Assignment(w: C.MapState, mode: string, group: seq<User>, out: Outcome, draw: Draw)
    : (C.MapState, Result<string, C.AssignError>)
    requires Assigns(mode, group, out)
  {
    C.AssignWith(w, out.matchId.value, BuildTeams(mode, group), draw.order, draw.trouble)
  }

  /** What the Join meets when the chunk comes from the minesweeper service, if there is one. */
  function Met(w: Option<C.MapState>, mode: string, group: seq<User>, out: Outcome, draw: Draw): Outcome {
    out.(chunk := if w.None? then None
                  else Some(if Assigns(mode, group, out) then Assignment(w.value, mode, group, out, draw).1
                      else Err(C.NoChunk)))
  }

  function MapAfter(w: Option<C.MapState>, mode: string, group: seq<User>, out: Outcome, draw: Draw)
    : Option<C.MapState>
  {
    if w.Some? && Assigns(mode, group, out) then Some(Assignment(w.value, mode, group, out, draw).0) else w
  }

  /** The group that a Join takes off the queue, if any. */
  function GroupOf(l: Lobby, user: User, mode: string): seq<User> {
    var queue := Queue(l, mode) + [user];
    if mode == "" || (user in l.status && (l.status[user].status == Matching || l.status[user].status == Matched))
        then []
    else if 0 < PlayerCount(mode) <= |queue| then queue[..PlayerCount(mode)] else []
  }

  /** A chunk assigned by a Join is the match chunk of both players, and the record carries the Join's match. */
  lemma AssignedTogether(w: C.MapState, mode: string, group: seq<User>, out: Outcome, draw: Draw, user: User)
    requires Assigns(mode, group, out) && Assignment(w, mode, group, out, draw).1.Ok? && user in group
    ensures var (w', r) := Assignment(w, mode, group, out, draw);
            var m := O.ActiveMatch(w'.overlay, user);
            && m.Some? && m.value.chunkId == r.value && m.value.id == out.matchId.value
                && m.value.userTeams.Keys == (set u | u in group)
            && r.value in w'.overlay.locks && w'.overlay.locks[r.value] == out.matchId.value
  {
    TwoTeams(group[0], group[1]);
    assert user == group[0] || user == group[1];
    assert (set u | u in group) == {group[0], group[1]};
    hide C.AssignWith, O.ActiveMatch;
    C.AssignedPlayers(w, out.matchId.value, BuildTeams(mode, group), draw.order, draw.trouble, user);
  }

  lemma TwoTeams(a: User, b: User)
    ensures M.UserTeamsOf([M.Team(0, [a]), M.Team(1, [b])]).Keys == {a, b}
  {
    var teams := [M.Team(0, [a]), M.Team(1, [b])];
    assert teams[..1] == [M.Team(0, [a])] && teams[..1][..0] == [] && [a][..0] == [] && [b][..0] == [];
    assert M.UserTeamsOf([]) == map[];
    assert M.AddUsers(map[], [a], 0) == map[a := 0];
    assert M.UserTeamsOf(teams[..1]) == map[a := 0];
    assert M.AddUsers(map[a := 0], [b], 1) == map[a := 0][b := 1];
  }

  class MatchQueueService {
    const repo: MatchQueueRepository
    const mines: C.MapService?

    constructor (repo: MatchQueueRepository, mines: C.MapService?)
      ensures this.repo == repo && this.mines == mines
    {
      this.repo, this.mines := repo, mines;
    }

    function Map(): Option<C.MapState>
      reads if mines == null then {} else {mines.chunks, mines.matches}
    {
      if mines == null then None else Some(mines.State())
    }

    method Join(user: User, mode: string, out: Outcome, draw: Draw) returns (r: Result<UserState, JoinError>)
      modifies repo, if mines == null then {} else {mines.matches}
      ensures var group := GroupOf(old(repo.View()), user, mode);
              && (repo.View(), r) == JoinSpec(old(repo.View()), user, mode, Met(old(Map()), mode, group, out, draw))
              && Map() == MapAfter(old(Map()), mode, group, out, draw)
    {
      if mode == "" {
        return Err(EmptyMode);
      }
      var state := repo.GetUserStatus(user);
      if state.Some? {
        if state.value.status == Matching || state.value.status == Matched {
          return Ok(state.value);
        }
        repo.DeleteUserStatus(user);
      }
      repo.SetUserStatus(user, UserState(mode, Matching, out.ticket, 0, "", "", [], out.now));
      assert repo.status == old(repo.status)[user := UserState(mode, Matching, out.ticket, 0, "", "", [], out.now)];
      repo.Enqueue(mode, user);
      assert repo.View() == Enlisted(old(repo.View()), user, mode, out);
      assert Queue(repo.View(), mode) == Queue(old(repo.View()), mode) + [user];
      var found := FindMatchGroup(mode);
      if found.Err? {
        return Err(found.error);
      }
      if found.value.None? {
        state := repo.GetUserStatus(user);
        return Ok(state.value);
      }
      r := Complete(user, mode, found.value.value, out, draw);
    }

    /** The part of Join after a group was found. */
    method Complete(user: User, mode: string, teams: seq<Team>, out: Outcome, draw: Draw)
        returns (r: Result<UserState, JoinError>)
      requires user in repo.status && |Players(teams)| == PlayerCount(mode) && teams == BuildTeams(mode, Players(teams))
      modifies repo, if mines == null then {} else {mines.matches}
      ensures var met := Met(old(Map()), mode, Players(teams), out, draw);
              && (repo.View(), r) == MatchSpec(old(repo.View()), user, mode, Players(teams), met)
              && Map() == MapAfter(old(Map()), mode, Players(teams), out, draw)
    {
      hide Players, Applied, Restored, BuildTeams, PlayerCount, C.AssignWith;
      if out.matchId.None? {
        RestoreMatchedUsers(teams, mode);
        return Err(CreateMatchFailed);
      }
      UpdateUserStateToMatched(teams, out.room, out.matchId.value);
      AppliedKeys(old(repo.status), Players(teams), ToMatched(teams, out.room, out.matchId.value));
      if mines != null && mode == "1v1" {
        var chunk := mines.AssignChunkForMatch(out.matchId.value, teams, draw.order, draw.trouble);
        if chunk.Err? {
          RestoreMatchedUsers(teams, mode);
          return Err(AssignChunkFailed);
        }
        ghost var matched := repo.status;
        UpdateUserStateChunk(teams, chunk.value);
        AppliedKeys(matched, Players(teams), ToChunk(chunk.value));
      }
      if !out.roomOk {
        return Err(CreateRoomFailed);
      }
      var state := repo.GetUserStatus(user);
      return Ok(state.value);
    }

    method Cancel(user: User) returns (r: Result<UserState, CancelError>)
      modifies repo
      ensures (repo.View(), r) == CancelSpec(old(repo.View()), user)
    {
      var state := repo.GetUserStatus(user);
      if state.None? {
        return Err(NoStatus);
      }
      if state.value.status != Matching {
        return Err(NotMatching);
      }
      repo.RemoveFromQueue(state.value.mode, user);
      var cancelled := state.value.(status := Cancelled);
      repo.SetUserStatus(user, cancelled);
      return Ok(cancelled);
    }

    /** A group is the front of the queue, once the queue is long enough. */
    method FindMatchGroup(mode: string) returns (r: Result<Option<seq<Team>>, JoinError>)
      modifies repo
      ensures PlayerCount(mode) == 0 ==> r == Err(InvalidMode) && repo.View() == old(repo.View())
      ensures 0 < PlayerCount(mode) ==>
                r.Ok? && (r.value.Some? <==> PlayerCount(mode) <= |Queue(old(repo.View()), mode)|)
      ensures r.Ok? && r.value.None? ==> repo.View() == old(repo.View())
      ensures r.Ok? && r.value.Some? ==>
                && Players(r.value.value) == Queue(old(repo.View()), mode)[..PlayerCount(mode)]
                && r.value.value == BuildTeams(mode, Players(r.value.value))
                && repo.View() == WithoutGroup(old(repo.View()), mode)
    {
      var required := PlayerCount(mode);
      if required <= 0 {
        return Err(InvalidMode);
      }
      var n := repo.QueueLen(mode);
      if n < required {
        return Ok(None);
      }
      var users := repo.DequeueBatch(mode, required);
      assert users == Queue(old(repo.View()), mode)[..required];
      TeamsPartitionTheGroup(mode, users);
      return Ok(Some(BuildTeams(mode, users)));
    }

    method UpdateUserStateToMatched(teams: seq<Team>, room: string, matchId: int)
      modifies repo
      ensures repo.View() == Settled(old(repo.View()), Players(teams), ToMatched(teams, room, matchId))
    {
      assert Players([]) == [];
      hide Players, Applied;
      ghost var change := ToMatched(teams, room, matchId);
      AppliedNobody(repo.status, change);
      for i := 0 to |teams|
        invariant repo.View() == Settled(old(repo.View()), Players(teams[..i]), change)
      {
        PlayersNext(teams, i);
        AppliedConcat(old(repo.status), Players(teams[..i]), teams[i].users, change);
        TeamToMatched(teams[i].users, teams, room, matchId);
      }
      assert teams[..|teams|] == teams;
    }

    /** The inner loop of updateUserStateToMatched: the users of one team. */
    method TeamToMatched(users: seq<User>, teams: seq<Team>, room: string, matchId: int)
      modifies repo
      ensures repo.View() == Settled(old(repo.View()), users, ToMatched(teams, room, matchId))
    {
      hide Applied;
      ghost var change := ToMatched(teams, room, matchId);
      AppliedNobody(repo.status, change);
      for j := 0 to |users|
        invariant repo.View() == Settled(old(repo.View()), users[..j], change)
      {
        AppliedNext(old(repo.status), users, j, change);
        var state := repo.GetUserStatus(users[j]);
        if state.None? {
          continue;
        }
        repo.SetUserStatus(users[j], state.value.(status := Matched, room := room, matchId := matchId, teams := teams));
      }
      assert users[..|users|] == users;
    }

    method UpdateUserStateChunk(teams: seq<Team>, chunkId: string)
      modifies repo
      ensures repo.View() == Settled(old(repo.View()), Players(teams), ToChunk(chunkId))
    {
      assert Players([]) == [];
      hide Players, Applied;
      AppliedNobody(repo.status, ToChunk(chunkId));
      for i := 0 to |teams|
        invariant repo.View() == Settled(old(repo.View()), Players(teams[..i]), ToChunk(chunkId))
      {
        PlayersNext(teams, i);
        AppliedConcat(old(repo.status), Players(teams[..i]), teams[i].users, ToChunk(chunkId));
        TeamToChunk(teams[i].users, chunkId);
      }
      assert teams[..|teams|] == teams;
    }

    /** The inner loop of updateUserStateChunk. */
    method TeamToChunk(users: seq<User>, chunkId: string)
      modifies repo
      ensures repo.View() == Settled(old(repo.View()), users, ToChunk(chunkId))
    {
      hide Applied;
      AppliedNobody(repo.status, ToChunk(chunkId));
      for j := 0 to |users|
        invariant repo.View() == Settled(old(repo.View()), users[..j], ToChunk(chunkId))
      {
        AppliedNext(old(repo.status), users, j, ToChunk(chunkId));
        var state := repo.GetUserStatus(users[j]);
        if state.None? {
          continue;
        }
        repo.SetUserStatus(users[j], state.value.(chunkId := chunkId));
      }
      assert users[..|users|] == users;
    }

    method RestoreMatchedUsers(teams: seq<Team>, mode: string)
      modifies repo
      ensures repo.View() == Restored(old(repo.View()), Players(teams), mode)
    {
      assert Players([]) == [];
      assert Restored(repo.View(), [], mode) == repo.View();
      hide Players, Restored;
      for i := 0 to |teams|
        invariant repo.View() == Restored(old(repo.View()), Players(teams[..i]), mode)
      {
        PlayersNext(teams, i);
        RestoredConcat(old(repo.View()), Players(teams[..i]), teams[i].users, mode);
        RestoreTeam(teams[i].users, mode);
      }
      assert teams[..|teams|] == teams;
    }

    /** The inner loop of restoreMatchedUsers. */
    method RestoreTeam(users: seq<User>, mode: string)
      modifies repo
      ensures repo.View() == Restored(old(repo.View()), users, mode)
    {
      assert Restored(repo.View(), [], mode) == repo.View();
      hide Restored;
      for j := 0 to |users|
        invariant repo.View() == Restored(old(repo.View()), users[..j], mode)
      {
        RestoredNext(old(repo.View()), users, j, mode);
        var state := repo.GetUserStatus(users[j]);
        if state.None? {
          continue;
        }
        repo.SetUserStatus(users[j], state.value.(status := Matching, matchId := 0, room := "", chunkId := ""));
        repo.Enqueue(mode, users[j]);
      }
      assert users[..|users|] == users;
    }
  }
}
