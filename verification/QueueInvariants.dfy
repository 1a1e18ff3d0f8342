/** What every run of Join and Cancel keeps: a user is waiting exactly when queued once, in the queue of the own mode;
    groups are the oldest in the queue; nobody is lost; matched users stay together. */
module QueueInvariants {
  import opened Wrappers
  import opened MatchQueue
  import O = MatchOverlay
  import C = ChunkService

  // ---------------------------------------------------------------- runs

  datatype Event = Joined(user: User, mode: string, out: Outcome) | CancelledBy(user: User)

  function Step(l: Lobby, e: Event): Lobby {
    match e
    case Joined(user, mode, out) => JoinSpec(l, user, mode, out).0
    case CancelledBy(user) => CancelSpec(l, user).0
  }

  /** The store after the first `k` events. */
  function After(events: seq<Event>, k: nat): Lobby
    requires k <= |events|
  {
    if k == 0 then NOBODY else Step(After(events, k - 1), events[k - 1])
  }

  // ---------------------------------------------------------------- the invariant

  predicate Distinct(users: seq<User>) { forall i, j :: 0 <= i < j < |users| ==> users[i] != users[j] }

  predicate WaitsFor(l: Lobby, u: User, mode: string) {
    u in l.status && l.status[u].status == Matching && l.status[u].mode == mode
  }

  ghost predicate QueueOk(l: Lobby, mode: string) {
    && Distinct(Queue(l, mode))
    && forall u :: u in Queue(l, mode) <==> WaitsFor(l, u, mode)
  }

  /** All players of the user's teams are matched in the same match, and there are as many as the mode wants. */
  ghost predicate Together(l: Lobby, u: User)
    requires u in l.status
  {
    var s := l.status[u];
    && |Players(s.teams)| == PlayerCount(s.mode) && Distinct(Players(s.teams)) && u in Players(s.teams)
    && forall v :: v in Players(s.teams) ==> SameMatch(l, v, s)
  }

  ghost predicate SameMatch(l: Lobby, v: User, s: UserState) {
    && v in l.status && l.status[v].status == Matched && l.status[v].mode == s.mode && l.status[v].teams == s.teams
    && l.status[v].matchId == s.matchId && l.status[v].room == s.room && l.status[v].chunkId == s.chunkId
  }

  ghost predicate MatchedOk(l: Lobby) {
    forall u :: u in l.status && l.status[u].status == Matched ==> Together(l, u)
  }

  ghost predicate LobbyInv(l: Lobby) {
    && (forall mode :: QueueOk(l, mode)) && MatchedOk(l)
    && (forall u :: u in l.status ==> StatusOk(l.status[u]))
  }

  /** Only a matched user has a match, a room or a chunk. */
  predicate StatusOk(s: UserState) {
    s.status != Init && (s.status != Matched ==> s.matchId == 0 && s.room == "" && s.chunkId == "")
  }

  lemma DistinctAppend(users: seq<User>, u: User)
    requires Distinct(users) && u !in users
    ensures Distinct(users + [u])
  {
  }

  lemma DistinctConcat(a: seq<User>, b: seq<User>)
    requires Distinct(a) && Distinct(b) && forall u :: u in b ==> u !in a
    ensures Distinct(a + b)
  {
    forall i, j | 0 <= i < j < |a + b| ensures (a + b)[i] != (a + b)[j] {
      if i < |a| <= j {
        assert (a + b)[j] in b;
      }
    }
  }

  /** A queue cut into the group at its front and the rest. */
  ghost predicate Cut(queue: seq<User>, group: seq<User>, rest: seq<User>) {
    queue == group + rest && Distinct(group) && Distinct(rest) && forall u :: u in group ==> u !in rest
  }

  lemma CutAt(queue: seq<User>, n: nat)
    requires Distinct(queue) && n <= |queue|
    ensures Cut(queue, queue[..n], queue[n..])
  {
    var group, rest := queue[..n], queue[n..];
    assert queue == group + rest;
    assert forall j :: 0 <= j < |rest| ==> rest[j] == queue[n + j];
  }

  // ---------------------------------------------------------------- the loops, pointwise

  lemma DistinctPrefix(users: seq<User>)
    requires users != [] && Distinct(users)
    ensures Distinct(users[..|users| - 1]) && users[|users| - 1] !in users[..|users| - 1]
    ensures users == users[..|users| - 1] + [users[|users| - 1]]
  {
  }

  lemma {:induction false} AppliedAt(status: map<User, UserState>, users: seq<User>, change: MatchQueue.Change, u: User)
    requires Distinct(users) && u in status
    ensures u in Applied(status, users, change)
    ensures Applied(status, users, change)[u] == if u in users then Changed(status[u], change) else status[u]
  {
    AppliedKeys(status, users, change);
    if users != [] {
      DistinctPrefix(users);
      AppliedKeys(status, users[..|users| - 1], change);
      AppliedAt(status, users[..|users| - 1], change, u);
    }
  }

  lemma {:induction false} RestoredFacts(l: Lobby, users: seq<User>, mode: string)
    requires forall u :: u in users ==> u in l.status
    ensures Restored(l, users, mode).status == Applied(l.status, users, ToRestored)
    ensures forall m :: Queue(Restored(l, users, mode), m) == Queue(l, m) + if m == mode then users else []
  {
    if users == [] {
      forall m ensures Queue(l, m) == Queue(l, m) + [] {}
    } else {
      var init, u := users[..|users| - 1], users[|users| - 1];
      assert users == init + [u];
      RestoredFacts(l, init, mode);
      AppliedKeys(l.status, init, ToRestored);
      assert Queue(l, mode) + users == Queue(l, mode) + init + [u];
    }
  }

  lemma {:induction false} WithoutFacts(users: seq<User>, u: User)
    ensures forall v :: v in Without(users, u) <==> v in users && v != u
    ensures Distinct(users) ==> Distinct(Without(users, u))
  {
    if users != [] {
      var init := users[..|users| - 1];
      assert users == init + [users[|users| - 1]];
      WithoutFacts(init, u);
      if Distinct(users) {
        DistinctPrefix(users);
        if users[|users| - 1] != u {
          DistinctAppend(Without(init, u), users[|users| - 1]);
        }
      }
    }
  }

  // ---------------------------------------------------------------- cancelling

  lemma CancelKeeps(l: Lobby, user: User)
    requires LobbyInv(l)
    ensures LobbyInv(CancelSpec(l, user).0)
  {
    hide Without, Players, Distinct, PlayerCount;
    if user in l.status && l.status[user].status == Matching {
      var l' := CancelSpec(l, user).0;
      var mine := l.status[user].mode;
      WithoutFacts(Queue(l, mine), user);
      forall mode ensures QueueOk(l', mode) {
        assert QueueOk(l, mode);
        assert Queue(l', mode) == if mode == mine then Without(Queue(l, mine), user) else Queue(l, mode);
        forall u ensures u in Queue(l', mode) <==> WaitsFor(l', u, mode) {}
      }
      forall u | u in l'.status && l'.status[u].status == Matched ensures Together(l', u) {
        assert Together(l, u);
        forall v | v in Players(l'.status[u].teams) ensures SameMatch(l', v, l'.status[u]) {
          assert SameMatch(l, v, l.status[u]);
        }
      }
    }
  }

  // ---------------------------------------------------------------- joining

  lemma EnlistKeeps(l: Lobby, user: User, mode: string, out: Outcome)
    requires LobbyInv(l)
    requires user in l.status ==> l.status[user].status == Cancelled
    ensures LobbyInv(Enlisted(l, user, mode, out))
    ensures Queue(Enlisted(l, user, mode, out), mode) == Queue(l, mode) + [user]
    ensures user !in Queue(l, mode)
  {
    hide Players, PlayerCount;
    var l' := Enlisted(l, user, mode, out);
    hide Distinct;
    assert QueueOk(l, mode);
    DistinctAppend(Queue(l, mode), user);
    forall m ensures QueueOk(l', m) {
      assert QueueOk(l, m);
      assert Queue(l', m) == if m == mode then Queue(l, mode) + [user] else Queue(l, m);
      forall u ensures u in Queue(l', m) <==> WaitsFor(l', u, m) {}
    }
    forall u | u in l'.status && l'.status[u].status == Matched ensures Together(l', u) {
      assert Together(l, u);
      forall v | v in Players(l'.status[u].teams) ensures SameMatch(l', v, l'.status[u]) {
        assert SameMatch(l, v, l.status[u]);
      }
    }
  }

  lemma CutFront(l: Lobby, mode: string)
    requires LobbyInv(l) && 0 < PlayerCount(mode) <= |Queue(l, mode)|
    ensures Cut(Queue(l, mode), Queue(l, mode)[..PlayerCount(mode)], Queue(WithoutGroup(l, mode), mode))
    ensures forall m :: m != mode ==> Queue(WithoutGroup(l, mode), m) == Queue(l, m)
    ensures forall u :: u in Queue(l, mode)[..PlayerCount(mode)] ==> WaitsFor(l, u, mode)
  {
    assert QueueOk(l, mode);
    CutAt(Queue(l, mode), PlayerCount(mode));
    assert forall u :: u in Queue(l, mode)[..PlayerCount(mode)] ==> u in Queue(l, mode);
  }

  /** The group is back at the end of the queue, everything else is as it was. */
  lemma RestoreKeeps(l: Lobby, l2: Lobby, mode: string, group: seq<User>)
    requires LobbyInv(l) && 0 < PlayerCount(mode) <= |Queue(l, mode)| && group == Queue(l, mode)[..PlayerCount(mode)]
    requires l2.queues == WithoutGroup(l, mode).queues && l2.status.Keys == l.status.Keys
    requires forall u :: u in l.status && u !in group ==> l2.status[u] == l.status[u]
    requires forall u :: u in group ==> u in l2.status && l2.status[u].mode == mode
    ensures LobbyInv(Restored(l2, group, mode))
    ensures Queue(Restored(l2, group, mode), mode) == Queue(l, mode)[PlayerCount(mode)..] + group
  {
    hide Restored, Applied, Players, PlayerCount;
    CutFront(l, mode);
    var rest := Queue(WithoutGroup(l, mode), mode);
    var l' := Restored(l2, group, mode);
    RestoredFacts(l2, group, mode);
    assert Queue(l2, mode) == rest;
    AppliedKeys(l2.status, group, ToRestored);
    forall u | u in l.status
      ensures l'.status[u] == if u in group then Changed(l2.status[u], ToRestored) else l.status[u]
    {
      AppliedAt(l2.status, group, ToRestored, u);
    }
    forall m ensures QueueOk(l', m) {
      assert QueueOk(l, m);
      RestoredQueueOk(l, l2, l', mode, group, rest, m);
    }
    RestoredMatchedOk(l, l', mode, group);
  }

  lemma RestoredQueueOk(l: Lobby, l2: Lobby, l': Lobby, mode: string, group: seq<User>, rest: seq<User>, m: string)
    requires QueueOk(l, m) && Cut(Queue(l, mode), group, rest)
    requires forall u :: u in group ==> WaitsFor(l, u, mode)
    requires Queue(l', m) == if m == mode then rest + group else Queue(l, m)
    requires l'.status.Keys == l.status.Keys == l2.status.Keys
    requires forall u :: u in l.status ==>
               l'.status[u] == if u in group then Changed(l2.status[u], ToRestored) else l.status[u]
    requires forall u :: u in group ==> u in l2.status && l2.status[u].mode == mode
    ensures QueueOk(l', m)
  {
    hide Distinct;
    DistinctConcat(rest, group);
    forall u ensures u in Queue(l', m) <==> WaitsFor(l', u, m) {
      assert u in Queue(l, mode) <==> u in group || u in rest;
    }
  }

  /** Nobody in the group was matched, so the matched users keep their states. */
  lemma RestoredMatchedOk(l: Lobby, l': Lobby, mode: string, group: seq<User>)
    requires LobbyInv(l) && l'.status.Keys == l.status.Keys
    requires forall u :: u in group ==>
               WaitsFor(l, u, mode) && l'.status[u].status == Matching && StatusOk(l'.status[u])
    requires forall u :: u in l.status && u !in group ==> l'.status[u] == l.status[u]
    ensures MatchedOk(l') && forall u :: u in l'.status ==> StatusOk(l'.status[u])
  {
    hide Players, Distinct, PlayerCount, QueueOk;
    forall u | u in l'.status && l'.status[u].status == Matched ensures Together(l', u) {
      assert Together(l, u);
      forall v | v in Players(l'.status[u].teams) ensures SameMatch(l', v, l'.status[u]) {
        assert SameMatch(l, v, l.status[u]);
      }
    }
  }

  /** The group has left the queue and is matched together. */
  lemma MatchKeeps(l: Lobby, l': Lobby, mode: string, group: seq<User>, room: string, matchId: int, chunkId: string)
    requires LobbyInv(l) && 0 < PlayerCount(mode) <= |Queue(l, mode)| && group == Queue(l, mode)[..PlayerCount(mode)]
    requires l'.queues == WithoutGroup(l, mode).queues && l'.status.Keys == l.status.Keys
    requires forall u :: u in l.status && u !in group ==> l'.status[u] == l.status[u]
    requires forall u :: u in group ==> Placed(l', u, mode, group, room, matchId, chunkId)
    ensures LobbyInv(l')
  {
    CutFront(l, mode);
    hide Players, PlayerCount;
    var rest := Queue(WithoutGroup(l, mode), mode);
    forall m ensures QueueOk(l', m) {
      assert QueueOk(l, m);
      assert Queue(l', m) == if m == mode then rest else Queue(l, m);
      MatchedQueueOk(l, l', mode, group, rest, m);
    }
    MatchedTogether(l, l', mode, group, room, matchId, chunkId);
  }

  ghost predicate Placed(l: Lobby, u: User, mode: string, group: seq<User>, room: string, matchId: int,
      chunkId: string) {
    && |group| == PlayerCount(mode) && u in l.status
    && l.status[u].status == Matched && l.status[u].mode == mode && l.status[u].teams == BuildTeams(mode, group)
    && l.status[u].room == room && l.status[u].matchId == matchId && l.status[u].chunkId == chunkId
  }

  lemma MatchedQueueOk(l: Lobby, l': Lobby, mode: string, group: seq<User>, rest: seq<User>, m: string)
    requires QueueOk(l, m) && Cut(Queue(l, mode), group, rest)
    requires forall u :: u in group ==> WaitsFor(l, u, mode)
    requires Queue(l', m) == if m == mode then rest else Queue(l, m)
    requires l'.status.Keys == l.status.Keys
    requires forall u :: u in l.status && u !in group ==> l'.status[u] == l.status[u]
    requires forall u :: u in group ==> u in l'.status && l'.status[u].status == Matched
    ensures QueueOk(l', m)
  {
    forall u ensures u in Queue(l', m) <==> WaitsFor(l', u, m) {
      assert u in Queue(l, mode) <==> u in group || u in rest;
    }
  }

  lemma MatchedTogether(l: Lobby, l': Lobby, mode: string, group: seq<User>, room: string, matchId: int,
      chunkId: string)
    requires LobbyInv(l) && l'.status.Keys == l.status.Keys && 0 < |group| == PlayerCount(mode) && Distinct(group)
    requires forall u :: u in group ==> WaitsFor(l, u, mode)
    requires forall u :: u in l.status && u !in group ==> l'.status[u] == l.status[u]
    requires forall u :: u in group ==> Placed(l', u, mode, group, room, matchId, chunkId)
    ensures MatchedOk(l') && forall u :: u in l'.status ==> StatusOk(l'.status[u])
  {
    hide Players, Distinct, QueueOk, PlayerCount, BuildTeams;
    forall u | u in l'.status && l'.status[u].status == Matched ensures Together(l', u) {
      if u in group {
        TeamsPartitionTheGroup(mode, group);
        assert Placed(l', u, mode, group, room, matchId, chunkId);
        forall v | v in Players(l'.status[u].teams) ensures SameMatch(l', v, l'.status[u]) {
          assert Placed(l', v, mode, group, room, matchId, chunkId);
        }
      } else {
        assert Together(l, u);
        forall v | v in Players(l'.status[u].teams) ensures SameMatch(l', v, l'.status[u]) {
          assert SameMatch(l, v, l.status[u]);
        }
      }
    }
  }

  /** The rest of a Join after the group was taken off the queue of `w`. */
  lemma MatchSpecKeeps(w: Lobby, user: User, mode: string, out: Outcome)
    requires LobbyInv(w) && 0 < PlayerCount(mode) <= |Queue(w, mode)| && user in w.status
    ensures LobbyInv(MatchSpec(WithoutGroup(w, mode), user, mode, Queue(w, mode)[..PlayerCount(mode)], out).0)
    ensures Formed(mode, out) ||
            Queue(MatchSpec(WithoutGroup(w, mode), user, mode, Queue(w, mode)[..PlayerCount(mode)], out).0, mode)
              == Queue(w, mode)[PlayerCount(mode)..] + Queue(w, mode)[..PlayerCount(mode)]
  {
    hide Restored, Applied, Players, PlayerCount, BuildTeams, LobbyInv;
    var group, l2 := Queue(w, mode)[..PlayerCount(mode)], WithoutGroup(w, mode);
    CutFront(w, mode);
    if out.matchId.None? {
      RestoreKeeps(w, l2, mode, group);
    } else {
      var change := ToMatched(BuildTeams(mode, group), out.room, out.matchId.value);
      var matched := Settled(l2, group, change);
      AppliedKeys(l2.status, group, change);
      forall u | u in w.status
        ensures matched.status[u] == if u in group then Changed(w.status[u], change) else w.status[u]
      {
        AppliedAt(l2.status, group, change, u);
      }
      if out.chunk.None? || mode != "1v1" {
        UseStatusOk(w);
        MatchKeeps(w, matched, mode, group, out.room, out.matchId.value, "");
      } else if out.chunk.value.Err? {
        RestoreKeeps(w, matched, mode, group);
      } else {
        PlaceKeeps(w, matched, mode, group, change, out.chunk.value.value);
      }
    }
  }

  /** Both the match and its chunk came about. */
  predicate Formed(mode: string, out: Outcome) {
    out.matchId.Some? && (out.chunk.None? || mode != "1v1" || out.chunk.value.Ok?)
  }

  lemma UseStatusOk(l: Lobby)
    requires LobbyInv(l)
    ensures forall u :: u in l.status ==> StatusOk(l.status[u])
  {
  }

  lemma PlaceKeeps(w: Lobby, matched: Lobby, mode: string, group: seq<User>, change: MatchQueue.Change, chunkId: string)
    requires LobbyInv(w) && 0 < PlayerCount(mode) <= |Queue(w, mode)| && group == Queue(w, mode)[..PlayerCount(mode)]
    requires change.ToMatched? && change.teams == BuildTeams(mode, group)
    requires matched.queues == WithoutGroup(w, mode).queues && matched.status.Keys == w.status.Keys
    requires forall u :: u in w.status ==>
               matched.status[u] == if u in group then Changed(w.status[u], change) else w.status[u]
    ensures LobbyInv(Settled(matched, group, ToChunk(chunkId)))
  {
    hide Applied, Players, PlayerCount, BuildTeams, LobbyInv;
    CutFront(w, mode);
    var placed := Settled(matched, group, ToChunk(chunkId));
    AppliedKeys(matched.status, group, ToChunk(chunkId));
    forall u | u in w.status
      ensures placed.status[u] == if u in group then Changed(matched.status[u], ToChunk(chunkId)) else w.status[u]
    {
      AppliedAt(matched.status, group, ToChunk(chunkId), u);
    }
    MatchKeeps(w, placed, mode, group, change.room, change.matchId, chunkId);
  }

  lemma StepKeeps(l: Lobby, e: Event)
    requires LobbyInv(l)
    ensures LobbyInv(Step(l, e))
  {
    hide Restored, Applied, Players, BuildTeams, PlayerCount, QueueOk, MatchedOk;
    match e
    case CancelledBy(user) => CancelKeeps(l, user);
    case Joined(user, mode, out) =>
      if mode != "" && (user !in l.status || l.status[user].status == Cancelled) {
        EnlistKeeps(l, user, mode, out);
        var w := Enlisted(l, user, mode, out);
        if 0 < PlayerCount(mode) <= |Queue(w, mode)| {
          MatchSpecKeeps(w, user, mode, out);
        }
      }
  }

  lemma {:induction false} RunKeeps(events: seq<Event>, k: nat)
    requires k <= |events|
    ensures LobbyInv(After(events, k))
  {
    hide Step;
    if k > 0 {
      RunKeeps(events, k - 1);
      StepKeeps(After(events, k - 1), events[k - 1]);
    }
  }

  // ---------------------------------------------------------------- what every run guarantees

  /** A user is waiting exactly when the user occurs in a queue, and then only once, in the queue of the own mode. */
  lemma WaitingIsQueuedOnce(events: seq<Event>, k: nat, u: User)
    requires k <= |events|
    ensures var l := After(events, k);
            && (u in l.status && l.status[u].status == Matching <==> exists mode :: u in Queue(l, mode))
            && (forall mode :: u in Queue(l, mode) ==> l.status[u].mode == mode && multiset(Queue(l, mode))[u] == 1)
  {
    hide MatchedOk;
    RunKeeps(events, k);
    var l := After(events, k);
    if u in l.status && l.status[u].status == Matching {
      assert QueueOk(l, l.status[u].mode);
      assert u in Queue(l, l.status[u].mode);
    }
    forall mode | u in Queue(l, mode)
      ensures u in l.status && l.status[u].status == Matching && l.status[u].mode == mode
                && multiset(Queue(l, mode))[u] == 1
    {
      assert QueueOk(l, mode);
      assert WaitsFor(l, u, mode);
      OnlyOnce(Queue(l, mode), u);
    }
  }

  lemma {:induction false} OnlyOnce(users: seq<User>, u: User)
    requires Distinct(users) && u in users
    ensures multiset(users)[u] == 1
  {
    DistinctPrefix(users);
    var init, last := users[..|users| - 1], users[|users| - 1];
    assert multiset(users) == multiset(init) + multiset{last};
    if last != u {
      OnlyOnce(init, u);
    }
  }

  /** Matched users: the players of the stored teams are exactly the users of one match, as many as the mode wants, and
      all of them carry the same match, room, chunk and teams. */
  lemma MatchedAreTogether(events: seq<Event>, k: nat, u: User)
    requires k <= |events| && u in After(events, k).status && After(events, k).status[u].status == Matched
    ensures Together(After(events, k), u)
  {
    RunKeeps(events, k);
  }

  lemma MatchedStays(l: Lobby, e: Event, u: User)
    requires LobbyInv(l) && u in l.status && l.status[u].status == Matched
    ensures u in Step(l, e).status && Step(l, e).status[u] == l.status[u]
  {
    hide Restored, Applied, Players, BuildTeams, PlayerCount, QueueOk, MatchedOk, LobbyInv;
    if e.Joined? && e.mode != "" && !InPlay(l, e.user) {
      var w := Enlisted(l, e.user, e.mode, e.out);
      if 0 < PlayerCount(e.mode) <= |Queue(w, e.mode)| {
        UseStatusOk(l);
        EnlistKeeps(l, e.user, e.mode, e.out);
        CutFront(w, e.mode);
        assert u in w.status && w.status[u].status == Matched;
        MatchSpecOutside(w, e.user, e.mode, e.out, u);
      }
    }
  }

  /** What a Join makes of a waiting member of its group: matched under the match, the room, the teams and, where there
      is one, the chunk of the Join; or waiting as before, with the teams still noted when only the chunk failed. */
  function Placement(s: UserState, mode: string, group: seq<User>, out: Outcome): UserState
    requires |group| == PlayerCount(mode)
  {
    if out.matchId.None? then s
    else if !Formed(mode, out) then s.(teams := BuildTeams(mode, group))
    else
      var chunkId := if mode == "1v1" && out.chunk.Some? then out.chunk.value.value else "";
      UserState(s.mode, Matched, s.ticket, out.matchId.value, out.room, chunkId, BuildTeams(mode, group), s.enqueueTime)
  }

  /** A Join touches nobody but the joining user and the group. */
  lemma MatchSpecOutside(w: Lobby, user: User, mode: string, out: Outcome, u: User)
    requires LobbyInv(w) && 0 < PlayerCount(mode) <= |Queue(w, mode)| && user in w.status && u in w.status
    ensures var l' := MatchSpec(WithoutGroup(w, mode), user, mode, Queue(w, mode)[..PlayerCount(mode)], out).0;
            && u in l'.status
            && l'.status[u] == if u in Queue(w, mode)[..PlayerCount(mode)]
                               then Placement(w.status[u], mode, Queue(w, mode)[..PlayerCount(mode)], out)
                               else w.status[u]
  {
    hide Restored, Applied, Players, BuildTeams, PlayerCount, LobbyInv;
    CutFront(w, mode);
    UseStatusOk(w);
    var group, l2 := Queue(w, mode)[..PlayerCount(mode)], WithoutGroup(w, mode);
    if out.matchId.None? {
      RestoredFacts(l2, group, mode);
      AppliedAt(l2.status, group, ToRestored, u);
    } else {
      var change := ToMatched(BuildTeams(mode, group), out.room, out.matchId.value);
      var matched := Settled(l2, group, change);
      AppliedKeys(l2.status, group, change);
      AppliedAt(l2.status, group, change, u);
      if out.chunk.Some? && mode == "1v1" {
        if out.chunk.value.Err? {
          RestoredFacts(matched, group, mode);
          AppliedAt(matched.status, group, ToRestored, u);
        } else {
          AppliedAt(matched.status, group, ToChunk(out.chunk.value.value), u);
        }
      }
    }
  }

  /** A matched user's stored state never changes again: nothing in the service ends a match in the queue's records. */
  lemma {:induction false} MatchedForever(events: seq<Event>, j: nat, k: nat, u: User)
    requires j <= k <= |events| && u in After(events, j).status && After(events, j).status[u].status == Matched
    ensures u in After(events, k).status && After(events, k).status[u] == After(events, j).status[u]
    decreases k
  {
    hide Step, LobbyInv;
    if j < k {
      MatchedForever(events, j, k - 1, u);
      RunKeeps(events, k - 1);
      MatchedStays(After(events, k - 1), events[k - 1], u);
    }
  }

  predicate InPlay(l: Lobby, u: User) {
    u in l.status && (l.status[u].status == Matching || l.status[u].status == Matched)
  }

  /** Only the own Cancel takes a user out of play, and only a waiting one. */
  lemma StepInPlay(l: Lobby, e: Event, u: User)
    requires LobbyInv(l) && InPlay(l, u)
    ensures InPlay(Step(l, e), u) <==> !(e == CancelledBy(u) && l.status[u].status == Matching)
  {
    hide Restored, Applied, Players, BuildTeams, PlayerCount, QueueOk, MatchedOk, LobbyInv, MatchSpec;
    if e.Joined? && e.mode != "" && !InPlay(l, e.user) {
      var w := Enlisted(l, e.user, e.mode, e.out);
      if 0 < PlayerCount(e.mode) <= |Queue(w, e.mode)| {
        UseStatusOk(l);
        EnlistKeeps(l, e.user, e.mode, e.out);
        MatchSpecOutside(w, e.user, e.mode, e.out, u);
      }
    }
  }

  /** Nobody is lost: whoever is waiting or matched still is, whatever joins, groups and failures happen in between,
      unless that user cancels. */
  lemma {:induction false} NobodyIsLost(events: seq<Event>, j: nat, k: nat, u: User)
    requires j <= k <= |events| && InPlay(After(events, j), u)
    requires forall n :: j <= n < k ==> events[n] != CancelledBy(u)
    ensures InPlay(After(events, k), u)
    decreases k
  {
    hide Step, LobbyInv;
    if j < k {
      NobodyIsLost(events, j, k - 1, u);
      RunKeeps(events, k - 1);
      StepInPlay(After(events, k - 1), events[k - 1], u);
    }
  }

  // ---------------------------------------------------------------- one Join: what it does to the queue

  /** A user who may join anew. */
  predicate Joins(l: Lobby, user: User, mode: string) {
    mode != "" && PlayerCount(mode) > 0 && !InPlay(l, user)
  }

  /** A Join either only queues the user, or takes the front of the queue, which then is matched or goes to the back. */
  lemma JoinMovesQueue(l: Lobby, user: User, mode: string, out: Outcome)
    requires LobbyInv(l) && Joins(l, user, mode)
    ensures var queue, n := Queue(l, mode) + [user], PlayerCount(mode);
            var after := Queue(JoinSpec(l, user, mode, out).0, mode);
            && (|queue| < n ==> after == queue)
            && (|queue| >= n ==> after == queue[n..] + if Formed(mode, out) then [] else queue[..n])
    ensures forall m :: m != mode ==> Queue(JoinSpec(l, user, mode, out).0, m) == Queue(l, m)
  {
    hide Applied, Players, BuildTeams, PlayerCount, QueueOk, MatchedOk, LobbyInv, Restored;
    var w := Enlisted(l, user, mode, out);
    UseStatusOk(l);
    EnlistKeeps(l, user, mode, out);
    if |Queue(w, mode)| >= PlayerCount(mode) {
      var group, l2 := Queue(w, mode)[..PlayerCount(mode)], WithoutGroup(w, mode);
      MatchSpecKeeps(w, user, mode, out);
      MatchSpecQueues(w, user, mode, out);
    }
  }

  /** The new waiting state of a user who joins. */
  function Fresh(mode: string, out: Outcome): UserState {
    UserState(mode, Matching, out.ticket, 0, "", "", [], out.now)
  }

  /** The stored states after a Join: the joining user starts anew; once the queue is long enough, every member of the
      group is placed in the match of the Join, under its identifier, or waits as before; nobody else changes. */
  lemma JoinPlacesGroup(l: Lobby, user: User, mode: string, out: Outcome, u: User)
    requires LobbyInv(l) && Joins(l, user, mode)
    ensures
      var l', queue, n := JoinSpec(l, user, mode, out).0, Queue(l, mode) + [user], PlayerCount(mode);
      && (u in l'.status <==> u in l.status || u == user)
      && (u in l'.status ==>
            var s := if u == user then Fresh(mode, out) else l.status[u];
            l'.status[u] == if |queue| >= n && u in queue[..n] then Placement(s, mode, queue[..n], out) else s)
  {
    hide Applied, Players, BuildTeams, PlayerCount, LobbyInv, Restored, Formed, MatchSpec;
    var w := Enlisted(l, user, mode, out);
    UseStatusOk(l);
    EnlistKeeps(l, user, mode, out);
    if |Queue(w, mode)| >= PlayerCount(mode) {
      MatchSpecUsers(w, user, mode, out);
      if u in w.status {
        MatchSpecOutside(w, user, mode, out, u);
      }
    }
  }

  lemma MatchSpecUsers(w: Lobby, user: User, mode: string, out: Outcome)
    requires LobbyInv(w) && 0 < PlayerCount(mode) <= |Queue(w, mode)| && user in w.status
    ensures MatchSpec(WithoutGroup(w, mode), user, mode, Queue(w, mode)[..PlayerCount(mode)], out).0.status.Keys ==
              w.status.Keys
  {
    hide Applied, Players, BuildTeams, PlayerCount, LobbyInv, Restored;
    CutFront(w, mode);
    var group, l2 := Queue(w, mode)[..PlayerCount(mode)], WithoutGroup(w, mode);
    AppliedKeys(l2.status, group, ToRestored);
    if out.matchId.None? {
      RestoredFacts(l2, group, mode);
    } else {
      var change := ToMatched(BuildTeams(mode, group), out.room, out.matchId.value);
      AppliedKeys(l2.status, group, change);
      var matched := Settled(l2, group, change);
      RestoredFacts(matched, group, mode);
      AppliedKeys(matched.status, group, ToRestored);
      if out.chunk.Some? && out.chunk.value.Ok? {
        AppliedKeys(matched.status, group, ToChunk(out.chunk.value.value));
      }
    }
  }

  /** Every answer to a Join has its exact condition; a state that is answered is the one that is stored. */
  lemma JoinAnswers(l: Lobby, user: User, mode: string, out: Outcome)
    ensures
      var (l', r), n := JoinSpec(l, user, mode, out), PlayerCount(mode);
      var groups := Joins(l, user, mode) && |Queue(l, mode)| + 1 >= n;
      && (r == Err(EmptyMode) <==> mode == "")
      && (r == Err(InvalidMode) <==> mode !in {"", "1v1", "2v2"} && !InPlay(l, user))
      && (r == Err(CreateMatchFailed) <==> groups && out.matchId.None?)
      && (r == Err(AssignChunkFailed) <==> groups && out.matchId.Some? && !Formed(mode, out))
      && (r == Err(CreateRoomFailed) <==> groups && Formed(mode, out) && !out.roomOk)
      && (r.Ok? ==> user in l'.status && r.value == l'.status[user])
      && (mode == "" || InPlay(l, user) ==> l' == l)
  {
    hide Applied, Players, BuildTeams, Restored;
    var w := Enlisted(l, user, mode, out);
    assert |Queue(w, mode)| == |Queue(l, mode)| + 1;
    if Joins(l, user, mode) && |Queue(w, mode)| >= PlayerCount(mode) && out.matchId.Some? {
      var group, l2 := Queue(w, mode)[..PlayerCount(mode)], WithoutGroup(w, mode);
      var change := ToMatched(BuildTeams(mode, group), out.room, out.matchId.value);
      AppliedKeys(l2.status, group, change);
      if out.chunk.Some? && out.chunk.value.Ok? {
        AppliedKeys(Settled(l2, group, change).status, group, ToChunk(out.chunk.value.value));
      }
    }
  }

  /** An unknown mode leaves the user waiting in a queue that never forms a group. */
  lemma UnknownModeWaits(l: Lobby, user: User, mode: string, out: Outcome)
    requires mode !in {"", "1v1", "2v2"} && !InPlay(l, user)
    ensures var l' := JoinSpec(l, user, mode, out).0;
            l'.status == l.status[user := Fresh(mode, out)] && Queue(l', mode) == Queue(l, mode) + [user]
            && forall m :: m != mode ==> Queue(l', m) == Queue(l, m)
  {
  }

  /** Every answer to a Cancel has its exact condition; an accepted one marks the user and touches nobody else. */
  lemma CancelAnswers(l: Lobby, user: User)
    ensures
      var (l', r) := CancelSpec(l, user);
      && (r == Err(NoStatus) <==> user !in l.status)
      && (r == Err(NotMatching) <==> user in l.status && l.status[user].status != Matching)
      && (r.Err? ==> l' == l)
      && (r.Ok? ==>
            && r.value == l.status[user].(status := Cancelled) && l'.status == l.status[user := r.value]
            && (forall u :: u in Queue(l', r.value.mode) <==> u in Queue(l, r.value.mode) && u != user)
            && forall m :: m != r.value.mode ==> Queue(l', m) == Queue(l, m))
  {
    if user in l.status {
      WithoutFacts(Queue(l, l.status[user].mode), user);
    }
    hide Without;
  }

  lemma QueuedIsStored(l: Lobby, mode: string, u: User)
    requires LobbyInv(l)
    ensures u in Queue(l, mode) ==> u in l.status
  {
    assert QueueOk(l, mode);
  }

  /** A 1v1 Join with the minesweeper service that succeeds: the players' stored states name the match and the chunk
      that the map holds for them, as their active match and under its lock. */
  lemma PlacedOnTheMap(l: Lobby, user: User, out: Outcome, draw: Draw, w: C.MapState, u: User)
    requires LobbyInv(l) && Joins(l, user, "1v1") && |Queue(l, "1v1") + [user]| >= 2
    requires var group := GroupOf(l, user, "1v1");
             u in group && Formed("1v1", Met(Some(w), "1v1", group, out, draw))
    ensures
      var group := GroupOf(l, user, "1v1");
      var l', map' := JoinSpec(l, user, "1v1", Met(Some(w), "1v1", group, out, draw)).0,
        MapAfter(Some(w), "1v1", group, out, draw);
      && map'.Some? && u in l'.status && l'.status[u].status == Matched
      && var m, s := O.ActiveMatch(map'.value.overlay, u), l'.status[u];
      && m.Some? && m.value.id == s.matchId && m.value.chunkId == s.chunkId
      && m.value.userTeams.Keys == (set v | v in group)
      && s.chunkId in map'.value.overlay.locks && map'.value.overlay.locks[s.chunkId] == s.matchId
  {
    hide LobbyInv, JoinSpec, Assignment, BuildTeams, Queue, O.ActiveMatch;
    var group := GroupOf(l, user, "1v1");
    var met := Met(Some(w), "1v1", group, out, draw);
    JoinPlacesGroup(l, user, "1v1", met, u);
    assert u in Queue(l, "1v1") + [user];
    QueuedIsStored(l, "1v1", u);
    AssignedTogether(w, "1v1", group, out, draw, u);
    assert group == (Queue(l, "1v1") + [user])[..2];
  }

  lemma MatchSpecQueues(w: Lobby, user: User, mode: string, out: Outcome)
    requires LobbyInv(w) && 0 < PlayerCount(mode) <= |Queue(w, mode)| && user in w.status
    ensures var l' := MatchSpec(WithoutGroup(w, mode), user, mode, Queue(w, mode)[..PlayerCount(mode)], out).0;
            && (Formed(mode, out) ==> Queue(l', mode) == Queue(w, mode)[PlayerCount(mode)..])
            && forall m :: m != mode ==> Queue(l', m) == Queue(w, m)
  {
    hide Applied, Players, BuildTeams, PlayerCount, LobbyInv, Restored;
    CutFront(w, mode);
    var group, l2 := Queue(w, mode)[..PlayerCount(mode)], WithoutGroup(w, mode);
    if out.matchId.None? {
      RestoredFacts(l2, group, mode);
    } else {
      var change := ToMatched(BuildTeams(mode, group), out.room, out.matchId.value);
      AppliedKeys(l2.status, group, change);
      RestoredFacts(Settled(l2, group, change), group, mode);
    }
  }

  // ---------------------------------------------------------------- first come, first served

  /** The users one event puts at the end of a queue, in order. */
  function Pushes(l: Lobby, e: Event, mode: string): seq<User> {
    if e.CancelledBy? || e.mode != mode || mode == "" || InPlay(l, e.user) then []
    else
      var queue, n := Queue(l, mode) + [e.user], PlayerCount(mode);
      [e.user] + if 0 < n <= |queue| && !Formed(mode, e.out) then queue[..n] else []
  }

  /** Everything ever put at the end of a mode's queue, oldest first. */
  function Arrivals(events: seq<Event>, k: nat, mode: string): seq<User>
    requires k <= |events|
  {
    if k == 0 then [] else Arrivals(events, k - 1, mode) + Pushes(After(events, k - 1), events[k - 1], mode)
  }

  /** When a user last arrived; -1 for never. */
  function LastArrival(log: seq<User>, u: User): (r: int)
    ensures -1 <= r < |log| && (r >= 0 <==> u in log) && (r >= 0 ==> log[r] == u)
  {
    if log == [] then -1 else if log[|log| - 1] == u then |log| - 1 else LastArrival(log[..|log| - 1], u)
  }

  /** A list in order of last arrival. */
  ghost predicate InOrder(log: seq<User>, users: seq<User>) {
    && (forall i :: 0 <= i < |users| ==> LastArrival(log, users[i]) >= 0)
    && (forall i, j :: 0 <= i < j < |users| ==> LastArrival(log, users[i]) < LastArrival(log, users[j]))
  }

  lemma ArrivalAdd(log: seq<User>, u: User, v: User)
    ensures LastArrival(log + [u], v) == if u == v then |log| else LastArrival(log, v)
  {
    assert (log + [u])[..|log|] == log;
  }

  lemma OrderAdd(log: seq<User>, users: seq<User>, u: User)
    requires InOrder(log, users) && u !in users
    ensures InOrder(log + [u], users + [u])
  {
    hide LastArrival;
    forall i | 0 <= i < |users| ensures LastArrival(log + [u], users[i]) == LastArrival(log, users[i]) < |log| {
      ArrivalAdd(log, u, users[i]);
    }
    ArrivalAdd(log, u, u);
  }

  lemma {:induction false} OrderAddAll(log: seq<User>, users: seq<User>, more: seq<User>)
    requires InOrder(log, users) && Distinct(more) && forall u :: u in more ==> u !in users
    ensures InOrder(log + more, users + more)
  {
    hide InOrder, LastArrival;
    if more == [] {
      assert log + more == log && users + more == users;
    } else {
      DistinctPrefix(more);
      var init, u := more[..|more| - 1], more[|more| - 1];
      OrderAddAll(log, users, init);
      OrderAdd(log + init, users + init, u);
      assert log + init + [u] == log + more && users + init + [u] == users + more;
    }
  }

  lemma {:induction false} OrderWithout(log: seq<User>, users: seq<User>, u: User)
    requires InOrder(log, users)
    ensures InOrder(log, Without(users, u))
  {
    hide LastArrival;
    if users != [] {
      var init, last := users[..|users| - 1], users[|users| - 1];
      assert InOrder(log, init);
      OrderWithout(log, init, u);
      WithoutFacts(init, u);
      forall i | 0 <= i < |Without(init, u)| ensures LastArrival(log, Without(init, u)[i]) < LastArrival(log, last) {
        assert Without(init, u)[i] in init;
      }
    }
  }

  lemma StepOrder(l: Lobby, e: Event, mode: string, log: seq<User>)
    requires LobbyInv(l) && InOrder(log, Queue(l, mode))
    ensures InOrder(log + Pushes(l, e, mode), Queue(Step(l, e), mode))
  {
    hide InOrder, LobbyInv, PlayerCount, JoinSpec, Without, QueueOk;
    assert log + [] == log;
    match e
    case CancelledBy(user) => OrderWithout(log, Queue(l, mode), user);
    case Joined(user, m, out) => JoinOrder(l, user, m, out, mode, log);
  }

  lemma JoinOrder(l: Lobby, user: User, m: string, out: Outcome, mode: string, log: seq<User>)
    requires LobbyInv(l) && InOrder(log, Queue(l, mode))
    ensures InOrder(log + Pushes(l, Joined(user, m, out), mode), Queue(JoinSpec(l, user, m, out).0, mode))
  {
    hide InOrder, LobbyInv, PlayerCount, QueueOk, MatchSpec;
    assert log + [] == log;
    UseStatusOk(l);
    if m != "" && !InPlay(l, user) {
      EnlistKeeps(l, user, m, out);
      if PlayerCount(m) > 0 {
        JoinMovesQueue(l, user, m, out);
      }
      if m == mode {
        QueueDistinct(Enlisted(l, user, mode, out), mode);
        JoinPushes(l, user, mode, out, log);
        if PlayerCount(mode) == 0 {
          assert Queue(JoinSpec(l, user, mode, out).0, mode) == Queue(l, mode) + [user];
        }
      }
    }
  }

  /** The pushes of a Join, put on the queue it finds. */
  lemma JoinPushes(l: Lobby, user: User, mode: string, out: Outcome, log: seq<User>)
    requires LobbyInv(l) && InOrder(log, Queue(l, mode)) && user !in Queue(l, mode) && mode != "" && !InPlay(l, user)
    requires Distinct(Queue(l, mode) + [user])
    ensures var queue, n := Queue(l, mode) + [user], PlayerCount(mode);
            0 < n <= |queue| ==>
              var back := if Formed(mode, out) then [] else queue[..n];
              InOrder(log + Pushes(l, Joined(user, mode, out), mode), queue[n..] + back)
    ensures var queue, n := Queue(l, mode) + [user], PlayerCount(mode);
            !(0 < n <= |queue|) ==> InOrder(log + Pushes(l, Joined(user, mode, out), mode), queue)
  {
    hide InOrder, LobbyInv, PlayerCount, Queue, InPlay, Formed, Distinct;
    var queue, n := Queue(l, mode) + [user], PlayerCount(mode);
    OrderAdd(log, Queue(l, mode), user);
    RotateOrder(log + [user], queue, n, Formed(mode, out));
    assert log + ([user] + []) == log + [user] && log + [user] + [] == log + [user];
    if 0 < n <= |queue| {
      assert log + ([user] + queue[..n]) == log + [user] + queue[..n];
    }
  }

  lemma QueueDistinct(l: Lobby, mode: string)
    requires LobbyInv(l)
    ensures Distinct(Queue(l, mode))
  {
    assert QueueOk(l, mode);
  }

  /** Taking the front of a queue, and putting it at the back again, keep the order of last arrival. */
  lemma RotateOrder(log: seq<User>, queue: seq<User>, n: nat, formed: bool)
    requires InOrder(log, queue) && Distinct(queue)
    ensures n <= |queue| ==>
              var back := if formed then [] else queue[..n]; InOrder(log + back, queue[n..] + back)
  {
    if n <= |queue| {
      CutAt(queue, n);
      assert InOrder(log, queue[n..]);
      hide InOrder;
      assert log + [] == log && queue[n..] + [] == queue[n..];
      OrderAddAll(log, queue[n..], queue[..n]);
    }
  }

  lemma {:induction false} QueuesInOrder(events: seq<Event>, k: nat, mode: string)
    requires k <= |events|
    ensures InOrder(Arrivals(events, k, mode), Queue(After(events, k), mode))
  {
    hide LobbyInv, Step, Pushes;
    if k > 0 {
      hide InOrder;
      QueuesInOrder(events, k - 1, mode);
      RunKeeps(events, k - 1);
      StepOrder(After(events, k - 1), events[k - 1], mode, Arrivals(events, k - 1, mode));
    }
  }

  lemma FrontIsOldest(log: seq<User>, queue: seq<User>, n: nat, i: nat, u: User)
    requires InOrder(log, queue) && i < n <= |queue| && u in queue && u !in queue[..n]
    ensures 0 <= LastArrival(log, queue[i]) < LastArrival(log, u)
  {
    hide LastArrival;
    var j :| 0 <= j < |queue| && queue[j] == u;
    assert forall h :: 0 <= h < n ==> queue[..n][h] == queue[h];
  }

  /** First come, first served: whenever a Join forms a group, its members are distinct waiting users of that mode, and
      each arrived in the queue before everybody who is left waiting there. */
  lemma GroupIsOldest(events: seq<Event>, k: nat, user: User, mode: string, out: Outcome)
    requires k < |events| && events[k] == Joined(user, mode, out) && Joins(After(events, k), user, mode)
    requires 0 < PlayerCount(mode) <= |Queue(After(events, k), mode) + [user]|
    ensures var queue, log := Queue(After(events, k), mode) + [user], Arrivals(events, k, mode) + [user];
            forall i: nat, u ::
              i < PlayerCount(mode) && u in queue && u !in queue[..PlayerCount(mode)] ==>
                0 <= LastArrival(log, queue[i]) < LastArrival(log, u)
    ensures var group := (Queue(After(events, k), mode) + [user])[..PlayerCount(mode)];
            var l := Enlisted(After(events, k), user, mode, out);
            Distinct(group) && forall v :: v in group ==> WaitsFor(l, v, mode)
  {
    hide LobbyInv, Step, Pushes, LastArrival, PlayerCount, InOrder, Queue, After, Arrivals, Cut, WaitsFor;
    var queue, log, n := Queue(After(events, k), mode) + [user], Arrivals(events, k, mode) + [user], PlayerCount(mode);
    QueuesInOrder(events, k, mode);
    RunKeeps(events, k);
    UseStatusOk(After(events, k));
    EnlistKeeps(After(events, k), user, mode, out);
    OrderAdd(Arrivals(events, k, mode), Queue(After(events, k), mode), user);
    forall i: nat, u | i < n && u in queue && u !in queue[..n]
      ensures 0 <= LastArrival(log, queue[i]) < LastArrival(log, u)
    {
      FrontIsOldest(log, queue, n, i, u);
    }
    CutFront(Enlisted(After(events, k), user, mode, out), mode);
    CutDistinct(Enlisted(After(events, k), user, mode, out), mode);
  }

  lemma CutDistinct(l: Lobby, mode: string)
    requires LobbyInv(l) && 0 < PlayerCount(mode) <= |Queue(l, mode)|
    ensures Distinct(Queue(l, mode)[..PlayerCount(mode)])
  {
    CutFront(l, mode);
  }
}
