/** Chunk assignment and match finishing, one store call at a time. Any number of assignments run beside the workers of
    any number of chunks and beside readers, store calls may fail, and every interleaving is allowed
    (internal/service/mine_match_service.go, internal/repository/mine_match_repository.go). */
module LockProtocol {
  import opened Wrappers
  import opened ChunkIds
  import opened MineField
  import opened ChunkState
  import opened Cascade
  import opened ChunkMachine
  import opened MineMatch
  import opened MatchOverlay
  import opened ChunkService
  import opened MatchInvariants

  /** How far an assignment has come. `Free` and `Looked` have passed the two reads of the first look. `Rejecting`
      gives the lock back to go on searching, `Unlocking` to fail; `recorded` tells whether the record was written. */
  datatype Assignment =
    | Searching
    | Free(key: string)
    | Looked(key: string)
    | Locked(key: string)
    | Checked(key: string)
    | Saved(key: string)
    | Done(key: string)
    | Rejecting(key: string)
    | Unlocking(key: string, recorded: bool)
    | Failed(recorded: bool)

  /** A request whose cell has been checked. */
  datatype Click = Open(x: int, y: int) | Flag(x: int, y: int, flagged: bool)

  /** What an open that went well hands to the match service: the answer, and the board as it was saved. */
  datatype Found = Found(chunk: ChunkID, user: int, response: OpenResponse, board: Chunk)

  /** What the worker of one chunk is doing: `Asked` has found no match of the user, `Authorised` and `Applying` are
      before and after the write of the board, `Scoring` has read the match, `Ending` has the record and the winner of a
      match that is over, then come the calls of finishMatch. */
  datatype Work =
    | Idle
    | Asked(user: int)
    | Authorised(user: int)
    | Applying(found: Found)
    | Scoring(m: Match, found: Found)
    | Ending(m: Match, team: int)
    | Recorded(m: Match)
    | Deleted(m: Match)

  datatype System = System(rules: Rules,
    o: Overlay, assignments: map<int, Assignment>, workers: map<string, Work>, chunks: map<string, Chunk>)

  /** The store calls. A call with `ok` may fail, and then has no effect on the store; a worker whose call fails takes
      `Stop` instead of the call. `opponent` is the opposing team that the map iteration of opponentTeam meets first. */
  datatype Step =
    | Begin(id: int)
    | ReadFree(id: int, key: string)
    | FirstLook(id: int)
    | TryLock(id: int)
    | SecondLook(id: int, ok: bool)
    | SaveNew(id: int, teams: seq<Team>, ok: bool)
    | SetPointers(id: int, ok: bool)
    | GiveBack(id: int, ok: bool)
    | GiveUp(id: int)
    | ReadPointer(key: string, user: int)
    | ReadLock(key: string)
    | Write(key: string, chunk: ChunkID, click: Click, t: Times)
    | Glance(key: string, now: int)
    | ReadMatch(key: string, opponent: int)
    | SaveScore(key: string, now: int)
    | SaveFinished(key: string)
    | DeletePointers(key: string)
    | UnlockFinished(key: string)
    | Stop(key: string)

  predicate OfAssignment(e: Step) {
    || e.Begin? || e.ReadFree? || e.FirstLook? || e.TryLock? || e.SecondLook? || e.SaveNew? || e.SetPointers?
    || e.GiveBack? || e.GiveUp?
  }

  function WorkOf(s: System, key: string): Work { if key in s.workers then s.workers[key] else Idle }

  function Board(s: System, key: string): Chunk { ChunkOf(s.chunks, key) }

  predicate At(s: System, id: int, a: Assignment) { id in s.assignments && s.assignments[id] == a }

  function Move(s: System, id: int, a: Assignment, o: Overlay): System {
    s.(o := o, assignments := s.assignments[id := a])
  }

  function Put(s: System, key: string, w: Work, o: Overlay): System {
    s.(o := o, workers := s.workers[key := w])
  }

  /** A changed board is saved. */
  function Store(chunks: map<string, Chunk>, key: string, c: Chunk): map<string, Chunk> {
    ChunkService.Put(chunks, key, c)
  }

  // ---------------------------------------------------------------- what a worker does with a request

  /** The board after an allowed request, and the answer to an open that went well. */
  ghost function Perform(rules: Rules, c: Chunk, user: int, chunk: ChunkID, click: Click, t: Times)
    : (Chunk, Option<OpenResponse>)
    requires Playable(chunk) && ChunkCellIndex(click.x, click.y).Some?
  {
    var lifted := Reopen(c, t.reopen, rules.closure);
    match click
    case Open(x, y) =>
      var body := OpenBody(Site(rules.season, chunk), lifted, user, x, y, t.body, rules.closure);
      (body.0, if body.1.Ok? then Some(body.1.value) else None)
    case Flag(x, y, flagged) => (FlagBody(lifted, user, x, y, flagged).0, None)
  }

  function AfterWrite(user: int, chunk: ChunkID, done: (Chunk, Option<OpenResponse>)): Work {
    if done.1.Some? then Applying(Found(chunk, user, done.1.value, done.0)) else Idle
  }

  /** What there is to do once the match is read: nothing outside the match chunk and for a protected open, the end of
      the match for a mine. */
  ghost function Applied(o: Overlay, key: string, found: Found, opponent: int): Work {
    var active := ActiveMatch(o, found.user);
    if active.None? || active.value.chunkId != key || found.response.canceled then Idle
    else if !found.response.mine then Scoring(active.value, found)
    else if HasOpponent(active.value, found.user) then Ending(active.value, opponent)
    else Idle
  }

  /** What there is to do once the score is saved: the end of the match when the board is complete. */
  ghost function Settled(rules: Rules, scored: Match, found: Found): Work {
    var cells := found.board.cells;
    if |cells| == 0 || !RateOk(rules.season) || |cells| < |SafeCells(Site(rules.season, found.chunk))|
       || scored.teams == map[] then Idle
    else Ending(scored, BestTeam(scored))
  }

  /** A write by one user: open cells stay, what is new on the board is the user's. */
  ghost predicate Wrote(before: Chunk, after: Chunk, user: int) {
    && (forall i :: i in before.cells ==> i in after.cells && after.cells[i] == before.cells[i])
    && (forall i :: i in after.cells && i !in before.cells ==> after.cells[i].openedBy == user)
    && (forall i :: i in after.flaggedBy ==>
          after.flaggedBy[i] == user || (i in before.flaggedBy && after.flaggedBy[i] == before.flaggedBy[i]))
  }

  /** The writes of the chunk machine are of that kind. */
  lemma OpenWrites(site: Site, c: Chunk, user: int, x: int, y: int, t: Times, closure: int)
    requires SiteOk(site) && ChunkCellIndex(x, y).Some?
    ensures Wrote(c, OpenBody(site, Reopen(c, t.reopen, closure), user, x, y, t.body, closure).0, user)
  {
    hide Number, Mine, Area, Repeat, Protected, Performed, HasOpened;
    var lifted, index := Reopen(c, t.reopen, closure), ChunkCellIndex(x, y).value;
    IndexCoordinates(x, y);
    assert lifted.cells == c.cells && lifted.flaggedBy == c.flaggedBy;
    if index !in c.cells && index !in c.flaggedBy && !Mine(site, index) {
      UncoverKeeps(site, lifted, index, user, t.body);
    }
  }

  lemma FlagWrites(c: Chunk, user: int, x: int, y: int, flagged: bool, t: Times, closure: int)
    requires ChunkCellIndex(x, y).Some?
    ensures Wrote(c, FlagBody(Reopen(c, t.reopen, closure), user, x, y, flagged).0, user)
  {
  }

  lemma PerformWrites(rules: Rules, c: Chunk, user: int, chunk: ChunkID, click: Click, t: Times)
    requires Playable(chunk) && ChunkCellIndex(click.x, click.y).Some?
    ensures Wrote(c, Perform(rules, c, user, chunk, click, t).0, user)
  {
    hide Wrote, OpenBody, FlagBody, Reopen;
    if click.Open? {
      OpenWrites(Site(rules.season, chunk), c, user, click.x, click.y, t, rules.closure);
    } else {
      FlagWrites(c, user, click.x, click.y, click.flagged, t, rules.closure);
    }
  }

  // ---------------------------------------------------------------- steps

  ghost predicate Enabled(s: System, e: Step) {
    match e
    case Begin(id) => id > 0 && id !in s.assignments
    case ReadFree(id, key) => At(s, id, Searching) && LockOf(s.o, key) == 0
    case FirstLook(id) => id in s.assignments && s.assignments[id].Free?
    case TryLock(id) => id in s.assignments && s.assignments[id].Looked?
    case SecondLook(id, _) => id in s.assignments && s.assignments[id].Locked?
    case SaveNew(id, _, _) => id in s.assignments && s.assignments[id].Checked?
    case SetPointers(id, _) => id in s.assignments && s.assignments[id].Saved? && id in s.o.matches
    case GiveBack(id, _) => id in s.assignments && (s.assignments[id].Rejecting? || s.assignments[id].Unlocking?)
    case GiveUp(id) => id in s.assignments && (s.assignments[id].Searching? || s.assignments[id].Free?
        || s.assignments[id].Looked?)
    case ReadPointer(key, user) => WorkOf(s, key).Idle?
    case ReadLock(key) => WorkOf(s, key).Asked?
    case Write(key, chunk, click, _) => WorkOf(s, key).Authorised? && Playable(chunk) && Print(chunk) == key
        && ChunkCellIndex(click.x, click.y).Some?
    case Glance(key, _) => true
    case ReadMatch(key, opponent) => WorkOf(s, key).Applying?
        && OpponentChosen(s.o, WorkOf(s, key).found.user, opponent)
    case SaveScore(key, _) => WorkOf(s, key).Scoring?
    case SaveFinished(key) => WorkOf(s, key).Ending?
    case DeletePointers(key) => WorkOf(s, key).Recorded?
    case UnlockFinished(key) => WorkOf(s, key).Deleted?
    case Stop(key) => key in s.workers
  }

  ghost function Next(s: System, e: Step): System
    requires Enabled(s, e)
  {
    match e
    case Begin(id) => Move(s, id, Searching, s.o)
    case ReadFree(id, key) => Move(s, id, Free(key), s.o)
    case FirstLook(id) =>
      var key := s.assignments[id].key;
      Move(s, id, if Clean(Board(s, key)) then Looked(key) else Searching, s.o)
    case TryLock(id) =>
      var key := s.assignments[id].key;
      if key in s.o.locks then Move(s, id, Searching, s.o) else Move(s, id, Locked(key), Lock(s.o, key, id))
    case SecondLook(id, ok) =>
      var key := s.assignments[id].key;
      Move(s, id, if !ok then Unlocking(key, false) else if Clean(Board(s, key)) then Checked(key)
          else Rejecting(key), s.o)
    case SaveNew(id, teams, ok) =>
      var key := s.assignments[id].key;
      if ok then Move(s, id, Saved(key), SaveMatch(s.o, NewMatch(id, key, teams)))
          else Move(s, id, Unlocking(key, false), s.o)
    case SetPointers(id, ok) =>
      var key := s.assignments[id].key;
      if ok then Move(s, id, Done(key), SetActive(s.o, s.o.matches[id])) else Move(s, id, Unlocking(key, true), s.o)
    case GiveBack(id, ok) =>
      var a := s.assignments[id];
      Move(s, id, if a.Rejecting? then Searching else Failed(a.recorded), if ok then Unlock(s.o, a.key, id) else s.o)
    case GiveUp(id) => Move(s, id, Failed(false), s.o)
    case ReadPointer(key, user) =>
      var active := ActiveMatch(s.o, user);
      Put(s, key, if active.None? then Asked(user) else if active.value.chunkId == key then Authorised(user)
          else Idle, s.o)
    case ReadLock(key) => Put(s, key, if LockOf(s.o, key) == 0 then Authorised(WorkOf(s, key).user) else Idle, s.o)
    case Write(key, chunk, click, t) =>
      var user := WorkOf(s, key).user;
      var done := Perform(s.rules, Board(s, key), user, chunk, click, t);
      Put(s, key, AfterWrite(user, chunk, done), s.o).(chunks := Store(s.chunks, key, done.0))
    case Glance(key, now) => s.(chunks := Store(s.chunks, key, Reopen(Board(s, key), now, s.rules.closure)))
    case ReadMatch(key, opponent) => Put(s, key, Applied(s.o, key, WorkOf(s, key).found, opponent), s.o)
    case SaveScore(key, now) =>
      var found := WorkOf(s, key).found;
      var m := Scored(WorkOf(s, key).m, found.user, found.response, now);
      Put(s, key, Settled(s.rules, m, found), if found.response.newOpenedCount > 0 then SaveMatch(s.o, m) else s.o)
    case SaveFinished(key) =>
      var m := Won(WorkOf(s, key).m, WorkOf(s, key).team);
      Put(s, key, Recorded(m), SaveMatch(s.o, m))
    case DeletePointers(key) => Put(s, key, Deleted(WorkOf(s, key).m), DeleteActive(s.o, WorkOf(s, key).m))
    case UnlockFinished(key) => Put(s, key, Idle, Unlock(s.o, key, WorkOf(s, key).m.id))
    case Stop(key) => Put(s, key, Idle, s.o)
  }

  function Start(rules: Rules): System { System(rules, NO_MATCHES, map[], map[], map[]) }

  ghost predicate IsRun(states: seq<System>, steps: seq<Step>) {
    && |states| == |steps| + 1 && states[0] == Start(states[0].rules)
    && forall k :: 0 <= k < |steps| ==> Enabled(states[k], steps[k]) && states[k + 1] == Next(states[k], steps[k])
  }

  // ---------------------------------------------------------------- the invariant

  /** The stages in which an assignment owns the lock of its chunk, whatever the record says. */
  predicate Owning(a: Assignment) { a.Locked? || a.Checked? || a.Saved? || a.Rejecting? || a.Unlocking? }

  /** The stages in which the match record exists. */
  predicate Written(a: Assignment) { a.Saved? || a.Done? || (a.Unlocking? && a.recorded) || (a.Failed? && a.recorded) }

  ghost predicate MatchesInv(s: System) {
    && (forall id :: id in s.assignments ==> id > 0 && (id in s.o.matches <==> Written(s.assignments[id])))
    && (forall id :: id in s.o.matches ==>
          id in s.assignments && s.o.matches[id].id == id
          && (s.assignments[id].Done? ==> s.assignments[id].key == s.o.matches[id].chunkId)
          && (s.assignments[id].Saved? ==> s.assignments[id].key == s.o.matches[id].chunkId)
          && (!s.assignments[id].Done? ==> s.o.matches[id].status == Ongoing))
  }

  ghost predicate LocksInv(s: System) {
    && (forall key :: key in s.o.locks ==> s.o.locks[key] in s.assignments)
    && (forall id :: id in s.assignments && Owning(s.assignments[id]) ==>
          s.assignments[id].key in s.o.locks && s.o.locks[s.assignments[id].key] == id)
    && (forall id ::
          id in s.assignments && s.assignments[id].Done? && id in s.o.matches && s.o.matches[id].status == Ongoing ==>
            HoldsLock(s.o, s.o.matches[id]))
  }

  ghost predicate PointersInv(s: System) {
    forall u :: u in s.o.active ==>
      var id := s.o.active[u];
      id in s.o.matches && id in s.assignments && s.assignments[id].Done? && u in s.o.matches[id].userTeams
  }

  ghost predicate WorkersInv(s: System) {
    forall key :: key in s.workers ==> WorkOk(s, key, s.workers[key])
  }

  ghost predicate WorkOk(s: System, key: string, w: Work) {
    match w
    case Scoring(m, _) => Own(s, key, m) && m.status == Ongoing
    case Ending(m, _) => Own(s, key, m) && m.status == Ongoing
    case Recorded(m) => Own(s, key, m) && m.status == Finished && HoldsLock(s.o, m)
    case Deleted(m) => Own(s, key, m) && m.status == Finished && HoldsLock(s.o, m)
    case _ => true
  }

  /** The record in the worker's hands is the stored record of a match assigned to the worker's chunk. */
  ghost predicate Own(s: System, key: string, m: Match) {
    m.chunkId == key && m.id in s.o.matches && s.o.matches[m.id] == m && At(s, m.id, Done(key))
  }

  ghost predicate Inv(s: System) {
    MatchesInv(s) && LocksInv(s) && PointersInv(s) && WorkersInv(s)
  }

  lemma NewMatchShape(id: int, key: string, teams: seq<Team>)
    ensures var m := NewMatch(id, key, teams);
            m.id == id && m.chunkId == key && m.status == Ongoing && m.userTeams == UserTeamsOf(teams)
  {
  }

  /** An assignment that is not done yet is named by no pointer and in no worker's hands. */
  lemma MoveFrame(s: System, id: int, a: Assignment, o: Overlay)
    requires PointersInv(s) && WorkersInv(s) && o.active == s.o.active
    requires id in s.assignments ==> !s.assignments[id].Done?
    requires forall k :: k in s.o.matches ==> k in o.matches && (k != id ==> o.matches[k] == s.o.matches[k])
    requires forall key :: key in s.o.locks && s.o.locks[key] != id ==> key in o.locks && o.locks[key] == s.o.locks[key]
    ensures PointersInv(Move(s, id, a, o)) && WorkersInv(Move(s, id, a, o))
  {
  }

  /** A stage change that writes no record. */
  lemma MatchesMove(s: System, id: int, a: Assignment, o: Overlay)
    requires MatchesInv(s) && id > 0 && !a.Done? && !a.Saved? && o.matches == s.o.matches
    requires id in s.assignments ==> !s.assignments[id].Done?
    requires Written(a) <==> id in s.o.matches
    ensures MatchesInv(Move(s, id, a, o))
  {
  }

  lemma MatchesWritten(s: System, id: int, m: Match)
    requires MatchesInv(s) && id > 0 && id !in s.o.matches && m.id == id && m.status == Ongoing
    ensures MatchesInv(Move(s, id, Saved(m.chunkId), SaveMatch(s.o, m)))
  {
  }

  /** A stage change that leaves the locks alone. */
  lemma LocksMove(s: System, id: int, a: Assignment, o: Overlay)
    requires LocksInv(s) && o.locks == s.o.locks && !a.Done?
    requires forall k :: k in o.matches && k != id ==> k in s.o.matches && o.matches[k] == s.o.matches[k]
    requires Owning(a) ==> id in s.assignments && Owning(s.assignments[id]) && a.key == s.assignments[id].key
    ensures LocksInv(Move(s, id, a, o))
  {
  }

  lemma PositiveIds(s: System, id: int)
    requires MatchesInv(s) && id in s.assignments
    ensures id > 0 && (id in s.o.matches <==> Written(s.assignments[id]))
  {
  }

  /** Every stage change of an assignment that is not done and writes neither record, lock nor pointer. */
  lemma PlainMove(s: System, id: int, a: Assignment)
    requires Inv(s) && id > 0 && !a.Done? && !a.Saved?
    requires id in s.assignments ==> !s.assignments[id].Done?
    requires Written(a) <==> id in s.assignments && Written(s.assignments[id])
    requires Owning(a) ==> id in s.assignments && Owning(s.assignments[id]) && a.key == s.assignments[id].key
    ensures Inv(Move(s, id, a, s.o))
  {
    assert id in s.o.matches ==> id in s.assignments;
    if id in s.assignments {
      PositiveIds(s, id);
    }
    hide PointersInv, WorkersInv, MatchesInv, LocksInv;
    MoveFrame(s, id, a, s.o);
    MatchesMove(s, id, a, s.o);
    LocksMove(s, id, a, s.o);
  }

  lemma TryLockKeeps(s: System, id: int)
    requires Inv(s) && Enabled(s, TryLock(id))
    ensures Inv(Next(s, TryLock(id)))
  {
    hide PointersInv, WorkersInv, MatchesInv, LocksInv;
    var key := s.assignments[id].key;
    PositiveIds(s, id);
    if key in s.o.locks {
      PlainMove(s, id, Searching);
    } else {
      var o := Lock(s.o, key, id);
      MoveFrame(s, id, Locked(key), o);
      MatchesMove(s, id, Locked(key), o);
      LockedMove(s, id, key);
    }
  }

  lemma LockedMove(s: System, id: int, key: string)
    requires LocksInv(s) && At(s, id, Looked(key)) && key !in s.o.locks
    ensures LocksInv(Move(s, id, Locked(key), Lock(s.o, key, id)))
  {
  }

  /** Giving the lock back while the assignment owns it. */
  lemma UnlockedMove(s: System, id: int, a: Assignment)
    requires MatchesInv(s) && LocksInv(s) && id in s.assignments
    requires s.assignments[id].Rejecting? || s.assignments[id].Unlocking?
    requires (a.Searching? || a.Failed?) && (Written(a) <==> Written(s.assignments[id]))
    ensures MatchesInv(Move(s, id, a, Unlock(s.o, s.assignments[id].key, id)))
    ensures LocksInv(Move(s, id, a, Unlock(s.o, s.assignments[id].key, id)))
  {
  }

  lemma GiveBackKeeps(s: System, id: int, ok: bool)
    requires Inv(s) && Enabled(s, GiveBack(id, ok))
    ensures Inv(Next(s, GiveBack(id, ok)))
  {
    hide PointersInv, WorkersInv, MatchesInv, LocksInv;
    var was := s.assignments[id];
    var a := if was.Rejecting? then Searching else Failed(was.recorded);
    PositiveIds(s, id);
    if ok {
      MoveFrame(s, id, a, Unlock(s.o, was.key, id));
      UnlockedMove(s, id, a);
    } else {
      PlainMove(s, id, a);
    }
  }

  lemma SaveNewKeeps(s: System, id: int, teams: seq<Team>)
    requires Inv(s) && Enabled(s, SaveNew(id, teams, true))
    ensures Inv(Next(s, SaveNew(id, teams, true)))
  {
    hide NewMatch, PointersInv, WorkersInv, MatchesInv, LocksInv;
    var key := s.assignments[id].key;
    var m := NewMatch(id, key, teams);
    NewMatchShape(id, key, teams);
    PositiveIds(s, id);
    MoveFrame(s, id, Saved(key), SaveMatch(s.o, m));
    LocksMove(s, id, Saved(key), SaveMatch(s.o, m));
    MatchesWritten(s, id, m);
  }

  /** The pointers of the users of a saved match: the assignment is done. */
  lemma PointersSet(s: System, id: int)
    requires Inv(s) && Enabled(s, SetPointers(id, true))
    ensures PointersInv(Next(s, SetPointers(id, true))) && WorkersInv(Next(s, SetPointers(id, true)))
  {
    var m := s.o.matches[id];
    var s' := Next(s, SetPointers(id, true));
    forall u | u in s'.o.active
      ensures if u in m.userTeams then s'.o.active[u] == id else u in s.o.active && s'.o.active[u] == s.o.active[u]
    {
    }
  }

  lemma DoneKeeps(s: System, id: int, o: Overlay)
    requires MatchesInv(s) && LocksInv(s) && id in s.assignments && s.assignments[id].Saved?
    requires o.matches == s.o.matches && o.locks == s.o.locks
    ensures MatchesInv(Move(s, id, Done(s.assignments[id].key), o))
              && LocksInv(Move(s, id, Done(s.assignments[id].key), o))
  {
  }

  lemma SetPointersKeeps(s: System, id: int)
    requires Inv(s) && Enabled(s, SetPointers(id, true))
    ensures Inv(Next(s, SetPointers(id, true)))
  {
    hide PointersInv, WorkersInv, MatchesInv, LocksInv;
    PointersSet(s, id);
    DoneKeeps(s, id, SetActive(s.o, s.o.matches[id]));
  }

  /** A step that changes nothing but what one worker is doing, and boards. */
  lemma BusyKeeps(s: System, key: string, w: Work, chunks: map<string, Chunk>)
    requires Inv(s) && WorkOk(s, key, w)
    ensures Inv(Put(s, key, w, s.o).(chunks := chunks))
  {
    hide LocksInv, PointersInv, MatchesInv;
    SameStores(s, Put(s, key, w, s.o).(chunks := chunks));
  }

  lemma SameStores(s: System, s': System)
    requires s.o == s'.o && s.assignments == s'.assignments
    ensures LocksInv(s) == LocksInv(s') && PointersInv(s) == PointersInv(s') && MatchesInv(s) == MatchesInv(s')
    ensures forall key, w :: WorkOk(s, key, w) == WorkOk(s', key, w)
  {
    assert forall id, a :: At(s, id, a) == At(s', id, a);
    assert forall key, m :: Own(s, key, m) == Own(s', key, m);
  }

  lemma GlanceKeeps(s: System, chunks: map<string, Chunk>)
    requires Inv(s)
    ensures Inv(s.(chunks := chunks))
  {
    hide LocksInv, PointersInv, MatchesInv;
    SameStores(s, s.(chunks := chunks));
  }

  lemma ReadMatchKeeps(s: System, key: string, opponent: int)
    requires Inv(s) && Enabled(s, ReadMatch(key, opponent))
    ensures Inv(Next(s, ReadMatch(key, opponent)))
  {
    hide Inv, WorkOk, OpponentChosen;
    var w := Applied(s.o, key, WorkOf(s, key).found, opponent);
    assert WorkOk(s, key, w) by {
      ReadMatchOk(s, key, WorkOf(s, key).found, opponent);
    }
    BusyKeeps(s, key, w, s.chunks);
  }

  lemma ReadMatchOk(s: System, key: string, found: Found, opponent: int)
    requires Inv(s)
    ensures WorkOk(s, key, Idle)
    ensures WorkOk(s, key, Applied(s.o, key, found, opponent))
  {
    hide HasOpponent;
    if ActiveMatch(s.o, found.user).Some? {
      PointerHoldsLock(s, found.user);
    }
  }

  lemma DeletePointersKeeps(s: System, key: string)
    requires Inv(s) && Enabled(s, DeletePointers(key))
    ensures Inv(Next(s, DeletePointers(key)))
  {
  }

  /** The worker holds the record of an ongoing match. */
  predicate HasMatch(w: Work) { w.Scoring? || w.Ending? }

  predicate SameMatch(m: Match, m0: Match) {
    m.id == m0.id && m.chunkId == m0.chunkId && m.userTeams == m0.userTeams && m.teams == m0.teams
  }

  /** Writing the record in the worker's hands again, changed but for the same match. */
  lemma ResaveOwn(s: System, key: string, m: Match, w: Work)
    requires Inv(s) && HasMatch(WorkOf(s, key)) && SameMatch(m, WorkOf(s, key).m)
    requires if m.status == Ongoing then w == Idle || (w.Ending? && w.m == m) else w == Recorded(m)
    ensures Inv(Put(s, key, w, SaveMatch(s.o, m)))
  {
  }

  /** The score is saved only when it changed; that makes no difference. */
  lemma SavedAnyway(s: System, key: string, now: int)
    requires Inv(s) && WorkOf(s, key).Scoring?
    ensures
      var found := WorkOf(s, key).found;
      var m := Scored(WorkOf(s, key).m, found.user, found.response, now);
      && SameMatch(m, WorkOf(s, key).m) && m.status == Ongoing
      && Next(s, SaveScore(key, now)) == Put(s, key, Settled(s.rules, m, found), SaveMatch(s.o, m))
  {
    hide Settled;
    ScoringHolds(s, key);
    var m := WorkOf(s, key).m;
    assert s.o.matches[m.id := m] == s.o.matches;
  }

  lemma SettledWork(rules: Rules, m: Match, found: Found)
    ensures var w := Settled(rules, m, found); w == Idle || (w.Ending? && w.m == m)
  {
    hide SafeCells;
  }

  lemma UnlockFinishedKeeps(s: System, key: string)
    requires Inv(s) && Enabled(s, UnlockFinished(key))
    ensures Inv(Next(s, UnlockFinished(key)))
  {
  }

  lemma AssignmentStepKeeps(s: System, e: Step)
    requires Inv(s) && Enabled(s, e)
    requires OfAssignment(e)
    ensures Inv(Next(s, e))
  {
    if e.id in s.assignments {
      PositiveIds(s, e.id);
    }
    hide Inv, Clean;
    match e
    case Begin(id) => PlainMove(s, id, Searching);
    case ReadFree(id, key) => PlainMove(s, id, Free(key));
    case FirstLook(id) =>
      PlainMove(s, id, if Clean(Board(s, s.assignments[id].key)) then Looked(s.assignments[id].key) else Searching);
    case TryLock(id) => TryLockKeeps(s, id);
    case SecondLook(id, ok) =>
      var key := s.assignments[id].key;
      PlainMove(s, id, Unlocking(key, false));
      PlainMove(s, id, Checked(key));
      PlainMove(s, id, Rejecting(key));
    case SaveNew(id, teams, ok) =>
      if ok {
        SaveNewKeeps(s, id, teams);
      } else {
        PlainMove(s, id, Unlocking(s.assignments[id].key, false));
      }
    case SetPointers(id, ok) =>
      if ok {
        SetPointersKeeps(s, id);
      } else {
        PlainMove(s, id, Unlocking(s.assignments[id].key, true));
      }
    case GiveBack(id, ok) => GiveBackKeeps(s, id, ok);
    case GiveUp(id) => PlainMove(s, id, Failed(false));
  }

  lemma StepKeeps(s: System, e: Step)
    requires Inv(s) && Enabled(s, e)
    ensures Inv(Next(s, e))
  {
    hide Inv, Clean, Reopen, Perform, Applied, Settled, OpponentChosen, Scored;
    match e
    case SaveScore(key, now) =>
      var found := WorkOf(s, key).found;
      var m := Scored(WorkOf(s, key).m, found.user, found.response, now);
      SavedAnyway(s, key, now);
      SettledWork(s.rules, m, found);
      ResaveOwn(s, key, m, Settled(s.rules, m, found));
    case SaveFinished(key) =>
      var m := Won(WorkOf(s, key).m, WorkOf(s, key).team);
      ResaveOwn(s, key, m, Recorded(m));
    case UnlockFinished(key) => UnlockFinishedKeeps(s, key);
    case ReadPointer(key, user) => BusyKeeps(s, key, WorkOf(Next(s, e), key), s.chunks);
    case ReadLock(key) => BusyKeeps(s, key, WorkOf(Next(s, e), key), s.chunks);
    case Write(key, chunk, click, t) => BusyKeeps(s, key, WorkOf(Next(s, e), key), Next(s, e).chunks);
    case Glance(key, now) => GlanceKeeps(s, Next(s, e).chunks);
    case ReadMatch(key, opponent) => ReadMatchKeeps(s, key, opponent);
    case Stop(key) => BusyKeeps(s, key, Idle, s.chunks);
    case DeletePointers(key) => DeletePointersKeeps(s, key);
    case _ => AssignmentStepKeeps(s, e);
  }

  lemma {:induction false} RunKeeps(states: seq<System>, steps: seq<Step>, k: nat)
    requires IsRun(states, steps) && k < |states|
    ensures Inv(states[k])
  {
    hide Next, Enabled;
    if k > 0 {
      hide Inv;
      RunKeeps(states, steps, k - 1);
      StepKeeps(states[k - 1], steps[k - 1]);
    }
  }

  // ---------------------------------------------------------------- what holds between any two store calls

  /** A pointer to an ongoing match implies the lock; so the chunk is open to the players of exactly that match, and two
      such matches never share a chunk. */
  lemma ActiveMatchOwnsChunk(states: seq<System>, steps: seq<Step>, k: nat, user: int, other: int)
    requires IsRun(states, steps) && k < |states| && ActiveMatch(states[k].o, user).Some?
    ensures
      var o := states[k].o;
      var m := ActiveMatch(o, user).value;
      && HoldsLock(o, m)
      && (Authorize(o, other, m.chunkId).Ok? <==> ActiveMatch(o, other) == Some(m))
      && (ActiveMatch(o, other).Some? && ActiveMatch(o, other).value.chunkId == m.chunkId ==>
          ActiveMatch(o, other).value == m)
  {
    RunKeeps(states, steps, k);
    PointerHoldsLock(states[k], user);
    if ActiveMatch(states[k].o, other).Some? {
      PointerHoldsLock(states[k], other);
    }
  }

  lemma PointerHoldsLock(s: System, user: int)
    requires Inv(s) && ActiveMatch(s.o, user).Some?
    ensures var m := ActiveMatch(s.o, user).value;
            && HoldsLock(s.o, m) && m.id in s.o.matches && s.o.matches[m.id] == m && user in m.userTeams
            && At(s, m.id, Done(m.chunkId)) && m.id > 0
  {
    assert s.o.matches[s.o.active[user]].id == s.o.active[user];
  }

  lemma StepKeepsFinished(s: System, e: Step, id: int)
    requires Inv(s) && Enabled(s, e) && id in s.o.matches && s.o.matches[id].status == Finished
    ensures var s' := Next(s, e); id in s'.o.matches && s'.o.matches[id] == s.o.matches[id]
  {
    hide NewMatch, Perform, Applied, Settled, Scored, OpponentChosen, Clean, Reopen;
    if e.SaveScore? {
      SavedAnyway(s, e.key, e.now);
    }
    if e.SaveNew? {
      NewMatchShape(e.id, s.assignments[e.id].key, e.teams);
    }
  }

  /** A finished match, winner included, never changes. */
  lemma {:induction false} FinishedForever(states: seq<System>, steps: seq<Step>, j: nat, k: nat, id: int)
    requires IsRun(states, steps) && j <= k < |states|
    requires id in states[j].o.matches && states[j].o.matches[id].status == Finished
    ensures id in states[k].o.matches && states[k].o.matches[id] == states[j].o.matches[id]
    decreases k
  {
    hide Next, Enabled, Inv;
    if j < k {
      FinishedForever(states, steps, j, k - 1, id);
      RunKeeps(states, steps, k - 1);
      StepKeepsFinished(states[k - 1], steps[k - 1], id);
    }
  }

  // ---------------------------------------------------------------- locks that nobody gives back

  /** Somebody is bound to give the lock back: the assignment that took it, the players of its ongoing match, or the
      worker that is finishing it. */
  ghost predicate Held(s: System, key: string, id: int) {
    || (id in s.assignments && Owning(s.assignments[id]) && s.assignments[id].key == key)
    || (At(s, id, Done(key)) && id in s.o.matches && s.o.matches[id].status == Ongoing)
    || Finishing(s, key, id)
  }

  /** The worker has saved the finished record and not yet released the chunk. */
  predicate Finishing(s: System, key: string, id: int) {
    (WorkOf(s, key).Recorded? || WorkOf(s, key).Deleted?) && WorkOf(s, key).m.id == id
  }

  ghost predicate Leaked(s: System, key: string, id: int) {
    key in s.o.locks && s.o.locks[key] == id && !Held(s, key, id)
  }

  /** A store call that fails after the finished record was saved, or the release of an assignment that fails. */
  predicate BreaksOff(s: System, e: Step, key: string, id: int) {
    || (e == Stop(key) && Finishing(s, key, id))
    || (e == GiveBack(id, false) && id in s.assignments && Owning(s.assignments[id]) && s.assignments[id].key == key)
  }

  /** A lock leaks exactly by such a failure, and stays leaked through every further step. */
  lemma StepLeaks(s: System, e: Step, key: string, id: int)
    requires Inv(s) && Enabled(s, e)
    ensures Leaked(Next(s, e), key, id) <==> Leaked(s, key, id) || BreaksOff(s, e, key, id)
  {
    hide Inv, Perform, Applied, Settled, Scored, OpponentChosen, Clean, Reopen, Held, Leaked, Finishing, BreaksOff;
    match e
    case SaveScore(k, now) => ResaveLeaks(s, e, key, id);
    case SaveFinished(k) => ResaveLeaks(s, e, key, id);
    case UnlockFinished(k) => FinishLeaks(s, e, key, id);
    case DeletePointers(k) => FinishLeaks(s, e, key, id);
    case Stop(k) => StopLeaks(s, k, key, id);
    case ReadPointer(k, user) => WorkLeaks(s, e, key, id);
    case ReadLock(k) => WorkLeaks(s, e, key, id);
    case Write(k, chunk, click, t) => WorkLeaks(s, e, key, id);
    case Glance(k, now) => GlanceLeaks(s, e, key, id);
    case ReadMatch(k, opponent) => WorkLeaks(s, e, key, id);
    case _ => AssignmentLeaks(s, e, key, id);
  }

  lemma ResaveLeaks(s: System, e: Step, key: string, id: int)
    requires Inv(s) && Enabled(s, e) && (e.SaveScore? || e.SaveFinished?)
    ensures Leaked(Next(s, e), key, id) <==> Leaked(s, key, id) || BreaksOff(s, e, key, id)
  {
    ScoringHolds(s, e.key);
    if e.SaveScore? {
      var found := WorkOf(s, e.key).found;
      SavedAnyway(s, e.key, e.now);
      SettledWork(s.rules, Scored(WorkOf(s, e.key).m, found.user, found.response, e.now), found);
    }
    hide Inv, Settled, Scored;
  }

  /** A match that a worker is scoring or ending holds the lock of the worker's chunk. */
  lemma ScoringHolds(s: System, key: string)
    requires Inv(s) && HasMatch(WorkOf(s, key))
    ensures var m := WorkOf(s, key).m;
            && m.status == Ongoing && m.id in s.o.matches && s.o.matches[m.id] == m && m.chunkId == key
            && At(s, m.id, Done(key)) && key in s.o.locks && s.o.locks[key] == m.id
  {
  }

  lemma FinishLeaks(s: System, e: Step, key: string, id: int)
    requires Inv(s) && Enabled(s, e) && (e.UnlockFinished? || e.DeletePointers?)
    ensures Leaked(Next(s, e), key, id) <==> Leaked(s, key, id) || BreaksOff(s, e, key, id)
  {
    hide PointersInv, ActiveMatch;
  }

  lemma StopLeaks(s: System, k: string, key: string, id: int)
    requires Inv(s) && Enabled(s, Stop(k))
    ensures Leaked(Next(s, Stop(k)), key, id) <==> Leaked(s, key, id) || BreaksOff(s, Stop(k), key, id)
  {
    hide PointersInv, ActiveMatch;
  }

  lemma WorkLeaks(s: System, e: Step, key: string, id: int)
    requires Inv(s) && Enabled(s, e) && (e.ReadPointer? || e.ReadLock? || e.Write? || e.ReadMatch?)
    ensures Leaked(Next(s, e), key, id) <==> Leaked(s, key, id) || BreaksOff(s, e, key, id)
  {
    hide Inv;
    hide Perform, Applied, OpponentChosen;
    if e.ReadMatch? {
      NotFinishing(s.o, e.key, WorkOf(s, e.key).found, e.opponent);
    }
  }

  lemma NotFinishing(o: Overlay, key: string, found: Found, opponent: int)
    ensures var w := Applied(o, key, found, opponent); !w.Recorded? && !w.Deleted? && !w.Authorised?
  {
    hide HasOpponent, ActiveMatch;
  }

  lemma GlanceLeaks(s: System, e: Step, key: string, id: int)
    requires Inv(s) && Enabled(s, e) && e.Glance?
    ensures Leaked(Next(s, e), key, id) <==> Leaked(s, key, id) || BreaksOff(s, e, key, id)
  {
    hide Reopen;
  }

  /** A stage change under which the assignment owns what it owned before. */
  lemma MoveLeaks(s: System, id: int, a: Assignment, o: Overlay, key: string, other: int)
    requires Inv(s) && !a.Done? && (id in s.assignments ==> !s.assignments[id].Done?) && o.locks == s.o.locks
    requires forall k :: k != id ==>
               (k in o.matches <==> k in s.o.matches) && (k in s.o.matches ==> o.matches[k] == s.o.matches[k])
    requires Owning(a) <==> id in s.assignments && Owning(s.assignments[id])
    requires Owning(a) ==> a.key == s.assignments[id].key
    ensures Leaked(Move(s, id, a, o), key, other) <==> Leaked(s, key, other)
  {
    hide Inv;
  }

  lemma LockLeaks(s: System, id: int, key: string, other: int)
    requires Inv(s) && Enabled(s, TryLock(id))
    ensures Leaked(Next(s, TryLock(id)), key, other) <==> Leaked(s, key, other)
  {
    if s.assignments[id].key in s.o.locks {
      MoveLeaks(s, id, Searching, s.o, key, other);
    }
  }

  lemma PointersLeak(s: System, id: int, key: string, other: int)
    requires Inv(s) && Enabled(s, SetPointers(id, true))
    ensures Leaked(Next(s, SetPointers(id, true)), key, other) <==> Leaked(s, key, other)
  {
    hide SetActive, PointersInv, WorkersInv;
    assert SetActive(s.o, s.o.matches[id]).locks == s.o.locks
        && SetActive(s.o, s.o.matches[id]).matches == s.o.matches by {
      SetActiveStores(s.o, s.o.matches[id]);
    }
  }

  lemma SetActiveStores(o: Overlay, m: Match)
    ensures SetActive(o, m).locks == o.locks && SetActive(o, m).matches == o.matches
  {
  }

  lemma GiveBackLeaks(s: System, id: int, ok: bool, key: string, other: int)
    requires Inv(s) && Enabled(s, GiveBack(id, ok))
    ensures Leaked(Next(s, GiveBack(id, ok)), key, other) <==>
              Leaked(s, key, other) || BreaksOff(s, GiveBack(id, ok), key, other)
  {
    hide PointersInv;
  }

  lemma AssignmentLeaks(s: System, e: Step, key: string, id: int)
    requires Inv(s) && Enabled(s, e)
    requires OfAssignment(e)
    ensures Leaked(Next(s, e), key, id) <==> Leaked(s, key, id) || BreaksOff(s, e, key, id)
  {
    hide Clean, NewMatch, Leaked, Inv;
    if e.TryLock? {
      LockLeaks(s, e.id, key, id);
    } else if e.GiveBack? {
      GiveBackLeaks(s, e.id, e.ok, key, id);
    } else if e.SetPointers? && e.ok {
      PointersLeak(s, e.id, key, id);
    } else {
      var s' := Next(s, e);
      if e.SaveNew? {
        NewMatchShape(e.id, s.assignments[e.id].key, e.teams);
      }
      MoveLeaks(s, e.id, s'.assignments[e.id], s'.o, key, id);
    }
  }

  /** In every run, a lock is leaked exactly when an earlier step broke off before giving it back; so it stays for
      ever. */
  lemma {:induction false} LeaksComeFromFailures(states: seq<System>, steps: seq<Step>, k: nat, key: string, id: int)
    requires IsRun(states, steps) && k < |states|
    ensures Leaked(states[k], key, id) <==> exists j :: 0 <= j < k && BreaksOff(states[j], steps[j], key, id)
  {
    hide Next, Enabled, Inv, BreaksOff;
    if k > 0 {
      hide Leaked;
      LeaksComeFromFailures(states, steps, k - 1, key, id);
      RunKeeps(states, steps, k - 1);
      StepLeaks(states[k - 1], steps[k - 1], key, id);
    }
  }

  /** A leaked lock shuts its chunk to everybody. */
  lemma LeakedRefusesAll(s: System, key: string, id: int, user: int)
    requires Inv(s) && Leaked(s, key, id)
    ensures Authorize(s.o, user, key).Err?
  {
    if ActiveMatch(s.o, user).Some? {
      PointerHoldsLock(s, user);
    }
  }

  /** A finished match holds a lock only while its worker is finishing it, or for ever after the worker broke off. */
  lemma FinishedHoldsLock(states: seq<System>, steps: seq<Step>, k: nat, key: string, id: int)
    requires IsRun(states, steps) && k < |states| && id in states[k].o.matches
               && states[k].o.matches[id].status == Finished
    ensures (key in states[k].o.locks && states[k].o.locks[key] == id) <==>
              Finishing(states[k], key, id) || exists j :: 0 <= j < k && BreaksOff(states[j], steps[j], key, id)
  {
    LeaksComeFromFailures(states, steps, k, key, id);
    RunKeeps(states, steps, k);
    hide BreaksOff, IsRun;
  }

  /** An assignment that has failed is named by no pointer. Its record is left behind exactly when the call that
      failed was the one that sets the pointers, and a lock exactly when giving it back failed too. */
  lemma FailedAssignmentLeavesNothing(states: seq<System>, steps: seq<Step>, k: nat, id: int, key: string)
    requires IsRun(states, steps) && k < |states| && id in states[k].assignments && states[k].assignments[id].Failed?
    ensures
      var o := states[k].o;
      && (forall u :: u in o.active ==> o.active[u] != id)
      && (id in o.matches <==> states[k].assignments[id].recorded)
      && ((key in o.locks && o.locks[key] == id) <==> exists j :: 0 <= j < k && BreaksOff(states[j], steps[j], key, id))
  {
    LeaksComeFromFailures(states, steps, k, key, id);
    RunKeeps(states, steps, k);
    hide BreaksOff, IsRun;
  }

  // ---------------------------------------------------------------- strangers in a match chunk

  /** All that is on a board belongs to the given users. */
  ghost predicate OwnedBy(c: Chunk, users: map<int, int>) {
    && (forall i :: i in c.cells ==> c.cells[i].openedBy in users)
    && (forall i :: i in c.flaggedBy ==> c.flaggedBy[i] in users)
  }

  /** Every open cell and every flag in the chunk of an active match belongs to one of its players. */
  ghost predicate NoStranger(s: System) {
    forall u :: ActiveMatch(s.o, u).Some? ==>
      var m := ActiveMatch(s.o, u).value; OwnedBy(Board(s, m.chunkId), m.userTeams)
  }

  /** No second look finds a chunk clean while its worker is between an authorisation and the write it allows. */
  ghost predicate NoLateWriter(states: seq<System>, steps: seq<Step>)
    requires |states| == |steps| + 1
  {
    forall k :: 0 <= k < |steps| && steps[k].SecondLook? && Enabled(states[k], steps[k]) ==>
        NotLate(states[k], steps[k].id)
  }

  ghost predicate NotLate(s: System, id: int) {
    id in s.assignments && s.assignments[id].Locked? && Clean(Board(s, s.assignments[id].key)) ==>
      !WorkOf(s, s.assignments[id].key).Authorised?
  }

  /** While a match owns its chunk after the second look, everything on the board is the players', and only a player may
      still write; before its pointers are set that means nothing and nobody. */
  ghost predicate GuardedInv(s: System) {
    && (forall id :: id in s.assignments && (s.assignments[id].Checked? || s.assignments[id].Saved?) ==>
          Clean(Board(s, s.assignments[id].key)) && !WorkOf(s, s.assignments[id].key).Authorised?)
    && (forall id ::
          id in s.assignments && s.assignments[id].Done? && id in s.o.matches && s.o.matches[id].status == Ongoing ==>
            var m := s.o.matches[id];
            && OwnedBy(Board(s, m.chunkId), m.userTeams)
            && (WorkOf(s, m.chunkId).Authorised? ==> WorkOf(s, m.chunkId).user in m.userTeams))
  }

  lemma CleanIsOwned(c: Chunk, users: map<int, int>)
    requires Clean(c)
    ensures OwnedBy(c, users)
  {
  }

  lemma WroteIsOwned(before: Chunk, after: Chunk, user: int, users: map<int, int>)
    requires OwnedBy(before, users) && Wrote(before, after, user) && user in users
    ensures OwnedBy(after, users)
  {
  }

  lemma ReopenedIsOwned(c: Chunk, now: int, closure: int, users: map<int, int>)
    ensures OwnedBy(Reopen(c, now, closure), users) <==> OwnedBy(c, users)
    ensures Clean(c) ==> Reopen(c, now, closure) == c
  {
  }

  /** An ongoing match whose assignment is done plays in the chunk. */
  predicate PlayingAt(s: System, id: int, key: string) {
    && id in s.assignments && s.assignments[id].Done? && id in s.o.matches && s.o.matches[id].status == Ongoing
    && s.o.matches[id].chunkId == key
  }

  /** A worker passes the authorisation only as a player, while a match owns its chunk. */
  lemma AllowedWorker(s: System, e: Step, id: int)
    requires Inv(s) && Enabled(s, e) && (e.ReadPointer? || e.ReadLock?) && WorkOf(Next(s, e), e.key).Authorised?
    ensures id in s.assignments && Owning(s.assignments[id]) ==> s.assignments[id].key != e.key
    ensures PlayingAt(s, id, e.key) ==> WorkOf(Next(s, e), e.key).user in s.o.matches[id].userTeams
  {
    if e.ReadPointer? {
      PointerHoldsLock(s, e.user);
    } else if id in s.assignments {
      PositiveIds(s, id);
    }
  }

  lemma GuardedAllow(s: System, e: Step)
    requires Inv(s) && GuardedInv(s) && Enabled(s, e) && (e.ReadPointer? || e.ReadLock?)
    ensures GuardedInv(Next(s, e))
  {
    var s' := Next(s, e);
    if WorkOf(s', e.key).Authorised? {
      forall id
        ensures id in s.assignments && Owning(s.assignments[id]) ==> s.assignments[id].key != e.key
        ensures PlayingAt(s, id, e.key) ==> WorkOf(s', e.key).user in s.o.matches[id].userTeams
      {
        AllowedWorker(s, e, id);
      }
    }
    AllowedIsGuarded(s, s', e.key);
  }

  /** A worker's authorisation that lets in nobody while an assignment owns the chunk, and then only players. */
  lemma AllowedIsGuarded(s: System, s': System, key: string)
    requires GuardedInv(s) && s'.assignments == s.assignments && s'.o == s.o && s'.chunks == s.chunks
    requires forall other :: other != key ==> WorkOf(s', other) == WorkOf(s, other)
    requires WorkOf(s', key).Authorised? ==>
               forall id :: id in s.assignments && Owning(s.assignments[id]) ==> s.assignments[id].key != key
    requires WorkOf(s', key).Authorised? ==>
               forall id :: PlayingAt(s, id, key) ==> WorkOf(s', key).user in s.o.matches[id].userTeams
    ensures GuardedInv(s')
  {
    hide WorkOf, Clean, OwnedBy;
    assert forall other :: Board(s', other) == Board(s, other);
    hide Board;
  }

  lemma StoreBoard(s: System, key: string, c: Chunk, s': System)
    requires s'.chunks == Store(s.chunks, key, c)
    ensures Board(s', key) == c
    ensures forall other :: other != key ==> Board(s', other) == Board(s, other)
  {
  }

  lemma GuardedWrite(s: System, key: string, chunk: ChunkID, click: Click, t: Times)
    requires GuardedInv(s) && Enabled(s, Write(key, chunk, click, t))
    ensures GuardedInv(Next(s, Write(key, chunk, click, t)))
  {
    hide Clean, OwnedBy, Wrote, Perform, Store;
    var s' := Next(s, Write(key, chunk, click, t));
    var user := WorkOf(s, key).user;
    var after := Perform(s.rules, Board(s, key), user, chunk, click, t).0;
    PerformWrites(s.rules, Board(s, key), user, chunk, click, t);
    StoreBoard(s, key, after, s');
    var before := Board(s, key);
    hide Board;
    forall id | id in s.assignments && s.assignments[id].Done? && id in s.o.matches && s.o.matches[id].status == Ongoing
      ensures OwnedBy(Board(s', s.o.matches[id].chunkId), s.o.matches[id].userTeams)
    {
      if s.o.matches[id].chunkId == key {
        WroteIsOwned(before, after, user, s.o.matches[id].userTeams);
      }
    }
  }

  lemma GuardedGlance(s: System, key: string, now: int)
    requires GuardedInv(s)
    ensures GuardedInv(Next(s, Glance(key, now)))
  {
    hide Clean, OwnedBy, Reopen, Store;
    var s' := Next(s, Glance(key, now));
    var before, closure := Board(s, key), s.rules.closure;
    StoreBoard(s, key, Reopen(before, now, closure), s');
    hide Board;
    forall id | id in s.assignments && s.assignments[id].Done? && id in s.o.matches && s.o.matches[id].status == Ongoing
      ensures OwnedBy(Board(s', s.o.matches[id].chunkId), s.o.matches[id].userTeams)
    {
      ReopenedIsOwned(before, now, closure, s.o.matches[id].userTeams);
    }
    ReopenedIsOwned(before, now, closure, map[]);
  }

  /** Worker steps that leave records, assignments and boards alone and let nobody new in. */
  lemma GuardedQuiet(s: System, s': System, key: string)
    requires GuardedInv(s) && s'.assignments == s.assignments && s'.o.matches == s.o.matches && s'.chunks == s.chunks
    requires forall other :: other != key ==> WorkOf(s', other) == WorkOf(s, other)
    requires !WorkOf(s', key).Authorised?
    ensures GuardedInv(s')
  {
    hide WorkOf, Clean, OwnedBy;
    assert forall other :: Board(s', other) == Board(s, other);
  }

  /** Writing the record in the worker's hands again lets nobody in either. */
  lemma GuardedResave(s: System, key: string, m: Match, w: Work)
    requires Inv(s) && GuardedInv(s) && HasMatch(WorkOf(s, key)) && !w.Authorised?
    requires SameMatch(m, WorkOf(s, key).m)
    ensures GuardedInv(Put(s, key, w, SaveMatch(s.o, m)))
  {
    ScoringHolds(s, key);
    hide Inv, Clean, OwnedBy;
    var s' := Put(s, key, w, SaveMatch(s.o, m));
    assert forall other :: Board(s', other) == Board(s, other);
  }

  /** Assignment steps that pass no second look and write no record. */
  lemma GuardedMove(s: System, id: int, a: Assignment, o: Overlay)
    requires GuardedInv(s) && !a.Checked? && !a.Saved? && !a.Done? && o.matches == s.o.matches
    ensures GuardedInv(Move(s, id, a, o))
  {
    hide Clean, OwnedBy;
    SameChunks(s, id, a, o);
    hide Board, WorkOf;
  }

  lemma SameChunks(s: System, id: int, a: Assignment, o: Overlay)
    ensures forall key :: Board(Move(s, id, a, o), key) == Board(s, key)
              && WorkOf(Move(s, id, a, o), key) == WorkOf(s, key)
  {
  }

  lemma GuardedSecondLook(s: System, id: int)
    requires GuardedInv(s) && Enabled(s, SecondLook(id, true)) && NotLate(s, id)
               && Clean(Board(s, s.assignments[id].key))
    ensures GuardedInv(Next(s, SecondLook(id, true)))
  {
    hide Clean, OwnedBy;
    SameChunks(s, id, Checked(s.assignments[id].key), s.o);
    hide Board, WorkOf;
  }

  lemma GuardedSaveNew(s: System, id: int, teams: seq<Team>)
    requires Inv(s) && GuardedInv(s) && Enabled(s, SaveNew(id, teams, true))
    ensures GuardedInv(Next(s, SaveNew(id, teams, true)))
  {
    hide NewMatch, LocksInv, PointersInv, WorkersInv, Clean, OwnedBy;
    var key := s.assignments[id].key;
    NewMatchShape(id, key, teams);
    SameChunks(s, id, Saved(key), SaveMatch(s.o, NewMatch(id, key, teams)));
    hide Board, WorkOf;
  }

  lemma GuardedSetPointers(s: System, id: int)
    requires Inv(s) && GuardedInv(s) && Enabled(s, SetPointers(id, true))
    ensures GuardedInv(Next(s, SetPointers(id, true)))
  {
    CleanIsOwned(Board(s, s.assignments[id].key), s.o.matches[id].userTeams);
    hide LocksInv, PointersInv, WorkersInv, Clean, OwnedBy;
    SameChunks(s, id, Done(s.assignments[id].key), SetActive(s.o, s.o.matches[id]));
    hide Board, WorkOf;
  }

  lemma UnlockKeepsMatches(o: Overlay, key: string, id: int)
    ensures Unlock(o, key, id).matches == o.matches
  {
  }

  lemma GuardedAssignment(s: System, e: Step)
    requires Inv(s) && GuardedInv(s) && Enabled(s, e)
    requires OfAssignment(e)
    requires e.SecondLook? ==> NotLate(s, e.id)
    ensures GuardedInv(Next(s, e))
  {
    hide GuardedInv, Inv, Clean, NotLate;
    match e
    case SecondLook(id, ok) =>
      var key := s.assignments[id].key;
      if ok && Clean(Board(s, key)) {
        GuardedSecondLook(s, id);
      } else {
        GuardedMove(s, id, if ok then Rejecting(key) else Unlocking(key, false), s.o);
      }
    case SaveNew(id, teams, ok) =>
      if ok {
        GuardedSaveNew(s, id, teams);
      } else {
        GuardedMove(s, id, Unlocking(s.assignments[id].key, false), s.o);
      }
    case SetPointers(id, ok) =>
      if ok {
        GuardedSetPointers(s, id);
      } else {
        GuardedMove(s, id, Unlocking(s.assignments[id].key, true), s.o);
      }
    case GiveBack(id, ok) =>
      var a := s.assignments[id];
      UnlockKeepsMatches(s.o, a.key, id);
      GuardedMove(s, id, if a.Rejecting? then Searching else Failed(a.recorded), if ok then Unlock(s.o, a.key, id)
          else s.o);
    case TryLock(id) =>
      var key := s.assignments[id].key;
      GuardedMove(s, id, if key in s.o.locks then Searching else Locked(key), if key in s.o.locks then s.o
          else Lock(s.o, key, id));
    case FirstLook(id) =>
      var key := s.assignments[id].key;
      GuardedMove(s, id, if Clean(Board(s, key)) then Looked(key) else Searching, s.o);
    case Begin(id) => GuardedMove(s, id, Searching, s.o);
    case ReadFree(id, key) => GuardedMove(s, id, Free(key), s.o);
    case GiveUp(id) => GuardedMove(s, id, Failed(false), s.o);
  }

  lemma GuardedStep(s: System, e: Step)
    requires Inv(s) && GuardedInv(s) && Enabled(s, e)
    requires e.SecondLook? ==> NotLate(s, e.id)
    ensures GuardedInv(Next(s, e))
  {
    hide GuardedInv, Inv, Clean, Perform, Applied, Settled, Scored, OpponentChosen, Reopen, NotLate;
    match e
    case ReadPointer(key, user) => GuardedAllow(s, e);
    case ReadLock(key) => GuardedAllow(s, e);
    case Write(key, chunk, click, t) => GuardedWrite(s, key, chunk, click, t);
    case Glance(key, now) => GuardedGlance(s, key, now);
    case SaveScore(key, now) =>
      var found := WorkOf(s, key).found;
      var m := Scored(WorkOf(s, key).m, found.user, found.response, now);
      SavedAnyway(s, key, now);
      SettledWork(s.rules, m, found);
      GuardedResave(s, key, m, Settled(s.rules, m, found));
    case SaveFinished(key) =>
      var m := Won(WorkOf(s, key).m, WorkOf(s, key).team);
      GuardedResave(s, key, m, Recorded(m));
    case UnlockFinished(key) =>
      UnlockKeepsMatches(s.o, key, WorkOf(s, key).m.id);
      GuardedQuiet(s, Next(s, e), key);
    case ReadMatch(key, opponent) =>
      NotFinishing(s.o, key, WorkOf(s, key).found, opponent);
      GuardedQuiet(s, Next(s, e), key);
    case Stop(key) => GuardedQuiet(s, Next(s, e), key);
    case DeletePointers(key) => GuardedQuiet(s, Next(s, e), key);
    case _ => GuardedAssignment(s, e);
  }

  lemma {:induction false} GuardedRun(states: seq<System>, steps: seq<Step>, k: nat)
    requires IsRun(states, steps) && NoLateWriter(states, steps) && k < |states|
    ensures GuardedInv(states[k])
  {
    hide Next, Inv, NotLate;
    if k > 0 {
      hide GuardedInv, Enabled;
      GuardedRun(states, steps, k - 1);
      RunKeeps(states, steps, k - 1);
      GuardedStep(states[k - 1], steps[k - 1]);
    }
  }

  /** If no second look that finds the chunk clean falls between an authorisation and its write, nothing of a
      stranger is on the board of a match chunk. */
  lemma NoStrangerWithoutLateWriter(states: seq<System>, steps: seq<Step>, k: nat)
    requires IsRun(states, steps) && NoLateWriter(states, steps) && k < |states|
    ensures NoStranger(states[k])
  {
    hide OwnedBy, Clean;
    RunKeeps(states, steps, k);
    GuardedRun(states, steps, k);
    forall u | ActiveMatch(states[k].o, u).Some?
      ensures var m := ActiveMatch(states[k].o, u).value; OwnedBy(Board(states[k], m.chunkId), m.userTeams)
    {
      PointerHoldsLock(states[k], u);
    }
  }
}
