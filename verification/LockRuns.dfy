/** Particular runs of the lock protocol: an operation that nobody disturbs is the atomic one of `ChunkService`, and
    what failures and late writers can leave behind is reached through requests that players really make. */
module LockRuns {
  import opened Wrappers
  import opened ChunkIds
  import opened MineField
  import opened ChunkState
  import opened Cascade
  import opened ChunkMachine
  import opened MineMatch
  import opened MatchOverlay
  import opened ChunkService
  import opened LockProtocol

  // ---------------------------------------------------------------- operations that nobody disturbs

  /** Deleting the pointers and unlocking, up to the first call that fails. */
  ghost function ReleaseSteps(s: System, key: string, calls: FinishCalls): System
    requires WorkOf(s, key).Recorded?
  {
    if !calls.delete then Next(s, Stop(key))
    else Next(Next(s, DeletePointers(key)), if calls.unlock then UnlockFinished(key) else Stop(key))
  }

  /** The calls of finishMatch up to the first that fails. */
  ghost function FinishSteps(s: System, key: string, calls: FinishCalls): System
    requires WorkOf(s, key).Ending?
  {
    if !calls.result || !calls.save then Next(s, Stop(key)) else ReleaseSteps(Next(s, SaveFinished(key)), key, calls)
  }

  /** Saving the score, and the end of the match when the board is complete. */
  ghost function ScoreSteps(s: System, key: string, now: int, calls: ApplyCalls): System
    requires WorkOf(s, key).Scoring?
  {
    if WorkOf(s, key).found.response.newOpenedCount > 0 && !calls.score then Next(s, Stop(key))
    else
      var scored := Next(s, SaveScore(key, now));
      if WorkOf(scored, key).Ending? then FinishSteps(scored, key, calls.finish) else scored
  }

  /** The calls of ApplyOpenResult up to the first that fails. */
  ghost function ApplySteps(s: System, key: string, opponent: int, now: int, calls: ApplyCalls): System
    requires Enabled(s, ReadMatch(key, opponent))
  {
    if !calls.read then Next(s, Stop(key))
    else
      var read := Next(s, ReadMatch(key, opponent));
      if WorkOf(read, key).Ending? then FinishSteps(read, key, calls.finish)
      else if WorkOf(read, key).Scoring? then ScoreSteps(read, key, now, calls)
      else read
  }

  /** The two reads of the authorisation. */
  ghost function AuthorizeSteps(s: System, user: int, key: string): System
    requires WorkOf(s, key).Idle?
  {
    var pointed := Next(s, ReadPointer(key, user));
    if WorkOf(pointed, key).Asked? then Next(pointed, ReadLock(key)) else pointed
  }

  lemma ReleaseStepsAreFinish(s: System, key: string, calls: FinishCalls)
    requires WorkOf(s, key).Recorded? && WorkOf(s, key).m.chunkId == key
    ensures
      var s', m := ReleaseSteps(s, key, calls), WorkOf(s, key).m;
      && s' == s.(o := s'.o, workers := s'.workers) && WorkOf(s', key) == Idle
      && s'.o == if !calls.delete then s.o
                 else if calls.unlock then Unlock(DeleteActive(s.o, m), key, m.id) else DeleteActive(s.o, m)
  {
    hide DeleteActive, Unlock;
  }

  lemma FinishStepsAreFinish(s: System, key: string, calls: FinishCalls)
    requires WorkOf(s, key).Ending? && WorkOf(s, key).m.status == Ongoing && WorkOf(s, key).m.chunkId == key
    ensures
      var s' := FinishSteps(s, key, calls);
      && s' == s.(o := s'.o, workers := s'.workers) && WorkOf(s', key) == Idle
      && s'.o == FinishWith(s.o, WorkOf(s, key).m, WorkOf(s, key).team, calls).0
  {
    hide DeleteActive, Unlock, SaveMatch, ReleaseSteps;
    if calls.result && calls.save {
      ReleaseStepsAreFinish(Next(s, SaveFinished(key)), key, calls);
    }
  }

  lemma ScoreStepsAreApply(s: System, key: string, now: int, calls: ApplyCalls)
    requires WorkOf(s, key).Scoring? && WorkOf(s, key).m.status == Ongoing && WorkOf(s, key).m.chunkId == key
    ensures
      var found, m, s' := WorkOf(s, key).found, WorkOf(s, key).m, ScoreSteps(s, key, now, calls);
      var scored := Scored(m, found.user, found.response, now);
      var saved := if found.response.newOpenedCount > 0 then SaveMatch(s.o, scored) else s.o;
      && s' == s.(o := s'.o, workers := s'.workers) && WorkOf(s', key) == Idle
      && s'.o == if found.response.newOpenedCount > 0 && !calls.score then s.o
                 else if Settled(s.rules, scored, found).Idle? then saved
                 else FinishWith(saved, scored, Settled(s.rules, scored, found).team, calls.finish).0
  {
    hide Settled, SaveMatch, FinishSteps, FinishWith;
    if !(WorkOf(s, key).found.response.newOpenedCount > 0 && !calls.score) {
      var scored := Next(s, SaveScore(key, now));
      SettledWork(s.rules, Scored(WorkOf(s, key).m, WorkOf(s, key).found.user, WorkOf(s, key).found.response, now),
          WorkOf(s, key).found);
      if WorkOf(scored, key).Ending? {
        FinishStepsAreFinish(scored, key, calls.finish);
      }
    }
  }

  /** The steps of a worker, with a failure at any call, are the function that specifies ApplyOpenResult. */
  lemma ApplyStepsAreApply(s: System, key: string, opponent: int, now: int, calls: ApplyCalls)
    requires Enabled(s, ReadMatch(key, opponent)) && Print(WorkOf(s, key).found.chunk) == key
    ensures
      var found, s' := WorkOf(s, key).found, ApplySteps(s, key, opponent, now, calls);
      && s' == s.(o := s'.o, workers := s'.workers) && WorkOf(s', key) == Idle
      && s'.o == ApplyOpenWith(s.o, Site(s.rules.season, found.chunk), found.user, key, found.board, found.response,
                               now, calls, opponent).0
  {
    hide OpponentChosen, HasOpponent, SafeCells, FinishWith, FinishSteps, ScoreSteps, Print, Scored, SaveMatch;
    if calls.read {
      var read := Next(s, ReadMatch(key, opponent));
      if WorkOf(read, key).Ending? {
        FinishStepsAreFinish(read, key, calls.finish);
      } else if WorkOf(read, key).Scoring? {
        ScoreStepsAreApply(read, key, now, calls);
      }
    }
  }

  lemma AuthorizeStepsAreAuthorize(s: System, user: int, key: string)
    requires WorkOf(s, key).Idle?
    ensures var s' := AuthorizeSteps(s, user, key);
            && s' == s.(workers := s'.workers)
            && WorkOf(s', key) == if Authorize(s.o, user, key).Ok? then Authorised(user) else Idle
  {
    hide ActiveMatch, LockOf;
  }

  /** The write of the board and, for an open that went well, the calls to the match store. */
  ghost function WriteSteps(s: System, chunk: ChunkID, click: Click, t: Times, calls: ApplyCalls, opponent: int)
    : System
    requires Playable(chunk) && ChunkCellIndex(click.x, click.y).Some? && WorkOf(s, Print(chunk)).Authorised?
    requires OpponentChosen(s.o, WorkOf(s, Print(chunk)).user, opponent)
  {
    var written := Next(s, Write(Print(chunk), chunk, click, t));
    if WorkOf(written, Print(chunk)).Applying? then ApplySteps(written, Print(chunk), opponent, t.score, calls)
    else written
  }

  /** The calls to the chunk store, and what follows, once the request is allowed. */
  ghost function BoardSteps(s: System, chunk: ChunkID, click: Click, t: Times, calls: OperationCalls, opponent: int)
    : System
    requires Playable(chunk) && ChunkCellIndex(click.x, click.y).Some? && WorkOf(s, Print(chunk)).Authorised?
    requires OpponentChosen(s.o, WorkOf(s, Print(chunk)).user, opponent)
  {
    var key := Print(chunk);
    var c, lifted := Board(s, key), Reopen(Board(s, key), t.reopen, s.rules.closure);
    if calls.store.LoadFails? || (calls.store.ReopenFails? && lifted != c) then Next(s, Stop(key))
    else if calls.store.SaveFails? && Perform(s.rules, c, WorkOf(s, key).user, chunk, click, t).0 != lifted
    then Next(Next(s, Glance(key, t.reopen)), Stop(key))
    else WriteSteps(s, chunk, click, t, calls.apply, opponent)
  }

  /** One request from the authorisation on, up to the first call that fails. */
  ghost function RequestSteps(s: System, user: int, chunk: ChunkID, click: Click, t: Times, calls: OperationCalls,
      opponent: int): System
    requires Playable(chunk) && ChunkCellIndex(click.x, click.y).Some? && WorkOf(s, Print(chunk)).Idle?
    requires OpponentChosen(s.o, user, opponent)
  {
    AuthorizeStepsAreAuthorize(s, user, Print(chunk));
    var allowed := AuthorizeSteps(s, user, Print(chunk));
    if !calls.authorize then s
    else if WorkOf(allowed, Print(chunk)).Authorised? then BoardSteps(allowed, chunk, click, t, calls, opponent)
    else allowed
  }

  /** What an allowed request leaves in the stores. */
  ghost predicate LeftBy(s: System, s': System, user: int, chunk: ChunkID, click: Click, t: Times,
      calls: OperationCalls, opponent: int)
    requires Playable(chunk) && ChunkCellIndex(click.x, click.y).Some?
  {
    var key, site := Print(chunk), Site(s.rules.season, chunk);
    var c, lifted := Board(s, key), Reopen(Board(s, key), t.reopen, s.rules.closure);
    match click
    case Open(x, y) =>
      var body := Committed(c, lifted, OpenBody(site, lifted, user, x, y, t.body, s.rules.closure), calls.store);
      && s'.chunks == Store(s.chunks, key, body.0)
      && s'.o == (if body.1.Err? then s.o else
          ApplyOpenWith(s.o, site, user, key, body.0, body.1.value, t.score, calls.apply, opponent).0)
    case Flag(x, y, flagged) =>
      s'.o == s.o
      && s'.chunks == Store(s.chunks, key, Committed(c, lifted, FlagBody(lifted, user, x, y, flagged), calls.store).0)
  }

  lemma StoreSame(s: System, key: string)
    ensures Store(s.chunks, key, Board(s, key)) == s.chunks
  {
  }

  lemma WriteStepsLeave(s: System, chunk: ChunkID, click: Click, t: Times, calls: ApplyCalls, opponent: int)
    requires Playable(chunk) && ChunkCellIndex(click.x, click.y).Some? && WorkOf(s, Print(chunk)).Authorised?
    requires OpponentChosen(s.o, WorkOf(s, Print(chunk)).user, opponent)
    ensures
      var s', user := WriteSteps(s, chunk, click, t, calls, opponent), WorkOf(s, Print(chunk)).user;
      && WorkOf(s', Print(chunk)) == Idle && s'.assignments == s.assignments
      && LeftBy(s, s', user, chunk, click, t, OperationCalls(true, Works, calls), opponent)
  {
    hide OpponentChosen, OpenBody, FlagBody, Reopen, ApplyOpenWith, ApplySteps, Print, Store, Board;
    var key := Print(chunk);
    var written := Next(s, Write(key, chunk, click, t));
    if WorkOf(written, key).Applying? {
      ApplyStepsAreApply(written, key, opponent, t.score, calls);
    }
  }

  lemma BoardStepsLeave(s: System, chunk: ChunkID, click: Click, t: Times, calls: OperationCalls, opponent: int)
    requires Playable(chunk) && ChunkCellIndex(click.x, click.y).Some? && WorkOf(s, Print(chunk)).Authorised?
    requires OpponentChosen(s.o, WorkOf(s, Print(chunk)).user, opponent)
    ensures
      var s' := BoardSteps(s, chunk, click, t, calls, opponent);
      && WorkOf(s', Print(chunk)) == Idle && s'.assignments == s.assignments
      && LeftBy(s, s', WorkOf(s, Print(chunk)).user, chunk, click, t, calls, opponent)
  {
    hide OpponentChosen, OpenBody, FlagBody, Reopen, ApplyOpenWith, WriteSteps, Print, Store, Board;
    StoreSame(s, Print(chunk));
    WriteStepsLeave(s, chunk, click, t, calls.apply, opponent);
  }

  /** Undisturbed, the steps of one request do what the atomic operations of `ChunkService` do, with a failure at any
      store call. */
  lemma RequestStepsAreAtomic(s: System, user: int, chunk: ChunkID, click: Click, t: Times, calls: OperationCalls,
      opponent: int)
    requires Playable(chunk) && ChunkCellIndex(click.x, click.y).Some? && WorkOf(s, Print(chunk)).Idle?
    requires OpponentChosen(s.o, user, opponent)
    ensures
      var s', w := RequestSteps(s, user, chunk, click, t, calls, opponent), MapState(s.chunks, s.o);
      && WorkOf(s', Print(chunk)) == Idle && s'.assignments == s.assignments
      && MapState(s'.chunks, s'.o) ==
        match click
        case Open(x, y) => OpenOpWith(s.rules, w, user, chunk, x, y, t, calls, opponent).0
        case Flag(x, y, flagged) =>
          FlagOpWith(s.rules, w, user, chunk, x, y, flagged, t, calls.authorize, calls.store).0
  {
    hide OpponentChosen, Authorize, AuthorizeSteps, OpenBody, FlagBody, Reopen, ApplyOpenWith, BoardSteps, Print,
      ChunkService.Put, Committed;
    AuthorizeStepsAreAuthorize(s, user, Print(chunk));
    var allowed := AuthorizeSteps(s, user, Print(chunk));
    if calls.authorize && WorkOf(allowed, Print(chunk)).Authorised? {
      BoardStepsLeave(allowed, chunk, click, t, calls, opponent);
    }
  }

  // ---------------------------------------------------------------- assignments that nobody disturbs

  /** One chunk of the order: the assignment goes on searching, fails, or owns the chunk after its second look. */
  ghost function TryChunk(s: System, id: int, key: string, tr: Trouble): System
    requires At(s, id, Searching)
  {
    if key in tr.lockRead then Next(s, GiveUp(id))
    else if LockOf(s.o, key) != 0 then s
    else LookAt(Next(s, ReadFree(id, key)), id, tr)
  }

  ghost function LookAt(s: System, id: int, tr: Trouble): System
    requires id in s.assignments && s.assignments[id].Free?
  {
    if s.assignments[id].key in tr.firstLook then Next(s, GiveUp(id))
    else
      var looked := Next(s, FirstLook(id));
      if looked.assignments[id].Looked? then LockIt(looked, id, tr) else looked
  }

  ghost function LockIt(s: System, id: int, tr: Trouble): System
    requires id in s.assignments && s.assignments[id].Looked?
  {
    var key := s.assignments[id].key;
    if key in tr.tryLock then Next(s, GiveUp(id))
    else
      var locked := Next(s, TryLock(id));
      if !locked.assignments[id].Locked? then locked
      else if key in tr.secondLook then
        Next(Next(locked, SecondLook(id, false)), GiveBack(id, key !in tr.giveBack))
      else Next(locked, SecondLook(id, true))
  }

  /** The search through the whole order. */
  ghost function SearchSteps(s: System, id: int, order: seq<int>, tr: Trouble): System
    requires At(s, id, Searching)
    decreases |order|
  {
    if order == [] then Next(s, GiveUp(id))
    else
      var next := TryChunk(s, id, Print(LeafChunk(order[0])), tr);
      if At(next, id, Searching) then SearchSteps(next, id, order[1..], tr) else next
  }

  /** The match of an assignment that has found its chunk. */
  ghost function MatchSteps(s: System, id: int, teams: seq<Team>, tr: Trouble): System
    requires id in s.assignments && s.assignments[id].Checked?
  {
    var key := s.assignments[id].key;
    var saved := Next(s, SaveNew(id, teams, !tr.save));
    if tr.save then Next(saved, GiveBack(id, key !in tr.giveBack))
    else
      var pointed := Next(saved, SetPointers(id, !tr.pointers));
      if tr.pointers then Next(pointed, GiveBack(id, key !in tr.giveBack)) else pointed
  }

  /** A whole assignment. */
  ghost function AssignSteps(s: System, id: int, teams: seq<Team>, order: seq<int>, tr: Trouble): System
    requires At(s, id, Searching)
  {
    var found := SearchSteps(s, id, order, tr);
    if id in found.assignments && found.assignments[id].Checked? then MatchSteps(found, id, teams, tr) else found
  }

  /** Without another writer the second look finds the chunk as clean as the first. */
  lemma TryChunkTries(s: System, id: int, key: string, tr: Trouble)
    requires At(s, id, Searching) && key !in tr.dirtied
    ensures
      var s' := TryChunk(s, id, key, tr);
      var locked, clean := Lock(s.o, key, id), Clean(Board(s, key));
      && s' == s.(o := s'.o, assignments := s'.assignments) && id in s'.assignments
      && if key in tr.lockRead then s'.o == s.o && s'.assignments[id].Failed?
         else if LockOf(s.o, key) != 0 then s'.o == s.o && s'.assignments[id].Searching?
         else if key in tr.firstLook then s'.o == s.o && s'.assignments[id].Failed?
         else if !clean then s'.o == s.o && s'.assignments[id].Searching?
         else if key in tr.tryLock then s'.o == s.o && s'.assignments[id].Failed?
         else if key in s.o.locks then s'.o == s.o && s'.assignments[id].Searching?
         else if key in tr.secondLook then s'.o == GivenBack(locked, key, id, tr) && s'.assignments[id].Failed?
         else s'.o == locked && s'.assignments[id] == Checked(key)
  {
    hide Clean, LockIt, LookAt;
    if key !in tr.lockRead && LockOf(s.o, key) == 0 {
      LookAtLooks(Next(s, ReadFree(id, key)), id, tr);
    }
  }

  lemma LookAtLooks(s: System, id: int, tr: Trouble)
    requires id in s.assignments && s.assignments[id].Free?
    ensures
      var s', key := LookAt(s, id, tr), s.assignments[id].key;
      var locked, clean := Lock(s.o, key, id), Clean(Board(s, key));
      && s' == s.(o := s'.o, assignments := s'.assignments) && id in s'.assignments
      && if key in tr.firstLook then s'.o == s.o && s'.assignments[id].Failed?
         else if !clean then s'.o == s.o && s'.assignments[id].Searching?
         else if key in tr.tryLock then s'.o == s.o && s'.assignments[id].Failed?
         else if key in s.o.locks then s'.o == s.o && s'.assignments[id].Searching?
         else if key in tr.secondLook then s'.o == GivenBack(locked, key, id, tr) && s'.assignments[id].Failed?
         else s'.o == locked && s'.assignments[id] == Checked(key)
  {
    hide Clean, LockIt;
    var looked := Next(s, FirstLook(id));
    if s.assignments[id].key !in tr.firstLook && looked.assignments[id].Looked? {
      LockItLocks(looked, id, tr);
    }
  }

  lemma LockItLocks(s: System, id: int, tr: Trouble)
    requires id in s.assignments && s.assignments[id].Looked?
    ensures
      var s', key := LockIt(s, id, tr), s.assignments[id].key;
      var locked, clean := Lock(s.o, key, id), Clean(Board(s, key));
      && s' == s.(o := s'.o, assignments := s'.assignments) && id in s'.assignments
      && if key in tr.tryLock then s'.o == s.o && s'.assignments[id].Failed?
         else if key in s.o.locks then s'.o == s.o && s'.assignments[id].Searching?
         else if key in tr.secondLook then s'.o == GivenBack(locked, key, id, tr) && s'.assignments[id].Failed?
         else s'.o == locked && s'.assignments[id] == if clean then Checked(key) else Rejecting(key)
  {
    hide Clean;
  }

  /** The steps of a search that nobody disturbs do what the specification of the search says. */
  lemma {:induction false} SearchStepsAreFind(s: System, id: int, order: seq<int>, tr: Trouble)
    requires At(s, id, Searching) && tr.dirtied == {}
    ensures
      var s', find := SearchSteps(s, id, order, tr), FindWith(MapState(s.chunks, s.o), id, order, tr);
      && s' == s.(o := s'.o, assignments := s'.assignments) && s'.o == find.0 && id in s'.assignments
      && if find.1.Ok? then s'.assignments[id] == Checked(find.1.value) else s'.assignments[id].Failed?
    decreases |order|
  {
    hide Clean, TryChunk, Print, GivenBack, Lock;
    if order != [] {
      var key := Print(LeafChunk(order[0]));
      TryChunkTries(s, id, key, tr);
      var next := TryChunk(s, id, key, tr);
      if At(next, id, Searching) {
        SearchStepsAreFind(next, id, order[1..], tr);
      }
    }
  }

  lemma MatchStepsAssign(s: System, id: int, teams: seq<Team>, tr: Trouble)
    requires id in s.assignments && s.assignments[id].Checked?
    ensures
      var s', key := MatchSteps(s, id, teams, tr), s.assignments[id].key;
      var m := NewMatch(id, key, teams);
      && s' == s.(o := s'.o, assignments := s'.assignments) && id in s'.assignments
      && s'.o == (if tr.save then GivenBack(s.o, key, id, tr)
                  else if tr.pointers then GivenBack(SaveMatch(s.o, m), key, id, tr)
                  else SetActive(SaveMatch(s.o, m), m))
      && if tr.save || tr.pointers then s'.assignments[id].Failed? else s'.assignments[id] == Done(key)
  {
    hide NewMatch, SetActive, Unlock;
    NewMatchShape(id, s.assignments[id].key, teams);
  }

  /** So do those of a whole assignment, with a failure at any store call. */
  lemma AssignStepsAreAtomic(s: System, id: int, teams: seq<Team>, order: seq<int>, tr: Trouble)
    requires At(s, id, Searching) && tr.dirtied == {}
    ensures
      var s', assign := AssignSteps(s, id, teams, order, tr), AssignWith(MapState(s.chunks, s.o), id, teams, order, tr);
      && MapState(s'.chunks, s'.o) == assign.0 && s'.workers == s.workers && id in s'.assignments
      && if assign.1.Ok? then s'.assignments[id] == Done(assign.1.value) else s'.assignments[id].Failed?
  {
    hide FindWith, SearchSteps, MatchSteps, NewMatch, SetActive, GivenBack;
    SearchStepsAreFind(s, id, order, tr);
    var found := SearchSteps(s, id, order, tr);
    if found.assignments[id].Checked? {
      MatchStepsAssign(found, id, teams, tr);
    }
  }

  // ---------------------------------------------------------------- reaching a state

  /** The run through the given steps. */
  ghost predicate Reaches(steps: seq<Step>, s: System) {
    exists states :: IsRun(states, steps) && states[|steps|] == s
  }

  lemma Then(steps: seq<Step>, s: System, e: Step) returns (more: seq<Step>, s': System)
    requires Reaches(steps, s) && Enabled(s, e)
    ensures more == steps + [e] && s' == Next(s, e) && Reaches(more, s')
  {
    hide Enabled, Next;
    more, s' := steps + [e], Next(s, e);
    var states :| IsRun(states, steps) && states[|steps|] == s;
    var longer := states + [s'];
    assert IsRun(longer, more) && longer[|more|] == s';
  }

  lemma ReachesStart(rules: Rules)
    ensures Reaches([], Start(rules))
  {
    assert IsRun([Start(rules)], []);
  }

  // ---------------------------------------------------------------- assignments

  /** An undisturbed assignment takes a lock and passes its second look, whatever the worker of the chunk is doing. */
  lemma AssignmentRuns(steps: seq<Step>, s: System, key: string) returns (more: seq<Step>, s': System)
    requires Reaches(steps, s) && s.o == NO_MATCHES && s.assignments == map[] && Clean(Board(s, key))
    ensures Reaches(more, s') && steps <= more && s' == s.(o := Overlay(map[], map[], map[key := 1]),
              assignments := map[1 := Checked(key)])
  {
    hide Reaches;
    more, s' := Then(steps, s, Begin(1));
    more, s' := Then(more, s', ReadFree(1, key));
    more, s' := Then(more, s', FirstLook(1));
    assert s'.assignments == map[1 := Looked(key)];
    more, s' := Then(more, s', TryLock(1));
    more, s' := Then(more, s', SecondLook(1, true));
    assert s'.assignments == map[1 := Checked(key)];
  }

  /** Its match record follows. */
  lemma SavingRuns(rules: Rules, key: string, teams: seq<Team>) returns (steps: seq<Step>, s: System)
    ensures Reaches(steps, s)
    ensures s == System(rules, Overlay(map[1 := NewMatch(1, key, teams)], map[], map[key := 1]), map[1 := Saved(key)],
                        map[], map[])
  {
    hide Reaches, NewMatch;
    ReachesStart(rules);
    steps, s := AssignmentRuns([], Start(rules), key);
    steps, s := Then(steps, s, SaveNew(1, teams, true));
    NewMatchShape(1, key, teams);
    assert s.o.matches == map[1 := NewMatch(1, key, teams)];
    assert s.assignments == map[1 := Saved(key)];
  }

  /** A failed assignment with its record left behind is reachable, in every chunk and for all teams. */
  lemma LeftRecordIsReachable(rules: Rules, chunk: ChunkID, teams: seq<Team>) returns (steps: seq<Step>, s: System)
    requires Playable(chunk)
    ensures Reaches(steps, s) && At(s, 1, Failed(true)) && s.o.locks == map[] && s.o.active == map[]
    ensures s.o.matches == map[1 := NewMatch(1, Print(chunk), teams)]
  {
    hide Print;
    steps, s := SavingRuns(rules, Print(chunk), teams);
    hide Reaches, NewMatch;
    steps, s := Then(steps, s, SetPointers(1, false));
    steps, s := Then(steps, s, GiveBack(1, true));
  }

  // ---------------------------------------------------------------- a match that is finished and leaves its lock

  function TwoTeams(a: int, b: int): seq<Team> { [Team(0, [a]), Team(1, [b])] }

  lemma OneUser(m: map<int, int>, user: int, value: int)
    ensures AddUsers(m, [user], value) == m[user := value]
  {
    assert [user][..0] == [];
  }

  lemma TwoTeamsRecord(key: string, a: int, b: int)
    requires a != b
    ensures var m := NewMatch(1, key, TwoTeams(a, b));
            && m.id == 1 && m.chunkId == key && m.status == Ongoing
            && m.teams == map[0 := [a], 1 := [b]] && m.userTeams == map[a := 0, b := 1]
  {
    var teams, first := TwoTeams(a, b), [Team(0, [a])];
    assert teams[..|teams| - 1] == first && first[..|first| - 1] == [];
    OneUser(map[], a, 0);
    OneUser(map[a := 0], b, 1);
    assert TeamsOf(first) == map[0 := [a]] && UserTeamsOf(first) == map[a := 0];
  }

  /** The match of `a` against `b` is being played in the chunk. */
  ghost predicate Playing(s: System, key: string, a: int, b: int) {
    && a != b && s.assignments == map[1 := Done(key)] && s.o.locks == map[key := 1]
    && a in s.o.active && s.o.active[a] == 1 && 1 in s.o.matches
    && var m := s.o.matches[1];
    && m.id == 1 && m.chunkId == key && m.status == Ongoing
    && m.teams == map[0 := [a], 1 := [b]] && m.userTeams == map[a := 0, b := 1]
  }

  lemma PlayingRuns(rules: Rules, key: string, a: int, b: int) returns (steps: seq<Step>, s: System)
    requires a != b
    ensures Reaches(steps, s) && Playing(s, key, a, b) && s.rules == rules && s.chunks == map[] && s.workers == map[]
  {
    steps, s := SavingRuns(rules, key, TwoTeams(a, b));
    TwoTeamsRecord(key, a, b);
    hide Reaches, NewMatch;
    steps, s := Then(steps, s, SetPointers(1, true));
    assert a in s.o.active && s.o.active[a] == 1;
    assert s.assignments == map[1 := Done(key)];
  }

  /** The first open of a safe cell scores. */
  lemma FirstOpen(site: Site, user: int, i: int, t: Times, closure: int)
    requires SiteOk(site) && RateOk(site.season) && IsCell(i) && !Mine(site, i)
    ensures
      var (c, r) := OpenBody(site, Reopen(FRESH, t.reopen, closure), user, CellX(i), CellY(i), t.body, closure);
      && r.Ok? && !r.value.mine && !r.value.canceled && r.value.newOpenedCount > 0
      && HasOpened(c, user) && !c.closed && c.flaggedBy == map[] && forall j :: j in c.cells ==> !Mine(site, j)
  {
    hide Area, Mine, Number, Uncover;
    CoordinatesIndex(i);
    UncoverKeeps(site, FRESH, i, user, t.body);
    var c := Uncover(site, FRESH, i, user, t.body);
    assert i in c.cells && c.cells[i] == NewCell(site, i, user, t.body);
    assert !c.closed by { UncoverOpen(site, FRESH, i, user, t.body); }
  }

  lemma UncoverOpen(site: Site, c: Chunk, i: int, user: int, now: int)
    requires SiteOk(site)
    ensures Uncover(site, c, i, user, now).closed == c.closed
  {
  }

  /** The open of a mine then ends the match. */
  lemma HitMine(site: Site, c: Chunk, user: int, j: int, t: Times, closure: int)
    requires SiteOk(site) && RateOk(site.season) && IsCell(j) && Mine(site, j)
    requires HasOpened(c, user) && !c.closed && c.flaggedBy == map[] && j !in c.cells
    ensures
      var (c', r) := OpenBody(site, Reopen(c, t.reopen, closure), user, CellX(j), CellY(j), t.body, closure);
      r.Ok? && r.value.mine && !r.value.canceled
  {
    hide HasOpened, Mine;
    CoordinatesIndex(j);
  }

  /** One open of a player in the match chunk, up to the moment the match is read. */
  lemma OpenRuns(steps: seq<Step>, s: System, chunk: ChunkID, a: int, b: int, i: int, t: Times)
      returns (more: seq<Step>, s': System)
    requires Reaches(steps, s) && Playable(chunk) && IsCell(i) && Playing(s, Print(chunk), a, b)
    requires WorkOf(s, Print(chunk)) == Idle
    ensures
      var done := Perform(s.rules, Board(s, Print(chunk)), a, chunk, Open(CellX(i), CellY(i)), t);
      && Reaches(more, s') && Playing(s', Print(chunk), a, b) && s'.rules == s.rules
      && Board(s', Print(chunk)) == done.0 && WorkOf(s', Print(chunk)) == AfterWrite(a, chunk, done)
  {
    hide Reaches, Perform, Print, Store;
    var key := Print(chunk);
    CoordinatesIndex(i);
    more, s' := Then(steps, s, ReadPointer(key, a));
    assert WorkOf(s', key) == Authorised(a);
    var was := s';
    more, s' := Then(more, s', Write(key, chunk, Open(CellX(i), CellY(i)), t));
    StoreBoard(was, key, Perform(s.rules, Board(s, key), a, chunk, Open(CellX(i), CellY(i)), t).0, s');
  }

  /** Nothing but safe cells are open, one of them by the player, and there is no flag. */
  ghost predicate Begun(site: Site, c: Chunk, user: int) {
    HasOpened(c, user) && !c.closed && c.flaggedBy == map[] && forall j :: j in c.cells ==> !Mine(site, j)
  }

  /** A scored open: afterwards the worker is idle, or it ends the match because the board is complete. */
  lemma ScoringRuns(steps: seq<Step>, s: System, chunk: ChunkID, a: int, b: int, i: int, t: Times)
      returns (more: seq<Step>, s': System)
    requires Reaches(steps, s) && Playable(chunk) && Playing(s, Print(chunk), a, b) && WorkOf(s, Print(chunk)) == Idle
    requires Board(s, Print(chunk)) == FRESH && RateOk(s.rules.season)
    requires IsCell(i) && !Mine(Site(s.rules.season, chunk), i)
    ensures Reaches(more, s') && Playing(s', Print(chunk), a, b) && s'.rules == s.rules
    ensures Begun(Site(s.rules.season, chunk), Board(s', Print(chunk)), a)
    ensures var w := WorkOf(s', Print(chunk)); w == Idle || (w.Ending? && w.m == s'.o.matches[1])
  {
    hide Reaches, Print, Mine, OpenBody, HasOpened, Settled;
    var key, site := Print(chunk), Site(s.rules.season, chunk);
    FirstOpen(site, a, i, t, s.rules.closure);
    more, s' := OpenRuns(steps, s, chunk, a, b, i, t);
    more, s' := ReadRuns(more, s', key, a, b);
    var found, m := WorkOf(s', key).found, s'.o.matches[1];
    SettledWork(s.rules, Scored(m, a, found.response, t.score), found);
    more, s' := Then(more, s', SaveScore(key, t.score));
  }

  /** The match is read: a scored open goes on to the score, a mine to the end. */
  lemma ReadRuns(steps: seq<Step>, s: System, key: string, a: int, b: int) returns (more: seq<Step>, s': System)
    requires Reaches(steps, s) && Playing(s, key, a, b) && WorkOf(s, key).Applying?
    requires WorkOf(s, key).found.user == a && !WorkOf(s, key).found.response.canceled
    ensures Reaches(more, s') && s' == s.(workers := s'.workers) && Playing(s', key, a, b)
    ensures WorkOf(s', key) == if WorkOf(s, key).found.response.mine then Ending(s.o.matches[1], 1)
                               else Scoring(s.o.matches[1], WorkOf(s, key).found)
  {
    hide Reaches;
    assert IsOpponent(s.o.matches[1], a, 1);
    more, s' := Then(steps, s, ReadMatch(key, 1));
  }

  /** The record of the ended match is saved, and deleting the pointers fails. */
  lemma BreakingRuns(steps: seq<Step>, s: System, key: string, a: int, b: int)
      returns (more: seq<Step>, s': System)
    requires Reaches(steps, s) && Playing(s, key, a, b)
    requires WorkOf(s, key).Ending? && WorkOf(s, key).m == s.o.matches[1]
    ensures Reaches(more, s') && Leaked(s', key, 1) && 1 in s'.o.matches && s'.o.matches[1].status == Finished
  {
    hide Reaches;
    more, s' := Then(steps, s, SaveFinished(key));
    more, s' := Then(more, s', Stop(key));
  }

  /** A leaked lock of a finished match is reachable in every chunk that has a safe cell and a mine: the match of two
      players is assigned, one of them opens the safe cell and then, unless that has already completed the board, the
      mine; the record is saved, and the next call fails. */
  lemma LeakIsReachable(rules: Rules, chunk: ChunkID, a: int, b: int, i: int, j: int, t: Times, later: Times)
      returns (steps: seq<Step>, s: System)
    requires Playable(chunk) && RateOk(rules.season) && a != b
    requires IsCell(i) && !Mine(Site(rules.season, chunk), i) && IsCell(j) && Mine(Site(rules.season, chunk), j)
    ensures Reaches(steps, s) && Leaked(s, Print(chunk), 1) && 1 in s.o.matches && s.o.matches[1].status == Finished
    ensures forall user :: Authorize(s.o, user, Print(chunk)).Err?
  {
    hide Reaches, Mine, Print, Leaked, Authorize, HasOpened, Playing;
    var key, site := Print(chunk), Site(rules.season, chunk);
    steps, s := PlayingRuns(rules, key, a, b);
    steps, s := ScoringRuns(steps, s, chunk, a, b, i, t);
    if WorkOf(s, key) == Idle {
      HitMine(site, Board(s, key), a, j, later, rules.closure);
      steps, s := OpenRuns(steps, s, chunk, a, b, j, later);
      steps, s := ReadRuns(steps, s, key, a, b);
    }
    steps, s := BreakingRuns(steps, s, key, a, b);
    ReachedKeeps(steps, s);
    forall user ensures Authorize(s.o, user, key).Err? {
      LeakedRefusesAll(s, key, 1, user);
    }
  }

  lemma ReachedKeeps(steps: seq<Step>, s: System)
    requires Reaches(steps, s)
    ensures Inv(s)
  {
    var states :| IsRun(states, steps) && states[|steps|] == s;
    RunKeeps(states, steps, |steps|);
  }

  // ---------------------------------------------------------------- late writers

  lemma AllowRuns(steps: seq<Step>, s: System, key: string, user: int) returns (more: seq<Step>, s': System)
    requires Reaches(steps, s) && s.o == NO_MATCHES && WorkOf(s, key) == Idle
    ensures Reaches(more, s') && more == steps + [ReadPointer(key, user), ReadLock(key)]
    ensures s' == s.(workers := s'.workers) && WorkOf(s', key) == Authorised(user)
  {
    hide Reaches;
    more, s' := Then(steps, s, ReadPointer(key, user));
    more, s' := Then(more, s', ReadLock(key));
  }

  /** One flag request outside all matches. */
  lemma FlagRuns(steps: seq<Step>, s: System, chunk: ChunkID, user: int, click: Click, t: Times)
      returns (more: seq<Step>, s': System)
    requires Reaches(steps, s) && Playable(chunk) && s.o == NO_MATCHES && WorkOf(s, Print(chunk)) == Idle
    requires click.Flag? && ChunkCellIndex(click.x, click.y).Some?
    ensures var key := Print(chunk);
            && Reaches(more, s') && s'.o == NO_MATCHES && s'.assignments == s.assignments && s'.rules == s.rules
            && WorkOf(s', key) == Idle
            && Board(s', key) == Perform(s.rules, Board(s, key), user, chunk, click, t).0
            && more == steps + [ReadPointer(key, user), ReadLock(key), Write(key, chunk, click, t)]
  {
    hide Reaches, Print, Store;
    var key := Print(chunk);
    more, s' := AllowRuns(steps, s, key, user);
    var was := s';
    more, s' := Then(more, s', Write(key, chunk, click, t));
    StoreBoard(was, key, Perform(s.rules, Board(s, key), user, chunk, click, t).0, s');
  }

  /** A chunk in which somebody flagged a cell and removed the flag again is assigned like any other. */
  lemma ClearedChunkIsAssigned(rules: Rules, chunk: ChunkID, stranger: int, x: int, y: int, t: Times, later: Times)
      returns (steps: seq<Step>, s: System)
    requires Playable(chunk) && ChunkCellIndex(x, y).Some?
    ensures Reaches(steps, s) && At(s, 1, Checked(Print(chunk)))
    ensures |steps| > 5 && steps[2] == Write(Print(chunk), chunk, Flag(x, y, true), t)
              && steps[5] == Write(Print(chunk), chunk, Flag(x, y, false), later)
    ensures Clean(Board(s, Print(chunk))) && Board(s, Print(chunk)).version == FRESH.version + 2
  {
    ReachesStart(rules);
    hide Reaches, Print;
    var key, index := Print(chunk), ChunkCellIndex(x, y).value;
    steps, s := FlagRuns([], Start(rules), chunk, stranger, Flag(x, y, true), t);
    assert Board(s, key) == FRESH.(flaggedBy := map[index := stranger], version := 2);
    steps, s := FlagRuns(steps, s, chunk, stranger, Flag(x, y, false), later);
    assert map[index := stranger] - {index} == map[];
    var path := steps;
    steps, s := AssignmentRuns(steps, s, key);
    assert steps[2] == path[2] && steps[5] == path[5];
  }

  /** An assignment that has passed its second look starts its match. */
  ghost function Started(s: System, id: int, key: string, teams: seq<Team>): System
    requires At(s, id, Checked(key))
  {
    Next(Next(s, SaveNew(id, teams, true)), SetPointers(id, true))
  }

  /** Workers and boards do not notice. */
  lemma MatchStarts(s: System, id: int, key: string, teams: seq<Team>, player: int)
    requires At(s, id, Checked(key)) && player in UserTeamsOf(teams)
    ensures
      var s' := Started(s, id, key, teams);
      && s'.workers == s.workers && s'.chunks == s.chunks && s'.rules == s.rules
      && ActiveMatch(s'.o, player) == Some(NewMatch(id, key, teams))
  {
    hide NewMatch, UserTeamsOf;
    NewMatchShape(id, key, teams);
    var s' := Started(s, id, key, teams);
    assert player in s'.o.active && s'.o.active[player] == id;
  }

  lemma StrangerShown(s: System, player: int, m: Match)
    requires ActiveMatch(s.o, player) == Some(m) && !OwnedBy(Board(s, m.chunkId), m.userTeams)
    ensures !NoStranger(s)
  {
    hide OwnedBy;
  }

  /** What a stranger has written by then is in the chunk of the match. */
  lemma StrangerIsIn(s: System, id: int, key: string, teams: seq<Team>, player: int)
    requires At(s, id, Checked(key)) && player in UserTeamsOf(teams)
    requires !OwnedBy(Board(s, key), UserTeamsOf(teams))
    ensures !NoStranger(Started(s, id, key, teams))
  {
    hide NewMatch, UserTeamsOf, OwnedBy, ActiveMatch;
    NewMatchShape(id, key, teams);
    MatchStarts(s, id, key, teams, player);
    StrangerShown(Started(s, id, key, teams), player, NewMatch(id, key, teams));
  }

  /** And a stranger who was let in before the match started may write afterwards: any flag request that the board
      accepts, as a clean board accepts every one, leaves the stranger's flag in the chunk of the running match. */
  lemma LateWriterGetsIn(s: System, id: int, chunk: ChunkID, stranger: int, teams: seq<Team>, player: int, x: int,
      y: int, t: Times)
    requires At(s, id, Checked(Print(chunk))) && WorkOf(s, Print(chunk)) == Authorised(stranger) && Playable(chunk)
    requires player in UserTeamsOf(teams) && stranger !in UserTeamsOf(teams)
    requires ChunkCellIndex(x, y).Some?
    requires FlagBody(Reopen(Board(s, Print(chunk)), t.reopen, s.rules.closure), stranger, x, y, true).1.Ok?
    ensures
      var s' := Started(s, id, Print(chunk), teams);
      && Enabled(s', Write(Print(chunk), chunk, Flag(x, y, true), t))
      && !NoStranger(Next(s', Write(Print(chunk), chunk, Flag(x, y, true), t)))
  {
    var key := Print(chunk);
    hide NewMatch, UserTeamsOf, ActiveMatch, Print, Reopen, Store;
    NewMatchShape(id, key, teams);
    MatchStarts(s, id, key, teams, player);
    var s' := Started(s, id, key, teams);
    assert WorkOf(s', key) == WorkOf(s, key) && Board(s', key) == Board(s, key);
    var after := Perform(s.rules, Board(s, key), stranger, chunk, Flag(x, y, true), t).0;
    assert after.flaggedBy[ChunkCellIndex(x, y).value] == stranger;
    hide Started;
    var s'' := Next(s', Write(key, chunk, Flag(x, y, true), t));
    StoreBoard(s', key, after, s'');
    StrangerShown(s'', player, NewMatch(id, key, teams));
  }

  /** Both lie on real runs: in every chunk, whoever plays, and whatever cell the stranger flags. */
  lemma LateWriterIsReachable(rules: Rules, chunk: ChunkID, stranger: int, teams: seq<Team>, player: int, x: int,
      y: int, t: Times)
      returns (steps: seq<Step>, s: System)
    requires Playable(chunk) && player in UserTeamsOf(teams) && stranger !in UserTeamsOf(teams)
    requires ChunkCellIndex(x, y).Some?
    ensures Reaches(steps, s) && !NoStranger(s)
  {
    var key, click := Print(chunk), Flag(x, y, true);
    hide Print, UserTeamsOf, NoStranger, Reaches;
    ReachesStart(rules);
    steps, s := AllowRuns([], Start(rules), key, stranger);
    steps, s := AssignmentRuns(steps, s, key);
    LateWriterGetsIn(s, 1, chunk, stranger, teams, player, x, y, t);
    MatchStarts(s, 1, key, teams, player);
    hide Next;
    steps, s := Then(steps, s, SaveNew(1, teams, true));
    steps, s := Then(steps, s, SetPointers(1, true));
    steps, s := Then(steps, s, Write(key, chunk, click, t));
  }
}
