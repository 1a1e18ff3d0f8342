/** The operations that a chunk worker performs against the stores, and match assignment
    (internal/service/chunk_service.go, internal/service/mine_match_service.go,
    internal/repository/mine_chunk_state_repository.go). */
module ChunkService {
  import opened Wrappers
  import opened ChunkIds
  import opened MineField
  import opened ChunkState
  import opened Cascade
  import opened ChunkMachine
  import opened MineMatch
  import opened MatchOverlay

  /** Everything stored for one season. */
  datatype MapState = MapState(chunks: map<string, Chunk>, overlay: Overlay)

  /** What stays fixed: the season and the closure duration. */
  datatype Rules = Rules(season: Season, closure: int)

  function ChunkOf(chunks: map<string, Chunk>, key: string): Chunk { if key in chunks then chunks[key] else FRESH }

  /** The stored chunks after an operation: saved only when the operation changed the state. */
  function Put(chunks: map<string, Chunk>, key: string, c: Chunk): map<string, Chunk> {
    if c == ChunkOf(chunks, key) then chunks else chunks[key := c]
  }

  lemma PutChanged(chunks: map<string, Chunk>, key: string, c: Chunk)
    ensures c.version != ChunkOf(chunks, key).version ==> Put(chunks, key, c) == chunks[key := c]
    ensures c == ChunkOf(chunks, key) ==> Put(chunks, key, c) == chunks
  {
  }

  lemma PutSame(chunks: map<string, Chunk>, key: string)
    ensures Put(chunks, key, ChunkOf(chunks, key)) == chunks
  {
  }

  /** Saving twice in one operation stores the last state. */
  lemma PutPut(chunks: map<string, Chunk>, key: string, a: Chunk, b: Chunk)
    requires ChunkOf(chunks, key).version <= a.version && (b == a || a.version < b.version)
    ensures ChunkOf(Put(chunks, key, a), key) == a
    ensures Put(Put(chunks, key, a), key, b) == Put(chunks, key, b)
  {
    assert chunks[key := a][key := b] == chunks[key := b];
  }

  /** The clock readings of one operation, in the order they are taken. */
  datatype Times = Times(reopen: int, body: int, score: int)

  /** Which call to the chunk store fails in an operation, if any: the load, the save after lifting an expired closure,
      or the save of the result. A save that fails writes nothing. */
  datatype StoreCalls = Works | LoadFails | ReopenFails | SaveFails

  /** What is stored, and what is answered, by an operation that finds `c`, would lift its closure to `lifted` and end
      with `done`: a save is made only when something changed, and the first call that fails ends the operation. */
  function Committed<R>(c: Chunk, lifted: Chunk, done: (Chunk, Result<R, OperationError>), store: StoreCalls)
    : (Chunk, Result<R, OperationError>)
  {
    if store.LoadFails? || (store.ReopenFails? && lifted != c) then (c, Err(StoreError))
    else if store.SaveFails? && done.0 != lifted then (lifted, Err(StoreError))
    else done
  }

  /** Which calls of an operation succeed: the authorisation, those to the chunk store, those to the match store. */
  datatype OperationCalls = OperationCalls(authorize: bool, store: StoreCalls, apply: ApplyCalls)

  ghost function OpenOpWith(rules: Rules, w: MapState, user: int, id: ChunkID, x: int, y: int, t: Times,
      calls: OperationCalls, opponent: int)
    : (MapState, Result<(OpenResponse, Option<MatchView>), OperationError>)
    requires Playable(id)
  {
    var key, site := Print(id), Site(rules.season, id);
    if ChunkCellIndex(x, y).None? then (w, Err(InvalidCell))
    else if !calls.authorize then (w, Err(StoreError))
    else if Authorize(w.overlay, user, key).Err? then (w, Err(Authorize(w.overlay, user, key).error))
    else
      var c := ChunkOf(w.chunks, key);
      var lifted := Reopen(c, t.reopen, rules.closure);
      var body := Committed(c, lifted, OpenBody(site, lifted, user, x, y, t.body, rules.closure), calls.store);
      var chunks := Put(w.chunks, key, body.0);
      if body.1.Err? then (MapState(chunks, w.overlay), Err(body.1.error))
      else
        var applied :=
          ApplyOpenWith(w.overlay, site, user, key, body.0, body.1.value, t.score, calls.apply, opponent);
        (MapState(chunks, applied.0),
         if applied.1.Err? then Err(applied.1.error) else Ok((body.1.value, applied.1.value)))
  }

  /** An open with stores that work, but for the recording of a match result. */
  ghost function OpenOp(rules: Rules, w: MapState, user: int, id: ChunkID, x: int, y: int, t: Times, resultOk: bool,
      opponent: int)
    : (MapState, Result<(OpenResponse, Option<MatchView>), OperationError>)
    requires Playable(id)
  {
    OpenOpWith(rules, w, user, id, x, y, t, OperationCalls(true, Works, Smooth(resultOk)), opponent)
  }

  ghost function FlagOpWith(rules: Rules, w: MapState, user: int, id: ChunkID, x: int, y: int, flagged: bool, t: Times,
      authorize: bool, store: StoreCalls)
    : (MapState, Result<FlagResponse, OperationError>)
    requires Playable(id)
  {
    var key := Print(id);
    if ChunkCellIndex(x, y).None? then (w, Err(InvalidCell))
    else if !authorize then (w, Err(StoreError))
    else if Authorize(w.overlay, user, key).Err? then (w, Err(Authorize(w.overlay, user, key).error))
    else
      var c := ChunkOf(w.chunks, key);
      var lifted := Reopen(c, t.reopen, rules.closure);
      var body := Committed(c, lifted, FlagBody(lifted, user, x, y, flagged), store);
      (MapState(Put(w.chunks, key, body.0), w.overlay), body.1)
  }

  ghost function FlagOp(rules: Rules, w: MapState, user: int, id: ChunkID, x: int, y: int, flagged: bool, t: Times)
    : (MapState, Result<FlagResponse, OperationError>)
    requires Playable(id)
  {
    FlagOpWith(rules, w, user, id, x, y, flagged, t, true, Works)
  }

  /** A call to the chunk store fails that the operation makes. */
  predicate StoreBreaks(c: Chunk, lifted: Chunk, after: Chunk, store: StoreCalls) {
    store.LoadFails? || (store.ReopenFails? && lifted != c) || (store.SaveFails? && after != lifted)
  }

  /** An operation is carried out exactly when no call to the chunk store fails that it makes. Otherwise it says so, and
      what is stored is what was, or what the reopening made of it when only the last save failed. */
  lemma CommittedOrNot<R>(c: Chunk, lifted: Chunk, done: (Chunk, Result<R, OperationError>), store: StoreCalls)
    ensures
      var (c', r) := Committed(c, lifted, done, store);
      && (!StoreBreaks(c, lifted, done.0, store) ==> c' == done.0 && r == done.1)
      && (StoreBreaks(c, lifted, done.0, store) ==>
            r == Err(StoreError) && c' == if store.SaveFails? then lifted else c)
  {
  }

  /** When an open request succeeds, and with which answer; each of its refusals, and what it then leaves behind. */
  lemma OpenOpAnswers(rules: Rules, w: MapState, user: int, id: ChunkID, x: int, y: int, t: Times,
      calls: OperationCalls, opponent: int)
    requires Playable(id) && ChunkCellIndex(x, y).Some?
    ensures
      var (w', r), key, site :=
        OpenOpWith(rules, w, user, id, x, y, t, calls, opponent), Print(id), Site(rules.season, id);
      var c, allowed := ChunkOf(w.chunks, key), Authorize(w.overlay, user, key);
      var lifted := Reopen(c, t.reopen, rules.closure);
      var (c', b) := OpenBody(site, lifted, user, x, y, t.body, rules.closure);
      if !calls.authorize || allowed.Err? then
        w' == w && r == Err(if calls.authorize then allowed.error else StoreError)
      else if StoreBreaks(c, lifted, c', calls.store) then
        r == Err(StoreError) && w'.overlay == w.overlay
        && ChunkOf(w'.chunks, key) == if calls.store.SaveFails? then lifted else c
      else
        && ChunkOf(w'.chunks, key) == c' && (b.Err? ==> r == Err(b.error) && w'.overlay == w.overlay)
        && (b.Ok? ==>
            var (o', view) :=
              ApplyOpenWith(w.overlay, site, user, key, c', b.value, t.score, calls.apply, opponent);
            w'.overlay == o' && r == if view.Ok? then Ok((b.value, view.value)) else Err(view.error))
    ensures forall key :: key != Print(id) ==>
              ChunkOf(OpenOpWith(rules, w, user, id, x, y, t, calls, opponent).0.chunks, key) == ChunkOf(w.chunks, key)
  {
    hide Print, Authorize, OpenBody, Reopen, ApplyOpenWith;
  }

  lemma FlagOpAnswers(rules: Rules, w: MapState, user: int, id: ChunkID, x: int, y: int, flagged: bool, t: Times,
      authorize: bool, store: StoreCalls)
    requires Playable(id) && ChunkCellIndex(x, y).Some?
    ensures
      var (w', r), key := FlagOpWith(rules, w, user, id, x, y, flagged, t, authorize, store), Print(id);
      var c, allowed := ChunkOf(w.chunks, key), Authorize(w.overlay, user, key);
      var lifted := Reopen(c, t.reopen, rules.closure);
      var (c', b) := FlagBody(lifted, user, x, y, flagged);
      && w'.overlay == w.overlay
      && if !authorize || allowed.Err? then w' == w && r == Err(if authorize then allowed.error else StoreError)
         else if StoreBreaks(c, lifted, c', store) then
           r == Err(StoreError) && ChunkOf(w'.chunks, key) == if store.SaveFails? then lifted else c
         else ChunkOf(w'.chunks, key) == c' && r == b
    ensures forall key :: key != Print(id) ==>
              ChunkOf(FlagOpWith(rules, w, user, id, x, y, flagged, t, authorize, store).0.chunks, key) ==
                ChunkOf(w.chunks, key)
  {
    hide Print, Authorize, FlagBody, Reopen;
  }

  /** A cell outside the chunk is refused before anything else. */
  lemma OutsideIsInvalid(rules: Rules, w: MapState, user: int, id: ChunkID, x: int, y: int, flagged: bool, t: Times,
      calls: OperationCalls, opponent: int)
    requires Playable(id) && !(0 <= x < CHUNK_SIZE && 0 <= y < CHUNK_SIZE)
    ensures OpenOpWith(rules, w, user, id, x, y, t, calls, opponent) == (w, Err(InvalidCell))
    ensures FlagOpWith(rules, w, user, id, x, y, flagged, t, calls.authorize, calls.store) == (w, Err(InvalidCell))
  {
  }

  /** The state after an open with working stores: the board that the body leaves, and the matches after it. */
  lemma OpenOpState(rules: Rules, w: MapState, user: int, id: ChunkID, x: int, y: int, t: Times, resultOk: bool,
      opponent: int)
    requires Playable(id)
    ensures
      var w', key, site := OpenOp(rules, w, user, id, x, y, t, resultOk, opponent).0, Print(id), Site(rules.season, id);
      if ChunkCellIndex(x, y).None? || Authorize(w.overlay, user, key).Err? then w' == w
      else
        var lifted := Reopen(ChunkOf(w.chunks, key), t.reopen, rules.closure);
        var (c, r) := OpenBody(site, lifted, user, x, y, t.body, rules.closure);
        w' == MapState(Put(w.chunks, key, c), if r.Err? then w.overlay else
            ApplyOpen(w.overlay, site, user, key, c, r.value, t.score, resultOk, opponent).0)
  {
    hide Print, Authorize, OpenBody, Reopen, ApplyOpenWith, Put, ChunkOf;
  }

  lemma FlagOpState(rules: Rules, w: MapState, user: int, id: ChunkID, x: int, y: int, flagged: bool, t: Times)
    requires Playable(id)
    ensures
      var w', key := FlagOp(rules, w, user, id, x, y, flagged, t).0, Print(id);
      if ChunkCellIndex(x, y).None? || Authorize(w.overlay, user, key).Err? then w' == w
      else
        var lifted := Reopen(ChunkOf(w.chunks, key), t.reopen, rules.closure);
        w' == MapState(Put(w.chunks, key, FlagBody(lifted, user, x, y, flagged).0), w.overlay)
  {
    hide Print, Authorize, FlagBody, Reopen, Put, ChunkOf;
  }

  /** What a summary, snapshot or list request does to a stored chunk. */
  function ReadOp(rules: Rules, w: MapState, key: string, now: int): MapState {
    w.(chunks := Put(w.chunks, key, Reopen(ChunkOf(w.chunks, key), now, rules.closure)))
  }

  /** A reader lifts the closure of the one chunk if it is due, and changes nothing else. */
  lemma ReadReopens(rules: Rules, w: MapState, key: string, now: int, other: string)
    ensures
      var w', c := ReadOp(rules, w, key, now), ChunkOf(w.chunks, key);
      && w'.overlay == w.overlay && (other != key ==> ChunkOf(w'.chunks, other) == ChunkOf(w.chunks, other))
      && ChunkOf(w'.chunks, key).cells == c.cells && ChunkOf(w'.chunks, key).flaggedBy == c.flaggedBy
      && (ChunkOf(w'.chunks, key).closed <==> c.closed && now < Deadline(c, now, rules.closure))
  {
    ReopenAtDeadline(ChunkOf(w.chunks, key), now, rules.closure);
    hide Reopen;
  }

  predicate Clean(c: Chunk) { !c.closed && |c.cells| == 0 && |c.flaggedBy| == 0 }

  predicate Assignable(w: MapState, key: string) {
    key !in w.overlay.locks && Clean(ChunkOf(w.chunks, key))
  }

  /** The chunk that a number of the random permutation stands for. */
  function LeafChunk(value: int): ChunkID { ChunkID("cn", CHUNK_MAX_LEVEL, value % 64, value / 64) }

  function FirstAssignable(w: MapState, order: seq<int>): Option<string> {
    if order == [] then None
    else if Assignable(w, Print(LeafChunk(order[0]))) then Some(Print(LeafChunk(order[0])))
    else FirstAssignable(w, order[1..])
  }

  /** The permutation without the chunks that somebody writes in between the two looks of an assignment. */
  function Kept(order: seq<int>, dirtied: set<string>): seq<int> {
    if order == [] then []
    else (if Print(LeafChunk(order[0])) in dirtied then [] else [order[0]]) + Kept(order[1..], dirtied)
  }

  lemma UnlockLocked(o: Overlay, key: string, matchId: int)
    requires key !in o.locks
    ensures Unlock(Lock(o, key, matchId), key, matchId) == o
  {
    assert o.locks[key := matchId] - {key} == o.locks;
  }

  function Assigned(w: MapState, matchId: int, key: string, teams: seq<Team>): MapState {
    var m := NewMatch(matchId, key, teams);
    w.(overlay := SetActive(SaveMatch(Lock(w.overlay, key, matchId), m), m))
  }

  function AssignOp(w: MapState, matchId: int, teams: seq<Team>, order: seq<int>): (MapState, Option<string>) {
    match FirstAssignable(w, order)
    case None => (w, None)
    case Some(key) => (Assigned(w, matchId, key, teams), Some(key))
  }

  /** What disturbs one assignment: the chunks at which a read, the lock, the second look or giving a lock back
      fails, those that somebody writes in between the two looks, and whether saving the record or setting the pointers
      fails. */
  datatype Trouble = Trouble(lockRead: set<string>, firstLook: set<string>, tryLock: set<string>,
      secondLook: set<string>,
                             giveBack: set<string>, dirtied: set<string>, save: bool, pointers: bool)

  datatype AssignError = NoChunk | StoreFailed

  /** Nothing but other writers. */
  predicate Quiet(tr: Trouble) {
    tr == Trouble({}, {}, {}, {}, {}, tr.dirtied, false, false)
  }

  function GivenBack(o: Overlay, key: string, matchId: int, tr: Trouble): Overlay {
    if key in tr.giveBack then o else Unlock(o, key, matchId)
  }

  function FindWith(w: MapState, matchId: int, order: seq<int>, tr: Trouble): (Overlay, Result<string, AssignError>)
    decreases |order|
  {
    if order == [] then (w.overlay, Err(NoChunk))
    else
      var key := Print(LeafChunk(order[0]));
      var locked := Lock(w.overlay, key, matchId);
      if key in tr.lockRead then (w.overlay, Err(StoreFailed))
      else if LockOf(w.overlay, key) != 0 then FindWith(w, matchId, order[1..], tr)
      else if key in tr.firstLook then (w.overlay, Err(StoreFailed))
      else if !Clean(ChunkOf(w.chunks, key)) then FindWith(w, matchId, order[1..], tr)
      else if key in tr.tryLock then (w.overlay, Err(StoreFailed))
      else if key in w.overlay.locks then FindWith(w, matchId, order[1..], tr)
      else if key in tr.secondLook then (GivenBack(locked, key, matchId, tr), Err(StoreFailed))
      else if key in tr.dirtied then FindWith(w.(overlay := GivenBack(locked, key, matchId, tr)), matchId, order[1..],
          tr)
      else (locked, Ok(key))
  }

  function AssignWith(w: MapState, matchId: int, teams: seq<Team>, order: seq<int>,
      tr: Trouble): (MapState, Result<string, AssignError>) {
    var found := FindWith(w, matchId, order, tr);
    if found.1.Err? then (w.(overlay := found.0), found.1)
    else
      var key := found.1.value;
      var m := NewMatch(matchId, key, teams);
      if tr.save then (w.(overlay := GivenBack(found.0, key, matchId, tr)), Err(StoreFailed))
      else if tr.pointers then (w.(overlay := GivenBack(SaveMatch(found.0, m), key, matchId, tr)), Err(StoreFailed))
      else (w.(overlay := SetActive(SaveMatch(found.0, m), m)), Ok(key))
  }

  /** Without store failures the first chunk that is assignable and stays clean is taken. */
  lemma {:induction false} QuietFind(w: MapState, matchId: int, order: seq<int>, tr: Trouble)
    requires Quiet(tr)
    ensures FindWith(w, matchId, order, tr) ==
              match FirstAssignable(w, Kept(order, tr.dirtied))
              case None => (w.overlay, Err(NoChunk))
              case Some(key) => (Lock(w.overlay, key, matchId), Ok(key))
  {
    hide Print, Clean;
    if order != [] {
      var key, rest := Print(LeafChunk(order[0])), Kept(order[1..], tr.dirtied);
      QuietFind(w, matchId, order[1..], tr);
      if key in tr.dirtied {
        assert [] + rest == rest;
        if key !in w.overlay.locks {
          UnlockLocked(w.overlay, key, matchId);
          assert w.(overlay := w.overlay) == w;
        }
      } else {
        assert ([order[0]] + rest)[1..] == rest;
      }
    }
  }

  lemma QuietAssign(w: MapState, matchId: int, teams: seq<Team>, order: seq<int>, tr: Trouble)
    requires Quiet(tr)
    ensures var op := AssignOp(w, matchId, teams, Kept(order, tr.dirtied));
            AssignWith(w, matchId, teams, order, tr) == (op.0, if op.1.Some? then Ok(op.1.value) else Err(NoChunk))
  {
    QuietFind(w, matchId, order, tr);
  }

  /** The locks before and after: only locks that could not be given back are new. */
  ghost predicate OnlyLeaks(before: Overlay, after: Overlay, matchId: int, tr: Trouble) {
    && after.active == before.active
    && (forall key :: key in before.locks ==> key in after.locks && after.locks[key] == before.locks[key])
    && (forall key :: key in after.locks && key !in before.locks ==> after.locks[key] == matchId && key in tr.giveBack)
  }

  /** Besides those, one new lock. */
  ghost predicate FreshLock(before: Overlay, after: Overlay, key: string, matchId: int, tr: Trouble) {
    && key !in before.locks && key in after.locks && after.locks[key] == matchId
    && OnlyLeaks(before, after.(locks := after.locks - {key}), matchId, tr)
  }

  lemma GivenBackLeaks(o: Overlay, key: string, matchId: int, tr: Trouble)
    requires key !in o.locks
    ensures OnlyLeaks(o, GivenBack(Lock(o, key, matchId), key, matchId, tr), matchId, tr)
    ensures GivenBack(Lock(o, key, matchId), key, matchId, tr).matches == o.matches
  {
  }

  /** What the search leaves behind: the found lock, and locks that could not be given back. */
  lemma {:induction false} FindEffect(w: MapState, matchId: int, order: seq<int>, tr: Trouble)
    ensures var (o, r) := FindWith(w, matchId, order, tr);
            && o.matches == w.overlay.matches
            && (r.Err? ==> OnlyLeaks(w.overlay, o, matchId, tr))
            && (r.Ok? ==> FreshLock(w.overlay, o, r.value, matchId, tr))
    decreases |order|
  {
    hide Print, Clean;
    if order != [] {
      var key := Print(LeafChunk(order[0]));
      var back := GivenBack(Lock(w.overlay, key, matchId), key, matchId, tr);
      FindEffect(w, matchId, order[1..], tr);
      if key !in w.overlay.locks {
        GivenBackLeaks(w.overlay, key, matchId, tr);
        FindEffect(w.(overlay := back), matchId, order[1..], tr);
        LeaksAdd(w.overlay, back, FindWith(w.(overlay := back), matchId, order[1..], tr).0, matchId, tr);
        hide FindWith;
      }
      hide GivenBack;
    }
  }

  lemma LeaksAdd(a: Overlay, b: Overlay, c: Overlay, matchId: int, tr: Trouble)
    requires OnlyLeaks(a, b, matchId, tr)
    ensures OnlyLeaks(b, c, matchId, tr) ==> OnlyLeaks(a, c, matchId, tr)
    ensures forall key :: FreshLock(b, c, key, matchId, tr) ==> FreshLock(a, c, key, matchId, tr)
  {
  }

  /** What a failed assignment leaves behind: no pointer; the match record only when setting the pointers failed; a
      lock only where giving it back failed. */
  lemma FailedAssign(w: MapState, matchId: int, teams: seq<Team>, order: seq<int>, tr: Trouble)
    requires AssignWith(w, matchId, teams, order, tr).1.Err?
    ensures var (w', r) := AssignWith(w, matchId, teams, order, tr);
            && w'.chunks == w.chunks && OnlyLeaks(w.overlay, w'.overlay, matchId, tr)
            && (w'.overlay.matches == w.overlay.matches
                || (tr.pointers && exists key ::
                    w'.overlay.matches == w.overlay.matches[matchId := NewMatch(matchId, key, teams)]))
            && (tr.giveBack == {} && !tr.pointers ==> w' == w)
  {
    hide FindWith, OnlyLeaks, FreshLock;
    FindEffect(w, matchId, order, tr);
    var found := FindWith(w, matchId, order, tr);
    var w' := AssignWith(w, matchId, teams, order, tr).0;
    if found.1.Ok? {
      var m := NewMatch(matchId, found.1.value, teams);
      FreshGivenBack(w.overlay, found.0, found.1.value, matchId, tr);
      SavedFresh(w.overlay, found.0, found.1.value, m, matchId, tr);
      FreshGivenBack(w.overlay, SaveMatch(found.0, m), found.1.value, matchId, tr);
      if !tr.save {
        assert w'.overlay.matches == w.overlay.matches[matchId := m];
      }
    }
    NoLeaks(w.overlay, w'.overlay, matchId, tr);
  }

  lemma NoLeaks(before: Overlay, after: Overlay, matchId: int, tr: Trouble)
    requires OnlyLeaks(before, after, matchId, tr)
    ensures tr.giveBack == {} && after.matches == before.matches ==> after == before
  {
    if tr.giveBack == {} {
      assert after.locks == before.locks;
    }
  }

  lemma SavedFresh(before: Overlay, after: Overlay, key: string, m: Match, matchId: int, tr: Trouble)
    requires FreshLock(before, after, key, matchId, tr)
    ensures FreshLock(before, SaveMatch(after, m), key, matchId, tr)
  {
  }

  lemma FreshGivenBack(before: Overlay, after: Overlay, key: string, matchId: int, tr: Trouble)
    requires FreshLock(before, after, key, matchId, tr)
    ensures OnlyLeaks(before, GivenBack(after, key, matchId, tr), matchId, tr)
    ensures GivenBack(after, key, matchId, tr).matches == after.matches
  {
  }

  /** After a successful assignment the new match is the active match of all its users, and it holds the lock of its
      chunk. */
  lemma AssignedPlayers(w: MapState, matchId: int, teams: seq<Team>, order: seq<int>, tr: Trouble, user: int)
    requires AssignWith(w, matchId, teams, order, tr).1.Ok? && user in UserTeamsOf(teams)
    ensures var (w', r) := AssignWith(w, matchId, teams, order, tr);
            && ActiveMatch(w'.overlay, user) == Some(NewMatch(matchId, r.value, teams))
            && r.value in w'.overlay.locks && w'.overlay.locks[r.value] == matchId
  {
    hide FindWith, OnlyLeaks, UserTeamsOf, TeamsOf, ZeroScores;
    FindEffect(w, matchId, order, tr);
    var w' := AssignWith(w, matchId, teams, order, tr).0;
    assert user in w'.overlay.active && w'.overlay.active[user] == matchId;
  }

  /** And nothing else changes: other users' pointers, other matches and older locks are as they were. */
  lemma AssignedOthers(w: MapState, matchId: int, teams: seq<Team>, order: seq<int>, tr: Trouble, user: int, other: int)
    requires AssignWith(w, matchId, teams, order, tr).1.Ok? && user !in UserTeamsOf(teams) && other != matchId
    ensures var (w', r) := AssignWith(w, matchId, teams, order, tr);
            && w'.chunks == w.chunks
            && (user in w'.overlay.active <==> user in w.overlay.active)
            && (user in w.overlay.active ==> w'.overlay.active[user] == w.overlay.active[user])
            && (other in w'.overlay.matches <==> other in w.overlay.matches)
            && (other in w.overlay.matches ==> w'.overlay.matches[other] == w.overlay.matches[other])
            && (forall key :: key in w.overlay.locks ==>
                  key in w'.overlay.locks && w'.overlay.locks[key] == w.overlay.locks[key])
            && r.value !in w.overlay.locks
  {
    hide FindWith, UserTeamsOf, TeamsOf, ZeroScores;
    FindEffect(w, matchId, order, tr);
  }

  /** A search that reports that there is no chunk has met no store failure, and every chunk of the order was locked,
      not clean, or written between its two looks. */
  lemma {:induction false} SearchIsExhaustive(w: MapState, matchId: int, order: seq<int>, tr: Trouble, k: nat)
    requires FindWith(w, matchId, order, tr).1 == Err(NoChunk) && k < |order|
    ensures var key := Print(LeafChunk(order[k]));
            key in w.overlay.locks || !Clean(ChunkOf(w.chunks, key)) || key in tr.dirtied
    decreases |order|
  {
    hide Print, Clean;
    var key := Print(LeafChunk(order[0]));
    var back := GivenBack(Lock(w.overlay, key, matchId), key, matchId, tr);
    if k > 0 {
      assert order[1..][k - 1] == order[k];
      if LockOf(w.overlay, key) != 0 || !Clean(ChunkOf(w.chunks, key)) || key in w.overlay.locks {
        SearchIsExhaustive(w, matchId, order[1..], tr, k - 1);
      } else {
        SearchIsExhaustive(w.(overlay := back), matchId, order[1..], tr, k - 1);
      }
    }
  }

  /** Every leaf chunk is tried: a permutation of all the numbers misses an assignable chunk only if there is none. */
  lemma {:induction false} FirstAssignableFinds(w: MapState, order: seq<int>, id: ChunkID)
    requires Playable(id) && id.y * 64 + id.x in order
    requires Assignable(w, Print(id))
    ensures FirstAssignable(w, order).Some?
  {
    LeafGrid();
    if order[0] == id.y * 64 + id.x {
      assert LeafChunk(order[0]) == id;
    } else if !Assignable(w, Print(LeafChunk(order[0]))) {
      FirstAssignableFinds(w, order[1..], id);
    }
  }

  lemma {:induction false} FirstAssignableIsPlayable(w: MapState, order: seq<int>)
    requires forall k :: 0 <= k < |order| ==> 0 <= order[k] < 4096
    ensures var found := FirstAssignable(w, order);
            found.Some? ==> Assignable(w, found.value) && exists id :: Playable(id) && found.value == Print(id)
  {
    if order != [] {
      LeafGrid();
      assert Playable(LeafChunk(order[0]));
      FirstAssignableIsPlayable(w, order[1..]);
    }
  }

  // ---------------------------------------------------------------- the chunk store

  class ChunkStateStore {
    var states: map<string, Chunk>
    var closedChunks: set<string>

    /** The closed set holds exactly the chunks whose stored state is closed. */
    ghost predicate Exact()
      reads this
    {
      forall key :: key in closedChunks <==> key in states && states[key].closed
    }

    constructor ()
      ensures states == map[] && Exact()
    {
      states, closedChunks := map[], {};
    }

    method GetState(key: string) returns (c: Option<Chunk>)
      ensures c == if key in states then Some(states[key]) else None
    {
      c := if key in states then Some(states[key]) else None;
    }

    /** Writes the state and the closed set in one pipeline. */
    method SaveState(key: string, state: MineChunkState)
      requires Exact()
      modifies this
      ensures states == old(states)[key := state.Value()]
      ensures Exact()
    {
      states := states[key := state.Value()];
      closedChunks := if state.closed then closedChunks + {key} else closedChunks - {key};
    }

    method ListClosedLeafChunkIDs() returns (ids: set<string>)
      ensures ids == closedChunks
    {
      return closedChunks;
    }

    method LoadOrNew(key: string) returns (state: MineChunkState)
      ensures fresh(state) && state.Value() == ChunkOf(states, key)
    {
      var stored := GetState(key);
      state := new MineChunkState(if stored.Some? then stored.value else FRESH);
    }

    method IsCleanChunk(key: string) returns (clean: bool)
      ensures clean <==> Clean(ChunkOf(states, key))
    {
      var stored := GetState(key);
      if stored.None? {
        return true;
      }
      return !stored.value.closed && |stored.value.cells| == 0 && |stored.value.flaggedBy| == 0;
    }
  }

  // ---------------------------------------------------------------- the services

  lemma OpenedAreaVersion(site: Site, c: Chunk, index: int, user: int, now: int)
    requires SiteOk(site)
    ensures OpenedArea(site, c, index, user, now).version == c.version
  {
  }

  lemma ReopenVersion(c: Chunk, now: int, closure: int)
    ensures Reopen(c, now, closure).version >= c.version
  {
  }

  lemma OpenedVersion(site: Site, c: Chunk, index: int, user: int, now: int)
    requires SiteOk(site)
    ensures Uncover(site, c, index, user, now).version == c.version + 1
  {
  }

  lemma OpenBodyVersion(site: Site, c: Chunk, user: int, x: int, y: int, now: int, closure: int)
    requires SiteOk(site) && ChunkCellIndex(x, y).Some?
    ensures var after := OpenBody(site, c, user, x, y, now, closure).0; after == c || after.version == c.version + 1
  {
  }

  class MapService {
    const rules: Rules
    const chunks: ChunkStateStore
    const matches: MineMatchStore

    function State(): MapState
      reads chunks, matches
    {
      MapState(chunks.states, matches.View())
    }

    ghost predicate Valid()
      reads chunks
    {
      chunks.Exact()
    }

    constructor (rules: Rules)
      ensures Valid() && State() == MapState(map[], NO_MATCHES) && this.rules == rules
      ensures fresh(chunks) && fresh(matches)
    {
      this.rules := rules;
      chunks := new ChunkStateStore();
      matches := new MineMatchStore();
    }

    /** Writes the record back when it differs from what is stored; every change of the record is saved. */
    method ReopenExpiredChunk(key: string, state: MineChunkState, now: int, works: bool) returns (ok: bool)
      requires Valid() && state.Value() == ChunkOf(chunks.states, key)
      modifies state, chunks
      ensures Valid() && state.Value() == Reopen(old(state.Value()), now, rules.closure)
      ensures ok <==> works || state.Value() == old(state.Value())
      ensures chunks.states == if ok then Put(old(chunks.states), key, state.Value()) else old(chunks.states)
    {
      if !state.closed {
        return true;
      }
      var changed := false;
      if state.closedUntil.None? {
        if state.closedAt.None? {
          state.closedAt := Some(now);
        }
        state.closedUntil := Some(state.closedAt.value + rules.closure);
        changed := true;
      }
      if now < state.closedUntil.value {
        if changed {
          ok := Save(key, state, works);
          return;
        }
        return true;
      }
      state.closed, state.closedBy, state.closedAt, state.closedUntil := false, 0, None, None;
      state.version := state.version + 1;
      ok := Save(key, state, works);
    }

    /** A save that may fail. */
    method Save(key: string, state: MineChunkState, works: bool) returns (ok: bool)
      requires Valid()
      modifies chunks
      ensures Valid() && ok == works
      ensures chunks.states == if works then old(chunks.states)[key := state.Value()] else old(chunks.states)
    {
      if works {
        chunks.SaveState(key, state);
      }
      return works;
    }

    /** Looks for a cell of the player by ranging over the open cells in any order. */
    method PlayerHasOpenedCell(state: MineChunkState, user: int) returns (found: bool)
      ensures found <==> HasOpened(state.Value(), user)
    {
      var cells := state.openedCells;
      var rest := cells.Keys;
      while rest != {}
        invariant rest <= cells.Keys
        invariant forall i :: i in cells && i !in rest ==> cells[i].openedBy != user
      {
        var i := AnyOf(rest);
        rest := rest - {i};
        if cells[i].openedBy == user {
          return true;
        }
      }
      return false;
    }

    /** The body of an open request on a loaded and reopened record. */
    method OpenLoaded(site: Site, key: string, state: MineChunkState, user: int, x: int, y: int, now: int, works: bool)
      returns (r: Result<OpenResponse, OperationError>)
      requires Valid() && SiteOk(site) && site.season == rules.season && ChunkCellIndex(x, y).Some?
      requires state.Value() == ChunkOf(chunks.states, key)
      modifies state, chunks
      ensures Valid()
      ensures var done := OpenBody(site, old(state.Value()), user, x, y, now, rules.closure);
              var saved := works || done.0 == old(state.Value());
              && state.Value() == done.0 && r == (if saved then done.1 else Err(StoreError))
              && chunks.states == if saved then Put(old(chunks.states), key, done.0) else old(chunks.states)
    {
      hide Uncover, Explode, Number, Mine, HasOpened, Performed, Protected, Put, ChunkOf;
      PutChanged(chunks.states, key, state.Value());
      var index := y * CHUNK_SIZE + x;
      if state.closed {
        return Err(ChunkClosed);
      }
      if index in state.openedCells {
        return Ok(Repeat(state.Value(), state.openedCells[index]));
      }
      if index in state.flaggedBy {
        return Err(CellFlagged);
      }
      r := OpenCovered(site, key, state, user, x, y, now, works);
    }

    /** The second half of it: the cell is covered and not flagged. */
    method OpenCovered(site: Site, key: string, state: MineChunkState, user: int, x: int, y: int, now: int,
        works: bool)
      returns (r: Result<OpenResponse, OperationError>)
      requires Valid() && SiteOk(site) && site.season == rules.season && ChunkCellIndex(x, y).Some?
      requires state.Value() == ChunkOf(chunks.states, key) && !state.closed
      requires ChunkCellIndex(x, y).value !in state.openedCells && ChunkCellIndex(x, y).value !in state.flaggedBy
      modifies state, chunks
      ensures Valid()
      ensures var done := OpenBody(site, old(state.Value()), user, x, y, now, rules.closure);
              var saved := works || done.0 == old(state.Value());
              && state.Value() == done.0 && r == (if saved then done.1 else Err(StoreError))
              && chunks.states == if saved then Put(old(chunks.states), key, done.0) else old(chunks.states)
    {
      hide Uncover, Number, Mine, HasOpened, Put, ChunkOf;
      ghost var before := state.Value();
      PutChanged(chunks.states, key, before);
      var index := y * CHUNK_SIZE + x;
      var openedBefore := |state.openedCells|;
      var isMine := MineHere(site, x, y);
      if isMine.Err? {
        return Err(MineFailure(isMine.error));
      }
      var number := 0;
      if isMine.value {
        var hasOpened := PlayerHasOpenedCell(state, user);
        if !hasOpened {
          return Ok(Protected(state.Value(), x, y, index, now));
        }
        state.closed, state.closedBy := true, user;
        state.closedAt, state.closedUntil := Some(now), Some(now + rules.closure);
      } else {
        number := UncoverCell(site, state, x, y, user, now);
        OpenedVersion(site, before, index, user, now);
      }
      state.version := state.version + 1;
      PutChanged(chunks.states, key, state.Value());
      var ok := Save(key, state, works);
      if !ok {
        return Err(StoreError);
      }
      r := Ok(OpenResponse(x, y, index, isMine.value, state.closed, state.closedAt, state.closedUntil, false, number,
                           state.version, now, |state.openedCells| - openedBefore, state.openedCells));
    }

    method MineHere(site: Site, x: int, y: int) returns (r: Result<bool, MineError>)
      requires SiteOk(site) && ChunkCellIndex(x, y).Some?
      ensures r == if RateOk(site.season) then Ok(Mine(site, ChunkCellIndex(x, y).value)) else Err(InvalidRate)
    {
      IndexCoordinates(x, y);
      CellInWorld(site, y * CHUNK_SIZE + x);
      IsMineByGlobalPoint(site.season, site.id, x, y);
      r := IsMine(site.season, site.id, x, y);
    }

    /** Opens one covered safe cell, with its area when it shows no number. */
    method UncoverCell(site: Site, state: MineChunkState, x: int, y: int, user: int, now: int) returns (number: nat)
      requires SiteOk(site) && RateOk(site.season) && ChunkCellIndex(x, y).Some?
      requires ChunkCellIndex(x, y).value !in state.flaggedBy
      modifies state
      ensures var index := ChunkCellIndex(x, y).value;
              && number == Number(site, index)
              && state.Value() == Uncover(site, old(state.Value()), index, user, now).(version := old(state.version))
    {
      hide OpenedArea, AdjacentMines;
      var index := y * CHUNK_SIZE + x;
      IndexCoordinates(x, y);
      CellInWorld(site, index);
      var counted := AdjacentMineCount(site.season, site.id, x, y);
      number := counted.value;
      if number == 0 {
        var swept := OpenZeroArea(site, state, x, y, user, now);
        OpenedAreaVersion(site, old(state.Value()), index, user, now);
      } else {
        OpenCellInState(state, x, y, index, user, now, number);
        assert state.flaggedBy == old(state.flaggedBy);
      }
    }

    /** Loading and reopening, the first half of every operation. */
    method LoadReopened(key: string, now: int, store: StoreCalls) returns (state: Option<MineChunkState>)
      requires Valid()
      modifies chunks
      ensures Valid() && (state.Some? ==> fresh(state.value))
      ensures var c := ChunkOf(old(chunks.states), key);
              var lifted := Reopen(c, now, rules.closure);
              && (state.None? <==> store.LoadFails? || (store.ReopenFails? && lifted != c))
              && chunks.states == (if state.None? then old(chunks.states) else Put(old(chunks.states), key, lifted))
              && (state.Some? ==> state.value.Value() == lifted == ChunkOf(chunks.states, key))
    {
      if store.LoadFails? {
        return None;
      }
      var loaded := chunks.LoadOrNew(key);
      var ok := ReopenExpiredChunk(key, loaded, now, !store.ReopenFails?);
      state := if ok then Some(loaded) else None;
    }

    /** An open request as the worker performs it, with a failure at any store call. */
    method OpenCellInWorker(user: int, id: ChunkID, x: int, y: int, t: Times, calls: OperationCalls)
      returns (r: Result<(OpenResponse, Option<MatchView>), OperationError>, ghost opponent: int)
      requires Valid() && Playable(id)
      modifies chunks, matches
      ensures Valid() && OpponentChosen(old(matches.View()), user, opponent)
      ensures (State(), r) == OpenOpWith(rules, old(State()), user, id, x, y, t, calls, opponent)
    {
      hide Put, ChunkOf, Authorize, ApplyOpenWith, OpenBody, Reopen, OpponentChosen;
      opponent := SomeOpponent(matches.View(), user);
      var key, site := Print(id), Site(rules.season, id);
      if ChunkCellIndex(x, y).None? {
        return Err(InvalidCell), opponent;
      }
      if !calls.authorize {
        return Err(StoreError), opponent;
      }
      var allowed := matches.AuthorizeChunkOperation(user, key);
      if allowed.Err? {
        return Err(allowed.error), opponent;
      }
      ghost var c := ChunkOf(chunks.states, key);
      PutSame(chunks.states, key);
      ReopenVersion(c, t.reopen, rules.closure);
      var loaded := LoadReopened(key, t.reopen, calls.store);
      if loaded.None? {
        return Err(StoreError), opponent;
      }
      var state := loaded.value;
      ghost var lifted := state.Value();
      var performed := OpenLoaded(site, key, state, user, x, y, t.body, !calls.store.SaveFails?);
      OpenBodyVersion(site, lifted, user, x, y, t.body, rules.closure);
      PutPut(old(chunks.states), key, lifted, state.Value());
      if performed.Err? {
        return Err(performed.error), opponent;
      }
      var shown;
      shown, opponent := matches.ApplyOpenResult(site, user, key, state.Value(), performed.value, t.score, calls.apply);
      if shown.Err? {
        return Err(shown.error), opponent;
      }
      return Ok((performed.value, shown.value)), opponent;
    }

    /** A flag request as the worker performs it, with a failure at any store call. */
    method FlagCellInWorker(user: int, id: ChunkID, x: int, y: int, flagged: bool, t: Times, authorize: bool,
        store: StoreCalls)
      returns (r: Result<FlagResponse, OperationError>)
      requires Valid() && Playable(id)
      modifies chunks
      ensures Valid() && (State(), r) == FlagOpWith(rules, old(State()), user, id, x, y, flagged, t, authorize, store)
    {
      hide Put, ChunkOf, Authorize, Reopen;
      var key := Print(id);
      if ChunkCellIndex(x, y).None? {
        return Err(InvalidCell);
      }
      if !authorize {
        return Err(StoreError);
      }
      var index := y * CHUNK_SIZE + x;
      var allowed := matches.AuthorizeChunkOperation(user, key);
      if allowed.Err? {
        return Err(allowed.error);
      }
      ghost var c := ChunkOf(chunks.states, key);
      PutSame(chunks.states, key);
      ReopenVersion(c, t.reopen, rules.closure);
      var loaded := LoadReopened(key, t.reopen, store);
      if loaded.None? {
        return Err(StoreError);
      }
      var state := loaded.value;
      ghost var lifted := state.Value();
      if state.closed {
        return Err(ChunkClosed);
      }
      if index in state.openedCells {
        return Err(CellAlreadyOpen);
      }
      if flagged {
        state.flaggedBy := state.flaggedBy[index := user];
      } else {
        state.flaggedBy := state.flaggedBy - {index};
      }
      state.version := state.version + 1;
      PutPut(old(chunks.states), key, lifted, state.Value());
      PutChanged(chunks.states, key, state.Value());
      var ok := Save(key, state, !store.SaveFails?);
      if !ok {
        return Err(StoreError);
      }
      r := Ok(FlagResponse(x, y, index, flagged, state.version));
    }

    /** Tries the leaf chunks in the order of the permutation and locks the first clean one that is still clean at the
        second look. */
    method FindAndLockCleanChunk(matchId: int, order: seq<int>, tr: Trouble)
        returns (found: Result<string, AssignError>)
      modifies matches
      ensures (matches.View(), found) == FindWith(old(State()), matchId, order, tr)
    {
      hide Print, Clean;
      assert order[0..] == order;
      for k := 0 to |order|
        invariant FindWith(State(), matchId, order[k..], tr) == FindWith(old(State()), matchId, order, tr)
      {
        var key := Print(LeafChunk(order[k]));
        assert order[k..][0] == order[k] && order[k..][1..] == order[k + 1..];
        if key in tr.lockRead {
          return Err(StoreFailed);
        }
        var lockedBy := matches.GetChunkLock(key);
        if lockedBy != 0 {
          continue;
        }
        if key in tr.firstLook {
          return Err(StoreFailed);
        }
        var clean := chunks.IsCleanChunk(key);
        if !clean {
          continue;
        }
        if key in tr.tryLock {
          return Err(StoreFailed);
        }
        var locked := matches.TryLockChunk(key, matchId);
        if !locked {
          continue;
        }
        if key in tr.secondLook {
          GiveBack(key, matchId, tr);
          return Err(StoreFailed);
        }
        clean := chunks.IsCleanChunk(key);
        if key in tr.dirtied || !clean {
          GiveBack(key, matchId, tr);
          continue;
        }
        return Ok(key);
      }
      return Err(NoChunk);
    }

    /** Giving the lock back; nobody looks whether it worked. */
    method GiveBack(key: string, matchId: int, tr: Trouble)
      modifies matches
      ensures matches.View() == GivenBack(old(matches.View()), key, matchId, tr)
    {
      if key !in tr.giveBack {
        matches.UnlockChunk(key, matchId);
      }
    }

    method AssignChunkForMatch(matchId: int, teams: seq<Team>, order: seq<int>, tr: Trouble)
        returns (r: Result<string, AssignError>)
      modifies matches
      ensures (State(), r) == AssignWith(old(State()), matchId, teams, order, tr)
    {
      r := FindAndLockCleanChunk(matchId, order, tr);
      if r.Err? {
        return;
      }
      var m := BuildMineMatchState(matchId, r.value, teams);
      if tr.save {
        GiveBack(r.value, matchId, tr);
        return Err(StoreFailed);
      }
      matches.SaveMatchState(m);
      if tr.pointers {
        GiveBack(r.value, matchId, tr);
        return Err(StoreFailed);
      }
      matches.SetActiveMatchForUsers(m);
    }
  }
}
