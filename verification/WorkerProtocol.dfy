/** One worker per chunk: the table of workers, their bounded queues, the callers that send, wait, give up and release,
    and idle exit (internal/service/chunk_service.go). Callers and workers take their steps in any order. */
module WorkerProtocol {
  import opened Wrappers
  import opened ChunkIds
  import opened ChunkState
  import opened ChunkMachine
  import opened MatchOverlay
  import opened ChunkService

  // ---------------------------------------------------------------- operations

  datatype Operation = OpenCell(user: int, x: int, y: int) | FlagCell(user: int, x: int, y: int, flagged: bool)

  datatype Request = Request(id: ChunkID, operation: Operation)

  /** One call of enqueueChunkOperation. */
  datatype Call = Call(n: nat)

  /** What the worker meets when it handles a call: a cancelled context, the verdict of the authorisation, the
      stores, the verdict of the match on an open that is already stored, the clock. */
  datatype Meeting = Meeting(canceled: bool, refusal: Option<OperationError>, store: StoreCalls,
      scoring: Option<OperationError>, t: Times)

  datatype Answer = Opened(open: OpenResponse) | FlagSet(flag: FlagResponse) | Refused(error: OperationError)

  /** The fixed parameters; `request` tells what each call asks for. */
  datatype Setup = Setup(rules: Rules, capacity: nat, request: Call -> Request)

  ghost predicate SetupOk(setup: Setup) {
    setup.capacity > 0 && forall c :: Playable(setup.request(c).id)
  }

  function KeyOf(setup: Setup, c: Call): string { Print(setup.request(c).id) }

  /** The body of an operation on the reopened state of its chunk. */
  ghost function Body(rules: Rules, request: Request, lifted: Chunk, m: Meeting)
    : (Chunk, Result<Answer, OperationError>)
    requires Playable(request.id) && ChunkCellIndex(request.operation.x, request.operation.y).Some?
  {
    match request.operation
    case OpenCell(user, x, y) =>
      var body := OpenBody(Site(rules.season, request.id), lifted, user, x, y, m.t.body, rules.closure);
      (body.0, if body.1.Err? then Err(body.1.error) else if m.scoring.Some? then Err(m.scoring.value)
          else Ok(Opened(body.1.value)))
    case FlagCell(user, x, y, flagged) =>
      var body := FlagBody(lifted, user, x, y, flagged);
      (body.0, if body.1.Ok? then Ok(FlagSet(body.1.value)) else Err(body.1.error))
  }

  /** The sequential machine: one operation on the state of its chunk. */
  ghost function Handle(rules: Rules, request: Request, c: Chunk, m: Meeting): (Chunk, Answer)
    requires Playable(request.id)
  {
    if m.canceled then (c, Refused(Canceled))
    else if ChunkCellIndex(request.operation.x, request.operation.y).None? then (c, Refused(InvalidCell))
    else if m.refusal.Some? then (c, Refused(m.refusal.value))
    else
      var lifted := Reopen(c, m.t.reopen, rules.closure);
      var done := Committed(c, lifted, Body(rules, request, lifted, m), m.store);
      (done.0, if done.1.Ok? then done.1.value else Refused(done.1.error))
  }

  // ---------------------------------------------------------------- what a handled operation answers

  predicate Fails<T>(r: Result<T, OperationError>, error: Option<OperationError>) {
    error == if r.Err? then Some(r.error) else None
  }

  /** The meeting is what the operation finds in the stores `w` when its store calls go as `calls` says. */
  ghost predicate Meets(rules: Rules, request: Request, w: MapState, calls: OperationCalls, opponent: int, m: Meeting)
    requires Playable(request.id)
  {
    var key, site, user := Print(request.id), Site(rules.season, request.id), request.operation.user;
    && !m.canceled && m.store == calls.store
    && Fails(if calls.authorize then Authorize(w.overlay, user, key) else Err(StoreError), m.refusal)
    && (request.operation.OpenCell? && ChunkCellIndex(request.operation.x, request.operation.y).Some? ==>
          var c := ChunkOf(w.chunks, key);
          var lifted := Reopen(c, m.t.reopen, rules.closure);
          var body := OpenBody(site, lifted, user, request.operation.x, request.operation.y, m.t.body, rules.closure);
          body.1.Ok? ==>
            Fails(ApplyOpenWith(w.overlay, site, user, key, body.0, body.1.value, m.t.score, calls.apply, opponent).1,
                  m.scoring))
  }

  /** An uncancelled operation does and answers what the atomic operation does on the stores it meets: the opened cells
      or the flag when it goes well, and otherwise the error of the operation itself. */
  lemma HandleIsAtomic(rules: Rules, request: Request, w: MapState, calls: OperationCalls, opponent: int, m: Meeting)
    requires Playable(request.id) && Meets(rules, request, w, calls, opponent, m)
    ensures
      var (c', answer) := Handle(rules, request, ChunkOf(w.chunks, Print(request.id)), m);
      match request.operation
      case OpenCell(user, x, y) =>
        var (w', r) := OpenOpWith(rules, w, user, request.id, x, y, m.t, calls, opponent);
        c' == ChunkOf(w'.chunks, Print(request.id)) && answer == if r.Ok? then Opened(r.value.0) else Refused(r.error)
      case FlagCell(user, x, y, flagged) =>
        var (w', r) := FlagOpWith(rules, w, user, request.id, x, y, flagged, m.t, calls.authorize, calls.store);
        c' == ChunkOf(w'.chunks, Print(request.id)) && answer == if r.Ok? then FlagSet(r.value) else Refused(r.error)
  {
    hide Authorize, OpenBody, FlagBody, Reopen, ApplyOpenWith, Print;
  }

  /** Without a cancelled context an operation is answered with a cancellation only if one of its own calls returned
      it. */
  lemma OwnCancellation(rules: Rules, request: Request, c: Chunk, m: Meeting)
    requires Playable(request.id) && Handle(rules, request, c, m).1 == Refused(Canceled)
    ensures m.canceled || m.refusal == Some(Canceled) || m.scoring == Some(Canceled)
  {
    var lifted := Reopen(c, m.t.reopen, rules.closure);
    var x, y := request.operation.x, request.operation.y;
    hide Reopen, OpenBody, FlagBody;
    if ChunkCellIndex(x, y).Some? {
      match request.operation
      case OpenCell(user, _, _) =>
        OpenRefusals(Site(rules.season, request.id), lifted, user, x, y, m.t.body, rules.closure);
      case FlagCell(user, _, _, flagged) => FlagAnswers(lifted, user, x, y, flagged);
    }
  }

  // ---------------------------------------------------------------- the table of workers

  /** The operation in execution; `canceled` tells whether its context was cancelled already when it was taken up. */
  datatype Job = Job(call: Call, loaded: Chunk, canceled: bool)

  datatype Worker = Worker(key: string, queue: seq<Call>, activeSenders: int, alive: bool, busy: Option<Job>)

  /** `workers` lists every worker ever started; `table` names the one in charge of each chunk. */
  datatype Registry = Registry(table: map<string, nat>, workers: seq<Worker>)

  predicate TableOk(r: Registry) { forall key :: key in r.table ==> r.table[key] < |r.workers| }

  function Acquire(r: Registry, key: string): (Registry, nat)
    requires TableOk(r)
  {
    if key in r.table then
      var w := r.table[key];
      (r.(workers := r.workers[w := r.workers[w].(activeSenders := r.workers[w].activeSenders + 1)]), w)
    else
      var w := |r.workers|;
      (Registry(r.table[key := w], r.workers + [Worker(key, [], 1, true, None)]), w)
  }

  function Release(r: Registry, w: nat): Registry
    requires w < |r.workers|
  {
    if r.workers[w].activeSenders > 0
    then r.(workers := r.workers[w := r.workers[w].(activeSenders := r.workers[w].activeSenders - 1)])
    else r
  }

  /** The idle timer fired: the worker exits unless it is in charge and still needed. */
  function RemoveIdle(r: Registry, w: nat): (Registry, bool)
    requires w < |r.workers|
  {
    var worker := r.workers[w];
    if worker.key !in r.table || r.table[worker.key] != w then (r, true)
    else if worker.activeSenders > 0 || |worker.queue| > 0 then (r, false)
    else (r.(table := r.table - {worker.key}), true)
  }

  /** The mutex-protected sections, on the fields they update. */
  class WorkerTable {
    var table: map<string, nat>
    var workers: seq<Worker>

    function View(): Registry
      reads this
    {
      Registry(table, workers)
    }

    constructor ()
      ensures View() == START.registry
    {
      table, workers := map[], [];
    }

    method AcquireChunkWorker(key: string) returns (w: nat)
      requires TableOk(View())
      modifies this
      ensures (View(), w) == Acquire(old(View()), key)
      ensures TableOk(View()) && w < |workers| && workers[w].key ==
                old(if key in table then workers[table[key]].key else key)
    {
      if key in table {
        w := table[key];
        workers := workers[w := workers[w].(activeSenders := workers[w].activeSenders + 1)];
        return;
      }
      w := |workers|;
      workers := workers + [Worker(key, [], 1, true, None)];
      table := table[key := w];
    }

    method ReleaseChunkWorker(w: nat)
      requires w < |workers|
      modifies this
      ensures View() == Release(old(View()), w)
    {
      if workers[w].activeSenders > 0 {
        workers := workers[w := workers[w].(activeSenders := workers[w].activeSenders - 1)];
      }
    }

    method RemoveIdleChunkWorker(w: nat) returns (exit: bool)
      requires w < |workers|
      modifies this
      ensures (View(), exit) == RemoveIdle(old(View()), w)
    {
      var key := workers[w].key;
      if key !in table || table[key] != w {
        return true;
      }
      if workers[w].activeSenders > 0 || |workers[w].queue| > 0 {
        return false;
      }
      table := table - {key};
      return true;
    }
  }

  // ---------------------------------------------------------------- the system

  /** Where a call is: it holds worker `w`, its operation is in the queue or handled and it waits, or it is about to
      release `w`, or it has returned. */
  datatype Caller = Holding(w: nat) | Waiting(w: nat) | Leaving(w: nat) | Returned

  /** A handled operation: the call, what the worker met, and the result it put in the call's channel. */
  datatype Entry = Entry(call: Call, met: Meeting, answer: Answer)

  datatype System = System(
    registry: Registry, callers: map<Call, Caller>, store: map<string, Chunk>,
    canceled: set<Call>,              // the calls whose context is cancelled
    channels: map<Call, Answer>,      // the capacity-1 result channels that hold a result
    received: map<Call, Answer>,      // the results that callers took
    sent: map<string, seq<Call>>,     // per chunk, the operations accepted by a queue, oldest first
    log: map<string, seq<Entry>>)     // per chunk, the handled operations, oldest first

  datatype Step =
    | Cancel(c: Call)
    | DoAcquire(c: Call)
    | Send(c: Call)
    | Receive(c: Call)
    | GiveUp(c: Call)
    | DoRelease(c: Call)
    | Take(w: nat)
    | Finish(w: nat, met: Meeting)
    | IdleTimeout(w: nat)

  const START: System := System(Registry(map[], []), map[], map[], {}, map[], map[], map[], map[])

  function Sent(s: System, key: string): seq<Call> { if key in s.sent then s.sent[key] else [] }

  function Log(s: System, key: string): seq<Entry> { if key in s.log then s.log[key] else [] }

  predicate IsWorker(s: System, w: nat) { w < |s.registry.workers| }

  /** The worker looks at the context once, some time between taking the operation up and answering it. */
  predicate Looked(s: System, job: Job, met: Meeting) {
    (job.canceled ==> met.canceled) && (met.canceled ==> job.call in s.canceled)
  }

  predicate Enabled(setup: Setup, s: System, e: Step) {
    match e
    case Cancel(c) => true
    case DoAcquire(c) => c !in s.callers && c !in s.canceled && TableOk(s.registry)
    case Send(c) => c in s.callers && s.callers[c].Holding? && IsWorker(s, s.callers[c].w)
                    && |s.registry.workers[s.callers[c].w].queue| < setup.capacity
    case Receive(c) => c in s.callers && s.callers[c].Waiting? && c in s.channels
    case GiveUp(c) => c in s.callers && (s.callers[c].Holding? || s.callers[c].Waiting?) && c in s.canceled
    case DoRelease(c) => c in s.callers && s.callers[c].Leaving? && IsWorker(s, s.callers[c].w)
    case Take(w) => IsWorker(s, w) && s.registry.workers[w].alive && s.registry.workers[w].busy.None?
        && s.registry.workers[w].queue != []
    case Finish(w, met) => IsWorker(s, w) && s.registry.workers[w].busy.Some?
                           && s.registry.workers[w].busy.value.call !in s.channels
                           && Looked(s, s.registry.workers[w].busy.value, met)
    case IdleTimeout(w) => IsWorker(s, w) && s.registry.workers[w].alive && s.registry.workers[w].busy.None?
  }

  function Change(s: System, w: nat, worker: Worker): Registry
    requires IsWorker(s, w)
  {
    s.registry.(workers := s.registry.workers[w := worker])
  }

  ghost function Next(setup: Setup, s: System, e: Step): System
    requires SetupOk(setup) && Enabled(setup, s, e)
  {
    match e
    case Cancel(c) => s.(canceled := s.canceled + {c})
    case DoAcquire(c) =>
      var (registry, w) := Acquire(s.registry, KeyOf(setup, c));
      s.(registry := registry, callers := s.callers[c := Holding(w)])
    case Send(c) =>
      var w := s.callers[c].w;
      var worker, key := s.registry.workers[w], KeyOf(setup, c);
      s.(registry := Change(s, w, worker.(queue := worker.queue + [c])), callers := s.callers[c := Waiting(w)],
         sent := s.sent[key := Sent(s, key) + [c]])
    case Receive(c) =>
      s.(callers := s.callers[c := Leaving(s.callers[c].w)], channels := s.channels - {c},
          received := s.received[c := s.channels[c]])
    case GiveUp(c) => s.(callers := s.callers[c := Leaving(s.callers[c].w)])
    case DoRelease(c) => s.(registry := Release(s.registry, s.callers[c].w), callers := s.callers[c := Returned])
    case Take(w) =>
      var worker := s.registry.workers[w];
      s.(registry := Change(s, w, worker.(queue := worker.queue[1..],
          busy := Some(Job(worker.queue[0], ChunkOf(s.store, worker.key), worker.queue[0] in s.canceled)))))
    case Finish(w, met) =>
      var worker := s.registry.workers[w];
      var c := worker.busy.value.call;
      var (state, answer) := Handle(setup.rules, setup.request(c), worker.busy.value.loaded, met);
      s.(registry := Change(s, w, worker.(busy := None)), store := Put(s.store, worker.key, state),
         channels := s.channels[c := answer], log := s.log[worker.key := Log(s, worker.key) + [Entry(c, met, answer)]])
    case IdleTimeout(w) =>
      var (registry, exit) := RemoveIdle(s.registry, w);
      s.(registry := if exit then registry.(workers := registry.workers[w := registry.workers[w].(alive := false)])
          else registry)
  }

  ghost predicate IsRunFrom(setup: Setup, states: seq<System>, steps: seq<Step>)
    requires SetupOk(setup)
  {
    && |states| == |steps| + 1
    && forall k :: 0 <= k < |steps| ==>
        Enabled(setup, states[k], steps[k]) && states[k + 1] == Next(setup, states[k], steps[k])
  }

  ghost predicate IsRun(setup: Setup, states: seq<System>, steps: seq<Step>)
    requires SetupOk(setup)
  {
    IsRunFrom(setup, states, steps) && states[0] == START
  }

  // ---------------------------------------------------------------- the invariant

  /** The call is between its acquire and its release. */
  predicate Engaged(caller: Caller, w: nat) { !caller.Returned? && caller.w == w }

  ghost function EngagedWith(callers: map<Call, Caller>, w: nat): set<Call> {
    set c | c in callers && Engaged(callers[c], w)
  }

  /** The worker in charge of a chunk, and only it, is alive. */
  ghost predicate InCharge(r: Registry) {
    && (forall key :: key in r.table ==>
        r.table[key] < |r.workers| && r.workers[r.table[key]].key == key && r.workers[r.table[key]].alive)
    && (forall w :: 0 <= w < |r.workers| && r.workers[w].alive ==>
        r.workers[w].key in r.table && r.table[r.workers[w].key] == w)
    && (forall w :: 0 <= w < |r.workers| && !r.workers[w].alive ==> r.workers[w].queue == [] && r.workers[w].busy.None?)
  }

  /** `activeSenders` counts the engaged callers, each of which holds a live worker of its own chunk. */
  ghost predicate SendersInv(setup: Setup, s: System) {
    && (forall w :: 0 <= w < |s.registry.workers| ==>
        s.registry.workers[w].activeSenders == |EngagedWith(s.callers, w)|)
    && (forall c :: c in s.callers && !s.callers[c].Returned? ==> HoldsLive(setup, s.registry, c, s.callers[c].w))
  }

  ghost predicate HoldsLive(setup: Setup, r: Registry, c: Call, w: nat) {
    w < |r.workers| && r.workers[w].alive && r.workers[w].key == KeyOf(setup, c)
  }

  /** The operations accepted for a chunk and not handled yet: the one in execution, then the queue. */
  function Pending(r: Registry, key: string): seq<Call> {
    if key in r.table && r.table[key] < |r.workers| then
      var worker := r.workers[r.table[key]];
      (if worker.busy.Some? then [worker.busy.value.call] else []) + worker.queue
    else []
  }

  function Calls(log: seq<Entry>): seq<Call> { seq(|log|, k requires 0 <= k < |log| => log[k].call) }

  ghost predicate Distinct(calls: seq<Call>) {
    forall i, j :: 0 <= i < j < |calls| ==> calls[i] != calls[j]
  }

  /** Everything a queue accepted has been handled, in the order of acceptance, or is still pending; nothing is lost,
      repeated or reordered. */
  ghost predicate OrderInv(setup: Setup, s: System) {
    forall key :: OrderAt(setup, s, key)
  }

  ghost predicate OrderAt(setup: Setup, s: System, key: string) {
    && Sent(s, key) == Calls(Log(s, key)) + Pending(s.registry, key) && Distinct(Sent(s, key))
    && forall c :: c in Sent(s, key) ==> KeyOf(setup, c) == key && c in s.callers && !s.callers[c].Holding?
  }

  ghost predicate Answered(s: System, c: Call, answer: Answer) {
    (c in s.channels && s.channels[c] == answer && c !in s.received)
        || (c in s.received && s.received[c] == answer && c !in s.channels)
  }

  /** Every handled call has its one result in its channel or with its caller, and no other call has any. */
  ghost predicate ResultsInv(setup: Setup, s: System) {
    && (forall key, k :: 0 <= k < |Log(s, key)| ==> Answered(s, Log(s, key)[k].call, Log(s, key)[k].answer))
    && (forall c :: c in s.channels || c in s.received ==> c in Calls(Log(s, KeyOf(setup, c))))
  }

  /** The sequential machine, run over a log. */
  ghost function Fold(setup: Setup, log: seq<Entry>): Chunk
    requires SetupOk(setup)
  {
    if log == [] then FRESH
    else
      var last := log[|log| - 1];
      Handle(setup.rules, setup.request(last.call), Fold(setup, log[..|log| - 1]), last.met).0
  }

  ghost predicate AnswersFit(setup: Setup, log: seq<Entry>)
    requires SetupOk(setup)
  {
    forall k :: 0 <= k < |log| ==>
      log[k].answer == Handle(setup.rules, setup.request(log[k].call), Fold(setup, log[..k]), log[k].met).1
  }

  /** The store holds what the sequential machine computes from the log; so does the state a busy worker has loaded. */
  ghost predicate StoreInv(setup: Setup, s: System)
    requires SetupOk(setup)
  {
    && (forall key :: ChunkOf(s.store, key) == Fold(setup, Log(s, key)) && AnswersFit(setup, Log(s, key)))
    && (forall w :: 0 <= w < |s.registry.workers| && s.registry.workers[w].busy.Some? ==>
          s.registry.workers[w].busy.value.loaded == ChunkOf(s.store, s.registry.workers[w].key))
  }

  /** Only an operation whose context is cancelled is refused for it. */
  ghost predicate CanceledInv(s: System) {
    && (forall w :: 0 <= w < |s.registry.workers| ==> JobFits(s, s.registry.workers[w].busy))
    && (forall key, k :: 0 <= k < |Log(s, key)| && Log(s, key)[k].met.canceled ==> Log(s, key)[k].call in s.canceled)
  }

  predicate JobFits(s: System, busy: Option<Job>) {
    busy.Some? && busy.value.canceled ==> busy.value.call in s.canceled
  }

  ghost predicate Inv(setup: Setup, s: System)
    requires SetupOk(setup)
  {
    && InCharge(s.registry) && SendersInv(setup, s) && OrderInv(setup, s) && ResultsInv(setup, s) && StoreInv(setup, s)
    && CanceledInv(s)
  }

  lemma StartInv(setup: Setup)
    requires SetupOk(setup)
    ensures Inv(setup, START)
  {
  }

  // ---------------------------------------------------------------- steps of the callers

  lemma EngagedAdd(callers: map<Call, Caller>, c: Call, caller: Caller, w: nat)
    ensures var n := |EngagedWith(callers, w)|;
            |EngagedWith(callers[c := caller], w)| ==
              n - (if c in callers && Engaged(callers[c], w) then 1 else 0) + (if Engaged(caller, w) then 1 else 0)
  {
    var without := EngagedWith(callers, w) - {c};
    assert EngagedWith(callers[c := caller], w) == if Engaged(caller, w) then without + {c} else without;
    assert EngagedWith(callers, w) == if c in callers && Engaged(callers[c], w) then without + {c} else without;
  }

  /** A caller that keeps its worker while its own stage changes. */
  lemma SameSenders(setup: Setup, s: System, s': System, c: Call, caller: Caller)
    requires SendersInv(setup, s) && c in s.callers && !s.callers[c].Returned?
    requires s'.registry == s.registry && s'.callers == s.callers[c := caller]
    requires !caller.Returned? && caller.w == s.callers[c].w
    ensures SendersInv(setup, s')
  {
    hide EngagedWith;
    forall w | 0 <= w < |s.registry.workers| ensures |EngagedWith(s'.callers, w)| == |EngagedWith(s.callers, w)| {
      EngagedAdd(s.callers, c, caller, w);
    }
  }

  /** Workers changed only in their queue or job: the senders stay counted. */
  ghost predicate SameStaff(r: Registry, r': Registry) {
    && |r'.workers| == |r.workers| && r'.table == r.table
    && forall w :: 0 <= w < |r.workers| ==>
         r'.workers[w].key == r.workers[w].key && r'.workers[w].alive == r.workers[w].alive
         && r'.workers[w].activeSenders == r.workers[w].activeSenders
  }

  lemma SendersSameStaff(setup: Setup, s: System, s': System)
    requires SendersInv(setup, s) && SameStaff(s.registry, s'.registry) && s'.callers == s.callers
    ensures SendersInv(setup, s')
  {
    hide EngagedWith;
    assert forall w :: 0 <= w < |s.registry.workers| ==> EngagedWith(s'.callers, w) == EngagedWith(s.callers, w);
  }

  /** What a caller's worker is: alive, in charge of the caller's chunk. */
  lemma CallerFacts(setup: Setup, s: System, c: Call)
    requires InCharge(s.registry) && SendersInv(setup, s) && c in s.callers && !s.callers[c].Returned?
    ensures var w := s.callers[c].w;
            && w < |s.registry.workers| && s.registry.workers[w].alive && s.registry.workers[w].key == KeyOf(setup, c)
            && KeyOf(setup, c) in s.registry.table && s.registry.table[KeyOf(setup, c)] == w
            && s.registry.workers[w].activeSenders > 0
  {
    var w := s.callers[c].w;
    assert HoldsLive(setup, s.registry, c, w);
    assert c in EngagedWith(s.callers, w);
    assert |EngagedWith(s.callers, w)| != 0;
  }

  lemma AcquireKeeps(setup: Setup, s: System, c: Call)
    requires InCharge(s.registry) && SendersInv(setup, s) && c !in s.callers
    ensures var (registry, w) := Acquire(s.registry, KeyOf(setup, c));
            InCharge(registry) && SendersInv(setup, s.(registry := registry, callers := s.callers[c := Holding(w)]))
  {
    hide EngagedWith, Print;
    var (registry, w) := Acquire(s.registry, KeyOf(setup, c));
    var callers := s.callers[c := Holding(w)];
    forall v | 0 <= v < |registry.workers| ensures registry.workers[v].activeSenders == |EngagedWith(callers, v)| {
      EngagedAdd(s.callers, c, Holding(w), v);
      if v == |s.registry.workers| {
        NobodyYet(setup, s, v);
      }
    }
  }

  lemma NobodyYet(setup: Setup, s: System, v: nat)
    requires SendersInv(setup, s) && v >= |s.registry.workers|
    ensures |EngagedWith(s.callers, v)| == 0
  {
    forall c | c in s.callers && !s.callers[c].Returned? ensures s.callers[c].w != v {
      assert HoldsLive(setup, s.registry, c, s.callers[c].w);
    }
    assert EngagedWith(s.callers, v) == {};
  }

  lemma ReleaseKeeps(setup: Setup, s: System, c: Call)
    requires InCharge(s.registry) && SendersInv(setup, s) && c in s.callers && s.callers[c].Leaving?
    ensures var w := s.callers[c].w;
            && w < |s.registry.workers|
            && var registry := Release(s.registry, w);
            InCharge(registry) && SendersInv(setup, s.(registry := registry, callers := s.callers[c := Returned]))
  {
    hide EngagedWith, Print;
    var w := s.callers[c].w;
    CallerFacts(setup, s, c);
    var callers := s.callers[c := Returned];
    forall v | 0 <= v < |s.registry.workers|
      ensures |EngagedWith(callers, v)| == |EngagedWith(s.callers, v)| - if v == w then 1 else 0
    {
      EngagedAdd(s.callers, c, Returned, v);
    }
  }

  /** A worker exits only when nothing is queued, nothing is running and no caller holds it. */
  lemma ExitIsSafe(setup: Setup, s: System, w: nat)
    requires InCharge(s.registry) && SendersInv(setup, s) && IsWorker(s, w) && s.registry.workers[w].alive
    ensures RemoveIdle(s.registry, w).1 <==> s.registry.workers[w].queue == [] && EngagedWith(s.callers, w) == {}
  {
  }

  lemma IdleKeeps(setup: Setup, s: System, w: nat)
    requires InCharge(s.registry) && SendersInv(setup, s) && IsWorker(s, w)
    requires s.registry.workers[w].alive && s.registry.workers[w].busy.None? && RemoveIdle(s.registry, w).1
    ensures var registry := RemoveIdle(s.registry, w).0;
            var registry' := registry.(workers := registry.workers[w := registry.workers[w].(alive := false)]);
            InCharge(registry') && SendersInv(setup, s.(registry := registry'))
  {
    hide Print;
    ExitIsSafe(setup, s, w);
    var registry := RemoveIdle(s.registry, w).0;
    var registry' := registry.(workers := registry.workers[w := registry.workers[w].(alive := false)]);
    forall c | c in s.callers && !s.callers[c].Returned? ensures HoldsLive(setup, registry', c, s.callers[c].w) {
      assert HoldsLive(setup, s.registry, c, s.callers[c].w);
      assert c in EngagedWith(s.callers, s.callers[c].w);
    }
  }

  // ---------------------------------------------------------------- order

  /** Two systems that agree on what is accepted, handled and pending. */
  lemma SameOrder(setup: Setup, s: System, s': System)
    requires OrderInv(setup, s) && s'.sent == s.sent && s'.log == s.log
    requires forall key :: Pending(s'.registry, key) == Pending(s.registry, key)
    requires forall c :: c in s.callers ==> c in s'.callers && (s'.callers[c].Holding? ==> s.callers[c].Holding?)
    ensures OrderInv(setup, s')
  {
    hide Pending, Distinct, Calls;
    forall key ensures OrderAt(setup, s', key) {
      assert OrderAt(setup, s, key) && Sent(s', key) == Sent(s, key) && Log(s', key) == Log(s, key);
    }
  }

  lemma AcquirePending(r: Registry, key: string, other: string)
    requires InCharge(r)
    ensures Pending(Acquire(r, key).0, other) == Pending(r, other)
  {
  }

  lemma ReleasePending(r: Registry, w: nat, other: string)
    requires InCharge(r) && w < |r.workers|
    ensures Pending(Release(r, w), other) == Pending(r, other)
  {
  }

  lemma IdlePending(r: Registry, w: nat, other: string)
    requires InCharge(r) && w < |r.workers| && r.workers[w].alive && r.workers[w].busy.None? && RemoveIdle(r, w).1
    ensures var registry := RemoveIdle(r, w).0;
            Pending(registry.(workers := registry.workers[w := registry.workers[w].(alive := false)]), other) ==
                Pending(r, other)
  {
  }

  lemma TakePending(r: Registry, w: nat, loaded: Chunk, canceled: bool, other: string)
    requires InCharge(r) && w < |r.workers| && r.workers[w].busy.None? && r.workers[w].queue != []
    ensures var worker := r.workers[w];
            var registry := r.(workers := r.workers[w := worker.(queue := worker.queue[1..],
                busy := Some(Job(worker.queue[0], loaded, canceled)))]);
            Pending(registry, other) == Pending(r, other)
  {
  }

  lemma SendPending(r: Registry, w: nat, c: Call, other: string)
    requires InCharge(r) && w < |r.workers| && r.workers[w].alive
    ensures var registry := r.(workers := r.workers[w := r.workers[w].(queue := r.workers[w].queue + [c])]);
            Pending(registry, other) == if other == r.workers[w].key then Pending(r, other) + [c] else Pending(r, other)
  {
  }

  lemma FinishPending(r: Registry, w: nat, other: string)
    requires InCharge(r) && w < |r.workers| && r.workers[w].busy.Some?
    ensures var registry := r.(workers := r.workers[w := r.workers[w].(busy := None)]);
            Pending(r, other) ==
              if other == r.workers[w].key then [r.workers[w].busy.value.call] + Pending(registry, other)
                  else Pending(registry, other)
  {
  }

  lemma SendOrderAt(setup: Setup, s: System, s': System, c: Call, w: nat, key: string)
    requires OrderAt(setup, s, key) && c in s.callers && s.callers[c].Holding?
    requires s'.callers == s.callers[c := Waiting(w)] && Log(s', key) == Log(s, key)
    requires Sent(s', key) == Sent(s, key) + if key == KeyOf(setup, c) then [c] else []
    requires Pending(s'.registry, key) == Pending(s.registry, key) + if key == KeyOf(setup, c) then [c] else []
    ensures OrderAt(setup, s', key)
  {
    hide Calls, KeyOf, Pending, Distinct, Sent, Log;
    assert c !in Sent(s, key);
    if key == KeyOf(setup, c) {
      DistinctAdd(Sent(s, key), c);
      assert Calls(Log(s, key)) + (Pending(s.registry, key) + [c]) ==
          Calls(Log(s, key)) + Pending(s.registry, key) + [c];
    } else {
      assert Sent(s', key) == Sent(s, key) && Pending(s'.registry, key) == Pending(s.registry, key);
    }
  }

  lemma SendHistory(setup: Setup, s: System, c: Call, key: string)
    requires SetupOk(setup) && Enabled(setup, s, Send(c))
    ensures var s' := Next(setup, s, Send(c));
            Log(s', key) == Log(s, key) && Sent(s', key) == Sent(s, key) + if key == KeyOf(setup, c) then [c] else []
  {
    hide Print;
  }

  lemma SendOrder(setup: Setup, s: System, c: Call)
    requires SetupOk(setup) && OrderInv(setup, s) && InCharge(s.registry) && SendersInv(setup, s)
               && Enabled(setup, s, Send(c))
    ensures OrderInv(setup, Next(setup, s, Send(c)))
  {
    hide Distinct, Calls, Print, Pending;
    CallerFacts(setup, s, c);
    hide SendersInv, Sent, Log, OrderAt;
    var s' := Next(setup, s, Send(c));
    forall key ensures OrderAt(setup, s', key) {
      SendPending(s.registry, s.callers[c].w, c, key);
      SendHistory(setup, s, c, key);
      assert OrderAt(setup, s, key);
      SendOrderAt(setup, s, s', c, s.callers[c].w, key);
    }
  }

  lemma DistinctAdd(calls: seq<Call>, c: Call)
    requires Distinct(calls) && c !in calls
    ensures Distinct(calls + [c])
  {
  }

  lemma CallsAdd(log: seq<Entry>, e: Entry)
    ensures Calls(log + [e]) == Calls(log) + [e.call]
  {
  }

  lemma FinishOrderAt(setup: Setup, s: System, s': System, key: string, mine: string, e: Entry)
    requires OrderAt(setup, s, key) && s'.callers == s.callers && s'.sent == s.sent
    requires Log(s', key) == Log(s, key) + if key == mine then [e] else []
    requires Pending(s.registry, key) == (if key == mine then [e.call] else []) + Pending(s'.registry, key)
    ensures OrderAt(setup, s', key)
  {
    hide Distinct, Calls, Print, Pending, Log;
    CallsAdd(Log(s, key), e);
    if key == mine {
      assert Calls(Log(s, key)) + ([e.call] + Pending(s'.registry, key)) ==
          Calls(Log(s, key)) + [e.call] + Pending(s'.registry, key);
    } else {
      assert Log(s', key) == Log(s, key) && Pending(s'.registry, key) == Pending(s.registry, key);
    }
  }

  lemma FinishOrder(setup: Setup, s: System, w: nat, met: Meeting)
    requires SetupOk(setup) && OrderInv(setup, s) && InCharge(s.registry) && Enabled(setup, s, Finish(w, met))
    ensures OrderInv(setup, Next(setup, s, Finish(w, met)))
  {
    hide Print, Handle, Pending, OrderAt;
    var s' := Next(setup, s, Finish(w, met));
    var worker := s.registry.workers[w];
    forall key ensures OrderAt(setup, s', key) {
      assert OrderAt(setup, s, key);
      FinishPending(s.registry, w, key);
      FinishLog(setup, s, w, met, key);
      FinishOrderAt(setup, s, s', key, worker.key, FinishedEntry(setup, s, w, met));
    }
  }

  /** The entry that finishing adds to the log. */
  ghost function FinishedEntry(setup: Setup, s: System, w: nat, met: Meeting): Entry
    requires SetupOk(setup) && Enabled(setup, s, Finish(w, met))
  {
    var job := s.registry.workers[w].busy.value;
    Entry(job.call, met, Handle(setup.rules, setup.request(job.call), job.loaded, met).1)
  }

  lemma FinishLog(setup: Setup, s: System, w: nat, met: Meeting, key: string)
    requires SetupOk(setup) && Enabled(setup, s, Finish(w, met))
    ensures var s' := Next(setup, s, Finish(w, met));
            var e := FinishedEntry(setup, s, w, met);
            && Log(s', key) == (if key == s.registry.workers[w].key then Log(s, key) + [e] else Log(s, key))
            && s'.channels == s.channels[e.call := e.answer] && s'.received == s.received
  {
    hide Handle;
  }

  // ---------------------------------------------------------------- results

  /** A call in execution has not been answered yet, so its result always finds room in the channel. */
  lemma BusyUnanswered(setup: Setup, s: System, w: nat)
    requires InCharge(s.registry) && OrderInv(setup, s) && ResultsInv(setup, s)
    requires IsWorker(s, w) && s.registry.workers[w].busy.Some?
    ensures var c := s.registry.workers[w].busy.value.call;
            && KeyOf(setup, c) == s.registry.workers[w].key
            && c !in Calls(Log(s, KeyOf(setup, c))) && c !in s.channels && c !in s.received
  {
    hide Print;
    var worker := s.registry.workers[w];
    var c := worker.busy.value.call;
    var handled := Calls(Log(s, worker.key));
    assert OrderAt(setup, s, worker.key);
    assert Pending(s.registry, worker.key) == [c] + worker.queue;
    assert Sent(s, worker.key) == handled + ([c] + worker.queue);
    DistinctMiddle(handled, c, worker.queue);
    assert Sent(s, worker.key)[|handled|] == c;
  }

  lemma DistinctMiddle(before: seq<Call>, c: Call, after: seq<Call>)
    requires Distinct(before + ([c] + after))
    ensures c !in before
  {
    var all := before + ([c] + after);
    forall i | 0 <= i < |before| ensures before[i] != c {
      assert all[i] == before[i] && all[|before|] == c;
    }
  }

  lemma FinishResults(setup: Setup, s: System, w: nat, met: Meeting)
    requires SetupOk(setup) && InCharge(s.registry) && OrderInv(setup, s) && ResultsInv(setup, s)
               && Enabled(setup, s, Finish(w, met))
    ensures ResultsInv(setup, Next(setup, s, Finish(w, met)))
  {
    hide Print, Handle, OrderInv, InCharge, Calls, Log, Answered;
    BusyUnanswered(setup, s, w);
    hide Next, Enabled;
    var s' := Next(setup, s, Finish(w, met));
    var e := FinishedEntry(setup, s, w, met);
    forall key, k | 0 <= k < |Log(s', key)| ensures Answered(s', Log(s', key)[k].call, Log(s', key)[k].answer) {
      FinishLog(setup, s, w, met, key);
      if k < |Log(s, key)| {
        assert Log(s', key)[k] == Log(s, key)[k];
        OthersAnswered(setup, s, s', e, key, k);
      } else {
        assert Log(s', key)[k] == e;
        JustAnswered(s, s', e);
      }
    }
    forall d | d in s'.channels || d in s'.received ensures d in Calls(Log(s', KeyOf(setup, d))) {
      FinishLog(setup, s, w, met, KeyOf(setup, d));
      CallsAdd(Log(s, KeyOf(setup, d)), e);
    }
  }

  lemma JustAnswered(s: System, s': System, e: Entry)
    requires e.call !in s.received && s'.channels == s.channels[e.call := e.answer] && s'.received == s.received
    ensures Answered(s', e.call, e.answer)
  {
  }

  lemma OthersAnswered(setup: Setup, s: System, s': System, e: Entry, key: string, k: nat)
    requires k < |Log(s, key)| && Answered(s, Log(s, key)[k].call, Log(s, key)[k].answer)
    requires e.call !in s.channels && e.call !in s.received
    requires s'.channels == s.channels[e.call := e.answer] && s'.received == s.received
    ensures Answered(s', Log(s, key)[k].call, Log(s, key)[k].answer)
  {
  }

  lemma ReceiveResults(setup: Setup, s: System, c: Call)
    requires SetupOk(setup) && ResultsInv(setup, s) && Enabled(setup, s, Receive(c))
    ensures ResultsInv(setup, Next(setup, s, Receive(c)))
  {
    hide Print, Calls;
    var s' := Next(setup, s, Receive(c));
    forall key, k | 0 <= k < |Log(s', key)| ensures Answered(s', Log(s', key)[k].call, Log(s', key)[k].answer) {
      assert Log(s', key) == Log(s, key);
      assert Answered(s, Log(s, key)[k].call, Log(s, key)[k].answer);
    }
    forall d | d in s'.channels || d in s'.received ensures d in Calls(Log(s', KeyOf(setup, d))) {
      assert Log(s', KeyOf(setup, d)) == Log(s, KeyOf(setup, d));
    }
  }

  lemma SameResults(setup: Setup, s: System, s': System)
    requires ResultsInv(setup, s) && s'.channels == s.channels && s'.received == s.received && s'.log == s.log
    ensures ResultsInv(setup, s')
  {
    hide Print, Calls;
    assert forall key :: Log(s', key) == Log(s, key);
    forall key, k | 0 <= k < |Log(s', key)| ensures Answered(s', Log(s', key)[k].call, Log(s', key)[k].answer) {
      assert Answered(s, Log(s, key)[k].call, Log(s, key)[k].answer);
    }
  }

  // ---------------------------------------------------------------- the store

  lemma FoldAdd(setup: Setup, log: seq<Entry>, e: Entry)
    requires SetupOk(setup) && AnswersFit(setup, log)
    requires e.answer == Handle(setup.rules, setup.request(e.call), Fold(setup, log), e.met).1
    ensures Fold(setup, log + [e]) == Handle(setup.rules, setup.request(e.call), Fold(setup, log), e.met).0
    ensures AnswersFit(setup, log + [e])
  {
    hide Handle;
    var longer := log + [e];
    assert longer[..|longer| - 1] == log;
    forall k | 0 <= k < |longer|
      ensures longer[k].answer == Handle(setup.rules, setup.request(longer[k].call), Fold(setup, longer[..k]),
                longer[k].met).1
    {
      if k < |log| {
        assert longer[..k] == log[..k];
      }
    }
  }

  lemma FinishStore(setup: Setup, s: System, w: nat, met: Meeting)
    requires SetupOk(setup) && InCharge(s.registry) && StoreInv(setup, s) && Enabled(setup, s, Finish(w, met))
    ensures StoreInv(setup, Next(setup, s, Finish(w, met)))
  {
    hide Handle, Fold, AnswersFit, Print;
    var s' := Next(setup, s, Finish(w, met));
    var worker := s.registry.workers[w];
    var e := Log(s', worker.key)[|Log(s, worker.key)|];
    FoldAdd(setup, Log(s, worker.key), e);
    forall key ensures ChunkOf(s'.store, key) == Fold(setup, Log(s', key)) && AnswersFit(setup, Log(s', key)) {
      if key != worker.key {
        assert Log(s', key) == Log(s, key) && ChunkOf(s'.store, key) == ChunkOf(s.store, key);
      }
    }
  }

  lemma TakeStore(setup: Setup, s: System, w: nat)
    requires SetupOk(setup) && StoreInv(setup, s) && Enabled(setup, s, Take(w))
    ensures StoreInv(setup, Next(setup, s, Take(w)))
  {
    hide Fold, AnswersFit, Print;
    var s' := Next(setup, s, Take(w));
    assert forall key :: Log(s', key) == Log(s, key);
  }

  lemma SameStore(setup: Setup, s: System, s': System)
    requires SetupOk(setup) && StoreInv(setup, s) && s'.store == s.store && s'.log == s.log
    requires forall w :: 0 <= w < |s'.registry.workers| && s'.registry.workers[w].busy.Some? ==>
               w < |s.registry.workers| && s.registry.workers[w].busy == s'.registry.workers[w].busy
               && s.registry.workers[w].key == s'.registry.workers[w].key
    ensures StoreInv(setup, s')
  {
    hide Fold, AnswersFit;
    assert forall key :: Log(s', key) == Log(s, key);
  }

  // ---------------------------------------------------------------- every step keeps the invariant

  /** The job of a worker after a step: what it was, none, or an operation taken up now. */
  lemma JobAfter(setup: Setup, s: System, e: Step, w: nat)
    requires SetupOk(setup) && Enabled(setup, s, e) && IsWorker(Next(setup, s, e), w)
    ensures var busy := Next(setup, s, e).registry.workers[w].busy;
            || busy.None? || (IsWorker(s, w) && busy == s.registry.workers[w].busy)
            || (e == Take(w) && busy.value.canceled == (busy.value.call in s.canceled))
  {
    hide Handle, Print, ChunkOf, Put;
  }

  /** The log of a chunk after a step: what it was, or with the entry of the operation finished now. */
  lemma LogAfter(setup: Setup, s: System, e: Step, key: string)
    requires SetupOk(setup) && Enabled(setup, s, e)
    ensures Log(Next(setup, s, e), key) == Log(s, key)
            || (e.Finish? && Log(Next(setup, s, e), key) == Log(s, key) + [FinishedEntry(setup, s, e.w, e.met)])
  {
    hide Handle, Print, Acquire, Release, RemoveIdle, FinishedEntry;
    if e.Finish? {
      FinishLog(setup, s, e.w, e.met, key);
    }
  }

  lemma CanceledGrows(setup: Setup, s: System, e: Step, c: Call)
    requires SetupOk(setup) && Enabled(setup, s, e) && c in s.canceled
    ensures c in Next(setup, s, e).canceled
  {
    hide Handle, Print, Acquire, Release, RemoveIdle;
  }

  lemma CanceledStep(setup: Setup, s: System, e: Step)
    requires SetupOk(setup) && CanceledInv(s) && Enabled(setup, s, e)
    ensures CanceledInv(Next(setup, s, e))
  {
    hide Next, Handle, Print, Log;
    var s' := Next(setup, s, e);
    forall c | c in s.canceled ensures c in s'.canceled {
      CanceledGrows(setup, s, e, c);
    }
    forall w | 0 <= w < |s'.registry.workers| ensures JobFits(s', s'.registry.workers[w].busy) {
      JobAfter(setup, s, e, w);
      assert IsWorker(s, w) ==> JobFits(s, s.registry.workers[w].busy);
    }
    forall key, k | 0 <= k < |Log(s', key)| && Log(s', key)[k].met.canceled
      ensures Log(s', key)[k].call in s'.canceled
    {
      LogAfter(setup, s, e, key);
      assert k < |Log(s, key)| ==> Log(s', key)[k] == Log(s, key)[k];
    }
  }

  lemma CancelStep(setup: Setup, s: System, c: Call)
    requires SetupOk(setup) && Inv(setup, s)
    ensures Inv(setup, Next(setup, s, Cancel(c)))
  {
    hide SendersInv, OrderInv, ResultsInv, StoreInv, CanceledInv, Print, Pending, InCharge;
    CanceledStep(setup, s, Cancel(c));
    var s' := Next(setup, s, Cancel(c));
    SendersSameStaff(setup, s, s');
    SameOrder(setup, s, s');
    SameResults(setup, s, s');
    SameStore(setup, s, s');
  }

  /** A live worker whose queue or job changes stays in charge. */
  lemma ChangeKeepsCharge(s: System, w: nat, worker: Worker)
    requires InCharge(s.registry) && IsWorker(s, w) && s.registry.workers[w].alive
    requires worker.key == s.registry.workers[w].key && worker.alive
               && worker.activeSenders == s.registry.workers[w].activeSenders
    ensures InCharge(Change(s, w, worker)) && SameStaff(s.registry, Change(s, w, worker))
  {
  }

  lemma AcquireStep(setup: Setup, s: System, c: Call)
    requires SetupOk(setup) && Inv(setup, s) && Enabled(setup, s, DoAcquire(c))
    ensures Inv(setup, Next(setup, s, DoAcquire(c)))
  {
    hide SendersInv, OrderInv, ResultsInv, StoreInv, CanceledInv, Print, Pending;
    CanceledStep(setup, s, DoAcquire(c));
    var s' := Next(setup, s, DoAcquire(c));
    AcquireKeeps(setup, s, c);
    forall key ensures Pending(s'.registry, key) == Pending(s.registry, key) {
      AcquirePending(s.registry, KeyOf(setup, c), key);
    }
    SameOrder(setup, s, s');
    SameResults(setup, s, s');
    SameStore(setup, s, s');
  }

  lemma SendStep(setup: Setup, s: System, c: Call)
    requires SetupOk(setup) && Inv(setup, s) && Enabled(setup, s, Send(c))
    ensures Inv(setup, Next(setup, s, Send(c)))
  {
    hide SendersInv, OrderInv, ResultsInv, StoreInv, CanceledInv, Print, Pending, InCharge;
    CanceledStep(setup, s, Send(c));
    var s' := Next(setup, s, Send(c));
    var w := s.callers[c].w;
    var worker := s.registry.workers[w];
    SendOrder(setup, s, c);
    CallerFacts(setup, s, c);
    ChangeKeepsCharge(s, w, worker.(queue := worker.queue + [c]));
    SendersSameStaff(setup, s, s.(registry := s'.registry));
    SameSenders(setup, s.(registry := s'.registry), s', c, Waiting(w));
    SameResults(setup, s, s');
    SameStore(setup, s, s');
  }

  lemma CallerStep(setup: Setup, s: System, e: Step)
    requires SetupOk(setup) && Inv(setup, s) && Enabled(setup, s, e) && (e.Receive? || e.GiveUp?)
    ensures Inv(setup, Next(setup, s, e))
  {
    hide SendersInv, OrderInv, ResultsInv, StoreInv, CanceledInv, Print, Pending, InCharge;
    CanceledStep(setup, s, e);
    var s' := Next(setup, s, e);
    SameOrder(setup, s, s');
    SameSenders(setup, s, s', e.c, Leaving(s.callers[e.c].w));
    if e.Receive? {
      ReceiveResults(setup, s, e.c);
    } else {
      SameResults(setup, s, s');
    }
    SameStore(setup, s, s');
  }

  lemma ReleaseStep(setup: Setup, s: System, c: Call)
    requires SetupOk(setup) && Inv(setup, s) && Enabled(setup, s, DoRelease(c))
    ensures Inv(setup, Next(setup, s, DoRelease(c)))
  {
    hide SendersInv, OrderInv, ResultsInv, StoreInv, CanceledInv, Print, Pending, InCharge;
    CanceledStep(setup, s, DoRelease(c));
    var s' := Next(setup, s, DoRelease(c));
    ReleaseKeeps(setup, s, c);
    forall key ensures Pending(s'.registry, key) == Pending(s.registry, key) {
      ReleasePending(s.registry, s.callers[c].w, key);
    }
    SameOrder(setup, s, s');
    SameResults(setup, s, s');
    SameStore(setup, s, s');
  }

  lemma TakeStep(setup: Setup, s: System, w: nat)
    requires SetupOk(setup) && Inv(setup, s) && Enabled(setup, s, Take(w))
    ensures Inv(setup, Next(setup, s, Take(w)))
  {
    hide SendersInv, OrderInv, ResultsInv, StoreInv, CanceledInv, Print, Pending, InCharge;
    CanceledStep(setup, s, Take(w));
    var s' := Next(setup, s, Take(w));
    var worker := s.registry.workers[w];
    var loaded := ChunkOf(s.store, worker.key);
    var canceled := worker.queue[0] in s.canceled;
    ChangeKeepsCharge(s, w, worker.(queue := worker.queue[1..], busy := Some(Job(worker.queue[0], loaded, canceled))));
    SendersSameStaff(setup, s, s');
    forall key ensures Pending(s'.registry, key) == Pending(s.registry, key) {
      TakePending(s.registry, w, loaded, canceled, key);
    }
    SameOrder(setup, s, s');
    SameResults(setup, s, s');
    TakeStore(setup, s, w);
  }

  lemma FinishStep(setup: Setup, s: System, w: nat, met: Meeting)
    requires SetupOk(setup) && Inv(setup, s) && Enabled(setup, s, Finish(w, met))
    ensures Inv(setup, Next(setup, s, Finish(w, met)))
  {
    hide SendersInv, OrderInv, ResultsInv, StoreInv, CanceledInv, Print, Pending, Handle;
    CanceledStep(setup, s, Finish(w, met));
    assert s.registry.workers[w].alive;
    hide InCharge;
    var s' := Next(setup, s, Finish(w, met));
    ChangeKeepsCharge(s, w, s.registry.workers[w].(busy := None));
    SendersSameStaff(setup, s, s');
    FinishOrder(setup, s, w, met);
    FinishResults(setup, s, w, met);
    FinishStore(setup, s, w, met);
  }

  lemma IdleStep(setup: Setup, s: System, w: nat)
    requires SetupOk(setup) && Inv(setup, s) && Enabled(setup, s, IdleTimeout(w))
    ensures Inv(setup, Next(setup, s, IdleTimeout(w)))
  {
    hide SendersInv, OrderInv, ResultsInv, StoreInv, CanceledInv, Print, Pending, InCharge;
    CanceledStep(setup, s, IdleTimeout(w));
    if RemoveIdle(s.registry, w).1 {
      var s' := Next(setup, s, IdleTimeout(w));
      IdleKeeps(setup, s, w);
      forall key ensures Pending(s'.registry, key) == Pending(s.registry, key) { IdlePending(s.registry, w, key); }
      SameOrder(setup, s, s');
      SameResults(setup, s, s');
      SameStore(setup, s, s');
    } else {
      assert Next(setup, s, IdleTimeout(w)) == s;
    }
  }

  lemma StepKeeps(setup: Setup, s: System, e: Step)
    requires SetupOk(setup) && Inv(setup, s) && Enabled(setup, s, e)
    ensures Inv(setup, Next(setup, s, e))
  {
    hide Inv, Next;
    match e
    case Cancel(c) => CancelStep(setup, s, c);
    case DoAcquire(c) => AcquireStep(setup, s, c);
    case Send(c) => SendStep(setup, s, c);
    case Receive(c) => CallerStep(setup, s, e);
    case GiveUp(c) => CallerStep(setup, s, e);
    case DoRelease(c) => ReleaseStep(setup, s, c);
    case Take(w) => TakeStep(setup, s, w);
    case Finish(w, met) => FinishStep(setup, s, w, met);
    case IdleTimeout(w) => IdleStep(setup, s, w);
  }

  lemma {:induction false} RunKeeps(setup: Setup, states: seq<System>, steps: seq<Step>, k: nat)
    requires SetupOk(setup) && IsRun(setup, states, steps) && k < |states|
    ensures Inv(setup, states[k])
  {
    hide Inv, Next, Enabled;
    if k == 0 {
      StartInv(setup);
    } else {
      RunKeeps(setup, states, steps, k - 1);
      StepKeeps(setup, states[k - 1], steps[k - 1]);
    }
  }

  // ---------------------------------------------------------------- what every run guarantees

  /** At any moment of any run, two workers that may execute an operation never serve the same chunk. */
  lemma OneWorkerPerChunk(setup: Setup, states: seq<System>, steps: seq<Step>, k: nat, v: nat, w: nat)
    requires SetupOk(setup) && IsRun(setup, states, steps) && k < |states|
    requires IsWorker(states[k], v) && IsWorker(states[k], w)
    requires states[k].registry.workers[v].alive || states[k].registry.workers[v].busy.Some?
    requires states[k].registry.workers[w].alive || states[k].registry.workers[w].busy.Some?
    requires states[k].registry.workers[v].key == states[k].registry.workers[w].key
    ensures v == w
  {
    hide Enabled, Next;
    RunKeeps(setup, states, steps, k);
  }

  /** At any moment of any run, the stored state of a chunk is the sequential machine run over its handled operations,
      every answer is the one the sequential machine gives there, the handled operations are a prefix of the accepted
      ones, and those still missing are pending at the chunk's live worker. */
  lemma StoreIsFold(setup: Setup, states: seq<System>, steps: seq<Step>, k: nat, key: string)
    requires SetupOk(setup) && IsRun(setup, states, steps) && k < |states|
    ensures ChunkOf(states[k].store, key) == Fold(setup, Log(states[k], key)) && AnswersFit(setup, Log(states[k], key))
    ensures Calls(Log(states[k], key)) + Pending(states[k].registry, key) == Sent(states[k], key)
              && Distinct(Sent(states[k], key))
    ensures forall c :: c in Sent(states[k], key) ==> KeyOf(setup, c) == key
  {
    hide Enabled, Next, InCharge, SendersInv, ResultsInv, Fold, AnswersFit, Calls, Pending, Distinct;
    RunKeeps(setup, states, steps, k);
    assert OrderAt(setup, states[k], key);
  }

  /** `activeSenders` is the number of callers between acquire and release, and a worker's exit check succeeds exactly
      when nothing is queued and no such caller is left; every such caller holds the live worker of its chunk. */
  lemma SendersAreCounted(setup: Setup, states: seq<System>, steps: seq<Step>, k: nat, w: nat)
    requires SetupOk(setup) && IsRun(setup, states, steps) && k < |states| && IsWorker(states[k], w)
    ensures states[k].registry.workers[w].activeSenders == |EngagedWith(states[k].callers, w)|
    ensures states[k].registry.workers[w].alive ==>
              (RemoveIdle(states[k].registry, w).1 <==>
                  states[k].registry.workers[w].queue == [] && EngagedWith(states[k].callers, w) == {})
    ensures forall c :: c in EngagedWith(states[k].callers, w) ==> HoldsLive(setup, states[k].registry, c, w)
  {
    hide Enabled, Next;
    RunKeeps(setup, states, steps, k);
    hide Inv;
    if states[k].registry.workers[w].alive {
      ExitIsSafe(setup, states[k], w);
    }
  }

  /** Whatever the worker met, putting the result in the call's channel never blocks; and each handled call has
      exactly one result, either in its channel or with its caller. */
  lemma ResultsNeverBlock(setup: Setup, states: seq<System>, steps: seq<Step>, k: nat)
    requires SetupOk(setup) && IsRun(setup, states, steps) && k < |states|
    ensures forall w: nat, met ::
              IsWorker(states[k], w) && states[k].registry.workers[w].busy.Some?
              && Looked(states[k], states[k].registry.workers[w].busy.value, met) ==>
                Enabled(setup, states[k], Finish(w, met))
    ensures forall key, n :: 0 <= n < |Log(states[k], key)| ==>
              Answered(states[k], Log(states[k], key)[n].call, Log(states[k], key)[n].answer)
    ensures forall c :: c in states[k].channels || c in states[k].received ==>
              c in Calls(Log(states[k], KeyOf(setup, c)))
  {
    hide Next, InCharge, SendersInv, OrderInv, StoreInv, Calls, Answered, Print;
    RunKeeps(setup, states, steps, k);
    forall w: nat, met | IsWorker(states[k], w) && states[k].registry.workers[w].busy.Some?
        && Looked(states[k], states[k].registry.workers[w].busy.value, met)
      ensures Enabled(setup, states[k], Finish(w, met))
    {
      BusyUnanswered(setup, states[k], w);
    }
  }

  lemma QueueStep(setup: Setup, s: System, e: Step, w: nat)
    requires SetupOk(setup) && Enabled(setup, s, e) && IsWorker(Next(setup, s, e), w)
    requires IsWorker(s, w) ==> |s.registry.workers[w].queue| <= setup.capacity
    ensures |Next(setup, s, e).registry.workers[w].queue| <= setup.capacity
  {
    hide Handle, Print, ChunkOf, Put;
  }

  /** A queue never holds more operations than its capacity. */
  lemma {:induction false} QueuesAreBounded(setup: Setup, states: seq<System>, steps: seq<Step>, k: nat, w: nat)
    requires SetupOk(setup) && IsRun(setup, states, steps) && k < |states| && IsWorker(states[k], w)
    ensures |states[k].registry.workers[w].queue| <= setup.capacity
  {
    hide Next, Enabled;
    if k > 0 {
      if IsWorker(states[k - 1], w) {
        QueuesAreBounded(setup, states, steps, k - 1, w);
      }
      QueueStep(setup, states[k - 1], steps[k - 1], w);
    }
  }

  // ---------------------------------------------------------------- nothing is stranded

  ghost predicate IsWork(steps: seq<Step>, w: nat) {
    forall k :: 0 <= k < |steps| ==> (steps[k].Take? || steps[k].Finish?) && steps[k].w == w
  }

  function Remaining(worker: Worker): nat { 2 * |worker.queue| + if worker.busy.Some? then 1 else 0 }

  lemma RunPrepend(setup: Setup, s: System, e: Step, states: seq<System>, steps: seq<Step>)
    requires SetupOk(setup) && IsRunFrom(setup, states, steps) && Enabled(setup, s, e) && states[0] == Next(setup, s, e)
    ensures IsRunFrom(setup, [s] + states, [e] + steps)
  {
    hide Next, Enabled;
    var states', steps' := [s] + states, [e] + steps;
    forall k | 0 <= k < |steps'|
      ensures Enabled(setup, states'[k], steps'[k]) && states'[k + 1] == Next(setup, states'[k], steps'[k])
    {
      if k > 0 {
        assert steps'[k] == steps[k - 1] && states'[k] == states[k - 1] && states'[k + 1] == states[k];
      }
    }
  }

  /** `s'` after worker `w` did some of its work. */
  ghost predicate Worked(s: System, s': System, w: nat)
    requires IsWorker(s, w)
  {
    && s'.sent == s.sent && s'.registry.table == s.registry.table
    && IsWorker(s', w) && s'.registry.workers[w].key == s.registry.workers[w].key
  }

  lemma TakeWorks(setup: Setup, s: System, w: nat)
    requires SetupOk(setup) && Enabled(setup, s, Take(w))
    ensures var s' := Next(setup, s, Take(w));
            Worked(s, s', w) && Remaining(s'.registry.workers[w]) == Remaining(s.registry.workers[w]) - 1
  {
    hide Print;
  }

  lemma FinishWorks(setup: Setup, s: System, w: nat, met: Meeting)
    requires SetupOk(setup) && Enabled(setup, s, Finish(w, met))
    ensures var s' := Next(setup, s, Finish(w, met));
            Worked(s, s', w) && Remaining(s'.registry.workers[w]) == Remaining(s.registry.workers[w]) - 1
  {
    hide Handle, Print;
  }

  /** The next step of a worker that has something to do: it is enabled whatever the callers do, and it comes closer. */
  lemma WorkStep(setup: Setup, s: System, w: nat, met: Meeting) returns (e: Step)
    requires SetupOk(setup) && Inv(setup, s) && IsWorker(s, w) && Remaining(s.registry.workers[w]) > 0
    ensures Enabled(setup, s, e) && (e.Take? || e.Finish?) && e.w == w
    ensures var s' := Next(setup, s, e);
            Worked(s, s', w) && Remaining(s'.registry.workers[w]) == Remaining(s.registry.workers[w]) - 1
  {
    hide SendersInv, StoreInv, OrderInv, ResultsInv, Next, Worked;
    if s.registry.workers[w].busy.Some? {
      BusyUnanswered(setup, s, w);
      var seen := met.(canceled := s.registry.workers[w].busy.value.canceled);
      assert JobFits(s, s.registry.workers[w].busy);
      e := Finish(w, seen);
      FinishWorks(setup, s, w, seen);
    } else {
      assert s.registry.workers[w].alive;
      e := Take(w);
      TakeWorks(setup, s, w);
    }
  }

  /** From any moment of any run, a worker can handle all it has accepted on its own: no caller has to take a further
      step, and whatever it meets on the way does not matter. */
  lemma {:induction false} Drains(setup: Setup, s: System, w: nat, met: Meeting)
      returns (states: seq<System>, steps: seq<Step>)
    requires SetupOk(setup) && Inv(setup, s) && IsWorker(s, w)
    ensures IsRunFrom(setup, states, steps) && states[0] == s && IsWork(steps, w)
              && |steps| == Remaining(s.registry.workers[w])
    ensures var end := states[|steps|];
            Inv(setup, end) && Worked(s, end, w) && Remaining(end.registry.workers[w]) == 0
    decreases Remaining(s.registry.workers[w])
  {
    hide Inv, Next, Enabled;
    if Remaining(s.registry.workers[w]) == 0 {
      states, steps := [s], [];
    } else {
      var e := WorkStep(setup, s, w, met);
      StepKeeps(setup, s, e);
      var rest, more := Drains(setup, Next(setup, s, e), w, met);
      RunPrepend(setup, s, e, rest, more);
      states, steps := [s] + rest, [e] + more;
      assert states[|steps|] == rest[|more|];
    }
  }

  /** What is accepted but not handled is pending at the live worker that the table names. */
  lemma PendingWorker(setup: Setup, s: System, key: string) returns (w: nat)
    requires InCharge(s.registry) && OrderInv(setup, s) && Calls(Log(s, key)) != Sent(s, key)
    ensures IsWorker(s, w) && s.registry.workers[w].alive && s.registry.workers[w].key == key
    ensures key in s.registry.table && s.registry.table[key] == w
  {
    hide Calls, Distinct, Print;
    assert OrderAt(setup, s, key);
    assert Calls(Log(s, key)) + [] == Calls(Log(s, key));
    w := if key in s.registry.table then s.registry.table[key] else 0;
  }

  lemma NothingPending(setup: Setup, s: System, key: string, w: nat)
    requires OrderInv(setup, s) && key in s.registry.table && s.registry.table[key] == w && IsWorker(s, w)
    requires Remaining(s.registry.workers[w]) == 0
    ensures Calls(Log(s, key)) == Sent(s, key)
  {
    hide Calls, Distinct, Print;
    assert OrderAt(setup, s, key);
    assert Calls(Log(s, key)) + [] == Calls(Log(s, key));
  }

  /** No accepted operation is ever stranded: from any moment of any run, the worker in charge can by itself reach a
      state in which every operation accepted for its chunk so far has been handled and answered. */
  lemma NothingStranded(setup: Setup, states: seq<System>, steps: seq<Step>, k: nat, key: string, met: Meeting)
      returns (w: nat, later: seq<System>, work: seq<Step>)
    requires SetupOk(setup) && IsRun(setup, states, steps) && k < |states|
    requires Calls(Log(states[k], key)) != Sent(states[k], key)
    ensures IsWorker(states[k], w) && states[k].registry.workers[w].alive && states[k].registry.workers[w].key == key
    ensures IsRunFrom(setup, later, work) && later[0] == states[k] && IsWork(work, w)
    ensures Sent(later[|work|], key) == Sent(states[k], key) && Calls(Log(later[|work|], key)) == Sent(states[k], key)
  {
    hide Next, Enabled, SendersInv, ResultsInv, StoreInv, OrderInv, InCharge, Calls, Log, IsRunFrom, Remaining, IsWork;
    RunKeeps(setup, states, steps, k);
    w := PendingWorker(setup, states[k], key);
    later, work := Drains(setup, states[k], w, met);
    assert |later| == |work| + 1 by { RunLength(setup, later, work); }
    NothingPending(setup, later[|work|], key, w);
  }

  lemma RunLength(setup: Setup, states: seq<System>, steps: seq<Step>)
    requires SetupOk(setup) && IsRunFrom(setup, states, steps)
    ensures |states| == |steps| + 1
  {
  }

  // ---------------------------------------------------------------- real-time order

  lemma StepGrows(setup: Setup, s: System, e: Step, key: string)
    requires SetupOk(setup) && Enabled(setup, s, e)
    ensures Sent(s, key) <= Sent(Next(setup, s, e), key) && Log(s, key) <= Log(Next(setup, s, e), key)
    ensures forall c :: c in s.received ==> c in Next(setup, s, e).received
  {
    hide Handle, Acquire, Release, RemoveIdle, Print;
  }

  /** What is accepted or handled stays so, in the same place. */
  lemma {:induction false} HistoryOnlyGrows(setup: Setup, states: seq<System>, steps: seq<Step>, j: nat, k: nat,
      key: string)
    requires SetupOk(setup) && IsRun(setup, states, steps) && j <= k < |states|
    ensures Sent(states[j], key) <= Sent(states[k], key) && Log(states[j], key) <= Log(states[k], key)
    decreases k
  {
    hide Next, Enabled, Sent, Log;
    if j < k {
      HistoryOnlyGrows(setup, states, steps, j, k - 1, key);
      StepGrows(setup, states[k - 1], steps[k - 1], key);
    }
  }

  lemma HandledWasCalled(setup: Setup, s: System, key: string)
    requires OrderInv(setup, s)
    ensures forall n :: 0 <= n < |Log(s, key)| ==> Log(s, key)[n].call in s.callers
  {
    hide Distinct, Pending, Print;
    assert OrderAt(setup, s, key);
    forall n | 0 <= n < |Log(s, key)| ensures Log(s, key)[n].call in s.callers {
      assert Sent(s, key)[n] == Calls(Log(s, key))[n];
    }
  }

  /** The order of the log respects real time: a call that has its result before another call starts is handled before
      it. With StoreIsFold this makes each chunk's operations linearizable. */
  lemma RealTimeOrder(setup: Setup, states: seq<System>, steps: seq<Step>, j: nat, k: nat, first: Call, second: Call,
      n: nat)
    requires SetupOk(setup) && IsRun(setup, states, steps) && j <= k < |states|
    requires first in states[j].received && second !in states[j].callers
    requires n < |Log(states[k], KeyOf(setup, first))| && Log(states[k], KeyOf(setup, first))[n].call == second
    ensures exists m: nat :: m < n && Log(states[k], KeyOf(setup, first))[m].call == first
                             && Log(states[k], KeyOf(setup, first))[m].answer == states[j].received[first]
  {
    hide Next, Enabled, SendersInv, InCharge, StoreInv, Print, Pending, Distinct, KeyOf;
    var key := KeyOf(setup, first);
    var before, now := Log(states[j], key), Log(states[k], key);
    RunKeeps(setup, states, steps, j);
    HistoryOnlyGrows(setup, states, steps, j, k, key);
    assert OrderAt(setup, states[j], key);
    assert first in Calls(before);
    var m :| 0 <= m < |Calls(before)| && Calls(before)[m] == first;
    assert Answered(states[j], before[m].call, before[m].answer);
    assert now[m] == before[m];
    assert forall i :: 0 <= i < |before| ==> now[i] == before[i];
    HandledWasCalled(setup, states[j], key);
  }

  /** What a caller receives is the sequential machine's answer to its own request, at the place its call has in the
      log. */
  lemma CallerGetsItsAnswer(setup: Setup, states: seq<System>, steps: seq<Step>, k: nat, c: Call) returns (m: nat)
    requires SetupOk(setup) && IsRun(setup, states, steps) && k < |states| && c in states[k].received
    ensures var log := Log(states[k], KeyOf(setup, c));
            && m < |log| && log[m].call == c
            && states[k].received[c] == Handle(setup.rules, setup.request(c), Fold(setup, log[..m]), log[m].met).1
  {
    hide Next, Enabled, SendersInv, InCharge, OrderInv, Print, Handle, Fold, KeyOf;
    RunKeeps(setup, states, steps, k);
    var log := Log(states[k], KeyOf(setup, c));
    assert c in Calls(log);
    m :| 0 <= m < |Calls(log)| && Calls(log)[m] == c;
    assert Answered(states[k], log[m].call, log[m].answer);
    assert AnswersFit(setup, log);
  }

  /** In the terms of the atomic operations: for all stores that agree with what the chunk held at that place of the log
      and with what the worker met there, the caller receives the result of its operation on them. */
  lemma CallerGetsItsResult(setup: Setup, states: seq<System>, steps: seq<Step>, k: nat, c: Call) returns (n: nat)
    requires SetupOk(setup) && IsRun(setup, states, steps) && k < |states| && c in states[k].received
    ensures var log := Log(states[k], KeyOf(setup, c));
            && n < |log| && log[n].call == c
            && (log[n].met.canceled ==> states[k].received[c] == Refused(Canceled))
            && forall w: MapState, calls, opponent ::
                 ChunkOf(w.chunks, KeyOf(setup, c)) == Fold(setup, log[..n])
                 && Meets(setup.rules, setup.request(c), w, calls, opponent, log[n].met) ==>
                   IsResult(setup.rules, setup.request(c), w, calls, opponent, log[n].met.t, states[k].received[c])
  {
    hide Fold, IsRun, Meets, IsResult, Log;
    n := CallerGetsItsAnswer(setup, states, steps, k, c);
    var log := Log(states[k], KeyOf(setup, c));
    forall w: MapState, calls, opponent | ChunkOf(w.chunks, KeyOf(setup, c)) == Fold(setup, log[..n])
      && Meets(setup.rules, setup.request(c), w, calls, opponent, log[n].met)
      ensures IsResult(setup.rules, setup.request(c), w, calls, opponent, log[n].met.t, states[k].received[c])
    {
      ResultOfHandle(setup.rules, setup.request(c), w, calls, opponent, log[n].met);
    }
  }

  /** The answer of an atomic operation, as the caller sees it. */
  ghost predicate IsResult(rules: Rules, request: Request, w: MapState, calls: OperationCalls, opponent: int, t: Times,
      answer: Answer)
    requires Playable(request.id)
  {
    match request.operation
    case OpenCell(user, x, y) =>
      var r := OpenOpWith(rules, w, user, request.id, x, y, t, calls, opponent).1;
      answer == if r.Ok? then Opened(r.value.0) else Refused(r.error)
    case FlagCell(user, x, y, flagged) =>
      var r := FlagOpWith(rules, w, user, request.id, x, y, flagged, t, calls.authorize, calls.store).1;
      answer == if r.Ok? then FlagSet(r.value) else Refused(r.error)
  }

  lemma ResultOfHandle(rules: Rules, request: Request, w: MapState, calls: OperationCalls, opponent: int, m: Meeting)
    requires Playable(request.id) && Meets(rules, request, w, calls, opponent, m)
    ensures IsResult(rules, request, w, calls, opponent, m.t,
                     Handle(rules, request, ChunkOf(w.chunks, Print(request.id)), m).1)
  {
    hide Meets, OpenOpWith, FlagOpWith, Handle;
    HandleIsAtomic(rules, request, w, calls, opponent, m);
  }

  // ---------------------------------------------------------------- cancellation

  /** The call is cancelled, and neither in execution nor handled with its context still alive. */
  ghost predicate Doomed(s: System, key: string, c: Call) {
    && c in s.canceled
    && (forall w :: 0 <= w < |s.registry.workers| ==> DoomedJob(s.registry.workers[w].busy, c))
    && (forall n :: 0 <= n < |Log(s, key)| && Log(s, key)[n].call == c ==> Log(s, key)[n].met.canceled)
  }

  predicate DoomedJob(busy: Option<Job>, c: Call) {
    busy.Some? && busy.value.call == c ==> busy.value.canceled
  }

  lemma StaysDoomed(setup: Setup, s: System, e: Step, key: string, c: Call)
    requires SetupOk(setup) && Enabled(setup, s, e) && Doomed(s, key, c)
    ensures Doomed(Next(setup, s, e), key, c)
  {
    hide Next, Handle, Print, Log;
    var s' := Next(setup, s, e);
    CanceledGrows(setup, s, e, c);
    forall w | 0 <= w < |s'.registry.workers| ensures DoomedJob(s'.registry.workers[w].busy, c) {
      JobAfter(setup, s, e, w);
      assert IsWorker(s, w) ==> DoomedJob(s.registry.workers[w].busy, c);
    }
    forall n | 0 <= n < |Log(s', key)| && Log(s', key)[n].call == c ensures Log(s', key)[n].met.canceled {
      LogAfter(setup, s, e, key);
      if n < |Log(s, key)| {
        assert Log(s', key)[n] == Log(s, key)[n];
      } else {
        assert DoomedJob(s.registry.workers[e.w].busy, c);
      }
    }
  }

  lemma {:induction false} DoomedForever(setup: Setup, states: seq<System>, steps: seq<Step>, j: nat, k: nat,
      key: string, c: Call)
    requires SetupOk(setup) && IsRun(setup, states, steps) && j <= k < |states| && Doomed(states[j], key, c)
    ensures Doomed(states[k], key, c)
    decreases k
  {
    hide Next, Enabled, Doomed;
    if j < k {
      DoomedForever(setup, states, steps, j, k - 1, key, c);
      StaysDoomed(setup, states[k - 1], steps[k - 1], key, c);
    }
  }

  /** An operation whose context is cancelled before it is taken up, as that of every caller that gave up waiting in the
      queue is, is answered with the cancellation and changes nothing, whenever it is handled. */
  lemma CanceledIsVoid(setup: Setup, states: seq<System>, steps: seq<Step>, j: nat, k: nat, c: Call, n: nat)
    requires SetupOk(setup) && IsRun(setup, states, steps) && j <= k < |states| && c in states[j].canceled
    requires c !in Calls(Log(states[j], KeyOf(setup, c)))
    requires forall w :: 0 <= w < |states[j].registry.workers| && states[j].registry.workers[w].busy.Some? ==>
               states[j].registry.workers[w].busy.value.call != c
    requires n < |Log(states[k], KeyOf(setup, c))| && Log(states[k], KeyOf(setup, c))[n].call == c
    ensures var log := Log(states[k], KeyOf(setup, c));
            log[n].answer == Refused(Canceled) && Fold(setup, log[..n + 1]) == Fold(setup, log[..n])
  {
    hide Next, Enabled, SendersInv, InCharge, OrderInv, ResultsInv, KeyOf;
    var key := KeyOf(setup, c);
    forall i | 0 <= i < |Log(states[j], key)| ensures Log(states[j], key)[i].call != c {
      assert Calls(Log(states[j], key))[i] == Log(states[j], key)[i].call;
    }
    DoomedForever(setup, states, steps, j, k, key, c);
    RunKeeps(setup, states, steps, k);
    var log := Log(states[k], key);
    assert AnswersFit(setup, log);
    assert log[..n + 1][..n] == log[..n];
  }

  /** And only a cancelled operation is answered so, unless one of its own calls returned a cancellation. */
  lemma CancellationIsReal(setup: Setup, states: seq<System>, steps: seq<Step>, k: nat, key: string, n: nat)
    requires SetupOk(setup) && IsRun(setup, states, steps) && k < |states| && n < |Log(states[k], key)|
    requires Log(states[k], key)[n].answer == Refused(Canceled)
    ensures var e := Log(states[k], key)[n];
            e.call in states[k].canceled || e.met.refusal == Some(Canceled) || e.met.scoring == Some(Canceled)
  {
    hide Next, Enabled, SendersInv, InCharge, OrderInv, ResultsInv, Fold, Handle;
    RunKeeps(setup, states, steps, k);
    var log := Log(states[k], key);
    assert AnswersFit(setup, log);
    OwnCancellation(setup.rules, setup.request(log[n].call), Fold(setup, log[..n]), log[n].met);
  }

  // ---------------------------------------------------------------- refinement of the chunk's history

  /** The writes of one handled operation that found `c`: none when it was cancelled, refused or could not load or
      reopen, a reopening alone when its own save failed, else a reopening and a body. */
  ghost function EntryEvents(setup: Setup, c: Chunk, e: Entry): seq<Event>
    requires SetupOk(setup)
  {
    var request, met := setup.request(e.call), e.met;
    if met.canceled || met.refusal.Some? || ChunkCellIndex(request.operation.x, request.operation.y).None? then []
    else
      var lifted := Reopen(c, met.t.reopen, setup.rules.closure);
      if met.store.LoadFails? || (met.store.ReopenFails? && lifted != c) then []
      else if met.store.SaveFails? && Body(setup.rules, request, lifted, met).0 != lifted then [Reopening(met.t.reopen)]
      else [Reopening(met.t.reopen), BodyEvent(request.operation, met.t.body)]
  }

  function BodyEvent(operation: Operation, at: int): Event {
    match operation
    case OpenCell(user, x, y) => Opening(user, x, y, at)
    case FlagCell(user, x, y, flagged) => Flagging(user, x, y, flagged, at)
  }

  ghost function LogEvents(setup: Setup, log: seq<Entry>): seq<Event>
    requires SetupOk(setup)
  {
    if log == [] then []
    else
      var init := log[..|log| - 1];
      LogEvents(setup, init) + EntryEvents(setup, Fold(setup, init), log[|log| - 1])
  }

  ghost function Final(site: Site, closure: int, events: seq<Event>): Chunk
    requires SiteOk(site)
  {
    After(site, closure, FRESH, events, |events|)
  }

  lemma {:induction false} AfterPrefix(site: Site, closure: int, a: seq<Event>, b: seq<Event>, k: nat)
    requires SiteOk(site) && k <= |a|
    ensures After(site, closure, FRESH, a + b, k) == After(site, closure, FRESH, a, k)
  {
    hide ChunkMachine.Step;
    if k > 0 {
      AfterPrefix(site, closure, a, b, k - 1);
    }
  }

  lemma FinalAdd(site: Site, closure: int, events: seq<Event>, e: Event)
    requires SiteOk(site)
    ensures Final(site, closure, events + [e]) == ChunkMachine.Step(site, closure, Final(site, closure, events), e)
  {
    hide ChunkMachine.Step;
    AfterPrefix(site, closure, events, [e], |events|);
  }

  lemma HandleIsHistory(setup: Setup, events: seq<Event>, e: Entry)
    requires SetupOk(setup)
    ensures var request := setup.request(e.call);
            var site := Site(setup.rules.season, request.id);
            var c := Final(site, setup.rules.closure, events);
            Final(site, setup.rules.closure, events + EntryEvents(setup, c, e)) ==
              Handle(setup.rules, request, c, e.met).0
  {
    hide Final, OpenBody, FlagBody, Reopen, ChunkCellIndex;
    var request := setup.request(e.call);
    var site, closure := Site(setup.rules.season, request.id), setup.rules.closure;
    var added := EntryEvents(setup, Final(site, closure, events), e);
    if added == [] {
      assert events + added == events;
    } else {
      FinalAdd(site, closure, events, added[0]);
      if |added| == 2 {
        FinalAdd(site, closure, events + [added[0]], added[1]);
        assert events + added == events + [added[0]] + [added[1]];
      } else {
        assert events + added == events + [added[0]];
      }
    }
  }

  /** The fold over the log of one chunk is a history of ChunkMachine. */
  lemma {:induction false} FoldIsHistory(setup: Setup, log: seq<Entry>, id: ChunkID)
    requires SetupOk(setup) && Playable(id)
    requires forall k :: 0 <= k < |log| ==> setup.request(log[k].call).id == id
    ensures Fold(setup, log) == Final(Site(setup.rules.season, id), setup.rules.closure, LogEvents(setup, log))
  {
    hide Final, Handle, EntryEvents;
    if log == [] {
      assert Final(Site(setup.rules.season, id), setup.rules.closure, []) ==
          FRESH by { EmptyHistory(Site(setup.rules.season, id), setup.rules.closure); }
    } else {
      var init := log[..|log| - 1];
      FoldIsHistory(setup, init, id);
      HandleIsHistory(setup, LogEvents(setup, init), log[|log| - 1]);
    }
  }

  lemma EmptyHistory(site: Site, closure: int)
    requires SiteOk(site)
    ensures Final(site, closure, []) == FRESH
  {
  }

  /** Under every interleaving, what is stored for a chunk is the end of one sequential history of it, so everything
      ChunkMachine and CascadeHistory prove of histories holds of it: here, the chunk invariant. */
  lemma StoreIsHistory(setup: Setup, states: seq<System>, steps: seq<Step>, k: nat, id: ChunkID)
    requires SetupOk(setup) && IsRun(setup, states, steps) && k < |states| && Playable(id)
    ensures var site := Site(setup.rules.season, id);
            var stored := ChunkOf(states[k].store, Print(id));
            && stored == Final(site, setup.rules.closure, LogEvents(setup, Log(states[k], Print(id))))
            && ChunkInv(site, stored)
  {
    hide Final, Fold, ChunkInv, Pending, Distinct, AnswersFit, IsRun, Print, ChunkIds.Printable;
    var key := Print(id);
    var log := Log(states[k], key);
    StoreIsFold(setup, states, steps, k, key);
    forall n | 0 <= n < |log| ensures setup.request(log[n].call).id == id {
      assert Calls(log)[n] == log[n].call;
      assert Sent(states[k], key)[n] == log[n].call;
      SameKeySameChunk(setup, log[n].call, id);
    }
    FoldIsHistory(setup, log, id);
    FinalInv(Site(setup.rules.season, id), setup.rules.closure, LogEvents(setup, log));
  }

  lemma SameKeySameChunk(setup: Setup, c: Call, id: ChunkID)
    requires SetupOk(setup) && Playable(id) && KeyOf(setup, c) == Print(id)
    ensures setup.request(c).id == id
  {
    hide Print;
    PlayablePrintable(id);
    PlayablePrintable(setup.request(c).id);
    PrintInjective(setup.request(c).id, id);
  }

  lemma FinalInv(site: Site, closure: int, events: seq<Event>)
    requires SiteOk(site)
    ensures ChunkInv(site, Final(site, closure, events))
  {
    ReachableKeepsInvariant(site, closure, events, |events|);
  }
}
