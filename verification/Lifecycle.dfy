/**
 The submission lifecycle as a state machine.

 The actors are API requests (persist, then enqueue), the queue, worker handlers
 and webhook deliveries. One action is one externally visible atomic step: a SQL
 statement, a queue operation, the start of a program in the sandbox, or a fault.
 Everything the code cannot control (which actor moves next, whether a call
 succeeds, what a program prints) is a parameter of the action, so a run is just
 a sequence of actions and every theorem about all runs covers every interleaving
 of any number of submissions.
 */
module Lifecycle {
  import opened Prelude
  import opened Submissions

  type Id = nat         // submission id (a fresh UUID per request)
  type TaskId = nat     // queue-assigned id of one execute task
  type HandlerId = nat  // one invocation of handleExecute
  type HookId = nat     // queue-assigned id of one webhook task

  const MAX_RETRY: nat := 2

  /**
   Which environment behaviours are admitted.

   - `overlap`: the queue may hand a task to a second handler while the first
     one is still running (a lost lease).
   - `ambiguousEnqueue`: an enqueue may report an error and yet have happened.
   - `requeue`: a worker shutting down puts its task back without counting the
     attempt.

   Crashes, failed SQL statements (applied or not), failed engine calls and lost
   webhook enqueues are always admitted.
   */
  datatype Env = Env(overlap: bool, ambiguousEnqueue: bool, requeue: bool)

  /** The environment the design is written for, with and without shutdown requeues. */
  predicate Sane(env: Env) {
    !env.overlap && !env.ambiguousEnqueue
  }

  /** Result of a SQL write: a failed statement may or may not have been applied. */
  datatype Db = Done | LostBefore | LostAfter

  /** Result of an enqueue. */
  datatype Enq = Enqueued | NotEnqueued | EnqueuedButError

  /** Why an attempt wants to be repeated. */
  datatype Cause = SqlError | EngineFailure

  /** What handleExecute returns to the queue. */
  datatype Verdict = Nil | Retryable(cause: Cause) | SkipRetry

  /** Where a handler is; `sub` is the row it loaded at the start. */
  datatype Pc =
    | Load
    | FailLang(sub: Row)
    | Mark(sub: Row)
    | CallEngine(sub: Row)
    | Executing(sub: Row)
    | FailEngine(sub: Row, msg: string)
    | Store(sub: Row, outcome: Outcome)
    | Notify(url: Option<string>)
    | Return(verdict: Verdict)

  datatype Handler = Handler(task: TaskId, sub: Id, retried: nat, pc: Pc)

  datatype Phase = Pending | Active(holder: HandlerId) | Finished | Archived

  datatype Task = Task(sub: Id, retried: nat, phase: Phase)

  datatype ApiPc = EnqueueTask | FailAfterEnqueue

  datatype HookPhase = HookPending | HookLoaded(sub: Row) | HookDelivered

  datatype Hook = Hook(sub: Id, url: string, phase: HookPhase)

  /** What buildWebhookBody keeps of a row: everything but the program, its input and the start time. */
  datatype Body = Body(
    language: string,
    status: Status,
    stdout: Option<string>,
    stderr: Option<string>,
    exitCode: Option<int>,
    compileOutput: Option<string>,
    timedOut: bool,
    oomKilled: bool,
    cpuTimeMs: Option<int>,
    wallTimeMs: Option<int>,
    memoryKb: Option<int>,
    error: Option<string>,
    createdAt: Time,
    finishedAt: Option<Time>)

  function BodyOf(row: Row): Body {
    Body(row.request.language, row.status, row.stdout, row.stderr, row.exitCode, row.compileOutput,
         row.timedOut, row.oomKilled, row.cpuTimeMs, row.wallTimeMs, row.memoryKb,
         row.error, row.createdAt, row.finishedAt)
  }

  /** The faults that can leave a row without anyone to finish it. */
  datatype Fault =
    | CreateUnconfirmed   // INSERT applied but reported as failed
    | TaskNotBuilt        // the request gave up before enqueueing
    | RequestAbandoned    // the API process died between INSERT and its last step
    | FailWriteLost       // a FailSubmission that was not applied
    | LastAttemptErrored  // a SQL error on the last attempt
    | LastAttemptCrashed  // a worker crash on the last attempt

  datatype Event = Event(id: Id, fault: Fault)

  /**
   `rows`, `tasks` and `hooks` are Postgres and Redis; `api` and `handlers` are
   requests and handlers in progress. The last four fields only record history.
   */
  datatype State = State(
    now: Time,
    rows: map<Id, Row>,
    api: map<Id, ApiPc>,
    tasks: map<TaskId, Task>,
    handlers: map<HandlerId, Handler>,
    hooks: map<HookId, Hook>,
    faults: set<Event>,
    starts: multiset<Id>,
    requeues: multiset<Id>,
    posts: set<(Id, Body)>)

  function Init(): State {
    State(0, map[], map[], map[], map[], map[], {}, multiset{}, multiset{}, {})
  }

  /** Steps of an API request, in the order handleCreateSubmission takes them. */
  datatype ApiStep =
    | Create(request: Request, db: Db)
    | BuildFails
    | Enqueue(t: TaskId, q: Enq)
    | FailRequest(db: Db)
    | Abandon

  /** Steps of handleExecute. */
  datatype WorkStep =
    | GetSub(ok: bool, known: bool)
    | MarkRunning(db: Db)
    | EngineRefuse(msg: string)
    | ProgramStart
    | EngineError(msg: string)
    | EngineOutcome(outcome: Outcome)
    | StoreResult(db: Db)
    | FailRow(db: Db)
    | EnqueueHook(k: HookId, q: Enq)

  /** How a handler ends: its verdict is recorded, its process dies, or its worker shuts down. */
  datatype Ending = Record | Crash | Requeue

  /** Steps of handleWebhook; `Die` is its process dying, or its worker shutting down, between fetch and post. */
  datatype HookStep = Fetch(ok: bool) | Post(delivered: bool) | Die

  datatype Action =
    | Tick(d: nat)
    | Api(id: Id, request: ApiStep)
    | Dequeue(t: TaskId, h: HandlerId)
    | Work(h: HandlerId, step: WorkStep)
    | End(h: HandlerId, how: Ending)
    | LoseLease(t: TaskId)
    | Deliver(k: HookId, hook: HookStep)

  predicate ApiEnabled(env: Env, st: State, id: Id, s: ApiStep) {
    match s
    case Create(_, _) => id !in st.rows
    case BuildFails => id in st.api && st.api[id] == EnqueueTask
    case Enqueue(t, q) =>
      && id in st.api && st.api[id] == EnqueueTask && t !in st.tasks
      && (q == EnqueuedButError ==> env.ambiguousEnqueue)
    case FailRequest(_) => id in st.api && st.api[id] == FailAfterEnqueue
    case Abandon => id in st.api
  }

  predicate WorkEnabled(st: State, pc: Pc, w: WorkStep) {
    match w
    case GetSub(_, _) => pc.Load?
    case MarkRunning(_) => pc.Mark?
    case EngineRefuse(_) => pc.CallEngine?
    case ProgramStart => pc.CallEngine?
    case EngineError(_) => pc.Executing?
    case EngineOutcome(_) => pc.Executing?
    case StoreResult(db) => pc.Store? && (db != LostBefore ==> IsText(pc.outcome))
    case FailRow(_) => pc.FailLang? || pc.FailEngine?
    case EnqueueHook(k, _) => pc.Notify? && k !in st.hooks
  }

  predicate EndEnabled(env: Env, st: State, h: HandlerId, how: Ending) {
    && h in st.handlers && st.handlers[h].task in st.tasks
    && (how == Record ==> st.handlers[h].pc.Return?)
    && (how == Requeue ==> env.requeue)
  }

  predicate Enabled(env: Env, st: State, a: Action) {
    match a
    case Tick(_) => true
    case Api(id, s) => ApiEnabled(env, st, id, s)
    case Dequeue(t, h) => t in st.tasks && st.tasks[t].phase == Pending && h !in st.handlers
    case Work(h, w) => h in st.handlers && WorkEnabled(st, st.handlers[h].pc, w)
    case End(h, how) => EndEnabled(env, st, h, how)
    case LoseLease(t) => env.overlap && t in st.tasks && st.tasks[t].phase.Active?
    case Deliver(k, s) => k in st.hooks && if s.Fetch? then st.hooks[k].phase == HookPending else st.hooks[k].phase.HookLoaded?
  }

  // ---------------------------------------------------------------- API side

  function DoCreate(st: State, id: Id, request: Request, db: Db): State {
    if db == LostBefore then st
    else
      var st1 := st.(rows := st.rows[id := Created(request, st.now)]);
      if db == Done then st1.(api := st1.api[id := EnqueueTask])
      else st1.(faults := st1.faults + {Event(id, CreateUnconfirmed)})
  }

  /** The request ends without having reached its normal end. */
  function DropRequest(st: State, id: Id, fault: Fault): State {
    st.(api := st.api - {id}, faults := st.faults + {Event(id, fault)})
  }

  function DoEnqueue(st: State, id: Id, t: TaskId, q: Enq): State {
    var st1 := if q == NotEnqueued then st else st.(tasks := st.tasks[t := Task(id, 0, Pending)]);
    if q == Enqueued then st1.(api := st1.api - {id})
    else st1.(api := st1.api[id := FailAfterEnqueue])
  }

  /** FailSubmission; when it is lost before being applied, that is remembered as a fault. */
  function WriteFailed(st: State, id: Id, msg: string, db: Db): State {
    if db == LostBefore || id !in st.rows then st.(faults := st.faults + {Event(id, FailWriteLost)})
    else st.(rows := st.rows[id := MarkedFailed(st.rows[id], msg, st.now)])
  }

  function DoApiFail(st: State, id: Id, db: Db): State {
    var st1 := WriteFailed(st, id, "could not enqueue execution job", db);
    st1.(api := st1.api - {id})
  }

  // ------------------------------------------------------------- worker side

  function SetPc(st: State, h: HandlerId, pc: Pc): State
    requires h in st.handlers
  {
    st.(handlers := st.handlers[h := st.handlers[h].(pc := pc)])
  }

  function DoDequeue(st: State, t: TaskId, h: HandlerId): State
    requires t in st.tasks
  {
    var task := st.tasks[t];
    st.(tasks := st.tasks[t := task.(phase := Active(h))],
        handlers := st.handlers[h := Handler(t, task.sub, task.retried, Load)])
  }

  /** GetSubmission and the decisions taken on the loaded row before the next call. */
  function AfterLoad(rows: map<Id, Row>, id: Id, ok: bool, known: bool): Pc {
    if !ok then Return(Retryable(SqlError))
    else if id !in rows then Return(SkipRetry)
    else if rows[id].Terminal() then Return(Nil)
    else if !known then FailLang(rows[id])
    else Mark(rows[id])
  }

  function DoMark(st: State, h: HandlerId, db: Db): State
    requires h in st.handlers && st.handlers[h].pc.Mark?
  {
    var x := st.handlers[h];
    if x.sub !in st.rows then SetPc(st, h, Return(Retryable(SqlError)))
    else
      var st1 := if db == LostBefore then st
                 else st.(rows := st.rows[x.sub := Marked(st.rows[x.sub], st.now)]);
      SetPc(st1, h, if db == Done then CallEngine(x.pc.sub) else Return(Retryable(SqlError)))
  }

  /** isFinalAttempt: the queue will not call again after this attempt. */
  predicate FinalAttempt(retried: nat) {
    retried >= MAX_RETRY
  }

  /** An engine error becomes terminal only once the queue has given up. */
  function AfterEngineError(x: Handler, sub: Row, msg: string): Pc {
    if FinalAttempt(x.retried) then FailEngine(sub, "execution engine error: " + msg) else Return(Retryable(EngineFailure))
  }

  function DoStore(st: State, h: HandlerId, db: Db): State
    requires h in st.handlers && st.handlers[h].pc.Store?
  {
    var x := st.handlers[h];
    if x.sub !in st.rows then SetPc(st, h, Return(Retryable(SqlError)))
    else
      var st1 := if db == LostBefore then st
                 else st.(rows := st.rows[x.sub := Stored(st.rows[x.sub], x.pc.outcome, st.now)]);
      SetPc(st1, h, if db == Done then Notify(st1.rows[x.sub].request.webhookUrl) else Return(Retryable(SqlError)))
  }

  /** `fail`: the error of the write itself is only logged, so the handler goes on either way. */
  function DoFail(st: State, h: HandlerId, db: Db): State
    requires h in st.handlers && (st.handlers[h].pc.FailLang? || st.handlers[h].pc.FailEngine?)
  {
    var x := st.handlers[h];
    if x.pc.FailLang? then
      SetPc(WriteFailed(st, x.sub, "unsupported language " + x.pc.sub.request.language, db), h, Return(Nil))
    else
      SetPc(WriteFailed(st, x.sub, x.pc.msg, db), h, Notify(x.pc.sub.request.webhookUrl))
  }

  predicate WantsHook(url: Option<string>) {
    url.Some? && url.value != ""
  }

  function DoEnqueueHook(st: State, h: HandlerId, k: HookId, q: Enq): State
    requires h in st.handlers && st.handlers[h].pc.Notify?
  {
    var x := st.handlers[h];
    var st1 := if WantsHook(x.pc.url) && q != NotEnqueued
               then st.(hooks := st.hooks[k := Hook(x.sub, x.pc.url.value, HookPending)]) else st;
    SetPc(st1, h, Return(Nil))
  }

  // -------------------------------------------------------------- queue side

  /** The queue counts the attempt: try again, or archive it when none is left. */
  function CountAttempt(st: State, t: TaskId, fault: Fault): State
    requires t in st.tasks
  {
    var task := st.tasks[t];
    if task.retried < MAX_RETRY then
      st.(tasks := st.tasks[t := task.(retried := task.retried + 1, phase := Pending)])
    else
      st.(tasks := st.tasks[t := task.(phase := Archived)], faults := st.faults + {Event(task.sub, fault)})
  }

  function DropHandler(st: State, h: HandlerId): State {
    st.(handlers := st.handlers - {h})
  }

  /** A handler that lost its lease has no say in what the queue does next. */
  predicate Holds(st: State, h: HandlerId) {
    && h in st.handlers
    && st.handlers[h].task in st.tasks
    && st.tasks[st.handlers[h].task].phase == Active(h)
  }

  function DoRecord(st: State, h: HandlerId): State
    requires h in st.handlers && st.handlers[h].pc.Return? && st.handlers[h].task in st.tasks
  {
    var t := st.handlers[h].task;
    var st1 := DropHandler(st, h);
    if !Holds(st, h) then st1
    else match st.handlers[h].pc.verdict
      case Nil => st1.(tasks := st1.tasks[t := st1.tasks[t].(phase := Finished)])
      case SkipRetry => st1.(tasks := st1.tasks[t := st1.tasks[t].(phase := Archived)])
      case Retryable(_) => CountAttempt(st1, t, LastAttemptErrored)
  }

  function DoCrash(st: State, h: HandlerId): State
    requires h in st.handlers && st.handlers[h].task in st.tasks
  {
    var st1 := DropHandler(st, h);
    if Holds(st, h) then CountAttempt(st1, st.handlers[h].task, LastAttemptCrashed) else st1
  }

  function DoRequeue(st: State, h: HandlerId): State
    requires h in st.handlers && st.handlers[h].task in st.tasks
  {
    var t := st.handlers[h].task;
    var st1 := DropHandler(st, h);
    if Holds(st, h) then
      st1.(tasks := st1.tasks[t := st1.tasks[t].(phase := Pending)],
           requeues := st1.requeues + multiset{st1.tasks[t].sub})
    else st1
  }

  // ------------------------------------------------------------ webhook side

  function DoHookLoad(st: State, k: HookId, ok: bool): State
    requires k in st.hooks
  {
    var x := st.hooks[k];
    if ok && x.sub in st.rows then st.(hooks := st.hooks[k := x.(phase := HookLoaded(st.rows[x.sub]))]) else st
  }

  function DoHookPost(st: State, k: HookId, delivered: bool): State
    requires k in st.hooks && st.hooks[k].phase.HookLoaded?
  {
    var x := st.hooks[k];
    st.(hooks := st.hooks[k := x.(phase := if delivered then HookDelivered else HookPending)],
        posts := st.posts + {(x.sub, BodyOf(x.phase.sub))})
  }

  function DoHookDie(st: State, k: HookId): State
    requires k in st.hooks
  {
    st.(hooks := st.hooks[k := st.hooks[k].(phase := HookPending)])
  }

  function DoDeliver(st: State, k: HookId, s: HookStep): State
    requires k in st.hooks && (s.Post? ==> st.hooks[k].phase.HookLoaded?)
  {
    match s
    case Fetch(ok) => DoHookLoad(st, k, ok)
    case Post(delivered) => DoHookPost(st, k, delivered)
    case Die => DoHookDie(st, k)
  }

  function DoApi(env: Env, st: State, id: Id, s: ApiStep): State
    requires ApiEnabled(env, st, id, s)
  {
    match s
    case Create(request, db) => DoCreate(st, id, request, db)
    case BuildFails => DropRequest(st, id, TaskNotBuilt)
    case Enqueue(t, q) => DoEnqueue(st, id, t, q)
    case FailRequest(db) => DoApiFail(st, id, db)
    case Abandon => DropRequest(st, id, RequestAbandoned)
  }

  function DoWork(st: State, h: HandlerId, w: WorkStep): State
    requires h in st.handlers && WorkEnabled(st, st.handlers[h].pc, w)
  {
    var x := st.handlers[h];
    match w
    case GetSub(ok, known) => SetPc(st, h, AfterLoad(st.rows, x.sub, ok, known))
    case MarkRunning(db) => DoMark(st, h, db)
    case EngineRefuse(msg) => SetPc(st, h, AfterEngineError(x, x.pc.sub, msg))
    case ProgramStart => SetPc(st, h, Executing(x.pc.sub)).(starts := st.starts + multiset{x.sub})
    case EngineError(msg) => SetPc(st, h, AfterEngineError(x, x.pc.sub, msg))
    case EngineOutcome(o) => SetPc(st, h, Store(x.pc.sub, o))
    case StoreResult(db) => DoStore(st, h, db)
    case FailRow(db) => DoFail(st, h, db)
    case EnqueueHook(k, q) => DoEnqueueHook(st, h, k, q)
  }

  function DoEnd(env: Env, st: State, h: HandlerId, how: Ending): State
    requires EndEnabled(env, st, h, how)
  {
    match how
    case Record => DoRecord(st, h)
    case Crash => DoCrash(st, h)
    case Requeue => DoRequeue(st, h)
  }

  function Apply(env: Env, st: State, a: Action): State
    requires Enabled(env, st, a)
  {
    match a
    case Tick(d) => st.(now := st.now + d)
    case Api(id, s) => DoApi(env, st, id, s)
    case Dequeue(t, h) => DoDequeue(st, t, h)
    case Work(h, w) => DoWork(st, h, w)
    case End(h, how) => DoEnd(env, st, h, how)
    case LoseLease(t) => CountAttempt(st, t, LastAttemptCrashed)
    case Deliver(k, s) => DoDeliver(st, k, s)
  }

  /** States joined by enabled actions. */
  ghost predicate IsPath(env: Env, run: seq<State>, actions: seq<Action>) {
    && |run| == |actions| + 1
    && forall i :: 0 <= i < |actions| ==> Enabled(env, run[i], actions[i]) && run[i + 1] == Apply(env, run[i], actions[i])
  }

  /** A path from the empty system. */
  ghost predicate IsRun(env: Env, run: seq<State>, actions: seq<Action>) {
    IsPath(env, run, actions) && run[0] == Init()
  }
}
