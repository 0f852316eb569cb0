/**
 handleExecute, handleCreateSubmission and handleWebhook as the code has them:
 straight-line methods that call the database and the queue, with early returns,
 while other actors run between any two calls.

 The shared systems are the fields of `World`. Each call is one atomic update of
 those fields; `run` and `actions` record the history it makes. The contracts say
 that this history is a path of the Lifecycle machine, so whatever is proved about
 all runs of the machine holds of this code, and that the code's own steps in it are
 those that its fate calls for.
 */
module Worker {
  import opened Prelude
  import opened Submissions
  import opened Lifecycle
  import opened LifecycleAttempts
  import opened Histories

  class World {
    const env: Env
    var now: Time
    var rows: map<Id, Row>
    var api: map<Id, ApiPc>
    var tasks: map<TaskId, Task>
    var handlers: map<HandlerId, Handler>
    var hooks: map<HookId, Hook>
    var faults: set<Event>
    var starts: multiset<Id>
    var requeues: multiset<Id>
    var posts: set<(Id, Body)>
    ghost var run: seq<State>
    ghost var actions: seq<Action>

    function St(): State
      reads this
    {
      State(now, rows, api, tasks, handlers, hooks, faults, starts, requeues, posts)
    }

    /** The recorded history is a path of the machine that ends in the current state. */
    ghost predicate Valid()
      reads this
    {
      && |run| == |actions| + 1 && IsPath(env, run, actions)
      && run[|run| - 1] == St()
    }

    /** The history begins with the empty system, and the environment is the one the theorems are about. */
    ghost predicate FromStart()
      reads this
    {
      |run| > 0 && Sane(env) && run[0] == Init()
    }

    constructor (env: Env)
      ensures Valid() && St() == Init() && this.env == env && run == [Init()]
    {
      this.env := env;
      now, rows, api, tasks, handlers, hooks := 0, map[], map[], map[], map[], map[];
      faults, starts, requeues, posts := {}, multiset{}, multiset{}, {};
      run, actions := [Init()], [];
    }

    // -------------------------------------------------------------- history

    /** The update just made was action `a`. */
    ghost method Log(a: Action)
      requires |run| == |actions| + 1 && IsPath(env, run, actions)
      requires Enabled(env, run[|run| - 1], a) && St() == Apply(env, run[|run| - 1], a)
      modifies this`run, this`actions
      ensures Valid()
      ensures run == old(run) + [St()] && actions == old(actions) + [a]
    {
      hide Apply, Enabled;
      run := run + [St()];
      actions := actions + [a];
    }

    method Install(st: State)
      modifies this`now, this`rows, this`api, this`tasks, this`handlers, this`hooks, this`faults, this`starts, this`requeues, this`posts
      ensures St() == st
    {
      now, rows, api, tasks, handlers, hooks := st.now, st.rows, st.api, st.tasks, st.handlers, st.hooks;
      faults, starts, requeues, posts := st.faults, st.starts, st.requeues, st.posts;
    }

    /** Other actors move; what is `mine` is left alone. */
    method Interfere(mine: Mine, others: seq<Action>)
      requires Valid() && Exists(St(), mine)
      modifies this
      ensures Valid() && old(run) <= run && Foreign(old(actions), actions, mine)
      ensures Untouched(old(St()), St(), mine)
      ensures mine.MyRequest? ==> RequestSteps(actions, mine.id) == RequestSteps(old(actions), mine.id)
    {
      hide IsPath, Enabled, Touches, RequestSteps;
      var i := 0;
      while i < |others|
        invariant 0 <= i <= |others|
        invariant Valid() && old(run) <= run && Foreign(old(actions), actions, mine)
        invariant Untouched(old(St()), St(), mine)
        invariant mine.MyRequest? ==> RequestSteps(actions, mine.id) == RequestSteps(old(actions), mine.id)
      {
        var a := others[i];
        if Enabled(env, St(), a) && !Touches(a, mine) {
          Other(mine, a);
        }
        i := i + 1;
      }
    }

    method Other(mine: Mine, a: Action)
      requires Valid() && Enabled(env, St(), a) && Exists(St(), mine) && !Touches(a, mine)
      modifies this
      ensures Valid() && old(run) <= run && actions == old(actions) + [a]
      ensures Untouched(old(St()), St(), mine)
      ensures mine.MyRequest? ==> RequestSteps(actions, mine.id) == RequestSteps(old(actions), mine.id)
    {
      if mine.MyRequest? {
        RequestSnoc(actions, a, mine.id);
      }
      OthersLeaveAlone(env, St(), a, mine);
      hide Apply, Enabled;
      Install(Apply(env, St(), a));
      Log(a);
    }

    // ------------------------------------------------------- SQL statements

    method GetSubmission(id: Id, ok: bool) returns (r: Result<Row, DbError>)
      ensures r == if !ok then Err(Broken) else if id in rows then Ok(rows[id]) else Err(NoRows)
    {
      if !ok {
        return Err(Broken);
      }
      if id !in rows {
        return Err(NoRows);
      }
      return Ok(rows[id]);
    }

    method CreateSubmission(id: Id, request: Request, db: Db) returns (r: Result<Row, DbError>)
      requires id !in rows
      modifies this`rows
      ensures rows == if db == LostBefore then old(rows) else old(rows)[id := Created(request, now)]
      ensures r == if db == Done then Ok(Created(request, now)) else Err(Broken)
    {
      if db != LostBefore {
        rows := rows[id := Created(request, now)];
      }
      return if db == Done then Ok(Created(request, now)) else Err(Broken);
    }

    /** Any of the three UPDATE ... WHERE id = $1 RETURNING statements, `row'` being the updated row. */
    method Update(id: Id, row': Row, db: Db) returns (r: Result<Row, DbError>)
      modifies this`rows
      ensures rows == if id in old(rows) && db != LostBefore then old(rows)[id := row'] else old(rows)
      ensures r == if id !in old(rows) then Err(NoRows) else if db == Done then Ok(row') else Err(Broken)
    {
      if id !in rows {
        return Err(NoRows);
      }
      if db != LostBefore {
        rows := rows[id := row'];
      }
      return if db == Done then Ok(row') else Err(Broken);
    }

    method MarkSubmissionRunning(id: Id, db: Db) returns (r: Result<Row, DbError>)
      modifies this`rows
      ensures rows == if id in old(rows) && db != LostBefore then old(rows)[id := Marked(old(rows)[id], now)] else old(rows)
      ensures r.Ok? <==> id in old(rows) && db == Done
    {
      if id !in rows {
        return Err(NoRows);
      }
      r := Update(id, Marked(rows[id], now), db);
    }

    method CompleteSubmission(id: Id, o: Outcome, db: Db) returns (r: Result<Row, DbError>)
      modifies this`rows
      ensures rows == if id in old(rows) && IsText(o) && db != LostBefore then old(rows)[id := Stored(old(rows)[id], o, now)]
                      else old(rows)
      ensures r.Ok? <==> id in old(rows) && IsText(o) && db == Done
      ensures r.Ok? ==> id in rows && r.value == rows[id]
    {
      if id !in rows {
        return Err(NoRows);
      }
      r := Update(id, Stored(rows[id], o, now), Accepted(o, db));
    }

    /** fail: FailSubmission, its own error only being logged. */
    method Fail(id: Id, msg: string, db: Db)
      modifies this`rows, this`faults
      ensures St() == WriteFailed(old(St()), id, msg, db)
    {
      if id in rows {
        var r := Update(id, MarkedFailed(rows[id], msg, now), db);
      }
      if db == LostBefore || id !in rows {
        faults := faults + {Event(id, FailWriteLost)};
      }
    }

    // -------------------------------------------------------------- handlers

    /** Where the handler stands is part of the machine's state. */
    method Stand(h: HandlerId, pc: Pc)
      requires h in handlers
      modifies this`handlers
      ensures St() == SetPc(old(St()), h, pc)
    {
      handlers := handlers[h := handlers[h].(pc := pc)];
    }

    /** The queue operation of enqueueWebhook: nothing to do without a URL; a failed enqueue is only logged. */
    method PutHook(h: HandlerId, url: Option<string>, q: Enq) returns (k: HookId)
      requires h in handlers && handlers[h].pc == Notify(url)
      modifies this`hooks, this`handlers
      ensures k !in old(hooks) && St() == DoEnqueueHook(old(St()), h, k, q)
      ensures h in handlers && handlers[h] == old(handlers[h]).(pc := Return(Nil))
    {
      ghost var some := UnusedId(hooks.Keys);
      k :| k !in hooks;
      if url.Some? && url.value != "" && q != NotEnqueued {
        hooks := hooks[k := Hook(handlers[h].sub, url.value, HookPending)];
      }
      Stand(h, Return(Nil));
    }

    method EnqueueWebhook(h: HandlerId, url: Option<string>, fate: Fate)
      requires Valid() && h in handlers && handlers[h].pc == Notify(url)
      modifies this
      ensures Valid() && old(run) <= run && Obeys(old(actions), actions, h, fate)
      ensures h in handlers && handlers[h] == old(handlers[h]).(pc := Return(Nil))
    {
      hide Obeys, Foreign, IsPath, DoEnqueueHook;
      Interfere(MyHandler(h), fate.others(5));
      ghost var mid := actions;
      var k := PutHook(h, url, fate.hookQueue);
      Log(Work(h, EnqueueHook(k, fate.hookQueue)));
      ObeysStep(old(actions), mid, h, EnqueueHook(k, fate.hookQueue), fate);
    }

    // Each of the next methods is one call of handleExecute, preceded by whatever
    // the other actors do first.

    method LoadRow(h: HandlerId, fate: Fate) returns (loaded: Result<Row, DbError>)
      requires Valid() && h in handlers && handlers[h].pc == Load
      modifies this
      ensures Valid() && old(run) <= run && Obeys(old(actions), actions, h, fate)
      ensures h in handlers && handlers[h] == old(handlers[h]).(pc := AfterLoading(loaded, fate.languageKnown))
    {
      hide Obeys, Foreign, IsPath;
      Interfere(MyHandler(h), fate.others(0));
      ghost var mid := actions;
      loaded := GetSubmission(handlers[h].sub, fate.loadOk);
      Stand(h, AfterLoading(loaded, fate.languageKnown));
      Log(Work(h, GetSub(fate.loadOk, fate.languageKnown)));
      ObeysStep(old(actions), mid, h, GetSub(fate.loadOk, fate.languageKnown), fate);
    }

    method MarkRow(h: HandlerId, sub: Row, fate: Fate) returns (ok: bool)
      requires Valid() && h in handlers && handlers[h].pc == Mark(sub)
      modifies this
      ensures Valid() && old(run) <= run && Obeys(old(actions), actions, h, fate)
      ensures h in handlers && handlers[h] == old(handlers[h]).(pc := if ok then CallEngine(sub) else Return(Retryable(SqlError)))
    {
      hide Obeys, Foreign, IsPath;
      Interfere(MyHandler(h), fate.others(1));
      ghost var mid := actions;
      var marked := MarkSubmissionRunning(handlers[h].sub, fate.markDb);
      ok := marked.Ok?;
      Stand(h, if ok then CallEngine(sub) else Return(Retryable(SqlError)));
      Log(Work(h, MarkRunning(fate.markDb)));
      ObeysStep(old(actions), mid, h, MarkRunning(fate.markDb), fate);
    }

    method FailLanguage(h: HandlerId, sub: Row, fate: Fate)
      requires Valid() && h in handlers && handlers[h].pc == FailLang(sub)
      modifies this
      ensures Valid() && old(run) <= run && Obeys(old(actions), actions, h, fate)
      ensures h in handlers && handlers[h] == old(handlers[h]).(pc := Return(Nil))
    {
      hide Obeys, Foreign, IsPath;
      Interfere(MyHandler(h), fate.others(1));
      ghost var mid := actions;
      Fail(handlers[h].sub, "unsupported language " + sub.request.language, fate.failDb);
      Stand(h, Return(Nil));
      Log(Work(h, FailRow(fate.failDb)));
      ObeysStep(old(actions), mid, h, FailRow(fate.failDb), fate);
    }

    method FailExecution(h: HandlerId, sub: Row, msg: string, fate: Fate)
      requires Valid() && h in handlers && handlers[h].pc == FailEngine(sub, msg)
      modifies this
      ensures Valid() && old(run) <= run && Obeys(old(actions), actions, h, fate)
      ensures h in handlers && handlers[h] == old(handlers[h]).(pc := Notify(sub.request.webhookUrl))
    {
      hide Obeys, Foreign, IsPath;
      Interfere(MyHandler(h), fate.others(4));
      ghost var mid := actions;
      Fail(handlers[h].sub, msg, fate.failDb);
      Stand(h, Notify(sub.request.webhookUrl));
      Log(Work(h, FailRow(fate.failDb)));
      ObeysStep(old(actions), mid, h, FailRow(fate.failDb), fate);
    }

    method Complete(h: HandlerId, sub: Row, outcome: Outcome, db: Db) returns (updated: Result<Row, DbError>)
      requires h in handlers && handlers[h].pc == Store(sub, outcome)
      modifies this`rows, this`handlers
      ensures St() == DoStore(old(St()), h, Accepted(outcome, db))
      ensures h in handlers
      ensures handlers[h] == old(handlers[h]).(pc :=
                if updated.Ok? then Notify(updated.value.request.webhookUrl) else Return(Retryable(SqlError)))
    {
      hide Stored, IsText;
      updated := CompleteSubmission(handlers[h].sub, outcome, db);
      Stand(h, if updated.Ok? then Notify(updated.value.request.webhookUrl) else Return(Retryable(SqlError)));
    }

    method StoreOutcome(h: HandlerId, sub: Row, outcome: Outcome, fate: Fate) returns (updated: Result<Row, DbError>)
      requires Valid() && h in handlers && handlers[h].pc == Store(sub, outcome) && fate.engine == Reports(outcome)
      modifies this
      ensures Valid() && old(run) <= run && Obeys(old(actions), actions, h, fate)
      ensures h in handlers
      ensures handlers[h] == old(handlers[h]).(pc :=
                if updated.Ok? then Notify(updated.value.request.webhookUrl) else Return(Retryable(SqlError)))
    {
      hide Obeys, Foreign, IsPath, DoStore, IsText;
      Interfere(MyHandler(h), fate.others(4));
      ghost var mid := actions;
      updated := Complete(h, sub, outcome, fate.storeDb);
      Log(Work(h, StoreResult(Accepted(outcome, fate.storeDb))));
      ObeysStep(old(actions), mid, h, StoreResult(Accepted(outcome, fate.storeDb)), fate);
    }

    method StartProgram(h: HandlerId, sub: Row, fate: Fate)
      requires Valid() && h in handlers && handlers[h].pc == CallEngine(sub) && !fate.engine.Refuses?
      modifies this
      ensures Valid() && old(run) <= run && Obeys(old(actions), actions, h, fate)
      ensures h in handlers && handlers[h] == old(handlers[h]).(pc := Executing(sub))
    {
      hide Obeys, Foreign, IsPath;
      Interfere(MyHandler(h), fate.others(2));
      ghost var mid := actions;
      starts := starts + multiset{handlers[h].sub};
      Stand(h, Executing(sub));
      Log(Work(h, ProgramStart));
      ObeysStep(old(actions), mid, h, ProgramStart, fate);
    }

    method EngineFails(h: HandlerId, sub: Row, msg: string, fate: Fate)
      requires Valid() && h in handlers && (handlers[h].pc == CallEngine(sub) || handlers[h].pc == Executing(sub))
      requires fate.engine == if handlers[h].pc.CallEngine? then Refuses(msg) else Breaks(msg)
      modifies this
      ensures Valid() && old(run) <= run && Obeys(old(actions), actions, h, fate)
      ensures h in handlers && handlers[h] == old(handlers[h]).(pc := AfterEngineError(old(handlers[h]), sub, msg))
    {
      hide Obeys, Foreign, IsPath;
      Interfere(MyHandler(h), fate.others(3));
      ghost var mid := actions;
      ghost var step := if handlers[h].pc.CallEngine? then EngineRefuse(msg) else EngineError(msg);
      Stand(h, AfterEngineError(handlers[h], sub, msg));
      Log(Work(h, step));
      ObeysStep(old(actions), mid, h, step, fate);
    }

    method EngineSucceeds(h: HandlerId, sub: Row, outcome: Outcome, fate: Fate)
      requires Valid() && h in handlers && handlers[h].pc == Executing(sub) && fate.engine == Reports(outcome)
      modifies this
      ensures Valid() && old(run) <= run && Obeys(old(actions), actions, h, fate)
      ensures h in handlers && handlers[h] == old(handlers[h]).(pc := Store(sub, outcome))
    {
      hide Obeys, Foreign, IsPath;
      Interfere(MyHandler(h), fate.others(3));
      ghost var mid := actions;
      Stand(h, Store(sub, outcome));
      Log(Work(h, EngineOutcome(outcome)));
      ObeysStep(old(actions), mid, h, EngineOutcome(outcome), fate);
    }

    /** exec.Execute as the worker sees it: refused, broken off after the program started, or done. */
    method CallTheEngine(h: HandlerId, sub: Row, fate: Fate) returns (r: Result<Outcome, string>)
      requires Valid() && h in handlers && handlers[h].pc == CallEngine(sub)
      modifies this
      ensures Valid() && old(run) <= run && Obeys(old(actions), actions, h, fate)
      ensures h in handlers
      ensures handlers[h] == old(handlers[h]).(pc :=
                if r.Ok? then Store(sub, r.value) else AfterEngineError(old(handlers[h]), sub, r.error))
      ensures r.Ok? ==> fate.engine == Reports(r.value)
    {
      hide IsPath;
      match fate.engine {
        case Refuses(msg) =>
          EngineFails(h, sub, msg, fate);
          return Err(msg);
        case Breaks(msg) =>
          StartProgram(h, sub, fate);
          EngineFails(h, sub, msg, fate);
          return Err(msg);
        case Reports(outcome) =>
          StartProgram(h, sub, fate);
          EngineSucceeds(h, sub, outcome, fate);
          return Ok(outcome);
      }
    }

    /**
     handleExecute, from the handler's start to its return value. Whatever the other
     actors and the faults in `fate` do, the history it adds is a path of the machine
     on which this handler walks from Load to Return.
     */
    method HandleExecute(h: HandlerId, fate: Fate) returns (v: Verdict)
      requires Valid() && h in handlers && handlers[h].pc == Load
      modifies this
      ensures Valid() && old(run) <= run && Obeys(old(actions), actions, h, fate)
      ensures h in handlers && handlers[h] == old(handlers[h]).(pc := Return(v))
      // under the hypotheses of the theorems, its calls are one of the ways through the code, and v is where it leads
      ensures FromStart() ==> Exits(TraceOf(actions, h), FinalAttempt(handlers[h].retried), v)
    {
      hide IsPath, Exits, TraceOf;
      v := FollowTheCode(h, fate);
      FollowedTheCode(h);
    }

    ghost method FollowedTheCode(h: HandlerId)
      requires Valid() && h in handlers
      ensures FromStart() ==> CameBy(handlers[h].pc, TraceOf(actions, h), FinalAttempt(handlers[h].retried))
    {
      if FromStart() {
        HandlerFollowedTheCode(env, run, actions, h);
      }
    }

    method FollowTheCode(h: HandlerId, fate: Fate) returns (v: Verdict)
      requires Valid() && h in handlers && handlers[h].pc == Load
      modifies this
      ensures Valid() && old(run) <= run && Obeys(old(actions), actions, h, fate)
      ensures h in handlers && handlers[h] == old(handlers[h]).(pc := Return(v))
    {
      hide IsPath;
      var loaded := LoadRow(h, fate);
      if loaded.Err? {
        return if loaded.error == NoRows then SkipRetry else Retryable(SqlError);
      }
      var sub := loaded.value;
      if sub.status == Completed || sub.status == Failed {
        return Nil;
      }
      if !fate.languageKnown {
        FailLanguage(h, sub, fate);
        return Nil;
      }
      var running := MarkRow(h, sub, fate);
      if !running {
        return Retryable(SqlError);
      }
      v := ExecuteAndStore(h, sub, fate);
    }

    /** The second half of handleExecute: from the call of the engine on. */
    method ExecuteAndStore(h: HandlerId, sub: Row, fate: Fate) returns (v: Verdict)
      requires Valid() && h in handlers && handlers[h].pc == CallEngine(sub)
      modifies this
      ensures Valid() && old(run) <= run && Obeys(old(actions), actions, h, fate)
      ensures h in handlers && handlers[h] == old(handlers[h]).(pc := Return(v))
    {
      hide IsPath;
      var outcome := CallTheEngine(h, sub, fate);
      if outcome.Err? {
        if !IsFinalAttempt(h) {
          return Retryable(EngineFailure);
        }
        FailExecution(h, sub, "execution engine error: " + outcome.error, fate);
        EnqueueWebhook(h, sub.request.webhookUrl, fate);
        return Nil;
      }
      var updated := StoreOutcome(h, sub, outcome.value, fate);
      if updated.Err? {
        return Retryable(SqlError);
      }
      EnqueueWebhook(h, updated.value.request.webhookUrl, fate);
      return Nil;
    }

    // ------------------------------------------------------------ API request

    /** INSERT; from now on the request answers for the row. */
    method Persist(id: Id, request: Request, fate: ApiFate) returns (ok: bool)
      requires Valid() && id !in rows
      modifies this
      ensures Valid() && old(run) <= run
      ensures RequestSteps(actions, id) == RequestSteps(old(actions), id) + [Create(request, fate.createDb)]
      ensures ok <==> fate.createDb == Done
      ensures ok ==> api == old(api)[id := EnqueueTask]
      ensures !ok ==> api == old(api)
    {
      hide IsPath, RequestSteps;
      RequestSnoc(actions, Api(id, Create(request, fate.createDb)), id);
      var r := CreateSubmission(id, request, fate.createDb);
      ok := r.Ok?;
      if ok {
        api := api[id := EnqueueTask];
      } else if fate.createDb == LostAfter {
        faults := faults + {Event(id, CreateUnconfirmed)};
      }
      Log(Api(id, Create(request, fate.createDb)));
    }

    /** The request ends although its row has no task: the row stays queued. */
    method GiveUp(id: Id, fate: ApiFate)
      requires Valid() && id in api && api[id] == EnqueueTask
      modifies this
      ensures Valid() && old(run) <= run && id !in api
      ensures RequestSteps(actions, id) == RequestSteps(old(actions), id) + [BuildFails]
    {
      hide IsPath, RequestSteps;
      Interfere(MyRequest(id), fate.others(0));
      RequestSnoc(actions, Api(id, BuildFails), id);
      api := api - {id};
      faults := faults + {Event(id, TaskNotBuilt)};
      Log(Api(id, BuildFails));
    }

    method PutOnQueue(id: Id, fate: ApiFate) returns (ok: bool, t: TaskId)
      requires Valid() && id in api && api[id] == EnqueueTask
      requires fate.queue == EnqueuedButError ==> env.ambiguousEnqueue
      modifies this
      ensures Valid() && old(run) <= run
      ensures RequestSteps(actions, id) == RequestSteps(old(actions), id) + [Enqueue(t, fate.queue)]
      ensures ok <==> fate.queue == Enqueued
      ensures ok ==> id !in api && t in tasks && tasks[t] == Task(id, 0, Pending)
      ensures !ok ==> id in api && api[id] == FailAfterEnqueue
    {
      hide IsPath, RequestSteps;
      Interfere(MyRequest(id), fate.others(0));
      ghost var some := UnusedId(tasks.Keys);
      t :| t !in tasks;
      RequestSnoc(actions, Api(id, Enqueue(t, fate.queue)), id);
      if fate.queue != NotEnqueued {
        tasks := tasks[t := Task(id, 0, Pending)];
      }
      ok := fate.queue == Enqueued;
      if ok {
        api := api - {id};
      } else {
        api := api[id := FailAfterEnqueue];
      }
      Log(Api(id, Enqueue(t, fate.queue)));
    }

    /** The row is marked as failed, so that its client does not poll for ever. */
    method FailRequested(id: Id, fate: ApiFate)
      requires Valid() && id in api && api[id] == FailAfterEnqueue
      modifies this
      ensures Valid() && old(run) <= run && id !in api
      ensures RequestSteps(actions, id) == RequestSteps(old(actions), id) + [FailRequest(fate.failDb)]
      ensures FromStart() && fate.failDb != LostBefore ==>
                id in rows && rows[id].status == Failed && rows[id].error == Some("could not enqueue execution job")
    {
      hide IsPath, RequestSteps;
      Interfere(MyRequest(id), fate.others(1));
      RowIsThere(id);
      RequestSnoc(actions, Api(id, FailRequest(fate.failDb)), id);
      Fail(id, "could not enqueue execution job", fate.failDb);
      api := api - {id};
      Log(Api(id, FailRequest(fate.failDb)));
    }

    /** In a history the row of a request in progress exists. */
    ghost method RowIsThere(id: Id)
      requires Valid() && id in api
      ensures FromStart() ==> id in rows
    {
      if FromStart() {
        RequestedRowExists(env, run, actions, id);
      }
    }

    /**
     The part of handleCreateSubmission after its checks: persist first, enqueue
     second, and mark the row failed when the enqueue reports an error. Its steps are
     exactly those that `Plan` gives for its fate. A 202 means that a task for the
     submission is on the queue; a 503, that its row says why it will not run, unless
     that write was lost too.
     */
    method HandleCreateSubmission(id: Id, request: Request, fate: ApiFate) returns (status: int, t: TaskId)
      requires Valid() && id !in rows && id !in api
      requires fate.queue == EnqueuedButError ==> env.ambiguousEnqueue
      modifies this
      ensures Valid() && old(run) <= run && id !in api
      ensures RequestSteps(actions, id) == RequestSteps(old(actions), id) + Plan(request, fate, t)
      ensures status == (if fate.createDb != Done || !fate.buildOk then 500 else if fate.queue == Enqueued then 202 else 503)
      ensures status == 202 ==> t in tasks && tasks[t] == Task(id, 0, Pending)
      ensures FromStart() && status == 503 && fate.failDb != LostBefore ==>
                id in rows && rows[id].status == Failed && rows[id].error == Some("could not enqueue execution job")
    {
      hide IsPath, RequestSteps;
      t := 0;
      var persisted := Persist(id, request, fate);
      if !persisted {
        return 500, t;
      }
      if !fate.buildOk {
        GiveUp(id, fate);
        return 500, t;
      }
      var enqueued;
      enqueued, t := PutOnQueue(id, fate);
      if !enqueued {
        FailRequested(id, fate);
        return 503, t;
      }
      return 202, t;
    }

    // --------------------------------------------------------------- webhooks

    /**
     handleWebhook: load the row, post its body. It returns nil exactly if both
     succeed; otherwise the webhook is left to be tried again. What is posted is the
     body of the row that was loaded.
     */
    method HandleWebhook(k: HookId, fate: HookFate) returns (ok: bool, loaded: Option<Row>)
      requires Valid() && k in hooks && hooks[k].phase == HookPending
      modifies this
      ensures Valid() && old(run) <= run && old(actions) <= actions
      ensures k in hooks && hooks[k] == old(hooks[k]).(phase := if ok then HookDelivered else HookPending)
      ensures ok <==> loaded.Some? && fate.delivered
      ensures loaded.Some? ==> fate.loadOk && (hooks[k].sub, BodyOf(loaded.value)) in posts
      ensures loaded.Some? ==> |actions| > 0 && actions[|actions| - 1] == Deliver(k, Post(fate.delivered))
      ensures FromStart() && fate.loadOk ==> loaded.Some?
    {
      hide IsPath;
      loaded := LoadForWebhook(k, fate);
      if loaded.None? {
        return false, None;
      }
      DeliverBody(k, loaded.value, fate);
      return fate.delivered, loaded;
    }

    method LoadForWebhook(k: HookId, fate: HookFate) returns (loaded: Option<Row>)
      requires Valid() && k in hooks && hooks[k].phase == HookPending
      modifies this
      ensures Valid() && old(run) <= run && old(actions) <= actions
      ensures k in hooks && hooks[k] == old(hooks[k]).(phase := if loaded.Some? then HookLoaded(loaded.value) else HookPending)
      ensures loaded.Some? ==> fate.loadOk
      ensures FromStart() && fate.loadOk ==> loaded.Some?
    {
      hide IsPath;
      Interfere(MyHook(k), fate.others(0));
      var r := GetSubmission(hooks[k].sub, fate.loadOk);
      AnnouncedRowIsThere(k);
      if r.Ok? {
        hooks := hooks[k := hooks[k].(phase := HookLoaded(r.value))];
      }
      Log(Deliver(k, Fetch(fate.loadOk)));
      return if r.Ok? then Some(r.value) else None;
    }

    ghost method AnnouncedRowIsThere(k: HookId)
      requires Valid() && k in hooks
      ensures FromStart() ==> hooks[k].sub in rows
    {
      if FromStart() {
        AnnouncedRowExists(env, run, actions, k);
      }
    }

    method DeliverBody(k: HookId, row: Row, fate: HookFate)
      requires Valid() && k in hooks && hooks[k].phase == HookLoaded(row)
      modifies this
      ensures Valid() && old(run) <= run && old(actions) <= actions
      ensures k in hooks && hooks[k] == old(hooks[k]).(phase := if fate.delivered then HookDelivered else HookPending)
      ensures (hooks[k].sub, BodyOf(row)) in posts
      ensures |actions| > 0 && actions[|actions| - 1] == Deliver(k, Post(fate.delivered))
    {
      hide IsPath, BodyOf;
      Interfere(MyHook(k), fate.others(1));
      posts := posts + {(hooks[k].sub, BodyOf(row))};
      hooks := hooks[k := hooks[k].(phase := if fate.delivered then HookDelivered else HookPending)];
      Log(Deliver(k, Post(fate.delivered)));
    }

    // ------------------------------------------------------------------ queue

    /** The queue's part around handleExecute: hand out a pending task, then record what the handler returned. */
    method ProcessTask(t: TaskId, fate: Fate) returns (v: Verdict)
      requires Valid() && t in tasks && tasks[t].phase == Pending
      modifies this
      ensures Valid() && old(run) <= run && old(actions) <= actions
      // under the hypotheses of the theorems, no finished result is touched by any of this ...
      ensures FromStart() ==> KeepsFinished(old(rows), rows) && AllWellShaped(rows)
      // ... and the task is what the verdict makes of it, with nobody working on it any more
      ensures FromStart() ==>
                && t in tasks && tasks[t] == Recorded(old(tasks[t]), v)
                && forall g :: g in handlers ==> handlers[g].task != t
    {
      ghost var some := UnusedId(handlers.Keys);
      var h: HandlerId :| h !in handlers;
      HandOut(t, h);
      hide Apply, Enabled, KeepsFinished, AllWellShaped, IsPath, Exits, TraceOf;
      v := HandleExecute(h, fate);
      RecordVerdict(h);
      FinishedIsKept(|old(run)| - 1);
    }

    ghost method FinishedIsKept(i: nat)
      requires Valid() && i < |run|
      ensures FromStart() ==> KeepsFinished(run[i].rows, rows) && AllWellShaped(rows)
    {
      if FromStart() {
        HistoryHolds(env, run, actions, i);
      }
    }

    method HandOut(t: TaskId, h: HandlerId)
      requires Valid() && t in tasks && tasks[t].phase == Pending && h !in handlers
      modifies this
      ensures Valid() && old(run) <= run && old(actions) <= actions
      ensures h in handlers && handlers[h] == Handler(t, old(tasks[t]).sub, old(tasks[t]).retried, Load)
    {
      hide IsPath;
      handlers := handlers[h := Handler(t, tasks[t].sub, tasks[t].retried, Load)];
      tasks := tasks[t := tasks[t].(phase := Active(h))];
      Log(Dequeue(t, h));
    }

    /** A task that vanished from the queue has nothing to record; the handler just ends. */
    method RecordVerdict(h: HandlerId)
      requires Valid() && h in handlers && handlers[h].pc.Return?
      modifies this
      ensures Valid() && old(run) <= run && old(actions) <= actions && rows == old(rows)
      ensures FromStart() ==>
                var x := old(handlers[h]);
                && x.task in tasks && tasks[x.task] == Recorded(Task(x.sub, x.retried, Pending), x.pc.verdict)
                && forall g :: g in handlers ==> handlers[g].task != x.task
    {
      hide IsPath;
      HolderIsAlone(h);
      if handlers[h].task in tasks {
        RecordEffects(St(), h);
        hide DoRecord;
        Install(DoRecord(St(), h));
        Log(End(h, Record));
      }
    }

    ghost method HolderIsAlone(h: HandlerId)
      requires Valid() && h in handlers
      ensures FromStart() ==>
                && handlers[h].task in tasks && tasks[handlers[h].task] == Task(handlers[h].sub, handlers[h].retried, Active(h))
                && forall g :: g in handlers && handlers[g].task == handlers[h].task ==> g == h
    {
      if FromStart() {
        HandlerHoldsItsTask(env, run, actions, h);
      }
    }

    predicate IsFinalAttempt(h: HandlerId)
      requires h in handlers
      reads this
    {
      handlers[h].retried >= MAX_RETRY
    }
  }
}
