/**
 What the design promises about submissions, for every run of a sane
 environment: any number of submissions, handlers, retries, crashes and failed
 calls, in any order.
 */
module LifecycleTheorems {
  import opened Prelude
  import opened Submissions
  import opened Lifecycle
  import opened LifecycleInvariant
  import opened LifecyclePreservation

  // --------------------------------------------- statuses, frozen rows, shape

  /** `row'` is an allowed successor of `row`. */
  predicate RowMove(row: Row, row': Row) {
    && StatusMove(row.status, row'.status)
    && row'.request == row.request
    && (row.Terminal() ==> row' == row)
  }

  ghost predicate RowsMove(st: State, st': State) {
    forall id :: id in st.rows ==> id in st'.rows && RowMove(st.rows[id], st'.rows[id])
  }

  lemma MarkMoves(env: Env, st: State, h: HandlerId, db: Db)
    requires Inv(env, st) && h in st.handlers && st.handlers[h].pc.Mark?
    ensures RowsMove(st, DoMark(st, h, db))
  {
    HandlerFacts(env, st, h);
  }

  lemma StoreMoves(env: Env, st: State, h: HandlerId, db: Db)
    requires Inv(env, st) && h in st.handlers && st.handlers[h].pc.Store?
    ensures RowsMove(st, DoStore(st, h, db))
  {
    HandlerFacts(env, st, h);
  }

  lemma FailMoves(env: Env, st: State, h: HandlerId, db: Db)
    requires Inv(env, st) && h in st.handlers && (st.handlers[h].pc.FailLang? || st.handlers[h].pc.FailEngine?)
    ensures RowsMove(st, DoFail(st, h, db))
  {
    HandlerFacts(env, st, h);
  }

  lemma OtherWorkKeepsRows(st: State, h: HandlerId, w: WorkStep)
    requires h in st.handlers && WorkEnabled(st, st.handlers[h].pc, w)
    requires !w.MarkRunning? && !w.StoreResult? && !w.FailRow?
    ensures DoWork(st, h, w).rows == st.rows
  {
  }

  lemma WorkMoves(env: Env, st: State, h: HandlerId, w: WorkStep)
    requires Inv(env, st) && h in st.handlers && WorkEnabled(st, st.handlers[h].pc, w)
    ensures RowsMove(st, DoWork(st, h, w))
  {
    if w.MarkRunning? {
      MarkMoves(env, st, h, w.db);
    } else if w.StoreResult? {
      StoreMoves(env, st, h, w.db);
    } else if w.FailRow? {
      FailMoves(env, st, h, w.db);
    } else {
      OtherWorkKeepsRows(st, h, w);
    }
  }

  lemma ApiFailMoves(env: Env, st: State, id: Id, db: Db)
    requires Inv(env, st) && id in st.api
    ensures RowsMove(st, DoApiFail(st, id, db))
  {
    NoTaskWhileRequested(env, st, id);
  }

  lemma ApiMoves(env: Env, st: State, id: Id, s: ApiStep)
    requires Inv(env, st) && ApiEnabled(env, st, id, s)
    ensures RowsMove(st, DoApi(env, st, id, s))
  {
    if s.FailRequest? {
      ApiFailMoves(env, st, id, s.db);
    }
  }

  lemma StepMoves(env: Env, st: State, a: Action)
    requires Sane(env) && Inv(env, st) && Enabled(env, st, a)
    ensures RowsMove(st, Apply(env, st, a))
  {
    if a.Api? {
      ApiMoves(env, st, a.id, a.request);
    } else if a.Work? {
      WorkMoves(env, st, a.h, a.step);
    } else {
      assert Apply(env, st, a).rows == st.rows;
    }
  }

  /**
   Every step moves a status along queued -> running -> completed | failed, or
   queued -> failed, or not at all, and changes nothing of a finished row.
   */
  lemma StatusMovesForward(env: Env, run: seq<State>, actions: seq<Action>, i: nat)
    requires Sane(env) && IsRun(env, run, actions) && i < |actions|
    ensures RowsMove(run[i], run[i + 1])
  {
    RunKeepsInv(env, run, actions, i);
    StepMoves(env, run[i], actions[i]);
  }

  /** In a history of allowed moves, a finished row stays as it is. */
  lemma {:induction false} MovesFreeze(run: seq<State>, i: nat, j: nat, id: Id)
    requires i <= j < |run| && id in run[i].rows
    requires forall k: nat :: k + 1 < |run| ==> RowsMove(run[k], run[k + 1])
    ensures id in run[j].rows
    ensures run[j].rows[id].request == run[i].rows[id].request
    ensures run[i].rows[id].Terminal() ==> run[j].rows[id] == run[i].rows[id]
    decreases j
  {
    if i < j {
      MovesFreeze(run, i, j - 1, id);
      assert RowsMove(run[j - 1], run[j - 1 + 1]);
    }
  }

  /** Rows are never deleted, the client's part never changes, and a finished row never changes at all. */
  lemma FinishedRowsAreFrozen(env: Env, run: seq<State>, actions: seq<Action>, i: nat, j: nat, id: Id)
    requires Sane(env) && IsRun(env, run, actions) && i <= j < |run| && id in run[i].rows
    ensures id in run[j].rows
    ensures run[j].rows[id].request == run[i].rows[id].request
    ensures run[i].rows[id].Terminal() ==> run[j].rows[id] == run[i].rows[id]
  {
    forall k: nat | k + 1 < |run|
      ensures RowsMove(run[k], run[k + 1])
    {
      StatusMovesForward(env, run, actions, k);
    }
    MovesFreeze(run, i, j, id);
  }

  /** Columns agree with the status and timestamps are ordered, in every reachable row. */
  lemma RowsAreWellShaped(env: Env, run: seq<State>, actions: seq<Action>, i: nat, id: Id)
    requires Sane(env) && IsRun(env, run, actions) && i < |run| && id in run[i].rows
    ensures WellShaped(run[i].rows[id])
    ensures NotFromTheFuture(run[i].rows[id], run[i].now)
  {
    RunKeepsInv(env, run, actions, i);
    assert SubInv(env, run[i], id);
  }

  // ------------------------------------------------------------ nothing is lost

  predicate Live(st: State, t: TaskId) {
    t in st.tasks && (st.tasks[t].phase.Pending? || st.tasks[t].phase.Active?)
  }

  /** `t` is the only task of `id`, it is still to be worked on, and at most one handler works on it. */
  ghost predicate SoleLiveTask(st: State, t: TaskId, id: Id) {
    && IsTask(st, t, id) && Live(st, t)
    && (forall u :: IsTask(st, u, id) ==> u == t)
    && (forall g, h :: IsHandler(st, g, id) && IsHandler(st, h, id) ==> g == h)
  }

  lemma Accounted(env: Env, st: State, id: Id)
    requires Inv(env, st) && id in st.rows
    ensures || st.rows[id].Terminal()
            || id in st.api
            || (exists t :: SoleLiveTask(st, t, id))
            || Faulty(st, id)
  {
    assert SubInv(env, st, id);
    if !st.rows[id].Terminal() && id !in st.api && !Faulty(st, id) {
      var t :| IsTask(st, t, id);
      assert TaskOk(st, t);
      forall g, h | IsHandler(st, g, id) && IsHandler(st, h, id)
        ensures g == h
      {
        HandlerFacts(env, st, g);
        HandlerFacts(env, st, h);
      }
      assert SoleLiveTask(st, t, id);
    }
  }

  /**
   Every persisted submission is finished, still in the hands of its request,
   in the hands of exactly one execute task, or was hit by a recorded fault.
   */
  lemma NothingIsLost(env: Env, run: seq<State>, actions: seq<Action>, i: nat, id: Id)
    requires Sane(env) && IsRun(env, run, actions) && i < |run| && id in run[i].rows
    ensures || run[i].rows[id].Terminal()
            || id in run[i].api
            || (exists t :: SoleLiveTask(run[i], t, id))
            || Faulty(run[i], id)
  {
    RunKeepsInv(env, run, actions, i);
    Accounted(env, run[i], id);
  }

  /** The fault, if any, that an action is: nothing but these can strand a submission. */
  function FaultOf(st: State, a: Action): Option<Event> {
    match a
    case Api(id, Create(_, LostAfter)) => Some(Event(id, CreateUnconfirmed))
    case Api(id, BuildFails) => Some(Event(id, TaskNotBuilt))
    case Api(id, Abandon) => Some(Event(id, RequestAbandoned))
    case Api(id, FailRequest(LostBefore)) => Some(Event(id, FailWriteLost))
    case Work(h, FailRow(LostBefore)) => if h in st.handlers then Some(Event(st.handlers[h].sub, FailWriteLost)) else None
    case End(h, how) =>
      if h !in st.handlers || !FinalAttempt(st.handlers[h].retried) then None
      else if how == Crash then Some(Event(st.handlers[h].sub, LastAttemptCrashed))
      else if how == Record && st.handlers[h].pc == Return(Retryable(SqlError)) then Some(Event(st.handlers[h].sub, LastAttemptErrored))
      else None
    case _ => None
  }

  predicate AddsFault(st: State, st': State, f: Option<Event>) {
    st'.faults == st.faults + (if f.Some? then {f.value} else {})
  }

  lemma ApiFaults(env: Env, st: State, id: Id, s: ApiStep)
    requires Inv(env, st) && ApiEnabled(env, st, id, s)
    ensures AddsFault(st, DoApi(env, st, id, s), FaultOf(st, Api(id, s)))
  {
    NoTaskWhileRequested(env, st, id);
  }

  lemma FailFaults(env: Env, st: State, h: HandlerId, db: Db)
    requires Inv(env, st) && h in st.handlers && (st.handlers[h].pc.FailLang? || st.handlers[h].pc.FailEngine?)
    ensures AddsFault(st, DoFail(st, h, db), FaultOf(st, Work(h, FailRow(db))))
  {
    HandlerFacts(env, st, h);
  }

  lemma WorkFaults(env: Env, st: State, h: HandlerId, w: WorkStep)
    requires Inv(env, st) && h in st.handlers && WorkEnabled(st, st.handlers[h].pc, w)
    ensures AddsFault(st, DoWork(st, h, w), FaultOf(st, Work(h, w)))
  {
    hide Inv;
    if w.FailRow? {
      FailFaults(env, st, h, w.db);
    }
  }

  /** The last attempt never gives a retryable engine failure back to the queue, only SQL errors. */
  lemma RetriesHaveACause(env: Env, st: State, h: HandlerId)
    requires Inv(env, st) && h in st.handlers && st.handlers[h].pc.Return? && st.handlers[h].pc.verdict.Retryable?
    requires FinalAttempt(st.handlers[h].retried)
    ensures st.handlers[h].pc == Return(Retryable(SqlError))
  {
    HandlerFacts(env, st, h);
    var cause := st.handlers[h].pc.verdict.cause;
    assert cause.SqlError? || cause.EngineFailure?;
  }

  lemma EndFaults(env: Env, st: State, h: HandlerId, how: Ending)
    requires Inv(env, st) && EndEnabled(env, st, h, how)
    ensures AddsFault(st, DoEnd(env, st, h, how), FaultOf(st, End(h, how)))
  {
    HandlerFacts(env, st, h);
    if how == Record && st.handlers[h].pc.verdict.Retryable? && FinalAttempt(st.handlers[h].retried) {
      RetriesHaveACause(env, st, h);
    }
  }

  lemma FaultsHaveACause(env: Env, st: State, a: Action)
    requires Sane(env) && Inv(env, st) && Enabled(env, st, a)
    ensures AddsFault(st, Apply(env, st, a), FaultOf(st, a))
  {
    match a
    case Api(id, s) => ApiFaults(env, st, id, s);
    case Work(h, w) => WorkFaults(env, st, h, w);
    case End(h, how) => EndFaults(env, st, h, how);
    case _ =>
  }

  /** No action of the run up to `n` was a fault that strands `id`. */
  ghost predicate Spared(run: seq<State>, actions: seq<Action>, id: Id, n: nat)
    requires n <= |actions| < |run|
  {
    forall i :: 0 <= i < n ==> FaultOf(run[i], actions[i]).None? || FaultOf(run[i], actions[i]).value.id != id
  }

  lemma {:induction false} SparedIsNotFaulty(env: Env, run: seq<State>, actions: seq<Action>, id: Id, n: nat)
    requires Sane(env) && IsRun(env, run, actions) && n <= |actions| && Spared(run, actions, id, n)
    ensures !Faulty(run[n], id)
  {
    hide Apply;
    if n > 0 {
      SparedIsNotFaulty(env, run, actions, id, n - 1);
      RunKeepsInv(env, run, actions, n - 1);
      FaultsHaveACause(env, run[n - 1], actions[n - 1]);
    }
  }

  /**
   A submission spared by the six named faults is finished once its request is
   over and no task is left, whatever else went wrong: other submissions' faults,
   earlier crashes, engine errors and lost writes that were retried.
   */
  lemma SparedSubmissionsFinish(env: Env, run: seq<State>, actions: seq<Action>, id: Id, n: nat)
    requires Sane(env) && IsRun(env, run, actions) && n <= |actions| && Spared(run, actions, id, n)
    requires id in run[n].rows && id !in run[n].api && (forall t :: IsTask(run[n], t, id) ==> !Live(run[n], t))
    ensures run[n].rows[id].Terminal()
  {
    hide Apply;
    SparedIsNotFaulty(env, run, actions, id, n);
    NothingIsLost(env, run, actions, n, id);
  }

  /** A task handed out by the queue always finds its row: the not-found branch is dead. */
  lemma HandlersFindTheirRow(env: Env, run: seq<State>, actions: seq<Action>, i: nat, h: HandlerId)
    requires Sane(env) && IsRun(env, run, actions) && i < |run| && h in run[i].handlers
    ensures run[i].handlers[h].sub in run[i].rows
    ensures run[i].handlers[h].pc != Return(SkipRetry)
  {
    RunKeepsInv(env, run, actions, i);
    HandlerFacts(env, run[i], h);
  }

  // -------------------------------------------------------- one handler step

  function Rank(pc: Pc): nat {
    match pc
    case Load => 7
    case Mark(_) => 6
    case CallEngine(_) => 5
    case Executing(_) => 4
    case FailLang(_) => 3
    case FailEngine(_, _) => 3
    case Store(_, _) => 3
    case Notify(_) => 2
    case Return(_) => 1
  }

  /** No task, request or other handler changed, and `h` is closer to its end. */
  predicate Advances(st: State, st': State, h: HandlerId) {
    && h in st.handlers && h in st'.handlers
    && st'.tasks == st.tasks && st'.api == st.api && st'.requeues == st.requeues
    && st'.handlers == st.handlers[h := st'.handlers[h]]
    && st'.handlers[h].task == st.handlers[h].task
    && Rank(st'.handlers[h].pc) < Rank(st.handlers[h].pc)
  }

  lemma MarkAdvances(st: State, h: HandlerId, db: Db)
    requires h in st.handlers && st.handlers[h].pc.Mark?
    ensures Advances(st, DoMark(st, h, db), h)
  {
  }

  lemma StoreAdvances(st: State, h: HandlerId, db: Db)
    requires h in st.handlers && st.handlers[h].pc.Store?
    ensures Advances(st, DoStore(st, h, db), h)
  {
  }

  lemma FailAdvances(st: State, h: HandlerId, db: Db)
    requires h in st.handlers && (st.handlers[h].pc.FailLang? || st.handlers[h].pc.FailEngine?)
    ensures Advances(st, DoFail(st, h, db), h)
  {
  }

  lemma WorkAdvances(st: State, h: HandlerId, w: WorkStep)
    requires h in st.handlers && WorkEnabled(st, st.handlers[h].pc, w)
    ensures Advances(st, DoWork(st, h, w), h)
  {
    if w.MarkRunning? {
      MarkAdvances(st, h, w.db);
    } else if w.StoreResult? {
      StoreAdvances(st, h, w.db);
    } else if w.FailRow? {
      FailAdvances(st, h, w.db);
    }
  }

  /** Rows, requests and all other handlers are left alone. */
  predicate OnlyDrops(st: State, st': State, h: HandlerId) {
    st'.rows == st.rows && st'.api == st.api && st'.handlers == st.handlers - {h}
  }

  lemma RecordOnlyDrops(st: State, h: HandlerId)
    requires h in st.handlers && st.handlers[h].pc.Return? && st.handlers[h].task in st.tasks
    ensures OnlyDrops(st, DoRecord(st, h), h)
  {
  }

  lemma EndOnlyDrops(env: Env, st: State, h: HandlerId, how: Ending)
    requires EndEnabled(env, st, h, how)
    ensures OnlyDrops(st, DoEnd(env, st, h, how), h)
  {
    if how == Record {
      hide DoRecord;
      RecordOnlyDrops(st, h);
    }
  }

  // ------------------------------------------------------------ program starts

  lemma OnlyRequeueCounts(env: Env, st: State, a: Action)
    requires Enabled(env, st, a) && !(a.End? && a.how == Requeue)
    ensures Apply(env, st, a).requeues == st.requeues
  {
    if a.Work? {
      hide DoWork;
      WorkAdvances(st, a.h, a.step);
    }
  }

  lemma {:induction false} NoRequeueNoCount(env: Env, run: seq<State>, actions: seq<Action>, i: nat)
    requires !env.requeue && IsRun(env, run, actions) && i < |run|
    ensures run[i].requeues == multiset{}
  {
    hide Apply;
    if i > 0 {
      NoRequeueNoCount(env, run, actions, i - 1);
      OnlyRequeueCounts(env, run[i - 1], actions[i - 1]);
    }
  }

  /** A program is started at most once per counted attempt, plus once per shutdown requeue. */
  lemma StartsAreBounded(env: Env, run: seq<State>, actions: seq<Action>, i: nat, id: Id)
    requires Sane(env) && IsRun(env, run, actions) && i < |run|
    ensures run[i].starts[id] <= 1 + MAX_RETRY + run[i].requeues[id]
    ensures !env.requeue ==> run[i].starts[id] <= 3
  {
    RunKeepsInv(env, run, actions, i);
    assert SubInv(env, run[i], id);
    if HasTask(run[i], id) {
      var t :| IsTask(run[i], t, id);
      assert TaskOk(run[i], t);
    }
    if !env.requeue {
      NoRequeueNoCount(env, run, actions, i);
    }
  }

  /** A program only ever starts for a submission that is marked running, with the code the client sent. */
  lemma StartsOnlyWhileRunning(env: Env, run: seq<State>, actions: seq<Action>, i: nat)
    requires Sane(env) && IsRun(env, run, actions) && i < |actions|
    requires actions[i].Work? && actions[i].step == ProgramStart
    ensures var x := run[i].handlers[actions[i].h];
            && x.sub in run[i].rows
            && run[i].rows[x.sub].status == Running
            && x.pc.sub.request == run[i].rows[x.sub].request
            && run[i + 1].starts == run[i].starts + multiset{x.sub}
  {
    RunKeepsInv(env, run, actions, i);
    HandlerFacts(env, run[i], actions[i].h);
  }

  // ------------------------------------------------------------------ webhooks

  /**
   At most one webhook task per submission, across crashes and retries. When
   workers may put tasks back uncounted this needs the fail write not to have
   been lost (`LifecycleNecessity.RequeueNotifiesTwice` shows why).
   */
  lemma OneWebhook(env: Env, run: seq<State>, actions: seq<Action>, i: nat, k: HookId, k': HookId)
    requires Sane(env) && IsRun(env, run, actions) && i < |run|
    requires k in run[i].hooks && k' in run[i].hooks && run[i].hooks[k].sub == run[i].hooks[k'].sub
    requires !env.requeue || !Lost(run[i], run[i].hooks[k].sub)
    ensures k == k'
  {
    RunKeepsInv(env, run, actions, i);
    var id := run[i].hooks[k].sub;
    assert SubInv(env, run[i], id) && IsHook(run[i], k, id) && IsHook(run[i], k', id);
  }

  /** Unless the fail write was lost, a webhook is only enqueued once its submission is finished. */
  lemma WebhooksFollowTheResult(env: Env, run: seq<State>, actions: seq<Action>, i: nat, k: HookId)
    requires Sane(env) && IsRun(env, run, actions) && i < |run| && k in run[i].hooks
    ensures run[i].hooks[k].sub in run[i].rows
    ensures run[i].rows[run[i].hooks[k].sub].Terminal() || Lost(run[i], run[i].hooks[k].sub)
  {
    RunKeepsInv(env, run, actions, i);
    var id := run[i].hooks[k].sub;
    assert SubInv(env, run[i], id) && IsHook(run[i], k, id);
    assert HookOk(env, run[i], k);
  }

  /** Unless the fail write was lost, every delivery attempt posts the final row. */
  lemma EveryPostIsTheFinalBody(env: Env, run: seq<State>, actions: seq<Action>, i: nat, id: Id, b: Body)
    requires Sane(env) && IsRun(env, run, actions) && i < |run|
    requires (id, b) in run[i].posts && !Lost(run[i], id)
    ensures id in run[i].rows && run[i].rows[id].Terminal()
    ensures b == BodyOf(run[i].rows[id])
  {
    RunKeepsInv(env, run, actions, i);
    assert SubInv(env, run[i], id);
  }

  // --------------------------------------------------------------- termination

  /** The action works on execute task `t`. */
  predicate WorksOn(st: State, a: Action, t: TaskId) {
    match a
    case Dequeue(u, _) => u == t
    case Work(h, _) => h in st.handlers && st.handlers[h].task == t
    case End(h, _) => h in st.handlers && st.handlers[h].task == t
    case LoseLease(u) => u == t
    case _ => false
  }

  /** Retries left, then how far the current attempt still has to go. */
  function Measure(st: State, t: TaskId): int {
    if t !in st.tasks then 8 * (MAX_RETRY + 1)
    else
      var task := st.tasks[t];
      8 * (MAX_RETRY - task.retried) +
      match task.phase
      case Pending => 8
      case Active(h) => if h in st.handlers then Rank(st.handlers[h].pc) else 0
      case Finished => 0
      case Archived => -8 * (MAX_RETRY - task.retried)
  }

  /** Only `h` is gone and only its task changed, by losing an attempt unless it was put back. */
  predicate Ended(st: State, st': State, h: HandlerId, counted: bool)
    requires h in st.handlers
  {
    var t := st.handlers[h].task;
    && st'.handlers == st.handlers - {h}
    && t in st.tasks && t in st'.tasks
    && st'.tasks == st.tasks[t := st'.tasks[t]]
    && (counted ==> Measure(st', t) < Measure(st, t))
  }

  lemma RecordEffect(env: Env, st: State, h: HandlerId)
    requires Inv(env, st) && EndEnabled(env, st, h, Record)
    ensures Ended(st, DoRecord(st, h), h, true)
  {
    hide Inv;
    HandlerFacts(env, st, h);
  }

  /** When a handler ends, its task loses an attempt or is done with. */
  lemma EndEffect(env: Env, st: State, h: HandlerId, how: Ending)
    requires Inv(env, st) && EndEnabled(env, st, h, how)
    ensures Ended(st, DoEnd(env, st, h, how), h, how != Requeue)
  {
    hide Inv;
    if how == Record {
      hide DoRecord;
      RecordEffect(env, st, h);
    } else {
      HandlerFacts(env, st, h);
    }
  }

  /** No handler and no other request changed, and at most a task that has not been tried yet was added. */
  ghost predicate OnlyAsks(st: State, st': State, id: Id) {
    && st'.handlers == st.handlers
    && (forall i :: i != id && i in st.api ==> i in st'.api && st'.api[i] == st.api[i])
    && (forall t :: t in st.tasks ==> t in st'.tasks && st'.tasks[t] == st.tasks[t])
    && (forall t :: t in st'.tasks && t !in st.tasks ==> st'.tasks[t].retried == 0 && st'.tasks[t].phase == Pending)
  }

  lemma EnqueueAsks(st: State, id: Id, t: TaskId, q: Enq)
    requires t !in st.tasks
    ensures OnlyAsks(st, DoEnqueue(st, id, t, q), id)
  {
  }

  lemma ApiFailAsks(st: State, id: Id, db: Db)
    ensures OnlyAsks(st, DoApiFail(st, id, db), id)
  {
  }

  lemma ApiOnlyAsks(env: Env, st: State, id: Id, s: ApiStep)
    requires ApiEnabled(env, st, id, s)
    ensures OnlyAsks(st, DoApi(env, st, id, s), id)
  {
    match s
    case Enqueue(t, q) => EnqueueAsks(st, id, t, q);
    case FailRequest(db) => ApiFailAsks(st, id, db);
    case _ =>
  }

  lemma DequeueMeasure(st: State, u: TaskId, h: HandlerId, t: TaskId)
    requires u in st.tasks && st.tasks[u].phase == Pending && h !in st.handlers
    requires t in st.tasks && st.tasks[t].phase.Active? ==> st.tasks[t].phase.holder in st.handlers
    ensures Measure(DoDequeue(st, u, h), t) + (if u == t then 1 else 0) <= Measure(st, t)
  {
  }

  lemma ApiMeasure(env: Env, st: State, id: Id, s: ApiStep, t: TaskId)
    requires Inv(env, st) && ApiEnabled(env, st, id, s)
    ensures Measure(DoApi(env, st, id, s), t) <= Measure(st, t)
  {
    hide Inv, DoApi, ApiEnabled;
    ApiOnlyAsks(env, st, id, s);
  }

  lemma WorkMeasure(env: Env, st: State, h: HandlerId, w: WorkStep, t: TaskId)
    requires Inv(env, st) && h in st.handlers && WorkEnabled(st, st.handlers[h].pc, w)
    ensures Measure(DoWork(st, h, w), t) + (if st.handlers[h].task == t then 1 else 0) <= Measure(st, t)
  {
    hide Inv, DoWork, WorkEnabled;
    WorkAdvances(st, h, w);
    HandlerFacts(env, st, h);
  }

  lemma EndMeasure(env: Env, st: State, h: HandlerId, how: Ending, t: TaskId)
    requires !env.requeue && Inv(env, st) && EndEnabled(env, st, h, how)
    requires t in st.tasks && st.tasks[t].phase.Active? ==> st.handlers[h].task == t || st.tasks[t].phase.holder != h
    ensures Measure(DoEnd(env, st, h, how), t) + (if st.handlers[h].task == t then 1 else 0) <= Measure(st, t)
  {
    hide Inv, DoEnd;
    EndEffect(env, st, h, how);
  }

  /** The holder of an active task is a handler of that task. */
  lemma HolderOf(env: Env, st: State, t: TaskId)
    requires Inv(env, st)
    ensures t in st.tasks && st.tasks[t].phase.Active? ==>
              st.tasks[t].phase.holder in st.handlers && st.handlers[st.tasks[t].phase.holder].task == t
  {
    if t in st.tasks {
      assert SubInv(env, st, st.tasks[t].sub) && IsTask(st, t, st.tasks[t].sub);
      assert TaskOk(st, t);
    }
  }

  lemma StepMeasure(env: Env, st: State, a: Action, t: TaskId)
    requires Sane(env) && !env.requeue && Inv(env, st) && Enabled(env, st, a)
    ensures Measure(Apply(env, st, a), t) + (if WorksOn(st, a, t) then 1 else 0) <= Measure(st, t)
  {
    HolderOf(env, st, t);
    hide Inv, DoApi, DoWork, DoEnd, DoDequeue;
    match a
    case Api(id, s) => ApiMeasure(env, st, id, s, t);
    case Dequeue(u, h) => DequeueMeasure(st, u, h, t);
    case Work(h, w) => WorkMeasure(env, st, h, w, t);
    case End(h, how) => EndMeasure(env, st, h, how, t);
    case _ =>
  }

  lemma {:induction false} MeasureIsNonNegative(env: Env, st: State, t: TaskId)
    requires Inv(env, st)
    ensures Measure(st, t) >= 0
  {
    if t in st.tasks {
      assert SubInv(env, st, st.tasks[t].sub) && IsTask(st, t, st.tasks[t].sub);
      assert TaskOk(st, t);
    }
  }

  /** How many of the first `n` actions of the run worked on `t`. */
  ghost function Effort(run: seq<State>, actions: seq<Action>, t: TaskId, n: nat): nat
    requires n <= |actions| < |run|
  {
    if n == 0 then 0 else Effort(run, actions, t, n - 1) + (if WorksOn(run[n - 1], actions[n - 1], t) then 1 else 0)
  }

  lemma {:induction false} EffortPlusMeasure(env: Env, run: seq<State>, actions: seq<Action>, t: TaskId, n: nat)
    requires Sane(env) && !env.requeue && IsRun(env, run, actions) && n <= |actions|
    ensures Effort(run, actions, t, n) + Measure(run[n], t) <= 8 * (MAX_RETRY + 1)
  {
    if n > 0 {
      EffortPlusMeasure(env, run, actions, t, n - 1);
      RunKeepsInv(env, run, actions, n - 1);
      StepMeasure(env, run[n - 1], actions[n - 1], t);
    }
  }

  /** Handling a task ends: whatever is interleaved with it, at most 24 steps are ever spent on it. */
  lemma HandlingTerminates(env: Env, run: seq<State>, actions: seq<Action>, t: TaskId, n: nat)
    requires Sane(env) && !env.requeue && IsRun(env, run, actions) && n <= |actions|
    ensures Effort(run, actions, t, n) <= 24
  {
    EffortPlusMeasure(env, run, actions, t, n);
    RunKeepsInv(env, run, actions, n);
    MeasureIsNonNegative(env, run[n], t);
  }
}
