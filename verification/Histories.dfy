/**
 What the environment does to one execution of each handler, what it means for a
 history to show only steps that this calls for, and what the lifecycle theorems say
 about the end of a history.
 */
module Histories {
  import opened Prelude
  import opened Submissions
  import opened Lifecycle
  import opened LifecycleInvariant
  import opened LifecyclePreservation
  import opened LifecycleTheorems
  import opened LifecycleAttempts
  import History = LifecycleHistory

  datatype DbError = NoRows | Broken

  /** What the environment does to one execution of handleExecute. */
  datatype Fate = Fate(
    loadOk: bool,
    languageKnown: bool,
    markDb: Db,
    engine: EngineFate,
    storeDb: Db,
    failDb: Db,
    hookQueue: Enq,
    others: nat -> seq<Action>)  // what other actors try to do before each of its calls

  datatype EngineFate = Refuses(msg: string) | Breaks(msg: string) | Reports(outcome: Outcome)

  /** What the environment does to one API request. */
  datatype ApiFate = ApiFate(createDb: Db, buildOk: bool, queue: Enq, failDb: Db, others: nat -> seq<Action>)

  /** The action is a step of handler `h` itself. */
  predicate Own(a: Action, h: HandlerId) {
    (a.Work? && a.h == h) || (a.End? && a.h == h)
  }

  /** How CompleteSubmission fares: it is refused if the outcome is not text, whatever else would have become of it. */
  function Accepted(o: Outcome, db: Db): Db {
    if IsText(o) then db else LostBefore
  }

  /** The step is the one this fate calls for at its place in the code. */
  predicate Fits(w: WorkStep, fate: Fate) {
    match w
    case GetSub(ok, known) => ok == fate.loadOk && known == fate.languageKnown
    case MarkRunning(db) => db == fate.markDb
    case EngineRefuse(msg) => fate.engine == Refuses(msg)
    case ProgramStart => !fate.engine.Refuses?
    case EngineError(msg) => fate.engine == Breaks(msg)
    case EngineOutcome(o) => fate.engine == Reports(o)
    case StoreResult(db) => fate.engine.Reports? && db == Accepted(fate.engine.outcome, fate.storeDb)
    case FailRow(db) => db == fate.failDb
    case EnqueueHook(_, q) => q == fate.hookQueue
  }

  /** All that was added to the history was done by somebody else. */
  ghost predicate Foreign(before: seq<Action>, after: seq<Action>, mine: Mine) {
    before <= after && forall i :: |before| <= i < |after| ==> !Touches(after[i], mine)
  }

  /** All that `h` added to the history are steps its fate calls for; the faults in it are not of the code's making. */
  ghost predicate Obeys(before: seq<Action>, after: seq<Action>, h: HandlerId, fate: Fate) {
    && before <= after
    && forall i :: |before| <= i < |after| && Own(after[i], h) ==> after[i].Work? && Fits(after[i].step, fate)
  }

  lemma ObeysStep(before: seq<Action>, mid: seq<Action>, h: HandlerId, w: WorkStep, fate: Fate)
    requires Foreign(before, mid, MyHandler(h)) && Fits(w, fate)
    ensures Obeys(before, mid + [Work(h, w)], h, fate)
  {
  }

  /** What request `id` has done in a history. */
  function RequestSteps(actions: seq<Action>, id: Id): seq<ApiStep> {
    if actions == [] then []
    else
      var last := actions[|actions| - 1];
      RequestSteps(actions[..|actions| - 1], id) + if last.Api? && last.id == id then [last.request] else []
  }

  lemma RequestSnoc(actions: seq<Action>, a: Action, id: Id)
    ensures RequestSteps(actions + [a], id) == RequestSteps(actions, id) + if a.Api? && a.id == id then [a.request] else []
  {
    assert (actions + [a])[..|actions|] == actions;
  }

  /** All that a request does under a fate, `t` being the id its task gets. */
  function Plan(request: Request, fate: ApiFate, t: TaskId): seq<ApiStep> {
    [Create(request, fate.createDb)] +
    if fate.createDb != Done then []
    else if !fate.buildOk then [BuildFails]
    else [Enqueue(t, fate.queue)] + if fate.queue == Enqueued then [] else [FailRequest(fate.failDb)]
  }

  /** What the queue makes of a task whose attempt ended with a verdict. */
  function Recorded(task: Task, v: Verdict): Task {
    match v
    case Nil => task.(phase := Finished)
    case SkipRetry => task.(phase := Archived)
    case Retryable(_) =>
      if task.retried < MAX_RETRY then task.(retried := task.retried + 1, phase := Pending) else task.(phase := Archived)
  }

  /** What the environment does to one delivery. */
  datatype HookFate = HookFate(loadOk: bool, delivered: bool, others: nat -> seq<Action>)

  /** What an interference leaves alone. */
  datatype Mine = MyHandler(h: HandlerId) | MyRequest(id: Id) | MyHook(k: HookId)

  /** The action is one that only `mine` takes. */
  predicate Touches(a: Action, mine: Mine) {
    match mine
    case MyHandler(h) => Own(a, h)
    case MyRequest(id) => a.Api? && a.id == id
    case MyHook(k) => a.Deliver? && a.k == k
  }

  predicate Exists(st: State, mine: Mine) {
    match mine
    case MyHandler(h) => h in st.handlers
    case MyRequest(id) => id in st.api
    case MyHook(k) => k in st.hooks
  }

  predicate Untouched(st: State, st': State, mine: Mine)
    requires Exists(st, mine)
  {
    && Exists(st', mine)
    && match mine
       case MyHandler(h) => st'.handlers[h] == st.handlers[h]
       case MyRequest(id) => st'.api[id] == st.api[id]
       case MyHook(k) => st'.hooks[k] == st.hooks[k]
  }

  lemma RecordEffects(st: State, h: HandlerId)
    requires h in st.handlers && st.handlers[h].pc.Return? && st.handlers[h].task in st.tasks
    ensures var x, st' := st.handlers[h], DoRecord(st, h);
            && st'.rows == st.rows && st'.handlers == st.handlers - {h}
            && (st.tasks[x.task] == Task(x.sub, x.retried, Active(h)) ==>
                  x.task in st'.tasks && st'.tasks[x.task] == Recorded(Task(x.sub, x.retried, Pending), x.pc.verdict))
  {
  }

  ghost predicate KeepsFinished(before: map<Id, Row>, after: map<Id, Row>) {
    forall id :: id in before && before[id].Terminal() ==> id in after && after[id] == before[id]
  }

  ghost predicate AllWellShaped(rows: map<Id, Row>) {
    forall id :: id in rows ==> WellShaped(rows[id])
  }

  /** What the lifecycle theorems say about the end of a history and any earlier point of it. */
  lemma HistoryHolds(env: Env, run: seq<State>, actions: seq<Action>, i: nat)
    requires IsHistory(env, run, actions) && i < |run|
    ensures KeepsFinished(run[i].rows, run[|run| - 1].rows)
    ensures AllWellShaped(run[|run| - 1].rows)
  {
    hide Apply, Enabled, WellShaped;
    assert IsRun(env, run, actions);
    var st, st' := run[i], run[|run| - 1];
    forall id | id in st.rows && st.rows[id].Terminal()
      ensures id in st'.rows && st'.rows[id] == st.rows[id]
    {
      FinishedRowsAreFrozen(env, run, actions, i, |run| - 1, id);
    }
    forall id | id in st'.rows
      ensures WellShaped(st'.rows[id])
    {
      RowsAreWellShaped(env, run, actions, |run| - 1, id);
    }
  }

  /** What handleExecute does with the row it loaded. */
  function AfterLoading(loaded: Result<Row, DbError>, known: bool): Pc {
    match loaded
    case Err(NoRows) => Return(SkipRetry)
    case Err(Broken) => Return(Retryable(SqlError))
    case Ok(row) => if row.Terminal() then Return(Nil) else if known then Mark(row) else FailLang(row)
  }

  /** An action of somebody else changes nothing that is `mine`. */
  lemma OthersLeaveAlone(env: Env, st: State, a: Action, mine: Mine)
    requires Enabled(env, st, a) && Exists(st, mine) && !Touches(a, mine)
    ensures Untouched(st, Apply(env, st, a), mine)
  {
    if mine.MyHook? {
      History.DeliveredIff(env, st, a, mine.k);
      hide Apply;
    } else {
      OthersLeaveActorsAlone(env, st, a, mine);
    }
  }

  lemma OthersLeaveActorsAlone(env: Env, st: State, a: Action, mine: Mine)
    requires Enabled(env, st, a) && Exists(st, mine) && !Touches(a, mine) && !mine.MyHook?
    ensures Untouched(st, Apply(env, st, a), mine)
  {
    hide DoWork, DoEnd, DoApi;
    match a
    case Work(g, w) => WorkAdvances(st, g, w);
    case End(g, how) => EndOnlyDrops(env, st, g, how);
    case Api(i, s) => ApiOnlyAsks(env, st, i, s);
    case _ =>
  }

  // -------------------------------------- facts about the end of a history

  ghost predicate IsHistory(env: Env, run: seq<State>, actions: seq<Action>) {
    Sane(env) && IsPath(env, run, actions) && run[0] == Init()
  }

  /** The row of a request in progress exists. */
  lemma RequestedRowExists(env: Env, run: seq<State>, actions: seq<Action>, id: Id)
    requires IsHistory(env, run, actions) && id in run[|actions|].api
    ensures id in run[|actions|].rows
  {
    RunKeepsInv(env, run, actions, |actions|);
    NoTaskWhileRequested(env, run[|actions|], id);
    assert SubInv(env, run[|actions|], id);
  }

  /** The row a webhook announces exists. */
  lemma AnnouncedRowExists(env: Env, run: seq<State>, actions: seq<Action>, k: HookId)
    requires IsHistory(env, run, actions) && k in run[|actions|].hooks
    ensures run[|actions|].hooks[k].sub in run[|actions|].rows
  {
    WebhooksFollowTheResult(env, run, actions, |actions|, k);
  }

  lemma HandlerFollowedTheCode(env: Env, run: seq<State>, actions: seq<Action>, h: HandlerId)
    requires IsHistory(env, run, actions) && h in run[|actions|].handlers
    ensures var x := run[|actions|].handlers[h]; CameBy(x.pc, TraceOf(actions, h), FinalAttempt(x.retried))
  {
    assert actions[..|actions|] == actions;
    AttemptsFollowTheCode(env, run, actions, |actions|, h);
  }

  /** A handler is the only one of its task and holds it. */
  lemma HandlerHoldsItsTask(env: Env, run: seq<State>, actions: seq<Action>, h: HandlerId)
    requires IsHistory(env, run, actions) && h in run[|actions|].handlers
    ensures var st := run[|actions|];
            var x := st.handlers[h];
            && x.task in st.tasks && st.tasks[x.task] == Task(x.sub, x.retried, Active(h))
            && forall g :: g in st.handlers && st.handlers[g].task == x.task ==> g == h
  {
    var st := run[|actions|];
    RunKeepsInv(env, run, actions, |actions|);
    HandlerFacts(env, st, h);
    forall g | g in st.handlers && st.handlers[g].task == st.handlers[h].task
      ensures g == h
    {
      HandlerFacts(env, st, g);
    }
  }
}
