/**
 Why the hypotheses of the lifecycle theorems are there: for each one, a run of
 the same protocol without it in which the promised property fails. And why the
 list of faults is what it is: each of them can strand a submission.
 */
module LifecycleNecessity {
  import opened Prelude
  import opened Submissions
  import opened Lifecycle
  import opened LifecycleTheorems

  ghost predicate Reachable(env: Env, st: State) {
    exists run, actions :: IsRun(env, run, actions) && run[|run| - 1] == st
  }

  lemma ReachInit(env: Env)
    ensures Reachable(env, Init())
  {
    assert IsRun(env, [Init()], []);
  }

  lemma ReachStep(env: Env, st: State, a: Action, st': State)
    requires Reachable(env, st) && Enabled(env, st, a) && st' == Apply(env, st, a)
    ensures Reachable(env, st')
  {
    var run, actions :| IsRun(env, run, actions) && run[|run| - 1] == st;
    var run', actions' := run + [st'], actions + [a];
    forall i | 0 <= i < |actions'|
      ensures Enabled(env, run'[i], actions'[i]) && run'[i + 1] == Apply(env, run'[i], actions'[i])
    {
      if i < |actions| {
        assert Enabled(env, run[i], actions[i]) && run[i + 1] == Apply(env, run[i], actions[i]);
      }
    }
    assert IsRun(env, run', actions');
  }

  const SENT := Request("python", "print(1)", "", Some("https://example.com/hook"))
  const QUEUED := Created(SENT, 0)
  const RUNNING := Marked(QUEUED, 0)
  const PRINTED := Outcome("1", "", "", 0, 1, 1, 1, false, false, false)

  /** One submission 0 with at most one task 0; the fields a scenario varies are parameters. */
  function Snapshot(row: Row, api: map<Id, ApiPc>, tasks: map<TaskId, Task>, handlers: map<HandlerId, Handler>): State {
    State(0, map[0 := row], api, tasks, handlers, map[], {}, multiset{}, multiset{}, {})
  }

  function TaskIn(retried: nat, phase: Phase): map<TaskId, Task> {
    map[0 := Task(0, retried, phase)]
  }

  /** The first request has been persisted and is about to enqueue. */
  lemma Persisted(env: Env)
    ensures Reachable(env, Snapshot(QUEUED, map[0 := EnqueueTask], map[], map[]))
  {
    ReachInit(env);
    ReachStep(env, Init(), Api(0, Create(SENT, Done)), Snapshot(QUEUED, map[0 := EnqueueTask], map[], map[]));
  }

  lemma Enqueued0(env: Env)
    ensures Reachable(env, Snapshot(QUEUED, map[], TaskIn(0, Pending), map[]))
  {
    Persisted(env);
    ReachStep(env, Snapshot(QUEUED, map[0 := EnqueueTask], map[], map[]), Api(0, Enqueue(0, Enqueued)),
              Snapshot(QUEUED, map[], TaskIn(0, Pending), map[]));
  }

  // ---------------------------------------------------- overlapping attempts

  const SLOW := Handler(0, 0, 0, Mark(QUEUED))  // stalled just before MarkSubmissionRunning

  lemma SlowHandlerLosesItsTask(env: Env)
    requires env.overlap
    ensures Reachable(env, Snapshot(QUEUED, map[], TaskIn(1, Pending), map[0 := SLOW]))
  {
    Enqueued0(env);
    var s1 := Snapshot(QUEUED, map[], TaskIn(0, Active(0)), map[0 := Handler(0, 0, 0, Load)]);
    ReachStep(env, Snapshot(QUEUED, map[], TaskIn(0, Pending), map[]), Dequeue(0, 0), s1);
    var s2 := Snapshot(QUEUED, map[], TaskIn(0, Active(0)), map[0 := SLOW]);
    ReachStep(env, s1, Work(0, GetSub(true, true)), s2);
    ReachStep(env, s2, LoseLease(0), Snapshot(QUEUED, map[], TaskIn(1, Pending), map[0 := SLOW]));
  }

  /** The state reached once a second handler, at program point `pc`, has taken over. */
  function Overlapped(row: Row, pc: Pc): State {
    Snapshot(row, map[], TaskIn(1, Active(1)), map[0 := SLOW, 1 := Handler(0, 0, 1, pc)])
  }

  lemma SecondHandlerExecutes(env: Env)
    requires env.overlap
    ensures Reachable(env, Overlapped(RUNNING, Executing(QUEUED)).(starts := multiset{0}))
  {
    SlowHandlerLosesItsTask(env);
    ReachStep(env, Snapshot(QUEUED, map[], TaskIn(1, Pending), map[0 := SLOW]), Dequeue(0, 1), Overlapped(QUEUED, Load));
    ReachStep(env, Overlapped(QUEUED, Load), Work(1, GetSub(true, true)), Overlapped(QUEUED, Mark(QUEUED)));
    ReachStep(env, Overlapped(QUEUED, Mark(QUEUED)), Work(1, MarkRunning(Done)), Overlapped(RUNNING, CallEngine(QUEUED)));
    ReachStep(env, Overlapped(RUNNING, CallEngine(QUEUED)), Work(1, ProgramStart),
              Overlapped(RUNNING, Executing(QUEUED)).(starts := multiset{0}));
  }

  /** With overlapping attempts, a late MarkSubmissionRunning reopens a completed row. */
  lemma OverlapReopensACompletedRow(env: Env)
    requires env.overlap
    ensures exists st, a :: && Reachable(env, st) && Enabled(env, st, a)
                            && 0 in st.rows && st.rows[0].status == Completed
                            && 0 in Apply(env, st, a).rows && Apply(env, st, a).rows[0].status == Running
  {
    SecondHandlerExecutes(env);
    var s1 := Overlapped(RUNNING, Executing(QUEUED)).(starts := multiset{0});
    var s2 := Overlapped(RUNNING, Store(QUEUED, PRINTED)).(starts := multiset{0});
    ReachStep(env, s1, Work(1, EngineOutcome(PRINTED)), s2);
    var done := Stored(RUNNING, PRINTED, 0);
    var s3 := Overlapped(done, Notify(done.request.webhookUrl)).(starts := multiset{0});
    ReachStep(env, s2, Work(1, StoreResult(Done)), s3);
    assert Apply(env, s3, Work(0, MarkRunning(Done))).rows[0] == Marked(done, 0);
  }

  // -------------------------------------------------- ambiguous enqueue errors

  /** The request believes the enqueue failed, but it did not. */
  function Ambiguous(row: Row, phase: Phase, handlers: map<HandlerId, Handler>): State {
    Snapshot(row, map[0 := FailAfterEnqueue], TaskIn(0, phase), handlers)
  }

  function AmbiguousAt(row: Row, pc: Pc): State {
    Ambiguous(row, Active(0), map[0 := Handler(0, 0, 0, pc)])
  }

  lemma AmbiguousTaskIsHandled(env: Env)
    requires env.ambiguousEnqueue
    ensures Reachable(env, AmbiguousAt(QUEUED, Load))
  {
    Persisted(env);
    ReachStep(env, Snapshot(QUEUED, map[0 := EnqueueTask], map[], map[]), Api(0, Enqueue(0, EnqueuedButError)),
              Ambiguous(QUEUED, Pending, map[]));
    ReachStep(env, Ambiguous(QUEUED, Pending, map[]), Dequeue(0, 0), AmbiguousAt(QUEUED, Load));
  }

  lemma AmbiguousTaskExecutes(env: Env)
    requires env.ambiguousEnqueue
    ensures Reachable(env, AmbiguousAt(RUNNING, Executing(QUEUED)).(starts := multiset{0}))
  {
    AmbiguousTaskIsHandled(env);
    ReachStep(env, AmbiguousAt(QUEUED, Load), Work(0, GetSub(true, true)), AmbiguousAt(QUEUED, Mark(QUEUED)));
    ReachStep(env, AmbiguousAt(QUEUED, Mark(QUEUED)), Work(0, MarkRunning(Done)), AmbiguousAt(RUNNING, CallEngine(QUEUED)));
    ReachStep(env, AmbiguousAt(RUNNING, CallEngine(QUEUED)), Work(0, ProgramStart),
              AmbiguousAt(RUNNING, Executing(QUEUED)).(starts := multiset{0}));
  }

  /** With ambiguous enqueue errors, a row can end completed and carry an error: a failed row was overwritten. */
  lemma AmbiguousEnqueueCompletesAFailedRow(env: Env)
    requires env.ambiguousEnqueue
    ensures exists st, a :: && Reachable(env, st) && Enabled(env, st, a)
                            && 0 in st.rows && st.rows[0].status == Failed
                            && 0 in Apply(env, st, a).rows
                            && Apply(env, st, a).rows[0].status == Completed && Apply(env, st, a).rows[0].error.Some?
  {
    AmbiguousTaskExecutes(env);
    var s1 := AmbiguousAt(RUNNING, Executing(QUEUED)).(starts := multiset{0});
    var s2 := AmbiguousAt(RUNNING, Store(QUEUED, PRINTED)).(starts := multiset{0});
    ReachStep(env, s1, Work(0, EngineOutcome(PRINTED)), s2);
    var failed := MarkedFailed(RUNNING, "could not enqueue execution job", 0);
    var s3 := AmbiguousAt(failed, Store(QUEUED, PRINTED)).(starts := multiset{0}, api := map[]);
    ReachStep(env, s2, Api(0, FailRequest(Done)), s3);
    assert Apply(env, s3, Work(0, StoreResult(Done))).rows[0] == Stored(failed, PRINTED, 0);
  }

  // ------------------------------------------------------ a lost fail write

  /** The task's attempt number `retried` is at `pc`, nothing else going on. */
  function Attempt(row: Row, retried: nat, pc: Pc): State {
    Snapshot(row, map[], TaskIn(retried, Active(0)), map[0 := Handler(0, 0, retried, pc)])
  }

  lemma EngineRefusesOnce(env: Env, row: Row, retried: nat)
    requires row == QUEUED || row == RUNNING
    requires Reachable(env, Snapshot(row, map[], TaskIn(retried, Pending), map[]))
    ensures Reachable(env, Attempt(RUNNING, retried, AfterEngineError(Handler(0, 0, retried, Load), row, "no daemon")))
  {
    ReachStep(env, Snapshot(row, map[], TaskIn(retried, Pending), map[]), Dequeue(0, 0), Attempt(row, retried, Load));
    ReachStep(env, Attempt(row, retried, Load), Work(0, GetSub(true, true)), Attempt(row, retried, Mark(row)));
    ReachStep(env, Attempt(row, retried, Mark(row)), Work(0, MarkRunning(Done)), Attempt(RUNNING, retried, CallEngine(row)));
    ReachStep(env, Attempt(RUNNING, retried, CallEngine(row)), Work(0, EngineRefuse("no daemon")),
              Attempt(RUNNING, retried, AfterEngineError(Handler(0, 0, retried, Load), row, "no daemon")));
  }

  lemma LastAttemptPending(env: Env)
    ensures Reachable(env, Snapshot(RUNNING, map[], TaskIn(2, Pending), map[]))
  {
    Enqueued0(env);
    EngineRefusesOnce(env, QUEUED, 0);
    ReachStep(env, Attempt(RUNNING, 0, Return(Retryable(EngineFailure))), End(0, Record), Snapshot(RUNNING, map[], TaskIn(1, Pending), map[]));
    EngineRefusesOnce(env, RUNNING, 1);
    ReachStep(env, Attempt(RUNNING, 1, Return(Retryable(EngineFailure))), End(0, Record), Snapshot(RUNNING, map[], TaskIn(2, Pending), map[]));
  }

  const DOOMED := FailEngine(RUNNING, "execution engine error: " + "no daemon")

  lemma LastAttemptFails(env: Env)
    ensures Reachable(env, Attempt(RUNNING, 2, DOOMED))
  {
    LastAttemptPending(env);
    EngineRefusesOnce(env, RUNNING, 2);
  }

  function AfterLostFail(pc: Pc): State {
    Attempt(RUNNING, 2, pc).(faults := {Event(0, FailWriteLost)})
  }

  function HookFor0(): Hook {
    Hook(0, "https://example.com/hook", HookPending)
  }

  /** The webhook of a failure whose write was lost announces a row that still says running. */
  lemma LostFailIsAnnounced(env: Env)
    ensures Reachable(env, AfterLostFail(Return(Nil)).(hooks := map[0 := HookFor0()]))
  {
    LastAttemptFails(env);
    ReachStep(env, Attempt(RUNNING, 2, DOOMED), Work(0, FailRow(LostBefore)), AfterLostFail(Notify(SENT.webhookUrl)));
    ReachStep(env, AfterLostFail(Notify(SENT.webhookUrl)), Work(0, EnqueueHook(0, Enqueued)),
              AfterLostFail(Return(Nil)).(hooks := map[0 := HookFor0()]));
  }

  // ------------------------------------------------- every fault can strand a row

  /** `st` is stuck: the one fault is `f`, nobody works for submission 0 any more, and its row is not finished. */
  ghost predicate Stranded(st: State, f: Fault) {
    && st.faults == {Event(0, f)}
    && st.api == map[] && st.handlers == map[] && (forall t :: t in st.tasks ==> !Live(st, t))
    && 0 in st.rows && !st.rows[0].Terminal()
  }

  ghost predicate CanStrand(env: Env, f: Fault) {
    exists st :: Reachable(env, st) && Stranded(st, f)
  }

  lemma ReachesStranded(env: Env, st: State, a: Action, f: Fault)
    requires Reachable(env, st) && Enabled(env, st, a) && Stranded(Apply(env, st, a), f)
    ensures CanStrand(env, f)
  {
    ReachStep(env, st, a, Apply(env, st, a));
  }

  /** A lost fail write leaves the row running with nobody left to finish it, in any environment. */
  lemma LostFailStrandsTheRow(env: Env)
    ensures CanStrand(env, FailWriteLost)
  {
    LostFailIsAnnounced(env);
    ReachesStranded(env, AfterLostFail(Return(Nil)).(hooks := map[0 := HookFor0()]), End(0, Record), FailWriteLost);
  }

  lemma RequestFaultsStrandTheRow(env: Env)
    ensures CanStrand(env, CreateUnconfirmed) && CanStrand(env, TaskNotBuilt) && CanStrand(env, RequestAbandoned)
  {
    ReachInit(env);
    ReachesStranded(env, Init(), Api(0, Create(SENT, LostAfter)), CreateUnconfirmed);
    Persisted(env);
    var persisted := Snapshot(QUEUED, map[0 := EnqueueTask], map[], map[]);
    ReachesStranded(env, persisted, Api(0, BuildFails), TaskNotBuilt);
    ReachesStranded(env, persisted, Api(0, Abandon), RequestAbandoned);
  }

  lemma LastAttemptLoads(env: Env)
    ensures Reachable(env, Attempt(RUNNING, 2, Load))
  {
    LastAttemptPending(env);
    ReachStep(env, Snapshot(RUNNING, map[], TaskIn(2, Pending), map[]), Dequeue(0, 0), Attempt(RUNNING, 2, Load));
  }

  lemma LastCrashStrandsTheRow(env: Env)
    ensures CanStrand(env, LastAttemptCrashed)
  {
    LastAttemptLoads(env);
    ReachesStranded(env, Attempt(RUNNING, 2, Load), End(0, Crash), LastAttemptCrashed);
  }

  lemma LastErrorStrandsTheRow(env: Env)
    ensures CanStrand(env, LastAttemptErrored)
  {
    LastAttemptLoads(env);
    var errored := Attempt(RUNNING, 2, Return(Retryable(SqlError)));
    ReachStep(env, Attempt(RUNNING, 2, Load), Work(0, GetSub(false, true)), errored);
    ReachesStranded(env, errored, End(0, Record), LastAttemptErrored);
  }

  // ------------------------------------------------------ output that is not text

  /** `n` programs have been started, and each printed what no text column takes. */
  function Rerun(row: Row, retried: nat, phase: Phase, handlers: map<HandlerId, Handler>, starts: multiset<Id>): State {
    Snapshot(row, map[], TaskIn(retried, phase), handlers).(starts := starts)
  }

  function RerunAt(row: Row, retried: nat, pc: Pc, starts: multiset<Id>): State {
    Rerun(row, retried, Active(0), map[0 := Handler(0, 0, retried, pc)], starts)
  }

  lemma RerunStarts(env: Env, row: Row, retried: nat, starts: multiset<Id>)
    requires (row == QUEUED || row == RUNNING) && Reachable(env, Rerun(row, retried, Pending, map[], starts))
    ensures Reachable(env, RerunAt(RUNNING, retried, Executing(row), starts + multiset{0}))
  {
    ReachStep(env, Rerun(row, retried, Pending, map[], starts), Dequeue(0, 0), RerunAt(row, retried, Load, starts));
    ReachStep(env, RerunAt(row, retried, Load, starts), Work(0, GetSub(true, true)), RerunAt(row, retried, Mark(row), starts));
    ReachStep(env, RerunAt(row, retried, Mark(row), starts), Work(0, MarkRunning(Done)),
              RerunAt(RUNNING, retried, CallEngine(row), starts));
    ReachStep(env, RerunAt(RUNNING, retried, CallEngine(row), starts), Work(0, ProgramStart),
              RerunAt(RUNNING, retried, Executing(row), starts + multiset{0}));
  }

  lemma RerunIsRefused(env: Env, row: Row, retried: nat, o: Outcome, starts: multiset<Id>)
    requires (row == QUEUED || row == RUNNING) && Reachable(env, Rerun(row, retried, Pending, map[], starts))
    ensures Reachable(env, RerunAt(RUNNING, retried, Return(Retryable(SqlError)), starts + multiset{0}))
  {
    hide IsText;
    RerunStarts(env, row, retried, starts);
    var more := starts + multiset{0};
    ReachStep(env, RerunAt(RUNNING, retried, Executing(row), more), Work(0, EngineOutcome(o)),
              RerunAt(RUNNING, retried, Store(row, o), more));
    ReachStep(env, RerunAt(RUNNING, retried, Store(row, o), more), Work(0, StoreResult(LostBefore)),
              RerunAt(RUNNING, retried, Return(Retryable(SqlError)), more));
  }

  lemma RerunIsCounted(env: Env, retried: nat, starts: multiset<Id>)
    requires retried < MAX_RETRY && Reachable(env, RerunAt(RUNNING, retried, Return(Retryable(SqlError)), starts))
    ensures Reachable(env, Rerun(RUNNING, retried + 1, Pending, map[], starts))
  {
    ReachStep(env, RerunAt(RUNNING, retried, Return(Retryable(SqlError)), starts), End(0, Record),
              Rerun(RUNNING, retried + 1, Pending, map[], starts));
  }

  lemma LastRerunStrands(env: Env, starts: multiset<Id>)
    requires Reachable(env, RerunAt(RUNNING, 2, Return(Retryable(SqlError)), starts))
    ensures exists st :: Reachable(env, st) && Stranded(st, LastAttemptErrored) && st.starts == starts
  {
    var last := RerunAt(RUNNING, 2, Return(Retryable(SqlError)), starts);
    var st := Apply(env, last, End(0, Record));
    ReachStep(env, last, End(0, Record), st);
    assert Stranded(st, LastAttemptErrored) && st.starts == starts;
  }

  /**
   A program can strand its own row. Whatever the environment, one that prints bytes
   that are not text is run three times and its row then stays running: no step of this
   run but the refused statement (the only one there is for such an outcome) failed.
   LifecycleResults.UnstorableOutputNeverCompletes says that no other run does better.
   */
  lemma UnstorableOutputStrandsTheRow(env: Env, o: Outcome)
    requires !IsText(o)
    ensures exists st :: Reachable(env, st) && Stranded(st, LastAttemptErrored) && st.starts[0] == 3
    ensures forall st: State, row, db :: WorkEnabled(st, Store(row, o), StoreResult(db)) ==> db == LostBefore
  {
    hide IsText, Reachable, Stranded;
    Enqueued0(env);
    assert Rerun(QUEUED, 0, Pending, map[], multiset{}) == Snapshot(QUEUED, map[], TaskIn(0, Pending), map[]);
    RerunIsRefused(env, QUEUED, 0, o, multiset{});
    RerunIsCounted(env, 0, multiset{} + multiset{0});
    RerunIsRefused(env, RUNNING, 1, o, multiset{} + multiset{0});
    RerunIsCounted(env, 1, multiset{} + multiset{0} + multiset{0});
    RerunIsRefused(env, RUNNING, 2, o, multiset{} + multiset{0} + multiset{0});
    LastRerunStrands(env, multiset{} + multiset{0} + multiset{0} + multiset{0});
  }

  // --------------------------------------------------------- the list of faults

  /**
   The list of faults is exact. LifecycleTheorems.SparedSubmissionsFinish says that a
   submission none of them hits is finished once nobody works for it; and each of
   them, as the only fault of a run, can leave one unfinished, in any environment.
   */
  lemma EveryFaultCanStrand(env: Env, f: Fault)
    ensures CanStrand(env, f)
  {
    hide CanStrand;
    RequestFaultsStrandTheRow(env);
    LastCrashStrandsTheRow(env);
    LastErrorStrandsTheRow(env);
    LostFailStrandsTheRow(env);
  }

  /** The second time round, after the worker put the announced task back. */
  function Again(phase: Phase, handlers: map<HandlerId, Handler>): State {
    Snapshot(RUNNING, map[], TaskIn(2, phase), handlers)
      .(faults := {Event(0, FailWriteLost)}, hooks := map[0 := HookFor0()], requeues := multiset{0})
  }

  function AgainAt(pc: Pc): State {
    Again(Active(0), map[0 := Handler(0, 0, 2, pc)])
  }

  const FAILED := MarkedFailed(RUNNING, "execution engine error: " + "no daemon", 0)

  lemma RequeuedTaskIsHandled(env: Env)
    requires env.requeue
    ensures Reachable(env, AgainAt(Mark(RUNNING)))
  {
    LostFailIsAnnounced(env);
    ReachStep(env, AfterLostFail(Return(Nil)).(hooks := map[0 := HookFor0()]), End(0, Requeue), Again(Pending, map[]));
    ReachStep(env, Again(Pending, map[]), Dequeue(0, 0), AgainAt(Load));
    ReachStep(env, AgainAt(Load), Work(0, GetSub(true, true)), AgainAt(Mark(RUNNING)));
  }

  lemma RequeuedTaskIsMarked(env: Env)
    requires env.requeue
    ensures Reachable(env, AgainAt(CallEngine(RUNNING)))
  {
    RequeuedTaskIsHandled(env);
    ReachStep(env, AgainAt(Mark(RUNNING)), Work(0, MarkRunning(Done)), AgainAt(CallEngine(RUNNING)));
  }

  lemma RequeuedTaskFailsAgain(env: Env)
    requires env.requeue
    ensures Reachable(env, AgainAt(Notify(SENT.webhookUrl)).(rows := map[0 := FAILED]))
  {
    RequeuedTaskIsMarked(env);
    ReachStep(env, AgainAt(CallEngine(RUNNING)), Work(0, EngineRefuse("no daemon")), AgainAt(DOOMED));
    ReachStep(env, AgainAt(DOOMED), Work(0, FailRow(Done)), AgainAt(Notify(SENT.webhookUrl)).(rows := map[0 := FAILED]));
  }

  /** If shutdowns may put tasks back, a submission whose fail write was lost can be announced twice. */
  lemma RequeueNotifiesTwice(env: Env)
    requires env.requeue
    ensures exists st :: && Reachable(env, st)
                         && 0 in st.hooks && 1 in st.hooks && st.hooks[0].sub == st.hooks[1].sub == 0
  {
    RequeuedTaskFailsAgain(env);
    var s := AgainAt(Notify(SENT.webhookUrl)).(rows := map[0 := FAILED]);
    var s' := Apply(env, s, Work(0, EnqueueHook(1, Enqueued)));
    ReachStep(env, s, Work(0, EnqueueHook(1, Enqueued)), s');
    assert s'.hooks == map[0 := HookFor0(), 1 := HookFor0()];
  }
}
