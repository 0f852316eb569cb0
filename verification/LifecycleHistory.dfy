/**
 Where the columns of a row come from: the client's part and its creation time from
 the INSERT that a request made, each timestamp from the last statement that set it,
 and the webhook's progress from the deliveries that were made.
 */
module LifecycleHistory {
  import opened Prelude
  import opened Submissions
  import opened Lifecycle
  import opened LifecycleInvariant
  import opened LifecyclePreservation
  import opened LifecycleTheorems

  /** What an action's SQL statement, if it is applied, does to row `id`. */
  datatype Touch = Untouched | Inserted(request: Request) | Began | Ended

  function TouchOf(st: State, a: Action, id: Id): Touch {
    match a
    case Api(i, Create(request, db)) => if i == id && db != LostBefore then Inserted(request) else Untouched
    case Api(i, FailRequest(db)) => if i == id && db != LostBefore then Ended else Untouched
    case Work(h, w) =>
      if h !in st.handlers || st.handlers[h].sub != id then Untouched
      else (match w
            case MarkRunning(db) => if db != LostBefore then Began else Untouched
            case StoreResult(db) => if db != LostBefore then Ended else Untouched
            case FailRow(db) => if db != LostBefore then Ended else Untouched
            case _ => Untouched)
    case _ => Untouched
  }

  /** The columns that say who sent the row and when things happened to it. */
  predicate SetBy(st: State, st': State, id: Id, touch: Touch) {
    match touch
    case Untouched => (id in st.rows <==> id in st'.rows) && (id in st.rows ==> st'.rows[id] == st.rows[id])
    case Inserted(request) =>
      && id !in st.rows && id in st'.rows && st'.rows[id].request == request
      && st'.rows[id].createdAt == st.now && st'.rows[id].startedAt.None? && st'.rows[id].finishedAt.None?
    case Began =>
      && id in st.rows && id in st'.rows
      && st'.rows[id] == st.rows[id].(status := Running, startedAt := Some(st.now))
    case Ended =>
      && id in st.rows && id in st'.rows && st'.rows[id].Terminal()
      && st'.rows[id].request == st.rows[id].request && st'.rows[id].createdAt == st.rows[id].createdAt
      && st'.rows[id].startedAt == st.rows[id].startedAt && st'.rows[id].finishedAt == Some(st.now)
  }

  lemma ApiTouches(env: Env, st: State, i: Id, s: ApiStep, id: Id)
    requires Inv(env, st) && ApiEnabled(env, st, i, s)
    ensures SetBy(st, DoApi(env, st, i, s), id, TouchOf(st, Api(i, s), id))
  {
    hide SetBy, Inv;
    match s
    case FailRequest(db) => FailRequestTouches(env, st, i, db, id);
    case Create(request, db) => CreateTouches(st, i, request, db, id);
    case _ => OtherApiTouches(env, st, i, s, id);
  }

  lemma FailRequestTouches(env: Env, st: State, i: Id, db: Db, id: Id)
    requires Inv(env, st) && i in st.api
    ensures SetBy(st, DoApiFail(st, i, db), id, TouchOf(st, Api(i, FailRequest(db)), id))
  {
    NoTaskWhileRequested(env, st, i);
    hide Inv;
  }

  lemma CreateTouches(st: State, i: Id, request: Request, db: Db, id: Id)
    requires i !in st.rows
    ensures SetBy(st, DoCreate(st, i, request, db), id, TouchOf(st, Api(i, Create(request, db)), id))
  {
  }

  lemma OtherApiTouches(env: Env, st: State, i: Id, s: ApiStep, id: Id)
    requires ApiEnabled(env, st, i, s) && !s.FailRequest? && !s.Create?
    ensures SetBy(st, DoApi(env, st, i, s), id, TouchOf(st, Api(i, s), id))
  {
    assert DoApi(env, st, i, s).rows == st.rows;
  }

  lemma MarkTouches(env: Env, st: State, h: HandlerId, db: Db, id: Id)
    requires Inv(env, st) && h in st.handlers && st.handlers[h].pc.Mark?
    ensures SetBy(st, DoMark(st, h, db), id, TouchOf(st, Work(h, MarkRunning(db)), id))
  {
    HandlerFacts(env, st, h);
    hide Inv;
  }

  lemma StoreTouches(env: Env, st: State, h: HandlerId, db: Db, id: Id)
    requires Inv(env, st) && h in st.handlers && st.handlers[h].pc.Store?
    ensures SetBy(st, DoStore(st, h, db), id, TouchOf(st, Work(h, StoreResult(db)), id))
  {
    HandlerFacts(env, st, h);
    hide Inv;
  }

  lemma FailTouches(env: Env, st: State, h: HandlerId, db: Db, id: Id)
    requires Inv(env, st) && h in st.handlers && (st.handlers[h].pc.FailLang? || st.handlers[h].pc.FailEngine?)
    ensures SetBy(st, DoFail(st, h, db), id, TouchOf(st, Work(h, FailRow(db)), id))
  {
    HandlerFacts(env, st, h);
    hide Inv;
  }

  lemma WorkTouches(env: Env, st: State, h: HandlerId, w: WorkStep, id: Id)
    requires Inv(env, st) && h in st.handlers && WorkEnabled(st, st.handlers[h].pc, w)
    ensures SetBy(st, DoWork(st, h, w), id, TouchOf(st, Work(h, w), id))
  {
    hide Inv, IsText, SetBy;
    match w
    case MarkRunning(db) => MarkTouches(env, st, h, db, id);
    case StoreResult(db) => StoreTouches(env, st, h, db, id);
    case FailRow(db) => FailTouches(env, st, h, db, id);
    case _ =>
      OtherWorkKeepsRows(st, h, w);
      NothingTouched(st, DoWork(st, h, w), id);
  }

  lemma NothingTouched(st: State, st': State, id: Id)
    requires st'.rows == st.rows
    ensures SetBy(st, st', id, Untouched)
  {
  }

  lemma StepTouches(env: Env, st: State, a: Action, id: Id)
    requires Sane(env) && Inv(env, st) && Enabled(env, st, a)
    ensures SetBy(st, Apply(env, st, a), id, TouchOf(st, a, id))
  {
    hide DoApi, DoWork, DoEnd, Inv;
    match a
    case Api(i, s) => ApiTouches(env, st, i, s, id);
    case Work(h, w) => WorkTouches(env, st, h, w, id);
    case End(h, how) => EndOnlyDrops(env, st, h, how);
    case _ =>
  }

  // ------------------------------------------------------------- the last statement

  /** When the last MarkSubmissionRunning of `id` was applied, within the first `n` actions. */
  ghost function LastMark(run: seq<State>, actions: seq<Action>, n: nat, id: Id): Option<Time>
    requires n <= |actions| < |run|
  {
    if n == 0 then None
    else match TouchOf(run[n - 1], actions[n - 1], id)
      case Inserted(_) => None
      case Began => Some(run[n - 1].now)
      case _ => LastMark(run, actions, n - 1, id)
  }

  /** When the last CompleteSubmission or FailSubmission of `id` was applied. */
  ghost function LastEnd(run: seq<State>, actions: seq<Action>, n: nat, id: Id): Option<Time>
    requires n <= |actions| < |run|
  {
    if n == 0 then None
    else match TouchOf(run[n - 1], actions[n - 1], id)
      case Inserted(_) => None
      case Ended => Some(run[n - 1].now)
      case _ => LastEnd(run, actions, n - 1, id)
  }

  /** `started_at` and `finished_at` are the times of the last statements that set them. */
  lemma {:induction false} TimesAreThoseOfTheStatements(env: Env, run: seq<State>, actions: seq<Action>, n: nat, id: Id)
    requires Sane(env) && IsRun(env, run, actions) && n <= |actions|
    ensures id in run[n].rows ==>
              && run[n].rows[id].startedAt == LastMark(run, actions, n, id)
              && run[n].rows[id].finishedAt == LastEnd(run, actions, n, id)
    ensures id !in run[n].rows ==> LastMark(run, actions, n, id) == None && LastEnd(run, actions, n, id) == None
  {
    hide Apply, Enabled, Inv, TouchOf;
    if n > 0 {
      TimesAreThoseOfTheStatements(env, run, actions, n - 1, id);
      RunKeepsInv(env, run, actions, n - 1);
      StepTouches(env, run[n - 1], actions[n - 1], id);
    }
  }

  // ---------------------------------------------------------- what the client sent

  /** Action `e` is the INSERT of `id` with this request, made at time `at`. */
  ghost predicate SentAt(run: seq<State>, actions: seq<Action>, e: nat, id: Id, request: Request, at: Time) {
    e < |actions| < |run| && (exists db :: actions[e] == Api(id, Create(request, db))) && run[e].now == at
  }

  /** Every row says, column by column, what its client sent and when. */
  lemma {:induction false} RowsAreWhatClientsSent(env: Env, run: seq<State>, actions: seq<Action>, n: nat, id: Id)
    requires Sane(env) && IsRun(env, run, actions) && n <= |actions| && id in run[n].rows
    ensures exists e: nat :: e < n && SentAt(run, actions, e, id, run[n].rows[id].request, run[n].rows[id].createdAt)
  {
    hide Apply, Enabled, Inv;
    if n > 0 {
      var st, a := run[n - 1], actions[n - 1];
      RunKeepsInv(env, run, actions, n - 1);
      StepTouches(env, st, a, id);
      if id in st.rows {
        RowsAreWhatClientsSent(env, run, actions, n - 1, id);
      } else {
        assert SentAt(run, actions, n - 1, id, run[n].rows[id].request, run[n].rows[id].createdAt);
      }
    }
  }

  /** The program that is started is the one the client's request carried. */
  lemma ProgramsAreWhatClientsSent(env: Env, run: seq<State>, actions: seq<Action>, i: nat, h: HandlerId)
    requires Sane(env) && IsRun(env, run, actions) && i < |actions| && actions[i] == Work(h, ProgramStart)
    ensures h in run[i].handlers && run[i].handlers[h].pc.CallEngine?
    ensures var x := run[i].handlers[h];
            exists e: nat, at :: e < i && SentAt(run, actions, e, x.sub, x.pc.sub.request, at)
  {
    StartsOnlyWhileRunning(env, run, actions, i);
    hide Apply, Inv;
    RowsAreWhatClientsSent(env, run, actions, i, run[i].handlers[h].sub);
  }

  // ------------------------------------------------------------ recorded failures

  /** A recorded failure shows in a webhook body as what it is. */
  lemma FailureIsReadBack(row: Row, msg: string, now: Time)
    ensures var b := BodyOf(MarkedFailed(row, msg, now));
            && b.status == Failed && b.error == Some(msg) && b.finishedAt == Some(now)
            && b.language == row.request.language && b.createdAt == row.createdAt
            && (NoResult(row) ==> b.stdout.None? && b.stderr.None? && b.exitCode.None? && b.compileOutput.None?
                                  && b.cpuTimeMs.None? && b.wallTimeMs.None? && b.memoryKb.None?
                                  && !b.timedOut && !b.oomKilled)
  {
  }

  /** The text that a handler about to record a failure has for it. */
  function FailureText(pc: Pc): string
    requires pc.FailLang? || pc.FailEngine?
  {
    if pc.FailLang? then "unsupported language " + pc.sub.request.language else pc.msg
  }

  lemma FailWritesTheText(env: Env, st: State, h: HandlerId, db: Db)
    requires Inv(env, st) && Enabled(env, st, Work(h, FailRow(db))) && db != LostBefore
    ensures var x := st.handlers[h];
            && x.sub in st.rows && NoResult(st.rows[x.sub])
            && Apply(env, st, Work(h, FailRow(db))).rows
                 == st.rows[x.sub := MarkedFailed(st.rows[x.sub], FailureText(x.pc), st.now)]
  {
    HandlerFacts(env, st, h);
  }

  /**
   From the moment a failure is recorded the row and every body posted say so, with
   that text and that time, and nothing of a result, for good.
   */
  lemma RecordedFailureIsWhatClientsGet(
    env: Env, run: seq<State>, actions: seq<Action>, i: nat, j: nat, h: HandlerId, db: Db)
    requires Sane(env) && IsRun(env, run, actions) && i < |actions| && i < j < |run|
    requires actions[i] == Work(h, FailRow(db)) && db != LostBefore
    ensures h in run[i].handlers && (run[i].handlers[h].pc.FailLang? || run[i].handlers[h].pc.FailEngine?)
    ensures var id, text := run[i].handlers[h].sub, FailureText(run[i].handlers[h].pc);
            && id in run[j].rows && run[j].rows[id].status == Failed && run[j].rows[id].error == Some(text)
            && run[j].rows[id].finishedAt == Some(run[i].now) && NoResult(run[j].rows[id])
            && (!Lost(run[j], id) ==> forall b :: (id, b) in run[j].posts ==>
                  b.status == Failed && b.error == Some(text) && b.finishedAt == Some(run[i].now))
  {
    RunKeepsInv(env, run, actions, i);
    assert Enabled(env, run[i], actions[i]);
    FailWritesTheText(env, run[i], h, db);
    hide Apply, Inv;
    var id := run[i].handlers[h].sub;
    FailureIsReadBack(run[i].rows[id], FailureText(run[i].handlers[h].pc), run[i].now);
    FinishedRowsAreFrozen(env, run, actions, i + 1, j, id);
    forall b | (id, b) in run[j].posts && !Lost(run[j], id)
      ensures b == BodyOf(run[j].rows[id])
    {
      EveryPostIsTheFinalBody(env, run, actions, j, id, b);
    }
  }

  // ----------------------------------------------------------------- deliveries

  predicate Delivered(st: State, k: HookId) {
    k in st.hooks && st.hooks[k].phase.HookDelivered?
  }

  /** What an action does to webhook `k`. */
  ghost predicate HookStep(st: State, st': State, a: Action, k: HookId) {
    && k in st.hooks && k in st'.hooks
    && (Delivered(st', k) <==> Delivered(st, k) || a == Deliver(k, Post(true)))
    && (a == Deliver(k, Post(false)) || a == Deliver(k, Die) ==> st'.hooks[k] == st.hooks[k].(phase := HookPending))
    && (a.Deliver? && a.k == k && a.hook.Post? ==>
          st.hooks[k].phase.HookLoaded? && st'.posts == st.posts + {(st.hooks[k].sub, BodyOf(st.hooks[k].phase.sub))})
    && (!(a.Deliver? && a.k == k) ==> st'.hooks[k] == st.hooks[k])
  }

  lemma DeliverySteps(st: State, j: HookId, s: Lifecycle.HookStep, k: HookId)
    requires j in st.hooks && k in st.hooks
    requires if s.Fetch? then st.hooks[j].phase == HookPending else st.hooks[j].phase.HookLoaded?
    ensures HookStep(st, DoDeliver(st, j, s), Deliver(j, s), k)
  {
  }

  /**
   A webhook counts as delivered from the first delivery that succeeded on, and only
   then: one that failed, or whose handler died, is left to be tried again.
   */
  lemma DeliveredIff(env: Env, st: State, a: Action, k: HookId)
    requires Enabled(env, st, a) && k in st.hooks
    ensures HookStep(st, Apply(env, st, a), a, k)
  {
    hide DoWork, DoEnd, DoApi, DoDeliver;
    match a
    case Work(h, w) => WorkKeepsHook(st, h, w, k);
    case End(h, how) => EndKeepsHooks(env, st, h, how);
    case Api(id, s) => ApiKeepsHooks(env, st, id, s);
    case Deliver(j, s) => DeliverySteps(st, j, s, k);
    case _ =>
  }

  lemma EndKeepsHooks(env: Env, st: State, h: HandlerId, how: Ending)
    requires EndEnabled(env, st, h, how)
    ensures DoEnd(env, st, h, how).hooks == st.hooks
  {
  }

  lemma ApiKeepsHooks(env: Env, st: State, id: Id, s: ApiStep)
    requires ApiEnabled(env, st, id, s)
    ensures DoApi(env, st, id, s).hooks == st.hooks
  {
    hide MarkedFailed, Created;
  }

  lemma WorkKeepsHook(st: State, h: HandlerId, w: WorkStep, k: HookId)
    requires h in st.handlers && WorkEnabled(st, st.handlers[h].pc, w) && k in st.hooks
    ensures k in DoWork(st, h, w).hooks && DoWork(st, h, w).hooks[k] == st.hooks[k]
  {
    hide IsText;
  }
}
