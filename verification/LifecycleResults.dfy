/**
 What a finished submission says is what happened to it: results come from the
 engine and arrive unchanged, errors name their reason, and webhooks go where the
 client asked.

 `Reasons` collects what the run has reported about submissions so far; the
 invariant `Explained` ties rows, requests and handlers to it.
 */
module LifecycleResults {
  import opened Prelude
  import opened Submissions
  import opened Lifecycle
  import opened LifecycleInvariant
  import opened LifecyclePreservation
  import opened LifecycleTheorems

  /** Something that can end a submission. */
  datatype Reason =
    | Reported(outcome: Outcome)
    | Refused(msg: string)  // an engine error
    | UnknownLanguage
    | NotQueued

  /** What a reader of a webhook body learns about the execution; a missing compile output reads as none. */
  function OutcomeOf(b: Body): Option<Outcome> {
    if b.stdout.None? || b.stderr.None? || b.exitCode.None? || b.cpuTimeMs.None? || b.wallTimeMs.None? || b.memoryKb.None?
    then None
    else Some(Outcome(b.stdout.value, b.stderr.value, if b.compileOutput.Some? then b.compileOutput.value else "",
                      b.exitCode.value, b.cpuTimeMs.value, b.wallTimeMs.value, b.memoryKb.value,
                      b.timedOut, b.oomKilled, false))
  }

  /** The table has no column for the compile-error flag. */
  function Storable(o: Outcome): Outcome {
    o.(compileError := false)
  }

  /** Storing an outcome and building a webhook body from the row loses nothing but the compile-error flag. */
  lemma StoredOutcomeIsReadBack(row: Row, o: Outcome, now: Time)
    ensures OutcomeOf(BodyOf(Stored(row, o, now))) == Some(Storable(o))
    ensures BodyOf(Stored(row, o, now)).status == Completed
    ensures BodyOf(Stored(row, o, now)).language == row.request.language
    ensures BodyOf(Stored(row, o, now)).createdAt == row.createdAt
    ensures BodyOf(Stored(row, o, now)).finishedAt == Some(now)
    ensures BodyOf(Stored(row, o, now)).error == row.error
    ensures BodyOf(Stored(row, o, now)).compileOutput.None? <==> o.compileOutput == ""
  {
  }

  /** The text the error column gets, for the reasons that end in `failed`. */
  function ErrorText(c: Reason, language: string): Option<string> {
    match c
    case Reported(_) => None
    case Refused(msg) => Some("execution engine error: " + msg)
    case UnknownLanguage => Some("unsupported language " + language)
    case NotQueued => Some("could not enqueue execution job")
  }

  /** What an action reports about a submission. */
  function ReasonOf(st: State, a: Action): set<(Id, Reason)> {
    match a
    case Api(id, Enqueue(_, q)) => if q == Enqueued then {} else {(id, NotQueued)}
    case Work(h, w) =>
      if h !in st.handlers then {}
      else
        var id := st.handlers[h].sub;
        (match w
         case GetSub(ok, known) => if !ok || known then {} else {(id, UnknownLanguage)}
         case EngineRefuse(msg) => {(id, Refused(msg))}
         case EngineError(msg) => {(id, Refused(msg))}
         case EngineOutcome(o) => {(id, Reported(o))}
         case _ => {})
    case _ => {}
  }

  ghost function Reasons(run: seq<State>, actions: seq<Action>, n: nat): set<(Id, Reason)>
    requires n <= |actions| < |run|
  {
    if n == 0 then {} else Reasons(run, actions, n - 1) + ReasonOf(run[n - 1], actions[n - 1])
  }

  lemma {:induction false} ReasonsHappened(run: seq<State>, actions: seq<Action>, n: nat, p: (Id, Reason))
    requires n <= |actions| < |run| && p in Reasons(run, actions, n)
    ensures exists e: nat :: e < n && p in ReasonOf(run[e], actions[e])
  {
    if p !in ReasonOf(run[n - 1], actions[n - 1]) {
      ReasonsHappened(run, actions, n - 1, p);
    }
  }

  ghost predicate HasOutcome(row: Row, id: Id, cs: set<(Id, Reason)>) {
    exists o :: (id, Reported(o)) in cs && IsText(o) && OutcomeOf(BodyOf(row)) == Some(Storable(o))
  }

  ghost predicate HasError(row: Row, id: Id, cs: set<(Id, Reason)>) {
    exists c :: (id, c) in cs && row.error.Some? && row.error == ErrorText(c, row.request.language)
  }

  ghost predicate RowExplained(row: Row, id: Id, cs: set<(Id, Reason)>) {
    && (row.status == Completed ==> HasOutcome(row, id, cs))
    && (row.status == Failed ==> HasError(row, id, cs))
  }

  ghost predicate EngineRefused(id: Id, text: string, cs: set<(Id, Reason)>) {
    exists msg :: (id, Refused(msg)) in cs && text == "execution engine error: " + msg
  }

  ghost predicate HandlerExplained(x: Handler, cs: set<(Id, Reason)>) {
    && (x.pc.FailLang? ==> (x.sub, UnknownLanguage) in cs)
    && (x.pc.FailEngine? ==> EngineRefused(x.sub, x.pc.msg, cs))
    && (x.pc.Store? ==> (x.sub, Reported(x.pc.outcome)) in cs)
  }

  ghost predicate Explained(st: State, cs: set<(Id, Reason)>) {
    && (forall id :: id in st.rows ==> RowExplained(st.rows[id], id, cs))
    && (forall id :: id in st.api && st.api[id] == FailAfterEnqueue ==> (id, NotQueued) in cs)
    && (forall h :: h in st.handlers ==> HandlerExplained(st.handlers[h], cs))
  }

  /** What was explained stays explained. */
  lemma StaysExplained(st: State, cs: set<(Id, Reason)>, more: set<(Id, Reason)>)
    requires Explained(st, cs)
    ensures Explained(st, cs + more)
  {
    forall id | id in st.rows
      ensures RowExplained(st.rows[id], id, cs + more)
    {
      assert RowExplained(st.rows[id], id, cs);
    }
    forall h | h in st.handlers
      ensures HandlerExplained(st.handlers[h], cs + more)
    {
      assert HandlerExplained(st.handlers[h], cs);
    }
  }

  lemma StoreExplained(env: Env, st: State, h: HandlerId, db: Db, cs: set<(Id, Reason)>)
    requires Inv(env, st) && h in st.handlers && WorkEnabled(st, st.handlers[h].pc, StoreResult(db)) && Explained(st, cs)
    ensures Explained(DoStore(st, h, db), cs)
  {
    hide Inv, IsText;
    HandlerFacts(env, st, h);
    var x := st.handlers[h];
    assert HandlerExplained(x, cs);
    var row := Stored(st.rows[x.sub], x.pc.outcome, st.now);
    StoredOutcomeIsReadBack(st.rows[x.sub], x.pc.outcome, st.now);
    assert db != LostBefore ==> RowExplained(row, x.sub, cs);
  }

  lemma MarkExplained(env: Env, st: State, h: HandlerId, db: Db, cs: set<(Id, Reason)>)
    requires Inv(env, st) && h in st.handlers && st.handlers[h].pc.Mark? && Explained(st, cs)
    ensures Explained(DoMark(st, h, db), cs)
  {
    hide Inv;
    HandlerFacts(env, st, h);
  }

  lemma FailExplained(env: Env, st: State, h: HandlerId, db: Db, cs: set<(Id, Reason)>)
    requires Inv(env, st) && h in st.handlers && (st.handlers[h].pc.FailLang? || st.handlers[h].pc.FailEngine?)
    requires Explained(st, cs)
    ensures Explained(DoFail(st, h, db), cs)
  {
    hide Inv;
    HandlerFacts(env, st, h);
    var x := st.handlers[h];
    assert HandlerExplained(x, cs);
    var msg := if x.pc.FailLang? then "unsupported language " + x.pc.sub.request.language else x.pc.msg;
    var row := MarkedFailed(st.rows[x.sub], msg, st.now);
    if x.pc.FailLang? {
      assert row.error == ErrorText(UnknownLanguage, row.request.language);
    } else {
      var m :| (x.sub, Refused(m)) in cs && x.pc.msg == "execution engine error: " + m;
      assert row.error == ErrorText(Refused(m), row.request.language);
    }
    assert RowExplained(row, x.sub, cs);
  }

  lemma OtherWorkExplained(env: Env, st: State, h: HandlerId, w: WorkStep, cs: set<(Id, Reason)>)
    requires h in st.handlers && WorkEnabled(st, st.handlers[h].pc, w)
    requires !w.MarkRunning? && !w.StoreResult? && !w.FailRow?
    requires Explained(st, cs) && ReasonOf(st, Work(h, w)) <= cs
    ensures Explained(DoWork(st, h, w), cs)
  {
    var st' := DoWork(st, h, w);
    var x := st'.handlers[h];
    assert x.pc.FailEngine? ==> (w.EngineRefuse? || w.EngineError?) && x.pc.msg == "execution engine error: " + w.msg;
    assert HandlerExplained(x, cs);
  }

  lemma WorkExplained(env: Env, st: State, h: HandlerId, w: WorkStep, cs: set<(Id, Reason)>)
    requires Inv(env, st) && h in st.handlers && WorkEnabled(st, st.handlers[h].pc, w)
    requires Explained(st, cs) && ReasonOf(st, Work(h, w)) <= cs
    ensures Explained(DoWork(st, h, w), cs)
  {
    hide Inv, Explained;
    if w.MarkRunning? {
      MarkExplained(env, st, h, w.db, cs);
    } else if w.StoreResult? {
      StoreExplained(env, st, h, w.db, cs);
    } else if w.FailRow? {
      FailExplained(env, st, h, w.db, cs);
    } else {
      OtherWorkExplained(env, st, h, w, cs);
    }
  }

  lemma ApiFailExplained(env: Env, st: State, id: Id, db: Db, cs: set<(Id, Reason)>)
    requires Inv(env, st) && id in st.api && st.api[id] == FailAfterEnqueue && Explained(st, cs)
    ensures Explained(DoApiFail(st, id, db), cs)
  {
    NoTaskWhileRequested(env, st, id);
    hide Inv;
    var row := MarkedFailed(st.rows[id], "could not enqueue execution job", st.now);
    assert row.error == ErrorText(NotQueued, row.request.language);
    assert RowExplained(row, id, cs);
  }

  lemma CreateExplained(st: State, id: Id, request: Request, db: Db, cs: set<(Id, Reason)>)
    requires Explained(st, cs)
    ensures Explained(DoCreate(st, id, request, db), cs)
  {
    assert RowExplained(Created(request, st.now), id, cs);
  }

  lemma RequestExplained(env: Env, st: State, id: Id, s: ApiStep, cs: set<(Id, Reason)>)
    requires ApiEnabled(env, st, id, s) && !s.Create? && !s.FailRequest?
    requires Explained(st, cs) && ReasonOf(st, Api(id, s)) <= cs
    ensures Explained(DoApi(env, st, id, s), cs)
  {
    var st' := DoApi(env, st, id, s);
    assert st'.rows == st.rows && st'.handlers == st.handlers;
  }

  lemma ApiExplained(env: Env, st: State, id: Id, s: ApiStep, cs: set<(Id, Reason)>)
    requires Inv(env, st) && ApiEnabled(env, st, id, s)
    requires Explained(st, cs) && ReasonOf(st, Api(id, s)) <= cs
    ensures Explained(DoApi(env, st, id, s), cs)
  {
    hide Inv, Explained;
    match s
    case FailRequest(db) => ApiFailExplained(env, st, id, db, cs);
    case Create(request, db) => CreateExplained(st, id, request, db, cs);
    case _ => RequestExplained(env, st, id, s, cs);
  }

  lemma EndExplained(env: Env, st: State, h: HandlerId, how: Ending, cs: set<(Id, Reason)>)
    requires EndEnabled(env, st, h, how) && Explained(st, cs)
    ensures Explained(DoEnd(env, st, h, how), cs)
  {
    hide DoEnd;
    EndOnlyDrops(env, st, h, how);
  }

  lemma OtherStepExplained(env: Env, st: State, a: Action, cs: set<(Id, Reason)>)
    requires Enabled(env, st, a) && !a.Api? && !a.Work? && !a.End? && Explained(st, cs)
    ensures Explained(Apply(env, st, a), cs)
  {
  }

  lemma StepExplained(env: Env, st: State, a: Action, cs: set<(Id, Reason)>)
    requires Inv(env, st) && Enabled(env, st, a) && Explained(st, cs)
    ensures Explained(Apply(env, st, a), cs + ReasonOf(st, a))
  {
    hide Inv, Explained, DoApi, DoWork, DoEnd, DoDequeue, DoDeliver;
    var cs' := cs + ReasonOf(st, a);
    StaysExplained(st, cs, ReasonOf(st, a));
    match a
    case Api(id, s) => ApiExplained(env, st, id, s, cs');
    case Work(h, w) => WorkExplained(env, st, h, w, cs');
    case End(h, how) => EndExplained(env, st, h, how, cs');
    case _ => OtherStepExplained(env, st, a, cs');
  }

  lemma {:induction false} RunIsExplained(env: Env, run: seq<State>, actions: seq<Action>, n: nat)
    requires Sane(env) && IsRun(env, run, actions) && n <= |actions|
    ensures Explained(run[n], Reasons(run, actions, n))
  {
    hide Apply, Enabled, Inv, ReasonOf;
    if n > 0 {
      RunIsExplained(env, run, actions, n - 1);
      RunKeepsInv(env, run, actions, n - 1);
      StepExplained(env, run[n - 1], actions[n - 1], Reasons(run, actions, n - 1));
    }
  }

  /** Action `e` of the run reported `c` about submission `id`. */
  ghost predicate Happened(run: seq<State>, actions: seq<Action>, e: nat, id: Id, c: Reason) {
    e < |actions| < |run| && (id, c) in ReasonOf(run[e], actions[e])
  }

  /** A completed row carries an outcome the engine reported for that submission, column by column. */
  lemma CompletedRowsCarryAnEngineOutcome(env: Env, run: seq<State>, actions: seq<Action>, n: nat, id: Id)
    requires Sane(env) && IsRun(env, run, actions) && n <= |actions|
    requires id in run[n].rows && run[n].rows[id].status == Completed
    ensures exists e: nat, o :: e < n && Happened(run, actions, e, id, Reported(o)) && IsText(o)
                        && OutcomeOf(BodyOf(run[n].rows[id])) == Some(Storable(o))
  {
    hide Apply, Enabled, ReasonOf, IsText;
    RunIsExplained(env, run, actions, n);
    assert RowExplained(run[n].rows[id], id, Reasons(run, actions, n));
    var o :| (id, Reported(o)) in Reasons(run, actions, n) && IsText(o) && OutcomeOf(BodyOf(run[n].rows[id])) == Some(Storable(o));
    ReasonsHappened(run, actions, n, (id, Reported(o)));
    var e: nat :| e < n && (id, Reported(o)) in ReasonOf(run[e], actions[e]);
    assert Happened(run, actions, e, id, Reported(o));
  }

  /** A program whose output is never text is never completed, however often it is run. */
  lemma UnstorableOutputNeverCompletes(env: Env, run: seq<State>, actions: seq<Action>, n: nat, id: Id)
    requires Sane(env) && IsRun(env, run, actions) && n <= |actions|
    requires forall e: nat, o :: e < n && Happened(run, actions, e, id, Reported(o)) ==> !IsText(o)
    ensures id in run[n].rows ==> run[n].rows[id].status != Completed
  {
    if id in run[n].rows && run[n].rows[id].status == Completed {
      CompletedRowsCarryAnEngineOutcome(env, run, actions, n, id);
    }
  }

  /** A failed row names what happened: an engine error, an unknown language or an enqueue error. */
  lemma FailedRowsNameTheirReason(env: Env, run: seq<State>, actions: seq<Action>, n: nat, id: Id)
    requires Sane(env) && IsRun(env, run, actions) && n <= |actions|
    requires id in run[n].rows && run[n].rows[id].status == Failed
    ensures exists e: nat, c :: e < n && Happened(run, actions, e, id, c) && !c.Reported?
                        && run[n].rows[id].error == ErrorText(c, run[n].rows[id].request.language)
  {
    hide Apply, Enabled, ReasonOf;
    RunIsExplained(env, run, actions, n);
    var row := run[n].rows[id];
    assert RowExplained(row, id, Reasons(run, actions, n));
    var c :| (id, c) in Reasons(run, actions, n) && row.error.Some? && row.error == ErrorText(c, row.request.language);
    ReasonsHappened(run, actions, n, (id, c));
    var e: nat :| e < n && (id, c) in ReasonOf(run[e], actions[e]);
    assert Happened(run, actions, e, id, c);
  }

  /** The row right after a StoreResult that was applied. */
  lemma StoreWritesTheOutcome(env: Env, st: State, h: HandlerId, db: Db)
    requires Inv(env, st) && Enabled(env, st, Work(h, StoreResult(db))) && db != LostBefore
    ensures var x := st.handlers[h];
            && x.sub in st.rows
            && Apply(env, st, Work(h, StoreResult(db))).rows
                 == st.rows[x.sub := Stored(st.rows[x.sub], x.pc.outcome, st.now)]
  {
    HandlerFacts(env, st, h);
  }

  /**
   From the moment an outcome is stored, even by a statement that reports an error,
   the row and every body posted say exactly that outcome, for good.
   */
  lemma StoredOutcomeIsWhatClientsGet(
    env: Env, run: seq<State>, actions: seq<Action>, i: nat, j: nat, h: HandlerId, db: Db)
    requires Sane(env) && IsRun(env, run, actions) && i < |actions| && i < j < |run|
    requires actions[i] == Work(h, StoreResult(db)) && db != LostBefore
    ensures h in run[i].handlers && run[i].handlers[h].pc.Store?
    ensures var id, o := run[i].handlers[h].sub, run[i].handlers[h].pc.outcome;
            && id in run[j].rows
            && run[j].rows[id].status == Completed
            && run[j].rows[id].finishedAt == Some(run[i].now)
            && OutcomeOf(BodyOf(run[j].rows[id])) == Some(Storable(o))
            && (!Lost(run[j], id) ==> forall b :: (id, b) in run[j].posts ==>
                  OutcomeOf(b) == Some(Storable(o)) && b.status == Completed)
  {
    RunKeepsInv(env, run, actions, i);
    assert Enabled(env, run[i], actions[i]);
    StoreWritesTheOutcome(env, run[i], h, db);
    hide Apply, Inv;
    var id, o := run[i].handlers[h].sub, run[i].handlers[h].pc.outcome;
    StoredOutcomeIsReadBack(run[i].rows[id], o, run[i].now);
    FinishedRowsAreFrozen(env, run, actions, i + 1, j, id);
    forall b | (id, b) in run[j].posts && !Lost(run[j], id)
      ensures b == BodyOf(run[j].rows[id])
    {
      EveryPostIsTheFinalBody(env, run, actions, j, id, b);
    }
  }

  /** An enqueued webhook is for the handler's submission and goes to the URL its client gave, if any. */
  lemma WebhookGoesWhereAsked(
    env: Env, run: seq<State>, actions: seq<Action>, i: nat, h: HandlerId, k: HookId, q: Enq)
    requires Sane(env) && IsRun(env, run, actions) && i < |actions|
    requires actions[i] == Work(h, EnqueueHook(k, q))
    ensures h in run[i].handlers && run[i].handlers[h].sub in run[i].rows
    ensures var id := run[i].handlers[h].sub;
            var url := run[i].rows[id].request.webhookUrl;
            && (k in run[i + 1].hooks <==> q != NotEnqueued && url.Some? && url.value != "")
            && (k in run[i + 1].hooks ==> run[i + 1].hooks[k] == Hook(id, url.value, HookPending))
            && run[i + 1].hooks - {k} == run[i].hooks
  {
    RunKeepsInv(env, run, actions, i);
    HandlerFacts(env, run[i], h);
  }
}
