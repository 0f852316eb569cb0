/**
 Whether an unfinished submission can still be finished without a further fault.

 It can, in at most eight steps, unless its last attempt is already lost, to a SQL
 error or to output that no text column takes, and only waits for the queue to
 archive it: then nothing but that fault can happen to it.
 */
module LifecycleProgress {
  import opened Prelude
  import opened Submissions
  import opened Lifecycle
  import opened LifecycleInvariant
  import opened LifecyclePreservation
  import opened LifecycleTheorems

  /** The action is no fault of submission `id`. */
  predicate Spares(st: State, a: Action, id: Id) {
    FaultOf(st, a).None? || FaultOf(st, a).value.id != id
  }

  /** A path from `st`, without a fault of `id`, at whose end `id` is finished. */
  ghost predicate Finishes(env: Env, st: State, id: Id, run: seq<State>, actions: seq<Action>) {
    && IsPath(env, run, actions) && run[0] == st
    && Spared(run, actions, id, |actions|)
    && Over(run[|actions|], id)
  }

  /** `id` can be finished within `n` steps that spare it. */
  ghost predicate CanFinish(env: Env, st: State, id: Id, n: nat) {
    exists run, actions :: Finishes(env, st, id, run, actions) && |actions| <= n
  }

  lemma AlreadyOver(env: Env, st: State, id: Id)
    requires Over(st, id)
    ensures CanFinish(env, st, id, 0)
  {
    assert Finishes(env, st, id, [st], []);
  }

  /** One more step in front. */
  lemma StepThenFinish(env: Env, st: State, a: Action, id: Id, n: nat)
    requires Enabled(env, st, a) && Spares(st, a, id) && CanFinish(env, Apply(env, st, a), id, n)
    ensures CanFinish(env, st, id, n + 1)
  {
    hide Apply, Enabled, FaultOf;
    var run, actions :| Finishes(env, Apply(env, st, a), id, run, actions) && |actions| <= n;
    var run', actions' := [st] + run, [a] + actions;
    forall i | 0 <= i < |actions'|
      ensures Enabled(env, run'[i], actions'[i]) && run'[i + 1] == Apply(env, run'[i], actions'[i])
      ensures Spares(run'[i], actions'[i], id)
    {
      if i > 0 {
        assert Enabled(env, run[i - 1], actions[i - 1]) && run[i] == Apply(env, run[i - 1], actions[i - 1]);
        assert Spares(run[i - 1], actions[i - 1], id);
      }
    }
    assert Finishes(env, st, id, run', actions');
  }

  lemma LaterIsFine(env: Env, st: State, id: Id, n: nat, n': nat)
    requires CanFinish(env, st, id, n) && n <= n'
    ensures CanFinish(env, st, id, n')
  {
  }

  // ------------------------------------------------------------- from a handler

  /** The write that ends it: from here the row is terminal in one step. */
  lemma FinishByWriting(env: Env, st: State, h: HandlerId, id: Id)
    requires Inv(env, st) && IsHandler(st, h, id)
    requires var pc := st.handlers[h].pc; (pc.Store? && IsText(pc.outcome)) || pc.FailLang? || pc.FailEngine?
    ensures CanFinish(env, st, id, 1)
  {
    hide IsText;
    HandlerFacts(env, st, h);
    var a := if st.handlers[h].pc.Store? then Work(h, StoreResult(Done)) else Work(h, FailRow(Done));
    assert Over(Apply(env, st, a), id);
    hide Apply, Inv;
    AlreadyOver(env, Apply(env, st, a), id);
    StepThenFinish(env, st, a, id, 0);
  }

  lemma FinishFromExecuting(env: Env, st: State, h: HandlerId, id: Id)
    requires Sane(env) && Inv(env, st) && IsHandler(st, h, id) && st.handlers[h].pc.Executing?
    ensures CanFinish(env, st, id, 2)
  {
    var silent := Outcome("", "", "", 0, 0, 0, 0, false, false, false);
    assert IsText(silent);
    hide IsText;
    var a := Work(h, EngineOutcome(silent));
    StepKeepsInv(env, st, a);
    assert IsHandler(Apply(env, st, a), h, id) && Apply(env, st, a).handlers[h].pc == Store(st.handlers[h].pc.sub, silent);
    hide Apply, Inv;
    FinishByWriting(env, Apply(env, st, a), h, id);
    StepThenFinish(env, st, a, id, 1);
  }

  lemma FinishFromCall(env: Env, st: State, h: HandlerId, id: Id)
    requires Sane(env) && Inv(env, st) && IsHandler(st, h, id) && st.handlers[h].pc.CallEngine?
    ensures CanFinish(env, st, id, 3)
  {
    var a := Work(h, ProgramStart);
    StepKeepsInv(env, st, a);
    assert IsHandler(Apply(env, st, a), h, id) && Apply(env, st, a).handlers[h].pc.Executing?;
    hide Apply, Inv;
    FinishFromExecuting(env, Apply(env, st, a), h, id);
    StepThenFinish(env, st, a, id, 2);
  }

  lemma FinishFromMark(env: Env, st: State, h: HandlerId, id: Id)
    requires Sane(env) && Inv(env, st) && IsHandler(st, h, id) && st.handlers[h].pc.Mark?
    ensures CanFinish(env, st, id, 4)
  {
    var a := Work(h, MarkRunning(Done));
    StepKeepsInv(env, st, a);
    HandlerFacts(env, st, h);
    assert IsHandler(Apply(env, st, a), h, id) && Apply(env, st, a).handlers[h].pc.CallEngine?;
    hide Apply, Inv;
    FinishFromCall(env, Apply(env, st, a), h, id);
    StepThenFinish(env, st, a, id, 3);
  }

  lemma FinishFromLoad(env: Env, st: State, h: HandlerId, id: Id)
    requires Sane(env) && Inv(env, st) && IsHandler(st, h, id) && st.handlers[h].pc.Load? && !Over(st, id)
    ensures CanFinish(env, st, id, 5)
  {
    var a := Work(h, GetSub(true, true));
    StepKeepsInv(env, st, a);
    HandlerFacts(env, st, h);
    assert IsHandler(Apply(env, st, a), h, id) && Apply(env, st, a).handlers[h].pc.Mark?;
    hide Apply, Inv;
    FinishFromMark(env, Apply(env, st, a), h, id);
    StepThenFinish(env, st, a, id, 4);
  }

  lemma FinishFromPending(env: Env, st: State, t: TaskId, id: Id)
    requires Sane(env) && Inv(env, st) && IsTask(st, t, id) && st.tasks[t].phase == Pending && !Over(st, id)
    ensures CanFinish(env, st, id, 6)
  {
    var h := UnusedId(st.handlers.Keys);
    var a := Dequeue(t, h);
    StepKeepsInv(env, st, a);
    assert IsHandler(Apply(env, st, a), h, id) && Apply(env, st, a).handlers[h].pc.Load? && !Over(Apply(env, st, a), id);
    hide Apply, Inv;
    FinishFromLoad(env, Apply(env, st, a), h, id);
    StepThenFinish(env, st, a, id, 5);
  }

  /** An attempt that ended with an error and is not the last one, or is put back uncounted. */
  lemma FinishByRetry(env: Env, st: State, h: HandlerId, id: Id)
    requires Sane(env) && Inv(env, st) && IsHandler(st, h, id) && !Over(st, id)
    requires st.handlers[h].pc.Return? && st.handlers[h].pc.verdict.Retryable?
    requires env.requeue || !FinalAttempt(st.handlers[h].retried)
    ensures CanFinish(env, st, id, 7)
  {
    HandlerFacts(env, st, h);
    var t := st.handlers[h].task;
    var a := End(h, if FinalAttempt(st.handlers[h].retried) then Requeue else Record);
    StepKeepsInv(env, st, a);
    assert IsTask(Apply(env, st, a), t, id) && Apply(env, st, a).tasks[t].phase == Pending && !Over(Apply(env, st, a), id);
    hide Apply, Inv;
    FinishFromPending(env, Apply(env, st, a), t, id);
    StepThenFinish(env, st, a, id, 6);
  }

  /** An outcome that is not text: the attempt is lost, and if it may be repeated the next one can do better. */
  lemma FinishByRerun(env: Env, st: State, h: HandlerId, id: Id)
    requires Sane(env) && Inv(env, st) && IsHandler(st, h, id) && !Over(st, id) && st.handlers[h].pc.Store?
    requires env.requeue || !FinalAttempt(st.handlers[h].retried)
    ensures CanFinish(env, st, id, 8)
  {
    hide IsText;
    HandlerFacts(env, st, h);
    var a := Work(h, StoreResult(LostBefore));
    StepKeepsInv(env, st, a);
    assert IsHandler(Apply(env, st, a), h, id) && !Over(Apply(env, st, a), id);
    assert Apply(env, st, a).handlers[h] == st.handlers[h].(pc := Return(Retryable(SqlError)));
    hide Apply, Inv;
    FinishByRetry(env, Apply(env, st, a), h, id);
    StepThenFinish(env, st, a, id, 7);
  }

  lemma FinishFromRequest(env: Env, st: State, id: Id)
    requires Sane(env) && Inv(env, st) && id in st.api
    ensures CanFinish(env, st, id, 7)
  {
    NoTaskWhileRequested(env, st, id);
    if st.api[id] == FailAfterEnqueue {
      var a := Api(id, FailRequest(Done));
      assert Over(Apply(env, st, a), id);
      hide Apply, Inv;
      AlreadyOver(env, Apply(env, st, a), id);
      StepThenFinish(env, st, a, id, 0);
      LaterIsFine(env, st, id, 1, 7);
    } else {
      var t := UnusedId(st.tasks.Keys);
      var a := Api(id, Enqueue(t, Enqueued));
      StepKeepsInv(env, st, a);
      assert SubInv(env, st, id);
      assert IsTask(Apply(env, st, a), t, id) && Apply(env, st, a).tasks[t].phase == Pending && !Over(Apply(env, st, a), id);
      hide Apply, Inv;
      FinishFromPending(env, Apply(env, st, a), t, id);
      StepThenFinish(env, st, a, id, 6);
    }
  }

  // ---------------------------------------------------------------- doomed or not

  /** The attempt is lost: it ended with an error, or holds an outcome that no text column takes. */
  predicate IsSpent(pc: Pc) {
    (pc.Return? && pc.verdict.Retryable?) || (pc.Store? && !IsText(pc.outcome))
  }

  /** The last attempt is lost, and the queue has yet to record it. */
  predicate IsDoomed(env: Env, st: State, h: HandlerId, id: Id) {
    !env.requeue && IsHandler(st, h, id) && IsSpent(st.handlers[h].pc) && FinalAttempt(st.handlers[h].retried)
  }

  ghost predicate Doomed(env: Env, st: State, id: Id) {
    exists h :: IsDoomed(env, st, h, id)
  }

  lemma FinishFromHandler(env: Env, st: State, h: HandlerId, id: Id)
    requires Sane(env) && Inv(env, st) && IsHandler(st, h, id) && !Over(st, id) && !Lost(st, id) && !IsDoomed(env, st, h, id)
    ensures CanFinish(env, st, id, 8)
  {
    HandlerFacts(env, st, h);
    hide Inv, CanFinish, IsText;
    match st.handlers[h].pc
    case Load =>
      FinishFromLoad(env, st, h, id);
      LaterIsFine(env, st, id, 5, 8);
    case Mark(_) =>
      FinishFromMark(env, st, h, id);
      LaterIsFine(env, st, id, 4, 8);
    case CallEngine(_) =>
      FinishFromCall(env, st, h, id);
      LaterIsFine(env, st, id, 3, 8);
    case Executing(_) =>
      FinishFromExecuting(env, st, h, id);
      LaterIsFine(env, st, id, 2, 8);
    case Return(_) =>
      FinishByRetry(env, st, h, id);
      LaterIsFine(env, st, id, 7, 8);
    case Store(_, outcome) =>
      if IsText(outcome) {
        FinishByWriting(env, st, h, id);
        LaterIsFine(env, st, id, 1, 8);
      } else {
        FinishByRerun(env, st, h, id);
      }
    case Notify(_) =>
      assert false;
    case _ =>
      FinishByWriting(env, st, h, id);
      LaterIsFine(env, st, id, 1, 8);
  }

  lemma CanFinishUnlessDoomed(env: Env, st: State, id: Id)
    requires Sane(env) && Inv(env, st) && id in st.rows && !Faulty(st, id)
    requires Over(st, id) || !Doomed(env, st, id)
    ensures CanFinish(env, st, id, 8)
  {
    if Over(st, id) {
      AlreadyOver(env, st, id);
      LaterIsFine(env, st, id, 0, 8);
    } else if id in st.api {
      FinishFromRequest(env, st, id);
      LaterIsFine(env, st, id, 7, 8);
    } else {
      Accounted(env, st, id);
      var t :| SoleLiveTask(st, t, id);
      if st.tasks[t].phase.Pending? {
        FinishFromPending(env, st, t, id);
        LaterIsFine(env, st, id, 6, 8);
      } else {
        assert SubInv(env, st, id);
        HolderIsHandler(env, st, t, id);
        FinishFromHandler(env, st, st.tasks[t].phase.holder, id);
      }
    }
  }

  // ------------------------------------------------- a doomed submission stays so

  predicate SameRow(st: State, st': State, id: Id) {
    id in st.rows && id in st'.rows && st'.rows[id] == st.rows[id]
  }

  lemma FailKeepsOtherRows(st: State, g: HandlerId, db: Db, id: Id)
    requires g in st.handlers && (st.handlers[g].pc.FailLang? || st.handlers[g].pc.FailEngine?)
    requires st.handlers[g].sub != id && id in st.rows
    ensures SameRow(st, DoFail(st, g, db), id)
  {
  }

  lemma StoreKeepsOtherRows(st: State, g: HandlerId, db: Db, id: Id)
    requires g in st.handlers && st.handlers[g].pc.Store? && st.handlers[g].sub != id && id in st.rows
    ensures SameRow(st, DoStore(st, g, db), id)
  {
  }

  lemma WorkKeepsOtherRows(st: State, g: HandlerId, w: WorkStep, id: Id)
    requires g in st.handlers && WorkEnabled(st, st.handlers[g].pc, w) && st.handlers[g].sub != id && id in st.rows
    ensures SameRow(st, DoWork(st, g, w), id)
  {
    if w.StoreResult? {
      StoreKeepsOtherRows(st, g, w.db, id);
    } else if w.FailRow? {
      FailKeepsOtherRows(st, g, w.db, id);
    } else if !w.MarkRunning? {
      OtherWorkKeepsRows(st, g, w);
    }
  }

  lemma ApiKeepsOtherRows(env: Env, st: State, i: Id, s: ApiStep, id: Id)
    requires ApiEnabled(env, st, i, s) && i != id && id in st.rows
    ensures SameRow(st, DoApi(env, st, i, s), id)
  {
  }

  /** The handler of a doomed submission is its only one, and its request is over. */
  lemma DoomedIsAlone(env: Env, st: State, h: HandlerId, id: Id)
    requires Inv(env, st) && IsDoomed(env, st, h, id)
    ensures id !in st.api
    ensures forall g :: IsHandler(st, g, id) ==> g == h
    ensures st.handlers[h].pc.Return? ==> st.handlers[h].pc == Return(Retryable(SqlError))
  {
    hide IsText;
    HandlerFacts(env, st, h);
    if st.handlers[h].pc.Return? {
      RetriesHaveACause(env, st, h);
    }
    assert SubInv(env, st, id);
    forall g | IsHandler(st, g, id)
      ensures g == h
    {
      HandlerFacts(env, st, g);
    }
  }

  /** The one step left to a lost attempt that still has to try: the statement is refused. */
  lemma DoomedStoreIsRefused(st: State, h: HandlerId, w: WorkStep, id: Id)
    requires h in st.handlers && WorkEnabled(st, st.handlers[h].pc, w) && IsSpent(st.handlers[h].pc)
    requires id in st.rows && st.handlers[h].sub == id
    ensures SameRow(st, DoWork(st, h, w), id)
    ensures DoWork(st, h, w).handlers == st.handlers[h := st.handlers[h].(pc := Return(Retryable(SqlError)))]
  {
    hide IsText;
  }

  /** Nothing that spares a doomed submission saves it. */
  lemma DoomedStays(env: Env, st: State, a: Action, h: HandlerId, id: Id)
    requires Sane(env) && Inv(env, st) && Enabled(env, st, a) && Spares(st, a, id)
    requires id in st.rows && IsDoomed(env, st, h, id) && !Over(st, id)
    ensures var st' := Apply(env, st, a); id in st'.rows && IsDoomed(env, st', h, id) && !Over(st', id)
  {
    DoomedIsAlone(env, st, h, id);
    hide Inv, IsText;
    match a
    case Work(g, w) =>
      hide DoWork;
      if g == h {
        DoomedStoreIsRefused(st, h, w, id);
      } else {
        WorkAdvances(st, g, w);
        assert !IsHandler(st, g, id);
        WorkKeepsOtherRows(st, g, w, id);
      }
    case Api(i, s) =>
      assert i != id;
      hide DoApi;
      ApiKeepsOtherRows(env, st, i, s, id);
      ApiOnlyAsks(env, st, i, s);
    case End(g, how) =>
      hide DoEnd;
      EndOnlyDrops(env, st, g, how);
    case _ =>
  }

  lemma {:induction false} DoomedNeverFinishes(
    env: Env, run: seq<State>, actions: seq<Action>, h: HandlerId, id: Id, n: nat)
    requires Sane(env) && IsPath(env, run, actions) && n <= |actions| && Spared(run, actions, id, |actions|)
    requires Inv(env, run[0]) && id in run[0].rows && IsDoomed(env, run[0], h, id) && !Over(run[0], id)
    ensures Inv(env, run[n]) && id in run[n].rows && IsDoomed(env, run[n], h, id) && !Over(run[n], id)
  {
    hide Apply, Enabled, Inv, FaultOf;
    if n > 0 {
      DoomedNeverFinishes(env, run, actions, h, id, n - 1);
      assert Spares(run[n - 1], actions[n - 1], id);
      StepKeepsInv(env, run[n - 1], actions[n - 1]);
      DoomedStays(env, run[n - 1], actions[n - 1], h, id);
    }
  }

  /**
   Exactly when a submission that met no fault can still be finished without one: it
   is finished, or it is not waiting for its lost last attempt to be recorded. And
   whenever it can, eight steps are enough.
   */
  lemma FinishableIff(env: Env, run: seq<State>, actions: seq<Action>, i: nat, id: Id)
    requires Sane(env) && IsRun(env, run, actions) && i < |run| && id in run[i].rows && !Faulty(run[i], id)
    ensures CanFinish(env, run[i], id, 8) <==> Over(run[i], id) || !Doomed(env, run[i], id)
    ensures (exists n: nat :: CanFinish(env, run[i], id, n)) ==> CanFinish(env, run[i], id, 8)
  {
    RunKeepsInv(env, run, actions, i);
    hide Inv, Faulty;
    if Over(run[i], id) || !Doomed(env, run[i], id) {
      CanFinishUnlessDoomed(env, run[i], id);
    } else {
      var h :| IsDoomed(env, run[i], h, id);
      forall more, steps
        ensures !Finishes(env, run[i], id, more, steps)
      {
        if Finishes(env, run[i], id, more, steps) {
          DoomedNeverFinishes(env, more, steps, h, id, |steps|);
        }
      }
    }
  }
}
