/**
 One attempt of handleExecute from the outside: the calls it makes, in order, and the
 verdict they lead to. Lifecycle says the same one step at a time; here the whole
 paths of the function are written down, early returns included.
 */
module LifecycleAttempts {
  import opened Submissions
  import opened Lifecycle
  import opened LifecycleInvariant
  import opened LifecyclePreservation
  import opened LifecycleTheorems

  /** What handler `h` has done in a history since it was last handed a task. */
  function TraceOf(actions: seq<Action>, h: HandlerId): seq<WorkStep> {
    if actions == [] then []
    else Traced(TraceOf(actions[..|actions| - 1], h), actions[|actions| - 1], h)
  }

  function Traced(t: seq<WorkStep>, a: Action, h: HandlerId): seq<WorkStep> {
    match a
    case Dequeue(_, g) => if g == h then [] else t
    case Work(g, w) => if g == h then t + [w] else t
    case _ => t
  }

  lemma TraceSnoc(actions: seq<Action>, a: Action, h: HandlerId)
    ensures TraceOf(actions + [a], h) == Traced(TraceOf(actions, h), a, h)
  {
    assert (actions + [a])[..|actions|] == actions;
  }

  /** It began with the row loaded, its language known, and the row marked as running. */
  predicate Running(t: seq<WorkStep>) {
    |t| >= 2 && t[0] == GetSub(true, true) && t[1] == MarkRunning(Done)
  }

  /** ... and the program started. */
  predicate Started(t: seq<WorkStep>) {
    |t| >= 3 && Running(t) && t[2] == ProgramStart
  }

  /** ... and an outcome reported. */
  predicate Finished(t: seq<WorkStep>) {
    |t| >= 4 && Started(t) && t[3].EngineOutcome?
  }

  /** The `n`-th call was the engine failing with `msg`, before or after the program was started. */
  predicate EngineFailed(t: seq<WorkStep>, n: nat, msg: string) {
    || (n == 3 && |t| >= 3 && Running(t) && t[2] == EngineRefuse(msg))
    || (n == 4 && |t| >= 4 && Started(t) && t[3] == EngineError(msg))
  }

  /** Its first `n` calls settle it: the result is stored, or the last attempt's engine failure recorded if the database lets it. */
  predicate Settles(t: seq<WorkStep>, n: nat, last: bool) {
    || (n == 5 && |t| >= 5 && Finished(t) && t[4] == StoreResult(Done))
    || (n == 4 && |t| >= 4 && last && Running(t) && t[2].EngineRefuse? && t[3].FailRow?)
    || (n == 5 && |t| >= 5 && last && Started(t) && t[3].EngineError? && t[4].FailRow?)
  }

  /** The ways through handleExecute and what each of them returns; `last` is isFinalAttempt. */
  ghost predicate Exits(t: seq<WorkStep>, last: bool, v: Verdict) {
    match v
    case Nil =>
      || (|t| == 1 && t[0].GetSub? && t[0].ok)                       // finished already
      || (|t| == 2 && t[0] == GetSub(true, false) && t[1].FailRow?)  // no such language
      || (|t| >= 1 && Settles(t, |t| - 1, last) && t[|t| - 1].EnqueueHook?)
    case Retryable(SqlError) =>
      || (|t| == 1 && t[0].GetSub? && !t[0].ok)
      || (|t| == 2 && t[0] == GetSub(true, true) && t[1].MarkRunning? && t[1].db != Done)
      || (|t| == 5 && Finished(t) && t[4].StoreResult? && t[4].db != Done)
    case Retryable(EngineFailure) =>
      !last && |t| >= 1 && (exists msg :: EngineFailed(t, |t|, msg))
    case SkipRetry => false
  }

  /** How far a handler at `pc` has come. */
  ghost predicate CameBy(pc: Pc, t: seq<WorkStep>, last: bool) {
    match pc
    case Load => t == []
    case FailLang(_) => t == [GetSub(true, false)]
    case Mark(_) => t == [GetSub(true, true)]
    case CallEngine(_) => |t| == 2 && Running(t)
    case Executing(_) => |t| == 3 && Started(t)
    case FailEngine(_, text) => last && exists msg :: EngineFailed(t, |t|, msg) && text == "execution engine error: " + msg
    case Store(_, o) => |t| == 4 && Finished(t) && t[3] == EngineOutcome(o)
    case Notify(_) => Settles(t, |t|, last)
    case Return(v) => Exits(t, last, v)
  }

  /** Having come by `t`, the handler takes step `w` and has come by that too. */
  ghost predicate Goes(st: State, h: HandlerId, w: WorkStep, t: seq<WorkStep>)
    requires h in st.handlers && WorkEnabled(st, st.handlers[h].pc, w)
  {
    && DoWork(st, h, w).handlers[h].retried == st.handlers[h].retried
    && CameBy(DoWork(st, h, w).handlers[h].pc, t + [w], FinalAttempt(st.handlers[h].retried))
  }

  ghost predicate CanGo(st: State, h: HandlerId, w: WorkStep, t: seq<WorkStep>) {
    && h in st.handlers && st.handlers[h].sub in st.rows && WorkEnabled(st, st.handlers[h].pc, w)
    && CameBy(st.handlers[h].pc, t, FinalAttempt(st.handlers[h].retried))
  }

  lemma SqlStepComesBy(st: State, h: HandlerId, w: WorkStep, t: seq<WorkStep>)
    requires CanGo(st, h, w, t) && (w.MarkRunning? || w.StoreResult?)
    ensures Goes(st, h, w, t)
  {
    hide IsText, Stored, Marked;
  }

  lemma EngineStepComesBy(st: State, h: HandlerId, w: WorkStep, t: seq<WorkStep>)
    requires CanGo(st, h, w, t) && (w.EngineRefuse? || w.EngineError?)
    ensures Goes(st, h, w, t)
  {
    assert EngineFailed(t + [w], |t| + 1, w.msg);
  }

  lemma FailStepComesBy(st: State, h: HandlerId, db: Db, t: seq<WorkStep>)
    requires CanGo(st, h, FailRow(db), t)
    ensures Goes(st, h, FailRow(db), t)
  {
    hide MarkedFailed;
  }

  lemma OtherStepComesBy(st: State, h: HandlerId, w: WorkStep, t: seq<WorkStep>)
    requires CanGo(st, h, w, t) && (w.GetSub? || w.ProgramStart? || w.EngineOutcome? || w.EnqueueHook?)
    ensures Goes(st, h, w, t)
  {
  }

  lemma StepComesBy(st: State, h: HandlerId, w: WorkStep, t: seq<WorkStep>)
    requires CanGo(st, h, w, t)
    ensures Goes(st, h, w, t)
  {
    hide CanGo, Goes;
    match w
    case EngineRefuse(_) => EngineStepComesBy(st, h, w, t);
    case EngineError(_) => EngineStepComesBy(st, h, w, t);
    case FailRow(db) => FailStepComesBy(st, h, db, t);
    case MarkRunning(_) => SqlStepComesBy(st, h, w, t);
    case StoreResult(_) => SqlStepComesBy(st, h, w, t);
    case _ => OtherStepComesBy(st, h, w, t);
  }

  /** `t` is what the handler has done, if there is such a handler at present. */
  ghost predicate Agrees(st: State, h: HandlerId, t: seq<WorkStep>) {
    h in st.handlers ==> CameBy(st.handlers[h].pc, t, FinalAttempt(st.handlers[h].retried))
  }

  lemma ActionAgrees(env: Env, st: State, a: Action, h: HandlerId, t: seq<WorkStep>)
    requires Inv(env, st) && Enabled(env, st, a) && Agrees(st, h, t)
    ensures Agrees(Apply(env, st, a), h, Traced(t, a, h))
  {
    LoadedNothing();
    match a
    case Work(g, w) =>
      HandlerFacts(env, st, g);
      hide DoWork, Inv, CameBy;
      WorkAdvances(st, g, w);
      if g == h {
        StepComesBy(st, h, w, t);
      }
    case End(g, how) =>
      hide DoEnd, Inv, CameBy;
      EndOnlyDrops(env, st, g, how);
    case Api(id, s) =>
      hide DoApi, Inv, CameBy;
      ApiOnlyAsks(env, st, id, s);
    case _ =>
      hide Inv, CameBy;
  }

  lemma LoadedNothing()
    ensures forall last :: CameBy(Load, [], last)
  {
  }

  /** Every attempt follows the code: where its handler stands, and what it returned, is where its calls lead. */
  lemma {:induction false} AttemptsFollowTheCode(
    env: Env, run: seq<State>, actions: seq<Action>, n: nat, h: HandlerId)
    requires Sane(env) && IsRun(env, run, actions) && n <= |actions|
    ensures h in run[n].handlers ==>
              CameBy(run[n].handlers[h].pc, TraceOf(actions[..n], h), FinalAttempt(run[n].handlers[h].retried))
  {
    if n > 0 {
      hide Apply, Enabled, TraceOf, CameBy, Inv;
      AttemptsFollowTheCode(env, run, actions, n - 1, h);
      RunKeepsInv(env, run, actions, n - 1);
      var before, a := actions[..n - 1], actions[n - 1];
      assert actions[..n] == before + [a];
      TraceSnoc(before, a, h);
      ActionAgrees(env, run[n - 1], a, h, TraceOf(before, h));
    }
  }

  /** No program is started by an attempt that did not load the row, find its language and mark it as running. */
  lemma ProgramsNeedTheirPreparation(env: Env, run: seq<State>, actions: seq<Action>, i: nat, h: HandlerId)
    requires Sane(env) && IsRun(env, run, actions) && i < |actions| && actions[i] == Work(h, ProgramStart)
    ensures TraceOf(actions[..i], h) == [GetSub(true, true), MarkRunning(Done)]
  {
    hide TraceOf, Apply;
    AttemptsFollowTheCode(env, run, actions, i, h);
  }

  /** What is stored is what the engine reported to that very attempt. */
  lemma StoresWhatItsEngineReported(env: Env, run: seq<State>, actions: seq<Action>, i: nat, h: HandlerId, db: Db)
    requires Sane(env) && IsRun(env, run, actions) && i < |actions| && actions[i] == Work(h, StoreResult(db))
    ensures h in run[i].handlers && run[i].handlers[h].pc.Store?
    ensures TraceOf(actions[..i], h) ==
            [GetSub(true, true), MarkRunning(Done), ProgramStart, EngineOutcome(run[i].handlers[h].pc.outcome)]
  {
    hide TraceOf, Apply;
    AttemptsFollowTheCode(env, run, actions, i, h);
  }

  /** An attempt whose language is unknown does nothing but try to record that. */
  lemma UnknownLanguageNeverRuns(env: Env, run: seq<State>, actions: seq<Action>, n: nat, h: HandlerId)
    requires Sane(env) && IsRun(env, run, actions) && n <= |actions| && h in run[n].handlers
    requires var t := TraceOf(actions[..n], h); t != [] && t[0] == GetSub(true, false)
    ensures var t := TraceOf(actions[..n], h);
            var pc := run[n].handlers[h].pc;
            || (t == [GetSub(true, false)] && (pc.FailLang? || pc == Return(Nil)))
            || (|t| == 2 && t[1].FailRow? && pc == Return(Nil))
  {
    hide TraceOf, Apply;
    AttemptsFollowTheCode(env, run, actions, n, h);
  }
}
