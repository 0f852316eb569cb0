/**
 The inductive invariant of the lifecycle (its preservation is LifecyclePreservation).

 The invariant is a statement about one submission at a time, `SubInv`. An action
 belongs to at most one submission; `Frame` says that all the others keep theirs.
 */
module LifecycleInvariant {
  import opened Submissions
  import opened Lifecycle

  predicate IsTask(st: State, t: TaskId, id: Id) {
    t in st.tasks && st.tasks[t].sub == id
  }

  predicate IsHandler(st: State, h: HandlerId, id: Id) {
    h in st.handlers && st.handlers[h].sub == id
  }

  predicate IsHook(st: State, k: HookId, id: Id) {
    k in st.hooks && st.hooks[k].sub == id
  }

  ghost predicate HasTask(st: State, id: Id) {
    exists t :: IsTask(st, t, id)
  }

  /** A FailSubmission for `id` was lost. */
  predicate Lost(st: State, id: Id) {
    Event(id, FailWriteLost) in st.faults
  }

  /** Some fault that can strand `id` has happened. */
  ghost predicate Faulty(st: State, id: Id) {
    exists f :: Event(id, f) in st.faults
  }

  predicate Over(st: State, id: Id) {
    id in st.rows && st.rows[id].Terminal()
  }

  /** What a handler may rely on about its row at each program point. */
  predicate PcOk(st: State, x: Handler) {
    && x.sub in st.rows
    && var row := st.rows[x.sub];
       match x.pc
       case Load => true
       case FailLang(sub) => !row.Terminal() && sub.request == row.request
       case Mark(sub) => !row.Terminal() && sub.request == row.request
       case CallEngine(sub) => row.status == Running && sub.request == row.request
       case Executing(sub) => row.status == Running && sub.request == row.request
       case FailEngine(sub, _) => row.status == Running && sub.request == row.request && FinalAttempt(x.retried)
       case Store(sub, _) => row.status == Running && sub.request == row.request
       case Notify(url) =>
         && url == row.request.webhookUrl
         && (row.Terminal() || (Lost(st, x.sub) && FinalAttempt(x.retried)))
       case Return(v) =>
         && (v == Nil ==> row.Terminal() || Lost(st, x.sub))
         && v != SkipRetry
         && (v == Retryable(EngineFailure) ==> !FinalAttempt(x.retried))
  }

  /** This attempt may already have started the program. */
  predicate MayHaveStarted(pc: Pc) {
    pc.Executing? || pc.FailEngine? || pc.Store? || pc.Notify? || pc.Return?
  }

  /** The current attempt of `t` counts as one start. */
  predicate AttemptUsed(st: State, task: Task) {
    match task.phase
    case Pending => false
    case Active(h) => h in st.handlers && MayHaveStarted(st.handlers[h].pc)
    case Finished => true
    case Archived => true
  }

  ghost predicate TaskOk(st: State, t: TaskId)
    requires t in st.tasks
  {
    var task := st.tasks[t];
    && task.sub in st.rows
    && task.sub !in st.api
    && task.retried <= MAX_RETRY
    && st.starts[task.sub] <= task.retried + st.requeues[task.sub] + (if AttemptUsed(st, task) then 1 else 0)
    && match task.phase
       case Pending => true
       case Active(h) => h in st.handlers && st.handlers[h].task == t && PcOk(st, st.handlers[h])
       case Finished => Over(st, task.sub) || Lost(st, task.sub)
       case Archived => Over(st, task.sub) || Faulty(st, task.sub)
  }

  /** A live handler is the one holder of its task. */
  predicate HandlerOk(st: State, h: HandlerId)
    requires h in st.handlers
  {
    var x := st.handlers[h];
    Holds(st, h) && st.tasks[x.task].sub == x.sub && st.tasks[x.task].retried == x.retried
  }

  /** Nothing that can still happen to `t` will announce the submission again. */
  predicate Settled(st: State, t: TaskId)
    requires t in st.tasks
  {
    var task := st.tasks[t];
    match task.phase
    case Pending => Over(st, task.sub)
    case Active(h) =>
      && h in st.handlers
      && var pc := st.handlers[h].pc;
         || (Over(st, task.sub) && (pc.Load? || pc.Return?))
         || (pc == Return(Nil) && FinalAttempt(task.retried))
    case Finished => true
    case Archived => true
  }

  /** The conditions under which the one-webhook guarantee is claimed. */
  predicate Once(env: Env, st: State, id: Id) {
    !env.requeue || !Lost(st, id)
  }

  ghost predicate HookOk(env: Env, st: State, k: HookId)
    requires k in st.hooks
  {
    var x := st.hooks[k];
    && x.sub in st.rows
    && HasTask(st, x.sub)
    && (Over(st, x.sub) || Lost(st, x.sub))
    && (x.phase.HookLoaded? && !Lost(st, x.sub) ==> x.phase.sub == st.rows[x.sub])
    && (Once(env, st, x.sub) ==> forall t :: IsTask(st, t, x.sub) ==> Settled(st, t))
  }

  ghost predicate RowOk(st: State, id: Id)
    requires id in st.rows
  {
    && WellShaped(st.rows[id])
    && (st.rows[id].Terminal() || id in st.api || HasTask(st, id) || Faulty(st, id))
  }

  /** Everything the invariant says about one submission. */
  ghost predicate SubInv(env: Env, st: State, id: Id) {
    && (id in st.rows ==> RowOk(st, id))
    && (id in st.api ==> id in st.rows && st.rows[id].status == Queued)
    && (!HasTask(st, id) ==> st.starts[id] == 0 && st.requeues[id] == 0)
    && (forall t :: IsTask(st, t, id) ==> TaskOk(st, t))
    && (forall t, t' :: IsTask(st, t, id) && IsTask(st, t', id) ==> t == t')
    && (forall h :: IsHandler(st, h, id) ==> HandlerOk(st, h))
    && (forall k :: IsHook(st, k, id) ==> HookOk(env, st, k))
    && (Once(env, st, id) ==> forall k, k' :: IsHook(st, k, id) && IsHook(st, k', id) ==> k == k')
    && (forall b :: (id, b) in st.posts ==>
          id in st.rows && (Lost(st, id) || (Over(st, id) && b == BodyOf(st.rows[id]))))
  }

  ghost predicate Clock(st: State) {
    forall id :: id in st.rows ==> NotFromTheFuture(st.rows[id], st.now)
  }

  ghost predicate Inv(env: Env, st: State) {
    Clock(st) && forall id: Id :: SubInv(env, st, id)
  }

  /** Both states look the same from submission `id`; only faults may have been added elsewhere. */
  ghost predicate SameFor(st: State, st': State, id: Id) {
    && (id in st.rows <==> id in st'.rows)
    && (id in st.rows ==> st.rows[id] == st'.rows[id])
    && (id in st.api <==> id in st'.api)
    && (forall f :: Event(id, f) in st.faults <==> Event(id, f) in st'.faults)
    && st.starts[id] == st'.starts[id]
    && st.requeues[id] == st'.requeues[id]
    && (forall t :: IsTask(st, t, id) <==> IsTask(st', t, id))
    && (forall t :: IsTask(st, t, id) ==> st.tasks[t] == st'.tasks[t])
    && (forall h :: IsHandler(st, h, id) <==> IsHandler(st', h, id))
    && (forall h :: IsHandler(st, h, id) ==> st.handlers[h] == st'.handlers[h])
    && (forall k :: IsHook(st, k, id) <==> IsHook(st', k, id))
    && (forall k :: IsHook(st, k, id) ==> st.hooks[k] == st'.hooks[k])
    && (forall b :: (id, b) in st.posts <==> (id, b) in st'.posts)
  }

  /** The active handler of a task works for the same submission. */
  lemma HolderIsHandler(env: Env, st: State, t: TaskId, id: Id)
    requires SubInv(env, st, id) && IsTask(st, t, id) && st.tasks[t].phase.Active?
    requires forall i: Id :: SubInv(env, st, i)
    ensures IsHandler(st, st.tasks[t].phase.holder, id)
  {
    var h := st.tasks[t].phase.holder;
    assert TaskOk(st, t);
    assert SubInv(env, st, st.handlers[h].sub) && IsHandler(st, h, st.handlers[h].sub);
    assert HandlerOk(st, h);
  }

  lemma Frame(env: Env, st: State, st': State, id: Id)
    requires forall i: Id :: SubInv(env, st, i)
    requires SameFor(st, st', id)
    ensures SubInv(env, st', id)
  {
    assert SubInv(env, st, id);
    assert HasTask(st, id) <==> HasTask(st', id);
    assert Faulty(st, id) <==> Faulty(st', id);
    forall t | IsTask(st', t, id)
      ensures TaskOk(st', t) && (Settled(st, t) ==> Settled(st', t))
    {
      assert IsTask(st, t, id) && TaskOk(st, t);
      if st.tasks[t].phase.Active? {
        HolderIsHandler(env, st, t, id);
      }
    }
    forall h | IsHandler(st', h, id)
      ensures HandlerOk(st', h)
    {
      assert IsHandler(st, h, id) && HandlerOk(st, h);
      assert IsTask(st, st.handlers[h].task, id);
    }
    forall k | IsHook(st', k, id)
      ensures HookOk(env, st', k)
    {
      assert IsHook(st, k, id) && HookOk(env, st, k);
    }
  }
}
