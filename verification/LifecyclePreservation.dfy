/** Every action of a sane environment preserves the lifecycle invariant. */
module LifecyclePreservation {
  import opened Submissions
  import opened Lifecycle
  import opened LifecycleInvariant

  lemma InitInv(env: Env)
    ensures Inv(env, Init())
  {
  }

  // ---------------------------------------------------------- handler actions

  /** `st'` differs from `st` only in the handler `h`, its row, its webhook and its faults. */
  ghost predicate LocalTo(st: State, st': State, h: HandlerId)
    requires h in st.handlers
  {
    var id := st.handlers[h].sub;
    && h in st'.handlers
    && st'.handlers[h].task == st.handlers[h].task
    && st'.handlers[h].sub == id
    && st'.handlers[h].retried == st.handlers[h].retried
    && st' == st.(handlers := st.handlers[h := st'.handlers[h]],
                  rows := st'.rows, hooks := st'.hooks, faults := st'.faults, starts := st'.starts)
    && id in st.rows && id in st'.rows
    && st'.rows == st.rows[id := st'.rows[id]]
    && st.faults <= st'.faults
    && (forall e :: e in st'.faults && e !in st.faults ==> e.id == id)
    && (forall i: Id :: i != id ==> st'.starts[i] == st.starts[i])
  }

  /** What is left to check about the submission itself. */
  ghost predicate LocalDuty(st: State, st': State, h: HandlerId)
    requires h in st.handlers && LocalTo(st, st', h) && st.handlers[h].task in st.tasks
  {
    var t := st.handlers[h].task;
    var id := st.handlers[h].sub;
    && WellShaped(st'.rows[id])
    && NotFromTheFuture(st'.rows[id], st'.now)
    && (Over(st, id) ==> st'.rows[id] == st.rows[id])
    && PcOk(st', st'.handlers[h])
    && st'.starts[id] <= st.tasks[t].retried + st.requeues[id] + (if MayHaveStarted(st'.handlers[h].pc) then 1 else 0)
    && (Settled(st, t) ==> Settled(st', t))
    && (st'.hooks == st.hooks ||
        (&& !Settled(st, t) && Settled(st', t) && (Over(st', id) || Lost(st', id))
         && exists k: HookId, url :: k !in st.hooks && st'.hooks == st.hooks[k := Hook(id, url, HookPending)]))
  }

  lemma LocalFrame(env: Env, st: State, st': State, h: HandlerId, i: Id)
    requires Inv(env, st) && h in st.handlers
    requires LocalTo(st, st', h)
    requires st'.hooks == st.hooks || exists k: HookId, url :: k !in st.hooks && st'.hooks == st.hooks[k := Hook(st.handlers[h].sub, url, HookPending)]
    requires i != st.handlers[h].sub
    ensures SubInv(env, st', i)
  {
    assert SameFor(st, st', i);
    Frame(env, st, st', i);
  }

  lemma LocalTask(env: Env, st: State, st': State, h: HandlerId)
    requires Inv(env, st) && h in st.handlers && LocalTo(st, st', h)
    requires st.handlers[h].task in st.tasks && LocalDuty(st, st', h)
    ensures var id := st.handlers[h].sub;
            && HandlerOk(st, h)
            && (forall t :: IsTask(st', t, id) ==> t == st.handlers[h].task && TaskOk(st', t))
            && (forall g :: IsHandler(st', g, id) ==> g == h && HandlerOk(st', g))
  {
    var id := st.handlers[h].sub;
    assert SubInv(env, st, id) && IsHandler(st, h, id);
    assert HandlerOk(st, h);
    assert IsTask(st, st.handlers[h].task, id);
    forall g | IsHandler(st', g, id)
      ensures g == h && HandlerOk(st', g)
    {
      assert IsHandler(st, g, id) && HandlerOk(st, g);
      assert IsTask(st, st.handlers[g].task, id);
    }
    forall t | IsTask(st', t, id)
      ensures t == st.handlers[h].task && TaskOk(st', t)
    {
      assert IsTask(st, t, id) && TaskOk(st, t);
    }
  }

  lemma LocalHooks(env: Env, st: State, st': State, h: HandlerId)
    requires Inv(env, st) && h in st.handlers && LocalTo(st, st', h)
    requires st.handlers[h].task in st.tasks && LocalDuty(st, st', h)
    ensures var id := st.handlers[h].sub;
            && (forall k :: IsHook(st', k, id) ==> HookOk(env, st', k))
            && (Once(env, st', id) ==> forall k, k' :: IsHook(st', k, id) && IsHook(st', k', id) ==> k == k')
  {
    var id := st.handlers[h].sub;
    assert SubInv(env, st, id);
    LocalTask(env, st, st', h);
    var t := st.handlers[h].task;
    assert IsTask(st, t, id) && IsTask(st', t, id);
    forall k | IsHook(st', k, id)
      ensures HookOk(env, st', k)
    {
      if k in st.hooks {
        assert IsHook(st, k, id) && HookOk(env, st, k);
        assert Once(env, st', id) ==> Settled(st, t);
      }
    }
    if Once(env, st', id) {
      forall k, k' | IsHook(st', k, id) && IsHook(st', k', id)
        ensures k == k'
      {
        if k in st.hooks {
          assert IsHook(st, k, id) && HookOk(env, st, k) && Settled(st, t);
        }
        if k' in st.hooks {
          assert IsHook(st, k', id) && HookOk(env, st, k') && Settled(st, t);
        }
      }
    }
  }

  lemma LocalStep(env: Env, st: State, st': State, h: HandlerId)
    requires Inv(env, st) && h in st.handlers && LocalTo(st, st', h)
    requires st.handlers[h].task in st.tasks && LocalDuty(st, st', h)
    ensures Inv(env, st')
  {
    var id := st.handlers[h].sub;
    LocalTask(env, st, st', h);
    LocalHooks(env, st, st', h);
    assert SubInv(env, st, id);
    assert IsTask(st', st.handlers[h].task, id);
    assert HasTask(st', id);
    forall i: Id
      ensures SubInv(env, st', i)
    {
      if i != id {
        LocalFrame(env, st, st', h, i);
      }
    }
  }

  /** Facts every live handler may use about its own task and row. */
  lemma HandlerFacts(env: Env, st: State, h: HandlerId)
    requires Inv(env, st) && h in st.handlers
    ensures var x := st.handlers[h];
            && HandlerOk(st, h) && IsTask(st, x.task, x.sub) && TaskOk(st, x.task) && PcOk(st, x)
            && WellShaped(st.rows[x.sub]) && NotFromTheFuture(st.rows[x.sub], st.now)
            && st.starts[x.sub] <= x.retried + st.requeues[x.sub] + (if MayHaveStarted(x.pc) then 1 else 0)
            && x.retried <= MAX_RETRY
  {
    var x := st.handlers[h];
    assert SubInv(env, st, x.sub) && IsHandler(st, h, x.sub);
    assert HandlerOk(st, h);
    assert IsTask(st, x.task, x.sub);
    assert TaskOk(st, x.task);
  }

  lemma KeepsGetSub(env: Env, st: State, h: HandlerId, ok: bool, known: bool)
    requires Inv(env, st) && h in st.handlers && st.handlers[h].pc.Load?
    ensures Inv(env, DoWork(st, h, GetSub(ok, known)))
  {
    hide Inv;
    HandlerFacts(env, st, h);
    LocalStep(env, st, DoWork(st, h, GetSub(ok, known)), h);
  }

  lemma KeepsMarkRunning(env: Env, st: State, h: HandlerId, db: Db)
    requires Inv(env, st) && h in st.handlers && st.handlers[h].pc.Mark?
    ensures Inv(env, DoMark(st, h, db))
  {
    hide Inv;
    HandlerFacts(env, st, h);
    LocalStep(env, st, DoMark(st, h, db), h);
  }

  lemma KeepsProgramStart(env: Env, st: State, h: HandlerId)
    requires Inv(env, st) && h in st.handlers && st.handlers[h].pc.CallEngine?
    ensures Inv(env, DoWork(st, h, ProgramStart))
  {
    hide Inv;
    HandlerFacts(env, st, h);
    LocalStep(env, st, DoWork(st, h, ProgramStart), h);
  }

  lemma KeepsEngineError(env: Env, st: State, h: HandlerId, msg: string)
    requires Inv(env, st) && h in st.handlers && (st.handlers[h].pc.CallEngine? || st.handlers[h].pc.Executing?)
    ensures Inv(env, SetPc(st, h, AfterEngineError(st.handlers[h], st.handlers[h].pc.sub, msg)))
  {
    hide Inv;
    HandlerFacts(env, st, h);
    LocalStep(env, st, SetPc(st, h, AfterEngineError(st.handlers[h], st.handlers[h].pc.sub, msg)), h);
  }

  lemma KeepsEngineOutcome(env: Env, st: State, h: HandlerId, o: Outcome)
    requires Inv(env, st) && h in st.handlers && st.handlers[h].pc.Executing?
    ensures Inv(env, DoWork(st, h, EngineOutcome(o)))
  {
    hide Inv;
    HandlerFacts(env, st, h);
    LocalStep(env, st, DoWork(st, h, EngineOutcome(o)), h);
  }

  lemma KeepsStoreResult(env: Env, st: State, h: HandlerId, db: Db)
    requires Inv(env, st) && h in st.handlers && st.handlers[h].pc.Store?
    ensures Inv(env, DoStore(st, h, db))
  {
    hide Inv;
    HandlerFacts(env, st, h);
    var st' := DoStore(st, h, db);
    assert !Settled(st, st.handlers[h].task);
    assert LocalTo(st, st', h);
    LocalStep(env, st, st', h);
  }

  lemma KeepsFailLang(env: Env, st: State, h: HandlerId, db: Db)
    requires Inv(env, st) && h in st.handlers && st.handlers[h].pc.FailLang?
    ensures Inv(env, DoFail(st, h, db))
  {
    hide Inv;
    HandlerFacts(env, st, h);
    LocalStep(env, st, DoFail(st, h, db), h);
  }

  lemma KeepsFailEngine(env: Env, st: State, h: HandlerId, db: Db)
    requires Inv(env, st) && h in st.handlers && st.handlers[h].pc.FailEngine?
    ensures Inv(env, DoFail(st, h, db))
  {
    hide Inv;
    HandlerFacts(env, st, h);
    LocalStep(env, st, DoFail(st, h, db), h);
  }

  lemma KeepsEnqueueHook(env: Env, st: State, h: HandlerId, k: HookId, q: Enq)
    requires Inv(env, st) && h in st.handlers && st.handlers[h].pc.Notify? && k !in st.hooks
    ensures Inv(env, DoEnqueueHook(st, h, k, q))
  {
    hide Inv;
    HandlerFacts(env, st, h);
    var st' := DoEnqueueHook(st, h, k, q);
    assert !Settled(st, st.handlers[h].task) && Settled(st', st.handlers[h].task);
    assert LocalTo(st, st', h);
    LocalStep(env, st, st', h);
  }

  lemma KeepsWork(env: Env, st: State, h: HandlerId, w: WorkStep)
    requires Inv(env, st) && h in st.handlers && WorkEnabled(st, st.handlers[h].pc, w)
    ensures Inv(env, DoWork(st, h, w))
  {
    hide Inv;
    match w
    case GetSub(ok, known) => KeepsGetSub(env, st, h, ok, known);
    case MarkRunning(db) => KeepsMarkRunning(env, st, h, db);
    case EngineRefuse(msg) => KeepsEngineError(env, st, h, msg);
    case ProgramStart => KeepsProgramStart(env, st, h);
    case EngineError(msg) => KeepsEngineError(env, st, h, msg);
    case EngineOutcome(o) => KeepsEngineOutcome(env, st, h, o);
    case StoreResult(db) => KeepsStoreResult(env, st, h, db);
    case FailRow(db) =>
      if st.handlers[h].pc.FailLang? {
        KeepsFailLang(env, st, h, db);
      } else {
        KeepsFailEngine(env, st, h, db);
      }
    case EnqueueHook(k, q) => KeepsEnqueueHook(env, st, h, k, q);
  }

  // ------------------------------------------------------------ queue actions

  /** `st'` differs from `st` only in task `t`, its handler `h` and its own bookkeeping; no row changes. */
  ghost predicate QueueMove(st: State, st': State, t: TaskId, h: HandlerId)
    requires t in st.tasks
  {
    var id := st.tasks[t].sub;
    && t in st'.tasks && st'.tasks[t].sub == id
    && st' == st.(tasks := st.tasks[t := st'.tasks[t]], handlers := st'.handlers,
                  faults := st'.faults, requeues := st'.requeues)
    && (forall g :: g != h ==> (g in st'.handlers <==> g in st.handlers))
    && (forall g :: g != h && g in st.handlers ==> st'.handlers[g] == st.handlers[g])
    && (h in st'.handlers ==> st'.handlers[h].sub == id)
    && (h in st.handlers ==> st.handlers[h].sub == id)
    && st.faults <= st'.faults
    && (forall e :: e in st'.faults && e !in st.faults ==> e.id == id)
    && (forall i: Id :: i != id ==> st'.requeues[i] == st.requeues[i])
  }

  lemma QueueSub(env: Env, st: State, st': State, t: TaskId, h: HandlerId)
    requires Inv(env, st) && t in st.tasks && QueueMove(st, st', t, h)
    requires forall g :: g in st.handlers && st.handlers[g].task == t ==> g == h
    requires TaskOk(st', t)
    requires h in st'.handlers ==> HandlerOk(st', h)
    requires Once(env, st', st.tasks[t].sub) && Settled(st, t) ==> Settled(st', t)
    ensures SubInv(env, st', st.tasks[t].sub)
  {
    var id := st.tasks[t].sub;
    assert SubInv(env, st, id) && IsTask(st, t, id) && TaskOk(st, t);
    assert IsTask(st', t, id);
    forall g | IsHandler(st', g, id)
      ensures HandlerOk(st', g)
    {
      if g != h {
        assert IsHandler(st, g, id) && HandlerOk(st, g);
        assert IsTask(st, st.handlers[g].task, id);
      }
    }
    assert forall u :: IsTask(st', u, id) <==> IsTask(st, u, id);
    assert forall k :: IsHook(st', k, id) <==> IsHook(st, k, id);
    forall k | IsHook(st', k, id)
      ensures HookOk(env, st', k)
    {
      assert HookOk(env, st, k);
    }
  }

  lemma QueueStep(env: Env, st: State, st': State, t: TaskId, h: HandlerId)
    requires Inv(env, st) && t in st.tasks && QueueMove(st, st', t, h)
    requires forall g :: g in st.handlers && st.handlers[g].task == t ==> g == h
    requires TaskOk(st', t)
    requires h in st'.handlers ==> HandlerOk(st', h)
    requires Once(env, st', st.tasks[t].sub) && Settled(st, t) ==> Settled(st', t)
    ensures Inv(env, st')
  {
    QueueSub(env, st, st', t, h);
    forall i: Id
      ensures SubInv(env, st', i)
    {
      if i != st.tasks[t].sub {
        assert SameFor(st, st', i);
        Frame(env, st, st', i);
      }
    }
  }

  /** Two live handlers of one task are the same handler. */
  lemma OneHandlerPerTask(env: Env, st: State, g: HandlerId, h: HandlerId)
    requires Inv(env, st) && g in st.handlers && h in st.handlers
    requires st.handlers[g].task == st.handlers[h].task
    ensures g == h
  {
    HandlerFacts(env, st, g);
    HandlerFacts(env, st, h);
  }

  lemma PendingHasNoHandler(env: Env, st: State, t: TaskId)
    requires Inv(env, st) && t in st.tasks && !st.tasks[t].phase.Active?
    ensures forall g :: g in st.handlers ==> st.handlers[g].task != t
  {
    forall g | g in st.handlers
      ensures st.handlers[g].task != t
    {
      HandlerFacts(env, st, g);
    }
  }

  lemma KeepsDequeue(env: Env, st: State, t: TaskId, h: HandlerId)
    requires Inv(env, st) && t in st.tasks && st.tasks[t].phase == Pending && h !in st.handlers
    ensures Inv(env, DoDequeue(st, t, h))
  {
    var id := st.tasks[t].sub;
    assert SubInv(env, st, id) && IsTask(st, t, id) && TaskOk(st, t);
    PendingHasNoHandler(env, st, t);
    QueueStep(env, st, DoDequeue(st, t, h), t, h);
  }

  /** What the three ways a handler can end share. */
  lemma HandlerEnds(env: Env, st: State, st': State, h: HandlerId)
    requires Inv(env, st) && h in st.handlers && st.handlers[h].task in st.tasks
    requires h !in st'.handlers && QueueMove(st, st', st.handlers[h].task, h)
    requires var t := st.handlers[h].task;
             && TaskOk(st', t)
             && (Once(env, st', st.tasks[t].sub) && Settled(st, t) ==> Settled(st', t))
    ensures Inv(env, st')
  {
    forall g | g in st.handlers && st.handlers[g].task == st.handlers[h].task
      ensures g == h
    {
      OneHandlerPerTask(env, st, g, h);
    }
    QueueStep(env, st, st', st.handlers[h].task, h);
  }

  lemma KeepsRecord(env: Env, st: State, h: HandlerId)
    requires Inv(env, st) && EndEnabled(env, st, h, Record)
    ensures Inv(env, DoRecord(st, h))
  {
    hide Inv;
    HandlerFacts(env, st, h);
    var x := st.handlers[h];
    var st' := DoRecord(st, h);
    if x.pc.verdict.Retryable? && FinalAttempt(x.retried) {
      assert Event(x.sub, LastAttemptErrored) in st'.faults;
    }
    HandlerEnds(env, st, st', h);
  }

  lemma KeepsCrash(env: Env, st: State, h: HandlerId)
    requires Inv(env, st) && EndEnabled(env, st, h, Crash)
    ensures Inv(env, DoCrash(st, h))
  {
    hide Inv;
    HandlerFacts(env, st, h);
    var x := st.handlers[h];
    var st' := DoCrash(st, h);
    if FinalAttempt(x.retried) {
      assert Event(x.sub, LastAttemptCrashed) in st'.faults;
    }
    HandlerEnds(env, st, st', h);
  }

  lemma KeepsRequeue(env: Env, st: State, h: HandlerId)
    requires Inv(env, st) && EndEnabled(env, st, h, Requeue)
    ensures Inv(env, DoRequeue(st, h))
  {
    hide Inv;
    HandlerFacts(env, st, h);
    HandlerEnds(env, st, DoRequeue(st, h), h);
  }

  // -------------------------------------------------------------- API actions

  lemma NoTaskWhileRequested(env: Env, st: State, id: Id)
    requires Inv(env, st) && (id in st.api || id !in st.rows)
    ensures !HasTask(st, id)
    ensures forall h :: !IsHandler(st, h, id)
    ensures forall k :: !IsHook(st, k, id)
    ensures id in st.api ==> id in st.rows && st.rows[id].status == Queued && WellShaped(st.rows[id])
  {
    assert SubInv(env, st, id);
    forall h | IsHandler(st, h, id)
      ensures false
    {
      HandlerFacts(env, st, h);
    }
    assert forall k :: IsHook(st, k, id) ==> HookOk(env, st, k);
  }

  /** `st'` differs from `st` only in the row, request, faults and (possibly new) task of `id`. */
  ghost predicate ApiMove(st: State, st': State, id: Id) {
    && st' == st.(rows := st'.rows, api := st'.api, tasks := st'.tasks, faults := st'.faults)
    && (forall i :: i != id ==> (i in st'.rows <==> i in st.rows) && (i in st'.api <==> i in st.api))
    && (forall i :: i != id && i in st.rows ==> st'.rows[i] == st.rows[i])
    && (forall t :: t in st.tasks ==> t in st'.tasks && st'.tasks[t] == st.tasks[t])
    && (forall t :: t in st'.tasks && t !in st.tasks ==> st'.tasks[t] == Task(id, 0, Pending))
    && st.faults <= st'.faults
    && (forall e :: e in st'.faults && e !in st.faults ==> e.id == id)
  }

  lemma ApiSub(env: Env, st: State, st': State, id: Id)
    requires Inv(env, st) && ApiMove(st, st', id)
    requires id in st.api || id !in st.rows
    requires id in st'.rows ==> RowOk(st', id)
    requires id in st.rows ==> id in st'.rows
    requires id in st'.api ==> id in st'.rows && st'.rows[id].status == Queued
    requires forall t, t' :: IsTask(st', t, id) && IsTask(st', t', id) ==> t == t'
    requires HasTask(st', id) ==> id in st'.rows && id !in st'.api
    ensures SubInv(env, st', id)
  {
    NoTaskWhileRequested(env, st, id);
    assert SubInv(env, st, id);
    assert forall h :: IsHandler(st', h, id) <==> IsHandler(st, h, id);
    assert forall k :: IsHook(st', k, id) <==> IsHook(st, k, id);
    forall t | IsTask(st', t, id)
      ensures st'.tasks[t] == Task(id, 0, Pending)
    {
      assert !IsTask(st, t, id);
    }
  }

  lemma ApiStep(env: Env, st: State, st': State, id: Id)
    requires Inv(env, st) && ApiMove(st, st', id)
    requires id in st.api || id !in st.rows
    requires id in st'.rows ==> RowOk(st', id) && NotFromTheFuture(st'.rows[id], st'.now)
    requires id in st.rows ==> id in st'.rows
    requires id in st'.api ==> id in st'.rows && st'.rows[id].status == Queued
    requires forall t, t' :: IsTask(st', t, id) && IsTask(st', t', id) ==> t == t'
    requires HasTask(st', id) ==> id in st'.rows && id !in st'.api
    ensures Inv(env, st')
  {
    ApiSub(env, st, st', id);
    hide SubInv;
    forall i: Id
      ensures SubInv(env, st', i)
    {
      if i != id {
        assert SameFor(st, st', i);
        Frame(env, st, st', i);
      }
    }
  }

  lemma KeepsCreate(env: Env, st: State, id: Id, request: Request, db: Db)
    requires Inv(env, st) && id !in st.rows
    ensures Inv(env, DoCreate(st, id, request, db))
  {
    NoTaskWhileRequested(env, st, id);
    var st' := DoCreate(st, id, request, db);
    assert forall t :: IsTask(st', t, id) <==> IsTask(st, t, id);
    assert db == LostAfter ==> Event(id, CreateUnconfirmed) in st'.faults;
    assert SubInv(env, st, id);
    ApiStep(env, st, st', id);
  }

  lemma KeepsDropRequest(env: Env, st: State, id: Id, fault: Fault)
    requires Inv(env, st) && id in st.api
    ensures Inv(env, DropRequest(st, id, fault))
  {
    NoTaskWhileRequested(env, st, id);
    var st' := DropRequest(st, id, fault);
    assert forall t :: IsTask(st', t, id) <==> IsTask(st, t, id);
    assert Event(id, fault) in st'.faults;
    ApiStep(env, st, st', id);
  }

  lemma KeepsEnqueue(env: Env, st: State, id: Id, t: TaskId, q: Enq)
    requires Inv(env, st) && id in st.api && t !in st.tasks && q != EnqueuedButError
    ensures Inv(env, DoEnqueue(st, id, t, q))
  {
    NoTaskWhileRequested(env, st, id);
    var st' := DoEnqueue(st, id, t, q);
    assert forall u :: IsTask(st', u, id) ==> IsTask(st, u, id) || u == t;
    assert q == Enqueued ==> IsTask(st', t, id);
    ApiStep(env, st, st', id);
  }

  lemma KeepsApiFail(env: Env, st: State, id: Id, db: Db)
    requires Inv(env, st) && id in st.api
    ensures Inv(env, DoApiFail(st, id, db))
  {
    NoTaskWhileRequested(env, st, id);
    var st' := DoApiFail(st, id, db);
    assert forall t :: IsTask(st', t, id) <==> IsTask(st, t, id);
    assert db == LostBefore ==> Event(id, FailWriteLost) in st'.faults;
    ApiStep(env, st, st', id);
  }

  // ---------------------------------------------------------- webhook actions

  /** `st'` differs from `st` only in the phase of webhook task `k` and in what it posted. */
  ghost predicate HookMove(st: State, st': State, k: HookId)
    requires k in st.hooks
  {
    var id := st.hooks[k].sub;
    && k in st'.hooks && st'.hooks[k].sub == id
    && st' == st.(hooks := st.hooks[k := st'.hooks[k]], posts := st'.posts)
    && (forall i, b :: i != id ==> ((i, b) in st'.posts <==> (i, b) in st.posts))
  }

  lemma HookSub(env: Env, st: State, st': State, k: HookId)
    requires Inv(env, st) && k in st.hooks && HookMove(st, st', k)
    requires var x := st'.hooks[k];
             x.phase.HookLoaded? && !Lost(st, x.sub) ==> x.sub in st.rows && x.phase.sub == st.rows[x.sub]
    requires var id := st.hooks[k].sub;
             forall b :: (id, b) in st'.posts && (id, b) !in st.posts ==>
               id in st.rows && (Lost(st, id) || (Over(st, id) && b == BodyOf(st.rows[id])))
    ensures SubInv(env, st', st.hooks[k].sub)
  {
    var id := st.hooks[k].sub;
    assert SubInv(env, st, id);
    assert forall j :: IsHook(st', j, id) <==> IsHook(st, j, id);
    assert forall t :: IsTask(st', t, id) <==> IsTask(st, t, id);
    assert forall h :: IsHandler(st', h, id) <==> IsHandler(st, h, id);
    forall t | IsTask(st', t, id)
      ensures TaskOk(st', t) && (Settled(st, t) ==> Settled(st', t))
    {
      assert TaskOk(st, t);
    }
    forall j | IsHook(st', j, id)
      ensures HookOk(env, st', j)
    {
      assert HookOk(env, st, j);
    }
  }

  lemma HookStep(env: Env, st: State, st': State, k: HookId)
    requires Inv(env, st) && k in st.hooks && HookMove(st, st', k)
    requires SubInv(env, st', st.hooks[k].sub)
    ensures Inv(env, st')
  {
    forall i: Id
      ensures SubInv(env, st', i)
    {
      if i != st.hooks[k].sub {
        assert SameFor(st, st', i);
        Frame(env, st, st', i);
      }
    }
  }

  lemma KeepsFetch(env: Env, st: State, k: HookId, ok: bool)
    requires Inv(env, st) && k in st.hooks && st.hooks[k].phase == HookPending
    ensures Inv(env, DoHookLoad(st, k, ok))
  {
    var id := st.hooks[k].sub;
    assert SubInv(env, st, id) && IsHook(st, k, id) && HookOk(env, st, k);
    HookSub(env, st, DoHookLoad(st, k, ok), k);
    HookStep(env, st, DoHookLoad(st, k, ok), k);
  }

  lemma KeepsHookDie(env: Env, st: State, k: HookId)
    requires Inv(env, st) && k in st.hooks && st.hooks[k].phase.HookLoaded?
    ensures Inv(env, DoHookDie(st, k))
  {
    var id := st.hooks[k].sub;
    assert SubInv(env, st, id) && IsHook(st, k, id) && HookOk(env, st, k);
    HookSub(env, st, DoHookDie(st, k), k);
    HookStep(env, st, DoHookDie(st, k), k);
  }

  lemma KeepsPost(env: Env, st: State, k: HookId, delivered: bool)
    requires Inv(env, st) && k in st.hooks && st.hooks[k].phase.HookLoaded?
    ensures Inv(env, DoHookPost(st, k, delivered))
  {
    var id := st.hooks[k].sub;
    assert SubInv(env, st, id) && IsHook(st, k, id) && HookOk(env, st, k);
    HookSub(env, st, DoHookPost(st, k, delivered), k);
    HookStep(env, st, DoHookPost(st, k, delivered), k);
  }

  lemma KeepsTick(env: Env, st: State, d: nat)
    requires Inv(env, st)
    ensures Inv(env, st.(now := st.now + d))
  {
    var st' := st.(now := st.now + d);
    forall i: Id
      ensures SubInv(env, st', i)
    {
      assert SameFor(st, st', i);
      Frame(env, st, st', i);
    }
  }

  /** The invariant is inductive in every sane environment. */
  lemma StepKeepsInv(env: Env, st: State, a: Action)
    requires Sane(env) && Inv(env, st) && Enabled(env, st, a)
    ensures Inv(env, Apply(env, st, a))
  {
    hide Inv;
    match a
    case Tick(d) => KeepsTick(env, st, d);
    case Api(id, s) =>
      match s {
        case Create(request, db) => KeepsCreate(env, st, id, request, db);
        case BuildFails => KeepsDropRequest(env, st, id, TaskNotBuilt);
        case Enqueue(t, q) => KeepsEnqueue(env, st, id, t, q);
        case FailRequest(db) => KeepsApiFail(env, st, id, db);
        case Abandon => KeepsDropRequest(env, st, id, RequestAbandoned);
      }
    case Dequeue(t, h) => KeepsDequeue(env, st, t, h);
    case Work(h, w) => KeepsWork(env, st, h, w);
    case End(h, how) =>
      match how {
        case Record => KeepsRecord(env, st, h);
        case Crash => KeepsCrash(env, st, h);
        case Requeue => KeepsRequeue(env, st, h);
      }
    case LoseLease(_) => assert false;
    case Deliver(k, s) =>
      match s {
        case Fetch(ok) => KeepsFetch(env, st, k, ok);
        case Post(delivered) => KeepsPost(env, st, k, delivered);
        case Die => KeepsHookDie(env, st, k);
      }
  }

  lemma {:induction false} RunKeepsInv(env: Env, run: seq<State>, actions: seq<Action>, i: nat)
    requires Sane(env) && IsRun(env, run, actions) && i < |run|
    ensures Inv(env, run[i])
  {
    hide Apply, Enabled, Inv;
    if i == 0 {
      InitInv(env);
    } else {
      RunKeepsInv(env, run, actions, i - 1);
      StepKeepsInv(env, run[i - 1], actions[i - 1]);
    }
  }
}
