/**
 All containers of a worker process over time. Each busy slot runs one Execute: it
 sends, one by one, the requests that Supervision proves Execute to send, and each
 request has on the daemon's containers the effect its oracle decides. Nothing here
 makes a slot clean up after itself; that it does follows from that request list.

 A container is leaked once no execution will remove it any more. An execution is
 overdue once its task's deadline has passed while it is still running: the queue
 then hands its slot on. That can only happen to one that is not over in time, in the
 sense of Supervision.StoredInTime.
 */
module Containers {
  import opened Prelude
  import opened Supervision

  type Slot = nat
  type ContainerId = nat

  /** When a handler began, and how much later it called Execute. */
  datatype Shift = Shift(t: Timeouts, begin: Instant, before: Duration)

  /** An execution that has sent its first `sent` requests and owns container `hold`. */
  datatype Execution = Execution(o: Oracle, shift: Shift, sent: nat, hold: Option<ContainerId>)

  datatype State = State(
    slots: map<Slot, Execution>, // executions in flight
    overdue: set<Slot>,          // those the queue does not wait for any more
    live: set<ContainerId>,      // containers the daemon has
    leaked: set<ContainerId>)    // those nobody will remove any more

  datatype Action =
    | Begin(s: Slot, o: Oracle, shift: Shift)
    | Send(s: Slot, id: ContainerId)  // the next request; `id` names the container if one is created
    | Return(s: Slot)
    | DeadlinePasses(s: Slot)
    | ProcessDies

  /** The executions the queue counts. */
  function Counted(st: State): set<Slot> {
    st.slots.Keys - st.overdue
  }

  predicate OverInTime(x: Execution) {
    StoredInTime(x.shift.t, x.shift.begin, x.shift.before, x.o)
  }

  predicate Enabled(concurrency: nat, st: State, a: Action) {
    match a
    case Begin(s, _, _) => s !in st.slots && |Counted(st)| < concurrency
    case Send(s, id) =>
      && s in st.slots && st.slots[s].sent < |RequestsOf(st.slots[s].o)|
      && (RequestsOf(st.slots[s].o)[st.slots[s].sent] == CreateRequest ==> id !in st.live)
    case Return(s) => s in st.slots && st.slots[s].sent == |RequestsOf(st.slots[s].o)|
    case DeadlinePasses(s) => s in Counted(st) && !OverInTime(st.slots[s])
    case ProcessDies => true
  }

  function Ids(hold: Option<ContainerId>): set<ContainerId> {
    if hold.Some? then {hold.value} else {}
  }

  function HeldBy(slots: map<Slot, Execution>): set<ContainerId> {
    set s | s in slots && slots[s].hold.Some? :: slots[s].hold.value
  }

  /** A slot forgets what it held, if anything, and holds `hold` from now on. */
  function Hold(st: State, s: Slot, hold: Option<ContainerId>): State
    requires s in st.slots
  {
    st.(slots := st.slots[s := st.slots[s].(hold := hold)])
  }

  /** ContainerCreate: it may fail, and it may fail in name only. */
  function DoCreate(st: State, s: Slot, id: ContainerId): State
    requires s in st.slots
  {
    var x := st.slots[s];
    if x.o.createOk then
      Hold(st, s, Some(id)).(live := st.live + {id}, leaked := st.leaked + Ids(x.hold))
    else if x.o.createLost then st.(live := st.live + {id}, leaked := st.leaked + {id})
    else st
  }

  /** ContainerRemove: without force the daemon keeps a container that still runs. */
  function DoRemove(st: State, s: Slot, force: bool): State
    requires s in st.slots
  {
    var x := st.slots[s];
    if x.o.removeOk && force then Hold(st, s, None).(live := st.live - Ids(x.hold))
    else Hold(st, s, None).(leaked := st.leaked + Ids(x.hold))
  }

  function DoSend(st: State, s: Slot, id: ContainerId): State
    requires s in st.slots && st.slots[s].sent < |RequestsOf(st.slots[s].o)|
  {
    var x := st.slots[s];
    var st1 := st.(slots := st.slots[s := x.(sent := x.sent + 1)]);
    match RequestsOf(x.o)[x.sent]
    case CreateRequest => DoCreate(st1, s, id)
    case RemoveRequest(force) => DoRemove(st1, s, force)
    case _ => st1
  }

  function Apply(concurrency: nat, st: State, a: Action): State
    requires Enabled(concurrency, st, a)
  {
    match a
    case Begin(s, o, shift) => st.(slots := st.slots[s := Execution(o, shift, 0, None)])
    case Send(s, id) => DoSend(st, s, id)
    case Return(s) =>
      st.(slots := st.slots - {s}, overdue := st.overdue - {s}, leaked := st.leaked + Ids(st.slots[s].hold))
    case DeadlinePasses(s) => st.(overdue := st.overdue + {s})
    case ProcessDies => st.(slots := map[], overdue := {}, leaked := st.leaked + HeldBy(st.slots))
  }

  ghost predicate IsPath(concurrency: nat, run: seq<State>, actions: seq<Action>) {
    && |run| == |actions| + 1
    && forall i :: 0 <= i < |actions| ==>
         Enabled(concurrency, run[i], actions[i]) && run[i + 1] == Apply(concurrency, run[i], actions[i])
  }

  ghost predicate IsRun(concurrency: nat, run: seq<State>, actions: seq<Action>) {
    IsPath(concurrency, run, actions) && run[0] == State(map[], {}, {}, {})
  }

  // ---------------------------------------------------------------- invariant

  /** Where an execution stands decides whether it owns a container. */
  predicate OwnsWhenDue(x: Execution) {
    && x.sent <= |RequestsOf(x.o)|
    && (x.hold.Some? <==> x.o.nonceOk && x.o.createOk && 1 <= x.sent < |RequestsOf(x.o)|)
  }

  /** No two slots hold the same container. */
  ghost predicate Exclusive(slots: map<Slot, Execution>) {
    forall s, s' :: s in slots && s' in slots && slots[s].hold.Some? && slots[s].hold == slots[s'].hold ==> s == s'
  }

  /** Every live container is held by a slot or leaked, never both. */
  ghost predicate Inv(concurrency: nat, st: State) {
    && st.overdue <= st.slots.Keys && |Counted(st)| <= concurrency
    && st.live == HeldBy(st.slots) + st.leaked
    && HeldBy(st.slots) !! st.leaked
    && Exclusive(st.slots)
    && (forall s :: s in st.slots ==> OwnsWhenDue(st.slots[s]))
  }

  /** What the next request of an execution is: create first, remove last if there is something to remove. */
  lemma NextRequest(x: Execution)
    requires OwnsWhenDue(x) && x.sent < |RequestsOf(x.o)|
    ensures var r := RequestsOf(x.o)[x.sent];
            && (r == CreateRequest <==> x.sent == 0)
            && (r == CreateRequest ==> x.o.nonceOk && x.hold.None?)
            && (r.RemoveRequest? ==> r.force && x.hold.Some?)
            && (x.hold.Some? ==> x.o.nonceOk && x.o.createOk)
            && (x.hold.Some? ==> (r.RemoveRequest? <==> x.sent + 1 == |RequestsOf(x.o)|))
            && (x.o.nonceOk && !x.o.createOk ==> |RequestsOf(x.o)| == 1)
            && (x.o.createOk && x.o.nonceOk ==> |RequestsOf(x.o)| > 1)
  {
  }

  /** What a slot makes of the next request. */
  function After(x: Execution, id: ContainerId): Execution
    requires x.sent < |RequestsOf(x.o)|
  {
    match RequestsOf(x.o)[x.sent]
    case CreateRequest => if x.o.createOk then x.(sent := x.sent + 1, hold := Some(id)) else x.(sent := x.sent + 1)
    case RemoveRequest(_) => x.(sent := x.sent + 1, hold := None)
    case _ => x.(sent := x.sent + 1)
  }

  /** The effect of a request, given that executions own what they should. */
  lemma SendEffect(st: State, s: Slot, id: ContainerId)
    requires s in st.slots && OwnsWhenDue(st.slots[s]) && st.slots[s].sent < |RequestsOf(st.slots[s].o)|
    ensures var x := st.slots[s];
            var st' := DoSend(st, s, id);
            var r := RequestsOf(x.o)[x.sent];
            && st'.slots == st.slots[s := After(x, id)] && st'.overdue == st.overdue
            && OwnsWhenDue(After(x, id))
            && st'.live == (if r == CreateRequest && (x.o.createOk || x.o.createLost) then st.live + {id}
                            else if r.RemoveRequest? && x.o.removeOk then st.live - Ids(x.hold)
                            else st.live)
            && st'.leaked == st.leaked + (if r == CreateRequest && !x.o.createOk && x.o.createLost then {id}
                                          else if r.RemoveRequest? && !x.o.removeOk then Ids(x.hold)
                                          else {})
  {
    NextRequest(st.slots[s]);
  }

  /** What changing one slot does to the held containers. */
  lemma HeldAfter(slots: map<Slot, Execution>, s: Slot, x: Execution)
    requires Exclusive(slots)
    requires x.hold.Some? && !(s in slots && slots[s].hold == x.hold) ==> x.hold.value !in HeldBy(slots)
    ensures Exclusive(slots[s := x])
    ensures HeldBy(slots[s := x]) ==
            HeldBy(slots) - (if s in slots then Ids(slots[s].hold) else {}) + Ids(x.hold)
  {
    var slots' := slots[s := x];
    assert forall r :: r in slots && slots[r].hold.Some? ==> slots[r].hold.value in HeldBy(slots);
    var gone := if s in slots then Ids(slots[s].hold) else {};
    forall c
      ensures c in HeldBy(slots') <==> c in HeldBy(slots) - gone + Ids(x.hold)
    {
      if c in HeldBy(slots) - gone {
        var r :| r in slots && slots[r].hold == Some(c);
        assert slots'[r].hold == Some(c);
      }
      if c in Ids(x.hold) {
        assert slots'[s].hold == Some(c);
      }
    }
  }

  /** One slot changes what it holds; `live` and `leaked` follow. */
  lemma SlotStep(concurrency: nat, st: State, st': State, s: Slot, x: Execution)
    requires Inv(concurrency, st) && s in st.slots && OwnsWhenDue(x)
    requires st'.slots == st.slots[s := x] && st'.overdue == st.overdue
    requires x.hold.Some? && st.slots[s].hold != x.hold ==> x.hold.value !in st.live
    requires var held := HeldBy(st.slots) - Ids(st.slots[s].hold) + Ids(x.hold);
             st'.live == held + st'.leaked && held !! st'.leaked
    ensures Inv(concurrency, st')
  {
    hide Exclusive, HeldBy, OwnsWhenDue;
    HeldAfter(st.slots, s, x);
    assert st'.slots.Keys == st.slots.Keys;
  }

  lemma KeepsSend(concurrency: nat, st: State, s: Slot, id: ContainerId)
    requires Inv(concurrency, st) && Enabled(concurrency, st, Send(s, id))
    ensures Inv(concurrency, DoSend(st, s, id))
  {
    hide OverInTime, Counted;
    var x := st.slots[s];
    SendEffect(st, s, id);
    NextRequest(x);
    assert x.hold.Some? ==> x.hold.value in HeldBy(st.slots);
    hide DoSend, OwnsWhenDue, HeldBy, Exclusive, RequestsOf;
    var st' := DoSend(st, s, id);
    var held := HeldBy(st.slots);
    var x' := After(x, id);
    assert x'.hold == x.hold ==> held - Ids(x.hold) + Ids(x'.hold) == held;
    SlotStep(concurrency, st, st', s, x');
  }

  lemma HeldWithout(slots: map<Slot, Execution>, s: Slot)
    requires s in slots && slots[s].hold.None? && Exclusive(slots)
    ensures HeldBy(slots - {s}) == HeldBy(slots) && Exclusive(slots - {s})
  {
    var rest := slots - {s};
    forall c | c in HeldBy(slots)
      ensures c in HeldBy(rest)
    {
      var r :| r in slots && slots[r].hold == Some(c);
      assert r in rest && rest[r].hold == Some(c);
    }
  }

  lemma OneLessSlot(st: State, s: Slot)
    ensures |Counted(st.(slots := st.slots - {s}, overdue := st.overdue - {s}))| <= |Counted(st)|
  {
    Cardinality(Counted(st.(slots := st.slots - {s}, overdue := st.overdue - {s})), Counted(st));
  }

  lemma KeepsReturn(concurrency: nat, st: State, s: Slot)
    requires Inv(concurrency, st) && Enabled(concurrency, st, Return(s))
    ensures Inv(concurrency, Apply(concurrency, st, Return(s)))
    ensures Apply(concurrency, st, Return(s)).leaked == st.leaked
  {
    assert OwnsWhenDue(st.slots[s]);
    hide OverInTime, Counted, HeldBy, Exclusive;
    HeldWithout(st.slots, s);
    OneLessSlot(st, s);
    assert st.leaked + {} == st.leaked;
  }

  /** One more is counted. */
  lemma OneMoreSlot(st: State, s: Slot, x: Execution)
    requires s !in st.slots && st.overdue <= st.slots.Keys
    ensures |Counted(st.(slots := st.slots[s := x]))| == |Counted(st)| + 1
  {
    assert Counted(st.(slots := st.slots[s := x])) == Counted(st) + {s};
  }

  lemma KeepsBegin(concurrency: nat, st: State, s: Slot, o: Oracle, shift: Shift)
    requires Inv(concurrency, st) && s !in st.slots && |Counted(st)| < concurrency
    ensures Inv(concurrency, st.(slots := st.slots[s := Execution(o, shift, 0, None)]))
  {
    hide Exclusive, HeldBy, Counted;
    var x := Execution(o, shift, 0, None);
    OneMoreSlot(st, s, x);
    HeldAfter(st.slots, s, x);
    assert HeldBy(st.slots[s := x]) == HeldBy(st.slots);
    assert OwnsWhenDue(x);
  }

  lemma KeepsDeadlinePasses(concurrency: nat, st: State, s: Slot)
    requires Inv(concurrency, st) && s in Counted(st)
    ensures Inv(concurrency, st.(overdue := st.overdue + {s}))
  {
    hide Exclusive, HeldBy;
    Cardinality(Counted(st.(overdue := st.overdue + {s})), Counted(st));
  }

  lemma NoSlots(live: set<ContainerId>, leaked: set<ContainerId>)
    ensures HeldBy(map[]) == {} && Counted(State(map[], {}, live, leaked)) == {}
  {
  }

  lemma KeepsProcessDies(concurrency: nat, st: State)
    requires Inv(concurrency, st)
    ensures Inv(concurrency, Apply(concurrency, st, ProcessDies))
  {
    hide OverInTime, OwnsWhenDue, Counted, HeldBy;
    NoSlots(st.live, st.leaked + HeldBy(st.slots));
  }

  lemma StepKeepsInv(concurrency: nat, st: State, a: Action)
    requires Inv(concurrency, st) && Enabled(concurrency, st, a)
    ensures Inv(concurrency, Apply(concurrency, st, a))
  {
    hide Inv, HeldBy, OverInTime;
    match a
    case Begin(s, o, shift) => KeepsBegin(concurrency, st, s, o, shift);
    case Send(s, id) => KeepsSend(concurrency, st, s, id);
    case Return(s) => KeepsReturn(concurrency, st, s);
    case DeadlinePasses(s) => KeepsDeadlinePasses(concurrency, st, s);
    case ProcessDies => KeepsProcessDies(concurrency, st);
  }

  lemma {:induction false} RunKeepsInv(concurrency: nat, run: seq<State>, actions: seq<Action>, i: nat)
    requires IsRun(concurrency, run, actions) && i < |run|
    ensures Inv(concurrency, run[i])
  {
    hide Apply, Enabled;
    if i == 0 {
      NoSlots({}, {});
    } else {
      hide Inv;
      RunKeepsInv(concurrency, run, actions, i - 1);
      StepKeepsInv(concurrency, run[i - 1], actions[i - 1]);
    }
  }

  // ------------------------------------------------------------- conservation

  /** A slot holds at most one container. */
  lemma {:induction false} HeldAtMostSlots(slots: map<Slot, Execution>)
    ensures |HeldBy(slots)| <= |slots|
    decreases |slots|
  {
    if slots != map[] {
      var s :| s in slots;
      var rest := slots - {s};
      HeldAtMostSlots(rest);
      var one := Ids(slots[s].hold);
      assert HeldBy(slots) <= HeldBy(rest) + one by {
        forall c | c in HeldBy(slots)
          ensures c in HeldBy(rest) + one
        {
          var r :| r in slots && slots[r].hold == Some(c);
          assert r != s ==> r in rest && rest[r].hold == Some(c);
        }
      }
      Cardinality(HeldBy(slots), HeldBy(rest) + one);
      assert slots.Keys == rest.Keys + {s};
    }
  }

  lemma {:induction false} Cardinality<T>(a: set<T>, b: set<T>)
    requires a <= b
    ensures |a| <= |b|
    decreases a
  {
    if a != {} {
      var x :| x in a;
      Cardinality(a - {x}, b - {x});
    }
  }

  /**
   Containers are conserved: in every run the daemon holds no more of them than
   there are executions in flight and leaks, and no more executions are in flight
   than the worker's concurrency and those the queue gave up waiting for.
   */
  lemma ContainersAreConserved(concurrency: nat, run: seq<State>, actions: seq<Action>, i: nat)
    requires IsRun(concurrency, run, actions) && i < |run|
    ensures |run[i].live| <= |run[i].slots| + |run[i].leaked|
    ensures |run[i].slots| <= concurrency + |run[i].overdue|
    ensures run[i].leaked == {} && run[i].slots == map[] ==> run[i].live == {}
  {
    RunKeepsInv(concurrency, run, actions, i);
    HeldAtMostSlots(run[i].slots);
    assert run[i].slots.Keys == Counted(run[i]) + run[i].overdue;
  }

  // --------------------------------------------------------------------- leaks

  /** The oracles under which an execution leaves a container behind. */
  predicate Leaks(o: Oracle) {
    o.nonceOk && if o.createOk then !o.removeOk else o.createLost
  }

  /** The action starts an execution that will leak, or kills the process. */
  predicate CanLeak(a: Action) {
    a == ProcessDies || (a.Begin? && Leaks(a.o))
  }

  lemma NoLeakStep(concurrency: nat, st: State, a: Action)
    requires Inv(concurrency, st) && Enabled(concurrency, st, a) && !CanLeak(a)
    requires forall s :: s in st.slots ==> !Leaks(st.slots[s].o)
    ensures Apply(concurrency, st, a).leaked == st.leaked
    ensures forall s :: s in Apply(concurrency, st, a).slots ==> !Leaks(Apply(concurrency, st, a).slots[s].o)
  {
    hide OverInTime, HeldBy, Exclusive, Counted, DoSend, RequestsOf, OwnsWhenDue;
    match a
    case Send(s, id) =>
      SendEffect(st, s, id);
      NextRequest(st.slots[s]);
    case Return(s) => KeepsReturn(concurrency, st, s);
    case _ =>
  }

  /** Nothing but a lost create, a failed remove or a dying process leaks: in a run without these nothing ever does. */
  lemma {:induction false} LeaksHaveACause(concurrency: nat, run: seq<State>, actions: seq<Action>, i: nat)
    requires IsRun(concurrency, run, actions) && i < |run|
    requires forall k :: 0 <= k < i ==> !CanLeak(actions[k])
    ensures run[i].leaked == {} && forall s :: s in run[i].slots ==> !Leaks(run[i].slots[s].o)
  {
    hide Apply, Enabled, Inv;
    if i > 0 {
      LeaksHaveACause(concurrency, run, actions, i - 1);
      RunKeepsInv(concurrency, run, actions, i - 1);
      NoLeakStep(concurrency, run[i - 1], actions[i - 1]);
    }
  }

  // -------------------------------------------------------------- concurrency

  /** The handler reaches Execute within the margin that Supervision.TheMarginIsExact gives. */
  predicate Punctual(shift: Shift) {
    0 <= shift.before < 25 * SECOND && 0 <= Budget(shift.t)
  }

  lemma PunctualIsOverInTime(x: Execution)
    requires Punctual(x.shift)
    ensures OverInTime(x)
  {
    ResultCanStillBeStored(x.shift.t, x.shift.begin, x.shift.before, x.o);
  }

  lemma NoOverdueStep(concurrency: nat, st: State, a: Action)
    requires Inv(concurrency, st) && Enabled(concurrency, st, a) && (a.Begin? ==> Punctual(a.shift))
    requires st.overdue == {} && forall s :: s in st.slots ==> Punctual(st.slots[s].shift)
    ensures Apply(concurrency, st, a).overdue == {}
    ensures forall s :: s in Apply(concurrency, st, a).slots ==> Punctual(Apply(concurrency, st, a).slots[s].shift)
  {
    hide OverInTime, HeldBy, Exclusive, DoSend, RequestsOf, OwnsWhenDue, Punctual;
    match a
    case Send(s, id) =>
      SendEffect(st, s, id);
    case DeadlinePasses(s) =>
      PunctualIsOverInTime(st.slots[s]);
    case _ =>
  }

  /** If every handler reaches Execute within 25 s, the queue never gives up on one. */
  lemma {:induction false} NobodyIsOverdue(concurrency: nat, run: seq<State>, actions: seq<Action>, i: nat)
    requires IsRun(concurrency, run, actions) && i < |run|
    requires forall k :: 0 <= k < i && actions[k].Begin? ==> Punctual(actions[k].shift)
    ensures run[i].overdue == {} && forall s :: s in run[i].slots ==> Punctual(run[i].slots[s].shift)
  {
    hide Apply, Enabled, Inv, Punctual;
    if i > 0 {
      NobodyIsOverdue(concurrency, run, actions, i - 1);
      RunKeepsInv(concurrency, run, actions, i - 1);
      NoOverdueStep(concurrency, run[i - 1], actions[i - 1]);
    }
  }

  /**
   If nothing leaks and every handler reaches Execute within 25 s, there are never
   more containers than the worker's concurrency, and none when it is idle.
   */
  lemma ConcurrencyBoundsContainers(concurrency: nat, run: seq<State>, actions: seq<Action>, i: nat)
    requires IsRun(concurrency, run, actions) && i < |run|
    requires forall k :: 0 <= k < i ==> !CanLeak(actions[k])
    requires forall k :: 0 <= k < i && actions[k].Begin? ==> Punctual(actions[k].shift)
    ensures |run[i].live| <= concurrency
    ensures run[i].slots == map[] ==> run[i].live == {}
  {
    LeaksHaveACause(concurrency, run, actions, i);
    NobodyIsOverdue(concurrency, run, actions, i);
    ContainersAreConserved(concurrency, run, actions, i);
  }

  /** `st` is reached by a run that cannot leak. */
  ghost predicate Reachable(concurrency: nat, st: State) {
    exists run: seq<State>, actions: seq<Action> ::
      && IsRun(concurrency, run, actions) && (forall k :: 0 <= k < |actions| ==> !CanLeak(actions[k]))
      && run[|actions|] == st
  }

  lemma ReachInit(concurrency: nat)
    ensures Reachable(concurrency, State(map[], {}, {}, {}))
  {
    assert IsRun(concurrency, [State(map[], {}, {}, {})], []);
  }

  lemma ReachStep(concurrency: nat, st: State, a: Action)
    requires Reachable(concurrency, st) && Enabled(concurrency, st, a) && !CanLeak(a)
    ensures Reachable(concurrency, Apply(concurrency, st, a))
  {
    hide Apply, Enabled, CanLeak;
    var st' := Apply(concurrency, st, a);
    var run: seq<State>, actions: seq<Action> :|
      && IsRun(concurrency, run, actions) && (forall k :: 0 <= k < |actions| ==> !CanLeak(actions[k]))
      && run[|actions|] == st;
    var run', actions' := run + [st'], actions + [a];
    forall k | 0 <= k < |actions'|
      ensures Enabled(concurrency, run'[k], actions'[k]) && run'[k + 1] == Apply(concurrency, run'[k], actions'[k])
      ensures !CanLeak(actions'[k])
    {
      if k < |actions| {
        assert Enabled(concurrency, run[k], actions[k]) && run[k + 1] == Apply(concurrency, run[k], actions[k]);
      }
    }
    assert IsRun(concurrency, run', actions');
  }

  /** The slowest execution without an error, having sent its first `sent` requests. */
  function Slow(shift: Shift, sent: nat, id: ContainerId): Execution
    requires 0 <= Budget(shift.t)
  {
    Execution(Slowest(shift.t), shift, sent, if sent == 0 then None else Some(id))
  }

  lemma CreateSlow(concurrency: nat, st: State, shift: Shift, s: Slot, id: ContainerId)
    requires 0 <= Budget(shift.t) && s in st.slots && st.slots[s] == Slow(shift, 0, id) && id !in st.live
    ensures Enabled(concurrency, st, Send(s, id))
    ensures Apply(concurrency, st, Send(s, id)) == st.(slots := st.slots[s := Slow(shift, 1, id)], live := st.live + {id})
  {
    SendEffect(st, s, id);
    hide DoSend, OverInTime;
    assert st.leaked + {} == st.leaked;
  }

  /** A slot takes up such an execution and its container is created. */
  lemma ReachSlow(concurrency: nat, st: State, shift: Shift, s: Slot, id: ContainerId)
    requires Reachable(concurrency, st) && 0 <= Budget(shift.t)
    requires s !in st.slots && |Counted(st)| < concurrency && id !in st.live
    ensures Reachable(concurrency, st.(slots := st.slots[s := Slow(shift, 1, id)], live := st.live + {id}))
  {
    hide Counted, OverInTime, Reachable, DoSend;
    var a := Begin(s, Slowest(shift.t), shift);
    var st1 := st.(slots := st.slots[s := Slow(shift, 0, id)]);
    ReachStep(concurrency, st, a);
    assert Apply(concurrency, st, a) == st1;
    CreateSlow(concurrency, st1, shift, s, id);
    assert st1.slots[s := Slow(shift, 1, id)] == st.slots[s := Slow(shift, 1, id)];
    hide Apply, Enabled;
    ReachStep(concurrency, st1, Send(s, id));
  }

  /**
   The 25 s are needed: with any longer way to Execute, a worker with one slot can hold
   two containers although nothing leaks.
   */
  lemma LateHandlersBreakTheBound(shift: Shift)
    requires 25 * SECOND <= shift.before && 0 <= Budget(shift.t)
    ensures exists st :: Reachable(1, st) && |st.live| == 2
  {
    hide Reachable;
    var s0 := State(map[], {}, {}, {});
    ReachInit(1);
    assert Counted(s0) == {};
    ReachSlow(1, s0, shift, 0, 0);
    var s1 := s0.(slots := s0.slots[0 := Slow(shift, 1, 0)], live := s0.live + {0});
    SlowestIsTooLate(shift.t, shift.begin, shift.before);
    assert Counted(s1) == {0} && !OverInTime(s1.slots[0]);
    var s2 := s1.(overdue := s1.overdue + {0});
    ReachStep(1, s1, DeadlinePasses(0));
    assert Apply(1, s1, DeadlinePasses(0)) == s2;
    assert Counted(s2) == {};
    hide OverInTime;
    ReachSlow(1, s2, shift, 1, 1);
    assert s2.live + {1} == {0, 1};
  }

  // --------------------------------------------------- one execution, by itself

  /** The actions of one Execute in slot `s`, from the call to the return. */
  function ActionsOf(o: Oracle, shift: Shift, s: Slot, id: ContainerId): seq<Action> {
    [Begin(s, o, shift)] + seq(|RequestsOf(o)|, _ => Send(s, id)) + [Return(s)]
  }

  /** The state in which the execution has sent `k` of its requests. */
  function Midway(st: State, o: Oracle, shift: Shift, s: Slot, id: ContainerId, k: nat): State {
    var made := o.nonceOk && k >= 1 && (o.createOk || o.createLost);
    var gone := k == |RequestsOf(o)|;
    st.(slots := st.slots[s := Execution(o, shift, k, if made && o.createOk && !gone then Some(id) else None)],
        live := if made && !(o.createOk && gone && o.removeOk) then st.live + {id} else st.live,
        leaked := if made && (if o.createOk then gone && !o.removeOk else true) then st.leaked + {id} else st.leaked)
  }

  lemma SendAdvances(concurrency: nat, st: State, o: Oracle, shift: Shift, s: Slot, id: ContainerId, k: nat)
    requires s !in st.slots && id !in st.live && k < |RequestsOf(o)|
    ensures Enabled(concurrency, Midway(st, o, shift, s, id, k), Send(s, id))
    ensures Apply(concurrency, Midway(st, o, shift, s, id, k), Send(s, id)) == Midway(st, o, shift, s, id, k + 1)
  {
    NextRequest(Midway(st, o, shift, s, id, k).slots[s]);
    assert st.live + {id} - {id} == st.live;
  }

  function StatesOf(st: State, o: Oracle, shift: Shift, s: Slot, id: ContainerId): seq<State> {
    var n := |RequestsOf(o)|;
    var last := Midway(st, o, shift, s, id, n);
    [st] + seq(n + 1, k requires 0 <= k => Midway(st, o, shift, s, id, k)) + [last.(slots := st.slots)]
  }

  /**
   One Execute is, for every behaviour of the daemon, a path from its call to its
   return; it leaves everything as it was, except that it leaks its container if and
   only if the create was lost or the remove failed.
   */
  lemma ExecutionLeaksIff(concurrency: nat, st: State, o: Oracle, shift: Shift, s: Slot, id: ContainerId)
    requires s !in st.slots && st.overdue <= st.slots.Keys && |Counted(st)| < concurrency && id !in st.live
    ensures var run := StatesOf(st, o, shift, s, id);
            var left := if Leaks(o) then {id} else {};
            && IsPath(concurrency, run, ActionsOf(o, shift, s, id))
            && run[0] == st
            && run[|run| - 1] == st.(live := st.live + left, leaked := st.leaked + left)
  {
    var run, actions := StatesOf(st, o, shift, s, id), ActionsOf(o, shift, s, id);
    hide Apply, Enabled, Midway, RequestsOf, StatesOf, ActionsOf;
    Laid(st, o, shift, s, id, 0);
    forall i | 0 <= i < |actions|
      ensures Enabled(concurrency, run[i], actions[i]) && run[i + 1] == Apply(concurrency, run[i], actions[i])
    {
      ExecutionStep(concurrency, st, o, shift, s, id, i);
    }
    LastState(st, o, shift, s, id);
  }

  /** The states and actions of the path, one by one. */
  lemma Laid(st: State, o: Oracle, shift: Shift, s: Slot, id: ContainerId, i: nat)
    ensures var run, actions, n := StatesOf(st, o, shift, s, id), ActionsOf(o, shift, s, id), |RequestsOf(o)|;
            && |run| == n + 3 && |actions| == n + 2
            && run[0] == st && actions[0] == Begin(s, o, shift)
            && (1 <= i <= n + 1 ==> run[i] == Midway(st, o, shift, s, id, i - 1))
            && (1 <= i <= n ==> actions[i] == Send(s, id))
            && run[n + 2] == Midway(st, o, shift, s, id, n).(slots := st.slots) && actions[n + 1] == Return(s)
  {
    hide Midway, RequestsOf;
  }

  lemma ExecutionStep(concurrency: nat, st: State, o: Oracle, shift: Shift, s: Slot, id: ContainerId, i: nat)
    requires s !in st.slots && st.overdue <= st.slots.Keys && |Counted(st)| < concurrency && id !in st.live
    requires i <= |RequestsOf(o)| + 1
    ensures var run, actions := StatesOf(st, o, shift, s, id), ActionsOf(o, shift, s, id);
            && |run| == |actions| + 1 == |RequestsOf(o)| + 3
            && Enabled(concurrency, run[i], actions[i]) && run[i + 1] == Apply(concurrency, run[i], actions[i])
  {
    hide StatesOf, ActionsOf, RequestsOf, Apply, Enabled, Midway, Counted;
    Laid(st, o, shift, s, id, i);
    Laid(st, o, shift, s, id, i + 1);
    if i == 0 {
      BeginStep(concurrency, st, o, shift, s, id);
    } else if i <= |RequestsOf(o)| {
      SendAdvances(concurrency, st, o, shift, s, id, i - 1);
    } else {
      ReturnStep(concurrency, st, o, shift, s, id);
    }
  }

  lemma BeginStep(concurrency: nat, st: State, o: Oracle, shift: Shift, s: Slot, id: ContainerId)
    requires s !in st.slots && |Counted(st)| < concurrency
    ensures Enabled(concurrency, st, Begin(s, o, shift))
    ensures Apply(concurrency, st, Begin(s, o, shift)) == Midway(st, o, shift, s, id, 0)
  {
    hide OverInTime, Counted;
  }

  lemma ReturnStep(concurrency: nat, st: State, o: Oracle, shift: Shift, s: Slot, id: ContainerId)
    requires s !in st.slots && st.overdue <= st.slots.Keys
    ensures var last := Midway(st, o, shift, s, id, |RequestsOf(o)|);
            && Enabled(concurrency, last, Return(s))
            && Apply(concurrency, last, Return(s)) == last.(slots := st.slots)
  {
    hide OverInTime, Counted, RequestsOf;
    var last := Midway(st, o, shift, s, id, |RequestsOf(o)|);
    assert last.slots - {s} == st.slots;
    assert last.overdue - {s} == last.overdue;
    assert last.leaked + {} == last.leaked;
  }

  lemma LastState(st: State, o: Oracle, shift: Shift, s: Slot, id: ContainerId)
    requires id !in st.live
    ensures var left := if Leaks(o) then {id} else {};
            var last := Midway(st, o, shift, s, id, |RequestsOf(o)|);
            last.live == st.live + left && last.leaked == st.leaked + left && last.overdue == st.overdue
  {
  }
}
