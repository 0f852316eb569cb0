/**
 ensureImage under concurrency: any number of goroutines share a cache of images
 known to be present and a map from image reference to the sync.Once that guards
 its pull. A failed pull deletes the map entry, by reference and not by identity,
 so that a later caller can try again.

 One action is one operation on shared state (a map, a Once or the daemon).
 `once.Do` blocks while another goroutine is inside it, so `Do` is simply not
 enabled then. Images are assumed not to be removed from the daemon.

 Whether a pull reports an error and whether it brings the image are independent.
 Once its progress stream has begun the daemon reports errors inside that stream,
 which the code drains without reading: such a pull looks good and brings nothing.
 */
module ImagePull {

  type Ref = string
  type CallId = nat  // one invocation of ensureImage
  type OnceId = nat  // identity of one *sync.Once

  datatype OncePhase = Fresh | Busy(runner: CallId) | Spent

  datatype Once = Once(ref: Ref, phase: OncePhase)

  datatype Pc =
    | Start                   // imageReady.Load
    | Inspecting              // first ImageInspect
    | Loading                 // pullOnce.LoadOrStore
    | Waiting(o: OnceId)      // once.Do
    | Pulling(o: OnceId)      // inside Do: ImagePull and draining its progress stream
    | Dropping(o: OnceId)     // inside Do: the pull failed, pullOnce.Delete comes next
    | LeavingErr(o: OnceId)   // inside Do: about to return after a failed pull
    | LeavingOk(o: OnceId)    // inside Do: about to return after a good pull
    | Confirming              // second ImageInspect
    | Publishing              // imageReady.Store
    | Returned(ok: bool)

  datatype Call = Call(ref: Ref, pc: Pc)

  /** `present` is the daemon's store; `landed` counts pulls that reported no error and `ended` has the images some pull of which is over, as history. */
  datatype State = State(
    present: set<Ref>,
    ready: set<Ref>,
    pullOnce: map<Ref, OnceId>,
    onces: map<OnceId, Once>,
    calls: map<CallId, Call>,
    landed: multiset<Ref>,
    ended: set<Ref>)

  function Init(present: set<Ref>): State {
    State(present, {}, map[], map[], map[], multiset{}, {})
  }

  datatype Step =
    | LookInCache
    | Inspect(ok: bool)
    | LoadOrStore(spare: OnceId)
    | Do
    | PullEnds(ok: bool, arrived: bool)
    | Delete
    | Leave
    | Confirm(ok: bool)
    | Publish

  datatype Action =
    | Appear(ref: Ref)            // someone else brings the image to the daemon
    | Enter(c: CallId, ref: Ref)  // ensureImage is called
    | Go(c: CallId, step: Step)

  predicate StepEnabled(st: State, x: Call, s: Step) {
    match s
    case LookInCache => x.pc == Start
    case Inspect(ok) => x.pc == Inspecting && (ok ==> x.ref in st.present)
    case LoadOrStore(spare) => x.pc == Loading && spare !in st.onces
    case Do => x.pc.Waiting? && x.pc.o in st.onces && !st.onces[x.pc.o].phase.Busy?
    case PullEnds(_, _) => x.pc.Pulling?
    case Delete => x.pc.Dropping?
    case Leave => (x.pc.LeavingErr? || x.pc.LeavingOk?) && x.pc.o in st.onces
    case Confirm(ok) => x.pc == Confirming && (ok ==> x.ref in st.present)
    case Publish => x.pc == Publishing
  }

  predicate Enabled(st: State, a: Action) {
    match a
    case Appear(_) => true
    case Enter(c, _) => c !in st.calls
    case Go(c, s) => c in st.calls && StepEnabled(st, st.calls[c], s)
  }

  function At(st: State, c: CallId, pc: Pc): State
    requires c in st.calls
  {
    st.(calls := st.calls[c := st.calls[c].(pc := pc)])
  }

  function SetOnce(st: State, o: OnceId, phase: OncePhase): State
    requires o in st.onces
  {
    st.(onces := st.onces[o := st.onces[o].(phase := phase)])
  }

  function DoLoadOrStore(st: State, c: CallId, spare: OnceId): State
    requires c in st.calls
  {
    var ref := st.calls[c].ref;
    if ref in st.pullOnce then At(st, c, Waiting(st.pullOnce[ref]))
    else At(st.(pullOnce := st.pullOnce[ref := spare], onces := st.onces[spare := Once(ref, Fresh)]), c, Waiting(spare))
  }

  /** once.Do: the first caller runs the function, later ones return at once. */
  function DoDo(st: State, c: CallId): State
    requires c in st.calls && st.calls[c].pc.Waiting? && st.calls[c].pc.o in st.onces
  {
    var o := st.calls[c].pc.o;
    if st.onces[o].phase == Fresh then At(SetOnce(st, o, Busy(c)), c, Pulling(o))
    else At(st, c, Confirming)
  }

  function DoPullEnds(st: State, c: CallId, ok: bool, arrived: bool): State
    requires c in st.calls && st.calls[c].pc.Pulling?
  {
    var x := st.calls[c];
    var st1 := st.(present := if arrived then st.present + {x.ref} else st.present, ended := st.ended + {x.ref});
    if ok then At(st1.(landed := st1.landed + multiset{x.ref}), c, LeavingOk(x.pc.o))
    else At(st1, c, Dropping(x.pc.o))
  }

  function DoLeave(st: State, c: CallId): State
    requires c in st.calls && (st.calls[c].pc.LeavingErr? || st.calls[c].pc.LeavingOk?) && st.calls[c].pc.o in st.onces
  {
    var pc := st.calls[c].pc;
    At(SetOnce(st, pc.o, Spent), c, if pc.LeavingOk? then Confirming else Returned(false))
  }

  function DoStep(pullImages: bool, st: State, c: CallId, s: Step): State
    requires c in st.calls && StepEnabled(st, st.calls[c], s)
  {
    var x := st.calls[c];
    match s
    case LookInCache => At(st, c, if x.ref in st.ready then Returned(true) else Inspecting)
    case Inspect(ok) => At(st, c, if ok then Publishing else if pullImages then Loading else Returned(false))
    case LoadOrStore(spare) => DoLoadOrStore(st, c, spare)
    case Do => DoDo(st, c)
    case PullEnds(ok, arrived) => DoPullEnds(st, c, ok, arrived)
    case Delete => At(st.(pullOnce := st.pullOnce - {x.ref}), c, LeavingErr(x.pc.o))
    case Leave => DoLeave(st, c)
    case Confirm(ok) => At(st, c, if ok then Publishing else Returned(false))
    case Publish => At(st.(ready := st.ready + {x.ref}), c, Returned(true))
  }

  function Apply(pullImages: bool, st: State, a: Action): State
    requires Enabled(st, a)
  {
    match a
    case Appear(ref) => st.(present := st.present + {ref})
    case Enter(c, ref) => st.(calls := st.calls[c := Call(ref, Start)])
    case Go(c, s) => DoStep(pullImages, st, c, s)
  }

  /** States joined by enabled actions. */
  ghost predicate IsPath(pullImages: bool, run: seq<State>, actions: seq<Action>) {
    && |run| == |actions| + 1
    && forall i :: 0 <= i < |actions| ==> Enabled(run[i], actions[i]) && run[i + 1] == Apply(pullImages, run[i], actions[i])
  }

  /** A path from the start of the process, with some images already on the daemon. */
  ghost predicate IsRun(pullImages: bool, run: seq<State>, actions: seq<Action>) {
    && IsPath(pullImages, run, actions)
    && run[0] == Init(run[0].present)
  }

  // ---------------------------------------------------------------- invariant

  /** The call is inside the function passed to `o.Do`. */
  predicate Runs(pc: Pc, o: OnceId) {
    pc == Pulling(o) || pc == Dropping(o) || pc == LeavingErr(o) || pc == LeavingOk(o)
  }

  predicate InsideDo(pc: Pc) {
    pc.Pulling? || pc.Dropping? || pc.LeavingErr? || pc.LeavingOk?
  }

  predicate Registered(st: State, o: OnceId) {
    o in st.onces && st.onces[o].ref in st.pullOnce && st.pullOnce[st.onces[o].ref] == o
  }

  predicate OnceOk(st: State, o: OnceId)
    requires o in st.onces
  {
    var x := st.onces[o];
    match x.phase
    case Fresh => Registered(st, o) && st.landed[x.ref] == 0
    case Busy(c) =>
      && c in st.calls && st.calls[c].ref == x.ref && Runs(st.calls[c].pc, o)
      && (if st.calls[c].pc.LeavingErr? then !Registered(st, o) else Registered(st, o))
      && (st.calls[c].pc.LeavingOk? ==> st.landed[x.ref] == 1)
      && (st.calls[c].pc.Pulling? || st.calls[c].pc.Dropping? ==> st.landed[x.ref] == 0)
      && (!st.calls[c].pc.Pulling? ==> x.ref in st.ended)
    case Spent => x.ref in st.ended && (Registered(st, o) ==> st.landed[x.ref] == 1)
  }

  predicate CallOk(pullImages: bool, st: State, c: CallId)
    requires c in st.calls
  {
    var x := st.calls[c];
    && (x.pc.Waiting? ==> x.pc.o in st.onces && st.onces[x.pc.o].ref == x.ref)
    && (InsideDo(x.pc) ==> x.pc.o in st.onces && st.onces[x.pc.o] == Once(x.ref, Busy(c)))
    && (x.pc == Publishing ==> x.ref in st.present)
    && (x.pc == Returned(true) ==> x.ref in st.ready && x.ref in st.present)
    && (x.pc == Loading || x.pc.Waiting? || InsideDo(x.pc) || x.pc == Confirming ==> pullImages)
  }

  predicate RefOk(st: State, ref: Ref) {
    && (ref in st.ready ==> ref in st.present)
    && (ref in st.pullOnce ==> st.pullOnce[ref] in st.onces && st.onces[st.pullOnce[ref]].ref == ref)
    && (st.landed[ref] > 0 ==> st.landed[ref] == 1 && ref in st.pullOnce)
  }

  ghost predicate Inv(pullImages: bool, st: State) {
    && (forall o :: o in st.onces ==> OnceOk(st, o))
    && (forall c :: c in st.calls ==> CallOk(pullImages, st, c))
    && (forall ref :: RefOk(st, ref))
  }

  lemma InitInv(pullImages: bool, present: set<Ref>)
    ensures Inv(pullImages, Init(present))
  {
  }

  lemma KeepsRefs(st: State, st': State)
    requires forall ref :: RefOk(st, ref)
    requires forall ref :: RefOk(st, ref) ==> RefOk(st', ref)
    ensures forall ref :: RefOk(st', ref)
  {
    forall ref
      ensures RefOk(st', ref)
    {
      assert RefOk(st, ref);
    }
  }

  lemma KeepsDelete(pullImages: bool, st: State, c: CallId)
    requires Inv(pullImages, st) && c in st.calls && st.calls[c].pc.Dropping?
    ensures Inv(pullImages, DoStep(pullImages, st, c, Delete))
  {
    assert CallOk(pullImages, st, c);
    assert OnceOk(st, st.calls[c].pc.o);
    KeepsRefs(st, DoStep(pullImages, st, c, Delete));
  }

  lemma KeepsPullEnds(pullImages: bool, st: State, c: CallId, ok: bool, arrived: bool)
    requires Inv(pullImages, st) && c in st.calls && st.calls[c].pc.Pulling?
    ensures Inv(pullImages, DoPullEnds(st, c, ok, arrived))
  {
    var st' := DoPullEnds(st, c, ok, arrived);
    assert CallOk(pullImages, st, c);
    assert OnceOk(st, st.calls[c].pc.o);
    forall o | o in st'.onces
      ensures OnceOk(st', o)
    {
      assert OnceOk(st, o);
    }
    KeepsRefs(st, st');
  }

  lemma KeepsDo(pullImages: bool, st: State, c: CallId)
    requires Inv(pullImages, st) && c in st.calls && StepEnabled(st, st.calls[c], Do)
    ensures Inv(pullImages, DoDo(st, c))
  {
    assert CallOk(pullImages, st, c);
    assert OnceOk(st, st.calls[c].pc.o);
    KeepsRefs(st, DoDo(st, c));
  }

  lemma KeepsLoadOrStore(pullImages: bool, st: State, c: CallId, spare: OnceId)
    requires Inv(pullImages, st) && c in st.calls && st.calls[c].pc == Loading && spare !in st.onces
    ensures Inv(pullImages, DoLoadOrStore(st, c, spare))
  {
    assert CallOk(pullImages, st, c);
    assert RefOk(st, st.calls[c].ref);
    KeepsRefs(st, DoLoadOrStore(st, c, spare));
  }

  lemma KeepsLeave(pullImages: bool, st: State, c: CallId)
    requires Inv(pullImages, st) && c in st.calls && StepEnabled(st, st.calls[c], Leave)
    ensures Inv(pullImages, DoLeave(st, c))
  {
    assert CallOk(pullImages, st, c);
    assert OnceOk(st, st.calls[c].pc.o);
    KeepsRefs(st, DoLeave(st, c));
  }

  lemma KeepsPublish(pullImages: bool, st: State, c: CallId)
    requires Inv(pullImages, st) && c in st.calls && st.calls[c].pc == Publishing
    ensures Inv(pullImages, DoStep(pullImages, st, c, Publish))
  {
    assert CallOk(pullImages, st, c);
    KeepsRefs(st, DoStep(pullImages, st, c, Publish));
  }

  /** A call moves outside Do and changes no shared state. */
  lemma KeepsMove(pullImages: bool, st: State, c: CallId, pc: Pc)
    requires Inv(pullImages, st) && c in st.calls && !InsideDo(st.calls[c].pc) && !InsideDo(pc) && !pc.Waiting?
    requires CallOk(pullImages, At(st, c, pc), c)
    ensures Inv(pullImages, At(st, c, pc))
  {
    KeepsRefs(st, At(st, c, pc));
  }

  lemma KeepsQuiet(pullImages: bool, st: State, c: CallId, s: Step)
    requires Inv(pullImages, st) && c in st.calls && StepEnabled(st, st.calls[c], s)
    requires s == LookInCache || s.Inspect? || s.Confirm?
    ensures Inv(pullImages, DoStep(pullImages, st, c, s))
  {
    assert CallOk(pullImages, st, c);
    assert RefOk(st, st.calls[c].ref);
    hide Inv;
    KeepsMove(pullImages, st, c, DoStep(pullImages, st, c, s).calls[c].pc);
  }

  lemma KeepsOutside(pullImages: bool, st: State, a: Action)
    requires Inv(pullImages, st) && Enabled(st, a) && !a.Go?
    ensures Inv(pullImages, Apply(pullImages, st, a))
  {
    KeepsRefs(st, Apply(pullImages, st, a));
  }

  lemma StepKeepsInv(pullImages: bool, st: State, a: Action)
    requires Inv(pullImages, st) && Enabled(st, a)
    ensures Inv(pullImages, Apply(pullImages, st, a))
  {
    if !a.Go? {
      KeepsOutside(pullImages, st, a);
    } else {
      match a.step
      case LoadOrStore(spare) => KeepsLoadOrStore(pullImages, st, a.c, spare);
      case Do => KeepsDo(pullImages, st, a.c);
      case PullEnds(ok, arrived) => KeepsPullEnds(pullImages, st, a.c, ok, arrived);
      case Delete => KeepsDelete(pullImages, st, a.c);
      case Leave => KeepsLeave(pullImages, st, a.c);
      case Publish => KeepsPublish(pullImages, st, a.c);
      case _ => KeepsQuiet(pullImages, st, a.c, a.step);
    }
  }

  lemma {:induction false} RunKeepsInv(pullImages: bool, run: seq<State>, actions: seq<Action>, i: nat)
    requires IsRun(pullImages, run, actions) && i < |run|
    ensures Inv(pullImages, run[i])
  {
    if i == 0 {
      InitInv(pullImages, run[0].present);
    } else {
      RunKeepsInv(pullImages, run, actions, i - 1);
      StepKeepsInv(pullImages, run[i - 1], actions[i - 1]);
    }
  }

  // ----------------------------------------------------------------- theorems

  /** Two goroutines inside the pull of one image are the same goroutine. */
  lemma OnePullAtATime(pullImages: bool, run: seq<State>, actions: seq<Action>, i: nat, c: CallId, d: CallId)
    requires IsRun(pullImages, run, actions) && i < |run|
    requires c in run[i].calls && d in run[i].calls && run[i].calls[c].ref == run[i].calls[d].ref
    requires run[i].calls[c].pc.Pulling? && run[i].calls[d].pc.Pulling?
    ensures c == d
  {
    var st := run[i];
    RunKeepsInv(pullImages, run, actions, i);
    assert CallOk(pullImages, st, c) && CallOk(pullImages, st, d);
    assert OnceOk(st, st.calls[c].pc.o) && OnceOk(st, st.calls[d].pc.o);
  }

  /** A pull of an image reports no error at most once per process. */
  lemma OneSuccessfulPull(pullImages: bool, run: seq<State>, actions: seq<Action>, i: nat, ref: Ref)
    requires IsRun(pullImages, run, actions) && i < |run|
    ensures run[i].landed[ref] <= 1
  {
    RunKeepsInv(pullImages, run, actions, i);
    assert RefOk(run[i], ref);
  }

  /** Delete names only the reference, yet what it removes is always the deleter's own Once. */
  lemma DeleteRemovesOwnOnce(pullImages: bool, run: seq<State>, actions: seq<Action>, i: nat, c: CallId)
    requires IsRun(pullImages, run, actions) && i < |run|
    requires c in run[i].calls && run[i].calls[c].pc.Dropping?
    ensures var x := run[i].calls[c]; x.ref in run[i].pullOnce && run[i].pullOnce[x.ref] == x.pc.o
  {
    RunKeepsInv(pullImages, run, actions, i);
    assert CallOk(pullImages, run[i], c);
    assert OnceOk(run[i], run[i].calls[c].pc.o);
  }

  /** A nil return means the image is there, and so does a cache entry. */
  lemma NilMeansPresent(pullImages: bool, run: seq<State>, actions: seq<Action>, i: nat)
    requires IsRun(pullImages, run, actions) && i < |run|
    ensures run[i].ready <= run[i].present
    ensures forall c :: c in run[i].calls && run[i].calls[c].pc == Returned(true) ==> run[i].calls[c].ref in run[i].present
  {
    RunKeepsInv(pullImages, run, actions, i);
    forall ref | ref in run[i].ready
      ensures ref in run[i].present
    {
      assert RefOk(run[i], ref);
    }
    forall c | c in run[i].calls && run[i].calls[c].pc == Returned(true)
      ensures run[i].calls[c].ref in run[i].present
    {
      assert CallOk(pullImages, run[i], c);
    }
  }

  /** Nobody is inside Do for the image, but for leaving it after an error. */
  ghost predicate NoPullOpen(st: State, ref: Ref) {
    forall d :: d in st.calls && st.calls[d].ref == ref ==>
      !st.calls[d].pc.Pulling? && !st.calls[d].pc.Dropping? && !st.calls[d].pc.LeavingOk?
  }

  /**
   When a failed pull is sticky. With no pull of the image open, the next caller to
   reach the Once is not blocked, and it starts a real pull if and only if no pull has
   reported success so far. So a pull that reported its error can always be repeated,
   and one that looked good never is, whether or not it brought the image.
   */
  lemma PullStartsIff(pullImages: bool, run: seq<State>, actions: seq<Action>, i: nat, c: CallId, spare: OnceId)
    requires IsRun(pullImages, run, actions) && i < |run|
    requires Enabled(run[i], Go(c, LoadOrStore(spare))) && NoPullOpen(run[i], run[i].calls[c].ref)
    ensures var st1 := Apply(pullImages, run[i], Go(c, LoadOrStore(spare)));
            && Enabled(st1, Go(c, Do))
            && (Apply(pullImages, st1, Go(c, Do)).calls[c].pc.Pulling? <==> run[i].landed[run[i].calls[c].ref] == 0)
  {
    var st := run[i];
    RunKeepsInv(pullImages, run, actions, i);
    var ref := st.calls[c].ref;
    assert RefOk(st, ref);
    if ref in st.pullOnce {
      assert OnceOk(st, st.pullOnce[ref]);
    }
  }

  lemma GoodPullIsCounted(pullImages: bool, st: State, d: CallId)
    requires Inv(pullImages, st) && d in st.calls
    ensures st.calls[d].pc.LeavingOk? ==> st.landed[st.calls[d].ref] == 1
  {
    assert CallOk(pullImages, st, d);
    if st.calls[d].pc.LeavingOk? {
      assert OnceOk(st, st.calls[d].pc.o);
    }
  }

  /** A pull that reported an error is not sticky: with none open and none that looked good, the next caller pulls. */
  lemma FailureIsNotSticky(
    pullImages: bool, run: seq<State>, actions: seq<Action>, i: nat, c: CallId, spare: OnceId)
    requires IsRun(pullImages, run, actions) && i < |run|
    requires Enabled(run[i], Go(c, LoadOrStore(spare)))
    requires run[i].landed[run[i].calls[c].ref] == 0
    requires forall d :: d in run[i].calls && run[i].calls[d].ref == run[i].calls[c].ref ==>
               !run[i].calls[d].pc.Pulling? && !run[i].calls[d].pc.Dropping?
    ensures var st1 := Apply(pullImages, run[i], Go(c, LoadOrStore(spare)));
            && Enabled(st1, Go(c, Do))
            && Apply(pullImages, st1, Go(c, Do)).calls[c].pc.Pulling?
  {
    var st := run[i];
    RunKeepsInv(pullImages, run, actions, i);
    forall d | d in st.calls && st.calls[d].ref == st.calls[c].ref
      ensures !st.calls[d].pc.LeavingOk?
    {
      GoodPullIsCounted(pullImages, st, d);
    }
    hide Inv, Apply;
    PullStartsIff(pullImages, run, actions, i, c, spare);
  }

  // ------------------------------------------------------ the failure that sticks

  /** A pull of the image looked good, the image is not there, and nobody is pulling it. */
  ghost predicate Stuck(st: State, ref: Ref) {
    && st.landed[ref] == 1 && ref !in st.present
    && forall d :: d in st.calls && st.calls[d].ref == ref ==> !InsideDo(st.calls[d].pc)
  }

  lemma StuckStays(pullImages: bool, st: State, a: Action, ref: Ref)
    requires Inv(pullImages, st) && Enabled(st, a) && a != Appear(ref) && Stuck(st, ref)
    ensures Stuck(Apply(pullImages, st, a), ref)
  {
    if a.Go? && st.calls[a.c].ref == ref && a.step == Do {
      assert CallOk(pullImages, st, a.c);
      assert OnceOk(st, st.calls[a.c].pc.o);
    }
  }

  /**
   From a stuck state on, and until something else brings the image, nobody ever pulls
   it again and no call for it returns nil; whoever waits for the Once passes it.
   */
  lemma {:induction false} StuckUntilItAppears(
    pullImages: bool, run: seq<State>, actions: seq<Action>, i: nat, j: nat, ref: Ref)
    requires IsRun(pullImages, run, actions) && i <= j < |run| && Stuck(run[i], ref)
    requires forall k :: i <= k < j ==> actions[k] != Appear(ref)
    ensures Stuck(run[j], ref)
    ensures forall c :: c in run[j].calls && run[j].calls[c].ref == ref ==>
              && !run[j].calls[c].pc.Pulling? && run[j].calls[c].pc != Returned(true)
              && (run[j].calls[c].pc.Waiting? ==> Enabled(run[j], Go(c, Do)))
    decreases j
  {
    hide Apply, Inv;
    if i < j {
      StuckUntilItAppears(pullImages, run, actions, i, j - 1, ref);
      RunKeepsInv(pullImages, run, actions, j - 1);
      StuckStays(pullImages, run[j - 1], actions[j - 1], ref);
    }
    RunKeepsInv(pullImages, run, actions, j);
    forall c | c in run[j].calls && run[j].calls[c].ref == ref
      ensures run[j].calls[c].pc != Returned(true)
      ensures run[j].calls[c].pc.Waiting? ==> Enabled(run[j], Go(c, Do))
    {
      StuckCall(pullImages, run[j], ref, c);
    }
  }

  lemma StuckCall(pullImages: bool, st: State, ref: Ref, c: CallId)
    requires Inv(pullImages, st) && Stuck(st, ref) && c in st.calls && st.calls[c].ref == ref
    ensures st.calls[c].pc != Returned(true)
    ensures st.calls[c].pc.Waiting? ==> Enabled(st, Go(c, Do))
  {
    assert CallOk(pullImages, st, c);
    if st.calls[c].pc.Waiting? {
      assert OnceOk(st, st.calls[c].pc.o);
    }
  }

  ghost predicate Reachable(pullImages: bool, st: State) {
    exists run, actions :: IsRun(pullImages, run, actions) && run[|run| - 1] == st
  }

  lemma ReachStep(pullImages: bool, st: State, a: Action)
    requires Reachable(pullImages, st) && Enabled(st, a)
    ensures Reachable(pullImages, Apply(pullImages, st, a))
  {
    hide Apply, Enabled;
    var run, actions :| IsRun(pullImages, run, actions) && run[|run| - 1] == st;
    var run', actions' := run + [Apply(pullImages, st, a)], actions + [a];
    forall k | 0 <= k < |actions'|
      ensures Enabled(run'[k], actions'[k]) && run'[k + 1] == Apply(pullImages, run'[k], actions'[k])
    {
      if k < |actions| {
        assert Enabled(run[k], actions[k]) && run[k + 1] == Apply(pullImages, run[k], actions[k]);
      }
    }
    assert IsRun(pullImages, run', actions');
  }

  /** One caller at `pc` with its Once, all alone. */
  function Alone(present: set<Ref>, ref: Ref, phase: OncePhase, pc: Pc, landed: multiset<Ref>, ended: set<Ref>): State {
    State(present, {}, map[ref := 0], map[0 := Once(ref, phase)], map[0 := Call(ref, pc)], landed, ended)
  }

  lemma ReachesThePull(present: set<Ref>, ref: Ref)
    ensures Reachable(true, Alone(present, ref, Busy(0), Pulling(0), multiset{}, {}))
  {
    var s0 := Init(present);
    assert IsRun(true, [s0], []);
    var s1 := s0.(calls := map[0 := Call(ref, Start)]);
    ReachStep(true, s0, Enter(0, ref));
    var s2 := s0.(calls := map[0 := Call(ref, Inspecting)]);
    ReachStep(true, s1, Go(0, LookInCache));
    var s3 := s0.(calls := map[0 := Call(ref, Loading)]);
    ReachStep(true, s2, Go(0, Inspect(false)));
    var s4 := Alone(present, ref, Fresh, Waiting(0), multiset{}, {});
    ReachStep(true, s3, Go(0, LoadOrStore(0)));
    ReachStep(true, s4, Go(0, Do));
  }

  /** Stuck states are reachable for every image that is not there: by one pull whose error came in its stream. */
  lemma SilentFailureSticks(present: set<Ref>, ref: Ref)
    requires ref !in present
    ensures exists st :: Reachable(true, st) && Stuck(st, ref)
  {
    ReachesThePull(present, ref);
    var s5 := Alone(present, ref, Busy(0), Pulling(0), multiset{}, {});
    var s6 := Alone(present, ref, Busy(0), LeavingOk(0), multiset{ref}, {ref});
    ReachStep(true, s5, Go(0, PullEnds(true, false)));
    assert Apply(true, s5, Go(0, PullEnds(true, false))) == s6;
    ReachStep(true, s6, Go(0, Leave));
    assert Stuck(Apply(true, s6, Go(0, Leave)), ref);
  }

  /** A goroutine blocked in Do waits for a live runner of the same image that can move on. */
  lemma WaitersHaveALiveRunner(pullImages: bool, run: seq<State>, actions: seq<Action>, i: nat, c: CallId)
    requires IsRun(pullImages, run, actions) && i < |run|
    requires c in run[i].calls && run[i].calls[c].pc.Waiting? && !Enabled(run[i], Go(c, Do))
    ensures exists d, s :: && d in run[i].calls && run[i].calls[d].ref == run[i].calls[c].ref
                           && InsideDo(run[i].calls[d].pc) && Enabled(run[i], Go(d, s))
  {
    var st := run[i];
    RunKeepsInv(pullImages, run, actions, i);
    assert CallOk(pullImages, st, c);
    var o := st.calls[c].pc.o;
    assert OnceOk(st, o);
    var d := st.onces[o].phase.runner;
    assert CallOk(pullImages, st, d);
    var s := match st.calls[d].pc
      case Pulling(_) => PullEnds(true, true)
      case Dropping(_) => Delete
      case _ => Leave;
    assert Enabled(st, Go(d, s));
  }

  lemma {:induction false} CacheOnlyGrows(pullImages: bool, run: seq<State>, actions: seq<Action>, i: nat, j: nat)
    requires IsPath(pullImages, run, actions) && i <= j < |run|
    ensures run[i].ready <= run[j].ready
    decreases j
  {
    if i < j {
      CacheOnlyGrows(pullImages, run, actions, i, j - 1);
      assert run[j] == Apply(pullImages, run[j - 1], actions[j - 1]);
    }
  }

  /** Once a call returned nil, every later call for the image answers from the cache, without asking the daemon. */
  lemma NilFillsTheCache(pullImages: bool, run: seq<State>, actions: seq<Action>, i: nat, j: nat, c: CallId, d: CallId)
    requires IsRun(pullImages, run, actions) && i <= j < |actions|
    requires c in run[i].calls && run[i].calls[c].pc == Returned(true)
    requires d in run[j].calls && run[j].calls[d].ref == run[i].calls[c].ref
    requires actions[j] == Go(d, LookInCache)
    ensures d in run[j + 1].calls && run[j + 1].calls[d].pc == Returned(true)
  {
    RunKeepsInv(pullImages, run, actions, i);
    assert CallOk(pullImages, run[i], c);
    CacheOnlyGrows(pullImages, run, actions, i, j);
  }

  // --------------------------------------------------------------- refinement

  datatype SpecPc =
    | Asked
    | Missed                    // the first inspect did not find it
    | PullInProgress
    | Attempted(failed: bool)   // a pull is over; `failed` if it was one's own and failed
    | Answered(ok: bool)

  datatype SpecCall = SpecCall(ref: Ref, pc: SpecPc)

  /**
   Inspect-or-pull with no cache, no Once and no map: what callers are meant to see.
   A caller inspects; if that misses it pulls, or some pull has ended meanwhile; then
   it inspects again. It only answers yes when the image is there, and only no when
   pulling is off and its inspect missed, or after a pull.
   */
  datatype Spec = Spec(present: set<Ref>, calls: map<CallId, SpecCall>, landed: multiset<Ref>, ended: set<Ref>)

  predicate SpecAppear(s: Spec, s': Spec, ref: Ref) {
    s' == s.(present := s.present + {ref})
  }

  predicate SpecEnter(s: Spec, s': Spec, c: CallId, ref: Ref) {
    c !in s.calls && s' == s.(calls := s.calls[c := SpecCall(ref, Asked)])
  }

  function SpecMove(s: Spec, c: CallId, pc: SpecPc): Spec
    requires c in s.calls
  {
    s.(calls := s.calls[c := s.calls[c].(pc := pc)])
  }

  predicate SpecMiss(pullImages: bool, s: Spec, s': Spec, c: CallId) {
    pullImages && c in s.calls && s.calls[c].pc == Asked && s' == SpecMove(s, c, Missed)
  }

  predicate SpecBeginPull(s: Spec, s': Spec, c: CallId) {
    && c in s.calls && s.calls[c].pc == Missed
    && (forall d :: d in s.calls && s.calls[d].ref == s.calls[c].ref ==> s.calls[d].pc != PullInProgress)
    && s.landed[s.calls[c].ref] == 0
    && s' == SpecMove(s, c, PullInProgress)
  }

  /** Someone else's pull of the image is over. */
  predicate SpecShare(s: Spec, s': Spec, c: CallId) {
    && c in s.calls && s.calls[c].pc == Missed && s.calls[c].ref in s.ended
    && s' == SpecMove(s, c, Attempted(false))
  }

  predicate SpecEndPull(s: Spec, s': Spec, c: CallId, ok: bool, arrived: bool) {
    && c in s.calls && s.calls[c].pc == PullInProgress
    && var ref := s.calls[c].ref;
       s' == SpecMove(s, c, Attempted(!ok)).(
               present := if arrived then s.present + {ref} else s.present,
               landed := if ok then s.landed + multiset{ref} else s.landed,
               ended := s.ended + {ref})
  }

  predicate SpecAnswer(pullImages: bool, s: Spec, s': Spec, c: CallId, ok: bool) {
    && c in s.calls
    && (if ok then s.calls[c].ref in s.present && (s.calls[c].pc == Asked || s.calls[c].pc == Attempted(false))
        else s.calls[c].pc.Attempted? || (!pullImages && s.calls[c].pc == Asked))
    && s' == SpecMove(s, c, Answered(ok))
  }

  ghost predicate SpecNext(pullImages: bool, s: Spec, s': Spec) {
    || s' == s
    || (exists ref :: SpecAppear(s, s', ref))
    || (exists c, ref :: SpecEnter(s, s', c, ref))
    || (exists c :: SpecMiss(pullImages, s, s', c))
    || (exists c :: SpecBeginPull(s, s', c))
    || (exists c :: SpecShare(s, s', c))
    || (exists c, ok, arrived :: SpecEndPull(s, s', c, ok, arrived))
    || (exists c, ok :: SpecAnswer(pullImages, s, s', c, ok))
  }

  function AbsPc(pc: Pc): SpecPc {
    match pc
    case Start => Asked
    case Inspecting => Asked
    case Loading => Missed
    case Waiting(_) => Missed
    case Pulling(_) => PullInProgress
    case Dropping(_) => Attempted(true)
    case LeavingErr(_) => Attempted(true)
    case LeavingOk(_) => Attempted(false)
    case Confirming => Attempted(false)
    case Publishing => Answered(true)
    case Returned(ok) => Answered(ok)
  }

  function Abs(st: State): Spec {
    Spec(st.present, map c | c in st.calls :: SpecCall(st.calls[c].ref, AbsPc(st.calls[c].pc)), st.landed, st.ended)
  }

  lemma PullersAreRegistered(pullImages: bool, st: State, d: CallId)
    requires Inv(pullImages, st) && d in st.calls
    ensures st.calls[d].pc.Pulling? ==>
              var o := st.calls[d].pc.o; Registered(st, o) && st.onces[o] == Once(st.calls[d].ref, Busy(d))
  {
    assert CallOk(pullImages, st, d);
    if st.calls[d].pc.Pulling? {
      assert OnceOk(st, st.calls[d].pc.o);
    }
  }

  /** Before a Once is used nobody is pulling its image, and no pull of it looked good. */
  lemma FreshMeansUnpulled(pullImages: bool, st: State, o: OnceId)
    requires Inv(pullImages, st) && o in st.onces && st.onces[o].phase == Fresh
    ensures st.landed[st.onces[o].ref] == 0
    ensures forall d :: d in st.calls && st.calls[d].ref == st.onces[o].ref ==> !st.calls[d].pc.Pulling?
  {
    assert OnceOk(st, o);
    forall d | d in st.calls && st.calls[d].ref == st.onces[o].ref
      ensures !st.calls[d].pc.Pulling?
    {
      PullersAreRegistered(pullImages, st, d);
    }
  }

  lemma BeginRefines(pullImages: bool, st: State, c: CallId)
    requires c in st.calls && StepEnabled(st, st.calls[c], Do) && st.onces[st.calls[c].pc.o].phase == Fresh
    requires st.landed[st.calls[c].ref] == 0
    requires forall d :: d in st.calls && st.calls[d].ref == st.calls[c].ref ==> !st.calls[d].pc.Pulling?
    ensures SpecNext(pullImages, Abs(st), Abs(DoDo(st, c)))
  {
    var s, s' := Abs(st), Abs(DoDo(st, c));
    assert s'.calls == SpecMove(s, c, PullInProgress).calls;
    assert SpecBeginPull(s, s', c);
  }

  lemma ShareRefines(pullImages: bool, st: State, c: CallId)
    requires c in st.calls && StepEnabled(st, st.calls[c], Do) && st.onces[st.calls[c].pc.o].phase != Fresh
    requires st.calls[c].ref in st.ended
    ensures SpecNext(pullImages, Abs(st), Abs(DoDo(st, c)))
  {
    var s, s' := Abs(st), Abs(DoDo(st, c));
    assert s'.calls == SpecMove(s, c, Attempted(false)).calls;
    assert SpecShare(s, s', c);
  }

  lemma DoRefines(pullImages: bool, st: State, c: CallId)
    requires Inv(pullImages, st) && c in st.calls && StepEnabled(st, st.calls[c], Do)
    ensures SpecNext(pullImages, Abs(st), Abs(DoDo(st, c)))
  {
    hide SpecNext, Abs;
    assert CallOk(pullImages, st, c);
    var o := st.calls[c].pc.o;
    assert OnceOk(st, o);
    if st.onces[o].phase == Fresh {
      FreshMeansUnpulled(pullImages, st, o);
      BeginRefines(pullImages, st, c);
    } else {
      ShareRefines(pullImages, st, c);
    }
  }

  lemma PullEndRefines(pullImages: bool, st: State, c: CallId, ok: bool, arrived: bool)
    requires c in st.calls && st.calls[c].pc.Pulling?
    ensures SpecNext(pullImages, Abs(st), Abs(DoPullEnds(st, c, ok, arrived)))
  {
    var s, s' := Abs(st), Abs(DoPullEnds(st, c, ok, arrived));
    assert s'.calls == SpecMove(s, c, Attempted(!ok)).calls;
    assert SpecEndPull(s, s', c, ok, arrived);
  }

  /** One call moves and nothing else that callers can see changes. */
  predicate OneMoves(st: State, st': State, c: CallId) {
    && c in st.calls && c in st'.calls
    && st'.calls == st.calls[c := st'.calls[c]] && st'.calls[c].ref == st.calls[c].ref
    && st'.present == st.present && st'.landed == st.landed && st'.ended == st.ended
  }

  /** The moves of the specification that touch only the call itself, staying put included. */
  predicate QuietMove(pullImages: bool, st: State, st': State, c: CallId) {
    && OneMoves(st, st', c)
    && var from, to := AbsPc(st.calls[c].pc), AbsPc(st'.calls[c].pc);
       || from == to
       || (from == Asked && to == Missed && pullImages)
       || (to == Answered(true) && (from == Asked || from == Attempted(false)) && st.calls[c].ref in st.present)
       || (to == Answered(false) && (from.Attempted? || (from == Asked && !pullImages)))
  }

  lemma QuietMoveRefines(pullImages: bool, st: State, st': State, c: CallId)
    requires QuietMove(pullImages, st, st', c)
    ensures SpecNext(pullImages, Abs(st), Abs(st'))
  {
    var from, to := AbsPc(st.calls[c].pc), AbsPc(st'.calls[c].pc);
    assert Abs(st') == SpecMove(Abs(st), c, to);
    if from == to {
      assert Abs(st') == Abs(st);
    } else if to == Missed {
      assert SpecMiss(pullImages, Abs(st), Abs(st'), c);
    } else {
      assert SpecAnswer(pullImages, Abs(st), Abs(st'), c, to.ok);
    }
  }

  lemma OnceStepsAreQuiet(pullImages: bool, st: State, c: CallId, s: Step)
    requires Inv(pullImages, st) && Enabled(st, Go(c, s)) && (s.LoadOrStore? || s == Leave || s == Delete)
    ensures QuietMove(pullImages, st, DoStep(pullImages, st, c, s), c)
  {
  }

  lemma OtherStepsAreQuiet(pullImages: bool, st: State, c: CallId, s: Step)
    requires Inv(pullImages, st) && Enabled(st, Go(c, s))
    requires s == LookInCache || s.Inspect? || s.Confirm? || s == Publish
    ensures QuietMove(pullImages, st, DoStep(pullImages, st, c, s), c)
  {
    assert CallOk(pullImages, st, c);
    assert RefOk(st, st.calls[c].ref);
    hide Inv;
  }

  lemma GoRefines(pullImages: bool, st: State, c: CallId, s: Step)
    requires Inv(pullImages, st) && Enabled(st, Go(c, s))
    ensures SpecNext(pullImages, Abs(st), Abs(DoStep(pullImages, st, c, s)))
  {
    hide Inv, SpecNext, Abs, QuietMove;
    if s == Do {
      DoRefines(pullImages, st, c);
    } else if s.PullEnds? {
      PullEndRefines(pullImages, st, c, s.ok, s.arrived);
    } else {
      if s.LoadOrStore? || s == Leave || s == Delete {
        OnceStepsAreQuiet(pullImages, st, c, s);
      } else {
        OtherStepsAreQuiet(pullImages, st, c, s);
      }
      QuietMoveRefines(pullImages, st, DoStep(pullImages, st, c, s), c);
    }
  }

  /** ensureImage refines inspect-or-pull: each step of a run is a step of the specification. */
  lemma EnsureImageRefinesSpec(pullImages: bool, run: seq<State>, actions: seq<Action>, i: nat)
    requires IsRun(pullImages, run, actions) && i < |actions|
    ensures SpecNext(pullImages, Abs(run[i]), Abs(run[i + 1]))
  {
    var st := run[i];
    RunKeepsInv(pullImages, run, actions, i);
    match actions[i]
    case Appear(ref) =>
      assert SpecAppear(Abs(st), Abs(run[i + 1]), ref);
    case Enter(c, ref) =>
      assert SpecEnter(Abs(st), Abs(run[i + 1]), c, ref);
    case Go(c, s) =>
      GoRefines(pullImages, st, c, s);
  }
}
