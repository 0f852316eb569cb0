/**
 ensureImage as the code has it, one goroutine's walk through the shared maps and
 the daemon while other goroutines run in between. As in Worker, the contract is
 that the history it makes is a path of the ImagePull machine.
 */
module EnsureImage {
  import opened Prelude
  import opened ImagePull
  import opened ImageCalls

  /** How the daemon answers this call, and what other goroutines try to do before each of its steps. */
  datatype Fate = Fate(firstInspect: bool, pullOk: bool, arrived: bool, secondInspect: bool, others: nat -> seq<Action>)

  /** In state `st` the step is the one this fate calls for; an inspect says yes iff the image is there and the daemon answers. */
  predicate Fits(st: State, ref: Ref, s: Step, fate: Fate) {
    match s
    case Inspect(ok) => ok <==> fate.firstInspect && ref in st.present
    case Confirm(ok) => ok <==> fate.secondInspect && ref in st.present
    case PullEnds(ok, arrived) => ok == fate.pullOk && arrived == fate.arrived
    case _ => true
  }

  /** From action `k` on, `c` did only what its fate calls for. */
  ghost predicate Obeys(k: nat, run: seq<State>, actions: seq<Action>, c: CallId, ref: Ref, fate: Fate) {
    && |run| == |actions| + 1
    && forall i :: k <= i < |actions| && actions[i].Go? && actions[i].c == c ==> Fits(run[i], ref, actions[i].step, fate)
  }

  /** From action `k` on, `c` did nothing. */
  ghost predicate Rests(k: nat, actions: seq<Action>, c: CallId) {
    forall i :: k <= i < |actions| && actions[i].Go? ==> actions[i].c != c
  }

  /** After others had moved, `c` took one step. */
  lemma ObeysStep(k: nat, run: seq<State>, actions: seq<Action>, c: CallId, ref: Ref, s: Step, fate: Fate)
    requires |run| == |actions| + 1 && 0 < |actions| && actions[|actions| - 1] == Go(c, s)
    requires Rests(k, actions[..|actions| - 1], c) && Fits(run[|actions| - 1], ref, s, fate)
    ensures Obeys(k, run, actions, c, ref, fate)
  {
    assert forall i :: 0 <= i < |actions| - 1 ==> actions[..|actions| - 1][i] == actions[i];
  }

  lemma RestsObeys(k: nat, run: seq<State>, actions: seq<Action>, c: CallId, ref: Ref, fate: Fate)
    requires |run| == |actions| + 1 && Rests(k, actions, c)
    ensures Obeys(k, run, actions, c, ref, fate)
  {
  }

  lemma ObeysTrans(
    k: nat, run: seq<State>, actions: seq<Action>, run': seq<State>, actions': seq<Action>, c: CallId, ref: Ref, fate: Fate)
    requires Obeys(k, run, actions, c, ref, fate) && Obeys(|actions|, run', actions', c, ref, fate)
    requires run <= run' && actions <= actions'
    ensures Obeys(k, run', actions', c, ref, fate)
  {
    forall i | k <= i < |actions'| && actions'[i].Go? && actions'[i].c == c
      ensures Fits(run'[i], ref, actions'[i].step, fate)
    {
      if i < |actions| {
        assert run'[i] == run[i] && actions'[i] == actions[i];
      }
    }
  }

  class Executor {
    const pullImages: bool
    var present: set<Ref>
    var imageReady: set<Ref>
    var pullOnce: map<Ref, OnceId>
    var onces: map<OnceId, Once>
    var calls: map<CallId, Call>
    var landed: multiset<Ref>
    var ended: set<Ref>
    ghost var run: seq<State>
    ghost var actions: seq<Action>

    function St(): State
      reads this
    {
      State(present, imageReady, pullOnce, onces, calls, landed, ended)
    }

    ghost predicate Valid()
      reads this
    {
      && |run| == |actions| + 1 && IsPath(pullImages, run, actions) && run[0] == Init(run[0].present)
      && run[|run| - 1] == St()
    }

    constructor (pullImages: bool, present: set<Ref>)
      ensures Valid() && St() == Init(present) && this.pullImages == pullImages && run == [Init(present)]
    {
      this.pullImages, this.present := pullImages, present;
      imageReady, pullOnce, onces, calls, landed, ended := {}, map[], map[], map[], multiset{}, {};
      run, actions := [Init(present)], [];
    }

    /** The update just made was action `a`. */
    ghost method Log(a: Action)
      requires |run| == |actions| + 1 && IsPath(pullImages, run, actions) && run[0] == Init(run[0].present)
      requires Enabled(run[|run| - 1], a) && St() == Apply(pullImages, run[|run| - 1], a)
      modifies this`run, this`actions
      ensures Valid()
      ensures run == old(run) + [St()] && actions == old(actions) + [a]
    {
      run := run + [St()];
      actions := actions + [a];
    }

    method Install(st: State)
      modifies this`present, this`imageReady, this`pullOnce, this`onces, this`calls, this`landed, this`ended
      ensures St() == st
    {
      present, imageReady, pullOnce := st.present, st.ready, st.pullOnce;
      onces, calls, landed, ended := st.onces, st.calls, st.landed, st.ended;
    }

    /** Other goroutines move; call `c` stays where it is. */
    method Interfere(c: CallId, others: seq<Action>)
      requires Valid() && c in calls
      modifies this
      ensures Valid() && old(run) <= run && old(actions) <= actions && old(present) <= present
      ensures c in calls && calls[c] == old(calls[c])
      ensures Rests(|old(actions)|, actions, c) && TraceOf(actions, c) == TraceOf(old(actions), c)
    {
      hide IsPath, Enabled, Apply, TraceOf;
      var i := 0;
      while i < |others|
        invariant 0 <= i <= |others|
        invariant Valid() && old(run) <= run && old(actions) <= actions && old(present) <= present
        invariant c in calls && calls[c] == old(calls[c])
        invariant Rests(|old(actions)|, actions, c) && TraceOf(actions, c) == TraceOf(old(actions), c)
      {
        var a := others[i];
        if Enabled(St(), a) && !(a.Go? && a.c == c) {
          OthersStayAway(pullImages, St(), a, c);
          TraceSnoc(actions, a, c);
          Install(Apply(pullImages, St(), a));
          Log(a);
        }
        i := i + 1;
      }
    }

    method Stand(c: CallId, pc: Pc)
      requires c in calls
      modifies this`calls
      ensures St() == At(old(St()), c, pc)
    {
      calls := calls[c := calls[c].(pc := pc)];
    }

    /** The step just logged is all that `c` has done since action `k`. */
    ghost method Done(k: nat, c: CallId, s: Step, fate: Fate)
      requires |run| == |actions| + 1 && k < |actions| && actions[|actions| - 1] == Go(c, s) && c in calls
      requires Rests(k, actions[..|actions| - 1], c) && Fits(run[|actions| - 1], calls[c].ref, s, fate)
      ensures Obeys(k, run, actions, c, calls[c].ref, fate)
      ensures TraceOf(actions, c) == TraceOf(actions[..|actions| - 1], c) + [s]
    {
      ObeysStep(k, run, actions, c, calls[c].ref, s, fate);
      assert actions == actions[..|actions| - 1] + [actions[|actions| - 1]];
      TraceSnoc(actions[..|actions| - 1], actions[|actions| - 1], c);
    }

    /** imageReady.Load */
    method Cached(c: CallId, fate: Fate) returns (hit: bool)
      requires Valid() && c in calls && calls[c].pc == Start
      modifies this
      ensures Valid() && old(run) <= run && old(actions) <= actions && old(present) <= present && c in calls
      ensures Obeys(|old(actions)|, run, actions, c, calls[c].ref, fate)
      ensures TraceOf(actions, c) == TraceOf(old(actions), c) + [LookInCache]
      ensures calls[c] == old(calls[c]).(pc := if hit then Returned(true) else Inspecting)
      ensures hit <==> calls[c].ref in imageReady
    {
      hide IsPath, Obeys, TraceOf;
      Interfere(c, fate.others(0));
      hit := calls[c].ref in imageReady;
      Stand(c, if hit then Returned(true) else Inspecting);
      Log(Go(c, LookInCache));
      Done(|old(actions)|, c, LookInCache, fate);
    }

    /** ImageInspect, before or after a pull; it can only succeed when the image is there. */
    method InspectImage(c: CallId, fate: Fate) returns (ok: bool)
      requires Valid() && c in calls && (calls[c].pc == Inspecting || calls[c].pc == Confirming)
      modifies this
      ensures Valid() && old(run) <= run && old(actions) <= actions && old(present) <= present && c in calls
      ensures Obeys(|old(actions)|, run, actions, c, calls[c].ref, fate)
      ensures TraceOf(actions, c) == TraceOf(old(actions), c) + [if old(calls[c].pc) == Inspecting then Inspect(ok) else Confirm(ok)]
      ensures calls[c] == old(calls[c]).(pc :=
                if ok then Publishing
                else if old(calls[c].pc) == Inspecting && pullImages then Loading else Returned(false))
      ensures ok <==> (if old(calls[c].pc) == Inspecting then fate.firstInspect else fate.secondInspect) && calls[c].ref in present
    {
      hide IsPath, Obeys, TraceOf;
      Interfere(c, fate.others(if calls[c].pc == Inspecting then 1 else 8));
      var first := calls[c].pc == Inspecting;
      ok := (if first then fate.firstInspect else fate.secondInspect) && calls[c].ref in present;
      Stand(c, if ok then Publishing else if first && pullImages then Loading else Returned(false));
      Log(Go(c, if first then Inspect(ok) else Confirm(ok)));
      Done(|old(actions)|, c, if first then Inspect(ok) else Confirm(ok), fate);
    }

    /** imageReady.Store and the nil return */
    method StoreReady(c: CallId, fate: Fate)
      requires Valid() && c in calls && calls[c].pc == Publishing
      modifies this
      ensures Valid() && old(run) <= run && old(actions) <= actions && old(present) <= present && c in calls
      ensures Obeys(|old(actions)|, run, actions, c, calls[c].ref, fate)
      ensures TraceOf(actions, c) == TraceOf(old(actions), c) + [Publish]
      ensures calls[c] == old(calls[c]).(pc := Returned(true))
    {
      hide IsPath, Obeys, TraceOf;
      Interfere(c, fate.others(2));
      imageReady := imageReady + {calls[c].ref};
      Stand(c, Returned(true));
      Log(Go(c, Publish));
      Done(|old(actions)|, c, Publish, fate);
    }

    /** pullOnce.LoadOrStore */
    method GetOnce(c: CallId, fate: Fate) returns (o: OnceId)
      requires Valid() && c in calls && calls[c].pc == Loading
      modifies this
      ensures Valid() && old(run) <= run && old(actions) <= actions && old(present) <= present && c in calls
      ensures Obeys(|old(actions)|, run, actions, c, calls[c].ref, fate)
      ensures exists spare :: TraceOf(actions, c) == TraceOf(old(actions), c) + [LoadOrStore(spare)]
      ensures calls[c] == old(calls[c]).(pc := Waiting(o))
    {
      hide IsPath, Obeys, TraceOf;
      Interfere(c, fate.others(3));
      var ref := calls[c].ref;
      ghost var some := UnusedId(onces.Keys);
      var spare: OnceId :| spare !in onces;
      if ref in pullOnce {
        o := pullOnce[ref];
      } else {
        o := spare;
        pullOnce := pullOnce[ref := o];
        onces := onces[o := Once(ref, Fresh)];
      }
      Stand(c, Waiting(o));
      Log(Go(c, LoadOrStore(spare)));
      Done(|old(actions)|, c, LoadOrStore(spare), fate);
    }

    /** Entry into once.Do: Some(true) runs the pull, Some(false) found it spent, None is still blocked. */
    method EnterDo(c: CallId, o: OnceId, fate: Fate) returns (entered: Option<bool>)
      requires Valid() && c in calls && calls[c].pc == Waiting(o)
      modifies this
      ensures Valid() && old(run) <= run && old(actions) <= actions && old(present) <= present && c in calls
      ensures Obeys(|old(actions)|, run, actions, c, calls[c].ref, fate)
      ensures TraceOf(actions, c) == TraceOf(old(actions), c) + if entered.Some? then [Do] else []
      ensures calls[c] == old(calls[c]).(pc :=
                if entered == Some(true) then Pulling(o) else if entered == Some(false) then Confirming else Waiting(o))
      ensures entered.None? ==> Blocked(c)
    {
      hide IsPath, Obeys, TraceOf;
      Interfere(c, fate.others(4));
      OnceExists(pullImages, run, actions, c);
      if onces[o].phase.Busy? {
        RestsObeys(|old(actions)|, run, actions, c, calls[c].ref, fate);
        return None;
      }
      var runs := UseOnce(c, o);
      Log(Go(c, Do));
      Done(|old(actions)|, c, Do, fate);
      return Some(runs);
    }

    /** Past the lock of once.Do: the first caller runs the function. */
    method UseOnce(c: CallId, o: OnceId) returns (first: bool)
      requires c in calls && calls[c].pc == Waiting(o) && o in onces
      modifies this`onces, this`calls
      ensures St() == DoDo(old(St()), c)
      ensures c in calls && calls[c] == old(calls[c]).(pc := if first then Pulling(o) else Confirming)
    {
      first := onces[o].phase == Fresh;
      if first {
        onces := onces[o := onces[o].(phase := Busy(c))];
      }
      Stand(c, if first then Pulling(o) else Confirming);
    }

    /** ImagePull and draining its stream. */
    method Pull(c: CallId, o: OnceId, fate: Fate)
      requires Valid() && c in calls && calls[c].pc == Pulling(o)
      modifies this
      ensures Valid() && old(run) <= run && old(actions) <= actions && old(present) <= present && c in calls
      ensures Obeys(|old(actions)|, run, actions, c, calls[c].ref, fate)
      ensures TraceOf(actions, c) == TraceOf(old(actions), c) + [PullEnds(fate.pullOk, fate.arrived)]
      ensures calls[c] == old(calls[c]).(pc := if fate.pullOk then LeavingOk(o) else Dropping(o))
      ensures fate.arrived ==> calls[c].ref in present
    {
      hide IsPath, Obeys, TraceOf, DoPullEnds;
      Interfere(c, fate.others(5));
      DrainStream(c, o, fate.pullOk, fate.arrived);
      Log(Go(c, PullEnds(fate.pullOk, fate.arrived)));
      Done(|old(actions)|, c, PullEnds(fate.pullOk, fate.arrived), fate);
    }

    method DrainStream(c: CallId, o: OnceId, ok: bool, arrived: bool)
      requires c in calls && calls[c].pc == Pulling(o)
      modifies this`present, this`landed, this`ended, this`calls
      ensures St() == DoPullEnds(old(St()), c, ok, arrived)
      ensures old(present) <= present && (arrived ==> calls[c].ref in present)
      ensures c in calls && calls[c] == old(calls[c]).(pc := if ok then LeavingOk(o) else Dropping(o))
    {
      var ref := calls[c].ref;
      if arrived {
        present := present + {ref};
      }
      if ok {
        landed := landed + multiset{ref};
      }
      ended := ended + {ref};
      Stand(c, if ok then LeavingOk(o) else Dropping(o));
    }

    /** pullOnce.Delete after a failed pull: by reference, not by identity. */
    method Forget(c: CallId, o: OnceId, fate: Fate)
      requires Valid() && c in calls && calls[c].pc == Dropping(o)
      modifies this
      ensures Valid() && old(run) <= run && old(actions) <= actions && old(present) <= present && c in calls
      ensures Obeys(|old(actions)|, run, actions, c, calls[c].ref, fate)
      ensures TraceOf(actions, c) == TraceOf(old(actions), c) + [Delete]
      ensures calls[c] == old(calls[c]).(pc := LeavingErr(o))
    {
      hide IsPath, Obeys, TraceOf;
      Interfere(c, fate.others(6));
      pullOnce := pullOnce - {calls[c].ref};
      Stand(c, LeavingErr(o));
      Log(Go(c, Delete));
      Done(|old(actions)|, c, Delete, fate);
    }

    /** The function given to Do returns; the Once is spent. */
    method LeaveDo(c: CallId, o: OnceId, fate: Fate)
      requires Valid() && c in calls && (calls[c].pc == LeavingOk(o) || calls[c].pc == LeavingErr(o))
      modifies this
      ensures Valid() && old(run) <= run && old(actions) <= actions && old(present) <= present && c in calls
      ensures Obeys(|old(actions)|, run, actions, c, calls[c].ref, fate)
      ensures TraceOf(actions, c) == TraceOf(old(actions), c) + [Leave]
      ensures calls[c] == old(calls[c]).(pc := if old(calls[c].pc).LeavingOk? then Confirming else Returned(false))
    {
      hide IsPath, Obeys, TraceOf;
      Interfere(c, fate.others(7));
      OnceExists(pullImages, run, actions, c);
      onces := onces[o := onces[o].(phase := Spent)];
      Stand(c, if calls[c].pc.LeavingOk? then Confirming else Returned(false));
      Log(Go(c, Leave));
      Done(|old(actions)|, c, Leave, fate);
    }

    /** The call is inside once.Do and another goroutine is running the pull. */
    predicate Blocked(c: CallId)
      reads this
    {
      && c in calls && calls[c].pc.Waiting?
      && calls[c].pc.o in onces && onces[calls[c].pc.o].phase.Busy? && onces[calls[c].pc.o].phase.runner != c
    }

    /**
     ensureImage. The result is whether it returned nil, which means that the image is
     present; None means that the schedule ended while the call was blocked in Do behind
     another goroutine's pull. What the call did is one of the ways through the code,
     with the answers its fate dealt it. In particular an image that is there from the
     start, with a daemon that answers, is accepted without anything like a pull.
     */
    method Ensure(c: CallId, ref: Ref, fate: Fate) returns (r: Option<bool>)
      requires Valid() && c !in calls
      modifies this
      ensures Valid() && old(run) <= run && old(actions) <= actions
      ensures c in calls && calls[c].ref == ref
      ensures Obeys(|old(actions)|, run, actions, c, ref, fate)
      ensures r.Some? ==> calls[c].pc == Returned(r.value) && Exits(pullImages, TraceOf(actions, c), r.value)
      ensures r.None? ==> Blocked(c) && HasOnce(TraceOf(actions, c))
      ensures r == Some(true) ==> ref in present && ref in imageReady
      ensures ref in old(present) && fate.firstInspect ==> r == Some(true) && |TraceOf(actions, c)| <= 3
      ensures ref in old(present) && fate.secondInspect && fate.pullOk && pullImages && r.Some? ==> r == Some(true)
    {
      NothingYet(c);
      calls := calls[c := Call(ref, Start)];
      Log(Enter(c, ref));
      TraceSnoc(old(actions), Enter(c, ref), c);
      hide IsPath, Obeys, TraceOf, Exits;
      ghost var mid, early := actions, run;
      assert Obeys(|old(actions)|, run, actions, c, ref, fate) by {
        NotYet(|old(actions)|, run, actions, c, ref, fate);
      }
      r := Walk(c, fate);
      ObeysTrans(|old(actions)|, early, mid, run, actions, c, ref, fate);
      FollowedTheCode(c);
      if r == Some(true) {
        NilIsReady(pullImages, run, actions, c);
      }
    }

    /** A call that has not been entered has done nothing. */
    ghost method NothingYet(c: CallId)
      requires Valid()
      ensures c !in calls ==> TraceOf(actions, c) == []
    {
      CallsFollowTheCode(pullImages, run, actions, |actions|, c);
      assert actions[..|actions|] == actions;
    }

    ghost method FollowedTheCode(c: CallId)
      requires Valid() && c in calls
      ensures CameBy(pullImages, calls[c].pc, TraceOf(actions, c))
    {
      CallsFollowTheCode(pullImages, run, actions, |actions|, c);
      assert actions[..|actions|] == actions;
    }

    method Walk(c: CallId, fate: Fate) returns (r: Option<bool>)
      requires Valid() && c in calls && calls[c].pc == Start && TraceOf(actions, c) == []
      modifies this
      ensures Valid() && old(run) <= run && old(actions) <= actions && old(present) <= present
      ensures c in calls && calls[c].ref == old(calls[c].ref) && (r.Some? ==> calls[c].pc == Returned(r.value))
      ensures Obeys(|old(actions)|, run, actions, c, calls[c].ref, fate)
      ensures r.None? ==> Blocked(c)
      ensures calls[c].ref in old(present) && fate.firstInspect ==> r == Some(true) && |TraceOf(actions, c)| <= 3
      ensures calls[c].ref in old(present) && fate.secondInspect && fate.pullOk && pullImages && r.Some? ==> r == Some(true)
    {
      hide IsPath, Obeys, TraceOf;
      ghost var k := |actions|;
      var hit := Cached(c, fate);
      if hit {
        return Some(true);
      }
      ghost var mid, early := actions, run;
      var here := InspectImage(c, fate);
      ObeysTrans(k, early, mid, run, actions, c, calls[c].ref, fate);
      if here {
        mid, early := actions, run;
        StoreReady(c, fate);
        ObeysTrans(k, early, mid, run, actions, c, calls[c].ref, fate);
        return Some(true);
      }
      if !pullImages {
        return Some(false);
      }
      mid, early := actions, run;
      r := PullOrWait(c, fate);
      ObeysTrans(k, early, mid, run, actions, c, calls[c].ref, fate);
      if r != Some(true) {
        return;
      }
      r := ConfirmImage(c, k, fate);
    }

    /** The inspect after the pull, which decides. */
    method ConfirmImage(c: CallId, ghost k: nat, fate: Fate) returns (r: Option<bool>)
      requires Valid() && c in calls && calls[c].pc == Confirming && Obeys(k, run, actions, c, calls[c].ref, fate)
      modifies this
      ensures Valid() && old(run) <= run && old(actions) <= actions && old(present) <= present
      ensures c in calls && calls[c].ref == old(calls[c].ref) && r.Some? && calls[c].pc == Returned(r.value)
      ensures Obeys(k, run, actions, c, calls[c].ref, fate)
      ensures calls[c].ref in old(present) && fate.secondInspect ==> r == Some(true)
    {
      hide IsPath, Obeys, TraceOf;
      ghost var mid, early := actions, run;
      var landedNow := InspectImage(c, fate);
      ObeysTrans(k, early, mid, run, actions, c, calls[c].ref, fate);
      if !landedNow {
        return Some(false);
      }
      mid, early := actions, run;
      StoreReady(c, fate);
      ObeysTrans(k, early, mid, run, actions, c, calls[c].ref, fate);
      return Some(true);
    }

    /** The Once: run the pull or wait for whoever does. Some(true) means that nothing failed in here. */
    method PullOrWait(c: CallId, fate: Fate) returns (r: Option<bool>)
      requires Valid() && c in calls && calls[c].pc == Loading
      modifies this
      ensures Valid() && old(run) <= run && old(actions) <= actions && old(present) <= present
      ensures c in calls && calls[c].ref == old(calls[c].ref)
      ensures Obeys(|old(actions)|, run, actions, c, calls[c].ref, fate)
      ensures r.Some? ==> calls[c].pc == if r.value then Confirming else Returned(false)
      ensures r.None? ==> Blocked(c)
      ensures fate.pullOk ==> r != Some(false)
    {
      hide IsPath, Obeys, TraceOf;
      ghost var k := |actions|;
      var o := GetOnce(c, fate);
      ghost var mid, early := actions, run;
      var entered := EnterDo(c, o, fate);
      ObeysTrans(k, early, mid, run, actions, c, calls[c].ref, fate);
      if entered.None? {
        return None;
      }
      if !entered.value {
        return Some(true);
      }
      RunPull(c, o, k, fate);
      return Some(fate.pullOk);
    }

    /** The function given to Do. */
    method RunPull(c: CallId, o: OnceId, ghost k: nat, fate: Fate)
      requires Valid() && c in calls && calls[c].pc == Pulling(o) && Obeys(k, run, actions, c, calls[c].ref, fate)
      modifies this
      ensures Valid() && old(run) <= run && old(actions) <= actions && old(present) <= present
      ensures c in calls && calls[c].ref == old(calls[c].ref)
      ensures calls[c].pc == if fate.pullOk then Confirming else Returned(false)
      ensures Obeys(k, run, actions, c, calls[c].ref, fate)
    {
      hide IsPath, Obeys, TraceOf;
      ghost var mid, early := actions, run;
      Pull(c, o, fate);
      ObeysTrans(k, early, mid, run, actions, c, calls[c].ref, fate);
      if !fate.pullOk {
        mid, early := actions, run;
        Forget(c, o, fate);
        ObeysTrans(k, early, mid, run, actions, c, calls[c].ref, fate);
      }
      mid, early := actions, run;
      LeaveDo(c, o, fate);
      ObeysTrans(k, early, mid, run, actions, c, calls[c].ref, fate);
    }
  }

  lemma NotYet(k: nat, run: seq<State>, actions: seq<Action>, c: CallId, ref: Ref, fate: Fate)
    requires |run| == |actions| + 1 == k + 2 && !actions[k].Go?
    ensures Obeys(k, run, actions, c, ref, fate)
  {
  }

  /** A call at or inside Do has its Once, and runs it itself exactly if it is inside. */
  lemma OnceExists(pullImages: bool, run: seq<State>, actions: seq<Action>, c: CallId)
    requires |run| > 0 && IsPath(pullImages, run, actions) && run[0] == Init(run[0].present)
    requires var st := run[|run| - 1]; c in st.calls && (st.calls[c].pc.Waiting? || InsideDo(st.calls[c].pc))
    ensures var st := run[|run| - 1];
            var pc := st.calls[c].pc;
            && pc.o in st.onces
            && (pc.Waiting? ==> st.onces[pc.o].phase != Busy(c))
  {
    var st := run[|run| - 1];
    RunKeepsInv(pullImages, run, actions, |run| - 1);
    assert CallOk(pullImages, st, c);
    assert OnceOk(st, st.calls[c].pc.o);
  }

  lemma NilIsReady(pullImages: bool, run: seq<State>, actions: seq<Action>, c: CallId)
    requires |run| > 0 && IsPath(pullImages, run, actions) && run[0] == Init(run[0].present)
    requires var st := run[|run| - 1]; c in st.calls && st.calls[c].pc == Returned(true)
    ensures var st := run[|run| - 1]; st.calls[c].ref in st.present && st.calls[c].ref in st.ready
  {
    RunKeepsInv(pullImages, run, actions, |run| - 1);
    assert CallOk(pullImages, run[|run| - 1], c);
  }

  /** A step of another goroutine leaves call `c` where it is. */
  lemma OthersStayAway(pullImages: bool, st: State, a: Action, c: CallId)
    requires Enabled(st, a) && c in st.calls && !(a.Go? && a.c == c)
    ensures c in Apply(pullImages, st, a).calls && Apply(pullImages, st, a).calls[c] == st.calls[c]
    ensures st.present <= Apply(pullImages, st, a).present
  {
    if a.Go? {
      ImagesStay(pullImages, st, a.c, a.step);
      hide DoStep;
      StepMovesOneCall(pullImages, st, a.c, a.step);
    }
  }

  lemma ImagesStay(pullImages: bool, st: State, c: CallId, s: Step)
    requires c in st.calls && StepEnabled(st, st.calls[c], s)
    ensures st.present <= DoStep(pullImages, st, c, s).present
  {
  }
}
