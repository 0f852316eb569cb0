/**
 One call of ensureImage from the outside: the operations it does, in order, and the
 answer they lead to. ImagePull says the same one step at a time; here the whole
 paths of the function are written down, early returns included.
 */
module ImageCalls {
  import opened ImagePull

  /** What call `c` did in a history. */
  function TraceOf(actions: seq<Action>, c: CallId): seq<Step> {
    if actions == [] then []
    else
      var last := actions[|actions| - 1];
      TraceOf(actions[..|actions| - 1], c) + if last.Go? && last.c == c then [last.step] else []
  }

  lemma TraceSnoc(actions: seq<Action>, a: Action, c: CallId)
    ensures TraceOf(actions + [a], c) == TraceOf(actions, c) + if a.Go? && a.c == c then [a.step] else []
  {
    assert (actions + [a])[..|actions|] == actions;
  }

  /** It looked in the cache in vain, the inspect failed, and it went through LoadOrStore. */
  predicate HasOnce(t: seq<Step>) {
    |t| == 3 && t[0] == LookInCache && t[1] == Inspect(false) && t[2].LoadOrStore?
  }

  /** It has come to the confirming inspect, past its own pull or past somebody else's. */
  predicate PastDo(t: seq<Step>) {
    || (|t| == 4 && HasOnce(t[..3]) && t[3] == Do)
    || (|t| == 6 && HasOnce(t[..3]) && t[3] == Do && t[4].PullEnds? && t[4].ok && t[5] == Leave)
  }

  /** Its own pull reported an error. */
  predicate PullFailed(t: seq<Step>) {
    |t| == 5 && HasOnce(t[..3]) && t[3] == Do && t[4].PullEnds? && !t[4].ok
  }

  /** The ways through ensureImage and what each of them returns. */
  predicate Exits(pullImages: bool, t: seq<Step>, ok: bool) {
    || (ok && t == [LookInCache])                                            // cached
    || (ok && t == [LookInCache, Inspect(true), Publish])                    // there already
    || (!ok && t == [LookInCache, Inspect(false)] && !pullImages)            // may not be pulled
    || (!ok && |t| == 7 && PullFailed(t[..5]) && t[5] == Delete && t[6] == Leave && pullImages)
    || (!ok && |t| >= 1 && PastDo(t[..|t| - 1]) && t[|t| - 1] == Confirm(false) && pullImages)
    || (ok && |t| >= 2 && PastDo(t[..|t| - 2]) && t[|t| - 2] == Confirm(true) && t[|t| - 1] == Publish && pullImages)
  }

  /** How far a call at `pc` has come. */
  predicate CameBy(pullImages: bool, pc: Pc, t: seq<Step>) {
    match pc
    case Start => t == []
    case Inspecting => t == [LookInCache]
    case Loading => pullImages && t == [LookInCache, Inspect(false)]
    case Waiting(_) => pullImages && HasOnce(t)
    case Pulling(_) => pullImages && |t| == 4 && HasOnce(t[..3]) && t[3] == Do
    case Dropping(_) => pullImages && PullFailed(t)
    case LeavingErr(_) => pullImages && |t| == 6 && PullFailed(t[..5]) && t[5] == Delete
    case LeavingOk(_) => pullImages && |t| == 5 && HasOnce(t[..3]) && t[3] == Do && t[4].PullEnds? && t[4].ok
    case Confirming => pullImages && PastDo(t)
    case Publishing =>
      || t == [LookInCache, Inspect(true)]
      || (pullImages && |t| >= 1 && PastDo(t[..|t| - 1]) && t[|t| - 1] == Confirm(true))
    case Returned(ok) => Exits(pullImages, t, ok)
  }

  lemma StepComesBy(pullImages: bool, st: State, c: CallId, s: Step, t: seq<Step>)
    requires Enabled(st, Go(c, s)) && CameBy(pullImages, st.calls[c].pc, t)
    ensures CameBy(pullImages, DoStep(pullImages, st, c, s).calls[c].pc, t + [s])
  {
    assert (t + [s])[..|t|] == t;
    if |t| >= 1 {
      assert (t + [s])[..|t| - 1] == t[..|t| - 1];
    }
    if |t| >= 3 {
      assert (t + [s])[..3] == t[..3];
    }
    if |t| >= 5 {
      assert (t + [s])[..5] == t[..5];
    }
  }

  /** `t` is what the call has done, if there is such a call yet. */
  predicate Agrees(pullImages: bool, st: State, c: CallId, t: seq<Step>) {
    if c in st.calls then CameBy(pullImages, st.calls[c].pc, t) else t == []
  }

  lemma ActionAgrees(pullImages: bool, st: State, a: Action, c: CallId, t: seq<Step>)
    requires Enabled(st, a) && Agrees(pullImages, st, c, t)
    ensures Agrees(pullImages, Apply(pullImages, st, a), c, t + if a.Go? && a.c == c then [a.step] else [])
  {
    hide CameBy, DoStep;
    NothingDone(pullImages);
    assert t + [] == t;
    if a.Go? {
      StepMovesOneCall(pullImages, st, a.c, a.step);
      if a.c == c {
        StepComesBy(pullImages, st, c, a.step, t);
      }
    }
  }

  /** Every call follows the code: where it stands, and what it returned, is where its operations lead. */
  lemma {:induction false} CallsFollowTheCode(
    pullImages: bool, run: seq<State>, actions: seq<Action>, n: nat, c: CallId)
    requires IsRun(pullImages, run, actions) && n <= |actions|
    ensures Agrees(pullImages, run[n], c, TraceOf(actions[..n], c))
  {
    if n > 0 {
      hide Agrees, Apply, Enabled, TraceOf;
      CallsFollowTheCode(pullImages, run, actions, n - 1, c);
      var before, a := actions[..n - 1], actions[n - 1];
      assert actions[..n] == before + [a];
      TraceSnoc(before, a, c);
      assert Enabled(run[n - 1], a) && run[n - 1 + 1] == Apply(pullImages, run[n - 1], a);
      hide IsRun;
      ActionAgrees(pullImages, run[n - 1], a, c, TraceOf(before, c));
    }
  }

  lemma NothingDone(pullImages: bool)
    ensures CameBy(pullImages, Start, [])
  {
  }

  lemma StepMovesOneCall(pullImages: bool, st: State, c: CallId, s: Step)
    requires c in st.calls && StepEnabled(st, st.calls[c], s)
    ensures DoStep(pullImages, st, c, s).calls.Keys == st.calls.Keys
    ensures forall d :: d in st.calls && d != c ==> DoStep(pullImages, st, c, s).calls[d] == st.calls[d]
  {
  }
}
