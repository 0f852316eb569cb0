/**
 Supervising one container: the exit paths of Execute and runContainer, the
 requests they send to the daemon, and how long they can take.

 The daemon is an oracle: for every call it fixes whether the call succeeds and
 how long it would like to take. A call made under a context returns by that
 context's deadline at the latest.
 */
module Supervision {
  import opened Prelude
  import opened Outcomes
  import opened Capture
  import Markers
  import Submissions
  import Sandbox

  type Instant = int  // nanoseconds

  datatype Request =
    | CreateRequest
    | AttachRequest
    | StartRequest
    | WaitRequest
    | InspectRequest
    | KillRequest
    | RemoveRequest(force: bool)

  /** How the select over the wait channels and the context ends. */
  datatype WaitEvent =
    | Exited(status: int)  // waitCh
    | WaitFailed           // errCh, non-nil
    | WaitClosed           // errCh, nil
    | Expired              // ctx.Done()

  datatype Oracle = Oracle(
    nonceOk: bool,
    createOk: bool, createLost: bool, createTime: nat,  // createLost: reported as failed, and yet it happened
    attachOk: bool, attachTime: nat,
    startOk: bool, startTime: nat,
    wait: WaitEvent, waitTime: nat,
    streamTime: nat,
    inspectOk: bool, oomKilled: bool, inspectTime: nat,
    killTime: nat,
    removeOk: bool, removeTime: nat)

  /** What is to be run and what has come out of the stream by the time it is read. */
  datatype Job = Job(cfg: Limits, nonce: string, limit: int, frames: seq<Frame>)

  datatype Timeouts = Timeouts(compile: Duration, run: Duration)

  const SLACK: Duration := 30 * SECOND
  const STREAM_GRACE: Duration := 15 * SECOND
  const KILL_LIMIT: Duration := 10 * SECOND
  const REMOVE_LIMIT: Duration := 20 * SECOND
  const TASK_SLACK: Duration := 90 * SECOND

  function Budget(t: Timeouts): Duration {
    t.run + t.compile + SLACK
  }

  /** A call that would take `d` under a context that ends at `deadline`. */
  function Until(now: Instant, d: nat, deadline: Instant): (r: Instant)
    ensures now <= r <= Max(now, deadline)
  {
    Min(now + d, Max(now, deadline))
  }

  datatype Ending = NoContainer | NotAttached | NotStarted | WaitError | BudgetExceeded | Finished(status: int)

  /** Which path an execution takes. */
  function PathOf(o: Oracle): Ending {
    if !o.nonceOk || !o.createOk then NoContainer
    else if !o.attachOk then NotAttached
    else if !o.startOk then NotStarted
    else match o.wait
      case WaitFailed => WaitError
      case Expired => BudgetExceeded
      case Exited(s) => Finished(s)
      case WaitClosed => Finished(0)
  }

  /** The requests the daemon sees on each path. */
  function RequestsOf(o: Oracle): seq<Request> {
    match PathOf(o)
    case NoContainer => if o.nonceOk then [CreateRequest] else []
    case NotAttached => [CreateRequest, AttachRequest, RemoveRequest(true)]
    case NotStarted => [CreateRequest, AttachRequest, StartRequest, RemoveRequest(true)]
    case WaitError => [CreateRequest, AttachRequest, StartRequest, WaitRequest, RemoveRequest(true)]
    case BudgetExceeded => [CreateRequest, AttachRequest, StartRequest, WaitRequest, KillRequest, RemoveRequest(true)]
    case Finished(_) => [CreateRequest, AttachRequest, StartRequest, WaitRequest, InspectRequest, RemoveRequest(true)]
  }

  /** When runContainer returns, its context ending at `deadline`. */
  function RunEnd(now: Instant, deadline: Instant, o: Oracle): Instant {
    var attached := Until(now, o.attachTime, deadline);
    if !o.attachOk then attached
    else
      var started := Until(attached, o.startTime, deadline);
      if !o.startOk then started
      else if o.wait == Expired then
        var expired := Max(started, deadline);
        Until(expired, o.killTime, expired + KILL_LIMIT)
      else
        var exited := Until(started, o.waitTime, deadline);
        if o.wait == WaitFailed then exited
        else Until(exited + Min(o.streamTime, STREAM_GRACE), o.inspectTime, deadline)
  }

  /** The wall time runContainer measures: from just before the start request to the end of the wait. */
  function WallOf(now: Instant, deadline: Instant, o: Oracle): Duration {
    var attached := Until(now, o.attachTime, deadline);
    Until(Until(attached, o.startTime, deadline), o.waitTime, deadline) - attached
  }

  /** When Execute called at `now` has its container. */
  function CreatedAt(now: Instant, t: Timeouts, parent: Instant, o: Oracle): Instant {
    Until(now, o.createTime, Min(parent, now + Budget(t)))
  }

  function WallOfExecute(now: Instant, t: Timeouts, parent: Instant, o: Oracle): Duration {
    WallOf(CreatedAt(now, t, parent, o), Min(parent, now + Budget(t)), o)
  }

  /** When Execute, called at `now` with its image check done, returns. */
  function EndOf(now: Instant, t: Timeouts, parent: Instant, o: Oracle): Instant {
    if !o.nonceOk then now
    else
      var deadline := Min(parent, now + Budget(t));
      var created := Until(now, o.createTime, deadline);
      if !o.createOk then created
      else
        var ran := RunEnd(created, deadline, o);
        Until(ran, o.removeTime, ran + REMOVE_LIMIT)
  }

  /** What Execute reports: an outcome if the wait brought an exit, and otherwise only an error. */
  function Reported(wall: Duration, o: Oracle, job: Job): Option<Submissions.Outcome> {
    match PathOf(o)
    case Finished(status) =>
      Some(Sandbox.Report(job.cfg, job.nonce, job.frames, job.limit, status, wall, o.inspectOk && o.oomKilled))
    case _ => None
  }

  lemma CreateComesFirst(o: Oracle)
    requires o.nonceOk && o.createOk
    ensures RequestsOf(o) == [CreateRequest] + RequestsOf(o)[1..]
  {
  }

  /**
   A created container gets exactly one remove request, forced and last; without a
   container there is none. Only an exceeded budget sends a kill, and only an execution
   that finished inspects the container.
   */
  predicate CleansUp(rs: seq<Request>, o: Oracle) {
    && (o.nonceOk && o.createOk ==>
          && |rs| > 0 && rs[|rs| - 1] == RemoveRequest(true)
          && forall i :: 0 <= i < |rs| - 1 ==> !rs[i].RemoveRequest?)
    && (!(o.nonceOk && o.createOk) ==> forall i :: 0 <= i < |rs| ==> rs[i] == CreateRequest)
    && (KillRequest in rs <==> PathOf(o) == BudgetExceeded)
    && (InspectRequest in rs <==> PathOf(o).Finished?)
  }

  /**
   Output is attached to before the start, the wait is registered right after it, and
   what is left of the container is inspected, or it is killed, between wait and remove.
   */
  predicate InOrder(rs: seq<Request>) {
    forall i :: 0 <= i < |rs| ==>
      && (rs[i] == CreateRequest <==> i == 0)
      && (rs[i] == AttachRequest ==> i > 0 && rs[i - 1] == CreateRequest)
      && (rs[i] == StartRequest ==> i > 0 && rs[i - 1] == AttachRequest)
      && (rs[i] == WaitRequest ==> i > 0 && rs[i - 1] == StartRequest)
      && (rs[i] == InspectRequest || rs[i] == KillRequest ==>
            i > 0 && rs[i - 1] == WaitRequest && i + 2 == |rs| && rs[i + 1].RemoveRequest?)
  }

  lemma EveryContainerIsRemovedOnce(o: Oracle)
    ensures CleansUp(RequestsOf(o), o)
  {
  }

  lemma WaitFollowsStart(o: Oracle)
    ensures InOrder(RequestsOf(o))
  {
  }

  class Engine {
    var now: Instant
    var requests: seq<Request>

    constructor (now: Instant)
      ensures this.now == now && requests == []
    {
      this.now, requests := now, [];
    }

    /** One daemon call under a context. */
    method Call(r: Request, d: nat, deadline: Instant)
      modifies this
      ensures now == Until(old(now), d, deadline)
      ensures requests == old(requests) + [r]
    {
      requests := requests + [r];
      now := Until(now, d, deadline);
    }

    /** Cleanup runs under a context of its own, detached from the caller's. */
    method Remove(d: nat)
      modifies this
      ensures now == Until(old(now), d, old(now) + REMOVE_LIMIT)
      ensures requests == old(requests) + [RemoveRequest(true)]
    {
      Call(RemoveRequest(true), d, now + REMOVE_LIMIT);
    }

    method Kill(d: nat)
      modifies this
      ensures now == Until(old(now), d, old(now) + KILL_LIMIT)
      ensures requests == old(requests) + [KillRequest]
    {
      Call(KillRequest, d, now + KILL_LIMIT);
    }

    /** Execute after its image check; `parent` is the deadline of the queue's context. */
    method Execute(t: Timeouts, parent: Instant, o: Oracle, job: Job) returns (path: Ending, out: Option<Submissions.Outcome>)
      modifies this
      ensures path == PathOf(o)
      ensures out == Reported(WallOfExecute(old(now), t, parent, o), o, job)
      ensures requests == old(requests) + RequestsOf(o)
      ensures CleansUp(requests[|old(requests)|..], o) && InOrder(requests[|old(requests)|..])
      ensures now == EndOf(old(now), t, parent, o)
      ensures old(now) <= now <= old(now) + Max(0, Budget(t)) + STREAM_GRACE + REMOVE_LIMIT
    {
      hide RequestsOf, PathOf, EndOf, WallOfExecute, Reported, CleansUp, InOrder;
      ExecutionIsBounded(now, t, parent, o);
      EveryContainerIsRemovedOnce(o);
      WaitFollowsStart(o);
      assert (requests + RequestsOf(o))[|requests|..] == RequestsOf(o);
      path, out := Supervise(t, parent, o, job);
    }

    method Supervise(t: Timeouts, parent: Instant, o: Oracle, job: Job) returns (path: Ending, out: Option<Submissions.Outcome>)
      modifies this
      ensures path == PathOf(o)
      ensures out == Reported(WallOfExecute(old(now), t, parent, o), o, job)
      ensures requests == old(requests) + RequestsOf(o)
      ensures now == EndOf(old(now), t, parent, o)
    {
      hide RunEnd, Until, WallOf, Reported;
      NoContainerNoOutcome(WallOfExecute(now, t, parent, o), o, job);
      if !o.nonceOk {
        return NoContainer, None;
      }
      var deadline := Min(parent, now + Budget(t));
      Call(CreateRequest, o.createTime, deadline);
      if !o.createOk {
        return NoContainer, None;
      }
      path, out := RunContainer(deadline, o, job);
      Remove(o.removeTime);
      CreateComesFirst(o);
    }

    method RunContainer(deadline: Instant, o: Oracle, job: Job) returns (path: Ending, out: Option<Submissions.Outcome>)
      requires o.nonceOk && o.createOk
      modifies this
      ensures path == PathOf(o)
      ensures out == Reported(WallOf(old(now), deadline, o), o, job)
      ensures old(requests) + RequestsOf(o)[1..] == requests + [RemoveRequest(true)]
      ensures now == RunEnd(old(now), deadline, o)
    {
      hide Sandbox.Report, Until;
      Call(AttachRequest, o.attachTime, deadline);
      if !o.attachOk {
        return NotAttached, None;
      }
      var started := now;
      Call(StartRequest, o.startTime, deadline);
      if !o.startOk {
        return NotStarted, None;
      }
      var status := 0;
      match o.wait {
        case WaitFailed =>
          Call(WaitRequest, o.waitTime, deadline);
          return WaitError, None;
        case WaitClosed =>
          Call(WaitRequest, o.waitTime, deadline);
        case Exited(s) =>
          Call(WaitRequest, o.waitTime, deadline);
          status := s;
        case Expired =>
          requests := requests + [WaitRequest];
          now := Max(now, deadline);
          Kill(o.killTime);
          return BudgetExceeded, None;
      }
      var outcome := Collect(status, now - started, deadline, o, job);
      return Finished(status), Some(outcome);
    }

    /** After the exit: wait for the stream, look at what is left of the container, and judge. */
    method Collect(status: int, wall: Duration, deadline: Instant, o: Oracle, job: Job) returns (out: Submissions.Outcome)
      modifies this
      ensures now == Until(old(now) + Min(o.streamTime, STREAM_GRACE), o.inspectTime, deadline)
      ensures requests == old(requests) + [InspectRequest]
      ensures out == Sandbox.Report(job.cfg, job.nonce, job.frames, job.limit, status, wall, o.inspectOk && o.oomKilled)
    {
      now := now + Min(o.streamTime, STREAM_GRACE);
      Call(InspectRequest, o.inspectTime, deadline);
      var oom := o.inspectOk && o.oomKilled;
      var stdout, stderr := CopyStreams(job.frames, job.limit);
      out := BuildOutcome(job.cfg, stdout, stderr, job.nonce, status, wall, oom);
    }
  }

  /**
   Whatever the daemon does, an execution ends within its budget plus 35 seconds:
   15 for the stream to close and 20 for the removal, or 10 for the kill and 20.
   */
  lemma ExecutionIsBounded(now: Instant, t: Timeouts, parent: Instant, o: Oracle)
    ensures var budget := Max(0, t.run + t.compile + 30 * SECOND);
            && now <= EndOf(now, t, parent, o) <= now + budget + 35 * SECOND
            && (PathOf(o) == BudgetExceeded ==> EndOf(now, t, parent, o) <= now + budget + 30 * SECOND)
            && (PathOf(o) == NoContainer ==> EndOf(now, t, parent, o) <= now + budget)
  {
    RunIsBounded(Until(now, o.createTime, Min(parent, now + Budget(t))), Min(parent, now + Budget(t)), o);
  }

  /** No call is left out or cut short: below all limits an execution takes as long as its calls. */
  lemma ExecutionTakesItsCalls(now: Instant, t: Timeouts, parent: Instant, o: Oracle)
    requires o.nonceOk && o.createOk && o.attachOk && o.startOk
    requires o.killTime <= 10 * SECOND && o.removeTime <= 20 * SECOND && o.streamTime <= 15 * SECOND
    ensures var deadline := Min(parent, now + t.run + t.compile + 30 * SECOND);
            var started := now + o.createTime + o.attachTime + o.startTime;
            && (started <= deadline && o.wait == Expired ==>
                  EndOf(now, t, parent, o) == deadline + o.killTime + o.removeTime)
            && (started + o.waitTime <= deadline && o.wait == WaitFailed ==>
                  EndOf(now, t, parent, o) == started + o.waitTime + o.removeTime)
            && (started + o.waitTime + o.streamTime + o.inspectTime <= deadline && (o.wait.Exited? || o.wait == WaitClosed) ==>
                  EndOf(now, t, parent, o) == started + o.waitTime + o.streamTime + o.inspectTime + o.removeTime)
  {
  }

  lemma RunIsBounded(now: Instant, deadline: Instant, o: Oracle)
    ensures now <= RunEnd(now, deadline, o) <= Max(now, deadline) + STREAM_GRACE
    ensures o.attachOk && o.startOk && o.wait == Expired ==> RunEnd(now, deadline, o) <= Max(now, deadline) + KILL_LIMIT
  {
  }

  /**
   The deadlines nest: the handler starts at `begin` under a task deadline of C + R
   + 90 s and spends `before` on database reads and the image check. The execution
   is over by C + R + 65 s after that, so a preamble of under 25 s leaves a live
   context for storing the result.
   */
  lemma ResultCanStillBeStored(t: Timeouts, begin: Instant, before: Duration, o: Oracle)
    requires 0 <= before && 0 <= Budget(t)
    ensures var taskDeadline := begin + t.compile + t.run + TASK_SLACK;
            var end := EndOf(begin + before, t, taskDeadline, o);
            && end <= begin + before + t.compile + t.run + 65 * SECOND
            && (before < 25 * SECOND ==> end < taskDeadline)
  {
    hide EndOf, PathOf;
    ExecutionIsBounded(begin + before, t, begin + t.compile + t.run + TASK_SLACK, o);
  }

  /** The execution that `o` makes of this attempt is over before the queue's deadline. */
  predicate StoredInTime(t: Timeouts, begin: Instant, before: Duration, o: Oracle) {
    var taskDeadline := begin + t.compile + t.run + TASK_SLACK;
    EndOf(begin + before, t, taskDeadline, o) < taskDeadline
  }

  /** The container exits at its deadline, its stream does not close and its removal is slow, all without an error. */
  function Slowest(t: Timeouts): Oracle
    requires 0 <= Budget(t)
  {
    Oracle(true, true, false, 0, true, 0, true, 0, Exited(0), Budget(t), STREAM_GRACE, true, false, 0, 0, true, REMOVE_LIMIT)
  }

  lemma SlowestIsTooLate(t: Timeouts, begin: Instant, before: Duration)
    requires 25 * SECOND <= before && 0 <= Budget(t)
    ensures !StoredInTime(t, begin, before, Slowest(t))
  {
  }

  /**
   The 25 seconds are exact: a container that exits at its deadline, a stream that
   does not close and a slow removal use up all of it, so any longer preamble can
   leave no time to store the result.
   */
  lemma TheMarginIsExact(t: Timeouts, begin: Instant, before: Duration)
    requires 0 <= before && 0 <= Budget(t)
    ensures (forall o :: StoredInTime(t, begin, before, o)) <==> before < 25 * SECOND
  {
    if before < 25 * SECOND {
      forall o
        ensures StoredInTime(t, begin, before, o)
      {
        ResultCanStillBeStored(t, begin, before, o);
      }
    } else {
      SlowestIsTooLate(t, begin, before);
    }
  }

  lemma NoContainerNoOutcome(wall: Duration, o: Oracle, job: Job)
    ensures !o.nonceOk || !o.createOk ==> Reported(wall, o, job) == None
  {
  }

  /** The wait brought an exit: with a status, or with none, which counts as 0. */
  predicate Exits(o: Oracle) {
    o.nonceOk && o.createOk && o.attachOk && o.startOk && (o.wait.Exited? || o.wait == WaitClosed)
  }

  /** There is an outcome exactly if the wait brought an exit. Its wall time lies within the budget; without delay it is that of start and wait. */
  lemma OutcomeIffExit(now: Instant, t: Timeouts, parent: Instant, o: Oracle, job: Job)
    ensures Reported(WallOfExecute(now, t, parent, o), o, job).Some? <==> Exits(o)
    ensures 0 <= WallOfExecute(now, t, parent, o) <= Max(0, Budget(t))
    ensures now + o.createTime + o.attachTime + o.startTime + o.waitTime <= Min(parent, now + Budget(t)) ==>
              WallOfExecute(now, t, parent, o) == o.startTime + o.waitTime
  {
    hide Sandbox.Report;
  }

  /**
   Without a marker the outcome says what the daemon said: the exit status that the
   wait delivered, the wall time that was measured and what the inspect told, for
   every path of the script and every way of losing the marker.
   */
  lemma DaemonsViewIsReported(
    now: Instant, t: Timeouts, parent: Instant, o: Oracle, job: Job, compile: string, m: Sandbox.Machine)
    requires Exits(o) && Markers.CleanNonce(job.nonce) && Sandbox.InRange(m)
    requires !Contains(Sandbox.Own(compile, m), Markers.Pattern(job.nonce))
    requires ErrorsOf(job.frames) == Sandbox.ScriptStderr(job.nonce, compile, m)
    requires !m.workdirOk || job.limit <= |Sandbox.Own(compile, m)| + 1 + |Markers.Pattern(job.nonce)|
    ensures var wall := WallOfExecute(now, t, parent, o);
            && Reported(wall, o, job).Some?
            && var out := Reported(wall, o, job).value;
               Sandbox.SeenFromOutside(
                 out, job.cfg, Taken(OutputOf(job.frames), job.limit), out.stderr,
                 if o.wait.Exited? then o.wait.status else 0, wall, o.inspectOk && o.oomKilled)
  {
    hide Sandbox.Report, Sandbox.SeenFromOutside, Sandbox.ScriptStderr, Sandbox.Own, Sandbox.InRange, Contains;
    Sandbox.WithoutAMarkerTheDaemonDecides(
      job.cfg, job.nonce, compile, m, job.frames, job.limit, if o.wait.Exited? then o.wait.status else 0,
      WallOfExecute(now, t, parent, o), o.inspectOk && o.oomKilled);
  }

  /** With a marker, a run's outcome is the exact one, with the wall time and OOM flag of this execution. */
  lemma RunOutcomeIsReported(
    now: Instant, t: Timeouts, parent: Instant, o: Oracle, job: Job, compile: string, m: Sandbox.Machine)
    requires Exits(o) && Markers.CleanNonce(job.nonce) && Sandbox.InRange(m)
    requires m.workdirOk && m.codeStored && !Sandbox.CompileFails(compile, m)
    requires ErrorsOf(job.frames) == Sandbox.ScriptStderr(job.nonce, compile, m) && |ErrorsOf(job.frames)| <= job.limit
    ensures var wall := WallOfExecute(now, t, parent, o);
            && Reported(wall, o, job).Some?
            && var out := Reported(wall, o, job).value;
               && out.exitCode == m.runExit && out.stderr == m.programStderr
               && out.stdout == Taken(OutputOf(job.frames), job.limit)
               && out.wallTimeMs == Quotient(wall, MILLISECOND) && (out.oomKilled <==> o.inspectOk && o.oomKilled)
  {
    hide Sandbox.Report, Sandbox.ScriptStderr, Sandbox.InRange;
    Sandbox.RunIsReportedExactly(
      job.cfg, job.nonce, compile, m, job.frames, job.limit, if o.wait.Exited? then o.wait.status else 0,
      WallOfExecute(now, t, parent, o), o.inspectOk && o.oomKilled);
  }
}
