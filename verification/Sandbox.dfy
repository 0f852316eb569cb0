/**
 The sandbox script and the whole way of its report: printed by the shell, framed
 by the daemon, captured under a byte limit, parsed and judged by the worker.
 */
module Sandbox {
  import opened Prelude
  import opened Text
  import opened Base64
  import opened Markers
  import opened Capture
  import opened Outcomes
  import Submissions
  import Utf8

  const LOG_LIMIT := 16384

  /** Everything the script finds out about its container, in the order it looks. */
  datatype Machine = Machine(
    workdirOk: bool,         // cd "$OCEE_WORKDIR"
    codeStored: bool,        // base64 -d > "$OCEE_FILE"
    compileExit: int,        // $? of the compile step
    compileLog: string,      // .ocee_compile
    cpuAtCompileError: int,  // cpu_usec when compiling failed
    cpuBefore: int,          // base_cpu
    t0: real,                // instant of the first `date`
    runExit: int,            // $? of the run step
    programStderr: string,   // what the program wrote
    t1: real,                // instant of the second `date`
    cpuAfter: int,           // end_cpu
    memPeak: int)            // mem_peak at the time of emit

  /** `head -c 16384 .ocee_compile | base64 | tr -d '\n'` */
  function CompileReport(log: string): string
    requires IsBytes(log)
  {
    Without(Wrap(Encode(Taken(log, LOG_LIMIT))), '\n')
  }

  /** What is on stderr before the marker: the script's own complaints or the program's output. */
  function Own(compile: string, m: Machine): string {
    if !m.workdirOk then "ocee: workdir unavailable\n"
    else if !m.codeStored then "ocee: could not decode submission\n"
    else if CompileFails(compile, m) then ""
    else m.programStderr
  }

  predicate CompileFails(compile: string, m: Machine) {
    compile != "" && m.compileExit != 0
  }

  /** The values of the marker line. */
  function LineOf(compile: string, m: Machine): Line
    requires IsBytes(m.compileLog)
  {
    if !m.codeStored then Line("setup", 70, 0, m.memPeak, 0, "")
    else if CompileFails(compile, m) then
      Line("compile", m.compileExit, m.cpuAtCompileError, m.memPeak, 0, CompileReport(m.compileLog))
    else Line("run", m.runExit, m.cpuAfter - m.cpuBefore, m.memPeak, m.t1.Floor - m.t0.Floor, "")
  }

  /** All that reaches stderr: with a working directory exactly one marker, and it comes last. */
  function ScriptStderr(nonce: string, compile: string, m: Machine): string
    requires IsBytes(m.compileLog)
  {
    if m.workdirOk then Own(compile, m) + LineOf(compile, m).Emitted(nonce) else Own(compile, m)
  }

  predicate InRange(m: Machine) {
    && IsBytes(m.compileLog)
    && 0 <= m.compileExit < 256 && 0 <= m.runExit < 256  // shell exit statuses
    && IsInt64(m.cpuAtCompileError) && IsInt64(m.cpuAfter - m.cpuBefore) && IsInt64(m.memPeak)
    && IsInt64(m.t1.Floor - m.t0.Floor)
  }

  /** What the parser is to make of the whole stream. */
  predicate ReadsBack(stderr: string, nonce: string, compile: string, m: Machine)
    requires IsBytes(m.compileLog)
  {
    var (clean, marker, found) := Extract(stderr, nonce);
    var x := LineOf(compile, m);
    && clean == Own(compile, m)
    && (found <==> m.workdirOk)
    && (found ==> marker.phase == x.phase && marker.rc == x.rc && marker.cpuUsec == Max(x.cpuUsec, 0)
                  && marker.memBytes == x.memBytes && marker.secs == x.secs
                  && marker.compileOutput == if x.phase == "compile" then Taken(m.compileLog, LOG_LIMIT) else "")
  }

  /**
   sandboxScript, statement by statement. On every path it exits 0, with a working
   directory it ends its stream with one marker, and the parser undoes it: what
   preceded the marker and every value come back.
   */
  method Script(nonce: string, compile: string, m: Machine) returns (stderr: string, exit: int)
    requires IsBytes(m.compileLog)
    ensures stderr == ScriptStderr(nonce, compile, m)
    ensures IsNonce(nonce) && InRange(m) ==> ReadsBack(stderr, nonce, compile, m)
    ensures exit == 0
  {
    hide Emit, CompileReport, ReadsBack, IsNonce, InRange;
    if IsNonce(nonce) && InRange(m) {
      ScriptIsReadBack(nonce, compile, m);
    }
    stderr, exit := "", 0;
    if !m.workdirOk {
      stderr := stderr + "ocee: workdir unavailable\n";
      return;
    }
    if !m.codeStored {
      stderr := stderr + "ocee: could not decode submission\n";
      stderr := stderr + Emit(nonce, "setup", 70, 0, m.memPeak, 0, "");
      return;
    }
    if compile != "" {
      var crc := m.compileExit;
      if crc != 0 {
        stderr := stderr + Emit(nonce, "compile", crc, m.cpuAtCompileError, m.memPeak, 0, CompileReport(m.compileLog));
        return;
      }
    }
    var baseCpu := m.cpuBefore;
    var t0 := m.t0.Floor;
    stderr := stderr + m.programStderr;
    var rc := m.runExit;
    var t1 := m.t1.Floor;
    var endCpu := m.cpuAfter;
    stderr := stderr + Emit(nonce, "run", rc, endCpu - baseCpu, m.memPeak, t1 - t0, "");
  }

  lemma LineIsPrintable(compile: string, m: Machine)
    requires InRange(m)
    ensures LineOf(compile, m).Printable()
  {
    hide CompileReport, Decode;
    CompileReportDecodes(m.compileLog);
  }

  lemma ScriptIsReadBack(nonce: string, compile: string, m: Machine)
    requires IsNonce(nonce) && InRange(m)
    ensures ReadsBack(ScriptStderr(nonce, compile, m), nonce, compile, m)
  {
    hide Extract, Emit, CompileReport, Decode, IsNonce;
    var x := LineOf(compile, m);
    NoncesAreClean(nonce);
    LineIsPrintable(compile, m);
    CompileReportDecodes(m.compileLog);
    assert Decode("") == Some("") by {
      RoundTrip("");
    }
    if m.workdirOk {
      ExtractUndoesEmit(Own(compile, m), nonce, x.phase, x.rc, x.cpuUsec, x.memBytes, x.secs, x.b64);
    } else {
      ComplaintsHoldNoMarker(nonce, compile, m);
      ExtractWithoutPattern(Own(compile, m), nonce);
    }
  }

  /** The script's own messages are shorter than the pattern. */
  lemma ComplaintsHoldNoMarker(nonce: string, compile: string, m: Machine)
    requires IsNonce(nonce)
    ensures !m.workdirOk || !m.codeStored || CompileFails(compile, m) ==> !Contains(Own(compile, m), Pattern(nonce))
  {
  }

  /**
   When a marker is found, over all paths and limits: there was a working directory
   and the limit let at least one byte of the phase through. So a missing marker
   means one of these two failed, or a kill before the script's last line.
   */
  lemma MarkerFoundIff(nonce: string, compile: string, m: Machine, limit: int)
    requires CleanNonce(nonce) && InRange(m) && !Contains(Own(compile, m), Pattern(nonce))
    ensures Extract(Taken(ScriptStderr(nonce, compile, m), limit), nonce).2 <==>
            m.workdirOk && limit > |Own(compile, m)| + 1 + |Pattern(nonce)|
  {
    hide Extract, Emit, CompileReport, Contains;
    PrefixLacks(Own(compile, m), limit, Pattern(nonce));
    if m.workdirOk {
      LineIsPrintable(compile, m);
      ExtractOfCut(Own(compile, m), nonce, LineOf(compile, m), limit);
      assert |Pattern(nonce)| == |nonce| + 1 + |"phase="|;
    } else {
      ExtractWithoutPattern(Taken(Own(compile, m), limit), nonce);
    }
  }

  /** What the worker concludes from the frames of the attach stream. */
  function Report(
    cfg: Limits, nonce: string, frames: seq<Frame>, limit: int, containerExit: int, wall: Duration, oom: bool): Submissions.Outcome
  {
    Judged(cfg, Taken(OutputOf(frames), limit), Taken(ErrorsOf(frames), limit), nonce, containerExit, wall, oom)
  }

  lemma TakenOfPrefix(s: string, more: string, limit: int)
    ensures limit <= |s| ==> Taken(s + more, limit) == Taken(s, limit)
  {
  }

  // ------------------------------------------------------------ compile errors

  lemma CompileReportDecodes(log: string)
    requires IsBytes(log)
    ensures NoSpace(CompileReport(log))
    ensures Decode(CompileReport(log)) == Some(Taken(log, LOG_LIMIT))
    ensures |CompileReport(log)| <= 21848
  {
    var head := Taken(log, LOG_LIMIT);
    EncodeHasNoSpace(head);
    NoSpaceLacks(Encode(head), '\n');
    UnwrapIsIdentity(Encode(head));
    RoundTrip(head);
    EncodedLength(head);
  }

  lemma EmitLength(nonce: string, phase: string, rc: int, cpuUsec: int, memBytes: int, secs: int, b64: string)
    requires IsInt64(rc) && IsInt64(cpuUsec) && IsInt64(memBytes) && IsInt64(secs)
    ensures |Emit(nonce, phase, rc, cpuUsec, memBytes, secs, b64)| <= |nonce| + |phase| + |b64| + 133
  {
    var ws := Words(phase, rc, cpuUsec, memBytes, secs, b64);
    Int64Length(rc);
    Int64Length(cpuUsec);
    Int64Length(memBytes);
    Int64Length(secs);
    JoinLength(ws);
  }

  /** A byte limit that holds every compile-error marker. */
  const COMPILE_MARKER_MAX := 22029

  /**
   Compiler diagnostics survive the whole trip: for every compile log and however
   the stream is framed, a limit of 22 KB is enough for the reported compile output
   to be the first 16384 bytes of the log, with nothing leaking into stderr.
   */
  lemma CompilerDiagnosticsSurvive(
    cfg: Limits, nonce: string, compile: string, m: Machine,
    frames: seq<Frame>, limit: int, containerExit: int, wall: Duration, oom: bool)
    requires IsNonce(nonce) && InRange(m) && m.workdirOk && m.codeStored && compile != "" && m.compileExit != 0
    requires ErrorsOf(frames) == ScriptStderr(nonce, compile, m) && limit >= COMPILE_MARKER_MAX
    ensures var out := Report(cfg, nonce, frames, limit, containerExit, wall, oom);
            && out.compileError
            && out.compileOutput == Taken(m.compileLog, 16384)
            && out.stderr == ""
            && out.stdout == Taken(OutputOf(frames), limit)
            && out.exitCode == m.compileExit
            && out.cpuTimeMs == Max(m.cpuAtCompileError, 0) / 1000
            && out.memoryKb == Quotient(m.memPeak, 1024)
            && out.wallTimeMs == Quotient(wall, MILLISECOND)
            && out.oomKilled == oom
            && (out.timedOut <==> m.compileExit == 137)
  {
    hide Extract, Emit, IsNonce, CompileReport, Decode;
    var b64 := CompileReport(m.compileLog);
    CompileReportDecodes(m.compileLog);
    NoncesAreClean(nonce);
    EmitLength(nonce, "compile", m.compileExit, m.cpuAtCompileError, m.memPeak, 0, b64);
    NothingIsLostUnderTheLimit("", nonce, "compile", m.compileExit, m.cpuAtCompileError, m.memPeak, 0, b64, limit);
  }

  /**
   A compile log that is valid text is reported as such if and only if `head` does not
   cut a character in half; if it does, the result cannot be stored.
   */
  lemma CompileOutputIsTextIff(
    cfg: Limits, nonce: string, compile: string, m: Machine,
    frames: seq<Frame>, limit: int, containerExit: int, wall: Duration, oom: bool)
    requires IsNonce(nonce) && InRange(m) && m.workdirOk && m.codeStored && CompileFails(compile, m)
    requires ErrorsOf(frames) == ScriptStderr(nonce, compile, m) && limit >= COMPILE_MARKER_MAX
    requires Utf8.Valid(m.compileLog) && OutputOf(frames) == ""
    ensures Submissions.IsText(Report(cfg, nonce, frames, limit, containerExit, wall, oom)) <==>
            |m.compileLog| <= 16384 || !Utf8.IsTail(m.compileLog[16384])
  {
    hide ScriptStderr, IsNonce, InRange, Judged;
    CompilerDiagnosticsSurvive(cfg, nonce, compile, m, frames, limit, containerExit, wall, oom);
    TakenIsValidIff(m.compileLog, LOG_LIMIT);
  }

  // -------------------------------------------------------------- other phases

  /** A program that ran to its end is reported exactly, however its stderr looks and however it is framed. */
  lemma RunIsReportedExactly(
    cfg: Limits, nonce: string, compile: string, m: Machine,
    frames: seq<Frame>, limit: int, containerExit: int, wall: Duration, oom: bool)
    requires CleanNonce(nonce) && InRange(m) && m.workdirOk && m.codeStored && (compile == "" || m.compileExit == 0)
    requires ErrorsOf(frames) == ScriptStderr(nonce, compile, m) && |ErrorsOf(frames)| <= limit
    ensures var out := Report(cfg, nonce, frames, limit, containerExit, wall, oom);
            && out.stdout == Taken(OutputOf(frames), limit)
            && out.stderr == m.programStderr
            && out.exitCode == m.runExit
            && out.cpuTimeMs == Max(m.cpuAfter - m.cpuBefore, 0) / 1000
            && out.wallTimeMs == Quotient(wall, MILLISECOND)
            && out.memoryKb == Quotient(m.memPeak, 1024)
            && out.oomKilled == oom
            && !out.compileError && out.compileOutput == ""
            && (out.timedOut <==>
                  m.runExit == 137 && !oom && m.t1.Floor - m.t0.Floor >= WholeSeconds(cfg.runTimeout))
  {
    hide Extract, Emit, Decode;
    assert Decode("") == Some("") by {
      RoundTrip("");
    }
    NothingIsLostUnderTheLimit(
      m.programStderr, nonce, "run", m.runExit, m.cpuAfter - m.cpuBefore, m.memPeak, m.t1.Floor - m.t0.Floor, "", limit);
  }

  /**
   A run that prints valid text can be stored if and only if the limit does not cut its
   standard output inside a character: a byte limit can make good output unstorable.
   */
  lemma RunOutputIsTextIff(
    cfg: Limits, nonce: string, compile: string, m: Machine,
    frames: seq<Frame>, limit: int, containerExit: int, wall: Duration, oom: bool)
    requires CleanNonce(nonce) && InRange(m) && m.workdirOk && m.codeStored && !CompileFails(compile, m)
    requires ErrorsOf(frames) == ScriptStderr(nonce, compile, m) && |ErrorsOf(frames)| <= limit
    ensures Utf8.Valid(m.programStderr) && Utf8.Valid(OutputOf(frames)) ==>
              (Submissions.IsText(Report(cfg, nonce, frames, limit, containerExit, wall, oom)) <==>
               limit >= |OutputOf(frames)| || !Utf8.IsTail(OutputOf(frames)[limit]))
  {
    hide ScriptStderr, InRange, Judged;
    RunIsReportedExactly(cfg, nonce, compile, m, frames, limit, containerExit, wall, oom);
    if Utf8.Valid(m.programStderr) && Utf8.Valid(OutputOf(frames)) {
      TakenIsValidIff(OutputOf(frames), limit);
      assert limit == 0 && |OutputOf(frames)| > 0 ==> !Utf8.IsTail(OutputOf(frames)[0]);
    }
  }

  /** A submission that could not be stored is reported as exit status 70, not as a compile error. */
  lemma SetupFailureIsReported(
    cfg: Limits, nonce: string, compile: string, m: Machine,
    frames: seq<Frame>, limit: int, containerExit: int, wall: Duration, oom: bool)
    requires CleanNonce(nonce) && InRange(m) && m.workdirOk && !m.codeStored
    requires ErrorsOf(frames) == ScriptStderr(nonce, compile, m) && |ErrorsOf(frames)| <= limit
    ensures var out := Report(cfg, nonce, frames, limit, containerExit, wall, oom);
            && out.exitCode == 70 && !out.compileError && !out.timedOut
            && out.stderr == "ocee: could not decode submission\n"
            && out.stdout == Taken(OutputOf(frames), limit) && out.compileOutput == ""
            && out.cpuTimeMs == 0 && out.memoryKb == Quotient(m.memPeak, 1024)
            && out.wallTimeMs == Quotient(wall, MILLISECOND) && out.oomKilled == oom
  {
    hide Extract, Emit, Decode;
    assert Decode("") == Some("") by {
      RoundTrip("");
    }
    NothingIsLostUnderTheLimit("ocee: could not decode submission\n", nonce, "setup", 70, 0, m.memPeak, 0, "", limit);
  }

  /** What is reported without a marker: what the daemon saw, and nothing that the script recorded. */
  predicate SeenFromOutside(
    out: Submissions.Outcome, cfg: Limits, stdout: string, stderr: string, containerExit: int, wall: Duration, oom: bool)
  {
    && out.stdout == stdout && out.stderr == stderr
    && out.exitCode == Int32(containerExit) && out.cpuTimeMs == 0
    && out.memoryKb == (if oom then cfg.memoryLimitMb * 1024 else 0)
    && out.wallTimeMs == Quotient(wall, MILLISECOND) && out.oomKilled == oom
    && (out.timedOut <==> !oom && wall >= cfg.runTimeout)
    && !out.compileError && out.compileOutput == ""
  }

  /** Whenever no marker is found, on every path and for every limit, the daemon's view decides alone. */
  lemma WithoutAMarkerTheDaemonDecides(
    cfg: Limits, nonce: string, compile: string, m: Machine,
    frames: seq<Frame>, limit: int, containerExit: int, wall: Duration, oom: bool)
    requires CleanNonce(nonce) && InRange(m) && !Contains(Own(compile, m), Pattern(nonce))
    requires ErrorsOf(frames) == ScriptStderr(nonce, compile, m)
    requires !m.workdirOk || limit <= |Own(compile, m)| + 1 + |Pattern(nonce)|
    ensures var out := Report(cfg, nonce, frames, limit, containerExit, wall, oom);
            SeenFromOutside(out, cfg, Taken(OutputOf(frames), limit), out.stderr, containerExit, wall, oom)
  {
    hide Extract, Emit, CompileReport, Contains, Judged, Quotient, Int32, Taken, Own, LineOf;
    MarkerFoundIff(nonce, compile, m, limit);
    ReportedStatus(
      cfg, Taken(OutputOf(frames), limit), Taken(ErrorsOf(frames), limit), nonce, containerExit, wall, oom);
    WithoutAMarker(
      cfg, Taken(OutputOf(frames), limit), Taken(ErrorsOf(frames), limit), nonce, containerExit, wall, oom);
    JudgedStdout(
      cfg, Taken(OutputOf(frames), limit), Taken(ErrorsOf(frames), limit), nonce, containerExit, wall, oom);
  }

  /**
   A missing marker does not mean that the container was killed: the script also
   leaves it out, and exits 0, when its working directory is unavailable. (A limit
   that cuts the stream early is the other way, see Capture.FoundIffPhaseCaptured.)
   */
  lemma MissingMarkerWithoutAKill(
    cfg: Limits, nonce: string, compile: string, m: Machine,
    frames: seq<Frame>, limit: int, containerExit: int, wall: Duration, oom: bool)
    requires IsNonce(nonce) && IsBytes(m.compileLog) && !m.workdirOk
    requires ErrorsOf(frames) == ScriptStderr(nonce, compile, m)
    ensures !Extract(Taken(ErrorsOf(frames), limit), nonce).2
    ensures SeenFromOutside(
              Report(cfg, nonce, frames, limit, containerExit, wall, oom), cfg, Taken(OutputOf(frames), limit),
              Taken("ocee: workdir unavailable\n", limit), containerExit, wall, oom)
  {
    var s := Taken(ErrorsOf(frames), limit);
    assert !Contains(s, Pattern(nonce));
    ExtractWithoutPattern(s, nonce);
    hide Extract, Judged, Quotient, Int32, IsNonce, Contains;
    ReportedStatus(cfg, Taken(OutputOf(frames), limit), s, nonce, containerExit, wall, oom);
    WithoutAMarker(cfg, Taken(OutputOf(frames), limit), s, nonce, containerExit, wall, oom);
    JudgedStdout(cfg, Taken(OutputOf(frames), limit), s, nonce, containerExit, wall, oom);
  }

  /**
   A program that writes so much that the limit keeps the phase out is judged from
   outside alone: its own exit status, which the script does not pass on, is lost,
   and so are CPU time and, short of an OOM kill, memory.
   */
  lemma FloodedStderrLosesTheVerdict(
    cfg: Limits, nonce: string, compile: string, m: Machine,
    frames: seq<Frame>, limit: int, containerExit: int, wall: Duration, oom: bool)
    requires CleanNonce(nonce) && InRange(m) && m.workdirOk && m.codeStored && (compile == "" || m.compileExit == 0)
    requires ErrorsOf(frames) == ScriptStderr(nonce, compile, m) && !Contains(m.programStderr, Pattern(nonce))
    ensures var out := Report(cfg, nonce, frames, limit, containerExit, wall, oom);
            var lost := limit <= |m.programStderr| + 1 + |Pattern(nonce)|;
            && (lost ==> SeenFromOutside(
                  out, cfg, Taken(OutputOf(frames), limit), out.stderr, containerExit, wall, oom))
            && (limit <= |m.programStderr| ==> out.stderr == Taken(m.programStderr, limit))
            && (!lost ==> out.stderr == m.programStderr)
            && out.oomKilled == oom && out.wallTimeMs == Quotient(wall, MILLISECOND)
  {
    hide Extract, Emit, CompileReport, Contains, Judged, Quotient, Int32, Taken, SeenFromOutside;
    var own := m.programStderr;
    FoundIffPhaseCaptured(
      own, nonce, "run", m.runExit, m.cpuAfter - m.cpuBefore, m.memPeak, m.t1.Floor - m.t0.Floor, "", limit);
    TakenOfPrefix(own, LineOf(compile, m).Emitted(nonce), limit);
    WithoutAMarker(
      cfg, Taken(OutputOf(frames), limit), Taken(ErrorsOf(frames), limit), nonce, containerExit, wall, oom);
    if limit <= |own| + 1 + |Pattern(nonce)| {
      WithoutAMarkerTheDaemonDecides(cfg, nonce, compile, m, frames, limit, containerExit, wall, oom);
    }
  }

  /**
   Exactly when the exit status reported is the one the script recorded, for every
   path with a working directory and every limit: if a marker is found, when its last
   digit was captured or it is 0; otherwise when the container's own happens to agree.
   */
  lemma ExitStatusIsRightIff(
    cfg: Limits, nonce: string, compile: string, m: Machine,
    frames: seq<Frame>, limit: int, containerExit: int, wall: Duration, oom: bool)
    requires CleanNonce(nonce) && InRange(m) && m.workdirOk && !Contains(Own(compile, m), Pattern(nonce))
    requires ErrorsOf(frames) == ScriptStderr(nonce, compile, m)
    ensures var out := Report(cfg, nonce, frames, limit, containerExit, wall, oom);
            var x := LineOf(compile, m);
            var before := |Own(compile, m)| + 1 + |nonce| + 1;
            out.exitCode == x.rc <==>
              if limit > before + |"phase="|
              then x.rc == 0 || limit >= before + |"phase="| + |x.phase| + |" rc="| + |Decimal(x.rc)|
              else Int32(containerExit) == x.rc
  {
    hide Extract, Emit, CompileReport, Contains, CutText, CutNumber, Decimal, Judged, Int32;
    var x := LineOf(compile, m);
    PrefixLacks(Own(compile, m), limit, Pattern(nonce));
    LineIsPrintable(compile, m);
    ExtractOfCut(Own(compile, m), nonce, x, limit);
    CutNumberIs(x.rc, limit - |Own(compile, m)| - 1 - |nonce| - 1 - x.RcAt());
    ReportedStatus(
      cfg, Taken(OutputOf(frames), limit), Taken(ErrorsOf(frames), limit), nonce, containerExit, wall, oom);
  }

  /**
   Timeout and out-of-memory are reported together exactly when the compile step was
   killed and the daemon reports an OOM kill, for every stream that fits the limit.
   */
  lemma BothFlagsIff(
    cfg: Limits, nonce: string, compile: string, m: Machine,
    frames: seq<Frame>, limit: int, containerExit: int, wall: Duration, oom: bool)
    requires IsNonce(nonce) && InRange(m)
    requires ErrorsOf(frames) == ScriptStderr(nonce, compile, m) && |ErrorsOf(frames)| <= limit
    ensures var out := Report(cfg, nonce, frames, limit, containerExit, wall, oom);
            out.timedOut && out.oomKilled <==>
            oom && m.workdirOk && m.codeStored && compile != "" && m.compileExit == 137
  {
    hide Extract, Emit, CompileReport, IsNonce, Judged;
    ScriptIsReadBack(nonce, compile, m);
    assert Taken(ErrorsOf(frames), limit) == ScriptStderr(nonce, compile, m);
    BothFlagsIffCompileKilledUnderOom(
      cfg, Taken(OutputOf(frames), limit), Taken(ErrorsOf(frames), limit), nonce, containerExit, wall, oom);
  }

  /** The same for every limit: the compile step's exit status must have come through as well. */
  lemma BothFlagsUnderAnyLimitIff(
    cfg: Limits, nonce: string, compile: string, m: Machine,
    frames: seq<Frame>, limit: int, containerExit: int, wall: Duration, oom: bool)
    requires CleanNonce(nonce) && InRange(m) && !Contains(Own(compile, m), Pattern(nonce))
    requires ErrorsOf(frames) == ScriptStderr(nonce, compile, m)
    ensures var out := Report(cfg, nonce, frames, limit, containerExit, wall, oom);
            out.timedOut && out.oomKilled <==>
            && oom && m.workdirOk && m.codeStored && compile != "" && m.compileExit == 137
            && limit >= 1 + |nonce| + 1 + |"phase=compile rc=137"|
  {
    hide Extract, Emit, CompileReport, Contains, CutText, CutNumber, Decimal, Judged;
    var x := LineOf(compile, m);
    MarkerFoundIff(nonce, compile, m, limit);
    PrefixLacks(Own(compile, m), limit, Pattern(nonce));
    LineIsPrintable(compile, m);
    BothFlagsIffCompileKilledUnderOom(
      cfg, Taken(OutputOf(frames), limit), Taken(ErrorsOf(frames), limit), nonce, containerExit, wall, oom);
    if m.workdirOk {
      ExtractOfCut(Own(compile, m), nonce, x, limit);
      var n := limit - |Own(compile, m)| - 1 - |nonce| - 1;
      CutNumberIs(x.rc, n - x.RcAt());
      KilledHasThreeDigits();
      assert x.phase == "compile" && n >= 13 ==> x.phase[..7] == "compile";
    }
  }

  lemma KilledHasThreeDigits()
    ensures |Decimal(SIGKILLED)| == 3
  {
    assert Digits(1) == [DigitOf(1)];
    assert |Digits(13)| == 2;
  }

  // ------------------------------------------------------------------- timeouts

  function Fraction(t: real): real {
    t - t.Floor as real
  }

  /** Exact meaning of the seconds counter: elapsed time measured from the last full second before the start. */
  lemma FlooredClocks(t0: real, t1: real, r: int)
    ensures t1.Floor - t0.Floor >= r <==> t1 - t0 + Fraction(t0) >= r as real
  {
    var d := t1 - t0.Floor as real;
    assert t1.Floor - t0.Floor >= r <==> t1 >= (t0.Floor + r) as real;
  }

  /**
   When a run whose report came through is called a timeout: it was killed, not by
   the OOM killer, and the elapsed time plus the fraction of a second at which it
   started reaches the limit in whole seconds.
   */
  lemma TimedOutIff(
    cfg: Limits, nonce: string, compile: string, m: Machine,
    frames: seq<Frame>, limit: int, containerExit: int, wall: Duration, oom: bool)
    requires CleanNonce(nonce) && InRange(m) && m.workdirOk && m.codeStored && (compile == "" || m.compileExit == 0)
    requires ErrorsOf(frames) == ScriptStderr(nonce, compile, m) && |ErrorsOf(frames)| <= limit
    ensures var out := Report(cfg, nonce, frames, limit, containerExit, wall, oom);
            var r := WholeSeconds(cfg.runTimeout);
            // the limit in whole seconds
            && (cfg.runTimeout >= 0 ==> r * SECOND <= cfg.runTimeout < (r + 1) * SECOND)
            && (out.timedOut <==>
                  m.runExit == 137 && !oom && m.t1 - m.t0 + Fraction(m.t0) >= r as real)
            // a run killed at the limit is always called a timeout ...
            && (m.runExit == 137 && !oom && m.t1 - m.t0 >= r as real ==> out.timedOut)
            // ... and a timeout lasted for more than all but one second of it
            && (out.timedOut ==> m.t1 - m.t0 > (r - 1) as real && out.exitCode == 137 && !out.oomKilled)
  {
    hide Extract, Emit, ScriptStderr, Report;
    RunIsReportedExactly(cfg, nonce, compile, m, frames, limit, containerExit, wall, oom);
    FlooredClocks(m.t0, m.t1, WholeSeconds(cfg.runTimeout));
  }

  /**
   That bound cannot be improved: a kill arbitrarily little later than one second
   before the limit is called a timeout, if the run began late enough in a second.
   */
  lemma TimeoutCanBeASecondEarly(
    cfg: Limits, nonce: string, compile: string, m: Machine,
    frames: seq<Frame>, limit: int, containerExit: int, wall: Duration, late: real)
    requires CleanNonce(nonce) && InRange(m) && m.workdirOk && m.codeStored && (compile == "" || m.compileExit == 0)
    requires ErrorsOf(frames) == ScriptStderr(nonce, compile, m) && |ErrorsOf(frames)| <= limit
    requires 0.0 < late < 1.0 && m.runExit == 137
    requires m.t0 == 1.0 - late && m.t1 == WholeSeconds(cfg.runTimeout) as real
    ensures m.t1 - m.t0 == (WholeSeconds(cfg.runTimeout) - 1) as real + late
    ensures Report(cfg, nonce, frames, limit, containerExit, wall, false).timedOut
  {
    hide Extract, Emit, ScriptStderr, Report;
    TimedOutIff(cfg, nonce, compile, m, frames, limit, containerExit, wall, false);
    assert m.t0.Floor == 0;
  }

  /**
   A limit below one second reaches the script as 0, which timeout(1) takes as no
   limit at all; the worker then calls every killed run a timeout.
   */
  lemma SubSecondLimitBlursTheVerdict(
    cfg: Limits, nonce: string, compile: string, m: Machine,
    frames: seq<Frame>, limit: int, containerExit: int, wall: Duration, oom: bool)
    requires CleanNonce(nonce) && InRange(m) && m.workdirOk && m.codeStored && (compile == "" || m.compileExit == 0)
    requires ErrorsOf(frames) == ScriptStderr(nonce, compile, m) && |ErrorsOf(frames)| <= limit
    requires 0 <= cfg.runTimeout < SECOND && m.t0 <= m.t1
    ensures WholeSeconds(cfg.runTimeout) == 0
    ensures Report(cfg, nonce, frames, limit, containerExit, wall, oom).timedOut <==> m.runExit == 137 && !oom
  {
    hide Extract, Emit, ScriptStderr, Report;
    TimedOutIff(cfg, nonce, compile, m, frames, limit, containerExit, wall, oom);
  }
}
