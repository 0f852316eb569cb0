/** buildOutcome: reconciling the in-container marker with what the daemon saw from outside. */
module Outcomes {
  import opened Prelude
  import opened Markers
  import opened Submissions

  const MILLISECOND: Duration := 1_000_000
  const SIGKILLED := 137

  datatype Limits = Limits(runTimeout: Duration, memoryLimitMb: int)

  /** Go's integer division rounds towards zero. */
  function Quotient(a: int, b: int): (q: int)
    requires b > 0
    ensures a >= 0 ==> q >= 0 && q * b <= a < q * b + b
    ensures a < 0 ==> q <= 0 && q * b - b < a <= q * b
  {
    if a < 0 then -((-a) / b) else a / b
  }

  /** Conversion to int32 keeps the low 32 bits. */
  function Int32(n: int): (r: int)
    ensures -0x8000_0000 <= r < 0x8000_0000
    ensures -0x8000_0000 <= n < 0x8000_0000 ==> r == n
    ensures (r - n) % 0x1_0000_0000 == 0
  {
    (n + 0x8000_0000) % 0x1_0000_0000 - 0x8000_0000
  }

  /** int64(d.Seconds()) */
  function WholeSeconds(d: Duration): int {
    Quotient(d, SECOND)
  }

  /** Without a marker only the daemon's view is left. */
  function Unmarked(cfg: Limits, stdout: string, stderr: string, containerExit: int, wall: Duration, oom: bool): Outcome {
    Outcome(stdout, stderr, "", Int32(containerExit), 0, Quotient(wall, MILLISECOND),
            if oom then cfg.memoryLimitMb * 1024 else 0,
            !oom && wall >= cfg.runTimeout, oom, false)
  }

  /** With a marker, its phase decides what an exit status of 137 means. */
  function Marked(cfg: Limits, stdout: string, stderr: string, m: Marker, wall: Duration, oom: bool): Outcome {
    Outcome(stdout, stderr, if m.phase == "compile" then m.compileOutput else "", Int32(m.rc),
            Quotient(m.cpuUsec, 1000), Quotient(wall, MILLISECOND), Quotient(m.memBytes, 1024),
            m.rc == SIGKILLED && (m.phase == "compile" || (m.phase == "run" && !oom && m.secs >= WholeSeconds(cfg.runTimeout))),
            oom, m.phase == "compile")
  }

  function Judged(
    cfg: Limits, stdout: string, stderr: string, nonce: string, containerExit: int, wall: Duration, oom: bool): Outcome
  {
    var (clean, m, found) := Extract(stderr, nonce);
    if found then Marked(cfg, stdout, clean, m, wall, oom) else Unmarked(cfg, stdout, clean, containerExit, wall, oom)
  }

  /** buildOutcome fills the result step by step. */
  method BuildOutcome(
    cfg: Limits, stdout: string, stderr: string, nonce: string, containerExit: int, wall: Duration, oom: bool)
    returns (out: Outcome)
    ensures out == Judged(cfg, stdout, stderr, nonce, containerExit, wall, oom)
  {
    out := Outcome(stdout, "", "", 0, 0, Quotient(wall, MILLISECOND), 0, false, oom, false);
    var clean, m, found := ExtractMarker(stderr, nonce);
    out := out.(stderr := clean);
    if !found {
      out := out.(exitCode := Int32(containerExit));
      if oom {
        out := out.(memoryKb := cfg.memoryLimitMb * 1024);
      } else if wall >= cfg.runTimeout {
        out := out.(timedOut := true);
      }
      return;
    }
    out := out.(cpuTimeMs := Quotient(m.cpuUsec, 1000));
    out := out.(memoryKb := Quotient(m.memBytes, 1024));
    out := out.(exitCode := Int32(m.rc));
    if m.phase == "compile" {
      out := out.(compileError := true, compileOutput := m.compileOutput);
      if m.rc == SIGKILLED {
        out := out.(timedOut := true);
      }
    } else if m.phase == "run" {
      if m.rc == SIGKILLED && !oom && m.secs >= WholeSeconds(cfg.runTimeout) {
        out := out.(timedOut := true);
      }
    }
  }

  /**
   Timeout and out-of-memory are exclusive except in one case: a compile step that
   was killed while the daemon also reports an OOM kill carries both flags.
   */
  lemma BothFlagsIffCompileKilledUnderOom(
    cfg: Limits, stdout: string, stderr: string, nonce: string, containerExit: int, wall: Duration, oom: bool)
    ensures var out := Judged(cfg, stdout, stderr, nonce, containerExit, wall, oom);
            var (clean, m, found) := Extract(stderr, nonce);
            out.timedOut && out.oomKilled <==> oom && found && m.phase == "compile" && m.rc == SIGKILLED
  {
    hide Extract;
  }

  lemma JudgedStdout(
    cfg: Limits, stdout: string, stderr: string, nonce: string, containerExit: int, wall: Duration, oom: bool)
    ensures Judged(cfg, stdout, stderr, nonce, containerExit, wall, oom).stdout == stdout
  {
    hide Extract, Quotient, Int32;
  }

  /** Whose exit status is reported. */
  lemma ReportedStatus(
    cfg: Limits, stdout: string, stderr: string, nonce: string, containerExit: int, wall: Duration, oom: bool)
    ensures Judged(cfg, stdout, stderr, nonce, containerExit, wall, oom).exitCode ==
            var (clean, m, found) := Extract(stderr, nonce);
            Int32(if found then m.rc else containerExit)
  {
    hide Extract, Quotient, Int32;
  }

  /** What does not depend on the marker, and what is reported without one. */
  lemma WithoutAMarker(
    cfg: Limits, stdout: string, stderr: string, nonce: string, containerExit: int, wall: Duration, oom: bool)
    ensures var out := Judged(cfg, stdout, stderr, nonce, containerExit, wall, oom);
            var (clean, m, found) := Extract(stderr, nonce);
            && out.stderr == clean && out.oomKilled == oom && out.wallTimeMs == Quotient(wall, MILLISECOND)
            && (!found ==>
                  && out.cpuTimeMs == 0 && out.memoryKb == (if oom then cfg.memoryLimitMb * 1024 else 0)
                  && (out.timedOut <==> !oom && wall >= cfg.runTimeout)
                  && !out.compileError && out.compileOutput == "")
  {
    hide Extract, Quotient, Int32;
  }
}
