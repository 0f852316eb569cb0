/**
 The `submissions` table: its rows, what one execution reports, and the SQL
 statements as transitions of a single row.

 None of the UPDATE statements looks at the current status: each one is
 `WHERE id = $1` and nothing more. That a finished row is never overwritten is
 therefore a property of the protocol around them, not of this module.
 */
module Submissions {
  import opened Prelude
  import Utf8

  /** Unix time in some fixed unit; only its order matters. */
  type Time = nat

  datatype Status = Queued | Running | Completed | Failed

  /** What the engine reports about one execution. */
  datatype Outcome = Outcome(
    stdout: string,
    stderr: string,
    compileOutput: string,
    exitCode: int,
    cpuTimeMs: int,
    wallTimeMs: int,
    memoryKb: int,
    timedOut: bool,
    oomKilled: bool,
    compileError: bool)

  /** Text columns take valid UTF-8 only; a program may print anything. */
  predicate IsText(o: Outcome) {
    Utf8.Valid(o.stdout) && Utf8.Valid(o.stderr) && Utf8.Valid(o.compileOutput)
  }

  /** The part of a row the client supplied. */
  datatype Request = Request(
    language: string,
    code: string,
    stdin: string,
    webhookUrl: Option<string>)

  datatype Row = Row(
    request: Request,
    status: Status,
    stdout: Option<string>,
    stderr: Option<string>,
    exitCode: Option<int>,
    compileOutput: Option<string>,
    cpuTimeMs: Option<int>,
    wallTimeMs: Option<int>,
    memoryKb: Option<int>,
    timedOut: bool,
    oomKilled: bool,
    error: Option<string>,
    createdAt: Time,
    startedAt: Option<Time>,
    finishedAt: Option<Time>)
  {
    predicate Terminal() {
      status == Completed || status == Failed
    }
  }

  function NilIfEmpty(s: string): Option<string> {
    if s == "" then None else Some(s)
  }

  /** INSERT: the columns that are not named take the schema's defaults. */
  function Created(request: Request, now: Time): Row {
    Row(request, Queued, None, None, None, None, None, None, None, false, false, None, now, None, None)
  }

  /** UPDATE ... SET status = 'running', started_at = now() */
  function Marked(row: Row, now: Time): Row {
    row.(status := Running, startedAt := Some(now))
  }

  /** UPDATE ... SET status = 'completed', the result columns, finished_at = now(). `error` is left alone. */
  function Stored(row: Row, o: Outcome, now: Time): Row {
    row.(status := Completed,
         stdout := Some(o.stdout),
         stderr := Some(o.stderr),
         exitCode := Some(o.exitCode),
         compileOutput := NilIfEmpty(o.compileOutput),
         cpuTimeMs := Some(o.cpuTimeMs),
         wallTimeMs := Some(o.wallTimeMs),
         memoryKb := Some(o.memoryKb),
         timedOut := o.timedOut,
         oomKilled := o.oomKilled,
         finishedAt := Some(now))
  }

  /** UPDATE ... SET status = 'failed', error = $2, finished_at = now(). Result columns are left alone. */
  function MarkedFailed(row: Row, msg: string, now: Time): Row {
    row.(status := Failed, error := Some(msg), finishedAt := Some(now))
  }

  /** No result column has been written. */
  predicate NoResult(row: Row) {
    && row.stdout.None? && row.stderr.None? && row.exitCode.None? && row.compileOutput.None?
    && row.cpuTimeMs.None? && row.wallTimeMs.None? && row.memoryKb.None?
    && !row.timedOut && !row.oomKilled
  }

  /** Every result column that a result must fill has been written. */
  predicate HasResult(row: Row) {
    && row.stdout.Some? && row.stderr.Some? && row.exitCode.Some?
    && row.cpuTimeMs.Some? && row.wallTimeMs.Some? && row.memoryKb.Some?
  }

  /**
   What a reader of the table may rely on: the columns agree with the status
   and the three timestamps are in order.
   */
  predicate WellShaped(row: Row) {
    && (row.status == Completed ==> HasResult(row) && row.error.None? && row.startedAt.Some?)
    && (row.status == Failed ==> NoResult(row) && row.error.Some?)
    && (row.status == Running ==> row.startedAt.Some?)
    && (row.status == Queued ==> row.startedAt.None?)
    && (!row.Terminal() ==> NoResult(row) && row.error.None?)
    && (row.finishedAt.Some? <==> row.Terminal())
    && (row.startedAt.Some? ==> row.createdAt <= row.startedAt.value)
    && (row.finishedAt.Some? ==> row.createdAt <= row.finishedAt.value)
    && (row.startedAt.Some? && row.finishedAt.Some? ==> row.startedAt.value <= row.finishedAt.value)
  }

  /** All timestamps of the row lie at or before `now`. */
  predicate NotFromTheFuture(row: Row, now: Time) {
    && row.createdAt <= now
    && (row.startedAt.Some? ==> row.startedAt.value <= now)
    && (row.finishedAt.Some? ==> row.finishedAt.value <= now)
  }

  /** The status moves the design allows, staying put included. */
  predicate StatusMove(a: Status, b: Status) {
    || a == b
    || (a == Queued && (b == Running || b == Failed))
    || (a == Running && (b == Completed || b == Failed))
  }
}
