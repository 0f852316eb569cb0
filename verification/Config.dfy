/**
 Size limits on the way in: what Load admits as a limit on source code, what the
 API accepts under it, and the environment entry the code travels in.
 */
module Config {
  import opened Prelude
  import opened Text
  import opened Base64

  datatype Settings = Settings(maxCodeBytes: int, maxStdinBytes: int, workerConcurrency: int)

  datatype LoadError = BadConcurrency | CodeLimitTooHigh

  /** MAX_CODE_BYTES, MAX_STDIN_BYTES and WORKER_CONCURRENCY as the process finds them; unset reads as empty. */
  datatype Environment = Environment(maxCodeBytes: string, maxStdinBytes: string, workerConcurrency: string)

  /** strconv.Atoi; None is its error. */
  function Atoi(s: string): Option<int> {
    if s == "" then None
    else
      var digits := if s[0] == '-' || s[0] == '+' then s[1..] else s;
      if digits == "" then None
      else match ParseUint(0, digits)
        case Value(u) => if s[0] == '-' then (if u <= TWO_63 then Some(0 - u) else None) else if u < TWO_63 then Some(u) else None
        case _ => None
  }

  /** envInt: a value that is unset or not an integer counts as the default. */
  function EnvInt(v: string, default: int): int {
    if Atoi(v).Some? then Atoi(v).value else default
  }

  /** Load, as far as these three settings are concerned. */
  function Load(e: Environment): Result<Settings, LoadError> {
    var s := Settings(EnvInt(e.maxCodeBytes, 64_000), EnvInt(e.maxStdinBytes, 64_000), EnvInt(e.workerConcurrency, 8));
    if s.workerConcurrency < 1 then Err(BadConcurrency)
    else if s.maxCodeBytes > 90_000 then Err(CodeLimitTooHigh)
    else Ok(s)
  }

  /** An integer that is set is what is read. */
  lemma SetValuesAreRead(n: int, default: int)
    requires IsInt64(n)
    ensures EnvInt(Decimal(n), default) == n
    ensures EnvInt("", default) == default
  {
    var u := if n < 0 then -n else n;
    ParseUintOfDigits(u);
    DigitsAreDigits(u);
    if n < 0 {
      assert Decimal(n)[1..] == Digits(u);
    }
  }

  /** When a configuration that sets all three loads, and to what. */
  lemma LoadsIff(code: int, stdin: int, concurrency: int)
    requires IsInt64(code) && IsInt64(stdin) && IsInt64(concurrency)
    ensures var r := Load(Environment(Decimal(code), Decimal(stdin), Decimal(concurrency)));
            && (r.Ok? <==> concurrency >= 1 && code <= 90_000)
            && (r.Ok? ==> r.value == Settings(code, stdin, concurrency))
            && (r == Err(BadConcurrency) <==> concurrency < 1)
  {
    SetValuesAreRead(code, 64_000);
    SetValuesAreRead(stdin, 64_000);
    SetValuesAreRead(concurrency, 8);
  }

  /** Without any of them the configuration loads, with the documented defaults. */
  lemma DefaultsLoad()
    ensures Load(Environment("", "", "")) == Ok(Settings(64_000, 64_000, 8))
  {
  }

  datatype HttpError = BadRequest | TooLarge

  /** A decoded request; the flags are the verdicts of the language registry, TrimSpace, utf8.ValidString and webhook.Validate. */
  datatype Submission = Submission(
    code: string,
    stdin: string,
    languageKnown: bool,
    codeIsBlank: bool,
    validUtf8: bool,
    webhookOk: bool)

  /** The checks of handleCreateSubmission, in its order. */
  function Check(cfg: Settings, s: Submission): Result<Submission, HttpError> {
    if !s.languageKnown then Err(BadRequest)
    else if s.codeIsBlank then Err(BadRequest)
    else if |s.code| > cfg.maxCodeBytes then Err(TooLarge)
    else if |s.stdin| > cfg.maxStdinBytes then Err(TooLarge)
    else if !s.validUtf8 then Err(BadRequest)
    else if !s.webhookOk then Err(BadRequest)
    else Ok(s)
  }

  /** The texts fit the limits. */
  predicate Fits(cfg: Settings, s: Submission) {
    |s.code| <= cfg.maxCodeBytes && |s.stdin| <= cfg.maxStdinBytes
  }

  /**
   Which requests are accepted, and what the others are told: 413 if and only if all
   that is wrong before the encoding is looked at is a size, 400 otherwise. An accepted
   request is passed on unchanged.
   */
  lemma AcceptedIff(cfg: Settings, s: Submission)
    ensures Check(cfg, s) == Ok(s) <==> s.languageKnown && !s.codeIsBlank && Fits(cfg, s) && s.validUtf8 && s.webhookOk
    ensures Check(cfg, s) == Err(TooLarge) <==> s.languageKnown && !s.codeIsBlank && !Fits(cfg, s)
    ensures Check(cfg, s).Ok? ==> Check(cfg, s).value == s
  {
  }

  /** MAX_ARG_STRLEN: the most a single environment entry may occupy, its terminator included. */
  const MAX_ENTRY := 131_072

  function CodeEntry(code: string): string
    requires IsBytes(code)
  {
    "OCEE_CODE_B64=" + Encode(code)
  }

  lemma EntrySize(code: string)
    requires IsBytes(code)
    ensures |CodeEntry(code)| + 1 == 15 + EncodedSize(|code|)
  {
    EncodedLength(code);
  }

  /** The largest source that fits is 98292 bytes: below the validated limit there is room to spare. */
  lemma EntryFitsIff(code: string)
    requires IsBytes(code)
    ensures |CodeEntry(code)| + 1 <= MAX_ENTRY <==> |code| <= 98_292
  {
    EntrySize(code);
  }

  ghost predicate AllFit(limit: int) {
    forall code :: IsBytes(code) && |code| <= limit ==> |CodeEntry(code)| + 1 <= MAX_ENTRY
  }

  /** A limit on source code keeps every entry within the kernel's bound exactly up to 98292; Load stops at 90000. */
  lemma LimitIsSafeIff(limit: int)
    ensures AllFit(limit) <==> limit <= 98_292
  {
    forall code | IsBytes(code)
      ensures |CodeEntry(code)| + 1 <= MAX_ENTRY <==> |code| <= 98_292
    {
      EntryFitsIff(code);
    }
    var worst := seq(98_293, _ => 'a');
    assert IsBytes(worst) && |worst| == 98_293;
  }

  /**
   Every source the API accepts under a validated configuration fits its
   environment entry, and decoding the entry inside the sandbox restores it byte
   for byte.
   */
  lemma AcceptedCodeArrives(e: Environment, s: Submission)
    requires Load(e).Ok? && Check(Load(e).value, s).Ok? && IsBytes(s.code)
    ensures |CodeEntry(s.code)| + 1 <= 120_015 <= MAX_ENTRY
    ensures Decode(CodeEntry(s.code)[|"OCEE_CODE_B64="|..]) == Some(s.code)
  {
    EntrySize(s.code);
    RoundTrip(s.code);
    assert CodeEntry(s.code)[|"OCEE_CODE_B64="|..] == Encode(s.code);
  }
}
