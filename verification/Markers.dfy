/**
 The marker line: what the sandbox script prints last on stderr (`Emit`) and what
 the worker makes of the captured stream (`Extract`).

 The program under test writes to the same stream before the marker, so nothing
 is assumed about that text. The central fact is that the pattern the parser
 searches for cannot occur a second time inside the marker line, whatever the
 nonce, so searching for the last occurrence always finds the script's own line.
 */
module Markers {
  import opened Prelude
  import opened Text
  import opened Base64

  datatype Marker = Marker(
    phase: string,
    rc: int,
    cpuUsec: int,
    memBytes: int,
    secs: int,
    compileOutput: string)

  const NO_MARKER := Marker("", 0, 0, 0, 0, "")

  // ----------------------------------------------------------------- printer

  /** All the printer and parser need of a nonce. */
  predicate CleanNonce(nonce: string) {
    ' ' !in nonce && '\n' !in nonce
  }

  predicate IsHexDigit(c: char) {
    '0' <= c <= '9' || 'a' <= c <= 'f'
  }

  /** The nonces newNonce makes: 16 random bytes in hexadecimal between fixed ends. */
  predicate IsNonce(nonce: string) {
    && |nonce| == 41
    && nonce[..7] == "__OCEE_" && nonce[39..] == "__"
    && forall i :: 7 <= i < 39 ==> IsHexDigit(nonce[i])
  }

  lemma NoncesAreClean(nonce: string)
    requires IsNonce(nonce)
    ensures CleanNonce(nonce) && |nonce| == 41
  {
    forall i | 0 <= i < |nonce|
      ensures nonce[i] != ' ' && nonce[i] != '\n'
    {
      if i < 7 {
        assert nonce[i] == nonce[..7][i];
      } else if i >= 39 {
        assert nonce[i] == nonce[39..][i - 39];
      }
    }
  }

  function Field(key: string, value: string): string {
    key + "=" + value
  }

  function Words(phase: string, rc: int, cpuUsec: int, memBytes: int, secs: int, b64: string): seq<string> {
    [Field("phase", phase), Field("rc", Decimal(rc)), Field("cpu_usec", Decimal(cpuUsec)),
     Field("mem_bytes", Decimal(memBytes)), Field("secs", Decimal(secs)), Field("compile_b64", b64)]
  }

  /** The script's emit: printf '\n%s phase=%s rc=%s …\n'. */
  function Emit(nonce: string, phase: string, rc: int, cpuUsec: int, memBytes: int, secs: int, b64: string): string {
    "\n" + (nonce + " " + Join(Words(phase, rc, cpuUsec, memBytes, secs, b64))) + "\n"
  }

  // ------------------------------------------------------------------ parser

  /** One `key=value` field; unknown keys and fields without `=` are skipped, numbers that do not parse become 0. */
  function SetField(m: Marker, field: string): Marker {
    var (k, v, ok) := Cut(field, '=');
    if !ok then m
    else if k == "phase" then m.(phase := v)
    else if k == "rc" then m.(rc := ParseInt(v))
    else if k == "cpu_usec" then m.(cpuUsec := ParseInt(v))
    else if k == "mem_bytes" then m.(memBytes := ParseInt(v))
    else if k == "secs" then m.(secs := ParseInt(v))
    else if k == "compile_b64" && Decode(v).Some? then m.(compileOutput := Decode(v).value)
    else m
  }

  function SetFields(m: Marker, fields: seq<string>): Marker
    decreases |fields|
  {
    if fields == [] then m else SetFields(SetField(m, fields[0]), fields[1..])
  }

  /** What the parser searches for. */
  function Pattern(nonce: string): string {
    nonce + " phase="
  }

  function FirstLine(s: string): string {
    var nl := IndexByte(s, '\n');
    if nl >= 0 then s[..nl] else s
  }

  /** A negative CPU time counts as none. */
  function Clamped(m: Marker): Marker {
    if m.cpuUsec < 0 then m.(cpuUsec := 0) else m
  }

  /** The fields of the marker line that starts at `at`. */
  function MarkerAt(stderr: string, nonce: string, at: nat): Marker
    requires at <= |stderr|
  {
    Clamped(SetFields(NO_MARKER, Fields(TrimPrefix(FirstLine(stderr[at..]), nonce + " "))))
  }

  /** What extractMarker returns: the program's stderr, the marker, and whether one was found. */
  function Extract(stderr: string, nonce: string): (string, Marker, bool) {
    var idx := LastIndex(stderr, Pattern(nonce));
    if idx < 0 then (stderr, NO_MARKER, false)
    else
      var m := MarkerAt(stderr, nonce, idx);
      (TrimSuffix(stderr[..idx], "\n"), m, m.phase != "")
  }

  /** extractMarker, with its loop over the fields. */
  method ExtractMarker(stderr: string, nonce: string) returns (clean: string, m: Marker, found: bool)
    ensures (clean, m, found) == Extract(stderr, nonce)
  {
    var idx := LastIndex(stderr, nonce + " phase=");
    if idx < 0 {
      return stderr, NO_MARKER, false;
    }
    var line := stderr[idx..];
    var nl := IndexByte(line, '\n');
    if nl >= 0 {
      line := line[..nl];
    }
    clean := TrimSuffix(stderr[..idx], "\n");

    m := NO_MARKER;
    var fields := Fields(TrimPrefix(line, nonce + " "));
    var i := 0;
    while i < |fields|
      invariant 0 <= i <= |fields|
      invariant SetFields(m, fields[i..]) == SetFields(NO_MARKER, fields)
    {
      var (k, v, ok) := Cut(fields[i], '=');
      if ok {
        match k {
          case "phase" => m := m.(phase := v);
          case "rc" => m := m.(rc := ParseInt(v));
          case "cpu_usec" => m := m.(cpuUsec := ParseInt(v));
          case "mem_bytes" => m := m.(memBytes := ParseInt(v));
          case "secs" => m := m.(secs := ParseInt(v));
          case "compile_b64" =>
            var raw := Decode(v);
            if raw.Some? {
              m := m.(compileOutput := raw.value);
            }
          case _ =>
        }
      }
      assert fields[i..][1..] == fields[i + 1..];
      i := i + 1;
    }
    if m.cpuUsec < 0 {
      m := m.(cpuUsec := 0);
    }
    found := m.phase != "";
  }

  // ------------------------------------------- the pattern does not recur

  /** No blank of `t` is followed by a `p`. */
  predicate Quiet(t: string) {
    forall q :: 0 <= q && q + 1 < |t| && t[q] == ' ' ==> t[q + 1] != 'p'
  }

  lemma QuietConcat(a: string, b: string)
    requires Quiet(a) && Quiet(b)
    requires a == "" || b == "" || a[|a| - 1] != ' ' || b[0] != 'p'
    ensures Quiet(a + b)
  {
    forall q | 0 <= q && q + 1 < |a + b| && (a + b)[q] == ' '
      ensures (a + b)[q + 1] != 'p'
    {
      if q + 1 < |a| {
        assert a[q] == ' ';
      } else if q >= |a| {
        assert b[q - |a|] == ' ';
      }
    }
  }

  /** Words of which only the first may begin with a `p`. */
  predicate QuietWords(words: seq<string>) {
    && (forall i :: 0 <= i < |words| ==> IsWord(words[i]))
    && (forall i :: 1 <= i < |words| ==> words[i][0] != 'p')
  }

  lemma {:induction false} QuietJoin(words: seq<string>)
    requires QuietWords(words)
    ensures Quiet(Join(words))
  {
    if |words| > 1 {
      QuietJoin(words[1..]);
      var rest := Join(words[1..]);
      JoinStarts(words[1..]);
      QuietConcat(" ", rest);
      QuietConcat(words[0], " " + rest);
      assert words[0] + (" " + rest) == words[0] + " " + rest;
    }
  }

  lemma JoinStarts(words: seq<string>)
    requires words != [] && IsWord(words[0])
    ensures Join(words) != "" && Join(words)[0] == words[0][0]
  {
  }

  lemma {:induction false} JoinHasNoNewline(words: seq<string>)
    requires forall i :: 0 <= i < |words| ==> IsWord(words[i])
    ensures '\n' !in Join(words)
  {
    if words != [] {
      NoSpaceLacks(words[0], '\n');
      JoinHasNoNewline(words[1..]);
    }
  }

  lemma WordsAreWords(phase: string, rc: int, cpuUsec: int, memBytes: int, secs: int, b64: string)
    requires NoSpace(phase) && NoSpace(b64)
    ensures QuietWords(Words(phase, rc, cpuUsec, memBytes, secs, b64))
  {
    DecimalIsWord(rc);
    DecimalIsWord(cpuUsec);
    DecimalIsWord(memBytes);
    DecimalIsWord(secs);
  }

  lemma WordsStartWithPhase(phase: string, rc: int, cpuUsec: int, memBytes: int, secs: int, b64: string)
    ensures "phase=" + phase <= Join(Words(phase, rc, cpuUsec, memBytes, secs, b64))
  {
    var ws := Words(phase, rc, cpuUsec, memBytes, secs, b64);
    assert ws[0] == "phase=" + phase;
    assert Join(ws) == ws[0] + " " + Join(ws[1..]);
  }

  /** An occurrence of the pattern has a blank followed by a `p` right after the nonce. */
  lemma PatternHasBlankP(s: string, nonce: string, j: int)
    requires OccursAt(s, Pattern(nonce), j)
    ensures j + |nonce| + 1 < |s| && s[j + |nonce|] == ' ' && s[j + |nonce| + 1] == 'p'
  {
    var p := Pattern(nonce);
    assert p[|nonce|] == ' ' && p[|nonce| + 1] == 'p';
    assert s[j..j + |p|][|nonce|] == s[j + |nonce|];
    assert s[j..j + |p|][|nonce| + 1] == s[j + |nonce| + 1];
  }

  /** After the first one, a quiet line leaves no room for another occurrence of the pattern. */
  lemma PatternDoesNotRecur(before: string, nonce: string, quiet: string, j: int)
    requires Quiet(quiet)
    requires j > |before|
    ensures !OccursAt(before + (nonce + " " + quiet), Pattern(nonce), j)
  {
    var s := before + (nonce + " " + quiet);
    var at := |before| + |nonce| + 1;
    assert s[at..] == quiet;
    if OccursAt(s, Pattern(nonce), j) {
      PatternHasBlankP(s, nonce, j);
    }
  }

  lemma FoundLast(before: string, nonce: string, quiet: string)
    requires Quiet(quiet) && "phase=" <= quiet
    ensures LastIndex(before + (nonce + " " + quiet), Pattern(nonce)) == |before|
  {
    var s := before + (nonce + " " + quiet);
    assert Pattern(nonce) == nonce + " " + "phase=";
    assert OccursAt(s, Pattern(nonce), |before|);
    forall j | |before| < j
      ensures !OccursAt(s, Pattern(nonce), j)
    {
      PatternDoesNotRecur(before, nonce, quiet, j);
    }
    LastIndexIs(s, Pattern(nonce), |before|);
  }

  // -------------------------------------------------------------- round trip

  lemma FirstLineIs(line: string, rest: string)
    requires '\n' !in line
    ensures FirstLine(line + "\n" + rest) == line
    ensures FirstLine(line) == line
  {
    var s := line + "\n" + rest;
    assert s[..|line|] == line && s[|line|] == '\n';
    IndexByteIs(s, '\n', |line|);
    IndexByteNone(line, '\n');
  }

  /** Parsing the printed fields gives their values back. */
  lemma SetFieldsOfWords(phase: string, rc: int, cpuUsec: int, memBytes: int, secs: int, b64: string)
    requires IsInt64(rc) && IsInt64(cpuUsec) && IsInt64(memBytes) && IsInt64(secs)
    ensures SetFields(NO_MARKER, Words(phase, rc, cpuUsec, memBytes, secs, b64)) ==
            Marker(phase, rc, cpuUsec, memBytes, secs, if Decode(b64).Some? then Decode(b64).value else "")
  {
    var ws := Words(phase, rc, cpuUsec, memBytes, secs, b64);
    CutAtFirst("phase", '=', phase);
    CutAtFirst("rc", '=', Decimal(rc));
    CutAtFirst("cpu_usec", '=', Decimal(cpuUsec));
    CutAtFirst("mem_bytes", '=', Decimal(memBytes));
    CutAtFirst("secs", '=', Decimal(secs));
    CutAtFirst("compile_b64", '=', b64);
    ParseIntOfDecimal(rc);
    ParseIntOfDecimal(cpuUsec);
    ParseIntOfDecimal(memBytes);
    ParseIntOfDecimal(secs);
    var m1 := SetField(NO_MARKER, ws[0]);
    var m2 := SetField(m1, ws[1]);
    var m3 := SetField(m2, ws[2]);
    var m4 := SetField(m3, ws[3]);
    var m5 := SetField(m4, ws[4]);
    var m6 := SetField(m5, ws[5]);
    SixFields(ws);
    assert SetFields(NO_MARKER, ws) == m6;
  }

  lemma SixFields(ws: seq<string>)
    requires |ws| == 6
    ensures SetFields(NO_MARKER, ws) ==
            SetField(SetField(SetField(SetField(SetField(SetField(NO_MARKER, ws[0]), ws[1]), ws[2]), ws[3]), ws[4]), ws[5])
  {
    var m1 := SetField(NO_MARKER, ws[0]);
    var m2 := SetField(m1, ws[1]);
    var m3 := SetField(m2, ws[2]);
    var m4 := SetField(m3, ws[3]);
    var m5 := SetField(m4, ws[4]);
    var m6 := SetField(m5, ws[5]);
    assert ws[1..][1..] == ws[2..] && ws[2..][1..] == ws[3..] && ws[3..][1..] == ws[4..] && ws[4..][1..] == ws[5..];
    assert ws[5..][1..] == [];
    assert SetFields(m6, []) == m6;
    assert SetFields(m5, ws[5..]) == m6;
    assert SetFields(m4, ws[4..]) == m6;
    assert SetFields(m3, ws[3..]) == m6;
    assert SetFields(m2, ws[2..]) == m6;
    assert SetFields(m1, ws[1..]) == m6;
  }

  /** A marker line that ends the stream, cut off or not before its newline, is read field by field. */
  lemma ExtractBody(stderr: string, nonce: string, body: string, end: string)
    requires CleanNonce(nonce) && Quiet(body) && "phase=" <= body && '\n' !in body
    requires end == "" || end == "\n"
    ensures var s := stderr + ("\n" + (nonce + " " + body) + end);
            var m := SetFields(NO_MARKER, Fields(body));
            Extract(s, nonce) == (stderr, Clamped(m), m.phase != "")
  {
    hide SetFields, Fields, Quiet, LastIndex, TrimPrefix, TrimSuffix, FirstLine;
    var line := nonce + " " + body;
    var before := stderr + "\n";
    LineSlices(stderr, nonce, body, end);
    QuietEnd(body, end);
    FoundLast(before, nonce, body + end);
    FirstLineIs(line, "");
    assert line + "\n" + "" == line + "\n" && line + "" == line;
  }

  lemma QuietEnd(body: string, end: string)
    requires Quiet(body) && (end == "" || end == "\n") && "phase=" <= body
    ensures Quiet(body + end) && "phase=" <= body + end
  {
    QuietConcat(body, end);
  }

  lemma LineSlices(stderr: string, nonce: string, body: string, end: string)
    ensures var line := nonce + " " + body;
            var before := stderr + "\n";
            var s := stderr + ("\n" + line + end);
            && s == before + (nonce + " " + (body + end))
            && s[|before|..] == line + end && s[..|before|] == before
            && TrimPrefix(line, nonce + " ") == body && TrimSuffix(before, "\n") == stderr
  {
  }

  lemma ExtractLine(stderr: string, nonce: string, words: seq<string>, end: string)
    requires CleanNonce(nonce) && words != [] && QuietWords(words) && "phase=" <= Join(words)
    requires end == "" || end == "\n"
    ensures var s := stderr + ("\n" + (nonce + " " + Join(words)) + end);
            var m := SetFields(NO_MARKER, words);
            Extract(s, nonce) == (stderr, Clamped(m), m.phase != "")
  {
    hide Extract, SetFields;
    QuietJoin(words);
    JoinHasNoNewline(words);
    ExtractBody(stderr, nonce, Join(words), end);
    FieldsOfJoin(words);
  }

  /**
   Parsing undoes printing: for every program stderr (even one that ends in
   newlines or contains marker lines of its own with the same nonce), every phase
   and all int64 values, the program's stderr and the values come back, with a
   negative CPU time reported as zero.
   */
  lemma ExtractUndoesEmit(
    stderr: string, nonce: string, phase: string, rc: int, cpuUsec: int, memBytes: int, secs: int, b64: string)
    requires CleanNonce(nonce) && phase != "" && NoSpace(phase) && NoSpace(b64)
    requires IsInt64(rc) && IsInt64(cpuUsec) && IsInt64(memBytes) && IsInt64(secs)
    ensures Extract(stderr + Emit(nonce, phase, rc, cpuUsec, memBytes, secs, b64), nonce) ==
            (stderr,
             Marker(phase, rc, Max(cpuUsec, 0), memBytes, secs, if Decode(b64).Some? then Decode(b64).value else ""),
             true)
  {
    WordsAreWords(phase, rc, cpuUsec, memBytes, secs, b64);
    WordsStartWithPhase(phase, rc, cpuUsec, memBytes, secs, b64);
    ExtractLine(stderr, nonce, Words(phase, rc, cpuUsec, memBytes, secs, b64), "\n");
    SetFieldsOfWords(phase, rc, cpuUsec, memBytes, secs, b64);
  }
}
